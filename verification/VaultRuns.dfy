/** Particular runs: two ways key material is stranded, a mirror that is wrong, and a lock that an
    overlapping unlock undoes. */
module VaultRuns {
  import opened KeyHolder
  import opened VaultHost
  import opened VaultLifecycle
  import opened VaultWorld
  import opened Wrappers

  lemma Extend(steps: seq<Step>, step: Step)
    requires After(steps).Some? && Enabled(After(steps).value, step)
    ensures After(steps + [step]) == Some(Next(After(steps).value, step))
  {
    assert (steps + [step])[..|steps|] == steps;
  }

  /** An unlock up to the start of `prepare`'s second leg. */
  const DERIVED: seq<Step> := [CallUnlock, ChallengeReply(0, true), WorkerTakes, WorkerResumes(0, true)]

  lemma DerivedWorld()
    ensures var keys := Keys(true, false, false, false);
            After(DERIVED) == Some(World(Start().host, keys,
              [Call(Prepare, Some(0), Running(Proving), 0, 0, false, false)], 1, [AwaitProof(0)], 2, None))
  {
    var s1 := [CallUnlock];
    var s2 := s1 + [ChallengeReply(0, true)];
    var s3 := s2 + [WorkerTakes];
    Extend([], CallUnlock);
    assert [] + [CallUnlock] == s1;
    assert After(s1).value.ops == [AwaitChallenge];
    Extend(s1, ChallengeReply(0, true));
    assert After(s2).value.ops == [AwaitProof(0)];
    assert After(s2).value.calls == [Call(Prepare, Some(0), Queued, 0, 0, false, false)];
    Extend(s2, WorkerTakes);
    assert After(s3).value.calls == [Call(Prepare, Some(0), Running(Deriving), 0, 0, false, false)];
    assert After(s3).value.keys == LOCKED && After(s3).value.clock == 1 && After(s3).value.taken == 1;
    Extend(s3, WorkerResumes(0, true));
    assert DERIVED == s3 + [WorkerResumes(0, true)];
    var w := After(DERIVED).value;
    assert w.host == Start().host;
    assert w.keys == LOCKED.(preparation := true);
    assert w.calls == [Call(Prepare, Some(0), Running(Proving), 0, 0, false, false)];
    assert w.ops == [AwaitProof(0)];
    assert w.taken == 1 && w.clock == 2 && w.shown == None;
  }

  /** The server's public value is refused after the keys were derived: they stay, and nothing is left
      that would ever drop them. */
  lemma RefusedProofStrands()
    ensures var run := DERIVED + [WorkerResumes(0, false)] + [Delivers(0)];
            After(run).Some? && Quiet(After(run).value) && Material(After(run).value.keys)
  {
    DerivedWorld();
    var refused := DERIVED + [WorkerResumes(0, false)];
    Extend(DERIVED, WorkerResumes(0, false));
    Extend(refused, Delivers(0));
    var w := After(refused + [Delivers(0)]).value;
    assert w.ops == [Ended(Failed)] && w.taken == |w.calls| == 1;
  }

  /** ... and a lock posted and processed while that leg is suspended. */
  const BETWEEN: seq<Step> := DERIVED + [CallLock(false)] + [WorkerTakes]

  lemma BetweenWorld()
    ensures After(BETWEEN).Some?
    ensures var w := After(BETWEEN).value;
            && w.keys == LOCKED && w.host.idle.None? && w.taken == |w.calls| == 2
            && w.ops == [AwaitProof(0), Ended(Done)]
            && w.calls[0] == Call(Prepare, Some(0), Running(Proving), 0, 0, false, false)
  {
    hide After;
    DerivedWorld();
    Extend(DERIVED, CallLock(false));
    Extend(DERIVED + [CallLock(false)], WorkerTakes);
  }

  /** A lock processed between the two legs: the second leg puts a session back and then fails. */
  lemma LockBetweenLegsStrands()
    ensures var run := BETWEEN + [WorkerResumes(0, true)] + [Delivers(0)];
            After(run).Some? && Quiet(After(run).value) && Material(After(run).value.keys)
  {
    hide After, BETWEEN;
    BetweenWorld();
    Extend(BETWEEN, WorkerResumes(0, true));
    Extend(BETWEEN + [WorkerResumes(0, true)], Delivers(0));
    var w := After(BETWEEN + [WorkerResumes(0, true)] + [Delivers(0)]).value;
    assert w.ops == [Ended(Failed), Ended(Done)] && w.taken == |w.calls| == 2;
  }

  /** An unlock up to the worker's answer to `finish`, still in flight. */
  const FINISHED: seq<Step> :=
    DERIVED + [WorkerResumes(0, true)] + [Delivers(0)] + [VerifyReply(0, Grant("token", "expiry"))]
    + [WorkerTakes] + [WorkerResumes(1, true)]

  lemma FinishedWorld()
    ensures After(FINISHED).Some?
    ensures var w := After(FINISHED).value;
            && w.host == Start().host && w.keys.vault && w.taken == |w.calls| == 2
            && w.ops == [AwaitFinish(1, "token", "expiry")]
            && w.calls[1].state == Answered(Unlocked(true)) && w.calls[1].op == Some(0)
  {
    DerivedWorld();
    var proved := DERIVED + [WorkerResumes(0, true)] + [Delivers(0)];
    Extend(DERIVED, WorkerResumes(0, true));
    Extend(DERIVED + [WorkerResumes(0, true)], Delivers(0));
    assert After(proved).value.ops == [AwaitVerify];
    var granted := VerifyReply(0, Grant("token", "expiry"));
    Extend(proved, granted);
    assert After(proved + [granted]).value.calls[1] == Call(Finish, Some(0), Queued, 0, 0, false, false);
    Extend(proved + [granted], WorkerTakes);
    Extend(proved + [granted] + [WorkerTakes], WorkerResumes(1, true));
  }

  /** `lock()` while that answer is in flight: it arrives afterwards, sets the mirror back, and the host
      shows an open vault over a locked worker with no lock left to process. */
  lemma MirrorCanBeWrong()
    ensures var run := FINISHED + [CallLock(false)] + [WorkerTakes] + [Delivers(1)];
            && After(run).Some?
            && var w := After(run).value;
               ShowsUnlocked(w.host) && Admits(w.host) && w.keys == LOCKED && !LockQueued(w)
  {
    FinishedWorld();
    var w := After(FINISHED).value;
    Extend(FINISHED, CallLock(false));
    var locked := FINISHED + [CallLock(false)];
    assert After(locked).value.ops[0] == w.ops[0] && After(locked).value.calls[1] == w.calls[1];
    assert After(locked).value.calls[2].kind == Lock;
    Extend(locked, WorkerTakes);
    Extend(locked + [WorkerTakes], Delivers(1));
  }

  /** An unlock whose `finish` the worker has started. */
  const UNWRAPPING: seq<Step> :=
    DERIVED + [WorkerResumes(0, true)] + [Delivers(0)] + [VerifyReply(0, Grant("token", "expiry"))] + [WorkerTakes]

  lemma UnwrappingWorld()
    ensures After(UNWRAPPING).Some?
    ensures var w := After(UNWRAPPING).value;
            && w.host == Start().host && w.keys == Keys(true, true, false, true) && w.taken == |w.calls| == 2
            && w.ops == [AwaitFinish(1, "token", "expiry")]
            && w.calls[1].state == Running(Unwrapping) && w.calls[1].op == Some(0) && w.calls[1].kind == Finish
  {
    hide After;
    DerivedWorld();
    var proved := DERIVED + [WorkerResumes(0, true)] + [Delivers(0)];
    Extend(DERIVED, WorkerResumes(0, true));
    Extend(DERIVED + [WorkerResumes(0, true)], Delivers(0));
    var granted := VerifyReply(0, Grant("token", "expiry"));
    Extend(proved, granted);
    Extend(proved + [granted], WorkerTakes);
  }

  /** ... a second unlock at the start of its second leg, and a lock that both of them have missed. */
  const OVERTAKEN: seq<Step> :=
    UNWRAPPING + [CallUnlock] + [ChallengeReply(1, true)] + [WorkerTakes] + [WorkerResumes(2, true)]
    + [CallLock(false)] + [WorkerTakes]

  lemma OvertakenWorld()
    ensures After(OVERTAKEN).Some?
    ensures var w := After(OVERTAKEN).value;
            && w.host == Start().host && w.keys == LOCKED && w.taken == |w.calls| == 4
            && w.ops == [AwaitFinish(1, "token", "expiry"), AwaitProof(2), Ended(Done)]
            && w.calls[1].state == Running(Unwrapping) && w.calls[1].op == Some(0)
            && w.calls[2].state == Running(Proving) && w.calls[2].op == Some(1)
            && w.calls[3].kind == Lock
  {
    hide After, UNWRAPPING;
    UnwrappingWorld();
    var s1 := UNWRAPPING + [CallUnlock];
    var s2 := s1 + [ChallengeReply(1, true)];
    var s3 := s2 + [WorkerTakes];
    var s4 := s3 + [WorkerResumes(2, true)];
    Extend(UNWRAPPING, CallUnlock);
    assert After(s1).value.ops == [AwaitFinish(1, "token", "expiry"), AwaitChallenge];
    Extend(s1, ChallengeReply(1, true));
    assert After(s2).value.calls[2] == Call(Prepare, Some(1), Queued, 0, 0, false, false);
    Extend(s2, WorkerTakes);
    assert After(s3).value.calls[2].state == Running(Deriving);
    Extend(s3, WorkerResumes(2, true));
    assert After(s4).value.calls[2].state == Running(Proving);
    LockTaken(s4);
  }

  lemma LockTaken(steps: seq<Step>)
    requires After(steps).Some? && After(steps).value.taken == |After(steps).value.calls|
    ensures After(steps + [CallLock(false)] + [WorkerTakes]).Some?
    ensures var w, w' := After(steps).value, After(steps + [CallLock(false)] + [WorkerTakes]).value;
            && w'.keys == LOCKED && w'.host == Dropped(w.host) && w'.taken == |w'.calls| == |w.calls| + 1
            && w'.calls[..|w.calls|] == w.calls && w'.calls[|w.calls|].kind == Lock && w'.ops == w.ops + [Ended(Done)]
  {
    hide After;
    Extend(steps, CallLock(false));
    assert After(steps + [CallLock(false)]).value.calls[|After(steps).value.calls|].kind == Lock;
    Extend(steps + [CallLock(false)], WorkerTakes);
  }

  const REOPENED: seq<Step> := OVERTAKEN + [WorkerResumes(2, true)] + [WorkerResumes(1, true)] + [Delivers(1)]

  lemma ReopenedWorld()
    ensures After(REOPENED).Some?
    ensures var w := After(REOPENED).value;
            Admits(w.host) && Readable(w.keys) && w.taken == |w.calls| == 4 && |w.ops| == 3 && w.calls[3].kind == Lock
  {
    hide After, OVERTAKEN;
    OvertakenWorld();
    var s1 := OVERTAKEN + [WorkerResumes(2, true)];
    var s2 := s1 + [WorkerResumes(1, true)];
    Extend(OVERTAKEN, WorkerResumes(2, true));
    Extend(s1, WorkerResumes(1, true));
    assert Readable(After(s2).value.keys) && After(s2).value.calls[1].state == Answered(Unlocked(true));
    Extend(s2, Delivers(1));
  }

  lemma ReadGranted(steps: seq<Step>, o: nat)
    requires After(steps).Some? && o == |After(steps).value.ops|
    requires var w := After(steps).value; Admits(w.host) && Readable(w.keys) && w.taken == |w.calls|
    ensures After(steps + [CallRead(Summarise)] + [PageReply(o, true)] + [WorkerTakes]).Some?
    ensures var run := steps + [CallRead(Summarise)] + [PageReply(o, true)] + [WorkerTakes];
            var w, w' := After(steps).value, After(run).value;
            && |w'.calls| == |w.calls| + 1 && w'.calls[..|w.calls|] == w.calls
            && w'.calls[|w.calls|].kind == Summarise && w'.calls[|w.calls|].granted
  {
    hide After, Touched;
    var s1 := steps + [CallRead(Summarise)];
    var s2 := s1 + [PageReply(o, true)];
    Extend(steps, CallRead(Summarise));
    assert After(s1).value.ops[o] == AwaitPage(Summarise);
    Extend(s1, PageReply(o, true));
    Extend(s2, WorkerTakes);
  }

  /** The overlapping second leg names the user, the overtaken `finish` opens the vault, and a read posted
      after the lock finds it readable although every unlock began before it. */
  lemma OverlappingUnlockReopens()
    ensures var run := REOPENED + [CallRead(Summarise)] + [PageReply(3, true)] + [WorkerTakes];
            && After(run).Some?
            && var w := After(run).value;
               |w.calls| == 5 && w.calls[3].kind == Lock && w.calls[4].kind == Summarise && w.calls[4].granted
  {
    hide After, REOPENED;
    ReopenedWorld();
    ReadGranted(REOPENED, 3);
  }
}
