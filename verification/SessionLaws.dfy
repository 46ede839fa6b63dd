/** What holds of the paired session in every interleaving: what the device stores, and what ends a session. */
module SessionLaws {
  import opened Session
  import opened Wrappers

  // ---------------------------------------------------------------- every interleaving

  /** A run has posted one call, and after a refusal one refresh and one retry. */
  predicate Modest(run: Run) {
    match run.phase
    case Calling => run.posts == [Call]
    case Refreshing => run.posts == [Call, Refresh]
    case Retrying(_) => run.posts == [Call, Refresh, Call]
    case Ended(_) =>
      run.posts == [Call] || run.posts == [Call, Refresh] || run.posts == [Call, Refresh, Call]
  }

  /** A run's tokens are known to the device; an issued pair not yet received is the newest one, which the
      device does not know; a logout that was granted has ended the session. */
  predicate RunOk(w: World, run: Run) {
    && run.start <= w.known
    && (run.phase.Retrying? ==> run.phase.token <= w.known)
    && (run.reply.Some? && !run.closed ==> match run.reply.value
          case Issued(p) => run.phase.Refreshing? && p.generation == w.identity.generation == w.known + 1
          case Granted(ok) => !run.phase.Refreshing? && (run.purpose.Logout? && ok ==> !w.identity.live)
          case Denied(_) => true)
    && (run.purpose.Logout? && run.phase == Ended(Answered(true)) ==> !w.identity.live)
  }

  ghost predicate Sound(w: World) {
    && w.known <= w.identity.generation <= w.known + 1
    && (w.client.held.Some? ==> w.client.held.value <= w.known)
    && (w.client.stored.Some? ==> w.client.stored.value == w.known)
    && (forall r :: 0 <= r < |w.runs| ==> RunOk(w, w.runs[r]) && Modest(w.runs[r]))
    && (forall q, r :: 0 <= q < r < |w.runs| ==> !(HasNewPair(w.runs[q]) && HasNewPair(w.runs[r])))
  }

  /** Identity has rotated for this run and the device has not received the new pair. */
  predicate HasNewPair(run: Run) { run.reply.Some? && run.reply.value.Issued? && !run.closed }

  lemma HandleSound(w: World, r: nat, ok: bool, missing: set<Field>)
    requires Sound(w) && Enabled(w, Arrives(r, ok, missing))
    ensures Sound(Next(w, Arrives(r, ok, missing)))
  {
    var w' := Next(w, Arrives(r, ok, missing));
    assert RunOk(w, w.runs[r]);
    forall i | 0 <= i < |w'.runs| ensures RunOk(w', w'.runs[i]) && Modest(w'.runs[i]) {
      assert RunOk(w, w.runs[i]);
    }
  }

  lemma ReceivedRunOk(w: World, r: nat, reply: Option<Reply>, i: nat)
    requires Sound(w) && r < |w.runs| && !Over(w.runs[r]) && (reply.None? || reply == w.runs[r].reply) && i < |w.runs|
    ensures RunOk(Receive(w, r, reply), Receive(w, r, reply).runs[i]) && Modest(Receive(w, r, reply).runs[i])
  {
    hide Finished;
    assert RunOk(w, w.runs[r]) && Modest(w.runs[r]);
    assert RunOk(w, w.runs[i]) && Modest(w.runs[i]);
  }

  lemma ReceiveSound(w: World, r: nat, reply: Option<Reply>)
    requires Sound(w) && r < |w.runs| && !Over(w.runs[r]) && (reply.None? || reply == w.runs[r].reply)
    ensures Sound(Receive(w, r, reply))
  {
    hide Modest;
    var w' := Receive(w, r, reply);
    assert RunOk(w, w.runs[r]);
    forall i | 0 <= i < |w'.runs| ensures RunOk(w', w'.runs[i]) && Modest(w'.runs[i]) {
      ReceivedRunOk(w, r, reply, i);
    }
  }

  lemma OtherSound(w: World, step: Step)
    requires Sound(w) && Enabled(w, step) && !step.Arrives? && !step.Delivers? && !step.Fails?
    ensures Sound(Next(w, step))
  {
    var w' := Next(w, step);
    forall i | 0 <= i < |w'.runs| ensures RunOk(w', w'.runs[i]) && Modest(w'.runs[i]) {
      if i < |w.runs| { assert RunOk(w, w.runs[i]) && Modest(w.runs[i]); }
    }
  }

  lemma StepKeepsSound(w: World, step: Step)
    requires Sound(w) && Enabled(w, step)
    ensures Sound(Next(w, step))
  {
    hide Sound, Resumed, Handle;
    match step {
      case Arrives(r, ok, missing) => HandleSound(w, r, ok, missing);
      case Delivers(r) => ReceiveSound(w, r, w.runs[r].reply);
      case Fails(r) => ReceiveSound(w, r, None);
      case _ => OtherSound(w, step);
    }
  }

  lemma {:induction false} AlwaysSound(steps: seq<Step>)
    requires After(steps).Some?
    ensures Sound(After(steps).value)
  {
    if steps != [] {
      hide Sound, Next, Enabled;
      var before := steps[..|steps| - 1];
      AlwaysSound(before);
      StepKeepsSound(After(before).value, steps[|steps| - 1]);
    }
  }

  /** At most two calls and one refresh. */
  lemma AtMostTwoCalls(steps: seq<Step>, r: nat)
    requires After(steps).Some? && r < |After(steps).value.runs|
    ensures After(steps).value.runs[r].posts <= [Call, Refresh, Call]
  {
    AlwaysSound(steps);
    assert Modest(After(steps).value.runs[r]);
  }

  /** The stored refresh token is the session's current one or the one before it, never older. */
  lemma StoredIsCurrentOrPrevious(steps: seq<Step>)
    requires After(steps).Some? && After(steps).value.client.stored.Some?
    ensures var w := After(steps).value;
            w.client.stored.value <= w.identity.generation <= w.client.stored.value + 1
  {
    AlwaysSound(steps);
  }

  // ---------------------------------------------------------------- lost rotations

  ghost predicate Pending(w: World) { exists r :: 0 <= r < |w.runs| && HasNewPair(w.runs[r]) }

  /** The reply to a rotation is lost on the way, arrives with a field missing, or has no popup left to
      receive it: closed while it was on its way, or before identity rotated. */
  ghost predicate LosesPair(w: World, step: Step) {
    match step
    case Fails(r) => r < |w.runs| && HasNewPair(w.runs[r])
    case Delivers(r) => r < |w.runs| && HasNewPair(w.runs[r]) && w.runs[r].reply.value.payload.missing != {}
    case Closes => Pending(w)
    case Arrives(r, _, _) =>
      && r < |w.runs| && w.runs[r].closed && w.runs[r].phase.Refreshing?
      && w.identity.live && w.runs[r].start == w.identity.generation
    case _ => false
  }

  ghost predicate PairLost(steps: seq<Step>)
    requires After(steps).Some?
  {
    steps != [] &&
    (PairLost(steps[..|steps| - 1]) || LosesPair(After(steps[..|steps| - 1]).value, steps[|steps| - 1]))
  }

  ghost predicate Tracked(w: World, lost: bool) {
    && (w.known + 1 == w.identity.generation <==> Pending(w) || lost)
    && !(Pending(w) && lost)
  }

  lemma ReceiveTracked(w: World, r: nat, reply: Option<Reply>, lost: bool)
    requires Sound(w) && Tracked(w, lost) && r < |w.runs| && !Over(w.runs[r])
    requires reply.None? || reply == w.runs[r].reply
    ensures Tracked(Receive(w, r, reply),
                    lost || (HasNewPair(w.runs[r]) && (reply.None? || reply.value.payload.missing != {})))
  {
    var w' := Receive(w, r, reply);
    assert RunOk(w, w.runs[r]);
    if HasNewPair(w.runs[r]) {
      assert Pending(w);
    } else if q :| 0 <= q < |w.runs| && HasNewPair(w.runs[q]) {
      assert HasNewPair(w'.runs[q]);
    }
  }

  lemma HandleTracked(w: World, r: nat, ok: bool, missing: set<Field>, lost: bool)
    requires Sound(w) && Tracked(w, lost) && Enabled(w, Arrives(r, ok, missing))
    ensures Tracked(Next(w, Arrives(r, ok, missing)), lost || LosesPair(w, Arrives(r, ok, missing)))
  {
    var w' := Next(w, Arrives(r, ok, missing));
    assert RunOk(w, w.runs[r]);
    assert forall q :: 0 <= q < |w.runs| && q != r ==> w'.runs[q] == w.runs[q];
    if q :| 0 <= q < |w.runs| && HasNewPair(w.runs[q]) {
      assert RunOk(w, w.runs[q]);
      assert HasNewPair(w'.runs[q]);
    }
    if HasNewPair(w'.runs[r]) { assert Pending(w'); }
  }

  lemma ClosingTracked(w: World, lost: bool)
    requires Sound(w) && Tracked(w, lost)
    ensures Tracked(Next(w, Closes), lost || Pending(w))
  {
    forall q | 0 <= q < |w.runs| ensures !HasNewPair(Next(w, Closes).runs[q]) { assert RunOk(w, w.runs[q]); }
  }

  lemma StepKeepsTracked(w: World, step: Step, lost: bool)
    requires Sound(w) && Tracked(w, lost) && Enabled(w, step)
    ensures Tracked(Next(w, step), lost || LosesPair(w, step))
  {
    hide Sound;
    match step {
      case Arrives(r, ok, missing) => HandleTracked(w, r, ok, missing, lost);
      case Delivers(r) => ReceiveTracked(w, r, w.runs[r].reply, lost);
      case Fails(r) => ReceiveTracked(w, r, None, lost);
      case Closes =>
        ClosingTracked(w, lost);
      case _ =>
        var w' := Next(w, step);
        if q :| 0 <= q < |w.runs| && HasNewPair(w.runs[q]) { assert HasNewPair(w'.runs[q]); }
    }
  }

  lemma {:induction false} AlwaysTracked(steps: seq<Step>)
    requires After(steps).Some?
    ensures Tracked(After(steps).value, PairLost(steps))
  {
    if steps != [] {
      hide Sound, Tracked, Next, Enabled, LosesPair;
      var before := steps[..|steps| - 1];
      AlwaysTracked(before);
      AlwaysSound(before);
      StepKeepsTracked(After(before).value, steps[|steps| - 1], PairLost(before));
    }
  }

  /** In every interleaving, the stored tokens are one rotation behind identity's exactly while the newest
      pair is on its way, or for good once it was lost; never both. */
  lemma BehindIffInTransit(steps: seq<Step>)
    requires After(steps).Some? && After(steps).value.client.stored.Some?
    ensures var w := After(steps).value;
            && (w.client.stored.value + 1 == w.identity.generation <==> Pending(w) || PairLost(steps))
            && (w.client.stored.value == w.identity.generation <==> !Pending(w) && !PairLost(steps))
            && !(Pending(w) && PairLost(steps))
  {
    AlwaysSound(steps);
    AlwaysTracked(steps);
    hide Pending, PairLost;
  }

  // ---------------------------------------------------------------- what ends a session

  predicate LogoutSucceeds(w: World, step: Step) {
    && step.Arrives? && step.run < |w.runs| && step.ok && w.runs[step.run].purpose.Logout?
    && match w.runs[step.run].phase
       case Calling => w.runs[step.run].start == w.identity.generation && !w.identity.expired
       case Retrying(token) => token == w.identity.generation && !w.identity.expired
       case _ => false
  }

  /** A refresh out of turn: on the newest pair the device has, when identity has issued a newer one that is
      still on its way or was lost; or on the pair before, when the device has the newest. */
  ghost predicate OutOfTurn(steps: seq<Step>, step: Step)
    requires After(steps).Some?
  {
    var w := After(steps).value;
    && step.Arrives? && step.run < |w.runs| && w.runs[step.run].phase.Refreshing?
    && w.runs[step.run].start + (if Pending(w) || PairLost(steps) then 0 else 1) == w.known
  }

  ghost predicate EndsSession(steps: seq<Step>, step: Step)
    requires After(steps).Some?
  {
    step.Revokes? || LogoutSucceeds(After(steps).value, step) || OutOfTurn(steps, step)
  }

  /** In every interleaving, a live session ends exactly when its owner revokes it, a logout succeeds, or a
      refresh arrives out of turn. */
  lemma SessionEndsIff(steps: seq<Step>, step: Step)
    requires After(steps).Some? && Enabled(After(steps).value, step) && After(steps).value.identity.live
    ensures !Next(After(steps).value, step).identity.live <==> EndsSession(steps, step)
  {
    AlwaysSound(steps);
    AlwaysTracked(steps);
    hide Sound, Pending, PairLost;
    SoundGenerations(After(steps).value);
  }

  lemma SoundGenerations(w: World)
    requires Sound(w)
    ensures w.known <= w.identity.generation <= w.known + 1
  {
  }
}
