/** What more holds of the paired session when a popup makes one call at a time; popups may be closed at any
    moment, and what they had in flight may arrive late. */
module SessionSerial {
  import opened Session
  import opened SessionLaws
  import opened SessionRefusals
  import opened Wrappers

  /** No run begins while another of the same popup is under way. */
  ghost predicate Serial(steps: seq<Step>)
    requires After(steps).Some?
  {
    steps == [] ||
    (Serial(steps[..|steps| - 1]) && (steps[|steps| - 1].Begins? ==> Idle(After(steps[..|steps| - 1]).value)))
  }

  /** A disconnect fails after its refresh: the popup goes back to the session it had before. */
  predicate DropsPair(w: World, step: Step) {
    match step
    case Fails(r) => r < |w.runs| && w.runs[r].purpose.Logout? && w.runs[r].phase.Retrying?
    case Delivers(r) =>
      r < |w.runs| && w.runs[r].purpose.Logout? && w.runs[r].phase.Retrying? && w.runs[r].reply == Some(Granted(false))
    case _ => false
  }

  /** The newest pair never reached the popup: it was lost, or a failed disconnect dropped it and the popup
      has not been opened again since. */
  ghost predicate Behind(steps: seq<Step>)
    requires After(steps).Some?
  {
    steps != [] &&
    var before, step := steps[..|steps| - 1], steps[|steps| - 1];
    if step.Reopens? then PairLost(before)
    else Behind(before) || LosesPair(After(before).value, step) || DropsPair(After(before).value, step)
  }

  /** Where the one active run stands; `lag` is how far its tokens are behind identity's. */
  predicate ActiveOk(w: World, run: Run, lag: nat) {
    && (run.phase.Retrying? ==> run.start < run.phase.token)
    && (w.identity.live ==>
          if run.phase.Retrying? then lag == 0 && run.phase.token == w.identity.generation == run.start + 1
          else if HasNewPair(run) then lag == 0 && run.start + 1 == w.identity.generation
          else run.start + lag == w.identity.generation)
  }

  /** The tokens of the popup's one active run, or the ones it holds. */
  function Current(w: World): Option<nat> {
    if w.runs != [] && !Over(w.runs[|w.runs| - 1]) then Some(w.runs[|w.runs| - 1].start) else w.client.held
  }

  ghost predicate SerialOk(w: World, behind: bool) {
    && (forall r :: 0 <= r < |w.runs| - 1 ==> Over(w.runs[r]))
    && (Current(w).Some? ==> forall r :: 0 <= r < |w.runs| ==> w.runs[r].start <= Current(w).value)
    && (if w.runs == [] || Over(w.runs[|w.runs| - 1]) then
          w.identity.live && w.client.held.Some? ==>
            w.client.held.value + (if behind then 1 else 0) == w.identity.generation
        else ActiveOk(w, w.runs[|w.runs| - 1], if behind then 1 else 0))
  }

  lemma SerialEnds(w: World, r: nat, reply: Option<Reply>, behind: bool, step: Step)
    requires Sound(w) && SerialOk(w, behind) && r < |w.runs| && !Over(w.runs[r]) && Over(Receive(w, r, reply).runs[r])
    requires (step == Fails(r) && reply.None?) || (step == Delivers(r) && reply.Some? && reply == w.runs[r].reply)
    ensures SerialOk(Receive(w, r, reply), behind || LosesPair(w, step) || DropsPair(w, step))
  {
    hide Modest, Pending;
    assert r == |w.runs| - 1;
    assert RunOk(w, w.runs[r]);
  }

  lemma SerialGoesOn(w: World, r: nat, reply: Option<Reply>, behind: bool, step: Step)
    requires Sound(w) && SerialOk(w, behind) && r < |w.runs| && !Over(w.runs[r]) && !Over(Receive(w, r, reply).runs[r])
    requires (step == Fails(r) && reply.None?) || (step == Delivers(r) && reply.Some? && reply == w.runs[r].reply)
    ensures SerialOk(Receive(w, r, reply), behind || LosesPair(w, step) || DropsPair(w, step))
  {
    hide Modest, Pending, Finished;
    assert r == |w.runs| - 1;
    assert RunOk(w, w.runs[r]);
  }

  lemma SerialReceive(w: World, r: nat, reply: Option<Reply>, behind: bool, step: Step)
    requires Sound(w) && SerialOk(w, behind) && r < |w.runs| && !Over(w.runs[r])
    requires (step == Fails(r) && reply.None?) || (step == Delivers(r) && reply.Some? && reply == w.runs[r].reply)
    ensures SerialOk(Receive(w, r, reply), behind || LosesPair(w, step) || DropsPair(w, step))
  {
    hide Sound, SerialOk, LosesPair, DropsPair, Resumed;
    if Over(Receive(w, r, reply).runs[r]) {
      SerialEnds(w, r, reply, behind, step);
    } else {
      SerialGoesOn(w, r, reply, behind, step);
    }
  }

  lemma SerialArrive(w: World, r: nat, ok: bool, missing: set<Field>, behind: bool)
    requires Sound(w) && SerialOk(w, behind) && Enabled(w, Arrives(r, ok, missing))
    ensures SerialOk(Next(w, Arrives(r, ok, missing)), behind || LosesPair(w, Arrives(r, ok, missing)))
  {
    hide Modest, Pending;
    assert RunOk(w, w.runs[r]);
  }

  lemma SerialReopen(w: World, behind: bool, lost: bool)
    requires Sound(w) && Tracked(w, lost) && SerialOk(w, behind) && Enabled(w, Reopens)
    ensures SerialOk(Next(w, Reopens), lost)
  {
    forall r | 0 <= r < |w.runs| ensures !HasNewPair(w.runs[r]) && w.runs[r].start <= w.known {
      assert RunOk(w, w.runs[r]);
    }
  }

  lemma SerialOther(w: World, step: Step, behind: bool)
    requires Sound(w) && SerialOk(w, behind) && Enabled(w, step) && (step.Begins? ==> Idle(w))
    requires step.Begins? || step.Closes? || step.Expires? || step.Revokes?
    ensures SerialOk(Next(w, step), behind || LosesPair(w, step))
  {
    hide Sound, Pending;
  }

  lemma SerialStep(w: World, step: Step, behind: bool, lost: bool)
    requires Sound(w) && Tracked(w, lost) && SerialOk(w, behind) && Enabled(w, step) && (step.Begins? ==> Idle(w))
    ensures SerialOk(Next(w, step),
              if step.Reopens? then lost else behind || LosesPair(w, step) || DropsPair(w, step))
  {
    hide Sound, Tracked, SerialOk, LosesPair, Resumed, Handle;
    match step {
      case Arrives(r, ok, missing) => SerialArrive(w, r, ok, missing, behind);
      case Delivers(r) => SerialReceive(w, r, w.runs[r].reply, behind, step);
      case Fails(r) => SerialReceive(w, r, None, behind, step);
      case Reopens => SerialReopen(w, behind, lost);
      case _ => SerialOther(w, step, behind);
    }
  }

  lemma {:induction false} AlwaysSerial(steps: seq<Step>)
    requires After(steps).Some? && Serial(steps)
    ensures SerialOk(After(steps).value, Behind(steps))
  {
    if steps != [] {
      hide Sound, Tracked, SerialOk, Next, Enabled, LosesPair, DropsPair, Idle;
      var before := steps[..|steps| - 1];
      AlwaysSerial(before);
      AlwaysSound(before);
      AlwaysTracked(before);
      SerialStep(After(before).value, steps[|steps| - 1], Behind(before), PairLost(before));
    } else {
      assert SerialOk(Paired(), false);
    }
  }

  /** With calls made one at a time no run is overtaken: UNAUTHENTICATED was told over a session that is alive
      exactly when the token just issued ran out before the retry, whatever was lost on the way. */
  lemma SerialUnauthenticatedMeansGone(steps: seq<Step>, r: nat)
    requires After(steps).Some? && Serial(steps) && r < |After(steps).value.runs| && Refused(After(steps).value.runs[r])
    ensures var n := LastAnswer(steps, r);
            && n < |steps| && After(steps[..n]).Some? && r < |After(steps[..n]).value.runs|
            && (After(steps).value.identity.live <==> RanOut(steps[..n], r) && SurvivesAfter(steps, n))
  {
    hide After, RanOut, Overtaken, SurvivesAfter, Serial;
    UnauthenticatedMeans(steps, r);
    var n := LastAnswer(steps, r);
    SerialPrefix(steps, n);
    NeverOvertaken(steps[..n], r);
  }

  lemma {:induction false} SerialPrefix(steps: seq<Step>, n: nat)
    requires After(steps).Some? && Serial(steps) && n <= |steps| && After(steps[..n]).Some?
    ensures Serial(steps[..n])
  {
    if n == |steps| {
      assert steps[..n] == steps;
    } else {
      assert steps[..|steps| - 1][..n] == steps[..n];
      SerialPrefix(steps[..|steps| - 1], n);
    }
  }

  lemma NeverOvertaken(steps: seq<Step>, r: nat)
    requires After(steps).Some? && Serial(steps) && r < |After(steps).value.runs|
    ensures !Overtaken(steps, r)
  {
    hide After, Serial, Behind, Pending, PairLost;
    AlwaysSerial(steps);
    AlwaysSound(steps);
    AlwaysTracked(steps);
    var w := After(steps).value;
    if !Over(w.runs[r]) {
      assert r == |w.runs| - 1;
      assert RunOk(w, w.runs[r]);
    }
  }

  /** The next refresh of the popup that reaches identity revokes the session exactly when the newest pair
      never reached the popup; otherwise it rotates. */
  lemma SerialRefreshRevokesIff(steps: seq<Step>, r: nat, ok: bool, missing: set<Field>)
    requires After(steps).Some? && Serial(steps) && Enabled(After(steps).value, Arrives(r, ok, missing))
    requires After(steps).value.identity.live && After(steps).value.runs[r].phase.Refreshing?
    requires !After(steps).value.runs[r].closed
    ensures var id, id' := After(steps).value.identity, Next(After(steps).value, Arrives(r, ok, missing)).identity;
            if Behind(steps) then id' == id.(live := false)
            else id' == Identity(true, id.generation + 1, false)
  {
    hide Behind, Serial, After, RunOk, Modest;
    AlwaysSerial(steps);
    AlwaysSound(steps);
    var w := After(steps).value;
    assert r == |w.runs| - 1;
    assert ActiveOk(w, w.runs[r], if Behind(steps) then 1 else 0);
  }

  /** A status read or a disconnect whose retry ran out, over a session that is alive. */
  ghost predicate ForgotExpired(steps: seq<Step>, r: nat)
    requires After(steps).Some?
  {
    && r < |After(steps).value.runs| && Forgot(After(steps).value.runs[r]) && Refused(After(steps).value.runs[r])
    && var n := LastAnswer(steps, r);
       && n < |steps| && After(steps[..n]).Some? && r < |After(steps[..n]).value.runs|
       && RanOut(steps[..n], r) && SurvivesAfter(steps, n)
  }

  /** With calls made one at a time, the device has given up its half of the key material while its session
      is alive exactly when the newest access token ran out before the retry of a status read or disconnect. */
  lemma ForgottenMeansGone(steps: seq<Step>)
    requires After(steps).Some? && Serial(steps)
    ensures var w := After(steps).value;
            && (w.client.stored.None? ==> !w.client.secretKey)
            && (!w.client.secretKey && w.identity.live <==> exists r: nat :: ForgotExpired(steps, r))
  {
    hide After, RanOut, Overtaken, SurvivesAfter, Serial;
    ForgottenAliveIff(steps);
    forall r: nat ensures ForgotAlive(steps, r) <==> ForgotExpired(steps, r) {
      if ForgotAlive(steps, r) { SerialAlive(steps, r); }
    }
  }

  lemma SerialAlive(steps: seq<Step>, r: nat)
    requires After(steps).Some? && Serial(steps) && ForgotAlive(steps, r)
    ensures RanOut(steps[..LastAnswer(steps, r)], r)
  {
    hide After, RanOut, SurvivesAfter, Serial;
    SerialPrefix(steps, LastAnswer(steps, r));
    NeverOvertaken(steps[..LastAnswer(steps, r)], r);
  }
}
