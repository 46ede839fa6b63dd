/** When UNAUTHENTICATED is told over a session that lives, and when the device forgets one: exactly, in every
    interleaving. */
module SessionRefusals {
  import opened Session
  import opened SessionLaws
  import opened Wrappers

  // ---------------------------------------------------------------- retries

  predicate Retries(run: Run) { run.phase.Retrying? && !run.closed }

  /** A retry presents the newest tokens there are; nobody else has them yet. */
  ghost predicate RetryOk(w: World, r: nat)
    requires r < |w.runs|
  {
    Retries(w.runs[r]) ==>
      && w.runs[r].phase.token == w.known == w.identity.generation
      && (w.client.held.Some? ==> w.client.held.value < w.known)
      && (forall q :: 0 <= q < |w.runs| ==> w.runs[q].start < w.known && (Retries(w.runs[q]) ==> q == r))
  }

  ghost predicate RetriesNewest(w: World) { forall r :: 0 <= r < |w.runs| ==> RetryOk(w, r) }

  lemma ReceiveKeepsRetry(w: World, d: nat, reply: Option<Reply>, r: nat)
    requires Sound(w) && RetriesNewest(w) && d < |w.runs| && !Over(w.runs[d]) && r < |w.runs|
    requires reply.None? || reply == w.runs[d].reply
    ensures RetryOk(Receive(w, d, reply), r)
  {
    var w' := Receive(w, d, reply);
    assert RetryOk(w, r) && RetryOk(w, d);
    assert RunOk(w, w.runs[d]) && RunOk(w, w.runs[r]);
    forall q | 0 <= q < |w.runs| && Retries(w'.runs[r])
      ensures w'.runs[q].start < w'.known && (Retries(w'.runs[q]) ==> q == r)
    {
      assert RunOk(w, w.runs[q]) && RetryOk(w, q);
    }
  }

  lemma ArriveKeepsRetry(w: World, a: nat, ok: bool, missing: set<Field>, r: nat)
    requires Sound(w) && RetriesNewest(w) && Enabled(w, Arrives(a, ok, missing)) && r < |w.runs|
    ensures RetryOk(Next(w, Arrives(a, ok, missing)), r)
  {
    assert RetryOk(w, r);
  }

  lemma OtherKeepsRetry(w: World, step: Step, r: nat)
    requires Sound(w) && RetriesNewest(w) && Enabled(w, step) && r < |Next(w, step).runs|
    requires !step.Arrives? && !step.Delivers? && !step.Fails?
    ensures RetryOk(Next(w, step), r)
  {
    if r < |w.runs| { assert RetryOk(w, r); }
  }

  lemma StepKeepsRetry(w: World, step: Step, r: nat)
    requires Sound(w) && RetriesNewest(w) && Enabled(w, step) && r < |Next(w, step).runs|
    ensures RetryOk(Next(w, step), r)
  {
    hide Sound, RetriesNewest, RetryOk;
    match step {
      case Arrives(a, ok, missing) => ArriveKeepsRetry(w, a, ok, missing, r);
      case Delivers(d) => ReceiveKeepsRetry(w, d, w.runs[d].reply, r);
      case Fails(d) => ReceiveKeepsRetry(w, d, None, r);
      case _ => OtherKeepsRetry(w, step, r);
    }
  }

  lemma {:induction false} AlwaysRetriesNewest(steps: seq<Step>)
    requires After(steps).Some?
    ensures RetriesNewest(After(steps).value)
  {
    if steps != [] {
      hide Sound, RetryOk, Next, Enabled;
      var before, step := steps[..|steps| - 1], steps[|steps| - 1];
      AlwaysRetriesNewest(before);
      AlwaysSound(before);
      forall r | 0 <= r < |After(steps).value.runs| ensures RetryOk(After(steps).value, r) {
        StepKeepsRetry(After(before).value, step, r);
      }
    }
  }

  // ---------------------------------------------------------------- the refusal itself

  /** The token just issued has run out before its retry. */
  ghost predicate RanOut(steps: seq<Step>, r: nat)
    requires After(steps).Some? && r < |After(steps).value.runs|
  {
    var w := After(steps).value;
    w.identity.live && Retries(w.runs[r]) && w.identity.expired
  }

  /** Two rotations were made since the run took its tokens, counting one that is on its way or was lost. */
  ghost predicate Overtaken(steps: seq<Step>, r: nat)
    requires After(steps).Some? && r < |After(steps).value.runs|
  {
    var w := After(steps).value;
    && w.identity.live && w.runs[r].phase.Refreshing? && !w.runs[r].closed
    && w.runs[r].start + (if Pending(w) || PairLost(steps) then 1 else 2) <= w.known
  }

  ghost predicate Misleads(steps: seq<Step>, r: nat)
    requires After(steps).Some? && r < |After(steps).value.runs|
  {
    RanOut(steps, r) || Overtaken(steps, r)
  }

  /** In every interleaving, identity refuses a refresh or a retry and leaves the session alive exactly when
      the retry's fresh token has run out, or two rotations have overtaken the refresh. */
  lemma RefusedOverLiveIff(steps: seq<Step>, r: nat, ok: bool, missing: set<Field>)
    requires After(steps).Some? && Enabled(After(steps).value, Arrives(r, ok, missing))
    requires !After(steps).value.runs[r].phase.Calling? && !After(steps).value.runs[r].closed
    ensures var w' := Next(After(steps).value, Arrives(r, ok, missing));
            w'.runs[r].reply.value.Denied? && w'.identity.live <==> Misleads(steps, r)
  {
    hide Sound, Pending, PairLost, After, RunOk, RetryOk;
    AlwaysSound(steps);
    AlwaysTracked(steps);
    AlwaysRetriesNewest(steps);
    SoundGenerations(After(steps).value);
    RunBounds(After(steps).value, r);
  }

  lemma RunBounds(w: World, r: nat)
    requires Sound(w) && RetriesNewest(w) && r < |w.runs|
    ensures w.runs[r].start <= w.known
    ensures Retries(w.runs[r]) ==> w.runs[r].phase.token == w.known == w.identity.generation
  {
    assert RunOk(w, w.runs[r]) && RetryOk(w, r);
  }

  // ---------------------------------------------------------------- runs that ended with it

  /** The step at which identity answered run `r` last. */
  function LastAnswer(steps: seq<Step>, r: nat): (n: nat) {
    if steps == [] then 0
    else
      var last := |steps| - 1;
      if steps[last].Arrives? && steps[last].run == r then last else LastAnswer(steps[..last], r)
  }

  /** Step `n` is identity's answer to run `r`. */
  ghost predicate AnsweredAt(steps: seq<Step>, n: nat, r: nat, reply: Reply) {
    && n < |steps| && After(steps[..n]).Some? && Enabled(After(steps[..n]).value, steps[n])
    && steps[n].Arrives? && steps[n].run == r
    && var w := After(steps[..n]).value;
       Handle(w.identity, w.runs[r], steps[n].ok, steps[n].missing).1 == reply
  }

  /** The caller was told UNAUTHENTICATED. */
  predicate Refused(run: Run) { run.phase.Ended? && run.phase.result.Unauthenticated? }

  /** The reply in flight, or the refusal a run ended with, is identity's last answer to it. */
  ghost predicate AnswerOk(steps: seq<Step>, r: nat)
    requires After(steps).Some? && r < |After(steps).value.runs|
  {
    var run, n := After(steps).value.runs[r], LastAnswer(steps, r);
    && (run.reply.Some? ==>
          && AnsweredAt(steps, n, r, run.reply.value)
          && var asked := After(steps[..n]).value.runs[r];
             asked.phase == run.phase && !run.phase.Ended? && (asked.closed ==> run.closed))
    && (Refused(run) ==>
          && AnsweredAt(steps, n, r, Denied(run.phase.result.cause))
          && var asked := After(steps[..n]).value.runs[r];
             !asked.phase.Calling? && !asked.closed)
  }

  lemma AnsweredStays(steps: seq<Step>, n: nat, r: nat, reply: Reply)
    requires steps != [] && AnsweredAt(steps[..|steps| - 1], n, r, reply)
    ensures AnsweredAt(steps, n, r, reply)
    ensures After(steps[..n]) == After(steps[..|steps| - 1][..n])
  {
    assert steps[..|steps| - 1][..n] == steps[..n];
  }

  lemma AnswersNow(steps: seq<Step>, r: nat)
    requires steps != [] && After(steps).Some?
    requires var step := steps[|steps| - 1]; step.Arrives? && step.run == r
    ensures AnswerOk(steps, r)
  {
  }

  /** Another run's step, or the popup's, leaves a run as it was, but for closing it. */
  lemma AnswersBefore(steps: seq<Step>, r: nat)
    requires steps != [] && After(steps).Some? && r < |After(steps).value.runs|
    requires var step := steps[|steps| - 1]; !(step.Arrives? && step.run == r)
    requires var w := After(steps[..|steps| - 1]).value; r < |w.runs| ==> AnswerOk(steps[..|steps| - 1], r)
    ensures AnswerOk(steps, r)
  {
    hide After, AnsweredAt, Finished;
    var before, step := steps[..|steps| - 1], steps[|steps| - 1];
    AfterStep(steps);
    var w := After(before).value;
    assert LastAnswer(steps, r) == LastAnswer(before, r);
    if r < |w.runs| {
      var n, run := LastAnswer(before, r), w.runs[r];
      if run.reply.Some? { AnsweredStays(steps, n, r, run.reply.value); }
      if Refused(run) { AnsweredStays(steps, n, r, Denied(run.phase.result.cause)); }
    }
  }

  lemma AfterStep(steps: seq<Step>)
    requires steps != [] && After(steps).Some?
    ensures var before, step := steps[..|steps| - 1], steps[|steps| - 1];
            && After(before).Some? && Enabled(After(before).value, step)
            && After(steps) == Some(Next(After(before).value, step))
  {
  }

  lemma {:induction false} AlwaysAnswered(steps: seq<Step>, r: nat)
    requires After(steps).Some? && r < |After(steps).value.runs|
    ensures AnswerOk(steps, r)
  {
    hide AnswerOk, Next, Enabled;
    if steps != [] {
      var before, step := steps[..|steps| - 1], steps[|steps| - 1];
      if step.Arrives? && step.run == r {
        AnswersNow(steps, r);
      } else {
        if r < |After(before).value.runs| { AlwaysAnswered(before, r); }
        AnswersBefore(steps, r);
      }
    }
  }

  // ---------------------------------------------------------------- what UNAUTHENTICATED means

  /** Nothing after step `n` ended the session. */
  ghost predicate SurvivesAfter(steps: seq<Step>, n: nat) {
    forall k :: n < k < |steps| && After(steps[..k]).Some? ==> !EndsSession(steps[..k], steps[k])
  }

  lemma {:induction false} LiveIff(steps: seq<Step>, n: nat)
    requires After(steps).Some? && n < |steps|
    ensures After(steps[..n + 1]).Some?
    ensures After(steps).value.identity.live <==> After(steps[..n + 1]).value.identity.live && SurvivesAfter(steps, n)
  {
    hide After, EndsSession, Next;
    var last := |steps| - 1;
    var before := steps[..last];
    AfterStep(steps);
    if n == last {
      assert steps[..n + 1] == steps;
    } else {
      assert before[..n + 1] == steps[..n + 1];
      LiveIff(before, n);
      assert forall k :: n < k < last ==> before[..k] == steps[..k];
      StaysDead(After(before).value, steps[last]);
      if After(before).value.identity.live { SessionEndsIff(before, steps[last]); }
    }
  }

  lemma StaysDead(w: World, step: Step)
    requires Enabled(w, step)
    ensures Next(w, step).identity.live ==> w.identity.live
  {
  }

  /** In every interleaving, a run that ended in UNAUTHENTICATED did so over a session that is alive exactly
      when that answer was misleading, its retry's token run out or its refresh overtaken by two rotations,
      and nothing has ended the session since. */
  lemma UnauthenticatedMeans(steps: seq<Step>, r: nat)
    requires After(steps).Some? && r < |After(steps).value.runs| && Refused(After(steps).value.runs[r])
    ensures var n := LastAnswer(steps, r);
            && n < |steps| && After(steps[..n]).Some? && r < |After(steps[..n]).value.runs|
            && (After(steps).value.identity.live <==> Misleads(steps[..n], r) && SurvivesAfter(steps, n))
  {
    hide After, Misleads, SurvivesAfter;
    AlwaysAnswered(steps, r);
    var n := LastAnswer(steps, r);
    LiveIff(steps, n);
    assert steps[..n + 1][..n] == steps[..n];
    AfterStep(steps[..n + 1]);
    RefusedOverLiveIff(steps[..n], r, steps[n].ok, steps[n].missing);
  }

  // ---------------------------------------------------------------- the status read

  /** The status read runs alone, on the newest pair the device has. */
  ghost predicate StatusOk(w: World, r: nat)
    requires r < |w.runs|
  {
    w.runs[r].purpose.Status? && !Over(w.runs[r]) ==>
      && w.client.held.None? && (forall q :: 0 <= q < |w.runs| && q != r ==> Over(w.runs[q]))
      && (!w.runs[r].phase.Retrying? ==> w.runs[r].start == w.known)
  }

  lemma StepKeepsStatus(w: World, step: Step, r: nat)
    requires Sound(w) && Enabled(w, step) && r < |Next(w, step).runs|
    requires r < |w.runs| ==> StatusOk(w, r)
    ensures StatusOk(Next(w, step), r)
  {
    hide Called, Refreshed;
  }

  lemma {:induction false} AlwaysStatusAlone(steps: seq<Step>, r: nat)
    requires After(steps).Some? && r < |After(steps).value.runs|
    ensures StatusOk(After(steps).value, r)
  {
    if steps != [] {
      hide Sound, StatusOk, Next, Enabled;
      var before, step := steps[..|steps| - 1], steps[|steps| - 1];
      if r < |After(before).value.runs| { AlwaysStatusAlone(before, r); }
      AlwaysSound(before);
      StepKeepsStatus(After(before).value, step, r);
    }
  }

  lemma {:induction false} PurposeStays(steps: seq<Step>, n: nat, r: nat)
    requires After(steps).Some? && n <= |steps| && After(steps[..n]).Some? && r < |After(steps[..n]).value.runs|
    ensures r < |After(steps).value.runs|
    ensures After(steps).value.runs[r].purpose == After(steps[..n]).value.runs[r].purpose
  {
    hide Finished, Called, Refreshed;
    if n == |steps| {
      assert steps[..n] == steps;
    } else {
      assert steps[..|steps| - 1][..n] == steps[..n];
      PurposeStays(steps[..|steps| - 1], n, r);
    }
  }

  /** The status read is never overtaken: the popup un-pairs over a session that is alive exactly when the
      token it had just been issued ran out before the retry and nothing has ended the session since. In
      every interleaving: replies lost or not, requests of closed popups arriving or not. */
  lemma UnpairingMeansGone(steps: seq<Step>, r: nat)
    requires After(steps).Some? && r < |After(steps).value.runs| && After(steps).value.runs[r].purpose.Status?
    requires Refused(After(steps).value.runs[r])
    ensures var n := LastAnswer(steps, r);
            && n < |steps| && After(steps[..n]).Some? && r < |After(steps[..n]).value.runs|
            && (After(steps).value.identity.live <==> RanOut(steps[..n], r) && SurvivesAfter(steps, n))
  {
    hide After, RanOut, SurvivesAfter, Pending, PairLost;
    UnauthenticatedMeans(steps, r);
    var n := LastAnswer(steps, r);
    PurposeStays(steps, n, r);
    AlwaysStatusAlone(steps[..n], r);
  }

  // ---------------------------------------------------------------- forgetting

  predicate Forgot(run: Run) {
    run.phase.Ended? && !run.purpose.Action?
    && (run.phase.result.Unauthenticated? || (run.purpose.Logout? && run.phase.result == Answered(true)))
  }

  ghost predicate Remembers(w: World) {
    && (w.client.stored.None? ==> !w.client.secretKey)
    && (!w.client.secretKey <==> exists r :: 0 <= r < |w.runs| && Forgot(w.runs[r]))
  }

  lemma {:induction false} ForgetsIffTold(steps: seq<Step>)
    requires After(steps).Some?
    ensures Remembers(After(steps).value)
  {
    if steps != [] {
      hide After, Remembers;
      var before, step := steps[..|steps| - 1], steps[|steps| - 1];
      AfterStep(steps);
      ForgetsIffTold(before);
      StepKeepsRemembers(After(before).value, step);
    } else {
      assert After([]) == Some(Paired());
    }
  }

  lemma StepKeepsRemembers(w: World, step: Step)
    requires Remembers(w) && Enabled(w, step)
    ensures Remembers(Next(w, step))
  {
    var w' := Next(w, step);
    if r :| 0 <= r < |w.runs| && Forgot(w.runs[r]) {
      assert Forgot(w'.runs[r]);
    } else if step.Delivers? || step.Fails? {
      assert forall q :: 0 <= q < |w.runs| && q != step.run ==> w'.runs[q] == w.runs[q];
      assert !w'.client.secretKey ==> Forgot(w'.runs[step.run]);
    } else {
      forall q | 0 <= q < |w'.runs| ensures !Forgot(w'.runs[q]) { if q < |w.runs| { assert !Forgot(w.runs[q]); } }
    }
  }

  /** Run `r` made the device forget, over a session that is alive. */
  ghost predicate ForgotAlive(steps: seq<Step>, r: nat)
    requires After(steps).Some?
  {
    && r < |After(steps).value.runs| && Forgot(After(steps).value.runs[r]) && Refused(After(steps).value.runs[r])
    && var n := LastAnswer(steps, r);
       && n < |steps| && After(steps[..n]).Some? && r < |After(steps[..n]).value.runs|
       && (RanOut(steps[..n], r) || (Overtaken(steps[..n], r) && After(steps).value.runs[r].purpose.Logout?))
       && SurvivesAfter(steps, n)
  }

  /** In every interleaving, the device has given up its half of the key material while its session is alive
      exactly when a status read's or disconnect's retry ran out, or a disconnect was overtaken by two
      rotations, and nothing has ended the session since. */
  lemma ForgottenAliveIff(steps: seq<Step>)
    requires After(steps).Some?
    ensures var w := After(steps).value;
            && (w.client.stored.None? ==> !w.client.secretKey)
            && (!w.client.secretKey && w.identity.live <==> exists r: nat :: ForgotAlive(steps, r))
  {
    hide After, RanOut, Overtaken, SurvivesAfter;
    ForgetsIffTold(steps);
    var w := After(steps).value;
    if r :| 0 <= r < |w.runs| && Forgot(w.runs[r]) && w.identity.live {
      AlwaysSound(steps);
      assert RunOk(w, w.runs[r]);
      ForgotAliveIff(steps, r);
    }
    if r: nat :| ForgotAlive(steps, r) { ForgotAliveIff(steps, r); }
  }

  lemma ForgotAliveIff(steps: seq<Step>, r: nat)
    requires After(steps).Some? && r < |After(steps).value.runs|
    requires Forgot(After(steps).value.runs[r]) && Refused(After(steps).value.runs[r])
    ensures ForgotAlive(steps, r) <==> After(steps).value.identity.live
  {
    hide After, RanOut, Overtaken, SurvivesAfter;
    UnauthenticatedMeans(steps, r);
    if After(steps).value.runs[r].purpose.Status? { UnpairingMeansGone(steps, r); }
  }
}
