/** What a run of `withSession` reports, told from what happened to its requests: an outage never reads as a
    revocation, and a refresh follows nothing but a refusal. */
module SessionResults {
  import opened Session
  import opened SessionLaws
  import opened SessionRefusals
  import opened Wrappers

  /** The step at which the device last heard of run `r`, or gave it up. */
  function LastReceipt(steps: seq<Step>, r: nat): (n: nat) {
    if steps == [] then 0
    else
      var last := |steps| - 1;
      if steps[last] == Delivers(r) || steps[last] == Fails(r) then last else LastReceipt(steps[..last], r)
  }

  /** Run `r` as it stood before step `n`. */
  ghost predicate Stood(steps: seq<Step>, n: nat, r: nat) {
    n < |steps| && After(steps[..n]).Some? && r < |After(steps[..n]).value.runs|
  }

  /** What run `r` was told at step `n`, and what it then says: the transport's failure is an outage, an answer
      is that answer, a body with a field missing is unknown, and only a refused refresh or retry is a refusal. */
  ghost predicate Tells(steps: seq<Step>, n: nat, r: nat, result: Session.Result)
    requires Stood(steps, n, r)
  {
    var run := After(steps[..n]).value.runs[r];
    && (result.Outage? <==> steps[n] == Fails(r))
    && (steps[n] == Delivers(r) || steps[n] == Fails(r))
    && (steps[n] == Delivers(r) && run.reply.Some? ==>
          && (forall ok :: result == Answered(ok) <==> run.reply.value == Granted(ok))
          && (result.Unauthenticated? <==> run.reply.value.Denied?)
          && (result.Unknown? <==> run.reply.value.Issued?)
          && (run.reply.value.Issued? ==> run.reply.value.payload.missing != {})
          && (run.reply.value.Denied? ==> !run.phase.Calling?))
  }

  /** A run that goes on does so from a refusal to a refresh, or from a complete pair to a retry. */
  ghost predicate GoesOn(steps: seq<Step>, n: nat, r: nat, phase: Phase)
    requires Stood(steps, n, r)
  {
    var run := After(steps[..n]).value.runs[r];
    && steps[n] == Delivers(r) && run.reply.Some?
    && (phase.Refreshing? ==> run.phase.Calling? && run.reply.value.Denied?)
    && (phase.Retrying? ==>
          && run.phase.Refreshing? && run.reply.value.Issued?
          && run.reply.value.payload == Payload(phase.token, {}))
  }

  ghost predicate HeardOk(steps: seq<Step>, r: nat)
    requires After(steps).Some? && r < |After(steps).value.runs|
  {
    var run, n := After(steps).value.runs[r], LastReceipt(steps, r);
    && (run.phase.Ended? ==> Stood(steps, n, r) && Tells(steps, n, r, run.phase.result))
    && (run.phase.Refreshing? || run.phase.Retrying? ==> Stood(steps, n, r) && GoesOn(steps, n, r, run.phase))
  }

  lemma HeardNow(steps: seq<Step>, r: nat)
    requires steps != [] && After(steps).Some? && r < |After(steps).value.runs|
    requires steps[|steps| - 1] == Delivers(r) || steps[|steps| - 1] == Fails(r)
    ensures HeardOk(steps, r)
  {
    hide After, Finished, Sound;
    var before := steps[..|steps| - 1];
    AfterStep(steps);
    AlwaysSound(before);
    SoundRun(After(before).value, r);
  }

  lemma SoundRun(w: World, r: nat)
    requires Sound(w) && r < |w.runs|
    ensures RunOk(w, w.runs[r])
  {
  }

  lemma HeardBefore(steps: seq<Step>, r: nat)
    requires steps != [] && After(steps).Some? && r < |After(steps).value.runs|
    requires steps[|steps| - 1] != Delivers(r) && steps[|steps| - 1] != Fails(r)
    requires var w := After(steps[..|steps| - 1]).value; r < |w.runs| ==> HeardOk(steps[..|steps| - 1], r)
    ensures HeardOk(steps, r)
  {
    hide After, Finished, Tells, GoesOn;
    var before, n := steps[..|steps| - 1], LastReceipt(steps, r);
    AfterStep(steps);
    var w := After(before).value;
    if r < |w.runs| {
      assert After(steps).value.runs[r].phase == w.runs[r].phase;
      assert n == LastReceipt(before, r);
      if Stood(before, n, r) { SameThen(steps, n, r, w.runs[r].phase); }
    }
  }

  lemma SameThen(steps: seq<Step>, n: nat, r: nat, phase: Phase)
    requires steps != [] && Stood(steps[..|steps| - 1], n, r)
    ensures Stood(steps, n, r)
    ensures GoesOn(steps[..|steps| - 1], n, r, phase) ==> GoesOn(steps, n, r, phase)
    ensures phase.Ended? && Tells(steps[..|steps| - 1], n, r, phase.result) ==> Tells(steps, n, r, phase.result)
  {
    assert steps[..|steps| - 1][..n] == steps[..n];
  }

  lemma {:induction false} AlwaysHeard(steps: seq<Step>, r: nat)
    requires After(steps).Some? && r < |After(steps).value.runs|
    ensures HeardOk(steps, r)
  {
    hide HeardOk, Next, Enabled;
    if steps != [] {
      var before, step := steps[..|steps| - 1], steps[|steps| - 1];
      if r < |After(before).value.runs| { AlwaysHeard(before, r); }
      if step == Delivers(r) || step == Fails(r) { HeardNow(steps, r); } else { HeardBefore(steps, r); }
    }
  }

  /** In every interleaving, a run that has ended says what happened: an outage exactly when its request failed
      to be answered, a refusal exactly when identity refused its refresh or its retry. */
  lemma ResultTellsWhatHappened(steps: seq<Step>, r: nat)
    requires After(steps).Some? && r < |After(steps).value.runs| && After(steps).value.runs[r].phase.Ended?
    ensures Stood(steps, LastReceipt(steps, r), r)
    ensures Tells(steps, LastReceipt(steps, r), r, After(steps).value.runs[r].phase.result)
  {
    AlwaysHeard(steps, r);
  }

  /** A refresh is under way only after identity refused the access token, and a retry only with the complete
      pair of a rotation. */
  lemma RefreshOnlyAfterRefusal(steps: seq<Step>, r: nat)
    requires After(steps).Some? && r < |After(steps).value.runs|
    requires var phase := After(steps).value.runs[r].phase; phase.Refreshing? || phase.Retrying?
    ensures Stood(steps, LastReceipt(steps, r), r)
    ensures GoesOn(steps, LastReceipt(steps, r), r, After(steps).value.runs[r].phase)
  {
    AlwaysHeard(steps, r);
  }

  /** What an ended run leaves of the pairing: a popup that holds no session gets one back only from its status
      read or a failed disconnect, never from a call that was under way; and a device gives up its session and
      its half of the key material together, or neither. */
  lemma PairingAfter(w: World, step: Step)
    requires Enabled(w, step)
    ensures var w' := Next(w, step);
            && (w.client.held.None? && w'.client.held.Some? ==>
                  (step.Delivers? || step.Fails?) && !w.runs[step.run].purpose.Action?)
            && (w.client.secretKey && !w'.client.secretKey ==> w'.client == Client(None, None, false))
            && (w.client.stored.Some? && w'.client.stored.None? ==> w'.client == Client(None, None, false))
            && (w'.client.secretKey ==> w.client.secretKey)
  {
  }
}
