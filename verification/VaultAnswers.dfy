/** Which operations are answered: an operation ends by an exception exactly when its request to the holder
    was refused. */
module VaultAnswers {
  import opened KeyHolder
  import opened VaultHost
  import opened VaultWiring
  import opened VaultWorld
  import opened Wrappers

  /** The operation of a returned read, seal or reseal threw exactly on a refusal. A read or reseal is refused
      exactly when the worker found no readable vault; a seal then too, and when sealing fails. */
  predicate SettledCall(w: World, c: nat)
    requires c < |w.calls|
  {
    var call := w.calls[c];
    NeedsVault(call.kind) ==>
      && call.op.Some? && call.op.value < |w.ops|
      && (call.state.Running? ==> call.granted)
      && (call.state.Answered? || call.state.Returned? ==>
            && (!call.granted ==> call.state.answer == Refused)
            && (call.granted && !call.kind.Seal? ==> call.state.answer != Refused))
      && var op := w.ops[call.op.value];
         if call.state.Returned? then
           if call.state.answer == Refused then op == Ended(Threw)
           else op.AwaitServer? || (op.Ended? && op.ending != Threw)
         else op == AwaitHolder(c, call.kind)
  }

  /** An operation that threw has such a call behind it. */
  predicate ThrewOn(w: World, o: nat, c: nat) {
    && c < |w.calls| && w.calls[c].op == Some(o) && NeedsVault(w.calls[c].kind)
    && w.calls[c].state == Returned(Refused)
  }

  ghost predicate Settled(w: World) {
    && (forall c :: 0 <= c < |w.calls| ==> SettledCall(w, c))
    && (forall o :: 0 <= o < |w.ops| && w.ops[o] == Ended(Threw) ==> exists c :: ThrewOn(w, o, c))
  }

  lemma WorkerKeepsSettled(w: World, step: Step, c: nat)
    requires Wired(w) && Enabled(w, step) && c < |w.calls| && SettledCall(w, c)
    requires step.WorkerTakes? || step.WorkerResumes?
    ensures c < |Next(w, step).calls| && SettledCall(Next(w, step), c)
  {
    assert CallOk(w, c);
  }

  lemma DeliverKeepsSettled(w: World, d: nat, c: nat)
    requires Wired(w) && Enabled(w, Delivers(d)) && c < |w.calls| && SettledCall(w, c)
    ensures c < |Deliver(w, d).calls| && SettledCall(Deliver(w, d), c)
  {
    hide Opened, Dropped;
    assert CallOk(w, c) && CallOk(w, d);
    if w.calls[d].op.Some? { assert OpOk(w, w.calls[d].op.value); }
  }

  lemma OutsideKeepsSettled(w: World, step: Step, c: nat)
    requires Wired(w) && Enabled(w, step) && c < |w.calls| && SettledCall(w, c)
    requires !step.WorkerTakes? && !step.WorkerResumes? && !step.Delivers?
    ensures c < |Next(w, step).calls| && SettledCall(Next(w, step), c)
  {
    hide Touched, Dropped, Admits;
    assert CallOk(w, c);
  }

  lemma NewIsSettled(w: World, step: Step, c: nat)
    requires Wired(w) && Enabled(w, step) && |w.calls| <= c < |Next(w, step).calls|
    ensures SettledCall(Next(w, step), c)
  {
    hide Touched, Dropped, Settle, Opened;
    if step.Delivers? { assert CallOk(w, step.call); }
    if step.PageReply? { assert OpOk(w, step.op); }
  }

  lemma StepKeepsSettled(w: World, step: Step, c: nat)
    requires Wired(w) && Enabled(w, step) && c < |Next(w, step).calls|
    requires c < |w.calls| ==> SettledCall(w, c)
    ensures SettledCall(Next(w, step), c)
  {
    hide Wired, SettledCall;
    if c >= |w.calls| {
      NewIsSettled(w, step, c);
    } else if step.WorkerTakes? || step.WorkerResumes? {
      WorkerKeepsSettled(w, step, c);
    } else if step.Delivers? {
      DeliverKeepsSettled(w, step.call, c);
    } else {
      OutsideKeepsSettled(w, step, c);
    }
  }

  lemma StepKeepsThrewOn(w: World, step: Step, o: nat)
    requires Wired(w) && Settled(w) && Enabled(w, step)
    requires o < |Next(w, step).ops| && Next(w, step).ops[o] == Ended(Threw)
    ensures exists c :: ThrewOn(Next(w, step), o, c)
  {
    hide Settled, Touched, Dropped, Opened, Begin, Resume;
    var w' := Next(w, step);
    if o < |w.ops| && w.ops[o] == Ended(Threw) {
      var c := ThrewBefore(w, o);
      assert CallOk(w, c);
      assert ThrewOn(w', o, c);
    } else {
      assert step.Delivers?;
      assert CallOk(w, step.call);
      assert OpOk(w, w.calls[step.call].op.value);
      assert ThrewOn(w', o, step.call);
    }
  }

  lemma ThrewBefore(w: World, o: nat) returns (c: nat)
    requires Settled(w) && o < |w.ops| && w.ops[o] == Ended(Threw)
    ensures ThrewOn(w, o, c)
  {
    c :| ThrewOn(w, o, c);
  }

  lemma {:induction false} AlwaysSettled(steps: seq<Step>)
    requires After(steps).Some?
    ensures Settled(After(steps).value)
  {
    if steps != [] {
      hide Next, Enabled, SettledCall, ThrewOn;
      var before, step := steps[..|steps| - 1], steps[|steps| - 1];
      AlwaysSettled(before);
      AlwaysWired(before);
      var w' := After(steps).value;
      forall c | 0 <= c < |w'.calls| ensures SettledCall(w', c) { StepKeepsSettled(After(before).value, step, c); }
      forall o | 0 <= o < |w'.ops| && w'.ops[o] == Ended(Threw) ensures exists c :: ThrewOn(w', o, c) {
        StepKeepsThrewOn(After(before).value, step, o);
      }
    }
  }

  /** In every run: an operation ended by an exception, leaving its message unanswered, exactly when a
      read, seal or reseal of its own came back refused. */
  lemma ThrewIffRefused(steps: seq<Step>, o: nat)
    requires After(steps).Some? && o < |After(steps).value.ops|
    ensures After(steps).value.ops[o] == Ended(Threw) <==> exists c :: ThrewOn(After(steps).value, o, c)
  {
    AlwaysSettled(steps);
    var w := After(steps).value;
    if c :| ThrewOn(w, o, c) { assert SettledCall(w, c); }
  }

  /** ... and a read or reseal that has returned threw exactly when the worker, at the moment it took the
      request, had no readable vault. */
  lemma ReadThrewIffLocked(steps: seq<Step>, c: nat)
    requires After(steps).Some? && c < |After(steps).value.calls|
    requires NeedsVault(After(steps).value.calls[c].kind) && !After(steps).value.calls[c].kind.Seal?
    requires After(steps).value.calls[c].state.Returned?
    ensures var w := After(steps).value;
            && w.calls[c].op.Some? && w.calls[c].op.value < |w.ops|
            && (w.ops[w.calls[c].op.value] == Ended(Threw) <==> !w.calls[c].granted)
  {
    AlwaysSettled(steps);
    assert SettledCall(After(steps).value, c);
  }

  /** Sealing itself failed in the worker. */
  ghost predicate SealFailed(steps: seq<Step>, c: nat) {
    exists n :: 0 <= n < |steps| && steps[n] == WorkerResumes(c, false)
  }

  /** A seal resumes once; its answer is a refusal exactly if that resumption, or the vault, failed. */
  ghost predicate SealOk(w: World, c: nat, failed: bool)
    requires c < |w.calls|
  {
    var call := w.calls[c];
    call.kind.Seal? ==>
      && (call.state.Queued? || call.state.Running? ==> !failed)
      && (call.state.Running? ==> call.granted && call.state.handler == Encrypting)
      && (call.state.Answered? || call.state.Returned? ==> (call.state.answer == Refused <==> !call.granted || failed))
  }

  lemma StepKeepsSeal(w: World, step: Step, c: nat, failed: bool)
    requires Enabled(w, step) && c < |Next(w, step).calls|
    requires if c < |w.calls| then SealOk(w, c, failed) else !failed
    ensures SealOk(Next(w, step), c, failed || step == WorkerResumes(c, false))
  {
    hide Touched, Dropped, Opened, Settle, Admits;
  }

  lemma {:induction false} AlwaysSealOk(steps: seq<Step>, c: nat)
    requires After(steps).Some?
    ensures if c < |After(steps).value.calls| then SealOk(After(steps).value, c, SealFailed(steps, c))
            else !SealFailed(steps, c)
  {
    if steps != [] {
      hide Next, Enabled, SealOk;
      var last := |steps| - 1;
      AlwaysSealOk(steps[..last], c);
      FailedStep(steps, c);
      var w := After(steps[..last]).value;
      CallsGrow(w, steps[last], c);
      if c < |After(steps).value.calls| { StepKeepsSeal(w, steps[last], c, SealFailed(steps[..last], c)); }
    }
  }

  lemma FailedStep(steps: seq<Step>, c: nat)
    requires steps != []
    ensures SealFailed(steps, c) <==> SealFailed(steps[..|steps| - 1], c) || steps[|steps| - 1] == WorkerResumes(c, false)
  {
    var before := steps[..|steps| - 1];
    if n :| 0 <= n < |before| && before[n] == WorkerResumes(c, false) { assert steps[n] == WorkerResumes(c, false); }
    if n :| 0 <= n < |before| && steps[n] == WorkerResumes(c, false) { assert before[n] == WorkerResumes(c, false); }
  }

  lemma CallsGrow(w: World, step: Step, c: nat)
    requires Enabled(w, step)
    ensures |w.calls| <= |Next(w, step).calls|
    ensures step == WorkerResumes(c, false) ==> c < |w.calls|
  {
    hide Touched, Dropped, Opened, Settle, Admits;
  }

  /** ... and a seal that has returned threw exactly when there was no readable vault or the sealing failed. */
  lemma SealThrewIff(steps: seq<Step>, c: nat)
    requires After(steps).Some? && c < |After(steps).value.calls|
    requires After(steps).value.calls[c].kind.Seal? && After(steps).value.calls[c].state.Returned?
    ensures var w := After(steps).value;
            && w.calls[c].op.Some? && w.calls[c].op.value < |w.ops|
            && (w.ops[w.calls[c].op.value] == Ended(Threw) <==> !w.calls[c].granted || SealFailed(steps, c))
  {
    AlwaysSettled(steps);
    AlwaysSealOk(steps, c);
    assert SettledCall(After(steps).value, c);
  }
}
