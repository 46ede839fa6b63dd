/** A lock is a barrier: nothing posted after it reads the vault until both halves of an unlock have been
    completed after it, the second leg of a `prepare` and a `finish`. */
module VaultBarrier {
  import opened KeyHolder
  import opened VaultHost
  import opened VaultWiring
  import opened VaultWorld
  import opened Wrappers

  /** `finish` call `f` opened the vault. */
  predicate Opens(w: World, f: nat) {
    && f < |w.calls| && w.calls[f].kind.Finish?
    && (w.calls[f].state == Answered(Unlocked(true)) || w.calls[f].state == Returned(Unlocked(true)))
  }

  /** ... after the worker had processed every lock it has processed so far. */
  ghost predicate OpensAfterLocks(w: World, f: nat) {
    && Opens(w, f) && w.calls[f].answeredAt < w.clock
    && forall l :: 0 <= l < w.taken && l < |w.calls| && w.calls[l].kind.Lock? ==>
         w.calls[l].takenAt < w.calls[f].answeredAt
  }

  /** The second leg of `prepare` call `p` resumed successfully, which names the user. */
  predicate Proves(w: World, p: nat) {
    && p < |w.calls| && w.calls[p].kind.Prepare? && w.calls[p].proved
    && (w.calls[p].state.Answered? || w.calls[p].state.Returned?)
  }

  ghost predicate ProvesAfterLocks(w: World, p: nat) {
    && Proves(w, p) && w.calls[p].answeredAt < w.clock
    && forall l :: 0 <= l < w.taken && l < |w.calls| && w.calls[l].kind.Lock? ==>
         w.calls[l].takenAt < w.calls[p].answeredAt
  }

  /** Between processing lock `l` and taking call `r`, some `finish` opened the vault. */
  predicate OpensBetween(w: World, l: nat, f: nat, r: nat)
    requires l < |w.calls| && r < |w.calls|
  {
    Opens(w, f) && w.calls[l].takenAt < w.calls[f].answeredAt < w.calls[r].takenAt
  }

  /** ... and some second leg named the user. */
  predicate ProvesBetween(w: World, l: nat, p: nat, r: nat)
    requires l < |w.calls| && r < |w.calls|
  {
    Proves(w, p) && w.calls[l].takenAt < w.calls[p].answeredAt < w.calls[r].takenAt
  }

  ghost predicate Barred(w: World, l: nat, r: nat)
    requires l < |w.calls| && r < |w.calls|
  {
    (exists f :: OpensBetween(w, l, f, r)) && (exists p :: ProvesBetween(w, l, p, r))
  }

  ghost predicate Barrier(w: World) {
    && w.taken <= |w.calls|
    && (forall c :: 0 <= c < w.taken ==> w.calls[c].takenAt < w.clock)
    && (forall c :: w.taken <= c < |w.calls| ==> !w.calls[c].granted)
    && (w.keys.vault ==> exists f :: OpensAfterLocks(w, f))
    && (w.keys.userId ==> exists p :: ProvesAfterLocks(w, p))
    && (forall l, r :: 0 <= l < r < w.taken && w.calls[l].kind.Lock? && w.calls[r].granted ==> Barred(w, l, r))
  }

  /** What every step keeps of the calls already there. */
  ghost predicate Grows(w: World, w': World) {
    && |w.calls| <= |w'.calls| && w.taken <= w'.taken <= |w'.calls| && w.clock <= w'.clock
    && (forall c :: 0 <= c < |w.calls| ==> w'.calls[c].kind == w.calls[c].kind)
    && (forall c :: 0 <= c < w.taken && c < |w.calls| ==>
          w'.calls[c].takenAt == w.calls[c].takenAt && w'.calls[c].granted == w.calls[c].granted)
    && (forall f: nat :: Opens(w, f) ==> Opens(w', f) && w'.calls[f].answeredAt == w.calls[f].answeredAt)
    && (forall p: nat :: Proves(w, p) ==> Proves(w', p) && w'.calls[p].answeredAt == w.calls[p].answeredAt)
  }

  lemma StepGrows(w: World, step: Step)
    requires Wired(w) && Enabled(w, step)
    ensures Grows(w, Next(w, step))
  {
    if step.WorkerTakes? || step.WorkerResumes? || step.Delivers? {
      WorkerStepGrows(w, step);
    } else {
      OutsideStepGrows(w, step);
    }
  }

  lemma WorkerStepGrows(w: World, step: Step)
    requires Wired(w) && Enabled(w, step)
    requires step.WorkerTakes? || step.WorkerResumes? || step.Delivers?
    ensures Grows(w, Next(w, step))
  {
    hide Begin, Resume, Grows;
    match step {
      case WorkerTakes => OneCallMoves(w, Next(w, step), w.taken);
      case WorkerResumes(c, _) => OneCallMoves(w, Next(w, step), c);
      case Delivers(c) => OneCallMoves(w, Next(w, step), c);
    }
  }

  lemma OutsideStepGrows(w: World, step: Step)
    requires Wired(w) && Enabled(w, step)
    requires !step.WorkerTakes? && !step.WorkerResumes? && !step.Delivers?
    ensures Grows(w, Next(w, step))
  {
    hide CallOk, OpOk;
    var w' := Next(w, step);
    assert forall c :: 0 <= c < |w.calls| ==> w'.calls[c] == w.calls[c];
  }

  /** The worker and the channel move one call at a time, and never back. */
  lemma OneCallMoves(w: World, w': World, c: nat)
    requires Wired(w) && c < |w.calls| <= |w'.calls| && w.taken <= w'.taken <= |w'.calls| && w.clock <= w'.clock
    requires forall d :: 0 <= d < |w.calls| && d != c ==> w'.calls[d] == w.calls[d]
    requires w'.calls[c].kind == w.calls[c].kind
    requires c < w.taken ==> w'.calls[c].takenAt == w.calls[c].takenAt && w'.calls[c].granted == w.calls[c].granted
    requires w.calls[c].state.Answered? ==>
               && w'.calls[c].state == Returned(w.calls[c].state.answer)
               && w'.calls[c].answeredAt == w.calls[c].answeredAt && w'.calls[c].proved == w.calls[c].proved
    requires !w.calls[c].state.Returned?
    ensures Grows(w, w')
  {
  }

  lemma GrowsKeepsBarred(w: World, w': World)
    requires Barrier(w) && Grows(w, w')
    ensures forall l, r :: 0 <= l < r < w.taken && w'.calls[l].kind.Lock? && w'.calls[r].granted ==> Barred(w', l, r)
  {
    forall l, r | 0 <= l < r < w.taken && w'.calls[l].kind.Lock? && w'.calls[r].granted ensures Barred(w', l, r) {
      assert Barred(w, l, r);
      var f :| OpensBetween(w, l, f, r);
      assert OpensBetween(w', l, f, r);
      var p :| ProvesBetween(w, l, p, r);
      assert ProvesBetween(w', l, p, r);
    }
  }

  lemma QuietStepKeepsBarrier(w: World, step: Step)
    requires Wired(w) && Barrier(w) && Enabled(w, step) && !step.WorkerTakes? && !step.WorkerResumes?
    ensures Barrier(Next(w, step))
  {
    var w' := Next(w, step);
    StepGrows(w, step);
    GrowsKeepsBarred(w, w');
    assert w'.taken == w.taken && w'.keys == w.keys && w'.clock == w.clock;
    if w.keys.vault {
      var f :| OpensAfterLocks(w, f);
      assert OpensAfterLocks(w', f);
    }
    if w.keys.userId {
      var p :| ProvesAfterLocks(w, p);
      assert ProvesAfterLocks(w', p);
    }
  }

  lemma ResumeKeepsBarrier(w: World, c: nat, ok: bool)
    requires Wired(w) && Barrier(w) && Enabled(w, WorkerResumes(c, ok))
    ensures Barrier(ResumeCall(w, c, ok))
  {
    var w' := ResumeCall(w, c, ok);
    StepGrows(w, WorkerResumes(c, ok));
    GrowsKeepsBarred(w, w');
    assert CallOk(w, c);
    if w'.keys.vault {
      if w.keys.vault {
        var f :| OpensAfterLocks(w, f);
        assert OpensAfterLocks(w', f);
      } else {
        OnlyFinishOpens(w.calls[c].kind, w.keys, w.calls[c].state.handler, ok);
        assert OpensAfterLocks(w', c);
      }
    }
    if w'.keys.userId {
      if w.keys.userId {
        var p :| ProvesAfterLocks(w, p);
        assert ProvesAfterLocks(w', p);
      } else {
        OnlyFinishOpens(w.calls[c].kind, w.keys, w.calls[c].state.handler, ok);
        assert ProvesAfterLocks(w', c);
      }
    }
  }

  lemma TakeKeepsBarrier(w: World)
    requires Wired(w) && Barrier(w) && Enabled(w, WorkerTakes)
    ensures Barrier(TakeCall(w))
  {
    var w' := TakeCall(w);
    var c := w.taken;
    StepGrows(w, WorkerTakes);
    GrowsKeepsBarred(w, w');
    if w.keys.vault {
      var f :| OpensAfterLocks(w, f);
      assert Opens(w', f);
      if w'.keys.vault { assert OpensAfterLocks(w', f); }
    }
    if w.keys.userId {
      var p :| ProvesAfterLocks(w, p);
      assert Proves(w', p);
      if w'.keys.userId { assert ProvesAfterLocks(w', p); }
    }
    forall l | 0 <= l < c && w'.calls[l].kind.Lock? && w'.calls[c].granted ensures Barred(w', l, c) {
      TakenIsBarred(w, l);
    }
  }

  /** A call that finds the vault readable does so past every lock taken before. */
  lemma TakenIsBarred(w: World, l: nat)
    requires Wired(w) && Barrier(w) && Enabled(w, WorkerTakes) && Readable(w.keys)
    requires l < w.taken && w.calls[l].kind.Lock?
    ensures Barred(TakeCall(w), l, w.taken)
  {
    var w', c := TakeCall(w), w.taken;
    StepGrows(w, WorkerTakes);
    var f :| OpensAfterLocks(w, f);
    assert OpensBetween(w', l, f, c);
    var p :| ProvesAfterLocks(w, p);
    assert ProvesBetween(w', l, p, c);
  }

  lemma {:induction false} AlwaysBarrier(steps: seq<Step>)
    requires After(steps).Some?
    ensures Barrier(After(steps).value)
  {
    if steps != [] {
      var before := steps[..|steps| - 1];
      var step := steps[|steps| - 1];
      AlwaysBarrier(before);
      AlwaysWired(before);
      var w := After(before).value;
      match step {
        case WorkerTakes => TakeKeepsBarrier(w);
        case WorkerResumes(c, ok) => ResumeKeepsBarrier(w, c, ok);
        case _ => QuietStepKeepsBarrier(w, step);
      }
    }
  }

  /** In every run, whatever the mirror says: a call posted after a `lock()` that is answered with
      anything out of the vault was taken by the worker after it had processed that lock and, later, both a
      successful second leg of a `prepare` and a successful `finish`. */
  lemma LockIsABarrier(steps: seq<Step>, l: nat, r: nat)
    requires After(steps).Some? && l < r < |After(steps).value.calls|
    requires var w := After(steps).value;
             && w.calls[l].kind.Lock?
             && (w.calls[r].state.Answered? || w.calls[r].state.Returned?)
             && FromVault(w.calls[r].state.answer)
    ensures Barred(After(steps).value, l, r)
  {
    AlwaysBarrier(steps);
    AlwaysWired(steps);
    assert CallOk(After(steps).value, r);
  }

  /** The same for what callers see: an operation that ended with data read it past every lock posted
      before its own call. */
  lemma DataComesAfterLocks(steps: seq<Step>, o: nat, l: nat)
    requires After(steps).Some? && o < |After(steps).value.ops|
    requires var w := After(steps).value;
             && w.ops[o].Ended? && w.ops[o].ending.ReadFrom?
             && l < w.ops[o].ending.call && l < |w.calls| && w.calls[l].kind.Lock?
    ensures var w := After(steps).value; w.ops[o].ending.call < |w.calls| && Barred(w, l, w.ops[o].ending.call)
  {
    AlwaysBarrier(steps);
    AlwaysWired(steps);
    var w := After(steps).value;
    assert OpOk(w, o);
    assert CallOk(w, w.ops[o].ending.call);
  }

  // ---------------------------------------------------------------- a `finish` overtaken by a lock

  /** Where an unlock's two calls stand: its `prepare` has returned, and was answered, before its `finish`
      is posted, hence before the worker takes anything posted after that. */
  predicate UnlockOrder(w: World, p: nat, f: nat)
    requires p < |w.calls| && f < |w.calls|
  {
    w.calls[p].kind.Prepare? && w.calls[f].kind.Finish? && w.calls[p].op == w.calls[f].op ==>
      && w.calls[p].state.Returned?
      && forall c :: f <= c < w.taken && c < |w.calls| ==> w.calls[p].answeredAt < w.calls[c].takenAt
  }

  /** The operation of a call has got at least as far as posting it. */
  predicate Posted(w: World, c: nat)
    requires c < |w.calls|
  {
    var call := w.calls[c];
    && (call.state.Answered? || call.state.Returned? ==> call.answeredAt < w.clock)
    && (call.op.Some? && call.op.value < |w.ops| ==>
          var op := w.ops[call.op.value];
          && (call.kind.Prepare? ==> !op.AwaitChallenge? && !op.AwaitPage? && (call.state.Returned? || op == AwaitProof(c)))
          && (call.kind.Finish? ==> op.AwaitFinish? || op.Ended?))
  }

  ghost predicate InOrder(w: World) {
    && (forall c :: 0 <= c < |w.calls| ==> Posted(w, c))
    && (forall p, f :: 0 <= p < |w.calls| && 0 <= f < |w.calls| ==> UnlockOrder(w, p, f))
  }

  /** What a step leaves alone of a call. */
  lemma CallKept(w: World, step: Step, c: nat)
    requires Wired(w) && Enabled(w, step) && c < |w.calls|
    ensures c < |Next(w, step).calls|
    ensures var call, call' := w.calls[c], Next(w, step).calls[c];
            && call'.kind == call.kind && call'.op == call.op
            && (call.state.Returned? ==> call' == call)
            && (c < w.taken ==> call'.takenAt == call.takenAt)
  {
    assert CallOk(w, c);
  }

  lemma TakingKept(w: World, step: Step)
    requires Wired(w) && Enabled(w, step)
    ensures var w' := Next(w, step);
            && w.taken <= w'.taken <= w.taken + 1 && w.clock <= w'.clock
            && (w'.taken == w.taken + 1 ==> step.WorkerTakes? && w.taken < |w.calls| && w'.calls[w.taken].takenAt == w.clock)
  {
  }

  lemma WorkerKeepsPosted(w: World, step: Step, c: nat)
    requires Wired(w) && Enabled(w, step) && c < |w.calls| && Posted(w, c)
    requires step.WorkerTakes? || step.WorkerResumes?
    ensures Posted(Next(w, step), c)
  {
    hide Begin, Resume;
    assert CallOk(w, c);
  }

  lemma DeliverKeepsPosted(w: World, d: nat, c: nat)
    requires Wired(w) && Enabled(w, Delivers(d)) && c < |w.calls| && Posted(w, c)
    ensures Posted(Deliver(w, d), c)
  {
    hide Settle, Opened, Dropped;
    assert CallOk(w, c) && CallOk(w, d);
    if w.calls[d].op.Some? {
      assert OpOk(w, w.calls[d].op.value);
      if w.calls[c].op == w.calls[d].op && c != d { assert w.ops[w.calls[d].op.value] != AwaitProof(c); }
    }
  }

  lemma OutsideKeepsPosted(w: World, step: Step, c: nat)
    requires Wired(w) && Enabled(w, step) && c < |w.calls| && Posted(w, c)
    requires !step.WorkerTakes? && !step.WorkerResumes? && !step.Delivers?
    ensures Posted(Next(w, step), c)
  {
    hide Touched, Dropped, Admits;
    assert CallOk(w, c);
  }

  lemma NewIsPosted(w: World, step: Step, c: nat)
    requires Wired(w) && Enabled(w, step) && |w.calls| <= c < |Next(w, step).calls|
    ensures Posted(Next(w, step), c)
    ensures Next(w, step).calls[c].kind.Prepare? || Next(w, step).calls[c].kind.Finish? ==>
              && Next(w, step).calls[c].op.Some? && Next(w, step).calls[c].op.value < |w.ops|
              && var op := w.ops[Next(w, step).calls[c].op.value];
                 if Next(w, step).calls[c].kind.Prepare? then op.AwaitChallenge? else op.AwaitVerify?
  {
    hide Touched, Dropped, Settle, Opened;
    if step.Delivers? {
      assert CallOk(w, step.call);
      if w.calls[step.call].op.Some? { assert OpOk(w, w.calls[step.call].op.value); }
    }
    if step.PageReply? { assert OpOk(w, step.op); }
  }

  lemma StepKeepsPosted(w: World, step: Step, c: nat)
    requires Wired(w) && Enabled(w, step) && c < |Next(w, step).calls|
    requires c < |w.calls| ==> Posted(w, c)
    ensures Posted(Next(w, step), c)
  {
    hide Posted, Wired;
    if c >= |w.calls| {
      NewIsPosted(w, step, c);
    } else if step.WorkerTakes? || step.WorkerResumes? {
      WorkerKeepsPosted(w, step, c);
    } else if step.Delivers? {
      DeliverKeepsPosted(w, step.call, c);
    } else {
      OutsideKeepsPosted(w, step, c);
    }
  }

  lemma OldUnlockOrder(w: World, step: Step, p: nat, f: nat)
    requires Wired(w) && InOrder(w) && Enabled(w, step) && p < |w.calls| && f < |w.calls|
    ensures p < |Next(w, step).calls| && f < |Next(w, step).calls| && UnlockOrder(Next(w, step), p, f)
  {
    hide Next, CallOk, OpOk, Enabled;
    var w' := Next(w, step);
    CallKept(w, step, p);
    CallKept(w, step, f);
    TakingKept(w, step);
    assert Posted(w, p) && UnlockOrder(w, p, f);
    forall c | f <= c < w.taken && c < |w.calls|
      ensures c < |w'.calls| && w'.calls[c].takenAt == w.calls[c].takenAt
    {
      CallKept(w, step, c);
    }
  }

  lemma StepKeepsUnlockOrder(w: World, step: Step, p: nat, f: nat)
    requires Wired(w) && InOrder(w) && Enabled(w, step)
    requires p < |Next(w, step).calls| && f < |Next(w, step).calls|
    ensures UnlockOrder(Next(w, step), p, f)
  {
    hide Next, CallOk, OpOk, Enabled;
    TakingKept(w, step);
    if p < |w.calls| && f < |w.calls| {
      OldUnlockOrder(w, step, p, f);
    } else if p < |w.calls| {
      CallKept(w, step, p);
      NewIsPosted(w, step, f);
      assert Posted(w, p);
    } else {
      NewIsPosted(w, step, p);
      if f < |w.calls| {
        CallKept(w, step, f);
        assert Posted(w, f);
      } else {
        NewIsPosted(w, step, f);
      }
    }
  }

  lemma {:induction false} AlwaysInOrder(steps: seq<Step>)
    requires After(steps).Some?
    ensures InOrder(After(steps).value)
  {
    if steps != [] {
      hide Posted, UnlockOrder;
      var before, step := steps[..|steps| - 1], steps[|steps| - 1];
      AlwaysInOrder(before);
      AlwaysWired(before);
      var w' := After(steps).value;
      forall c | 0 <= c < |w'.calls| ensures Posted(w', c) { StepKeepsPosted(After(before).value, step, c); }
      forall p, f | 0 <= p < |w'.calls| && 0 <= f < |w'.calls| ensures UnlockOrder(w', p, f) {
        StepKeepsUnlockOrder(After(before).value, step, p, f);
      }
    }
  }

  /** A `finish` posted before a lock and completed after it does not reopen the vault on its own: what is
      read after that lock needs the second leg of another unlock completed after it as well. */
  lemma LateFinishNeedsAnotherUnlock(steps: seq<Step>, f: nat, l: nat, r: nat) returns (p: nat)
    requires After(steps).Some? && f < l < r < After(steps).value.taken <= |After(steps).value.calls|
    requires var w := After(steps).value;
             w.calls[f].kind.Finish? && w.calls[l].kind.Lock? && w.calls[r].granted
    ensures var w := After(steps).value; ProvesBetween(w, l, p, r) && w.calls[p].op != w.calls[f].op
  {
    AlwaysBarrier(steps);
    AlwaysInOrder(steps);
    var w := After(steps).value;
    assert Barred(w, l, r);
    p :| ProvesBetween(w, l, p, r);
    assert UnlockOrder(w, p, f);
  }

  /** Without an overlapping unlock: when every `prepare` the worker has been sent was answered before it
      took the lock, no `finish` makes anything readable after that lock. */
  lemma LateFinishStaysUnreadable(steps: seq<Step>, l: nat, r: nat)
    requires After(steps).Some? && l < r < After(steps).value.taken <= |After(steps).value.calls|
    requires var w := After(steps).value;
             && w.calls[l].kind.Lock?
             && forall p :: 0 <= p < |w.calls| && w.calls[p].kind.Prepare? ==>
                  (w.calls[p].state.Answered? || w.calls[p].state.Returned?) && w.calls[p].answeredAt < w.calls[l].takenAt
    ensures !After(steps).value.calls[r].granted
  {
    AlwaysBarrier(steps);
    var w := After(steps).value;
    assert w.calls[r].granted ==> Barred(w, l, r);
    forall p: nat | ProvesBetween(w, l, p, r) ensures w.calls[p].kind.Prepare? {}
  }
}
