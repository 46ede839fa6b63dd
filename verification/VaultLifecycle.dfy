/** What holds in every reachable state of the extension: the lifecycle of token and timer, where key
    material can linger, and what a lock guarantees. */
module VaultLifecycle {
  import opened KeyHolder
  import opened VaultHost
  import opened VaultWiring
  import opened VaultWorld
  import opened Wrappers

  // ---------------------------------------------------------------- token, expiry and timer

  lemma StepKeepsLifecycle(w: World, step: Step)
    requires Lifecycle(w.host) && Enabled(w, step)
    ensures Lifecycle(Next(w, step).host)
  {
    LifecycleKept(w.host, "", "");
    match step {
      case Delivers(c) =>
        if w.calls[c].op.Some? {
          var op := w.ops[w.calls[c].op.value];
          if op.AwaitFinish? {
            var settled := w.host.(mirror := Settle(Finish, w.calls[c].state.answer, w.host.mirror).1);
            assert Lifecycle(settled);
            LifecycleKept(settled, op.token, op.expiresAt);
          }
        }
      case _ =>
    }
  }

  /** At every await boundary of every run: token, expiry and idle handle are all set or all clear, the
      live timers are exactly that handle, and with timers firing on time a held token is never older
      than the last interaction plus the idle limit. */
  lemma {:induction false} AlwaysLifecycle(steps: seq<Step>)
    requires After(steps).Some?
    ensures Lifecycle(After(steps).value.host)
  {
    if steps != [] {
      var before := steps[..|steps| - 1];
      AlwaysLifecycle(before);
      StepKeepsLifecycle(After(before).value, steps[|steps| - 1]);
    }
  }

  // ---------------------------------------------------------------- key residency

  predicate LockQueuedAt(w: World, c: nat) {
    w.taken <= c < |w.calls| && w.calls[c].kind.Lock?
  }

  ghost predicate LockQueued(w: World) { exists c :: LockQueuedAt(w, c) }

  ghost predicate UnlockInFlight(w: World) {
    exists o :: 0 <= o < |w.ops| && Unlocking(w.ops[o])
  }

  /** An unlock past its key derivation, which its own end will arm a timer or post a lock for. */
  predicate Carries(w: World, o: nat) {
    && o < |w.ops|
    && match w.ops[o]
       case AwaitProof(c) => c < |w.calls| && (w.calls[c].state == Running(Proving) || w.calls[c].state == Answered(Proof))
       case AwaitVerify => true
       case AwaitFinish(_, _, _) => true
       case _ => false
  }

  ghost predicate Covered(w: World) {
    w.host.idle.Some? || LockQueued(w) || exists o :: Carries(w, o)
  }

  /** The second leg of a `prepare` fails and leaves something behind: refused with keys in the holder, or
      resumed when the preparation it goes back to is gone. */
  predicate Strands(w: World, step: Step) {
    && step.WorkerResumes? && step.call < |w.calls| && w.calls[step.call].state == Running(Proving)
    && if step.ok then !w.keys.preparation else w.keys.preparation || w.keys.session || w.keys.vault
  }

  predicate TakesLock(w: World, step: Step) {
    step.WorkerTakes? && w.taken < |w.calls| && w.calls[w.taken].kind.Lock?
  }

  /** Such a leg failed somewhere in the run, and the worker has taken no lock since. */
  predicate Stranded(steps: seq<Step>)
    requires After(steps).Some?
  {
    steps != [] &&
    var before, step := steps[..|steps| - 1], steps[|steps| - 1];
    var w := After(before).value;
    !TakesLock(w, step) && (Stranded(before) || Strands(w, step))
  }

  ghost predicate Residency(w: World, stranded: bool) {
    && (Material(w.keys) ==> Covered(w) || stranded)
    && (stranded ==> Material(w.keys))
  }

  /** Steps outside the worker keep whatever covers the keys, or replace it by a queued lock. */
  lemma OutsideStepKeepsCover(w: World, step: Step)
    requires Wired(w) && Enabled(w, step) && Covered(w)
    requires !step.WorkerTakes? && !step.WorkerResumes? && !step.Delivers?
    ensures Covered(Next(w, step))
  {
    hide CallOk;
    var w' := Next(w, step);
    if c :| LockQueuedAt(w, c) {
      assert LockQueuedAt(w', c);
    } else if o: nat :| Carries(w, o) {
      if step.VerifyReply? && step.op == o {
        if step.reply.Grant? { assert Carries(w', o); } else { assert LockQueuedAt(w', |w.calls|); }
      } else {
        assert OpOk(w, o);
        assert Carries(w', o);
      }
    } else if w.host.idle.Some? && w'.host.idle.None? {
      assert LockQueuedAt(w', |w.calls|);
    }
  }

  lemma DeliverKeepsCover(w: World, c: nat)
    requires Wired(w) && Enabled(w, Delivers(c)) && Covered(w)
    ensures Covered(Deliver(w, c))
  {
    var w' := Deliver(w, c);
    if d :| LockQueuedAt(w, d) {
      assert LockQueuedAt(w', d);
    } else if w.host.idle.Some? && w'.host.idle.None? {
      assert LockQueuedAt(w', |w.calls|);
    } else if o: nat :| Carries(w, o) {
      assert CallOk(w, c) && OpOk(w, o);
      if w.calls[c].op != Some(o) {
        assert Carries(w', o);
      } else if w.ops[o].AwaitProof? {
        assert Carries(w', o);
      } else if w'.host.idle.None? {
        assert LockQueuedAt(w', |w.calls|);
      }
    }
  }

  lemma WorkerStepKeepsResidency(w: World, step: Step, stranded: bool)
    requires Wired(w) && Enabled(w, step) && Residency(w, stranded)
    requires step.WorkerTakes? || step.WorkerResumes?
    ensures Residency(Next(w, step), !TakesLock(w, step) && (stranded || Strands(w, step)))
  {
    var w' := Next(w, step);
    var c := if step.WorkerTakes? then w.taken else step.call;
    assert CallOk(w, c);
    if Material(w'.keys) && !stranded {
      if Material(w.keys) {
        if d :| LockQueuedAt(w, d) {
          assert LockQueuedAt(w', d) by { assert CallOk(w, d); }
        } else if o: nat :| Carries(w, o) {
          assert OpOk(w, o);
          assert Strands(w, step) || Carries(w', o);
        }
      } else {
        DerivingCarries(w, step);
      }
    }
  }

  /** Keys appear in an empty holder only through a suspended unlock of the same call. */
  lemma DerivingCarries(w: World, step: Step)
    requires Wired(w) && Enabled(w, step) && !Material(w.keys) && Material(Next(w, step).keys)
    requires step.WorkerTakes? || step.WorkerResumes?
    ensures Covered(Next(w, step)) || Strands(w, step)
  {
    var w' := Next(w, step);
    var c := if step.WorkerTakes? then w.taken else step.call;
    assert CallOk(w, c);
    assert step.WorkerResumes?;
    var o := w.calls[c].op.value;
    assert OpOk(w, o);
    assert Strands(w, step) || Carries(w', o);
  }

  lemma StepKeepsResidency(w: World, step: Step, stranded: bool)
    requires Wired(w) && Enabled(w, step) && Residency(w, stranded)
    ensures Residency(Next(w, step), !TakesLock(w, step) && (stranded || Strands(w, step)))
  {
    if step.WorkerTakes? || step.WorkerResumes? {
      WorkerStepKeepsResidency(w, step, stranded);
    } else if Material(w.keys) && !stranded {
      if step.Delivers? { DeliverKeepsCover(w, step.call); } else { OutsideStepKeepsCover(w, step); }
    }
  }

  /** In every run: key material means that the timer is armed, a lock is queued, an unlock past its
      derivation is in flight, or a second leg has stranded it. */
  lemma {:induction false} AlwaysResident(steps: seq<Step>)
    requires After(steps).Some?
    ensures Residency(After(steps).value, Stranded(steps))
  {
    if steps != [] {
      var before := steps[..|steps| - 1];
      AlwaysResident(before);
      AlwaysWired(before);
      StepKeepsResidency(After(before).value, steps[|steps| - 1], Stranded(before));
    }
  }

  /** What takes a preparation away: a lock, or the `finish` of some unlock. */
  predicate ClearsPreparation(w: World, step: Step) {
    || TakesLock(w, step)
    || (step.WorkerResumes? && step.ok && step.call < |w.calls| && w.calls[step.call].state == Running(Unwrapping))
  }

  /** Step `k` took the preparation while `prepare` call `c` was suspended in its second leg. */
  ghost predicate ClearedAt(steps: seq<Step>, k: nat, c: nat) {
    && k < |steps| && After(steps[..k]).Some?
    && var w := After(steps[..k]).value;
       c < |w.calls| && w.calls[c].state == Running(Proving) && ClearsPreparation(w, steps[k])
  }

  /** A second leg finds its preparation gone only if a lock was taken or another unlock's `finish`
      completed while it was suspended. */
  lemma {:induction false} PreparationGone(steps: seq<Step>, c: nat) returns (k: nat)
    requires After(steps).Some? && c < |After(steps).value.calls|
    requires After(steps).value.calls[c].state == Running(Proving) && !After(steps).value.keys.preparation
    ensures ClearedAt(steps, k, c)
  {
    var n := |steps| - 1;
    var before := steps[..n];
    var w := After(before).value;
    AlwaysWired(before);
    ProvingComesFrom(w, steps[n], c);
    if w.keys.preparation {
      k := n;
    } else {
      k := PreparationGone(before, c);
      assert before[..k] == steps[..k];
    }
  }

  lemma ProvingComesFrom(w: World, step: Step, c: nat)
    requires Wired(w) && Enabled(w, step) && c < |Next(w, step).calls|
    requires Next(w, step).calls[c].state == Running(Proving) && !Next(w, step).keys.preparation
    ensures c < |w.calls| && w.calls[c].state == Running(Proving)
    ensures w.keys.preparation ==> ClearsPreparation(w, step)
  {
    if step.WorkerTakes? { assert CallOk(w, w.taken); }
    if step.WorkerResumes? { assert CallOk(w, step.call); }
  }

  /** Nothing is left that would ever clear the worker: no timer, no unlock in flight, no queued lock. */
  ghost predicate Quiet(w: World) {
    w.host.idle.None? && !LockQueued(w) && !UnlockInFlight(w)
  }

  lemma CarriersAreInFlight(w: World)
    ensures (exists o: nat :: Carries(w, o)) ==> UnlockInFlight(w)
  {
    if o: nat :| Carries(w, o) { assert Unlocking(w.ops[o]); }
  }

  /** Key material outlives everything that would clear it exactly when a second leg has stranded it: the
      one failure branch of `unlock` that does not drop the keys. Every other failed unlock leaves
      nothing behind. */
  lemma ResidentIffStranded(steps: seq<Step>)
    requires After(steps).Some? && Quiet(After(steps).value)
    ensures Material(After(steps).value.keys) <==> Stranded(steps)
  {
    AlwaysResident(steps);
    CarriersAreInFlight(After(steps).value);
  }
}
