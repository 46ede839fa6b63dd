/** An edit in the worker: when a reseal is answered with a blob, and how a lock stops one already under way. */
module VaultReseal {
  import opened KeyHolder
  import opened VaultAnswers
  import opened VaultBarrier
  import opened VaultHost
  import opened VaultWiring
  import opened VaultWorld
  import opened Wrappers

  // ---------------------------------------------------------------- the two legs, on the run

  /** The keys the worker held before step `n`. */
  ghost predicate ReadableBefore(steps: seq<Step>, n: nat)
    requires n < |steps|
  {
    After(steps[..n]).Some? && Readable(After(steps[..n]).value.keys)
  }

  /** At step `n` the worker took call `c`. */
  ghost predicate TakesAt(steps: seq<Step>, n: nat, c: nat)
    requires n < |steps|
  {
    After(steps[..n]).Some? && steps[n].WorkerTakes? && After(steps[..n]).value.taken == c
  }

  predicate ResumesAt(steps: seq<Step>, n: nat, c: nat)
    requires n < |steps|
  {
    steps[n].WorkerResumes? && steps[n].call == c
  }

  /** The worker found the vault readable when it took the call. */
  ghost predicate TookReadable(steps: seq<Step>, c: nat) {
    exists n :: 0 <= n < |steps| && TakesAt(steps, n, c) && ReadableBefore(steps, n)
  }

  /** The call's first leg succeeded and found the vault still readable. */
  ghost predicate OpenedReadable(steps: seq<Step>, c: nat, n: nat) {
    && n < |steps| && ResumesAt(steps, n, c) && steps[n].ok && ReadableBefore(steps, n)
    && forall m :: 0 <= m < n ==> !ResumesAt(steps, m, c)
  }

  ghost predicate Merged(steps: seq<Step>, c: nat) { exists n: nat :: OpenedReadable(steps, c, n) }

  /** ... and after it the second leg succeeded. */
  ghost predicate SealedAfter(steps: seq<Step>, c: nat, n: nat, m: nat) {
    OpenedReadable(steps, c, n) && n < m < |steps| && ResumesAt(steps, m, c) && steps[m].ok
  }

  ghost predicate Sealed(steps: seq<Step>, c: nat) { exists n: nat, m: nat :: SealedAfter(steps, c, n, m) }

  /** The call has been resumed at all. */
  predicate Begun(steps: seq<Step>, c: nat) { exists n :: 0 <= n < |steps| && ResumesAt(steps, n, c) }

  // ---------------------------------------------------------------- where a reseal stands

  /** A reseal's call, and the operation that waits for it, from what the run did with the call. */
  ghost predicate ResealOk(w: World, c: nat, readable: bool, begun: bool, merged: bool, sealed: bool)
    requires c < |w.calls|
  {
    var call := w.calls[c];
    call.kind.Reseal? ==>
      && (call.granted <==> readable)
      && (call.state.Queued? ==> !readable && !begun && !merged && !sealed)
      && (call.state.Running? ==>
            || (call.state.handler == Merging && !begun && !merged && !sealed)
            || (call.state.handler == Resealing && begun && merged && !sealed))
      && (call.state.Answered? || call.state.Returned? ==>
            call.state.answer == if readable then Resealed(sealed) else Refused)
  }

  /** What the operation does with its answer. */
  predicate EditOk(w: World, c: nat)
    requires c < |w.calls|
  {
    var call := w.calls[c];
    call.kind.Reseal? && call.state.Returned? && call.op.Some? && call.op.value < |w.ops| ==>
      var op := w.ops[call.op.value];
      match call.state.answer
      case Resealed(true) => op.AwaitServer? || op == Ended(Done)
      case Resealed(false) => op == Ended(Failed)
      case _ => op == Ended(Threw)
  }

  /** `ResealOk` after a step. */
  ghost predicate ResealOkAfter(w: World, step: Step, c: nat, readable: bool, begun: bool, merged: bool, sealed: bool)
    requires Enabled(w, step) && c < |Next(w, step).calls|
  {
    var resumes := step.WorkerResumes? && step.call == c;
    ResealOk(Next(w, step), c,
      readable || (step.WorkerTakes? && w.taken == c && Readable(w.keys)),
      begun || resumes,
      merged || (!begun && resumes && step.ok && Readable(w.keys)),
      sealed || (merged && resumes && step.ok))
  }

  lemma WorkerKeepsReseal(w: World, step: Step, c: nat, readable: bool, begun: bool, merged: bool, sealed: bool)
    requires Wired(w) && Enabled(w, step) && c < |w.calls| && (step.WorkerTakes? || step.WorkerResumes?)
    requires ResealOk(w, c, readable, begun, merged, sealed)
    ensures c < |Next(w, step).calls| && ResealOkAfter(w, step, c, readable, begun, merged, sealed)
  {
    hide OpOk;
    assert CallOk(w, c);
  }

  lemma StepKeepsReseal(w: World, step: Step, c: nat, readable: bool, begun: bool, merged: bool, sealed: bool)
    requires Wired(w) && Enabled(w, step) && c < |w.calls|
    requires ResealOk(w, c, readable, begun, merged, sealed)
    ensures c < |Next(w, step).calls| && ResealOkAfter(w, step, c, readable, begun, merged, sealed)
  {
    hide Touched, Dropped, Opened, Settle, Admits, OpOk, Begin, Resume;
    if step.WorkerTakes? || step.WorkerResumes? {
      WorkerKeepsReseal(w, step, c, readable, begun, merged, sealed);
    } else if step.Delivers? {
      DeliveryKeepsCalls(w, step.call, c);
    }
  }

  lemma DeliveryKeepsCalls(w: World, d: nat, c: nat)
    requires Enabled(w, Delivers(d)) && c < |w.calls|
    ensures var w' := Deliver(w, d);
            && c < |w'.calls| && w'.taken == w.taken && w'.keys == w.keys
            && w'.calls[c] == if c == d then w.calls[d].(state := Returned(w.calls[d].state.answer)) else w.calls[c]
  {
    hide Opened, Dropped, Settle;
  }

  lemma NewReseal(w: World, step: Step, c: nat)
    requires Wired(w) && Enabled(w, step) && |w.calls| <= c < |Next(w, step).calls|
    ensures ResealOk(Next(w, step), c, false, false, false, false) && EditOk(Next(w, step), c)
  {
    hide Touched, Dropped, Opened, Settle, Admits;
  }

  lemma DeliversOwnEdit(w: World, c: nat)
    requires Wired(w) && Enabled(w, Delivers(c))
    requires w.calls[c].kind.Reseal? ==> w.calls[c].state.answer.Resealed? || w.calls[c].state.answer.Refused?
    ensures c < |Deliver(w, c).calls| && EditOk(Deliver(w, c), c)
  {
    hide Opened, Dropped;
    assert CallOk(w, c);
    if w.calls[c].op.Some? { assert OpOk(w, w.calls[c].op.value); }
  }

  lemma DeliversOther(w: World, d: nat, c: nat)
    requires Wired(w) && Enabled(w, Delivers(d)) && c < |w.calls| && c != d && EditOk(w, c)
    ensures c < |Deliver(w, d).calls| && EditOk(Deliver(w, d), c)
  {
    hide Opened, Dropped, Settle, OpOk;
    assert CallOk(w, c) && CallOk(w, d);
  }

  lemma OutsideKeepsEdit(w: World, step: Step, c: nat)
    requires Wired(w) && Enabled(w, step) && c < |w.calls| && EditOk(w, c) && !step.Delivers?
    ensures c < |Next(w, step).calls| && EditOk(Next(w, step), c)
  {
    hide Touched, Dropped, Admits, Begin, Resume;
    assert CallOk(w, c);
  }

  lemma StepKeepsEdit(w: World, step: Step, c: nat)
    requires Wired(w) && Enabled(w, step) && c < |Next(w, step).calls|
    requires c < |w.calls| ==> EditOk(w, c)
    ensures EditOk(Next(w, step), c)
  {
    hide EditOk, CallOk, OpOk, Begin, Resume;
    if c >= |w.calls| {
      NewReseal(w, step, c);
    } else if step.Delivers? {
      DeliveredArm(w, step.call);
      if step.call == c { DeliversOwnEdit(w, c); } else { DeliversOther(w, step.call, c); }
    } else {
      OutsideKeepsEdit(w, step, c);
    }
  }

  lemma DeliveredArm(w: World, d: nat)
    requires Wired(w) && Enabled(w, Delivers(d))
    ensures w.calls[d].kind.Reseal? ==> w.calls[d].state.answer.Resealed? || w.calls[d].state.answer.Refused?
  {
    assert CallOk(w, d);
  }

  // ---------------------------------------------------------------- how the run's record grows

  lemma RecordStep(steps: seq<Step>, c: nat)
    requires steps != [] && After(steps).Some?
    ensures var before, step := steps[..|steps| - 1], steps[|steps| - 1];
            var w, resumes := After(before).value, step.WorkerResumes? && step.call == c;
            && (TookReadable(steps, c) <==>
                  TookReadable(before, c) || (step.WorkerTakes? && w.taken == c && Readable(w.keys)))
            && (Begun(steps, c) <==> Begun(before, c) || resumes)
            && (Merged(steps, c) <==> Merged(before, c) || (!Begun(before, c) && resumes && step.ok && Readable(w.keys)))
            && (Sealed(steps, c) <==> Sealed(before, c) || (Merged(before, c) && resumes && step.ok))
  {
    hide After, Enabled, Next, Readable;
    var last := |steps| - 1;
    var before := steps[..last];
    AfterSome(steps);
    forall n | 0 <= n < last ensures before[..n] == steps[..n] {}
    TookStep(steps, c);
    BegunStep(steps, c);
    MergedStep(steps, c);
    SealedStep(steps, c);
  }

  lemma AfterSome(steps: seq<Step>)
    requires steps != [] && After(steps).Some?
    ensures After(steps[..|steps| - 1]).Some?
  {
  }

  lemma SameBefore(steps: seq<Step>, n: nat, c: nat)
    requires n < |steps| - 1
    ensures var before := steps[..|steps| - 1];
            && before[n] == steps[n] && before[..n] == steps[..n]
            && (TakesAt(before, n, c) <==> TakesAt(steps, n, c))
            && (ReadableBefore(before, n) <==> ReadableBefore(steps, n))
            && (ResumesAt(before, n, c) <==> ResumesAt(steps, n, c))
  {
    hide After;
    assert steps[..|steps| - 1][..n] == steps[..n];
  }

  lemma TookStep(steps: seq<Step>, c: nat)
    requires steps != []
    ensures TookReadable(steps, c) <==>
            TookReadable(steps[..|steps| - 1], c)
            || (TakesAt(steps, |steps| - 1, c) && ReadableBefore(steps, |steps| - 1))
  {
    hide TakesAt, ReadableBefore;
    var before := steps[..|steps| - 1];
    forall n: nat | n < |before| ensures TakesAt(before, n, c) && ReadableBefore(before, n) <==>
                                    TakesAt(steps, n, c) && ReadableBefore(steps, n) { SameBefore(steps, n, c); }
    if n :| 0 <= n < |before| && TakesAt(before, n, c) && ReadableBefore(before, n) {
      assert TakesAt(steps, n, c) && ReadableBefore(steps, n);
    }
  }

  lemma BegunStep(steps: seq<Step>, c: nat)
    requires steps != []
    ensures Begun(steps, c) <==> Begun(steps[..|steps| - 1], c) || ResumesAt(steps, |steps| - 1, c)
  {
    var before := steps[..|steps| - 1];
    if n :| 0 <= n < |before| && ResumesAt(before, n, c) { assert ResumesAt(steps, n, c); }
    if n :| 0 <= n < |steps| && ResumesAt(steps, n, c) {
      if n < |before| { assert ResumesAt(before, n, c); }
    }
  }

  lemma OpenedBefore(steps: seq<Step>, c: nat, n: nat)
    requires n < |steps| - 1
    ensures OpenedReadable(steps[..|steps| - 1], c, n) <==> OpenedReadable(steps, c, n)
  {
    hide ReadableBefore;
    SameBefore(steps, n, c);
    var before := steps[..|steps| - 1];
    forall m | 0 <= m < n ensures ResumesAt(before, m, c) == ResumesAt(steps, m, c) {}
    assert (forall m :: 0 <= m < n ==> !ResumesAt(before, m, c)) <==>
           (forall m :: 0 <= m < n ==> !ResumesAt(steps, m, c));
  }

  lemma MergedStep(steps: seq<Step>, c: nat)
    requires steps != []
    ensures Merged(steps, c) <==>
            Merged(steps[..|steps| - 1], c)
            || (!Begun(steps[..|steps| - 1], c) && ResumesAt(steps, |steps| - 1, c) && steps[|steps| - 1].ok
                && ReadableBefore(steps, |steps| - 1))
  {
    hide ReadableBefore;
    var before, last := steps[..|steps| - 1], |steps| - 1;
    forall n: nat | n < last
      ensures OpenedReadable(before, c, n) <==> OpenedReadable(steps, c, n)
      ensures ResumesAt(before, n, c) <==> ResumesAt(steps, n, c)
    {
      OpenedBefore(steps, c, n);
    }
    if n: nat :| OpenedReadable(before, c, n) { assert OpenedReadable(steps, c, n); }
    if OpenedReadable(steps, c, last) {}
    if !Begun(before, c) && ResumesAt(steps, last, c) && steps[last].ok && ReadableBefore(steps, last) {
      assert OpenedReadable(steps, c, last);
    }
  }

  lemma SealedStep(steps: seq<Step>, c: nat)
    requires steps != []
    ensures Sealed(steps, c) <==>
            Sealed(steps[..|steps| - 1], c)
            || (Merged(steps[..|steps| - 1], c) && ResumesAt(steps, |steps| - 1, c) && steps[|steps| - 1].ok)
  {
    hide OpenedReadable, ReadableBefore;
    var before, last := steps[..|steps| - 1], |steps| - 1;
    forall n: nat | n < last
      ensures OpenedReadable(before, c, n) <==> OpenedReadable(steps, c, n)
      ensures ResumesAt(before, n, c) <==> ResumesAt(steps, n, c)
    {
      OpenedBefore(steps, c, n);
    }
    if n: nat, m: nat :| SealedAfter(before, c, n, m) { assert SealedAfter(steps, c, n, m); }
    if n: nat, m: nat :| SealedAfter(steps, c, n, m) {
      if m < last { assert SealedAfter(before, c, n, m); } else { assert OpenedReadable(before, c, n); }
    }
    if Merged(before, c) && ResumesAt(steps, last, c) && steps[last].ok {
      var n: nat :| OpenedReadable(before, c, n);
      OpenedIndex(before, c, n);
      assert SealedAfter(steps, c, n, last);
    }
  }

  lemma OpenedIndex(steps: seq<Step>, c: nat, n: nat)
    requires OpenedReadable(steps, c, n)
    ensures n < |steps|
  {
  }

  // ---------------------------------------------------------------- in every run

  lemma {:induction false} AlwaysReseal(steps: seq<Step>, c: nat)
    requires After(steps).Some?
    ensures if c < |After(steps).value.calls|
            then ResealOk(After(steps).value, c, TookReadable(steps, c), Begun(steps, c), Merged(steps, c),
                          Sealed(steps, c))
                 && EditOk(After(steps).value, c)
            else !TookReadable(steps, c) && !Begun(steps, c) && !Merged(steps, c) && !Sealed(steps, c)
  {
    hide ResealOk, EditOk, Next, Enabled, TookReadable, Begun, Merged, Sealed, CallOk, OpOk;
    if steps == [] {
      NothingRecorded(c);
    } else {
      var before, step := steps[..|steps| - 1], steps[|steps| - 1];
      var w := After(before).value;
      AlwaysReseal(before, c);
      AlwaysWired(before);
      RecordStep(steps, c);
      CallsOnlyGrow(w, step, c);
      if c < |w.calls| {
        StepKeepsReseal(w, step, c, TookReadable(before, c), Begun(before, c), Merged(before, c), Sealed(before, c));
        StepKeepsEdit(w, step, c);
      } else if c < |After(steps).value.calls| {
        NewReseal(w, step, c);
      }
    }
  }

  lemma NothingRecorded(c: nat)
    ensures !TookReadable([], c) && !Begun([], c) && !Merged([], c) && !Sealed([], c)
  {
  }

  lemma CallsOnlyGrow(w: World, step: Step, c: nat)
    requires Enabled(w, step)
    ensures |w.calls| <= |Next(w, step).calls|
    ensures c >= |w.calls| ==> !(step.WorkerTakes? && w.taken == c) && !(step.WorkerResumes? && step.call == c)
  {
    hide Touched, Dropped, Opened, Settle, Admits;
  }

  /** In every run, an edit's request to the worker is refused exactly when the vault was not readable when it
      was taken; otherwise it is answered with a blob exactly when both its legs succeeded and the vault was
      readable still, or again, when the first of them resumed. Only with a blob does the edit go on to its PUT. */
  lemma ResealAnswered(steps: seq<Step>, c: nat)
    requires After(steps).Some? && c < |After(steps).value.calls|
    requires After(steps).value.calls[c].kind.Reseal? && After(steps).value.calls[c].state.Returned?
    ensures var w := After(steps).value;
            var answer, o := w.calls[c].state.answer, w.calls[c].op;
            && o.Some? && o.value < |w.ops|
            && answer == (if !TookReadable(steps, c) then Refused else Resealed(Sealed(steps, c)))
            && (if answer == Resealed(true) then w.ops[o.value].AwaitServer? || w.ops[o.value] == Ended(Done)
                else w.ops[o.value] == Ended(if answer == Refused then Threw else Failed))
  {
    hide After, TookReadable, Sealed;
    AlwaysReseal(steps, c);
    AlwaysWired(steps);
    assert CallOk(After(steps).value, c);
  }

  // ---------------------------------------------------------------- a lock in between

  /** Since the worker took lock `l` the vault has not been unlocked: no `finish` has opened it, or no second
      leg has named the user. */
  ghost predicate LockedSince(w: World, l: nat)
    requires l < |w.calls|
  {
    || (forall f: nat :: Opens(w, f) ==> w.calls[f].answeredAt <= w.calls[l].takenAt)
    || (forall p: nat :: Proves(w, p) ==> w.calls[p].answeredAt <= w.calls[l].takenAt)
  }

  lemma LockedIsUnreadable(steps: seq<Step>, l: nat)
    requires After(steps).Some? && l < After(steps).value.taken && l < |After(steps).value.calls|
    requires After(steps).value.calls[l].kind.Lock? && LockedSince(After(steps).value, l)
    ensures !Readable(After(steps).value.keys)
  {
    hide After;
    AlwaysBarrier(steps);
  }

  lemma OnlyAt(steps: seq<Step>, n: nat, c: nat, k: nat)
    requires n < |steps| && ResumesAt(steps, n, c) && !Begun(steps[..n], c) && !ReadableBefore(steps, n)
    ensures !OpenedReadable(steps, c, k)
  {
    hide ReadableBefore;
    if k < n && k < |steps| { assert ResumesAt(steps[..n], k, c) == ResumesAt(steps, k, c); }
  }

  /** A lock taken before an edit's first leg resumes, with no unlock completed since, stops the edit: it is
      never answered with a blob, and its operation waits or has failed, but never goes on to the PUT. */
  lemma LockStopsReseal(steps: seq<Step>, n: nat, c: nat, l: nat)
    requires After(steps).Some? && c < |After(steps).value.calls| && After(steps).value.calls[c].kind.Reseal?
    requires n < |steps| && ResumesAt(steps, n, c) && !Begun(steps[..n], c) && After(steps[..n]).Some?
    requires var w := After(steps[..n]).value;
             && l < w.taken && l < |w.calls| && w.calls[l].kind.Lock? && LockedSince(w, l)
    ensures var w := After(steps).value; var o := w.calls[c].op;
            && o.Some? && o.value < |w.ops|
            && (w.ops[o.value] == AwaitHolder(c, Reseal)
                || w.ops[o.value] == Ended(if TookReadable(steps, c) then Failed else Threw))
            && !Sealed(steps, c)
  {
    hide After, LockedSince, TookReadable;
    LockedIsUnreadable(steps[..n], l);
    forall k: nat ensures !OpenedReadable(steps, c, k) { OnlyAt(steps, n, c, k); }
    AlwaysReseal(steps, c);
    AlwaysSettled(steps);
    AlwaysWired(steps);
    assert CallOk(After(steps).value, c) && SettledCall(After(steps).value, c);
  }
}
