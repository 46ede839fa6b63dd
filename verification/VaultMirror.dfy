/** The advisory mirror: exactly when it is wrong about the worker, a caller's rule under which it never
    is, and what a wrong one costs. */
module VaultMirror {
  import opened KeyHolder
  import opened VaultAnswers
  import opened VaultBarrier
  import opened VaultHost
  import opened VaultLifecycle
  import opened VaultWiring
  import opened VaultWorld
  import opened Wrappers

  // ---------------------------------------------------------------- when the vault is open

  predicate HasAnswer(call: Call) { call.state.Answered? || call.state.Returned? }

  /** The worker's clock tells its steps apart. */
  predicate Timed(w: World, c: nat)
    requires c < |w.calls|
  {
    && (c < w.taken ==> w.calls[c].takenAt < w.clock)
    && (HasAnswer(w.calls[c]) ==> c < w.taken && w.calls[c].takenAt <= w.calls[c].answeredAt < w.clock)
  }

  /** Messages are taken in order, and a lock at another moment than a `finish` is answered with an open
      vault. */
  predicate TimedPair(w: World, c: nat, d: nat)
    requires c < |w.calls| && d < |w.calls|
  {
    && (c < d < w.taken ==> w.calls[c].takenAt < w.calls[d].takenAt)
    && (c < w.taken && w.calls[c].kind.Lock? && Opens(w, d) ==> w.calls[c].takenAt != w.calls[d].answeredAt)
  }

  ghost predicate InTime(w: World) {
    && w.taken <= |w.calls|
    && (forall c :: 0 <= c < |w.calls| ==> Timed(w, c))
    && (forall c, d :: 0 <= c < |w.calls| && 0 <= d < |w.calls| ==> TimedPair(w, c, d))
  }

  lemma TimedKept(w: World, step: Step, c: nat)
    requires Wired(w) && Enabled(w, step) && c < |Next(w, step).calls|
    requires c < |w.calls| ==> Timed(w, c)
    ensures Timed(Next(w, step), c)
  {
    hide Begin, Resume, Settle, Touched, Dropped, Opened;
    if c < |w.calls| { assert CallOk(w, c); }
  }

  lemma PairKept(w: World, step: Step, c: nat, d: nat)
    requires Wired(w) && InTime(w) && Enabled(w, step) && c < |w.calls| && d < |w.calls|
    ensures c < |Next(w, step).calls| && d < |Next(w, step).calls| && TimedPair(Next(w, step), c, d)
  {
    hide Next, Enabled, CallOk, OpOk;
    CallKept(w, step, c);
    CallKept(w, step, d);
    TakingKept(w, step);
    AnswerKept(w, step, d);
    assert Timed(w, c) && Timed(w, d) && TimedPair(w, c, d);
  }

  /** An answer is given once, at the time of the step that gives it, and not while a call is taken unless
      it is that call's. */
  lemma AnswerKept(w: World, step: Step, d: nat)
    requires Wired(w) && Enabled(w, step) && d < |w.calls|
    ensures d < |Next(w, step).calls|
    ensures var call, call' := w.calls[d], Next(w, step).calls[d];
            && (HasAnswer(call) ==>
                  HasAnswer(call') && call'.answeredAt == call.answeredAt && call'.state.answer == call.state.answer)
            && (HasAnswer(call') && !HasAnswer(call) ==>
                  && call'.answeredAt == w.clock && (step.WorkerTakes? || step.WorkerResumes?)
                  && (Next(w, step).taken > w.taken ==> d == w.taken && !Opens(Next(w, step), d)))
  {
    assert CallOk(w, d);
  }

  lemma NewPairKept(w: World, step: Step, c: nat, d: nat)
    requires Wired(w) && Enabled(w, step)
    requires c < |Next(w, step).calls| && d < |Next(w, step).calls| && (c >= |w.calls| || d >= |w.calls|)
    ensures TimedPair(Next(w, step), c, d)
  {
    hide Begin, Resume, Settle, Touched, Dropped, Opened;
  }

  lemma StepKeepsTime(w: World, step: Step)
    requires Wired(w) && InTime(w) && Enabled(w, step)
    ensures InTime(Next(w, step))
  {
    hide Next, Enabled, CallOk, OpOk, Timed, TimedPair;
    var w' := Next(w, step);
    TakingKept(w, step);
    CallsGrow(w, step);
    forall c | 0 <= c < |w'.calls| ensures Timed(w', c) { TimedKept(w, step, c); }
    forall c, d | 0 <= c < |w'.calls| && 0 <= d < |w'.calls| ensures TimedPair(w', c, d) {
      if c < |w.calls| && d < |w.calls| { PairKept(w, step, c, d); } else { NewPairKept(w, step, c, d); }
    }
  }

  lemma CallsGrow(w: World, step: Step)
    requires Wired(w) && Enabled(w, step)
    ensures |w.calls| <= |Next(w, step).calls| && Next(w, step).taken <= |Next(w, step).calls|
  {
  }

  /** Answered with an open vault, with no lock taken since. */
  ghost predicate OpenSince(w: World, f: nat) {
    Opens(w, f) && forall l :: 0 <= l < w.taken && l < |w.calls| && w.calls[l].kind.Lock? ==>
                     w.calls[l].takenAt < w.calls[f].answeredAt
  }

  /** The vault is open exactly when some `finish` opened it after every lock taken so far. */
  ghost predicate VaultTracked(w: World) {
    w.keys.vault <==> exists f :: OpenSince(w, f)
  }

  lemma OpenSinceKept(w: World, step: Step, f: nat)
    requires Wired(w) && InTime(w) && Enabled(w, step) && !TakesLock(w, step) && OpenSince(w, f)
    ensures OpenSince(Next(w, step), f)
  {
    hide Next, CallOk, OpOk;
    StepGrows(w, step);
    TakingKept(w, step);
    var w' := Next(w, step);
    if w'.taken > w.taken { CallKept(w, step, w.taken); }
  }

  lemma OpenSinceBack(w: World, step: Step, f: nat)
    requires Wired(w) && InTime(w) && Enabled(w, step) && OpenSince(Next(w, step), f)
    requires f < |w.calls| && Opens(w, f)
    ensures !TakesLock(w, step) && OpenSince(w, f)
  {
    hide Next, CallOk, OpOk;
    StepGrows(w, step);
    TakingKept(w, step);
    var w' := Next(w, step);
    assert Timed(w, f);
    if TakesLock(w, step) { LockIsTaken(w, step); }
  }

  lemma LockIsTaken(w: World, step: Step)
    requires Enabled(w, step) && TakesLock(w, step)
    ensures var w' := Next(w, step);
            && w'.taken == w.taken + 1 && w.taken < |w'.calls| && w'.calls[w.taken].kind.Lock?
            && w'.calls[w.taken].takenAt == w.clock && !w'.keys.vault
  {
  }

  /** A `finish` starts to open the vault only in the step that answers it. */
  lemma NewlyOpens(w: World, step: Step, f: nat)
    requires Wired(w) && Enabled(w, step) && !Opens(w, f) && Opens(Next(w, step), f)
    ensures step == WorkerResumes(f, true) && Next(w, step).keys.vault && Next(w, step).calls[f].answeredAt == w.clock
    ensures Next(w, step).taken == w.taken
  {
    hide Settle, Touched, Dropped, Opened;
    if f < |w.calls| { assert CallOk(w, f); }
  }

  lemma VaultMoves(w: World, step: Step)
    requires Wired(w) && Enabled(w, step)
    ensures w.keys.vault && !TakesLock(w, step) ==> Next(w, step).keys.vault
    ensures !w.keys.vault && Next(w, step).keys.vault ==>
              step.WorkerResumes? && Opens(Next(w, step), step.call) && Next(w, step).taken == w.taken
              && Next(w, step).calls[step.call].answeredAt == w.clock
  {
    hide Settle, Touched, Dropped, Opened;
    if step.WorkerTakes? { assert CallOk(w, w.taken); }
    if step.WorkerResumes? { assert CallOk(w, step.call); }
  }

  lemma StepKeepsTracked(w: World, step: Step)
    requires Wired(w) && InTime(w) && VaultTracked(w) && Enabled(w, step)
    ensures VaultTracked(Next(w, step))
  {
    hide Next, Enabled, CallOk, OpOk, OpenSince, Opens;
    var w' := Next(w, step);
    VaultMoves(w, step);
    if TakesLock(w, step) { LockIsTaken(w, step); }
    if w'.keys.vault {
      if w.keys.vault {
        var f :| OpenSince(w, f);
        OpenSinceKept(w, step, f);
      } else {
        JustOpened(w, step, step.call);
      }
    }
    if f: nat :| OpenSince(w', f) {
      OpenSinceOpens(w', f);
      if Opens(w, f) {
        OpensIsCall(w, f);
        OpenSinceBack(w, step, f);
      } else {
        NewlyOpens(w, step, f);
      }
    }
  }

  lemma OpenSinceOpens(w: World, f: nat)
    requires OpenSince(w, f)
    ensures Opens(w, f)
  {
  }

  lemma OpensIsCall(w: World, f: nat)
    requires Opens(w, f)
    ensures f < |w.calls|
  {
  }

  lemma JustOpened(w: World, step: Step, f: nat)
    requires Wired(w) && InTime(w) && Enabled(w, step) && Opens(Next(w, step), f)
    requires Next(w, step).taken == w.taken && Next(w, step).calls[f].answeredAt == w.clock
    ensures OpenSince(Next(w, step), f)
  {
    hide Next, Enabled, CallOk, OpOk;
    StepGrows(w, step);
    forall l | 0 <= l < w.taken && l < |w.calls| ensures w.calls[l].takenAt < w.clock { assert Timed(w, l); }
  }

  // ---------------------------------------------------------------- who set the mirror

  /** A true mirror was set by the reply of a `finish` that had opened the vault, and every lock there is
      was posted before that reply was delivered. */
  ghost predicate ShownBy(w: World) {
    w.host.mirror ==>
      && w.shown.Some? && Opens(w, w.shown.value.finish)
      && w.shown.value.finish < w.shown.value.posted <= |w.calls|
      && forall l :: w.shown.value.posted <= l < |w.calls| ==> !w.calls[l].kind.Lock?
  }

  predicate FinishArrives(w: World, c: nat)
    requires Enabled(w, Delivers(c))
  {
    && w.calls[c].op.Some? && w.ops[w.calls[c].op.value].AwaitFinish?
    && w.calls[c].state.answer == Unlocked(true)
  }

  lemma DeliverKeepsShown(w: World, c: nat)
    requires Wired(w) && ShownBy(w) && Enabled(w, Delivers(c))
    ensures ShownBy(Deliver(w, c))
  {
    hide ShownBy, Wired;
    if FinishArrives(w, c) {
      FinishIsShown(w, c);
    } else if Deliver(w, c).host.mirror {
      OtherDelivery(w, c);
      ShownStays(w, Delivers(c));
    } else {
      DarkIsShown(Deliver(w, c));
    }
  }

  lemma FinishIsShown(w: World, c: nat)
    requires Wired(w) && Enabled(w, Delivers(c)) && FinishArrives(w, c)
    ensures ShownBy(Deliver(w, c))
    ensures Deliver(w, c).shown == Some(Shown(c, |w.calls|)) && |Deliver(w, c).calls| == |w.calls|
  {
    hide Opened;
    assert CallOk(w, c) && OpOk(w, w.calls[c].op.value);
  }

  lemma OtherDelivery(w: World, c: nat)
    requires Wired(w) && Enabled(w, Delivers(c)) && !FinishArrives(w, c) && Deliver(w, c).host.mirror
    ensures w.host.mirror && Deliver(w, c).shown == w.shown && |Deliver(w, c).calls| == |w.calls|
  {
    hide Opened;
    assert CallOk(w, c);
    if w.calls[c].op.Some? { assert OpOk(w, w.calls[c].op.value); }
  }

  lemma ShownStays(w: World, step: Step)
    requires Wired(w) && ShownBy(w) && Enabled(w, step) && w.host.mirror && Next(w, step).shown == w.shown
    requires forall l :: |w.calls| <= l < |Next(w, step).calls| ==> !Next(w, step).calls[l].kind.Lock?
    ensures ShownBy(Next(w, step))
  {
    hide Next, Enabled, CallOk, OpOk;
    StepGrows(w, step);
  }

  lemma StepKeepsShown(w: World, step: Step)
    requires Wired(w) && ShownBy(w) && Enabled(w, step)
    ensures ShownBy(Next(w, step))
  {
    hide Wired, ShownBy;
    if step.Delivers? {
      DeliverKeepsShown(w, step.call);
    } else if Next(w, step).host.mirror {
      QuietMirror(w, step);
      ShownStays(w, step);
    } else {
      DarkIsShown(Next(w, step));
    }
  }

  lemma DarkIsShown(w: World)
    requires !w.host.mirror
    ensures ShownBy(w)
  {
  }

  /** Only deliveries raise the mirror, and posting a lock lowers it. */
  lemma QuietMirror(w: World, step: Step)
    requires Wired(w) && Enabled(w, step) && !step.Delivers? && Next(w, step).host.mirror
    ensures w.host.mirror && Next(w, step).shown == w.shown
    ensures forall l :: |w.calls| <= l < |Next(w, step).calls| ==> !Next(w, step).calls[l].kind.Lock?
  {
    if step.PageReply? { PageKind(w, step.op); }
  }

  lemma {:induction false} AlwaysTracked(steps: seq<Step>)
    requires After(steps).Some?
    ensures var w := After(steps).value; InTime(w) && VaultTracked(w) && ShownBy(w)
  {
    if steps == [] {
      assert forall f: nat :: !OpenSince(Start(), f);
    } else {
      hide Next, Enabled, InTime, VaultTracked, ShownBy;
      var before, step := steps[..|steps| - 1], steps[|steps| - 1];
      AlwaysTracked(before);
      AlwaysWired(before);
      StepKeepsTime(After(before).value, step);
      StepKeepsTracked(After(before).value, step);
      StepKeepsShown(After(before).value, step);
    }
  }

  // ---------------------------------------------------------------- when the mirror is wrong

  /** Lock `l` overtook the reply that set the mirror: posted before that reply was delivered, taken after
      its `finish` was answered, and no `finish` has opened the vault since. */
  ghost predicate OvertakenBy(w: World, l: nat) {
    && w.shown.Some? && w.shown.value.finish < l < w.shown.value.posted && l < w.taken <= |w.calls|
    && w.calls[l].kind.Lock? && w.calls[w.shown.value.finish].answeredAt < w.calls[l].takenAt
    && forall g: nat :: Opens(w, g) ==> w.calls[g].answeredAt < w.calls[l].takenAt
  }

  lemma {:induction false} LastLock(w: World, n: nat, l0: nat) returns (l: nat)
    requires InTime(w) && l0 < n <= w.taken && w.calls[l0].kind.Lock?
    ensures l < n && w.calls[l].kind.Lock?
    ensures forall k :: 0 <= k < n && w.calls[k].kind.Lock? ==> w.calls[k].takenAt <= w.calls[l].takenAt
    decreases n
  {
    hide TimedPair, Timed;
    if w.calls[n - 1].kind.Lock? {
      l := n - 1;
      forall k | 0 <= k < n && w.calls[k].kind.Lock? ensures w.calls[k].takenAt <= w.calls[l].takenAt {
        if k < l { TakenInOrder(w, k, l); }
      }
    } else {
      l := LastLock(w, n - 1, l0);
    }
  }

  lemma TakenInOrder(w: World, c: nat, d: nat)
    requires InTime(w) && c < d < w.taken
    ensures w.calls[c].takenAt < w.calls[d].takenAt
  {
    assert TimedPair(w, c, d);
  }

  lemma ClosedByLock(w: World, f: nat) returns (l: nat)
    requires InTime(w) && VaultTracked(w) && !w.keys.vault && Opens(w, f)
    ensures l < w.taken && w.calls[l].kind.Lock? && w.calls[f].answeredAt < w.calls[l].takenAt
  {
    assert !OpenSince(w, f);
    l :| 0 <= l < w.taken && w.calls[l].kind.Lock? && w.calls[l].takenAt >= w.calls[f].answeredAt;
    assert TimedPair(w, l, f);
  }

  lemma ClosedIsOvertaken(w: World) returns (l: nat)
    requires InTime(w) && VaultTracked(w) && ShownBy(w) && w.host.mirror && !w.keys.vault
    ensures OvertakenBy(w, l)
  {
    hide TimedPair, Timed, Opens;
    var f := w.shown.value.finish;
    var l0 := ClosedByLock(w, f);
    l := LastLock(w, w.taken, l0);
    forall g: nat | Opens(w, g) ensures g < |w.calls| && w.calls[g].answeredAt < w.calls[l].takenAt {
      OpensIsCall(w, g);
      var k := ClosedByLock(w, g);
    }
    OpensIsCall(w, f);
    OpensIsTaken(w, f);
    if l < f { TakenInOrder(w, l, f); }
  }

  lemma OpensIsTaken(w: World, f: nat)
    requires InTime(w) && Opens(w, f)
    ensures f < w.taken && w.calls[f].takenAt <= w.calls[f].answeredAt
  {
    assert Timed(w, f);
  }

  /** The mirror says unlocked over a locked worker exactly when the reply that set it was overtaken by a
      lock and nothing has opened the vault since. */
  lemma MirrorWrongIffOvertaken(steps: seq<Step>)
    requires After(steps).Some? && After(steps).value.host.mirror
    ensures !After(steps).value.keys.vault <==> exists l :: OvertakenBy(After(steps).value, l)
  {
    hide InTime, ShownBy, OvertakenBy, OpenSince;
    var w := After(steps).value;
    AlwaysTracked(steps);
    if !w.keys.vault {
      var l := ClosedIsOvertaken(w);
    }
    if w.keys.vault {
      var f :| OpenSince(w, f);
      forall l: nat ensures !OvertakenBy(w, l) { OpenIsNotOvertaken(w, f, l); }
    }
  }

  lemma OpenIsNotOvertaken(w: World, f: nat, l: nat)
    requires OpenSince(w, f)
    ensures !OvertakenBy(w, l)
  {
  }

  // ---------------------------------------------------------------- a rule under which it is right

  /** The step posts a lock while some unlock is waiting for its `finish`. */
  ghost predicate Disturbs(w: World, step: Step)
    requires Enabled(w, step)
  {
    var w' := Next(w, step);
    && (exists l :: |w.calls| <= l < |w'.calls| && w'.calls[l].kind.Lock?)
    && (exists o :: 0 <= o < |w'.ops| && w'.ops[o].AwaitFinish?)
  }

  /** No lock is ever posted while an unlock is waiting for its `finish`. */
  ghost predicate Undisturbed(steps: seq<Step>)
    requires After(steps).Some?
  {
    steps == [] ||
    (Undisturbed(steps[..|steps| - 1]) && !Disturbs(After(steps[..|steps| - 1]).value, steps[|steps| - 1]))
  }

  /** No lock was posted after call `f`. */
  ghost predicate NoLockAfter(w: World, f: nat) {
    forall l :: f < l < |w.calls| ==> !w.calls[l].kind.Lock?
  }

  ghost predicate FinishesClear(w: World) {
    && (forall o :: 0 <= o < |w.ops| && w.ops[o].AwaitFinish? ==> NoLockAfter(w, w.ops[o].call))
    && (w.host.mirror && w.shown.Some? ==> NoLockAfter(w, w.shown.value.finish))
  }

  /** A `finish` that started had its user named, and only a later lock takes the name away. */
  predicate Named(w: World, f: nat)
    requires f < |w.calls|
  {
    w.calls[f].state == Running(Unwrapping) || Opens(w, f) ==>
      w.keys.userId || exists l :: f < l < w.taken && l < |w.calls| && w.calls[l].kind.Lock?
  }

  ghost predicate UserNamed(w: World) {
    && (w.keys.session ==> w.keys.userId)
    && forall f :: 0 <= f < |w.calls| ==> Named(w, f)
  }

  lemma NamedKept(w: World, step: Step, f: nat)
    requires Wired(w) && UserNamed(w) && Enabled(w, step) && f < |w.calls|
    ensures f < |Next(w, step).calls| && Named(Next(w, step), f)
  {
    hide Next, Enabled, OpOk;
    var w' := Next(w, step);
    assert CallOk(w, f) && Named(w, f);
    StepGrows(w, step);
    TakingKept(w, step);
    UserKept(w, step, f);
    if l :| f < l < w.taken && l < |w.calls| && w.calls[l].kind.Lock? {
      assert f < l < w'.taken && w'.calls[l].kind.Lock?;
    }
  }

  /** A `finish` starts only with a user named; a name once given goes only with a lock. */
  ghost predicate KeepsNames(w: World, w': World, f: nat)
    requires f < |w.calls| && f < |w'.calls|
  {
    && (w'.keys.session ==> w'.keys.userId)
    && (w.keys.userId && !w'.keys.userId ==>
          w'.taken == w.taken + 1 && w.taken < |w'.calls| && w'.calls[w.taken].kind.Lock?)
    && (w'.calls[f].state == Running(Unwrapping) || Opens(w', f) ==>
          w.calls[f].state == Running(Unwrapping) || Opens(w, f) || w'.keys.userId)
    && (Opens(w', f) || w'.calls[f].state.Running? ==> f < w'.taken && !w.calls[f].kind.Lock?)
    && (w'.taken == w.taken + 1 && f >= w.taken && (w'.calls[f].state.Running? || Opens(w', f)) ==> f == w.taken)
  }

  lemma UserKept(w: World, step: Step, f: nat)
    requires Wired(w) && (w.keys.session ==> w.keys.userId) && Enabled(w, step) && f < |w.calls|
    ensures f < |Next(w, step).calls| && KeepsNames(w, Next(w, step), f)
  {
    hide Wired, KeepsNames;
    match step {
      case WorkerTakes => TakeKeepsNames(w, f);
      case WorkerResumes(c, ok) => ResumeKeepsNames(w, c, ok, f);
      case _ => QuietKeepsNames(w, step, f);
    }
  }

  lemma TakeKeepsNames(w: World, f: nat)
    requires Wired(w) && (w.keys.session ==> w.keys.userId) && Enabled(w, WorkerTakes) && f < |w.calls|
    ensures f < |TakeCall(w).calls| && KeepsNames(w, TakeCall(w), f)
  {
    assert CallOk(w, f) && CallOk(w, w.taken);
  }

  lemma ResumeKeepsNames(w: World, c: nat, ok: bool, f: nat)
    requires Wired(w) && (w.keys.session ==> w.keys.userId) && Enabled(w, WorkerResumes(c, ok)) && f < |w.calls|
    ensures f < |ResumeCall(w, c, ok).calls| && KeepsNames(w, ResumeCall(w, c, ok), f)
  {
    assert CallOk(w, f) && CallOk(w, c);
  }

  lemma QuietKeepsNames(w: World, step: Step, f: nat)
    requires Wired(w) && (w.keys.session ==> w.keys.userId) && Enabled(w, step) && f < |w.calls|
    requires !step.WorkerTakes? && !step.WorkerResumes?
    ensures f < |Next(w, step).calls| && KeepsNames(w, Next(w, step), f)
  {
    hide Settle, Touched, Dropped, Opened;
    assert CallOk(w, f);
  }

  lemma NewIsNamed(w: World, step: Step, f: nat)
    requires Wired(w) && Enabled(w, step) && |w.calls| <= f < |Next(w, step).calls|
    ensures Named(Next(w, step), f)
  {
    hide Settle, Touched, Dropped, Opened;
  }

  lemma StepKeepsNamed(w: World, step: Step)
    requires Wired(w) && UserNamed(w) && Enabled(w, step)
    ensures UserNamed(Next(w, step))
  {
    hide Next, Enabled, CallOk, OpOk, Named;
    var w' := Next(w, step);
    SessionNamed(w, step);
    forall f | 0 <= f < |w'.calls| ensures Named(w', f) {
      if f < |w.calls| { NamedKept(w, step, f); } else { NewIsNamed(w, step, f); }
    }
  }

  lemma SessionNamed(w: World, step: Step)
    requires Wired(w) && (w.keys.session ==> w.keys.userId) && Enabled(w, step)
    ensures Next(w, step).keys.session ==> Next(w, step).keys.userId
  {
    hide Settle, Touched, Dropped, Opened;
    if step.WorkerResumes? { assert CallOk(w, step.call); }
  }

  lemma StepKeepsClear(w: World, step: Step)
    requires Wired(w) && ShownBy(w) && FinishesClear(w) && Enabled(w, step) && !Disturbs(w, step)
    ensures FinishesClear(Next(w, step))
  {
    hide Next, Enabled, CallOk, OpOk, ShownBy, NoLockAfter;
    var w' := Next(w, step);
    StepGrows(w, step);
    forall o | 0 <= o < |w'.ops| && w'.ops[o].AwaitFinish? ensures NoLockAfter(w', w'.ops[o].call) {
      FinishOpKept(w, step, o);
      assert forall l :: |w.calls| <= l < |w'.calls| ==> !w'.calls[l].kind.Lock?;
      if w'.ops[o].call < |w.calls| { ClearKept(w, w', w'.ops[o].call); } else { ClearNew(w, w', w'.ops[o].call); }
    }
    if w'.host.mirror && w'.shown.Some? {
      MirrorClear(w, step);
    }
  }

  lemma ClearKept(w: World, w': World, f: nat)
    requires Grows(w, w') && NoLockAfter(w, f) && forall l :: |w.calls| <= l < |w'.calls| ==> !w'.calls[l].kind.Lock?
    ensures NoLockAfter(w', f)
  {
    hide Opens, Proves;
  }

  lemma ClearNew(w: World, w': World, f: nat)
    requires |w.calls| <= f && forall l :: |w.calls| <= l < |w'.calls| ==> !w'.calls[l].kind.Lock?
    ensures NoLockAfter(w', f)
  {
  }

  lemma FinishOpKept(w: World, step: Step, o: nat)
    requires Wired(w) && Enabled(w, step) && o < |Next(w, step).ops| && Next(w, step).ops[o].AwaitFinish?
    ensures (o < |w.ops| && w.ops[o] == Next(w, step).ops[o]) || Next(w, step).ops[o].call == |w.calls|
  {
    hide Begin, Resume, Settle, Touched, Dropped, Opened;
  }

  lemma MirrorClear(w: World, step: Step)
    requires Wired(w) && ShownBy(w) && FinishesClear(w) && Enabled(w, step) && Next(w, step).host.mirror
    requires Next(w, step).shown.Some?
    ensures NoLockAfter(Next(w, step), Next(w, step).shown.value.finish)
  {
    hide Next, Enabled, CallOk, OpOk, ShownBy, NoLockAfter;
    var w' := Next(w, step);
    StepGrows(w, step);
    if step.Delivers? && FinishDelivered(w, step) {
      DeliveredShows(w, step.call);
      var o := w.calls[step.call].op.value;
      ClearKept(w, w', w.ops[o].call);
    } else {
      MirrorStays(w, step);
      ClearKept(w, w', w.shown.value.finish);
    }
  }

  ghost predicate FinishDelivered(w: World, step: Step) {
    step.Delivers? && Enabled(w, step) && FinishArrives(w, step.call)
  }

  lemma DeliveredShows(w: World, c: nat)
    requires Wired(w) && Enabled(w, Delivers(c)) && FinishArrives(w, c)
    ensures c < |w.calls| && w.calls[c].op.Some? && w.calls[c].op.value < |w.ops|
    ensures var o := w.calls[c].op.value; w.ops[o].AwaitFinish? && w.ops[o].call == c
    ensures Next(w, Delivers(c)).shown == Some(Shown(c, |w.calls|)) && |Next(w, Delivers(c)).calls| == |w.calls|
  {
    FinishIsShown(w, c);
    assert CallOk(w, c);
  }

  lemma MirrorStays(w: World, step: Step)
    requires Wired(w) && ShownBy(w) && Enabled(w, step) && Next(w, step).host.mirror && !FinishDelivered(w, step)
    ensures w.host.mirror && w.shown.Some? && Next(w, step).shown == w.shown
    ensures forall l :: |w.calls| <= l < |Next(w, step).calls| ==> !Next(w, step).calls[l].kind.Lock?
  {
    if step.Delivers? { OtherDelivery(w, step.call); } else { QuietMirror(w, step); }
  }

  lemma {:induction false} AlwaysNamed(steps: seq<Step>)
    requires After(steps).Some?
    ensures UserNamed(After(steps).value)
  {
    if steps != [] {
      hide Next, Enabled, UserNamed;
      var before, step := steps[..|steps| - 1], steps[|steps| - 1];
      AlwaysNamed(before);
      AlwaysWired(before);
      StepKeepsNamed(After(before).value, step);
    }
  }

  lemma {:induction false} AlwaysClear(steps: seq<Step>)
    requires After(steps).Some? && Undisturbed(steps)
    ensures FinishesClear(After(steps).value)
  {
    if steps != [] {
      hide Next, Enabled, FinishesClear, Disturbs;
      var before, step := steps[..|steps| - 1], steps[|steps| - 1];
      AlwaysClear(before);
      AlwaysWired(before);
      AlwaysTracked(before);
      StepKeepsClear(After(before).value, step);
    }
  }

  /** As long as no lock is posted while an unlock waits for its `finish`, a true mirror means a readable
      vault with no lock on its way to it. */
  lemma MirrorRightIfUndisturbed(steps: seq<Step>)
    requires After(steps).Some? && Undisturbed(steps) && After(steps).value.host.mirror
    ensures Readable(After(steps).value.keys) && !LockQueued(After(steps).value)
  {
    hide Next, Enabled, After, Undisturbed;
    var w := After(steps).value;
    AlwaysTracked(steps);
    AlwaysNamed(steps);
    AlwaysClear(steps);
    var f := w.shown.value.finish;
    OpensIsTaken(w, f);
    assert Named(w, f);
    if !w.keys.vault {
      var l := ClosedByLock(w, f);
      if l < f { TakenInOrder(w, l, f); }
    }
  }

  // ---------------------------------------------------------------- what a wrong mirror costs

  /** Any refused read, seal or reseal, whatever else is queued or in flight: its reply lowers the mirror
      and ends its operation by an exception, and changes nothing else. */
  lemma RefusalCorrectsTheMirror(steps: seq<Step>, c: nat)
    requires After(steps).Some? && c < |After(steps).value.calls|
    requires var w := After(steps).value; NeedsVault(w.calls[c].kind) && w.calls[c].state == Answered(Refused)
    ensures var w := After(steps).value;
            Enabled(w, Delivers(c)) && w.calls[c].op.Some? &&
            var o, w' := w.calls[c].op.value, Next(w, Delivers(c));
            && o < |w.ops| && w'.ops == w.ops[o := Ended(Threw)]
            && w'.host == w.host.(mirror := false) && w'.keys == w.keys && |w'.calls| == |w.calls|
  {
    AlwaysWired(steps);
    var w := After(steps).value;
    assert CallOk(w, c);
    assert OpOk(w, w.calls[c].op.value);
  }

  /** Any request that finds the worker locked, whatever the mirror said when it was admitted: once answered
      it is refused, and its reply lowers the mirror. */
  lemma WrongMirrorCostsOneRequest(steps: seq<Step>, c: nat)
    requires After(steps).Some? && c < |After(steps).value.calls|
    requires var call := After(steps).value.calls[c]; NeedsVault(call.kind) && !call.granted && call.state.Answered?
    ensures var w := After(steps).value;
            Enabled(w, Delivers(c)) && w.calls[c].op.Some? &&
            var o, w' := w.calls[c].op.value, Next(w, Delivers(c));
            && o < |w.ops| && w'.ops == w.ops[o := Ended(Threw)]
            && w'.host == w.host.(mirror := false) && w'.keys == w.keys && |w'.calls| == |w.calls|
  {
    hide Next, Enabled, After;
    AlwaysSettled(steps);
    assert SettledCall(After(steps).value, c);
    RefusalCorrectsTheMirror(steps, c);
  }

  /** With the mirror down nothing is admitted until the reply of some `finish` arrives. */
  lemma DarkUntilFinish(steps: seq<Step>, step: Step)
    requires After(steps).Some? && !After(steps).value.host.mirror && Enabled(After(steps).value, step)
    ensures !Admits(After(steps).value.host)
    ensures Next(After(steps).value, step).host.mirror ==> FinishDelivered(After(steps).value, step)
  {
    AlwaysWired(steps);
    var w := After(steps).value;
    if Next(w, step).host.mirror && !FinishDelivered(w, step) {
      if step.Delivers? { OtherDelivery(w, step.call); } else { QuietMirror(w, step); }
    }
  }
}
