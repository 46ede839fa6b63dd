/** What the worker holds, told from the run alone: which step put it there, and that nothing has taken it since. */
module VaultKeys {
  import opened KeyHolder
  import opened VaultLifecycle
  import opened VaultWiring
  import opened VaultWorld
  import opened Wrappers

  /** The four things the worker can hold. */
  datatype Mark = Preparation | Session | Vault | User

  predicate Holds(keys: Keys, mark: Mark) {
    match mark
    case Preparation => keys.preparation
    case Session => keys.session
    case Vault => keys.vault
    case User => keys.userId
  }

  /** A suspended call resumed successfully from this await. */
  predicate Resumed(w: World, step: Step, handler: Handler) {
    step.WorkerResumes? && step.ok && step.call < |w.calls| && w.calls[step.call].state == Running(handler)
  }

  /** The first leg of an unlock gives the preparation, the second the session and the user, `finish` the vault. */
  predicate Sets(w: World, step: Step, mark: Mark) {
    match mark
    case Preparation => Resumed(w, step, Deriving)
    case Session => Resumed(w, step, Proving)
    case User => Resumed(w, step, Proving)
    case Vault => Resumed(w, step, Unwrapping)
  }

  /** A lock takes everything; a completed `finish` uses up what it was prepared with. */
  predicate Takes(w: World, step: Step, mark: Mark) {
    TakesLock(w, step) || ((mark.Preparation? || mark.Session?) && Resumed(w, step, Unwrapping))
  }

  ghost predicate SetsAt(steps: seq<Step>, n: nat, mark: Mark)
    requires n < |steps|
  {
    After(steps[..n]).Some? && Sets(After(steps[..n]).value, steps[n], mark)
  }

  ghost predicate TakenAt(steps: seq<Step>, n: nat, mark: Mark)
    requires n < |steps|
  {
    After(steps[..n]).Some? && Takes(After(steps[..n]).value, steps[n], mark)
  }

  /** Set at step `n` and not taken since. */
  ghost predicate StandsFrom(steps: seq<Step>, n: nat, mark: Mark) {
    n < |steps| && SetsAt(steps, n, mark) && forall k :: n < k < |steps| ==> !TakenAt(steps, k, mark)
  }

  ghost predicate Stands(steps: seq<Step>, mark: Mark) { exists n: nat :: StandsFrom(steps, n, mark) }

  lemma StandsStep(steps: seq<Step>, mark: Mark)
    requires steps != []
    ensures Stands(steps, mark) <==>
            SetsAt(steps, |steps| - 1, mark) || (Stands(steps[..|steps| - 1], mark) && !TakenAt(steps, |steps| - 1, mark))
  {
    hide SetsAt, TakenAt;
    var before, last := steps[..|steps| - 1], |steps| - 1;
    forall n: nat | n < last
      ensures SetsAt(before, n, mark) <==> SetsAt(steps, n, mark)
      ensures TakenAt(before, n, mark) <==> TakenAt(steps, n, mark)
    {
      SameAt(steps, n, mark);
    }
    if SetsAt(steps, last, mark) { assert StandsFrom(steps, last, mark); }
    if n: nat :| StandsFrom(before, n, mark) && !TakenAt(steps, last, mark) { assert StandsFrom(steps, n, mark); }
    if n: nat :| StandsFrom(steps, n, mark) {
      if n < last { assert StandsFrom(before, n, mark); }
    }
  }

  lemma SameAt(steps: seq<Step>, n: nat, mark: Mark)
    requires n < |steps| - 1
    ensures SetsAt(steps[..|steps| - 1], n, mark) <==> SetsAt(steps, n, mark)
    ensures TakenAt(steps[..|steps| - 1], n, mark) <==> TakenAt(steps, n, mark)
  {
    hide After, Sets, Takes;
    assert steps[..|steps| - 1][..n] == steps[..n];
  }

  lemma StepSets(w: World, step: Step, mark: Mark)
    requires Wired(w) && Enabled(w, step)
    ensures Holds(Next(w, step).keys, mark) <==> Sets(w, step, mark) || (Holds(w.keys, mark) && !Takes(w, step, mark))
  {
    if step.WorkerResumes? { assert CallOk(w, step.call); }
  }

  /** In every run, the worker holds a thing exactly when some step gave it and none has taken it since. */
  lemma {:induction false} HeldIffStanding(steps: seq<Step>, mark: Mark)
    requires After(steps).Some?
    ensures Holds(After(steps).value.keys, mark) <==> Stands(steps, mark)
  {
    hide Holds, Sets, Takes, Next, Enabled, Stands;
    if steps == [] {
      NothingStands(mark);
    } else {
      var before := steps[..|steps| - 1];
      HeldIffStanding(before, mark);
      AlwaysWired(before);
      StandsStep(steps, mark);
      StepSets(After(before).value, steps[|steps| - 1], mark);
    }
  }

  lemma NothingStands(mark: Mark)
    ensures !Stands([], mark) && !Holds(Start().keys, mark)
  {
  }

  /** A `finish` is started exactly when the preparation and the session of an unlock both stand, and refused
      otherwise; a read, seal or reseal when the vault and its user do. */
  lemma StartedIff(steps: seq<Step>)
    requires After(steps).Some? && Enabled(After(steps).value, WorkerTakes)
    ensures var w := After(steps).value;
            var kind, state := w.calls[w.taken].kind, Next(w, WorkerTakes).calls[w.taken].state;
            && (kind.Finish? ==>
                  if Stands(steps, Preparation) && Stands(steps, Session) then state == Running(Unwrapping)
                  else state == Answered(Refused))
            && (NeedsVault(kind) ==>
                  if Stands(steps, Vault) && Stands(steps, User) then state.Running? && HandlerKind(state.handler) == kind
                  else state == Answered(Refused))
  {
    hide After, Stands;
    HeldIffStanding(steps, Preparation);
    HeldIffStanding(steps, Session);
    HeldIffStanding(steps, Vault);
    HeldIffStanding(steps, User);
  }
}
