/** What an unlock gives and how long it lasts: the token held is the one the server granted, and the idle limit
    counts from the last use. */
module VaultUse {
  import opened KeyHolder
  import opened VaultHost
  import opened VaultLifecycle
  import opened VaultWiring
  import opened VaultWorld
  import opened Wrappers

  // ---------------------------------------------------------------- the token

  /** The server granted this token, with this expiry, to operation `o`. */
  predicate GrantedTo(steps: seq<Step>, o: nat, token: string, expiresAt: string) {
    VerifyReply(o, Grant(token, expiresAt)) in steps
  }

  ghost predicate TokenOk(steps: seq<Step>, w: World) {
    && (w.host.token.Some? || w.host.expiresAt.Some? ==>
          && w.host.token.Some? && w.host.expiresAt.Some?
          && exists o: nat :: o < |w.ops| && w.ops[o] == Ended(Open)
                              && GrantedTo(steps, o, w.host.token.value, w.host.expiresAt.value))
    && (forall o :: 0 <= o < |w.ops| && w.ops[o].AwaitFinish? ==>
          GrantedTo(steps, o, w.ops[o].token, w.ops[o].expiresAt))
  }

  lemma HeldStays(steps: seq<Step>, w: World, step: Step)
    requires Wired(w) && TokenOk(steps, w) && Enabled(w, step)
    requires w.host.token.Some? && Next(w, step).host.token == w.host.token
    requires Next(w, step).host.expiresAt == w.host.expiresAt
    ensures TokenOk(steps + [step], Next(w, step))
  {
    hide CallOk, Begin, Resume, Next, Enabled;
    var w' := Next(w, step);
    AwaitedWasGranted(steps, w, step);
    EndedStays(w, step);
    var o: nat :| o < |w.ops| && w.ops[o] == Ended(Open)
                  && GrantedTo(steps, o, w.host.token.value, w.host.expiresAt.value);
    assert w'.ops[o] == Ended(Open) && GrantedTo(steps + [step], o, w.host.token.value, w.host.expiresAt.value);
  }

  lemma AwaitedWasGranted(steps: seq<Step>, w: World, step: Step)
    requires Wired(w) && TokenOk(steps, w) && Enabled(w, step)
    ensures var w' := Next(w, step);
            forall o :: 0 <= o < |w'.ops| && w'.ops[o].AwaitFinish? ==>
              GrantedTo(steps + [step], o, w'.ops[o].token, w'.ops[o].expiresAt)
  {
    hide CallOk, OpOk, Begin, Resume, Touched, Dropped, Opened, Settle, Admits;
  }

  lemma OpensWithGrant(steps: seq<Step>, w: World, step: Step)
    requires Wired(w) && TokenOk(steps, w) && Enabled(w, step) && step.Delivers?
    requires Next(w, step).host.token != w.host.token || Next(w, step).host.expiresAt != w.host.expiresAt
    ensures TokenOk(steps + [step], Next(w, step))
  {
    hide CallOk, Begin, Resume;
    var w' := Next(w, step);
    AwaitedWasGranted(steps, w, step);
    if w'.host.token.Some? {
      var o := w.calls[step.call].op.value;
      assert w'.ops[o] == Ended(Open) && GrantedTo(steps + [step], o, w'.host.token.value, w'.host.expiresAt.value);
    }
  }

  lemma TokenDrops(w: World, step: Step)
    requires Enabled(w, step) && !step.Delivers?
    ensures var h, h' := w.host, Next(w, step).host;
            (h'.token == h.token && h'.expiresAt == h.expiresAt) || (h'.token.None? && h'.expiresAt.None?)
  {
    hide Begin, Resume;
  }

  lemma StepKeepsToken(steps: seq<Step>, w: World, step: Step)
    requires Wired(w) && TokenOk(steps, w) && Enabled(w, step)
    ensures TokenOk(steps + [step], Next(w, step))
  {
    hide CallOk, OpOk, Next, Enabled;
    AwaitedWasGranted(steps, w, step);
    if !step.Delivers? { TokenDrops(w, step); }
    if Next(w, step).host.token == w.host.token && Next(w, step).host.expiresAt == w.host.expiresAt {
      if w.host.token.Some? { HeldStays(steps, w, step); }
    } else if step.Delivers? {
      OpensWithGrant(steps, w, step);
    }
  }

  lemma EndedStays(w: World, step: Step)
    requires Wired(w) && Enabled(w, step)
    ensures |w.ops| <= |Next(w, step).ops|
    ensures forall o :: 0 <= o < |w.ops| && w.ops[o].Ended? ==> Next(w, step).ops[o] == w.ops[o]
  {
    if step.Delivers? { assert CallOk(w, step.call); }
  }

  /** In every run, the token and expiry held are those the server granted to one unlock that completed. */
  lemma {:induction false} TokenWasGranted(steps: seq<Step>)
    requires After(steps).Some?
    ensures TokenOk(steps, After(steps).value)
  {
    if steps != [] {
      hide TokenOk, Next, Enabled;
      var before, step := steps[..|steps| - 1], steps[|steps| - 1];
      TokenWasGranted(before);
      AlwaysWired(before);
      StepKeepsToken(before, After(before).value, step);
      assert before + [step] == steps;
    }
  }

  // ---------------------------------------------------------------- the last use

  /** A read, edit or create that was let in, or the end of an unlock. */
  predicate Uses(w: World, step: Step)
    requires Enabled(w, step)
  {
    match step
    case CallRead(_) => Admits(w.host)
    case CallCreate => Admits(w.host)
    case Delivers(c) =>
      w.calls[c].op.Some? && w.ops[w.calls[c].op.value].AwaitFinish? && w.calls[c].state.answer == Unlocked(true)
    case _ => false
  }

  /** When the vault was last used, on the run's clock. */
  ghost function LastUse(steps: seq<Step>): nat
    requires After(steps).Some?
  {
    if steps == [] then 0
    else
      var before, step := steps[..|steps| - 1], steps[|steps| - 1];
      if Uses(After(before).value, step) then After(before).value.host.now else LastUse(before)
  }

  lemma {:induction false} TouchedAtLastUse(steps: seq<Step>)
    requires After(steps).Some?
    ensures After(steps).value.host.touchedAt == LastUse(steps)
  {
    if steps != [] {
      var before, step := steps[..|steps| - 1], steps[|steps| - 1];
      TouchedAtLastUse(before);
      TouchesIffUses(After(before).value, step);
    }
  }

  lemma TouchesIffUses(w: World, step: Step)
    requires Enabled(w, step)
    ensures Next(w, step).host.touchedAt == if Uses(w, step) then w.host.now else w.host.touchedAt
  {
    hide Begin, Resume;
  }

  /** In every run, while a token is held exactly one timer is live, it locks the vault fifteen minutes after the
      last use, and that time is not past; without a token none is. */
  lemma LocksFifteenMinutesAfterLastUse(steps: seq<Step>)
    requires After(steps).Some?
    ensures var host := After(steps).value.host;
            if host.token.Some? then
              && host.idle.Some? && host.live == map[host.idle.value := LastUse(steps) + 900_000]
              && host.now <= LastUse(steps) + 900_000
            else host.live == map[]
  {
    AlwaysLifecycle(steps);
    TouchedAtLastUse(steps);
  }

  /** `lock()` tells the server exactly when there is a token to revoke and a bearer to do it with; the keys are
      on their way out either way. */
  lemma LockTellsServerIff(steps: seq<Step>, hasBearer: bool)
    requires After(steps).Some?
    ensures var w := After(steps).value; var w' := Next(w, CallLock(hasBearer));
            && |w'.ops| == |w.ops| + 1
            && (w'.ops[|w.ops|] == AwaitServer <==>
                  hasBearer && exists o: nat, t: string, e: string ::
                    t != "" && GrantedTo(steps, o, t, e) && w.host.token == Some(t))
            && LockQueuedAt(w', |w.calls|) && w'.host.token.None? && !w'.host.mirror
  {
    AlwaysWired(steps);
    TokenWasGranted(steps);
    var w := After(steps).value;
    if w.host.token.Some? {
      var o: nat :| o < |w.ops| && w.ops[o] == Ended(Open)
                    && GrantedTo(steps, o, w.host.token.value, w.host.expiresAt.value);
    }
  }
}
