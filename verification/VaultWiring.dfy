/** Calls and operations stay paired in every run: who waits for which answer, and what it may carry. */
module VaultWiring {
  import opened KeyHolder
  import opened VaultHost
  import opened VaultWorld
  import opened Wrappers

  /** Each call is queued exactly while the worker has not reached it, carries its own arm, came from an
      open vault if it carries anything of one, and is awaited by its operation until it returns. */
  predicate CallOk(w: World, c: nat)
    requires c < |w.calls|
  {
    var call := w.calls[c];
    && (call.state.Queued? <==> c >= w.taken)
    && (call.state.Running? ==>
          && HandlerOk(call.state.handler) && HandlerKind(call.state.handler) == call.kind
          && (NeedsVault(call.kind) ==> call.granted))
    && (call.state.Answered? || call.state.Returned? ==>
          && ArmFor(call.kind, call.state.answer)
          && (FromVault(call.state.answer) ==> call.granted))
    && (call.op.None? <==> call.kind.Lock?)
    && (call.op.Some? ==>
          && call.op.value < |w.ops|
          && (!call.state.Returned? ==> Waits(w.ops[call.op.value]) == Some(c)))
  }

  /** Each suspended operation waits for its own unreturned call of the right kind; an operation that
      ended with data got it from a call that found the vault open. */
  predicate OpOk(w: World, o: nat)
    requires o < |w.ops|
  {
    var op := w.ops[o];
    && (Waits(op).Some? ==>
          && Waits(op).value < |w.calls|
          && var call := w.calls[Waits(op).value];
             call.op == Some(o) && call.kind == WaitKind(op) && !call.state.Returned?)
    && (op.AwaitHolder? ==> NeedsVault(op.kind))
    && (op.AwaitPage? ==> IsRead(op.kind) || op.kind.Reseal?)
    && (op.Ended? && op.ending.ReadFrom? ==>
          && op.ending.call < |w.calls|
          && var call := w.calls[op.ending.call];
             IsRead(call.kind) && call.granted && call.state.Returned?)
  }

  ghost predicate Wired(w: World) {
    && w.taken <= |w.calls|
    && (forall c :: 0 <= c < |w.calls| ==> CallOk(w, c))
    && (forall o :: 0 <= o < |w.ops| ==> OpOk(w, o))
  }

  /** An operation that waits for nothing and claims no data. */
  predicate Plain(op: Op) {
    && Waits(op).None?
    && (op.AwaitPage? ==> IsRead(op.kind) || op.kind.Reseal?)
    && (op.Ended? ==> !op.ending.ReadFrom?)
  }

  lemma HostApart(w: World, w': World)
    requires Wired(w)
    requires w'.calls == w.calls && w'.taken == w.taken && w'.ops == w.ops
    ensures Wired(w')
  {
    forall c | 0 <= c < |w'.calls| ensures CallOk(w', c) { assert CallOk(w, c); }
    forall o | 0 <= o < |w'.ops| ensures OpOk(w', o) { assert OpOk(w, o); }
  }

  lemma AddPlain(w: World, op: Op)
    requires Wired(w) && Plain(op)
    ensures Wired(AddOp(w, op))
  {
    var w' := AddOp(w, op);
    forall c | 0 <= c < |w'.calls| ensures CallOk(w', c) { assert CallOk(w, c); }
    forall o | 0 <= o < |w'.ops| ensures OpOk(w', o) { if o < |w.ops| { assert OpOk(w, o); } }
  }

  lemma SetPlain(w: World, o: nat, op: Op)
    requires Wired(w) && o < |w.ops| && Waits(w.ops[o]).None? && Plain(op)
    ensures Wired(SetOp(w, o, op))
  {
    var w' := SetOp(w, o, op);
    forall c | 0 <= c < |w'.calls| ensures CallOk(w', c) { assert CallOk(w, c); }
    forall p | 0 <= p < |w'.ops| ensures OpOk(w', p) { assert OpOk(w, p); }
  }

  lemma PostLock(w: World)
    requires Wired(w)
    ensures Wired(Drop(w))
  {
    var w' := Drop(w);
    forall c | 0 <= c < |w'.calls| ensures CallOk(w', c) { if c < |w.calls| { assert CallOk(w, c); } }
    forall o | 0 <= o < |w'.ops| ensures OpOk(w', o) { assert OpOk(w, o); }
  }

  /** An operation posts a call and suspends on it. */
  lemma PostAndWait(w: World, o: nat, op: Op)
    requires Wired(w) && o < |w.ops| && Waits(w.ops[o]).None?
    requires Waits(op) == Some(|w.calls|) && (op.AwaitHolder? ==> NeedsVault(op.kind))
    ensures Wired(SetOp(Post(w, WaitKind(op), Some(o)), o, op))
  {
    var w' := SetOp(Post(w, WaitKind(op), Some(o)), o, op);
    forall c | 0 <= c < |w'.calls| ensures CallOk(w', c) { if c < |w.calls| { assert CallOk(w, c); } }
    forall p | 0 <= p < |w'.ops| ensures OpOk(w', p) { assert OpOk(w, p); }
  }

  lemma TakeKeepsWired(w: World)
    requires Wired(w) && Enabled(w, WorkerTakes)
    ensures Wired(TakeCall(w))
  {
    var w' := TakeCall(w);
    ProtocolArms(w.calls[w.taken].kind, w.keys, Deriving, true);
    forall c | 0 <= c < |w'.calls| ensures CallOk(w', c) { assert CallOk(w, c); }
    forall o | 0 <= o < |w'.ops| ensures OpOk(w', o) { assert OpOk(w, o); }
  }

  lemma ResumeKeepsWired(w: World, c: nat, ok: bool)
    requires Wired(w) && Enabled(w, WorkerResumes(c, ok))
    ensures Wired(ResumeCall(w, c, ok))
  {
    var w' := ResumeCall(w, c, ok);
    assert CallOk(w, c);
    ProtocolArms(w.calls[c].kind, w.keys, w.calls[c].state.handler, ok);
    forall d | 0 <= d < |w'.calls| ensures CallOk(w', d) { assert CallOk(w, d); }
    forall o | 0 <= o < |w'.ops| ensures OpOk(w', o) { assert OpOk(w, o); }
  }

  /** A call returns and its operation, if any, moves on to something that waits for no call. */
  lemma ReturnKeepsWired(w: World, c: nat, w': World)
    requires Wired(w) && Enabled(w, Delivers(c))
    requires w'.calls == w.calls[c := w.calls[c].(state := Returned(w.calls[c].state.answer))]
    requires w'.taken == w.taken
    requires if w.calls[c].op.None? then w'.ops == w.ops
             else
               && |w'.ops| == |w.ops|
               && w'.ops == w.ops[w.calls[c].op.value := w'.ops[w.calls[c].op.value]]
               && var op := w'.ops[w.calls[c].op.value];
                  Plain(op) || (op == Ended(ReadFrom(c)) && IsRead(w.calls[c].kind) && w.calls[c].granted)
    ensures Wired(w')
  {
    assert CallOk(w, c);
    forall d | 0 <= d < |w'.calls| ensures CallOk(w', d) { assert CallOk(w, d); }
    forall o | 0 <= o < |w'.ops| ensures OpOk(w', o) { assert OpOk(w, o); }
  }

  lemma DeliverKeepsWired(w: World, c: nat)
    requires Wired(w) && Enabled(w, Delivers(c))
    ensures Wired(Deliver(w, c))
  {
    assert CallOk(w, c);
    var call := w.calls[c];
    if call.op.Some? {
      var o := call.op.value;
      assert OpOk(w, o);
      var plain := w.(ops := Deliver(w, c).ops, calls := w.calls[c := call.(state := Returned(call.state.answer))]);
      ReturnKeepsWired(w, c, plain);
      var w' := Deliver(w, c);
      if |w'.calls| == |w.calls| {
        HostApart(plain, w');
      } else {
        PostLock(plain);
        HostApart(Drop(plain), w');
      }
    } else {
      ReturnKeepsWired(w, c, Deliver(w, c));
    }
  }

  lemma StepKeepsWired(w: World, step: Step)
    requires Wired(w) && Enabled(w, step)
    ensures Wired(Next(w, step))
  {
    hide Wired, CallOk, OpOk, TakeCall, ResumeCall, Deliver;
    match step {
      case CallUnlock => AddPlain(w, AwaitChallenge);
      case CallRead(kind) =>
        HostApart(w, w.(host := Touched(w.host)));
        AddPlain(w.(host := Touched(w.host)), AwaitPage(kind));
        AddPlain(w, Ended(Failed));
      case CallCreate =>
        if Admits(w.host) { CreateKeepsWired(w); }
        AddPlain(w, Ended(Failed));
      case CallLock(hasBearer) =>
        PostLock(w);
        AddPlain(Drop(w), AwaitServer);
        AddPlain(Drop(w), Ended(Done));
      case ChallengeReply(o, ok) =>
        PostAndWait(w, o, AwaitProof(|w.calls|));
        SetPlain(w, o, Ended(Failed));
      case VerifyReply(o, reply) =>
        if reply.Grant? { PostAndWait(w, o, AwaitFinish(|w.calls|, reply.token, reply.expiresAt)); }
        PostLock(w);
        SetPlain(Drop(w), o, Ended(Failed));
      case PageReply(o, ok) =>
        assert NeedsVault(w.ops[o].kind) by { PageKind(w, o); }
        PostAndWait(w, o, AwaitHolder(|w.calls|, w.ops[o].kind));
        SetPlain(w, o, Ended(Failed));
      case ServerReply(o) => SetPlain(w, o, Ended(Done));
      case WorkerTakes => TakeKeepsWired(w);
      case WorkerResumes(c, ok) => ResumeKeepsWired(w, c, ok);
      case Delivers(c) => DeliverKeepsWired(w, c);
      case TimerFires(_) => PostLock(w);
      case TimePasses(_) => HostApart(w, Next(w, step));
    }
  }

  lemma PageKind(w: World, o: nat)
    requires Wired(w) && o < |w.ops| && w.ops[o].AwaitPage?
    ensures NeedsVault(w.ops[o].kind)
  {
    assert OpOk(w, o);
  }

  lemma CreateKeepsWired(w: World)
    requires Wired(w) && Admits(w.host)
    ensures Wired(Next(w, CallCreate))
  {
    var o := |w.ops|;
    var begun := AddOp(w.(host := Touched(w.host)), AwaitServer);
    HostApart(w, w.(host := Touched(w.host)));
    AddPlain(w.(host := Touched(w.host)), AwaitServer);
    PostAndWait(begun, o, AwaitHolder(|w.calls|, Seal));
    var w' := Next(w, CallCreate);
    assert w'.ops == SetOp(Post(begun, Seal, Some(o)), o, AwaitHolder(|w.calls|, Seal)).ops;
    HostApart(SetOp(Post(begun, Seal, Some(o)), o, AwaitHolder(|w.calls|, Seal)), w');
  }

  /** In every run, every call and every operation is well paired. */
  lemma {:induction false} AlwaysWired(steps: seq<Step>)
    requires After(steps).Some?
    ensures Wired(After(steps).value)
  {
    if steps != [] {
      var before := steps[..|steps| - 1];
      AlwaysWired(before);
      StepKeepsWired(After(before).value, steps[|steps| - 1]);
    }
  }
}
