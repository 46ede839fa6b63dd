/** The whole extension at work: any number of operations in flight, the worker, the timers, and the
    interleavings between them. Every step is one uninterrupted stretch of the program. */
module VaultWorld {
  import opened KeyHolder
  import opened VaultHost
  import opened Wrappers

  // ---------------------------------------------------------------- state

  datatype CallState = Queued | Running(handler: Handler) | Answered(answer: Answer) | Returned(answer: Answer)

  /** One message to the worker: its position in the sequence of calls is its correlation id, and calls
      are taken in that order. The rest is history: when the worker took and answered it, whether it
      found the vault readable, and, of a `prepare`, whether its second leg resumed successfully. */
  datatype Call = Call(
    kind: Kind, op: Option<nat>, state: CallState, takenAt: nat, answeredAt: nat, granted: bool, proved: bool)

  /** How an operation ended; `Threw` leaves its message unanswered. */
  datatype Ending = Open | ReadFrom(call: nat) | Done | Failed | Threw

  /** One `VaultHost` method in progress, by the await it is suspended at. */
  datatype Op =
    | AwaitChallenge
    | AwaitProof(call: nat)
    | AwaitVerify
    | AwaitFinish(call: nat, token: string, expiresAt: string)
    | AwaitPage(kind: Kind)
    | AwaitHolder(call: nat, kind: Kind)
    | AwaitServer
    | Ended(ending: Ending)

  /** The call an operation is suspended on. */
  function Waits(op: Op): Option<nat> {
    match op
    case AwaitProof(c) => Some(c)
    case AwaitFinish(c, _, _) => Some(c)
    case AwaitHolder(c, _) => Some(c)
    case _ => None
  }

  function WaitKind(op: Op): Kind
    requires Waits(op).Some?
  {
    match op
    case AwaitProof(_) => Prepare
    case AwaitFinish(_, _, _) => Finish
    case AwaitHolder(_, kind) => kind
  }

  /** An unlock that has not ended. */
  predicate Unlocking(op: Op) {
    op.AwaitChallenge? || op.AwaitProof? || op.AwaitVerify? || op.AwaitFinish?
  }

  /** History: the `finish` whose reply last set the mirror, and how many messages had been posted when
      that reply was delivered. */
  datatype Shown = Shown(finish: nat, posted: nat)

  datatype World = World(
    host: Host, keys: Keys, calls: seq<Call>, taken: nat, ops: seq<Op>, clock: nat, shown: Option<Shown>)

  function Start(): World {
    World(Host(None, None, None, map[], 0, 0, 0, false), LOCKED, [], 0, [], 0, None)
  }

  // ---------------------------------------------------------------- steps

  datatype VerifyReply = Refusal | Malformed | Grant(token: string, expiresAt: string)

  datatype Step =
    | CallUnlock
    | CallRead(kind: Kind)                     // list, matchesFor, fillFor, and updateItem's reseal
    | CallCreate
    | CallLock(hasBearer: bool)
    | ChallengeReply(op: nat, ok: bool)
    | VerifyReply(op: nat, reply: VerifyReply)
    | PageReply(op: nat, ok: bool)
    | ServerReply(op: nat)
    | WorkerTakes
    | WorkerResumes(call: nat, ok: bool)
    | Delivers(call: nat)
    | TimerFires(handle: nat)
    | TimePasses(ms: nat)

  function SetOp(w: World, o: nat, op: Op): World
    requires o < |w.ops|
  {
    w.(ops := w.ops[o := op])
  }

  function AddOp(w: World, op: Op): World { w.(ops := w.ops + [op]) }

  function Post(w: World, kind: Kind, op: Option<nat>): World {
    w.(calls := w.calls + [Call(kind, op, Queued, 0, 0, false, false)])
  }

  /** `#dropKeys` with the lock message it posts. */
  function Drop(w: World): World {
    Post(w.(host := Dropped(w.host)), Lock, None)
  }

  predicate IsOp(w: World, o: nat) { o < |w.ops| }

  predicate Enabled(w: World, step: Step) {
    match step
    case CallRead(kind) => IsRead(kind) || kind.Reseal?
    case ChallengeReply(o, _) => IsOp(w, o) && w.ops[o].AwaitChallenge?
    case VerifyReply(o, _) => IsOp(w, o) && w.ops[o].AwaitVerify?
    case PageReply(o, _) => IsOp(w, o) && w.ops[o].AwaitPage?
    case ServerReply(o) => IsOp(w, o) && w.ops[o].AwaitServer?
    case WorkerTakes => w.taken < |w.calls| && w.calls[w.taken].state.Queued?
    case WorkerResumes(c, _) => c < |w.calls| && w.calls[c].state.Running? && HandlerOk(w.calls[c].state.handler)
    case Delivers(c) =>
      && c < |w.calls| && w.calls[c].state.Answered?
      && (w.calls[c].op.Some? ==> IsOp(w, w.calls[c].op.value))
    case TimerFires(h) => h in w.host.live && w.host.live[h] <= w.host.now
    case TimePasses(ms) => forall h :: h in w.host.live ==> w.host.now + ms <= w.host.live[h]
    case _ => true
  }

  /** The worker moves `call` on to `outcome`. */
  function Advance(call: Call, outcome: Outcome, clock: nat): Call {
    match outcome
    case Reply(answer) => call.(state := Answered(answer), answeredAt := clock)
    case Await(handler) => call.(state := Running(handler))
  }

  function TakeCall(w: World): World
    requires Enabled(w, WorkerTakes)
  {
    var call := w.calls[w.taken];
    var (keys, outcome) := Begin(call.kind, w.keys);
    var begun := call.(takenAt := w.clock, granted := NeedsVault(call.kind) && Readable(w.keys));
    w.(keys := keys,
       calls := w.calls[w.taken := Advance(begun, outcome, w.clock)],
       taken := w.taken + 1,
       clock := w.clock + 1)
  }

  function ResumeCall(w: World, c: nat, ok: bool): World
    requires Enabled(w, WorkerResumes(c, ok))
  {
    var call := w.calls[c];
    var (keys, outcome) := Resume(call.state.handler, w.keys, ok);
    var resumed := call.(proved := call.proved || (call.state.handler.Proving? && ok));
    w.(keys := keys,
       calls := w.calls[c := Advance(resumed, outcome, w.clock)],
       clock := w.clock + 1)
  }

  /** An answer reaches the operation that sent the call. */
  function Deliver(w: World, c: nat): World
    requires Enabled(w, Delivers(c))
  {
    var call := w.calls[c];
    var answer := call.state.answer;
    var w' := w.(calls := w.calls[c := call.(state := Returned(answer))]);
    if call.op.None? then w'
    else Continue(w', call.op.value, c, answer)
  }

  function Continue(w: World, o: nat, c: nat, answer: Answer): World
    requires IsOp(w, o)
  {
    match w.ops[o]
    case AwaitProof(_) =>
      if Settle(Prepare, answer, w.host.mirror).0 then SetOp(w, o, AwaitVerify) else SetOp(w, o, Ended(Failed))
    case AwaitFinish(_, token, expiresAt) =>
      var (ok, mirror) := Settle(Finish, answer, w.host.mirror);
      var settled := w.(host := w.host.(mirror := mirror));
      if ok then
        SetOp(settled.(host := Opened(settled.host, token, expiresAt), shown := Some(Shown(c, |w.calls|))), o, Ended(Open))
      else SetOp(Drop(settled), o, Ended(Failed))
    case AwaitHolder(_, kind) =>
      var (ok, mirror) := Settle(kind, answer, w.host.mirror);
      SetOp(w.(host := w.host.(mirror := mirror)), o,
            if !ok then Ended(Threw)
            else if IsRead(kind) then Ended(ReadFrom(c))
            else if answer == Resealed(false) then Ended(Failed)
            else AwaitServer)
    case _ => w
  }

  function Next(w: World, step: Step): World
    requires Enabled(w, step)
  {
    match step
    case CallUnlock => AddOp(w, AwaitChallenge)
    case CallRead(kind) =>
      if Admits(w.host) then AddOp(w.(host := Touched(w.host)), AwaitPage(kind)) else AddOp(w, Ended(Failed))
    case CallCreate =>
      if Admits(w.host) then
        AddOp(Post(w.(host := Touched(w.host)), Seal, Some(|w.ops|)), AwaitHolder(|w.calls|, Seal))
      else AddOp(w, Ended(Failed))
    case CallLock(hasBearer) =>
      var tell := w.host.token.Some? && w.host.token.value != "" && hasBearer;
      AddOp(Drop(w), if tell then AwaitServer else Ended(Done))
    case ChallengeReply(o, ok) =>
      if ok then SetOp(Post(w, Prepare, Some(o)), o, AwaitProof(|w.calls|)) else SetOp(w, o, Ended(Failed))
    case VerifyReply(o, reply) =>
      if reply.Grant? then
        SetOp(Post(w, Finish, Some(o)), o, AwaitFinish(|w.calls|, reply.token, reply.expiresAt))
      else SetOp(Drop(w), o, Ended(Failed))
    case PageReply(o, ok) =>
      if ok then SetOp(Post(w, w.ops[o].kind, Some(o)), o, AwaitHolder(|w.calls|, w.ops[o].kind))
      else SetOp(w, o, Ended(Failed))
    case ServerReply(o) => SetOp(w, o, Ended(Done))
    case WorkerTakes => TakeCall(w)
    case WorkerResumes(c, ok) => ResumeCall(w, c, ok)
    case Delivers(c) => Deliver(w, c)
    case TimerFires(_) => Drop(w)
    case TimePasses(ms) => w.(host := w.host.(now := w.host.now + ms))
  }

  /** The world after a run, if every step was possible. */
  function After(steps: seq<Step>): Option<World> {
    if steps == [] then Some(Start())
    else
      var before := After(steps[..|steps| - 1]);
      var step := steps[|steps| - 1];
      if before.Some? && Enabled(before.value, step) then Some(Next(before.value, step)) else None
  }
}
