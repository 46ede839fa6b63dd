/** `WorkerKeyHolder`: correlation ids, the pending map, replies in any order, and why the channel is
    as good as calling the holder directly. */
module WorkerChannel {
  import opened KeyHolder
  import opened VaultHost
  import opened VaultWorld
  import opened Wrappers

  datatype Message = Message(id: nat, kind: Kind)

  datatype Response = Response(id: nat, answer: Answer)

  // ---------------------------------------------------------------- the page's half, as the class it is

  class WorkerKeyHolder {
    var nextId: nat
    var pending: map<nat, Kind>
    var unlocked: bool
    var posted: seq<Message>

    constructor ()
      ensures nextId == 1 && pending == map[] && !unlocked && posted == []
    {
      nextId, pending, unlocked, posted := 1, map[], false, [];
    }

    /** This object is the page's half of the channel: same ids, same pending calls, and what is still in
        the worker's inbox is the tail of what it posted. */
    ghost predicate Shows(w: Wire)
      reads this
    {
      && nextId == w.nextId && pending == w.pending
      && |w.inbox| <= |posted| && posted[|posted| - |w.inbox|..] == w.inbox
    }

    method Send(kind: Kind) returns (id: nat)
      modifies this
      ensures forall w: Wire :: old(Shows(w)) ==> Shows(WireNext(w, Sends(kind)))
      ensures id == old(nextId) && nextId == id + 1
      ensures pending == old(pending)[id := kind]
      ensures posted == old(posted) + [Message(id, kind)]
      ensures unlocked == old(unlocked)
    {
      id := nextId;
      nextId := nextId + 1;
      pending := pending[id := kind];
      posted := posted + [Message(id, kind)];
    }

    /** The `message` listener: which waiting call, if any, the response resolves. */
    method OnMessage(response: Response) returns (resolved: Option<Kind>)
      modifies this
      ensures forall w: Wire, k: nat :: old(Shows(w)) && k < |w.outbox| && w.outbox[k] == response ==>
                Shows(WireNext(w, Receives(k)))
      ensures resolved == if response.id in old(pending) then Some(old(pending)[response.id]) else None
      ensures pending == old(pending) - {response.id}
      ensures nextId == old(nextId) && posted == old(posted) && unlocked == old(unlocked)
    {
      if response.id !in pending { return None; }
      resolved := Some(pending[response.id]);
      pending := pending - {response.id};
    }

    /** What each method does with its own response once the channel has resolved it. */
    method SettleResponse(kind: Kind, answer: Answer) returns (resolves: bool)
      modifies this
      ensures (resolves, unlocked) == Settle(kind, answer, old(unlocked))
      ensures nextId == old(nextId) && pending == old(pending) && posted == old(posted)
    {
      match kind {
        case Prepare => resolves := answer.Proof?;
        case Finish =>
          if !answer.Unlocked? { return false; }
          unlocked := answer.open;
          resolves := unlocked;
        case Lock => resolves := true;
        case State => resolves := true;
        case _ =>
          resolves := ArmFor(kind, answer) && !answer.Refused?;
          if !resolves { unlocked := false; }
      }
    }

    /** Mirror first, then the message. */
    method LockHolder()
      modifies this
      ensures forall w: Wire :: old(Shows(w)) ==> Shows(WireNext(w, Sends(Lock)))
      ensures !unlocked && posted == old(posted) + [Message(old(nextId), Lock)]
      ensures nextId == old(nextId) + 1 && pending == old(pending)[old(nextId) := Lock]
    {
      unlocked := false;
      var _ := Send(Lock);
    }
  }

  // ---------------------------------------------------------------- the channel with both its ends

  datatype Wire = Wire(
    nextId: nat, pending: map<nat, Kind>, inbox: seq<Message>,
    running: map<nat, Handler>, outbox: seq<Response>, keys: Keys)

  function WireStart(): Wire { Wire(1, map[], [], map[], [], LOCKED) }

  /** `Receives(k)` delivers the `k`-th response in flight: the order is arbitrary. */
  datatype WireStep = Sends(kind: Kind) | Takes | Resumes(id: nat, ok: bool) | Receives(k: nat)

  predicate WireEnabled(w: Wire, step: WireStep) {
    match step
    case Sends(_) => true
    case Takes => |w.inbox| > 0
    case Resumes(id, _) => id in w.running && HandlerOk(w.running[id])
    case Receives(k) => k < |w.outbox|
  }

  function Emit(w: Wire, id: nat, outcome: Outcome): Wire {
    match outcome
    case Reply(answer) => w.(running := w.running - {id}, outbox := w.outbox + [Response(id, answer)])
    case Await(handler) => w.(running := w.running[id := handler])
  }

  function WireNext(w: Wire, step: WireStep): Wire
    requires WireEnabled(w, step)
  {
    match step
    case Sends(kind) =>
      w.(nextId := w.nextId + 1, pending := w.pending[w.nextId := kind],
         inbox := w.inbox + [Message(w.nextId, kind)])
    case Takes =>
      var message := w.inbox[0];
      var (keys, outcome) := Begin(message.kind, w.keys);
      Emit(w.(inbox := w.inbox[1..], keys := keys), message.id, outcome)
    case Resumes(id, ok) =>
      var (keys, outcome) := Resume(w.running[id], w.keys, ok);
      Emit(w.(keys := keys), id, outcome)
    case Receives(k) =>
      w.(pending := w.pending - {w.outbox[k].id}, outbox := w.outbox[..k] + w.outbox[k + 1..])
  }

  function WireAfter(steps: seq<WireStep>): Option<Wire> {
    if steps == [] then Some(WireStart())
    else
      var before := WireAfter(steps[..|steps| - 1]);
      var step := steps[|steps| - 1];
      if before.Some? && WireEnabled(before.value, step) then Some(WireNext(before.value, step)) else None
  }

  // ---------------------------------------------------------------- direct calls

  /** The holder called directly: numbered calls, each with its own progress and no messages at all. */
  datatype DirectCall = DirectCall(kind: Kind, state: CallState)

  datatype Direct = Direct(calls: seq<DirectCall>, taken: nat, keys: Keys)

  datatype DirectStep = Ask(kind: Kind) | Take | Go(call: nat, ok: bool) | Return(call: nat)

  predicate DirectEnabled(d: Direct, step: DirectStep) {
    match step
    case Ask(_) => true
    case Take => d.taken < |d.calls|
    case Go(c, _) => c < |d.calls| && d.calls[c].state.Running? && HandlerOk(d.calls[c].state.handler)
    case Return(c) => c < |d.calls| && d.calls[c].state.Answered?
  }

  function Progress(outcome: Outcome): CallState {
    match outcome case Reply(answer) => Answered(answer) case Await(handler) => Running(handler)
  }

  function DirectNext(d: Direct, step: DirectStep): Direct
    requires DirectEnabled(d, step)
  {
    match step
    case Ask(kind) => d.(calls := d.calls + [DirectCall(kind, Queued)])
    case Take =>
      var (keys, outcome) := Begin(d.calls[d.taken].kind, d.keys);
      d.(calls := d.calls[d.taken := d.calls[d.taken].(state := Progress(outcome))], taken := d.taken + 1, keys := keys)
    case Go(c, ok) =>
      var (keys, outcome) := Resume(d.calls[c].state.handler, d.keys, ok);
      d.(calls := d.calls[c := d.calls[c].(state := Progress(outcome))], keys := keys)
    case Return(c) =>
      d.(calls := d.calls[c := d.calls[c].(state := Returned(d.calls[c].state.answer))])
  }

  function DirectAfter(steps: seq<DirectStep>): Option<Direct> {
    if steps == [] then Some(Direct([], 0, LOCKED))
    else
      var before := DirectAfter(steps[..|steps| - 1]);
      var step := steps[|steps| - 1];
      if before.Some? && DirectEnabled(before.value, step) then Some(DirectNext(before.value, step)) else None
  }

  // ---------------------------------------------------------------- refinement

  /** Call `c` travels under id `c + 1`. */
  predicate Sent(d: Direct, id: nat) { 1 <= id <= |d.calls| }

  function CallOf(d: Direct, id: nat): DirectCall
    requires Sent(d, id)
  {
    d.calls[id - 1]
  }

  ghost predicate InboxMatches(w: Wire, d: Direct) {
    && d.taken <= |d.calls| && |w.inbox| == |d.calls| - d.taken
    && (forall i :: 0 <= i < |w.inbox| ==> w.inbox[i] == Message(d.taken + i + 1, d.calls[d.taken + i].kind))
    && (forall c :: 0 <= c < |d.calls| ==> (d.calls[c].state.Queued? <==> c >= d.taken))
  }

  ghost predicate RunningMatches(w: Wire, d: Direct) {
    forall id: nat ::
      && (id in w.running <==> Sent(d, id) && CallOf(d, id).state.Running?)
      && (id in w.running ==>
            CallOf(d, id).state == Running(w.running[id])
            && HandlerOk(w.running[id]) && HandlerKind(w.running[id]) == CallOf(d, id).kind)
  }

  ghost predicate OutboxMatches(w: Wire, d: Direct) {
    && (forall k :: 0 <= k < |w.outbox| ==>
          && Sent(d, w.outbox[k].id)
          && CallOf(d, w.outbox[k].id).state == Answered(w.outbox[k].answer)
          && ArmFor(CallOf(d, w.outbox[k].id).kind, w.outbox[k].answer))
    && (forall j, k :: 0 <= j < k < |w.outbox| ==> w.outbox[j].id != w.outbox[k].id)
  }

  ghost predicate PendingMatches(w: Wire, d: Direct) {
    forall id: nat ::
      && (id in w.pending <==> Sent(d, id) && !CallOf(d, id).state.Returned?)
      && (id in w.pending ==> w.pending[id] == CallOf(d, id).kind)
  }

  ghost predicate Refines(w: Wire, d: Direct) {
    && w.nextId == |d.calls| + 1 && w.keys == d.keys
    && InboxMatches(w, d) && RunningMatches(w, d) && OutboxMatches(w, d) && PendingMatches(w, d)
  }

  /** The direct step a channel step amounts to. */
  function Image(w: Wire, step: WireStep): DirectStep
    requires WireEnabled(w, step)
  {
    match step
    case Sends(kind) => Ask(kind)
    case Takes => Take
    case Resumes(id, ok) => Go(if id > 0 then id - 1 else 0, ok)
    case Receives(k) => Return(if w.outbox[k].id > 0 then w.outbox[k].id - 1 else 0)
  }

  lemma SendRefines(w: Wire, d: Direct, kind: Kind)
    requires Refines(w, d)
    ensures Refines(WireNext(w, Sends(kind)), DirectNext(d, Ask(kind)))
  {
    var d' := DirectNext(d, Ask(kind));
    assert forall id: nat :: Sent(d, id) ==> CallOf(d', id) == CallOf(d, id);
  }

  lemma TakeRefines(w: Wire, d: Direct)
    requires Refines(w, d) && WireEnabled(w, Takes)
    ensures DirectEnabled(d, Take) && Refines(WireNext(w, Takes), DirectNext(d, Take))
  {
    var w', d' := WireNext(w, Takes), DirectNext(d, Take);
    var id := d.taken + 1;
    assert w.inbox[0] == Message(id, d.calls[d.taken].kind);
    ProtocolArms(w.inbox[0].kind, w.keys, Deriving, true);
    assert InboxMatches(w', d');
    assert id !in w.running;
    hide InboxMatches, RunningMatches, OutboxMatches, PendingMatches;
    EmitRefines(w, d, w', d', id, Begin(w.inbox[0].kind, w.keys).1);
  }

  lemma ResumeRefines(w: Wire, d: Direct, id: nat, ok: bool)
    requires Refines(w, d) && WireEnabled(w, Resumes(id, ok))
    ensures var step := Image(w, Resumes(id, ok));
            DirectEnabled(d, step) && Refines(WireNext(w, Resumes(id, ok)), DirectNext(d, step))
  {
    assert Sent(d, id);
    var w', d' := WireNext(w, Resumes(id, ok)), DirectNext(d, Go(id - 1, ok));
    ProtocolArms(CallOf(d, id).kind, w.keys, w.running[id], ok);
    assert InboxMatches(w', d');
    hide InboxMatches, RunningMatches, OutboxMatches, PendingMatches;
    EmitRefines(w, d, w', d', id, Resume(w.running[id], w.keys, ok).1);
  }

  /** Nothing changes between two views but call `id`. */
  ghost predicate OnlyCall(d: Direct, d': Direct, id: nat) {
    && Sent(d, id) && |d'.calls| == |d.calls|
    && CallOf(d', id).kind == CallOf(d, id).kind
    && forall c :: 0 <= c < |d.calls| && c != id - 1 ==> d'.calls[c] == d.calls[c]
  }

  /** A call that moves on in the worker moves on in both views. */
  lemma EmitRefines(w: Wire, d: Direct, w': Wire, d': Direct, id: nat, outcome: Outcome)
    requires Refines(w, d) && Sent(d, id)
    requires CallOf(d, id).state.Queued? || CallOf(d, id).state.Running?
    requires match outcome
             case Reply(a) => ArmFor(CallOf(d, id).kind, a)
             case Await(h) => HandlerOk(h) && HandlerKind(h) == CallOf(d, id).kind
    requires d'.calls == d.calls[id - 1 := CallOf(d, id).(state := Progress(outcome))]
    requires w'.pending == w.pending
    requires w'.running == Emit(w, id, outcome).running && w'.outbox == Emit(w, id, outcome).outbox
    ensures RunningMatches(w', d') && OutboxMatches(w', d') && PendingMatches(w', d')
  {
    hide InboxMatches, RunningMatches, OutboxMatches, PendingMatches;
    EmitRunning(w, d, w', d', id, outcome);
    if outcome.Reply? {
      OutboxGains(w, d, w', d', id, outcome.answer);
    } else {
      OutboxStays(w, d, w', d', id);
    }
    PendingStays(w, d, w', d', id);
  }

  lemma EmitRunning(w: Wire, d: Direct, w': Wire, d': Direct, id: nat, outcome: Outcome)
    requires RunningMatches(w, d) && OnlyCall(d, d', id)
    requires CallOf(d', id).state == Progress(outcome)
    requires outcome.Await? ==> HandlerOk(outcome.handler) && HandlerKind(outcome.handler) == CallOf(d, id).kind
    requires w'.running == Emit(w, id, outcome).running
    ensures RunningMatches(w', d')
  {
    assert forall other: nat :: Sent(d, other) && other != id ==> CallOf(d', other) == CallOf(d, other);
  }

  lemma OutboxGains(w: Wire, d: Direct, w': Wire, d': Direct, id: nat, answer: Answer)
    requires OutboxMatches(w, d) && OnlyCall(d, d', id)
    requires !CallOf(d, id).state.Answered? && CallOf(d', id).state == Answered(answer)
    requires ArmFor(CallOf(d, id).kind, answer) && w'.outbox == w.outbox + [Response(id, answer)]
    ensures OutboxMatches(w', d')
  {
  }

  lemma OutboxStays(w: Wire, d: Direct, w': Wire, d': Direct, id: nat)
    requires OutboxMatches(w, d) && OnlyCall(d, d', id)
    requires !CallOf(d, id).state.Answered? && !CallOf(d', id).state.Answered? && w'.outbox == w.outbox
    ensures OutboxMatches(w', d')
  {
  }

  lemma OutboxLoses(w: Wire, d: Direct, w': Wire, d': Direct, id: nat, k: nat)
    requires OutboxMatches(w, d) && OnlyCall(d, d', id)
    requires k < |w.outbox| && w.outbox[k].id == id
    requires !CallOf(d', id).state.Answered? && w'.outbox == w.outbox[..k] + w.outbox[k + 1..]
    ensures OutboxMatches(w', d')
  {
    forall j | 0 <= j < |w'.outbox| ensures w'.outbox[j] == w.outbox[if j < k then j else j + 1] {}
  }

  lemma PendingStays(w: Wire, d: Direct, w': Wire, d': Direct, id: nat)
    requires PendingMatches(w, d) && OnlyCall(d, d', id) && w'.pending == w.pending
    requires !CallOf(d, id).state.Returned? && !CallOf(d', id).state.Returned?
    ensures PendingMatches(w', d')
  {
    assert forall other: nat :: Sent(d, other) && other != id ==> CallOf(d', other) == CallOf(d, other);
  }

  lemma PendingLoses(w: Wire, d: Direct, w': Wire, d': Direct, id: nat)
    requires PendingMatches(w, d) && OnlyCall(d, d', id) && w'.pending == w.pending - {id}
    requires CallOf(d', id).state.Returned?
    ensures PendingMatches(w', d')
  {
    assert forall other: nat :: Sent(d, other) && other != id ==> CallOf(d', other) == CallOf(d, other);
  }

  lemma RunningStays(w: Wire, d: Direct, w': Wire, d': Direct, id: nat)
    requires RunningMatches(w, d) && OnlyCall(d, d', id) && w'.running == w.running
    requires !CallOf(d, id).state.Running? && !CallOf(d', id).state.Running?
    ensures RunningMatches(w', d')
  {
    assert forall other: nat :: Sent(d, other) && other != id ==> CallOf(d', other) == CallOf(d, other);
  }

  lemma ReceiveRefines(w: Wire, d: Direct, k: nat)
    requires Refines(w, d) && WireEnabled(w, Receives(k))
    ensures var step := Image(w, Receives(k));
            DirectEnabled(d, step) && Refines(WireNext(w, Receives(k)), DirectNext(d, step))
  {
    var id := w.outbox[k].id;
    assert Sent(d, id) && CallOf(d, id).state.Answered?;
    var w', d' := WireNext(w, Receives(k)), DirectNext(d, Return(id - 1));
    assert InboxMatches(w', d');
    hide InboxMatches, RunningMatches, OutboxMatches, PendingMatches;
    RunningStays(w, d, w', d', id);
    OutboxLoses(w, d, w', d', id, k);
    PendingLoses(w, d, w', d', id);
  }

  lemma StepRefines(w: Wire, d: Direct, step: WireStep)
    requires Refines(w, d) && WireEnabled(w, step)
    ensures DirectEnabled(d, Image(w, step)) && Refines(WireNext(w, step), DirectNext(d, Image(w, step)))
  {
    hide Refines;
    match step {
      case Sends(kind) => SendRefines(w, d, kind);
      case Takes => TakeRefines(w, d);
      case Resumes(id, ok) => ResumeRefines(w, d, id, ok);
      case Receives(k) => ReceiveRefines(w, d, k);
    }
  }

  /** Every run of the channel, whatever order responses arrive in, is a run of direct calls. */
  lemma {:induction false} ChannelRefinesCalls(steps: seq<WireStep>) returns (calls: seq<DirectStep>)
    requires WireAfter(steps).Some?
    ensures |calls| == |steps| && DirectAfter(calls).Some?
    ensures Refines(WireAfter(steps).value, DirectAfter(calls).value)
  {
    if steps == [] {
      calls := [];
    } else {
      var before := steps[..|steps| - 1];
      var w := WireAfter(before).value;
      var earlier := ChannelRefinesCalls(before);
      var step := steps[|steps| - 1];
      StepRefines(w, DirectAfter(earlier).value, step);
      calls := earlier + [Image(w, step)];
      assert calls[..|calls| - 1] == earlier;
    }
  }

  /** In every run: a new id was never used before; every response in flight resolves a pending entry,
      carrying an arm that entry's sender tests for; no other response, message or handler has its id. */
  lemma EachReplyResolvesOnce(steps: seq<WireStep>, k: nat)
    requires WireAfter(steps).Some? && k < |WireAfter(steps).value.outbox|
    ensures var w := WireAfter(steps).value; var id := w.outbox[k].id;
            && w.nextId !in w.pending && id < w.nextId
            && id in w.pending && ArmFor(w.pending[id], w.outbox[k].answer)
            && id !in w.running
            && (forall j :: 0 <= j < |w.outbox| && j != k ==> w.outbox[j].id != id)
            && (forall i :: 0 <= i < |w.inbox| ==> w.inbox[i].id != id)
  {
    var calls := ChannelRefinesCalls(steps);
    var w, d := WireAfter(steps).value, DirectAfter(calls).value;
    assert Sent(d, w.outbox[k].id);
    assert !Sent(d, w.nextId);
  }

  /** A call that was posted and is no longer waited for. */
  predicate Resolved(w: Wire, id: nat) { 1 <= id < w.nextId && id !in w.pending }

  /** Nothing on the channel carries the id. */
  ghost predicate Unheard(w: Wire, id: nat) {
    && id !in w.pending && id !in w.running
    && (forall k :: 0 <= k < |w.outbox| ==> w.outbox[k].id != id)
    && (forall i :: 0 <= i < |w.inbox| ==> w.inbox[i].id != id)
  }

  lemma {:induction false} StaysResolved(steps: seq<WireStep>, more: seq<WireStep>, id: nat)
    requires WireAfter(steps).Some? && WireAfter(steps + more).Some? && Resolved(WireAfter(steps).value, id)
    ensures Resolved(WireAfter(steps + more).value, id)
    decreases |more|
  {
    hide Begin, Resume, Emit;
    if more == [] {
      assert steps + more == steps;
    } else {
      var n := |more| - 1;
      assert (steps + more)[..|steps| + n] == steps + more[..n];
      StaysResolved(steps, more[..n], id);
      ResolvedKept(WireAfter(steps + more[..n]).value, more[n], id);
    }
  }

  lemma ResolvedKept(w: Wire, step: WireStep, id: nat)
    requires WireEnabled(w, step) && Resolved(w, id)
    ensures Resolved(WireNext(w, step), id)
  {
    hide Begin, Resume;
  }

  /** Once a response has been received, no continuation of the run waits for its call, handles it or
      answers it again. */
  lemma NeverAgain(steps: seq<WireStep>, k: nat, more: seq<WireStep>)
    requires WireAfter(steps).Some? && k < |WireAfter(steps).value.outbox|
    requires WireAfter(steps + [Receives(k)] + more).Some?
    ensures Unheard(WireAfter(steps + [Receives(k)] + more).value, WireAfter(steps).value.outbox[k].id)
  {
    hide Refines;
    var id := WireAfter(steps).value.outbox[k].id;
    var received := steps + [Receives(k)];
    assert received[..|steps|] == steps;
    OutboxSent(steps, k);
    StaysResolved(received, more, id);
    var calls := ChannelRefinesCalls(received + more);
    ResolvedIsUnheard(WireAfter(received + more).value, DirectAfter(calls).value, id);
  }

  lemma OutboxSent(steps: seq<WireStep>, k: nat)
    requires WireAfter(steps).Some? && k < |WireAfter(steps).value.outbox|
    ensures 1 <= WireAfter(steps).value.outbox[k].id < WireAfter(steps).value.nextId
  {
    var calls := ChannelRefinesCalls(steps);
    var w, d := WireAfter(steps).value, DirectAfter(calls).value;
    assert Sent(d, w.outbox[k].id);
  }

  lemma ResolvedIsUnheard(w: Wire, d: Direct, id: nat)
    requires Refines(w, d) && Resolved(w, id)
    ensures Unheard(w, id)
  {
    assert Sent(d, id) && CallOf(d, id).state.Returned?;
  }
}
