/** The whole extension over the channel: its calls are direct calls, and the channel carries them. */
module ChannelWorld {
  import opened KeyHolder
  import opened VaultHost
  import opened VaultWiring
  import opened VaultWorld
  import opened WorkerChannel
  import opened Wrappers

  /** The calls of the extension, seen alone. */
  function CallsOf(w: World): Direct {
    Direct(seq(|w.calls|, i requires 0 <= i < |w.calls| => DirectCall(w.calls[i].kind, w.calls[i].state)),
           w.taken, w.keys)
  }

  /** An unlock waits for a `finish` whose answer does not open the vault. */
  predicate FinishFails(w: World, c: nat)
    requires Enabled(w, Delivers(c))
  {
    var op := w.calls[c].op;
    op.Some? && w.ops[op.value].AwaitFinish? && w.calls[c].state.answer != Unlocked(true)
  }

  /** What a step of the extension asks of the holder. */
  function CallSteps(w: World, step: Step): seq<DirectStep>
    requires Enabled(w, step)
  {
    match step
    case CallCreate => if Admits(w.host) then [Ask(Seal)] else []
    case CallLock(_) => [Ask(Lock)]
    case ChallengeReply(_, ok) => if ok then [Ask(Prepare)] else []
    case VerifyReply(_, reply) => [Ask(if reply.Grant? then Finish else Lock)]
    case PageReply(o, ok) => if ok then [Ask(w.ops[o].kind)] else []
    case WorkerTakes => [Take]
    case WorkerResumes(c, ok) => [Go(c, ok)]
    case Delivers(c) => if FinishFails(w, c) then [Return(c), Ask(Lock)] else [Return(c)]
    case TimerFires(_) => [Ask(Lock)]
    case _ => []
  }

  function DirectRun(d: Direct, steps: seq<DirectStep>): Option<Direct>
    decreases |steps|
  {
    if steps == [] then Some(d)
    else if DirectEnabled(d, steps[0]) then DirectRun(DirectNext(d, steps[0]), steps[1..])
    else None
  }

  lemma Posting(w: World, w': World, kind: Kind, op: Option<nat>)
    requires w'.calls == w.calls + [Call(kind, op, Queued, 0, 0, false, false)]
    requires w'.taken == w.taken && w'.keys == w.keys
    ensures CallsOf(w') == DirectNext(CallsOf(w), Ask(kind))
    ensures DirectRun(CallsOf(w), [Ask(kind)]) == Some(CallsOf(w'))
  {
    assert [Ask(kind)][1..] == [];
  }

  /** The answer has reached the page, and nothing has been done with it yet. */
  function Received(w: World, c: nat): World
    requires Enabled(w, Delivers(c))
  {
    w.(calls := w.calls[c := w.calls[c].(state := Returned(w.calls[c].state.answer))])
  }

  lemma Delivering(w: World, c: nat)
    requires Enabled(w, Delivers(c))
    ensures DirectRun(CallsOf(w), CallSteps(w, Delivers(c))) == Some(CallsOf(Deliver(w, c)))
  {
    var w' := Received(w, c);
    var steps := CallSteps(w, Delivers(c));
    assert CallsOf(w') == DirectNext(CallsOf(w), Return(c));
    if FinishFails(w, c) {
      Posting(w', Deliver(w, c), Lock, None);
      assert steps[1..] == [Ask(Lock)];
    } else {
      assert steps[1..] == [];
      assert CallsOf(Deliver(w, c)) == CallsOf(w');
    }
  }

  lemma Working(w: World, step: Step)
    requires Enabled(w, step) && (step.WorkerTakes? || step.WorkerResumes?)
    ensures DirectRun(CallsOf(w), CallSteps(w, step)) == Some(CallsOf(Next(w, step)))
  {
    hide Begin, Resume;
    var steps := CallSteps(w, step);
    assert steps[1..] == [];
    assert CallsOf(Next(w, step)) == DirectNext(CallsOf(w), steps[0]);
  }

  /** Every step of the extension makes just these direct calls. */
  lemma WorldMakesDirectCalls(w: World, step: Step)
    requires Enabled(w, step)
    ensures DirectRun(CallsOf(w), CallSteps(w, step)) == Some(CallsOf(Next(w, step)))
  {
    hide Touched, Dropped, Opened, Settle, Admits, CallsOf, DirectRun, Begin, Resume;
    var w' := Next(w, step);
    match step {
      case CallCreate => if Admits(w.host) { Posting(w, w', Seal, Some(|w.ops|)); } else { NoCall(w, w'); }
      case CallLock(_) => Posting(w, w', Lock, None);
      case ChallengeReply(o, ok) => if ok { Posting(w, w', Prepare, Some(o)); } else { NoCall(w, w'); }
      case VerifyReply(o, reply) =>
        if reply.Grant? { Posting(w, w', Finish, Some(o)); } else { Posting(w, w', Lock, None); }
      case PageReply(o, ok) => if ok { Posting(w, w', w.ops[o].kind, Some(o)); } else { NoCall(w, w'); }
      case Delivers(c) => Delivering(w, c);
      case TimerFires(_) => Posting(w, w', Lock, None);
      case CallUnlock => NoCall(w, w');
      case CallRead(_) => NoCall(w, w');
      case ServerReply(_) => NoCall(w, w');
      case TimePasses(_) => NoCall(w, w');
      case _ => Working(w, step);
    }
  }

  lemma NoCall(w: World, w': World)
    requires w'.calls == w.calls && w'.taken == w.taken && w'.keys == w.keys
    ensures DirectRun(CallsOf(w), []) == Some(CallsOf(w'))
  {
  }

  // ---------------------------------------------------------------- over the channel

  predicate InFlight(wire: Wire, id: nat) { exists k :: 0 <= k < |wire.outbox| && wire.outbox[k].id == id }

  /** The channel is where the direct calls are, and holds every answer not yet received. */
  ghost predicate Carries(wire: Wire, d: Direct) {
    && Refines(wire, d)
    && forall c: nat :: c < |d.calls| && d.calls[c].state.Answered? ==> InFlight(wire, c + 1)
  }

  /** The channel step that carries a direct one. */
  lemma Carrier(wire: Wire, d: Direct, step: DirectStep) returns (s: WireStep)
    requires Carries(wire, d) && DirectEnabled(d, step)
    ensures WireEnabled(wire, s) && Image(wire, s) == step
  {
    match step {
      case Ask(kind) => s := Sends(kind);
      case Take => s := Takes;
      case Go(c, ok) =>
        assert Sent(d, c + 1);
        s := Resumes(c + 1, ok);
      case Return(c) =>
        assert InFlight(wire, c + 1);
        var k :| 0 <= k < |wire.outbox| && wire.outbox[k].id == c + 1;
        s := Receives(k);
    }
  }

  lemma StepCarries(wire: Wire, d: Direct, s: WireStep)
    requires Carries(wire, d) && WireEnabled(wire, s)
    ensures DirectEnabled(d, Image(wire, s)) && Carries(WireNext(wire, s), DirectNext(d, Image(wire, s)))
  {
    StepRefines(wire, d, s);
    var wire', d' := WireNext(wire, s), DirectNext(d, Image(wire, s));
    forall c: nat | c < |d'.calls| && d'.calls[c].state.Answered? ensures InFlight(wire', c + 1) {
      StillInFlight(wire, d, s, c);
    }
  }

  /** An answer in flight stays so until its own call is returned. */
  lemma StaysInFlight(wire: Wire, s: WireStep, id: nat)
    requires WireEnabled(wire, s) && InFlight(wire, id) && (s.Receives? ==> wire.outbox[s.k].id != id)
    ensures InFlight(WireNext(wire, s), id)
  {
    hide Begin, Resume;
    var wire' := WireNext(wire, s);
    var k :| 0 <= k < |wire.outbox| && wire.outbox[k].id == id;
    if s.Receives? {
      assert wire'.outbox[if k < s.k then k else k - 1] == wire.outbox[k];
    } else {
      assert wire'.outbox[k] == wire.outbox[k];
    }
  }

  lemma StillInFlight(wire: Wire, d: Direct, s: WireStep, c: nat)
    requires Carries(wire, d) && WireEnabled(wire, s) && DirectEnabled(d, Image(wire, s))
    requires var d' := DirectNext(d, Image(wire, s)); c < |d'.calls| && d'.calls[c].state.Answered?
    ensures InFlight(WireNext(wire, s), c + 1)
  {
    hide Begin, Resume, InFlight, RunningMatches, PendingMatches;
    if c < |d.calls| && d.calls[c].state.Answered? {
      if s.Receives? { assert Sent(d, wire.outbox[s.k].id); }
      StaysInFlight(wire, s, c + 1);
    } else {
      JustAnswered(wire, d, s, c);
    }
  }

  lemma JustAnswered(wire: Wire, d: Direct, s: WireStep, c: nat)
    requires Refines(wire, d) && WireEnabled(wire, s) && DirectEnabled(d, Image(wire, s))
    requires c < |d.calls| ==> !d.calls[c].state.Answered?
    requires var d' := DirectNext(d, Image(wire, s)); c < |d'.calls| && d'.calls[c].state.Answered?
    ensures InFlight(WireNext(wire, s), c + 1)
  {
    hide Begin, Resume, OutboxMatches, PendingMatches;
    assert WireNext(wire, s).outbox[|wire.outbox|].id == c + 1;
  }

  /** The channel, run on so that it carries some more direct calls. */
  lemma {:induction false} CarriedOn(wires: seq<WireStep>, d: Direct, steps: seq<DirectStep>)
      returns (more: seq<WireStep>)
    requires WireAfter(wires).Some? && Carries(WireAfter(wires).value, d) && DirectRun(d, steps).Some?
    ensures wires <= more && WireAfter(more).Some? && Carries(WireAfter(more).value, DirectRun(d, steps).value)
    decreases |steps|
  {
    hide Carries, DirectEnabled, DirectNext;
    if steps == [] {
      more := wires;
    } else {
      var s := Carrier(WireAfter(wires).value, d, steps[0]);
      StepCarries(WireAfter(wires).value, d, s);
      var longer := wires + [s];
      assert longer[..|wires|] == wires;
      more := CarriedOn(longer, DirectNext(d, steps[0]), steps[1..]);
    }
  }

  /** Every run of the extension is carried by a run of the channel. */
  lemma {:induction false} ExtensionOverChannel(steps: seq<Step>) returns (wires: seq<WireStep>)
    requires After(steps).Some?
    ensures WireAfter(wires).Some? && Carries(WireAfter(wires).value, CallsOf(After(steps).value))
  {
    if steps == [] {
      wires := [];
      NothingCarried();
    } else {
      hide Carries, DirectRun, CallSteps, Next, Enabled;
      var before, step := steps[..|steps| - 1], steps[|steps| - 1];
      var earlier := ExtensionOverChannel(before);
      WorldMakesDirectCalls(After(before).value, step);
      wires := CarriedOn(earlier, CallsOf(After(before).value), CallSteps(After(before).value, step));
    }
  }

  lemma NothingCarried()
    ensures Carries(WireStart(), CallsOf(Start()))
  {
  }

  /** The step of the extension behind a step of the worker's side of the channel. */
  function StepBehind(wire: Wire, s: WireStep): Step
    requires WireEnabled(wire, s) && !s.Sends?
  {
    match Image(wire, s)
    case Go(c, ok) => WorkerResumes(c, ok)
    case Return(c) => Delivers(c)
    case _ => WorkerTakes
  }

  /** ... and whatever the channel can do next, the extension's calls can: taking, resuming, and receiving in
      any order are steps of the extension, after which the channel, with the lock a failed unlock posts,
      carries its calls again. */
  lemma ChannelStaysWithin(steps: seq<Step>, wire: Wire, s: WireStep)
    requires After(steps).Some? && Carries(wire, CallsOf(After(steps).value)) && WireEnabled(wire, s) && !s.Sends?
    ensures var w, step := After(steps).value, StepBehind(wire, s);
            && Enabled(w, step)
            && Carries(if step.Delivers? && FinishFails(w, step.call) then WireNext(WireNext(wire, s), Sends(Lock))
                       else WireNext(wire, s),
                       CallsOf(Next(w, step)))
  {
    hide After, Carries, Wired, CallsOf, Next, Image;
    var w, step := After(steps).value, StepBehind(wire, s);
    AlwaysWired(steps);
    StepCarries(wire, CallsOf(w), s);
    BehindEnabled(w, wire, s);
    WorldMakesDirectCalls(w, step);
    BehindCalls(w, wire, s);
    var d := DirectNext(CallsOf(w), Image(wire, s));
    if step.Delivers? && FinishFails(w, step.call) {
      assert [Image(wire, s), Ask(Lock)][1..] == [Ask(Lock)] && [Ask(Lock)][1..] == [];
      assert DirectRun(CallsOf(w), [Image(wire, s), Ask(Lock)]) == Some(DirectNext(d, Ask(Lock)));
      Locks(WireNext(wire, s), d);
    } else {
      assert [Image(wire, s)][1..] == [];
    }
  }

  lemma Locks(wire: Wire, d: Direct)
    requires Carries(wire, d)
    ensures Carries(WireNext(wire, Sends(Lock)), DirectNext(d, Ask(Lock)))
  {
    StepCarries(wire, d, Sends(Lock));
  }

  lemma BehindEnabled(w: World, wire: Wire, s: WireStep)
    requires Wired(w) && Carries(wire, CallsOf(w)) && WireEnabled(wire, s) && !s.Sends?
    requires DirectEnabled(CallsOf(w), Image(wire, s))
    ensures Enabled(w, StepBehind(wire, s))
  {
    var step := StepBehind(wire, s);
    if step.Delivers? { assert CallOk(w, step.call); }
    if step.WorkerTakes? { assert CallOk(w, w.taken); }
  }

  lemma BehindCalls(w: World, wire: Wire, s: WireStep)
    requires WireEnabled(wire, s) && !s.Sends? && Enabled(w, StepBehind(wire, s))
    ensures var step := StepBehind(wire, s);
            CallSteps(w, step) == if step.Delivers? && FinishFails(w, step.call) then [Image(wire, s), Ask(Lock)]
                                  else [Image(wire, s)]
  {
  }
}
