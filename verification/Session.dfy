/** The paired session cut at its awaits: any number of calls in flight on one device, and identity's answers
    with its rotation-reuse detection. Tokens are random and never repeat, so a pair of tokens is named by
    the number of the rotation that issued it. */
module Session {
  import opened Wrappers

  // ---------------------------------------------------------------- identity

  /** One session row: whether it still counts, the newest pair of tokens, and whether its access token has
      run out. The refresh token before it is kept for reuse detection. */
  datatype Identity = Identity(live: bool, generation: nat, expired: bool)

  /** Why a token was refused; the client sees one and the same 401. */
  datatype Cause = Gone | Expired | Reused | Outdated

  datatype Field = AccessToken | RefreshToken | UserId | SessionId

  /** A body with the tokens of one rotation; a missing field is absent, empty or of another type. */
  datatype Payload = Payload(generation: nat, missing: set<Field>)

  datatype Reply = Granted(ok: bool) | Issued(payload: Payload) | Denied(cause: Cause)

  /** A call on an access token: it must be the newest one. A logout that succeeds ends the session. */
  function Called(id: Identity, token: nat, logout: bool, ok: bool): (Identity, Reply) {
    if !id.live then (id, Denied(Gone))
    else if token != id.generation then (id, Denied(Outdated))
    else if id.expired then (id, Denied(Expired))
    else (if logout && ok then id.(live := false) else id, Granted(ok))
  }

  /** A refresh: the current token rotates both, the one before it revokes the whole session. */
  function Refreshed(id: Identity, token: nat, missing: set<Field>): (Identity, Reply) {
    if !id.live then (id, Denied(Gone))
    else if token == id.generation then
      (Identity(true, id.generation + 1, false), Issued(Payload(id.generation + 1, missing)))
    else if token + 1 == id.generation then (id.(live := false), Denied(Reused))
    else (id, Denied(Outdated))
  }

  // ---------------------------------------------------------------- the device

  /** `toSession`: all four fields or nothing. */
  function ToSession(p: Payload): Option<nat> {
    if p.missing == {} then Some(p.generation) else None
  }

  /** The session the popup holds, the one in storage, and the device's half of the key material. */
  datatype Client = Client(held: Option<nat>, stored: Option<nat>, secretKey: bool)

  /** What a run was started for: the status read when the popup opens, a call of the vault half, or
      disconnecting. */
  datatype Purpose = Status | Action | Logout

  datatype Result = Answered(ok: bool) | Unauthenticated(cause: Cause) | Outage | Unknown

  datatype Phase = Calling | Refreshing | Retrying(token: nat) | Ended(result: Result)

  datatype Post = Call | Refresh

  /** One `withSession` in progress, by the await it is suspended at; `reply` is what identity has answered
      and the device has not yet received. A run whose popup was closed is `closed`: nothing resumes it, but
      the request it had in flight may still arrive. */
  datatype Run = Run(
    start: nat, purpose: Purpose, phase: Phase, reply: Option<Reply>, posts: seq<Post>, closed: bool)

  function NewRun(start: nat, purpose: Purpose): Run { Run(start, purpose, Calling, None, [Call], false) }

  function Abandoned(run: Run): Run { run.(closed := run.closed || !run.phase.Ended?) }

  /** What the caller does with the result and the session handed back. */
  function Finished(client: Client, purpose: Purpose, start: nat, result: Result, session: nat): Client {
    match purpose
    case Status =>
      if result.Unauthenticated? then Client(None, None, false) else client.(held := Some(session))
    case Action => if client.held.Some? then client.(held := Some(session)) else client
    case Logout =>
      if result.Unauthenticated? || result == Answered(true) then Client(None, None, false)
      else client.(held := Some(start))
  }

  function End(client: Client, run: Run, result: Result, session: nat): (Client, Run) {
    (Finished(client, run.purpose, run.start, result, session), run.(phase := Ended(result), reply := None))
  }

  /** A run resumed with the reply to its request, or with none when the transport failed. */
  function Resumed(client: Client, run: Run, reply: Option<Reply>): (Client, Run) {
    match run.phase
    case Calling =>
      if reply.Some? && reply.value.Denied? then
        (client, run.(phase := Refreshing, reply := None, posts := run.posts + [Refresh]))
      else End(client, run, Settled(reply), run.start)
    case Refreshing =>
      if reply.Some? && reply.value.Issued? then
        var session := ToSession(reply.value.payload);
        if session.None? then End(client, run, Unknown, run.start)
        else
          (client.(stored := session),
           run.(phase := Retrying(session.value), reply := None, posts := run.posts + [Call]))
      else End(client, run, Settled(reply), run.start)
    case Retrying(token) => End(client, run, Settled(reply), token)
    case Ended(_) => (client, run)
  }

  function Settled(reply: Option<Reply>): Result {
    if reply.None? then Outage
    else match reply.value
      case Granted(ok) => Answered(ok)
      case Denied(cause) => Unauthenticated(cause)
      case Issued(_) => Unknown
  }

  /** The device as the object it is: what each uninterrupted stretch of a run does to view and storage. */
  class Extension {
    var held: Option<nat>
    var stored: Option<nat>
    var secretKey: bool

    function View(): Client
      reads this
    {
      Client(held, stored, secretKey)
    }

    constructor (session: nat)
      ensures View() == Client(Some(session), Some(session), true)
    {
      held, stored, secretKey := Some(session), Some(session), true;
    }

    /** `forgetSession` and `forgetSecretKey`, with the unpaired view. */
    method Forget()
      modifies this
      ensures View() == Client(None, None, false)
    {
      held := None;
      stored := None;
      secretKey := false;
    }

    method Finish(purpose: Purpose, start: nat, result: Result, session: nat)
      modifies this
      ensures View() == Finished(old(View()), purpose, start, result, session)
    {
      match purpose {
        case Status =>
          if result.Unauthenticated? { Forget(); } else { held := Some(session); }
        case Action =>
          if held.Some? { held := Some(session); }
        case Logout =>
          if result.Unauthenticated? || result == Answered(true) { Forget(); } else { held := Some(start); }
      }
    }

    method Resume(run: Run, reply: Option<Reply>) returns (next: Run)
      modifies this
      ensures (View(), next) == Resumed(old(View()), run, reply)
    {
      match run.phase {
        case Calling =>
          if reply.Some? && reply.value.Denied? {
            return run.(phase := Refreshing, reply := None, posts := run.posts + [Refresh]);
          }
          next := run.(phase := Ended(Settled(reply)), reply := None);
          Finish(run.purpose, run.start, Settled(reply), run.start);
        case Refreshing =>
          if reply.Some? && reply.value.Issued? {
            var session := ToSession(reply.value.payload);
            if session.Some? {
              stored := session;
              return run.(phase := Retrying(session.value), reply := None, posts := run.posts + [Call]);
            }
            next := run.(phase := Ended(Unknown), reply := None);
            Finish(run.purpose, run.start, Unknown, run.start);
          } else {
            next := run.(phase := Ended(Settled(reply)), reply := None);
            Finish(run.purpose, run.start, Settled(reply), run.start);
          }
        case Retrying(token) =>
          next := run.(phase := Ended(Settled(reply)), reply := None);
          Finish(run.purpose, run.start, Settled(reply), token);
        case Ended(_) => next := run;
      }
    }
  }

  // ---------------------------------------------------------------- both at work

  /** `known` is history: the newest pair of tokens the device has received in full. */
  datatype World = World(identity: Identity, client: Client, runs: seq<Run>, known: nat)

  function Paired(): World { World(Identity(true, 0, false), Client(Some(0), Some(0), true), [], 0) }

  datatype Step =
    | Begins(logout: bool)                                  // a call of the vault half, or Disconnect
    | Closes                                                // the popup, with all that runs in it
    | Reopens                                               // a new popup reads the stored session
    | Arrives(run: nat, ok: bool, missing: set<Field>)      // identity handles the request in flight
    | Delivers(run: nat)
    | Fails(run: nat)                                       // the request is lost, or its reply is
    | Expires
    | Revokes

  /** The device does nothing more in this run. */
  predicate Over(run: Run) { run.phase.Ended? || run.closed }

  ghost predicate Idle(w: World) { forall r :: 0 <= r < |w.runs| ==> Over(w.runs[r]) }

  ghost predicate Enabled(w: World, step: Step) {
    match step
    case Begins(_) => w.client.held.Some?
    case Reopens => Idle(w) && w.client.stored.Some?
    case Arrives(r, _, _) => r < |w.runs| && !w.runs[r].phase.Ended? && w.runs[r].reply.None?
    case Delivers(r) => r < |w.runs| && !Over(w.runs[r]) && w.runs[r].reply.Some?
    case Fails(r) => r < |w.runs| && !Over(w.runs[r])
    case _ => true
  }

  function Handle(id: Identity, run: Run, ok: bool, missing: set<Field>): (Identity, Reply) {
    match run.phase
    case Refreshing => Refreshed(id, run.start, missing)
    case Retrying(token) => Called(id, token, run.purpose.Logout?, ok)
    case _ => Called(id, run.start, run.purpose.Logout?, ok)
  }

  function Receive(w: World, r: nat, reply: Option<Reply>): World
    requires r < |w.runs|
  {
    var (client, run) := Resumed(w.client, w.runs[r], reply);
    w.(client := client, runs := w.runs[r := run], known := if run.phase.Retrying? then run.phase.token else w.known)
  }

  ghost function Next(w: World, step: Step): World
    requires Enabled(w, step)
  {
    match step
    case Begins(logout) => w.(runs := w.runs + [NewRun(w.client.held.value, if logout then Logout else Action)])
    case Closes =>
      w.(client := w.client.(held := None),
         runs := seq(|w.runs|, r requires 0 <= r < |w.runs| => Abandoned(w.runs[r])))
    case Reopens =>
      w.(client := w.client.(held := None), runs := w.runs + [NewRun(w.client.stored.value, Status)])
    case Arrives(r, ok, missing) =>
      var (identity, reply) := Handle(w.identity, w.runs[r], ok, missing);
      w.(identity := identity, runs := w.runs[r := w.runs[r].(reply := Some(reply))])
    case Delivers(r) => Receive(w, r, w.runs[r].reply)
    case Fails(r) => Receive(w, r, None)
    case Expires => w.(identity := w.identity.(expired := true))
    case Revokes => w.(identity := w.identity.(live := false))
  }

  ghost function After(steps: seq<Step>): Option<World> {
    if steps == [] then Some(Paired())
    else
      var before := After(steps[..|steps| - 1]);
      var step := steps[|steps| - 1];
      if before.Some? && Enabled(before.value, step) then Some(Next(before.value, step)) else None
  }
}
