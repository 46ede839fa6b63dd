/** The worker's key holder and the protocol in front of it, one request cut at its awaits. */
module KeyHolder {

  /** `WorkerRequest['kind']`. */
  datatype Kind = Prepare | Finish | Summarise | Matches | Fill | Seal | Reseal | Lock | State

  /** `WorkerResponse`, by the arm it carries. Payloads are left out except what the sender branches on. */
  datatype Answer =
    | Refused
    | Proof
    | Unlocked(open: bool)
    | Summaries
    | Matched
    | Credential
    | Blob
    | Resealed(found: bool)

  /** Which of the holder's fields are set. */
  datatype Keys = Keys(preparation: bool, session: bool, vault: bool, userId: bool)

  const LOCKED := Keys(false, false, false, false)

  /** Something derived from the password and the Secret Key is resident. */
  predicate Material(keys: Keys) { keys.preparation || keys.session || keys.vault }

  /** What the reads, seals and reseals ask for before they start. */
  predicate Readable(keys: Keys) { keys.vault && keys.userId }

  /** Where a request in progress is suspended. */
  datatype Handler =
    | Deriving            // prepare, awaiting prepareUnlock
    | Proving             // prepare, awaiting proveUnlock
    | Unwrapping          // finish, awaiting finishUnlock
    | Reading(kind: Kind) // summarise, matches or fill, holding the vault it started with
    | Encrypting          // seal
    | Merging             // reseal, opening the current blob
    | Resealing           // reseal, sealing the merged content

  function HandlerKind(handler: Handler): Kind {
    match handler
    case Deriving => Prepare
    case Proving => Prepare
    case Unwrapping => Finish
    case Reading(kind) => kind
    case Encrypting => Seal
    case Merging => Reseal
    case Resealing => Reseal
  }

  predicate IsRead(kind: Kind) { kind.Summarise? || kind.Matches? || kind.Fill? }

  /** Requests that need an open vault to do anything. */
  predicate NeedsVault(kind: Kind) { IsRead(kind) || kind.Seal? || kind.Reseal? }

  datatype Outcome = Reply(answer: Answer) | Await(handler: Handler)

  function ReadAnswer(kind: Kind): Answer
    requires IsRead(kind)
  {
    match kind
    case Summarise => Summaries
    case Matches => Matched
    case Fill => Credential
  }

  /** A request up to its first await; the part before it runs without interruption. */
  function Begin(kind: Kind, keys: Keys): (Keys, Outcome) {
    match kind
    case Prepare => (keys, Await(Deriving))
    case Finish => (keys, if keys.preparation && keys.session then Await(Unwrapping) else Reply(Refused))
    case Lock => (LOCKED, Reply(Unlocked(false)))
    case State => (keys, Reply(Unlocked(keys.vault)))
    case Seal => (keys, if Readable(keys) then Await(Encrypting) else Reply(Refused))
    case Reseal => (keys, if Readable(keys) then Await(Merging) else Reply(Refused))
    case _ => (keys, if Readable(keys) then Await(Reading(kind)) else Reply(Refused))
  }

  /** A suspended request resumed; `ok` says whether the awaited call succeeded. `prepare` reads
      `#preparation` again after its second await, and `resealItem` re-checks the vault before sealing. */
  function Resume(handler: Handler, keys: Keys, ok: bool): (Keys, Outcome)
    requires handler.Reading? ==> IsRead(handler.kind)
  {
    match handler
    case Deriving => if ok then (keys.(preparation := true), Await(Proving)) else (keys, Reply(Refused))
    case Proving =>
      if ok then (keys.(session := true, userId := true), Reply(if keys.preparation then Proof else Refused))
      else (keys, Reply(Refused))
    case Unwrapping =>
      if ok then (keys.(vault := true, preparation := false, session := false), Reply(Unlocked(true)))
      else (keys, Reply(Refused))
    case Reading(kind) => (keys, Reply(ReadAnswer(kind)))
    case Encrypting => (keys, Reply(if ok then Blob else Refused))
    case Merging => (keys, if ok && Readable(keys) then Await(Resealing) else Reply(Resealed(false)))
    case Resealing => (keys, Reply(Resealed(ok)))
  }

  /** The arms a response to `kind` may carry: the one its sender tests for, or a refusal. */
  predicate ArmFor(kind: Kind, answer: Answer) {
    answer.Refused? ||
    match kind
    case Prepare => answer.Proof?
    case Finish => answer.Unlocked?
    case Lock => answer.Unlocked?
    case State => answer.Unlocked?
    case Summarise => answer.Summaries?
    case Matches => answer.Matched?
    case Fill => answer.Credential?
    case Seal => answer.Blob?
    case Reseal => answer.Resealed?
  }

  /** Anything computed from an open vault. */
  predicate FromVault(answer: Answer) {
    answer.Summaries? || answer.Matched? || answer.Credential? || answer.Blob? || answer == Resealed(true)
  }

  predicate HandlerOk(handler: Handler) { handler.Reading? ==> IsRead(handler.kind) }

  /** Every handler belongs to its request's kind and every answer carries its arm. */
  lemma ProtocolArms(kind: Kind, keys: Keys, handler: Handler, ok: bool)
    requires HandlerOk(handler)
    ensures var (_, first) := Begin(kind, keys);
            match first case Reply(a) => ArmFor(kind, a) case Await(h) => HandlerOk(h) && HandlerKind(h) == kind
    ensures var (_, next) := Resume(handler, keys, ok);
            match next
            case Reply(a) => ArmFor(HandlerKind(handler), a)
            case Await(h) => HandlerOk(h) && HandlerKind(h) == HandlerKind(handler)
  {
  }

  /** A locked holder gives nothing from a vault, and only a completed `finish` opens one. */
  lemma OnlyFinishOpens(kind: Kind, keys: Keys, handler: Handler, ok: bool)
    requires HandlerOk(handler)
    ensures Begin(kind, keys).0.vault ==> keys.vault
    ensures !Readable(keys) && NeedsVault(kind) ==> Begin(kind, keys).1 == Reply(Refused)
    ensures Resume(handler, keys, ok).0.vault && !keys.vault ==>
              handler.Unwrapping? && ok && Resume(handler, keys, ok).1 == Reply(Unlocked(true))
    ensures Resume(handler, keys, ok).0.userId && !keys.userId ==> handler.Proving? && ok
  {
  }

  /** The holder as the object it is: four fields, driven by `handleWorkerRequest`. */
  class VaultKeyHolder {
    var preparation: bool
    var session: bool
    var vault: bool
    var userId: bool

    function View(): Keys
      reads this
    {
      Keys(preparation, session, vault, userId)
    }

    constructor ()
      ensures View() == LOCKED
    {
      preparation, session, vault, userId := false, false, false, false;
    }

    method LockHolder()
      modifies this
      ensures View() == LOCKED
    {
      preparation, session, vault, userId := false, false, false, false;
    }

    method Handle(kind: Kind) returns (outcome: Outcome)
      modifies this
      ensures (View(), outcome) == Begin(kind, old(View()))
    {
      match kind {
        case Prepare => outcome := Await(Deriving);
        case Finish =>
          outcome := if preparation && session then Await(Unwrapping) else Reply(Refused);
        case Lock =>
          LockHolder();
          outcome := Reply(Unlocked(vault));
        case State => outcome := Reply(Unlocked(vault));
        case Seal => outcome := if vault && userId then Await(Encrypting) else Reply(Refused);
        case Reseal => outcome := if vault && userId then Await(Merging) else Reply(Refused);
        case _ => outcome := if vault && userId then Await(Reading(kind)) else Reply(Refused);
      }
    }

    method Continue(handler: Handler, ok: bool) returns (outcome: Outcome)
      requires HandlerOk(handler)
      modifies this
      ensures (View(), outcome) == Resume(handler, old(View()), ok)
    {
      match handler {
        case Deriving =>
          if !ok { return Reply(Refused); }
          preparation := true;
          outcome := Await(Proving);
        case Proving =>
          if !ok { return Reply(Refused); }
          session := true;
          userId := true;
          outcome := Reply(if preparation then Proof else Refused);
        case Unwrapping =>
          if !ok { return Reply(Refused); }
          vault := true;
          preparation := false;
          session := false;
          outcome := Reply(Unlocked(vault));
        case Reading(kind) => outcome := Reply(ReadAnswer(kind));
        case Encrypting => outcome := Reply(if ok then Blob else Refused);
        case Merging =>
          outcome := if ok && vault && userId then Await(Resealing) else Reply(Resealed(false));
        case Resealing => outcome := Reply(Resealed(ok));
      }
    }
  }
}
