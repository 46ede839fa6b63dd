/** `VaultHost` between two awaits: the session token, its expiry and the idle timer. */
module VaultHost {
  import opened KeyHolder
  import opened Wrappers

  /** Fifteen minutes. */
  const IDLE_LOCK_MS: nat := 15 * 60 * 1000

  /** The host's fields, the platform's live timers (handle to deadline), the clock, the holder's
      advisory mirror, and the time of the last interaction. */
  datatype Host = Host(
    token: Option<string>,
    expiresAt: Option<string>,
    idle: Option<nat>,
    live: map<nat, nat>,
    nextTimer: nat,
    now: nat,
    touchedAt: nat,
    mirror: bool)

  /** `#touch`. */
  function Touched(h: Host): Host {
    var cleared := if h.idle.Some? then h.live - {h.idle.value} else h.live;
    h.(idle := Some(h.nextTimer),
       live := cleared[h.nextTimer := h.now + IDLE_LOCK_MS],
       nextTimer := h.nextTimer + 1,
       touchedAt := h.now)
  }

  /** `#dropKeys`, without the lock message it posts. */
  function Dropped(h: Host): Host {
    h.(token := None, expiresAt := None, idle := None, mirror := false,
       live := if h.idle.Some? then h.live - {h.idle.value} else h.live)
  }

  /** The end of a successful `unlock`. */
  function Opened(h: Host, token: string, expiresAt: string): Host {
    Touched(h.(token := Some(token), expiresAt := Some(expiresAt)))
  }

  /** The guard in front of every read and write: `!token || !isUnlocked`. */
  predicate Admits(h: Host) {
    h.token.Some? && h.token.value != "" && h.mirror
  }

  /** `get state`. */
  predicate ShowsUnlocked(h: Host) { h.mirror && h.expiresAt.Some? }

  /** Token, expiry and timer come and go together; the only live timer is the remembered one, set
      for the last interaction plus the idle limit, and not yet overdue. */
  predicate Lifecycle(h: Host) {
    && (h.token.Some? <==> h.idle.Some?)
    && (h.expiresAt.Some? <==> h.idle.Some?)
    && (h.idle.None? ==> h.live == map[])
    && (h.idle.Some? ==>
          && h.idle.value < h.nextTimer
          && h.live == map[h.idle.value := h.touchedAt + IDLE_LOCK_MS]
          && h.now <= h.touchedAt + IDLE_LOCK_MS)
  }

  lemma LifecycleKept(h: Host, token: string, expiresAt: string)
    requires Lifecycle(h)
    ensures Lifecycle(Dropped(h)) && Dropped(h).live == map[]
    ensures Lifecycle(Opened(h, token, expiresAt))
    ensures h.token.Some? ==> Lifecycle(Touched(h))
  {
    var t := Touched(h);
    assert (if h.idle.Some? then h.live - {h.idle.value} else h.live) == map[];
  }

  /** What the worker's answer means to the method that sent `kind`: whether it throws, and the new
      mirror. Only `prepare` leaves the mirror alone on a refusal. */
  function Settle(kind: Kind, answer: Answer, mirror: bool): (r: (bool, bool)) {
    match kind
    case Prepare => (answer.Proof?, mirror)
    case Finish => if answer.Unlocked? then (answer.open, answer.open) else (false, mirror)
    case Lock => (true, mirror)
    case State => (true, mirror)
    case _ => if ArmFor(kind, answer) && !answer.Refused? then (true, mirror) else (false, false)
  }

  /** The platform's `setTimeout` and `clearTimeout`. */
  class Timers {
    var live: map<nat, nat>
    var next: nat
    var now: nat

    constructor ()
      ensures live == map[] && next == 0 && now == 0
    {
      live, next, now := map[], 0, 0;
    }

    method Set(ms: nat) returns (handle: nat)
      modifies this
      ensures handle == old(next) && next == old(next) + 1 && now == old(now)
      ensures live == old(live)[handle := now + ms]
    {
      handle := next;
      live := live[handle := now + ms];
      next := next + 1;
    }

    method Clear(handle: nat)
      modifies this
      ensures live == old(live) - {handle} && next == old(next) && now == old(now)
    {
      live := live - {handle};
    }
  }

  /** What the host uses of the holder on its own side of the worker boundary: the mirror, and the
      lock messages posted so far. */
  class HolderPort {
    var unlocked: bool
    var locksPosted: nat

    constructor ()
      ensures !unlocked && locksPosted == 0
    {
      unlocked, locksPosted := false, 0;
    }

    method LockHolder()
      modifies this
      ensures !unlocked && locksPosted == old(locksPosted) + 1
    {
      unlocked := false;
      locksPosted := locksPosted + 1;
    }
  }

  class VaultHost {
    const holder: HolderPort
    const timers: Timers
    var token: Option<string>
    var expiresAt: Option<string>
    var idle: Option<nat>
    ghost var touchedAt: nat

    ghost function View(): Host
      reads this, holder, timers
    {
      Host(token, expiresAt, idle, timers.live, timers.next, timers.now, touchedAt, holder.unlocked)
    }

    constructor (holder: HolderPort, timers: Timers)
      requires timers.live == map[]
      ensures this.holder == holder && this.timers == timers
      ensures Lifecycle(View()) && token == None
    {
      this.holder, this.timers := holder, timers;
      token, expiresAt, idle := None, None, None;
      touchedAt := 0;
    }

    method Touch()
      modifies this, timers
      ensures View() == Touched(old(View()))
    {
      if idle.Some? { timers.Clear(idle.value); }
      var handle := timers.Set(IDLE_LOCK_MS);
      idle := Some(handle);
      touchedAt := timers.now;
    }

    method DropKeys()
      modifies this, timers, holder
      ensures View() == Dropped(old(View()))
      ensures holder.locksPosted == old(holder.locksPosted) + 1
    {
      if idle.Some? {
        timers.Clear(idle.value);
        idle := None;
      }
      holder.LockHolder();
      token := None;
      expiresAt := None;
    }

    /** `unlock` after `finish` has resolved. */
    method FinishUnlock(newToken: string, newExpiresAt: string)
      modifies this, timers
      ensures View() == Opened(old(View()), newToken, newExpiresAt)
    {
      token := Some(newToken);
      expiresAt := Some(newExpiresAt);
      Touch();
    }

    /** The first, uninterrupted part of `list`, `matchesFor`, `fillFor`, `createItem`, `updateItem`. */
    method Enter() returns (admitted: bool)
      modifies this, timers
      ensures admitted == Admits(old(View()))
      ensures View() == if admitted then Touched(old(View())) else old(View())
    {
      if token.None? || token.value == "" || !holder.unlocked { return false; }
      Touch();
      return true;
    }

    /** `lock` up to its network call: keys first, whatever the network does. */
    method LockVault(hasBearer: bool) returns (tellServer: bool)
      modifies this, timers, holder
      ensures View() == Dropped(old(View()))
      ensures holder.locksPosted == old(holder.locksPosted) + 1
      ensures tellServer <==> old(token).Some? && old(token).value != "" && hasBearer
    {
      tellServer := token.Some? && token.value != "" && hasBearer;
      DropKeys();
    }
  }
}
