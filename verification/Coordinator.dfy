/**
 Election of the one heavy tab of an origin: Web Lock, or a timed lease in storage that all tabs share.
 The functions give each callback's effect on the shared records and on the tab that runs it; the
 class does the same in place.
 */
module Coordinator {

  datatype Option<+T> = None | Some(value: T)

  /** The lease record: its tab and the time of its last heartbeat. */
  datatype Lease = Lease(tab: nat, hb: nat)

  /** Shared by all tabs: the lease in storage, the owner of the Web Lock, the clock. */
  datatype Shared = Shared(lease: Option<Lease>, owner: Option<nat>, now: nat)

  datatype Role = Light | Heavy

  /** locks: the tab has the Web Locks API. wrote: when it last wrote the lease. */
  datatype Tab = Tab(locks: bool, role: Role, lockHeld: bool, wrote: nat)

  datatype View = View(shared: Shared, tab: Tab)

  const HEARTBEAT_MS := 2000
  const LEASE_TTL_MS := 6000

  predicate LeaseAlive(s: Shared) {
    s.lease.Some? && s.now - s.lease.value.hb < LEASE_TTL_MS
  }

  predicate LeaseIsMine(s: Shared, id: nat) {
    s.lease.Some? && s.lease.value.tab == id
  }

  /** No other tab has a live lease. */
  predicate MayClaim(s: Shared, id: nat) {
    !LeaseAlive(s) || LeaseIsMine(s, id)
  }

  function WriteLease(v: View, id: nat): View {
    View(v.shared.(lease := Some(Lease(id, v.shared.now))), v.tab.(wrote := v.shared.now))
  }

  function BecomeHeavy(v: View, id: nat): View {
    var w := WriteLease(v, id);
    w.(tab := w.tab.(lockHeld := true, role := Heavy))
  }

  /** The lock request's callback: denied when the lock is busy or another tab has a live lease. */
  function LockCallback(v: View, id: nat): View {
    if v.shared.owner.Some? || !MayClaim(v.shared, id) then v.(tab := v.tab.(role := Light))
    else
      var w := BecomeHeavy(v, id);
      w.(shared := w.shared.(owner := Some(id)))
  }

  /** The storage fallback, when its read and its write are not interleaved with another tab's. */
  function StorageAcquire(v: View, id: nat): View {
    if MayClaim(v.shared, id) then BecomeHeavy(v, id) else v.(tab := v.tab.(role := Light))
  }

  /** The half-second poll of a held lock: drop the lock once the tab gave it up or is no longer heavy. */
  function HoldPoll(v: View, id: nat): View {
    if v.shared.owner == Some(id) && (!v.tab.lockHeld || v.tab.role != Heavy) then v.(shared := v.shared.(owner := None)) else v
  }

  function ReleaseHeavy(v: View, id: nat): View {
    View(if LeaseIsMine(v.shared, id) then v.shared.(lease := None) else v.shared,
         v.tab.(lockHeld := false, role := Light))
  }

  function Heartbeat(v: View, id: nat): View {
    if v.tab.role == Heavy then WriteLease(v, id) else v
  }

  /** The browser frees the lock of a tab that dies; its lease stays. */
  function Crash(v: View, id: nat): View {
    View(if v.shared.owner == Some(id) then v.shared.(owner := None) else v.shared, v.tab.(role := Light, lockHeld := false))
  }

  /** The records every tab of the origin sees. */
  class Origin {
    var lease: Option<Lease>
    var owner: Option<nat>
    var now: nat

    constructor ()
      ensures lease == None && owner == None && now == 0
    {
      lease, owner, now := None, None, 0;
    }
  }

  class OriginTab {
    const origin: Origin
    const id: nat
    const locks: bool
    var role: Role
    var lockHeld: bool
    var wrote: nat

    function Now(): View
      reads this, origin
    {
      View(Shared(origin.lease, origin.owner, origin.now), Tab(locks, role, lockHeld, wrote))
    }

    constructor (origin: Origin, id: nat, locks: bool)
      ensures this.origin == origin && this.id == id && this.locks == locks
      ensures Now().tab == Tab(locks, Light, false, 0)
    {
      this.origin, this.id, this.locks := origin, id, locks;
      role, lockHeld, wrote := Light, false, 0;
    }

    method PutLease()
      modifies this, origin
      ensures Now() == WriteLease(old(Now()), id)
    {
      origin.lease := Some(Lease(id, origin.now));
      wrote := origin.now;
    }

    method EnterHeavy()
      modifies this, origin
      ensures Now() == BecomeHeavy(old(Now()), id)
    {
      PutLease();
      lockHeld := true;
      role := Heavy;
    }

    method OnLock() returns (ok: bool)
      modifies this, origin
      ensures Now() == LockCallback(old(Now()), id)
      ensures ok == (old(origin.owner) == None && MayClaim(old(Now()).shared, id))
    {
      ok := origin.owner.None? && MayClaim(Now().shared, id);
      if ok {
        EnterHeavy();
        origin.owner := Some(id);
      } else {
        role := Light;
      }
    }

    /** Read, write, verify: the verification reads back the tab's own write. */
    method ClaimByStorage() returns (ok: bool)
      modifies this, origin
      ensures Now() == StorageAcquire(old(Now()), id)
      ensures ok == MayClaim(old(Now()).shared, id)
    {
      if !MayClaim(Now().shared, id) {
        role := Light;
        return false;
      }
      PutLease();
      if !LeaseIsMine(Now().shared, id) {
        assert false;
      }
      EnterHeavy();
      return true;
    }

    method Poll()
      modifies origin
      ensures Now() == HoldPoll(old(Now()), id)
    {
      if origin.owner == Some(id) && (!lockHeld || role != Heavy) {
        origin.owner := None;
      }
    }

    method Release()
      modifies this, origin
      ensures Now() == ReleaseHeavy(old(Now()), id)
    {
      lockHeld := false;
      if LeaseIsMine(Now().shared, id) {
        origin.lease := None;
      }
      role := Light;
    }

    method Beat()
      modifies this, origin
      ensures Now() == Heartbeat(old(Now()), id)
    {
      if role == Heavy {
        PutLease();
      }
    }
  }
}
