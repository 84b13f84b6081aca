/** At most one heavy tab: for every timing under the Web Lock, and exactly for short heartbeat gaps under the lease. */
module CoordinatorTheorems {
  import opened Coordinator

  datatype Sys = Sys(shared: Shared, tabs: seq<Tab>)

  /** Claim is the atomic acquire of the tab's mode. Deny demotes: a busy peer, a served B10, a lost race. */
  datatype Event = Claim(t: nat) | Deny(t: nat) | Poll(t: nat) | Release(t: nat) | Beat(t: nat) | Crashed(t: nat) | Tick(ms: nat)

  function Start(locks: seq<bool>): Sys {
    Sys(Shared(None, None, 0), seq(|locks|, i requires 0 <= i < |locks| => Tab(locks[i], Light, false, 0)))
  }

  predicate Enabled(s: Sys, e: Event) {
    e.Tick? || e.t < |s.tabs|
  }

  /** The effect of a tab's event on the shared records and the tab itself. */
  function Local(v: View, e: Event): View
    requires !e.Tick?
  {
    match e
    case Claim(t) => if v.tab.locks then LockCallback(v, t) else StorageAcquire(v, t)
    case Deny(t) => v.(tab := v.tab.(role := Light))
    case Poll(t) => HoldPoll(v, t)
    case Release(t) => ReleaseHeavy(v, t)
    case Beat(t) => Heartbeat(v, t)
    case Crashed(t) => Crash(v, t)
  }

  function Step(s: Sys, e: Event): Sys
    requires Enabled(s, e)
  {
    if e.Tick? then s.(shared := s.shared.(now := s.shared.now + e.ms))
    else
      var v := Local(View(s.shared, s.tabs[e.t]), e);
      Sys(v.shared, s.tabs[e.t := v.tab])
  }

  /** Every heavy tab wrote the lease at most `gap` milliseconds ago. */
  ghost predicate Beating(s: Sys, gap: nat) {
    forall t :: 0 <= t < |s.tabs| && s.tabs[t].role == Heavy ==> s.shared.now - s.tabs[t].wrote <= gap
  }

  ghost predicate Reaches(s: Sys, events: seq<Event>, u: Sys)
    decreases |events|
  {
    if events == [] then u == s
    else Enabled(s, events[0]) && Reaches(Step(s, events[0]), events[1..], u)
  }

  /** The same, with no heavy tab ever silent for more than `gap`. */
  ghost predicate ReachesBeating(s: Sys, events: seq<Event>, u: Sys, gap: nat)
    decreases |events|
  {
    Beating(s, gap) &&
    if events == [] then u == s
    else Enabled(s, events[0]) && ReachesBeating(Step(s, events[0]), events[1..], u, gap)
  }

  ghost predicate OneHeavy(s: Sys) {
    forall t, u :: 0 <= t < |s.tabs| && 0 <= u < |s.tabs| && s.tabs[t].role == Heavy && s.tabs[u].role == Heavy ==> t == u
  }

  // ---------------------------------------------------------------- Web Lock mode

  ghost predicate HeavyOwnsLock(s: Sys) {
    forall t :: 0 <= t < |s.tabs| ==> s.tabs[t].locks && (s.tabs[t].role == Heavy ==> s.shared.owner == Some(t) && s.tabs[t].lockHeld)
  }

  /** With Web Locks in every tab, heavy implies owning the lock, through delayed drops, demotions and crashes. */
  lemma {:induction false} LockModeRun(s: Sys, events: seq<Event>, u: Sys)
    requires HeavyOwnsLock(s) && Reaches(s, events, u)
    ensures HeavyOwnsLock(u) && OneHeavy(u)
    decreases |events|
  {
    if events != [] {
      LockModeRun(Step(s, events[0]), events[1..], u);
    }
  }

  lemma {:induction false} LockModeOneHeavy(n: nat, events: seq<Event>, u: Sys)
    requires Reaches(Start(seq(n, i => true)), events, u)
    ensures OneHeavy(u)
    ensures forall t :: 0 <= t < |u.tabs| && u.tabs[t].role == Heavy ==> u.shared.owner == Some(t)
  {
    LockModeRun(Start(seq(n, i => true)), events, u);
  }

  // ---------------------------------------------------------------- lease mode, and tabs of both kinds mixed

  /** A heavy tab's lease is its own and as old as the tab's last write. */
  ghost predicate HeavyHasLease(s: Sys) {
    forall t :: 0 <= t < |s.tabs| && s.tabs[t].role == Heavy ==> s.shared.lease == Some(Lease(t, s.tabs[t].wrote))
  }

  lemma {:induction false} LeaseModeRun(s: Sys, events: seq<Event>, u: Sys, gap: nat)
    requires HeavyHasLease(s) && ReachesBeating(s, events, u, gap) && gap < LEASE_TTL_MS
    ensures HeavyHasLease(u) && OneHeavy(u)
    ensures forall t :: 0 <= t < |u.tabs| && u.tabs[t].role == Heavy ==> LeaseAlive(u.shared)
    decreases |events|
  {
    if events != [] {
      LeaseModeRun(Step(s, events[0]), events[1..], u, gap);
    }
  }

  ghost predicate SafeForGap(gap: nat) {
    forall locks, events, u :: ReachesBeating(Start(locks), events, u, gap) ==> OneHeavy(u)
  }

  /** Two storage-only tabs, the first silent for a whole lease lifetime. */
  lemma SilentLeaderIsJoined(gap: nat)
    requires gap >= LEASE_TTL_MS
    ensures exists u :: ReachesBeating(Start([false, false]), [Claim(0), Tick(LEASE_TTL_MS), Claim(1)], u, gap) && !OneHeavy(u)
  {
    var s0 := Start([false, false]);
    var s1 := Step(s0, Claim(0));
    var s2 := Step(s1, Tick(LEASE_TTL_MS));
    var s3 := Step(s2, Claim(1));
    assert s1.tabs == [Tab(false, Heavy, true, 0), Tab(false, Light, false, 0)];
    assert s3.tabs == [Tab(false, Heavy, true, 0), Tab(false, Heavy, true, LEASE_TTL_MS)];
    assert s3.tabs[0].role == Heavy && s3.tabs[1].role == Heavy;
    assert ReachesBeating(s3, [], s3, gap);
    assert [Claim(1)][1..] == [];
    assert ReachesBeating(s2, [Claim(1)], s3, gap);
    assert [Tick(LEASE_TTL_MS), Claim(1)][1..] == [Claim(1)];
    assert ReachesBeating(s1, [Tick(LEASE_TTL_MS), Claim(1)], s3, gap);
    var events := [Claim(0), Tick(LEASE_TTL_MS), Claim(1)];
    assert events[0] == Claim(0) && events[1..] == [Tick(LEASE_TTL_MS), Claim(1)];
    assert ReachesBeating(s0, events, s3, gap) && !OneHeavy(s3);
  }

  /**
   With atomic acquires, any mix of lock and storage tabs never has two heavy tabs, if and only if
   heavy tabs write their lease with gaps shorter than its lifetime. The heartbeat interval is shorter.
   */
  lemma LeaseSafeIff(gap: nat)
    ensures SafeForGap(gap) <==> gap < LEASE_TTL_MS
    ensures HEARTBEAT_MS < LEASE_TTL_MS
  {
    if gap < LEASE_TTL_MS {
      forall locks, events, u | ReachesBeating(Start(locks), events, u, gap) ensures OneHeavy(u) {
        LeaseModeRun(Start(locks), events, u, gap);
      }
    } else {
      SilentLeaderIsJoined(gap);
    }
  }
}
