/**
 The claim of the heavy role when its check, its write, its reading back and its taking over are separate steps that
 other tabs can come between: the storage the tabs share has no transactions. A tab runs no other callback of its own in
 between.
 */
module ClaimRaces {
  import opened Coordinator
  import Atomic = CoordinatorTheorems

  /**
   Checked: no live lease of another tab was seen (and the Web Lock is held, where there is one). Written: the lease is
   written. Confirmed: and read back.
   */
  datatype Phase = Idle | Checked | Written | Confirmed

  /**
   slipped: per tab, the tabs that took over between its check and its write, or between its reading back and its own
   taking over, since its claim began. A claim begins with a check that finds no live lease; a check that passes because
   the live lease is the tab's own continues the claim that wrote it.
   */
  datatype Sys = Sys(shared: Shared, tabs: seq<Tab>, phases: seq<Phase>, slipped: seq<set<nat>>)

  /** Enter writes the lease again and takes the role. */
  datatype Event = Check(t: nat) | Write(t: nat) | Read(t: nat) | Enter(t: nat) | Deny(t: nat) | Poll(t: nat) | Release(t: nat)
                 | Beat(t: nat) | Crashed(t: nat) | Tick(ms: nat)

  ghost predicate Shaped(s: Sys) {
    |s.phases| == |s.tabs| && |s.slipped| == |s.tabs|
  }

  function Start(locks: seq<bool>): Sys {
    var n := |locks|;
    Sys(Atomic.Start(locks).shared, Atomic.Start(locks).tabs, seq(n, i => Idle), seq(n, i => {}))
  }

  ghost predicate Enabled(s: Sys, e: Event) {
    Shaped(s) &&
    match e
    case Tick(ms) => true
    case Crashed(t) => t < |s.tabs|
    case Write(t) => t < |s.tabs| && !s.tabs[t].locks && s.phases[t].Checked?
    case Read(t) => t < |s.tabs| && s.phases[t].Written?
    case Enter(t) => t < |s.tabs| && if s.tabs[t].locks then s.phases[t].Checked? else s.phases[t].Confirmed?
    case Release(t) => t < |s.tabs| && s.phases[t].Idle? && s.tabs[t].role == Heavy
    case _ => e.t < |s.tabs| && s.phases[e.t].Idle?
  }

  /** The check sees no live lease of another tab and, in a tab with locks, gets the lock. */
  predicate Passes(s: Sys, t: nat)
    requires t < |s.tabs|
  {
    MayClaim(s.shared, t) && (s.tabs[t].locks ==> s.shared.owner.None?)
  }

  ghost function CheckStep(s: Sys, t: nat): Sys
    requires Enabled(s, Check(t))
  {
    if !Passes(s, t) then s.(tabs := s.tabs[t := s.tabs[t].(role := Light)])
    else
      Sys(if s.tabs[t].locks then s.shared.(owner := Some(t)) else s.shared, s.tabs, s.phases[t := Checked],
          if LeaseAlive(s.shared) then s.slipped else s.slipped[t := {}])
  }

  /** A storage tab that reads back another tab's lease gives up. */
  ghost function ReadStep(s: Sys, t: nat): Sys
    requires Enabled(s, Read(t))
  {
    if LeaseIsMine(s.shared, t) then s.(phases := s.phases[t := Confirmed])
    else s.(tabs := s.tabs[t := s.tabs[t].(role := Light)], phases := s.phases[t := Idle])
  }

  /** Between its check and its write, or between its reading back and its taking over, a tab does not see another's lease. */
  predicate Blind(p: Phase) {
    p.Checked? || p.Confirmed?
  }

  function NotedBy(slipped: seq<set<nat>>, phases: seq<Phase>, t: nat): (r: seq<set<nat>>)
    requires |slipped| == |phases|
    ensures |r| == |slipped|
    ensures forall u :: 0 <= u < |slipped| ==> r[u] == if u != t && Blind(phases[u]) then slipped[u] + {t} else slipped[u]
  {
    seq(|slipped|, u requires 0 <= u < |slipped| => if u != t && Blind(phases[u]) then slipped[u] + {t} else slipped[u])
  }

  ghost function EnterStep(s: Sys, t: nat): Sys
    requires Enabled(s, Enter(t))
  {
    var v := BecomeHeavy(View(s.shared, s.tabs[t]), t);
    Sys(v.shared, s.tabs[t := v.tab], s.phases[t := Idle], NotedBy(s.slipped, s.phases, t))
  }

  /** The effect of the other events of a tab on the shared records and on itself. */
  function Local(v: View, e: Event): View
    requires !e.Tick? && !e.Check? && !e.Read? && !e.Enter?
  {
    match e
    case Write(t) => WriteLease(v, t)
    case Deny(t) => v.(tab := v.tab.(role := Light))
    case Poll(t) => HoldPoll(v, t)
    case Release(t) => ReleaseHeavy(v, t)
    case Beat(t) => Heartbeat(v, t)
    case Crashed(t) => Crash(v, t)
  }

  function PhaseAfter(p: Phase, e: Event): Phase {
    if e.Write? then Written else if e.Crashed? then Idle else p
  }

  ghost function Step(s: Sys, e: Event): (u: Sys)
    requires Enabled(s, e)
    ensures Shaped(u) && |u.tabs| == |s.tabs|
  {
    match e
    case Tick(ms) => s.(shared := s.shared.(now := s.shared.now + ms))
    case Check(t) => CheckStep(s, t)
    case Read(t) => ReadStep(s, t)
    case Enter(t) => EnterStep(s, t)
    case _ =>
      var v := Local(View(s.shared, s.tabs[e.t]), e);
      s.(shared := v.shared, tabs := s.tabs[e.t := v.tab], phases := s.phases[e.t := PhaseAfter(s.phases[e.t], e)])
  }

  /** Without other events in between, the steps are the atomic claim. */
  lemma UninterruptedClaim(s: Sys, t: nat)
    requires Shaped(s) && t < |s.tabs| && s.phases[t].Idle?
    ensures var a := Atomic.Step(Atomic.Sys(s.shared, s.tabs), Atomic.Claim(t));
            var c := Step(s, Check(t));
            if !Passes(s, t) then a == Atomic.Sys(c.shared, c.tabs)
            else
              var w := if s.tabs[t].locks then c else Step(Step(c, Write(t)), Read(t));
              Enabled(w, Enter(t)) && a == Atomic.Sys(Step(w, Enter(t)).shared, Step(w, Enter(t)).tabs)
  {
  }

  // ---------------------------------------------------------------- runs

  ghost predicate OneHeavy(s: Sys) {
    forall t, u :: 0 <= t < |s.tabs| && 0 <= u < |s.tabs| && s.tabs[t].role == Heavy && s.tabs[u].role == Heavy ==> t == u
  }

  ghost predicate IsRun(s: Sys, events: seq<Event>)
    decreases |events|
  {
    events == [] || (Enabled(s, events[0]) && IsRun(Step(s, events[0]), events[1..]))
  }

  /** No heavy tab is ever silent for more than `gap`. */
  ghost predicate Beating(s: Sys, events: seq<Event>, gap: nat)
    requires IsRun(s, events)
    decreases |events|
  {
    && (forall t :: 0 <= t < |s.tabs| && s.tabs[t].role == Heavy ==> s.shared.now - s.tabs[t].wrote <= gap)
    && (events == [] || Beating(Step(s, events[0]), events[1..], gap))
  }

  ghost predicate AlwaysOneHeavy(s: Sys, events: seq<Event>)
    requires IsRun(s, events)
    decreases |events|
  {
    OneHeavy(s) && (events == [] || AlwaysOneHeavy(Step(s, events[0]), events[1..]))
  }

  /** The tab takes over although another one, heavy still, slipped past it. */
  ghost predicate Overtaken(s: Sys, e: Event)
    requires Enabled(s, e)
  {
    e.Enter? && exists u :: u in s.slipped[e.t] && u != e.t && u < |s.tabs| && s.tabs[u].role == Heavy
  }

  ghost predicate NeverOvertaken(s: Sys, events: seq<Event>)
    requires IsRun(s, events)
    decreases |events|
  {
    events == [] || (!Overtaken(s, events[0]) && NeverOvertaken(Step(s, events[0]), events[1..]))
  }

  // ---------------------------------------------------------------- the invariant

  /** The lease is at least as recent as the heavy tab's last write, and its own or that of a tab it slipped past. */
  ghost predicate HeavyHasLease(s: Sys)
    requires Shaped(s)
  {
    forall t :: 0 <= t < |s.tabs| && s.tabs[t].role == Heavy ==>
      && s.shared.lease.Some? && s.tabs[t].wrote <= s.shared.lease.value.hb && s.tabs[t].wrote <= s.shared.now
      && var l := s.shared.lease.value.tab; l == t || (l < |s.tabs| && t in s.slipped[l])
  }

  /** Every other heavy tab slipped past a tab that does not see it. */
  ghost predicate BlindNote(s: Sys)
    requires Shaped(s)
  {
    forall t, u :: 0 <= t < |s.tabs| && 0 <= u < |s.tabs| && t != u && s.tabs[t].role == Heavy && Blind(s.phases[u]) ==> t in s.slipped[u]
  }

  ghost predicate Inv(s: Sys) {
    Shaped(s) && OneHeavy(s) && HeavyHasLease(s) && BlindNote(s)
  }

  /** While a tab is heavy the lease is alive. */
  lemma {:induction false} HeavyIsAlive(s: Sys, gap: nat, t: nat)
    requires Inv(s) && gap < LEASE_TTL_MS && t < |s.tabs| && s.tabs[t].role == Heavy && s.shared.now - s.tabs[t].wrote <= gap
    ensures LeaseAlive(s.shared)
  {
  }

  lemma {:induction false} CheckKeepsInv(s: Sys, t: nat)
    requires Inv(s) && Enabled(s, Check(t))
    requires forall u :: 0 <= u < |s.tabs| && s.tabs[u].role == Heavy ==> LeaseAlive(s.shared)
    ensures Inv(Step(s, Check(t)))
  {
    var v := Step(s, Check(t));
    if Passes(s, t) && LeaseAlive(s.shared) {
      assert s.shared.lease.value.tab == t;
    }
  }

  lemma {:induction false} EnterKeepsInv(s: Sys, t: nat)
    requires Inv(s) && Enabled(s, Enter(t)) && !Overtaken(s, Enter(t))
    ensures Inv(Step(s, Enter(t)))
  {
    assert forall u :: 0 <= u < |s.tabs| && u != t && s.tabs[u].role == Heavy ==> u in s.slipped[t];
  }

  /** The reading back succeeds only while no other tab took over since the write. */
  lemma {:induction false} ReadKeepsInv(s: Sys, t: nat)
    requires Inv(s) && Enabled(s, Read(t))
    ensures Inv(Step(s, Read(t)))
  {
    if LeaseIsMine(s.shared, t) {
      assert forall u :: 0 <= u < |s.tabs| && u != t && s.tabs[u].role == Heavy ==> u in s.slipped[t];
    }
  }

  lemma {:induction false} OtherKeepsInv(s: Sys, e: Event)
    requires Inv(s) && Enabled(s, e) && !e.Check? && !e.Read? && !e.Enter?
    ensures Inv(Step(s, e))
  {
  }

  lemma {:induction false} OvertakenMakesTwo(s: Sys, e: Event)
    requires Enabled(s, e) && Overtaken(s, e)
    ensures !OneHeavy(Step(s, e))
  {
    var u :| u in s.slipped[e.t] && u != e.t && u < |s.tabs| && s.tabs[u].role == Heavy;
    var v := Step(s, e);
    assert v.tabs[u].role == Heavy && v.tabs[e.t].role == Heavy;
  }

  /**
   Over every run, with heavy tabs that write their lease in time: there is one heavy tab at most in every state if
   and only if no tab takes over after another one, heavy still, took over between its check and its write or between
   its reading back and its taking over.
   */
  lemma {:induction false} OneHeavyRunIff(s: Sys, events: seq<Event>, gap: nat)
    requires Inv(s) && IsRun(s, events) && Beating(s, events, gap) && gap < LEASE_TTL_MS
    ensures AlwaysOneHeavy(s, events) <==> NeverOvertaken(s, events)
    decreases |events|
  {
    if events != [] {
      var e := events[0];
      if Overtaken(s, e) {
        OvertakenMakesTwo(s, e);
      } else {
        if e.Check? {
          forall t | 0 <= t < |s.tabs| && s.tabs[t].role == Heavy ensures LeaseAlive(s.shared) {
            HeavyIsAlive(s, gap, t);
          }
          CheckKeepsInv(s, e.t);
        } else if e.Read? {
          ReadKeepsInv(s, e.t);
        } else if e.Enter? {
          EnterKeepsInv(s, e.t);
        } else {
          OtherKeepsInv(s, e);
        }
        OneHeavyRunIff(Step(s, e), events[1..], gap);
      }
    }
  }

  lemma {:induction false} OneHeavyIff(locks: seq<bool>, events: seq<Event>, gap: nat)
    requires IsRun(Start(locks), events) && Beating(Start(locks), events, gap) && gap < LEASE_TTL_MS
    ensures AlwaysOneHeavy(Start(locks), events) <==> NeverOvertaken(Start(locks), events)
  {
    OneHeavyRunIff(Start(locks), events, gap);
  }

  // ---------------------------------------------------------------- claims one after the other

  /** No claim begins while another tab is in the middle of one. */
  ghost predicate Serial(s: Sys, events: seq<Event>)
    requires IsRun(s, events)
    decreases |events|
  {
    events == []
    || (&& (events[0].Check? ==> forall u :: 0 <= u < |s.tabs| ==> s.phases[u].Idle?)
        && Serial(Step(s, events[0]), events[1..]))
  }

  /** The heavy tab's lease is its own; a tab in the middle of a claim is the only one, and no other tab is heavy. */
  ghost predicate SerialInv(s: Sys) {
    && Shaped(s)
    && (forall t :: 0 <= t < |s.tabs| && s.tabs[t].role == Heavy ==>
          s.shared.lease.Some? && s.shared.lease.value.tab == t && s.tabs[t].wrote <= s.shared.lease.value.hb)
    && (forall t, u :: 0 <= t < |s.tabs| && 0 <= u < |s.tabs| && t != u && !s.phases[u].Idle? ==>
          s.tabs[t].role == Light && s.phases[t].Idle?)
  }

  /** Claims that do not overlap make one heavy tab at most: only the overlap, not the steps themselves, does harm. */
  lemma {:induction false} SerialRunOneHeavy(s: Sys, events: seq<Event>, gap: nat)
    requires SerialInv(s) && IsRun(s, events) && Beating(s, events, gap) && gap < LEASE_TTL_MS && Serial(s, events)
    ensures AlwaysOneHeavy(s, events)
    decreases |events|
  {
    if events != [] {
      SerialStep(s, events[0], gap);
      SerialRunOneHeavy(Step(s, events[0]), events[1..], gap);
    }
  }

  lemma {:induction false} SerialStep(s: Sys, e: Event, gap: nat)
    requires SerialInv(s) && Enabled(s, e) && gap < LEASE_TTL_MS
    requires forall t :: 0 <= t < |s.tabs| && s.tabs[t].role == Heavy ==> s.shared.now - s.tabs[t].wrote <= gap
    requires e.Check? ==> forall u :: 0 <= u < |s.tabs| ==> s.phases[u].Idle?
    ensures SerialInv(Step(s, e))
  {
    if e.Check? {
      SerialCheck(s, e.t, gap);
    } else if e.Enter? {
      SerialEnter(s, e.t);
    } else if e.Write? {
      SerialWrite(s, e.t);
    } else {
      SerialOther(s, e);
    }
  }

  lemma {:induction false} SerialWrite(s: Sys, t: nat)
    requires SerialInv(s) && Enabled(s, Write(t))
    ensures SerialInv(Step(s, Write(t)))
  {
    assert forall u :: 0 <= u < |s.tabs| && u != t ==> s.tabs[u].role == Light && s.phases[u].Idle?;
  }

  lemma {:induction false} SerialOther(s: Sys, e: Event)
    requires SerialInv(s) && Enabled(s, e) && !e.Check? && !e.Enter? && !e.Write?
    ensures SerialInv(Step(s, e))
  {
  }

  lemma {:induction false} SerialCheck(s: Sys, t: nat, gap: nat)
    requires SerialInv(s) && Enabled(s, Check(t)) && gap < LEASE_TTL_MS
    requires forall u :: 0 <= u < |s.tabs| && s.tabs[u].role == Heavy ==> s.shared.now - s.tabs[u].wrote <= gap
    requires forall u :: 0 <= u < |s.tabs| ==> s.phases[u].Idle?
    ensures SerialInv(CheckStep(s, t))
  {
    assert Passes(s, t) ==> forall u :: 0 <= u < |s.tabs| && u != t ==> s.tabs[u].role == Light;
  }

  lemma {:induction false} SerialEnter(s: Sys, t: nat)
    requires SerialInv(s) && Enabled(s, Enter(t))
    ensures SerialInv(EnterStep(s, t))
  {
    assert forall u :: 0 <= u < |s.tabs| && u != t ==> s.tabs[u].role == Light && s.phases[u].Idle?;
  }

  lemma {:induction false} SerialClaimsOneHeavy(locks: seq<bool>, events: seq<Event>, gap: nat)
    requires IsRun(Start(locks), events) && Beating(Start(locks), events, gap) && gap < LEASE_TTL_MS && Serial(Start(locks), events)
    ensures AlwaysOneHeavy(Start(locks), events)
  {
    SerialRunOneHeavy(Start(locks), events, gap);
  }

  // ---------------------------------------------------------------- Web Locks close the gap

  /** A tab that is heavy or in the middle of a claim owns the lock. */
  ghost predicate ClaimOwnsLock(s: Sys) {
    Shaped(s) && forall t :: 0 <= t < |s.tabs| ==>
      s.tabs[t].locks && (s.tabs[t].role == Heavy ==> s.tabs[t].lockHeld)
      && (s.tabs[t].role == Heavy || !s.phases[t].Idle? ==> s.shared.owner == Some(t))
  }

  /** With Web Locks in every tab no interleaving of the steps, and no silence, makes two heavy tabs. */
  lemma {:induction false} LocksKeepOneHeavy(s: Sys, events: seq<Event>)
    requires ClaimOwnsLock(s) && IsRun(s, events)
    ensures AlwaysOneHeavy(s, events)
    decreases |events|
  {
    if events != [] {
      LocksKeepOneHeavy(Step(s, events[0]), events[1..]);
    }
  }

  lemma {:induction false} LockTabsOneHeavy(n: nat, events: seq<Event>)
    requires IsRun(Start(seq(n, i => true)), events)
    ensures AlwaysOneHeavy(Start(seq(n, i => true)), events)
  {
    LocksKeepOneHeavy(Start(seq(n, i => true)), events);
  }

  // ---------------------------------------------------------------- the order of the events

  ghost function After(s: Sys, events: seq<Event>): Sys
    requires IsRun(s, events)
    decreases |events|
  {
    if events == [] then s else After(Step(s, events[0]), events[1..])
  }

  lemma {:induction false} PrefixIsRun(s: Sys, events: seq<Event>, n: nat)
    requires IsRun(s, events) && n <= |events|
    ensures IsRun(s, events[..n])
    decreases n
  {
    if n > 0 {
      PrefixIsRun(Step(s, events[0]), events[1..], n - 1);
      assert events[..n][0] == events[0] && events[..n][1..] == events[1..][..n - 1];
    }
  }

  /** Event i of the run is u's taking over, and t does not see another's lease then. */
  ghost predicate SlipsPast(s: Sys, events: seq<Event>, i: nat, u: nat, t: nat) {
    && i < |events| && events[i] == Enter(u) && u != t
    && IsRun(s, events[..i]) && t < |After(s, events[..i]).phases| && Blind(After(s, events[..i]).phases[t])
  }

  lemma {:induction false} SlipsPastLater(s: Sys, events: seq<Event>, i: nat, u: nat, t: nat)
    requires IsRun(s, events) && events != [] && SlipsPast(Step(s, events[0]), events[1..], i, u, t)
    ensures SlipsPast(s, events, i + 1, u, t)
  {
    PrefixIsRun(s, events, i + 1);
    assert events[..i + 1][0] == events[0] && events[..i + 1][1..] == events[1..][..i];
  }

  /** Whoever is noted took over inside one of those two stretches. */
  lemma {:induction false} SlippedInOrder(s: Sys, events: seq<Event>, u: nat, t: nat)
    requires IsRun(s, events) && t < |s.tabs| && Shaped(s) && u !in s.slipped[t]
    requires t < |After(s, events).slipped| && u in After(s, events).slipped[t]
    ensures exists i: nat :: SlipsPast(s, events, i, u, t)
    decreases |events|
  {
    var v := Step(s, events[0]);
    if u in v.slipped[t] {
      assert events[..0] == [];
      assert SlipsPast(s, events, 0, u, t);
    } else {
      SlippedInOrder(v, events[1..], u, t);
      var i: nat :| SlipsPast(v, events[1..], i, u, t);
      SlipsPastLater(s, events, i, u, t);
    }
  }

  /**
   The same in the order of the events: in a run that ever has two heavy tabs some tab takes over (event j) after another
   one, heavy still, took over (event i) between its check and its write or between its reading back and event j.
   */
  lemma {:induction false} TwoHeavyInOrder(locks: seq<bool>, events: seq<Event>, gap: nat)
    requires IsRun(Start(locks), events) && Beating(Start(locks), events, gap) && gap < LEASE_TTL_MS
    requires !AlwaysOneHeavy(Start(locks), events)
    ensures exists j: nat, i: nat, t: nat, u: nat ::
      && i < j < |events| && events[j] == Enter(t) && SlipsPast(Start(locks), events, i, u, t)
      && IsRun(Start(locks), events[..j]) && u < |After(Start(locks), events[..j]).tabs|
      && After(Start(locks), events[..j]).tabs[u].role == Heavy
  {
    var s := Start(locks);
    OneHeavyIff(locks, events, gap);
    var j := OvertakenAt(s, events);
    var t, w := events[j].t, After(s, events[..j]);
    var u :| u in w.slipped[t] && u != t && u < |w.tabs| && w.tabs[u].role == Heavy;
    AfterKeepsTabs(s, events[..j]);
    SlippedInOrder(s, events[..j], u, t);
    var i: nat :| SlipsPast(s, events[..j], i, u, t);
    assert events[..j][..i] == events[..i];
    assert SlipsPast(s, events, i, u, t);
  }

  lemma {:induction false} AfterKeepsTabs(s: Sys, events: seq<Event>)
    requires IsRun(s, events) && Shaped(s)
    ensures Shaped(After(s, events)) && |After(s, events).tabs| == |s.tabs|
    decreases |events|
  {
    if events != [] {
      AfterKeepsTabs(Step(s, events[0]), events[1..]);
    }
  }

  lemma {:induction false} OvertakenAt(s: Sys, events: seq<Event>) returns (j: nat)
    requires IsRun(s, events) && !NeverOvertaken(s, events)
    ensures j < |events| && IsRun(s, events[..j])
    ensures var w := After(s, events[..j]); Enabled(w, events[j]) && Overtaken(w, events[j])
    decreases |events|
  {
    if Overtaken(s, events[0]) {
      j := 0;
    } else {
      var i := OvertakenAt(Step(s, events[0]), events[1..]);
      j := i + 1;
      PrefixIsRun(s, events, j);
      assert events[..j][0] == events[0] && events[..j][1..] == events[1..][..i];
    }
  }

  // ---------------------------------------------------------------- two storage tabs

  /** Two storage tabs at time 0: the lease's tab, who is heavy, the phases and who slipped past each. */
  function Pair(lease: Option<nat>, heavy: (bool, bool), phases: seq<Phase>, slipped: seq<set<nat>>): Sys {
    Sys(Shared(if lease.Some? then Some(Lease(lease.value, 0)) else None, None, 0), [PairTab(heavy.0), PairTab(heavy.1)], phases, slipped)
  }

  function PairTab(heavy: bool): Tab {
    Tab(false, if heavy then Heavy else Light, heavy, 0)
  }

  lemma PairChecks()
    ensures Start([false, false]) == Pair(None, (false, false), [Idle, Idle], [{}, {}])
    ensures Step(Pair(None, (false, false), [Idle, Idle], [{}, {}]), Check(0)) == Pair(None, (false, false), [Checked, Idle], [{}, {}])
    ensures Step(Pair(None, (false, false), [Checked, Idle], [{}, {}]), Check(1)) == Pair(None, (false, false), [Checked, Checked], [{}, {}])
  {
  }

  lemma PairWrites(lease: Option<nat>, heavy: (bool, bool), p: Phase, slipped: seq<set<nat>>)
    requires |slipped| == 2
    ensures Step(Pair(lease, heavy, [Checked, p], slipped), Write(0)) == Pair(Some(0), heavy, [Written, p], slipped)
    ensures Step(Pair(lease, heavy, [p, Checked], slipped), Write(1)) == Pair(Some(1), heavy, [p, Written], slipped)
  {
  }

  lemma PairReads(h: bool, p: Phase, slipped: seq<set<nat>>)
    requires |slipped| == 2
    ensures Step(Pair(Some(0), (false, h), [Written, p], slipped), Read(0)) == Pair(Some(0), (false, h), [Confirmed, p], slipped)
    ensures Step(Pair(Some(1), (h, false), [p, Written], slipped), Read(1)) == Pair(Some(1), (h, false), [p, Confirmed], slipped)
    ensures Step(Pair(Some(1), (false, h), [Written, p], slipped), Read(0)) == Pair(Some(1), (false, h), [Idle, p], slipped)
  {
  }

  lemma PairEnters(lease: nat, h: bool, p: Phase, a: set<nat>, b: set<nat>)
    ensures Step(Pair(Some(lease), (false, h), [Confirmed, p], [a, b]), Enter(0))
         == Pair(Some(0), (true, h), [Idle, p], [a, if Blind(p) then b + {0} else b])
    ensures Step(Pair(Some(lease), (h, false), [p, Confirmed], [a, b]), Enter(1))
         == Pair(Some(1), (h, true), [p, Idle], [if Blind(p) then a + {1} else a, b])
  {
    assert NotedBy([a, b], [Confirmed, p], 0) == [a, if Blind(p) then b + {0} else b];
    assert NotedBy([a, b], [p, Confirmed], 1) == [if Blind(p) then a + {1} else a, b];
  }

  /** A run at time 0 with one more event in front. */
  lemma {:induction false} Prepend(s: Sys, e: Event, t: Sys, rest: seq<Event>)
    requires Enabled(s, e) && Step(s, e) == t && IsRun(t, rest) && Beating(t, rest, 0)
    requires forall i :: 0 <= i < |s.tabs| && s.tabs[i].role == Heavy ==> s.shared.now - s.tabs[i].wrote <= 0
    ensures IsRun(s, [e] + rest) && Beating(s, [e] + rest, 0)
    ensures AlwaysOneHeavy(s, [e] + rest) <==> OneHeavy(s) && AlwaysOneHeavy(t, rest)
  {
    assert ([e] + rest)[1..] == rest && ([e] + rest)[0] == e;
  }

  /** Both tabs check first. */
  lemma {:induction false} PairRun(rest: seq<Event>)
    requires var s2 := Pair(None, (false, false), [Checked, Checked], [{}, {}]); IsRun(s2, rest) && Beating(s2, rest, 0)
    ensures var s0, events := Start([false, false]), [Check(0), Check(1)] + rest;
            && IsRun(s0, events) && Beating(s0, events, 0)
            && (AlwaysOneHeavy(s0, events) <==> AlwaysOneHeavy(Pair(None, (false, false), [Checked, Checked], [{}, {}]), rest))
  {
    PairChecks();
    var s1 := Pair(None, (false, false), [Checked, Idle], [{}, {}]);
    Prepend(s1, Check(1), Pair(None, (false, false), [Checked, Checked], [{}, {}]), rest);
    Prepend(Start([false, false]), Check(0), s1, [Check(1)] + rest);
    assert [Check(0)] + ([Check(1)] + rest) == [Check(0), Check(1)] + rest;
  }

  /** The second of two tabs, past which the first one slipped, reads its own lease back and takes over. */
  lemma {:induction false} SecondTakesOver()
    ensures var s, events := Pair(Some(0), (true, false), [Idle, Checked], [{}, {0}]), [Write(1), Read(1), Enter(1)];
            IsRun(s, events) && Beating(s, events, 0) && !AlwaysOneHeavy(s, events)
  {
    SecondReads();
    PairWrites(Some(0), (true, false), Idle, [{}, {0}]);
    Prepend(Pair(Some(0), (true, false), [Idle, Checked], [{}, {0}]), Write(1),
            Pair(Some(1), (true, false), [Idle, Written], [{}, {0}]), [Read(1), Enter(1)]);
    assert [Write(1)] + [Read(1), Enter(1)] == [Write(1), Read(1), Enter(1)];
  }

  lemma {:induction false} SecondReads()
    ensures var s, events := Pair(Some(1), (true, false), [Idle, Written], [{}, {0}]), [Read(1), Enter(1)];
            IsRun(s, events) && Beating(s, events, 0) && !AlwaysOneHeavy(s, events)
  {
    ConfirmedTakesOver(1);
    PairReads(true, Idle, [{}, {0}]);
    Prepend(Pair(Some(1), (true, false), [Idle, Written], [{}, {0}]), Read(1),
            Pair(Some(1), (true, false), [Idle, Confirmed], [{}, {0}]), [Enter(1)]);
    assert [Read(1)] + [Enter(1)] == [Read(1), Enter(1)];
  }

  lemma {:induction false} ConfirmedTakesOver(lease: nat)
    ensures var s := Pair(Some(lease), (true, false), [Idle, Confirmed], [{}, {0}]);
            IsRun(s, [Enter(1)]) && Beating(s, [Enter(1)], 0) && !AlwaysOneHeavy(s, [Enter(1)])
  {
    var t := Pair(Some(1), (true, true), [Idle, Idle], [{}, {0}]);
    PairEnters(lease, true, Idle, {}, {0});
    assert t.tabs[0].role == Heavy && t.tabs[1].role == Heavy;
    Prepend(Pair(Some(lease), (true, false), [Idle, Confirmed], [{}, {0}]), Enter(1), t, []);
    assert [Enter(1)] + [] == [Enter(1)];
  }

  lemma {:induction false} BothTakeOver()
    ensures var s, events := Pair(Some(0), (false, false), [Confirmed, Checked], [{}, {}]), [Enter(0)] + [Write(1), Read(1), Enter(1)];
            IsRun(s, events) && Beating(s, events, 0) && !AlwaysOneHeavy(s, events)
  {
    SecondTakesOver();
    PairEnters(0, false, Checked, {}, {});
    assert {} + {0} == {0};
    Prepend(Pair(Some(0), (false, false), [Confirmed, Checked], [{}, {}]), Enter(0),
            Pair(Some(0), (true, false), [Idle, Checked], [{}, {0}]), [Write(1), Read(1), Enter(1)]);
  }

  /**
   From the start: both tabs check; the first writes, reads back and takes over; then the second writes, reads its own
   lease back and takes over too.
   */
  lemma {:induction false} LateWriteIsNotDetected()
    ensures var s, events := Start([false, false]), [Check(0), Check(1)] + ([Write(0), Read(0), Enter(0)] + [Write(1), Read(1), Enter(1)]);
            IsRun(s, events) && Beating(s, events, 0) && !AlwaysOneHeavy(s, events)
  {
    var late := [Write(1), Read(1), Enter(1)];
    var s3 := Pair(Some(0), (false, false), [Written, Checked], [{}, {}]);
    var s4 := Pair(Some(0), (false, false), [Confirmed, Checked], [{}, {}]);
    BothTakeOver();
    PairReads(false, Checked, [{}, {}]);
    Prepend(s3, Read(0), s4, [Enter(0)] + late);
    PairWrites(None, (false, false), Checked, [{}, {}]);
    Prepend(Pair(None, (false, false), [Checked, Checked], [{}, {}]), Write(0), s3, [Read(0)] + ([Enter(0)] + late));
    assert [Write(0)] + ([Read(0)] + ([Enter(0)] + late)) == [Write(0), Read(0), Enter(0)] + late;
    PairRun([Write(0), Read(0), Enter(0)] + late);
  }

  /** Both tabs write and read back, the first before the second's write; then both take over. */
  lemma {:induction false} EarlyReadIsNotDetected()
    ensures var s, events := Start([false, false]), [Check(0), Check(1)] + ([Write(0), Read(0)] + [Write(1), Read(1), Enter(0), Enter(1)]);
            IsRun(s, events) && Beating(s, events, 0) && !AlwaysOneHeavy(s, events)
  {
    var late := [Write(1), Read(1), Enter(0), Enter(1)];
    var s3 := Pair(Some(0), (false, false), [Written, Checked], [{}, {}]);
    var s4 := Pair(Some(0), (false, false), [Confirmed, Checked], [{}, {}]);
    BothConfirm();
    PairReads(false, Checked, [{}, {}]);
    Prepend(s3, Read(0), s4, late);
    PairWrites(None, (false, false), Checked, [{}, {}]);
    Prepend(Pair(None, (false, false), [Checked, Checked], [{}, {}]), Write(0), s3, [Read(0)] + late);
    assert [Write(0)] + ([Read(0)] + late) == [Write(0), Read(0)] + late;
    PairRun([Write(0), Read(0)] + late);
  }

  lemma {:induction false} BothConfirm()
    ensures var s, events := Pair(Some(0), (false, false), [Confirmed, Checked], [{}, {}]), [Write(1), Read(1), Enter(0), Enter(1)];
            IsRun(s, events) && Beating(s, events, 0) && !AlwaysOneHeavy(s, events)
  {
    var s5 := Pair(Some(1), (false, false), [Confirmed, Written], [{}, {}]);
    var s6 := Pair(Some(1), (false, false), [Confirmed, Confirmed], [{}, {}]);
    ConfirmedTakeOver();
    PairReads(false, Confirmed, [{}, {}]);
    Prepend(s5, Read(1), s6, [Enter(0), Enter(1)]);
    PairWrites(Some(0), (false, false), Confirmed, [{}, {}]);
    Prepend(Pair(Some(0), (false, false), [Confirmed, Checked], [{}, {}]), Write(1), s5, [Read(1)] + [Enter(0), Enter(1)]);
    assert [Write(1)] + ([Read(1)] + [Enter(0), Enter(1)]) == [Write(1), Read(1), Enter(0), Enter(1)];
  }

  lemma {:induction false} ConfirmedTakeOver()
    ensures var s, events := Pair(Some(1), (false, false), [Confirmed, Confirmed], [{}, {}]), [Enter(0), Enter(1)];
            IsRun(s, events) && Beating(s, events, 0) && !AlwaysOneHeavy(s, events)
  {
    ConfirmedTakesOver(0);
    PairEnters(1, false, Confirmed, {}, {});
    assert {} + {0} == {0};
    Prepend(Pair(Some(1), (false, false), [Confirmed, Confirmed], [{}, {}]), Enter(0),
            Pair(Some(0), (true, false), [Idle, Confirmed], [{}, {0}]), [Enter(1)]);
    assert [Enter(0)] + [Enter(1)] == [Enter(0), Enter(1)];
  }

  /** When both write before either reads back, the reading back tells the first one, and one tab is heavy. */
  lemma {:induction false} EarlyWriteIsDetected()
    ensures var s, events := Start([false, false]), [Check(0), Check(1)] + ([Write(0), Write(1)] + [Read(0), Read(1), Enter(1)]);
            IsRun(s, events) && AlwaysOneHeavy(s, events)
  {
    var late := [Read(0), Read(1), Enter(1)];
    var s3 := Pair(Some(0), (false, false), [Written, Checked], [{}, {}]);
    var s4 := Pair(Some(1), (false, false), [Written, Written], [{}, {}]);
    OnlySecondTakesOver();
    PairWrites(Some(0), (false, false), Written, [{}, {}]);
    Prepend(s3, Write(1), s4, late);
    PairWrites(None, (false, false), Checked, [{}, {}]);
    Prepend(Pair(None, (false, false), [Checked, Checked], [{}, {}]), Write(0), s3, [Write(1)] + late);
    assert [Write(0)] + ([Write(1)] + late) == [Write(0), Write(1)] + late;
    PairRun([Write(0), Write(1)] + late);
  }

  lemma {:induction false} OnlySecondTakesOver()
    ensures var s, events := Pair(Some(1), (false, false), [Written, Written], [{}, {}]), [Read(0), Read(1), Enter(1)];
            IsRun(s, events) && Beating(s, events, 0) && AlwaysOneHeavy(s, events)
  {
    LoneClaimEnds();
    PairReads(false, Written, [{}, {}]);
    Prepend(Pair(Some(1), (false, false), [Written, Written], [{}, {}]), Read(0),
            Pair(Some(1), (false, false), [Idle, Written], [{}, {}]), [Read(1), Enter(1)]);
    assert [Read(0)] + [Read(1), Enter(1)] == [Read(0), Read(1), Enter(1)];
  }

  lemma {:induction false} LoneClaimEnds()
    ensures var s, events := Pair(Some(1), (false, false), [Idle, Written], [{}, {}]), [Read(1), Enter(1)];
            IsRun(s, events) && Beating(s, events, 0) && AlwaysOneHeavy(s, events)
  {
    var s6 := Pair(Some(1), (false, false), [Idle, Confirmed], [{}, {}]);
    PairEnters(1, false, Idle, {}, {});
    Prepend(s6, Enter(1), Pair(Some(1), (false, true), [Idle, Idle], [{}, {}]), []);
    PairReads(false, Idle, [{}, {}]);
    Prepend(Pair(Some(1), (false, false), [Idle, Written], [{}, {}]), Read(1), s6, [Enter(1)] + []);
    assert [Read(1)] + ([Enter(1)] + []) == [Read(1), Enter(1)];
  }
}
