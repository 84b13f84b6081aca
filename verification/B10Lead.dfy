/**
 The order in which a pump call serves a B10 pack that waits at the head for its classes: which turns leave it in
 front of the exclusive packs it preceded, and when such a pack is launched before it.
 */
module B10Lead {
  import opened ResourceClasses
  import opened Pump
  import opened PumpTheorems
  import opened KickRuns

  /** A launch can only meet dependencies. */
  lemma {:induction false} LaunchKeepsMet(plan: Plan, env: Env, k: Kick, i: nat)
    requires CanPump(plan, k) && k.next < |k.order| && i < |k.order| && !DepUnmet(plan, env, k, i)
    ensures !DepUnmet(plan, env, Launch(plan, k), i)
  {
    var t := Launch(plan, k);
    if DepUnmet(plan, env, t, i) {
      var d :| 0 <= d < |At(plan, t, i).dependsOn| && DepMissing(plan, env, t, At(plan, t, i).dependsOn[d]);
      assert forall x :: 0 <= x < k.next ==> At(plan, t, x) == At(plan, k, x);
      assert DepMissing(plan, env, k, At(plan, k, i).dependsOn[d]);
    }
  }

  /** A ready pack that the pump would launch at the head. */
  ghost predicate Launchable(plan: Plan, env: Env, k: Kick, i: nat)
    requires CanPump(plan, k) && i < |k.order|
  {
    var p := At(plan, k, i);
    && !DepUnmet(plan, env, k, i)
    && if IsLight(p) then k.activeLight < plan.maxLight else !Deferred(plan, env, k, i) && ClassesFree(k.active, p.classes)
  }

  lemma {:induction false} LaunchableLaunches(plan: Plan, env: Env, k: Kick)
    requires GoodPlan(plan) && Shape(plan, k) && Counted(plan, k) && k.next < |k.order| && Launchable(plan, env, k, k.next)
    ensures Loop(plan, env, k) == Loop(plan, env, Launch(plan, k))
    ensures Shape(plan, Launch(plan, k)) && Counted(plan, Launch(plan, k))
  {
    assert OneTurn(plan, env, k) == Go(Launch(plan, k));
    TurnKeeps(plan, env, k);
  }

  /** A launchable pack stays so in its slot when a swap behind it, or another pack into its slot, leaves the prefix alone. */
  lemma {:induction false} SwapKeepsLaunchable(plan: Plan, env: Env, k: Kick, i: nat, t: Kick, j: nat)
    requires CanPump(plan, k) && i < |k.order| && Launchable(plan, env, k, i) && k.next < |k.order|
    requires t == k.(order := t.order) && CanPump(plan, t) && j < |t.order| && t.order[j] == k.order[i]
    requires k.order[..k.next] == t.order[..k.next]
    ensures Launchable(plan, env, t, j)
  {
    SameUnmet(plan, env, k, i, t, j);
  }

  /** Two launchable packs in a row, a light one and an exclusive one, are launched. */
  lemma {:induction false} LaunchTwo(plan: Plan, env: Env, k: Kick)
    requires GoodPlan(plan) && Shape(plan, k) && Counted(plan, k) && k.next + 1 < |k.order|
    requires IsLight(At(plan, k, k.next)) && Launchable(plan, env, k, k.next)
    requires !IsLight(At(plan, k, k.next + 1)) && Launchable(plan, env, k, k.next + 1)
    ensures var k3 := Launch(plan, Launch(plan, k));
            Shape(plan, k3) && Counted(plan, k3) && Loop(plan, env, k) == Loop(plan, env, k3)
  {
    LaunchableLaunches(plan, env, k);
    LightLaunchKeepsLaunchable(plan, env, k);
    LaunchableLaunches(plan, env, Launch(plan, k));
  }

  lemma {:induction false} LoopKeepsPrefix(plan: Plan, env: Env, k: Kick)
    requires GoodPlan(plan) && Shape(plan, k) && Counted(plan, k)
    ensures var t := Loop(plan, env, k); |t.order| == |k.order| && t.next >= k.next && t.order[..k.next] == k.order[..k.next]
  {
    LoopKeeps(plan, env, k);
  }

  lemma {:induction false} LightLaunchKeepsLaunchable(plan: Plan, env: Env, k: Kick)
    requires CanPump(plan, k) && k.next + 1 < |k.order|
    requires IsLight(At(plan, k, k.next)) && !IsLight(At(plan, k, k.next + 1)) && Launchable(plan, env, k, k.next + 1)
    ensures Launchable(plan, env, Launch(plan, k), k.next + 1)
  {
    LaunchKeepsMet(plan, env, k, k.next + 1);
  }

  // ---------------------------------------------------------------- who stands before whom

  ghost predicate Before(o: seq<nat>, x: nat, y: nat) {
    exists a, b :: 0 <= a < b < |o| && o[a] == x && o[b] == y
  }

  ghost predicate Exclusive(plan: Plan, y: nat) {
    y < |plan.table| && !IsLight(plan.table[y])
  }

  /** Every exclusive pack that h preceded in one order it still precedes in the other. */
  ghost predicate LeadKept(plan: Plan, o: seq<nat>, u: seq<nat>, h: nat) {
    forall y :: Exclusive(plan, y) && Before(o, h, y) ==> Before(u, h, y)
  }

  ghost predicate Distinct(o: seq<nat>) {
    forall i, j :: 0 <= i < j < |o| ==> o[i] != o[j]
  }

  lemma {:induction false} BeforeAt(o: seq<nat>, m: nat, i: nat)
    requires Distinct(o) && m < |o| && i < |o| && m != i
    ensures Before(o, o[m], o[i]) <==> m < i
  {
    if m < i {
      assert o[m] == o[m] && o[i] == o[i];
    }
  }

  function SwapOrder(o: seq<nat>, n: nat, j: nat): seq<nat>
    requires n < |o| && j < |o|
  {
    o[n := o[j]][j := o[n]]
  }

  /** Where the pack at place i stands after places n and j were swapped. */
  function Moved(n: nat, j: nat, i: nat): nat {
    if i == n then j else if i == j then n else i
  }

  lemma {:induction false} BeforeAfterSwap(o: seq<nat>, n: nat, j: nat, m: nat, i: nat)
    requires Distinct(o) && n < j < |o| && m < |o| && i < |o| && m != i
    ensures Distinct(SwapOrder(o, n, j))
    ensures Before(SwapOrder(o, n, j), o[m], o[i]) <==> Moved(n, j, m) < Moved(n, j, i)
  {
    var u := SwapOrder(o, n, j);
    assert u[Moved(n, j, m)] == o[m] && u[Moved(n, j, i)] == o[i];
    BeforeAt(u, Moved(n, j, m), Moved(n, j, i));
  }

  /** A swap of the head with place j keeps the lead of the pack at place m exactly under this condition. */
  ghost predicate HarmlessSwap(plan: Plan, o: seq<nat>, n: nat, j: nat, m: nat)
    requires n < j < |o| && n <= m < |o|
  {
    if m == n then forall i :: n < i <= j ==> !Exclusive(plan, o[i])
    else j <= m || !Exclusive(plan, o[j])
  }

  lemma {:induction false} SwapKeepsLeadIff(plan: Plan, o: seq<nat>, n: nat, j: nat, m: nat)
    requires Distinct(o) && n < j < |o| && n <= m < |o|
    ensures LeadKept(plan, o, SwapOrder(o, n, j), o[m]) <==> HarmlessSwap(plan, o, n, j, m)
  {
    var u := SwapOrder(o, n, j);
    forall i | 0 <= i < |o| && i != m
      ensures Before(o, o[m], o[i]) <==> m < i
      ensures Before(u, o[m], o[i]) <==> Moved(n, j, m) < Moved(n, j, i)
    {
      BeforeAt(o, m, i);
      BeforeAfterSwap(o, n, j, m, i);
    }
    if HarmlessSwap(plan, o, n, j, m) {
      forall y | Exclusive(plan, y) && Before(o, o[m], y)
        ensures Before(u, o[m], y)
      {
        var a, b :| 0 <= a < b < |o| && o[a] == o[m] && o[b] == y;
        assert b != m;
      }
    } else if m == n {
      var i :| n < i <= j && Exclusive(plan, o[i]);
      assert Before(o, o[m], o[i]) && !Before(u, o[m], o[i]);
    } else {
      assert Before(o, o[m], o[j]) && !Before(u, o[m], o[j]);
    }
  }

  lemma {:induction false} SameOrderKeepsLead(plan: Plan, o: seq<nat>, h: nat)
    ensures LeadKept(plan, o, o, h)
  {
  }

  // ---------------------------------------------------------------- one turn

  /** The place of the pack that a turn pulls into the head's slot; the length of the order if it pulls none. */
  function PullPlace(plan: Plan, env: Env, k: Kick): (j: nat)
    requires CanPump(plan, k) && k.next < |k.order|
    ensures k.next < j <= |k.order|
  {
    var p := At(plan, k, k.next);
    if DepUnmet(plan, env, k, k.next) then
      First(plan, env, k.(tried := k.tried + {k.order[k.next]}), ReadyPack, k.next + 1)
    else if IsLight(p) then |k.order|
    else if MustDefer(env, p.id, p.exclusiveLane) then First(plan, env, k, AllowedPack, k.next + 1)
    else if !ClassesFree(k.active, p.classes) then First(plan, env, k, AheadOfBlocked(IsB10(p.id)), k.next + 1)
    else |k.order|
  }

  lemma {:induction false} TurnOrder(plan: Plan, env: Env, k: Kick)
    requires CanPump(plan, k) && k.next < |k.order|
    ensures var j := PullPlace(plan, env, k);
            OneTurn(plan, env, k).k.order == if j == |k.order| then k.order else SwapOrder(k.order, k.next, j)
  {
  }

  /**
   Any turn, whatever its branch: a pack that is not launched yet keeps its place in front of the exclusive packs
   behind it if and only if the turn pulls nothing or its swap is harmless.
   */
  lemma {:induction false} TurnKeepsLeadIff(plan: Plan, env: Env, k: Kick, m: nat)
    requires Shape(plan, k) && k.next <= m < |k.order|
    ensures var j := PullPlace(plan, env, k);
            LeadKept(plan, k.order, OneTurn(plan, env, k).k.order, k.order[m])
            <==> j == |k.order| || HarmlessSwap(plan, k.order, k.next, j, m)
  {
    var j := PullPlace(plan, env, k);
    TurnOrder(plan, env, k);
    if j == |k.order| {
      SameOrderKeepsLead(plan, k.order, k.order[m]);
    } else {
      SwapKeepsLeadIff(plan, k.order, k.next, j, m);
    }
  }

  /** A B10 pack that is ready to run waits at the head for its classes. */
  ghost predicate BlockedB10(plan: Plan, env: Env, k: Kick)
    requires CanPump(plan, k)
  {
    k.next < |k.order| &&
    var p := At(plan, k, k.next);
    !DepUnmet(plan, env, k, k.next) && IsB10(p.id) && !IsLight(p) && !ClassesFree(k.active, p.classes)
  }

  /** The search behind a blocked B10 head finds the first light pack, if a light slot is free. */
  lemma {:induction false} SearchFindsLight(plan: Plan, env: Env, k: Kick)
    requires CanPump(plan, k) && k.next < |k.order|
    ensures var j := First(plan, env, k, AheadOfBlocked(true), k.next + 1);
            && (forall i :: k.next < i < j && k.activeLight < plan.maxLight ==> !IsLight(At(plan, k, i)))
            && (j < |k.order| ==> IsLight(At(plan, k, j)) && k.activeLight < plan.maxLight)
  {
    var search := AheadOfBlocked(true);
    forall i | k.next < i < |k.order|
      ensures Candidate(plan, env, k, search, i) <==> IsLight(At(plan, k, i)) && k.activeLight < plan.maxLight
    {
    }
  }

  /**
   The turn of a blocked B10 head leaves it in front of every exclusive pack it preceded if and only if the search
   finds a pack right behind it or none at all.
   */
  lemma {:induction false} BlockedB10TurnIff(plan: Plan, env: Env, k: Kick)
    requires Shape(plan, k) && BlockedB10(plan, env, k)
    ensures var j := First(plan, env, k, AheadOfBlocked(true), k.next + 1);
            LeadKept(plan, k.order, OneTurn(plan, env, k).k.order, k.order[k.next]) <==> j == k.next + 1 || j == |k.order|
  {
    SearchFindsLight(plan, env, k);
    TurnKeepsLeadIff(plan, env, k, k.next);
    var j := First(plan, env, k, AheadOfBlocked(true), k.next + 1);
    assert PullPlace(plan, env, k) == j;
    assert k.next + 1 < j < |k.order| ==> Exclusive(plan, k.order[k.next + 1]);
  }

  // ---------------------------------------------------------------- the whole call

  /** Every turn of the call leaves h in front of the exclusive packs it precedes. */
  ghost predicate CallKeepsLead(plan: Plan, env: Env, k: Kick, h: nat)
    requires GoodPlan(plan) && CanPump(plan, k)
    decreases |k.order| - k.next, Untried(plan, k), HeadBlocked(plan, env, k)
  {
    k.next == |k.order| ||
    match OneTurn(plan, env, k)
    case Stop(t) => LeadKept(plan, k.order, t.order, h)
    case Go(t) =>
      LeadKept(plan, k.order, t.order, h) && (TurnProgress(plan, env, k); CallKeepsLead(plan, env, t, h))
  }

  /** The first exclusive pack at or behind place i, or the length of the order. */
  function FirstExclusive(plan: Plan, k: Kick, i: nat): (x: nat)
    requires CanPump(plan, k) && i <= |k.order|
    ensures i <= x <= |k.order|
    ensures forall l :: i <= l < x ==> IsLight(At(plan, k, l))
    ensures x < |k.order| ==> !IsLight(At(plan, k, x))
    decreases |k.order| - i
  {
    if i == |k.order| || !IsLight(At(plan, k, i)) then i else FirstExclusive(plan, k, i + 1)
  }

  /** The light packs right behind the head use up the light slots, or no light pack stands behind an exclusive one. */
  ghost predicate LightsFirst(plan: Plan, k: Kick)
    requires CanPump(plan, k) && k.next < |k.order|
  {
    var x := FirstExclusive(plan, k, k.next + 1);
    plan.maxLight - k.activeLight <= x - (k.next + 1) || forall i :: x < i < |k.order| ==> !IsLight(At(plan, k, i))
  }

  /** The light packs right behind the head that will get a slot have their dependencies met. */
  ghost predicate LightsReady(plan: Plan, env: Env, k: Kick)
    requires CanPump(plan, k) && k.next < |k.order|
  {
    var x := FirstExclusive(plan, k, k.next + 1);
    forall i :: k.next < i < x && i - k.next <= plan.maxLight - k.activeLight ==> !DepUnmet(plan, env, k, i)
  }

  lemma {:induction false} FirstExclusiveUnique(plan: Plan, k: Kick, i: nat, x: nat)
    requires CanPump(plan, k) && i <= x <= |k.order|
    requires forall l :: i <= l < x ==> IsLight(At(plan, k, l))
    requires x < |k.order| ==> !IsLight(At(plan, k, x))
    ensures FirstExclusive(plan, k, i) == x
  {
  }

  /** A light pack right behind a blocked B10 head is pulled forward and launched; the head is the same again. */
  ghost function AfterLight(plan: Plan, k: Kick): Kick
    requires CanPump(plan, k) && k.next + 1 < |k.order|
  {
    Launch(plan, Swap(k, k.next + 1))
  }

  /** With a free slot the light pack right behind a blocked B10 head is pulled forward. */
  lemma {:induction false} PullsFrontLight(plan: Plan, env: Env, k: Kick)
    requires CanPump(plan, k) && BlockedB10(plan, env, k)
    requires k.next + 1 < |k.order| && IsLight(At(plan, k, k.next + 1)) && k.activeLight < plan.maxLight
    ensures OneTurn(plan, env, k) == Go(Swap(k, k.next + 1)) && CanPump(plan, Swap(k, k.next + 1))
  {
    assert Candidate(plan, env, k, AheadOfBlocked(true), k.next + 1);
  }

  lemma {:induction false} LightGoesFirst(plan: Plan, env: Env, k: Kick)
    requires GoodPlan(plan) && Shape(plan, k) && Counted(plan, k) && BlockedB10(plan, env, k)
    requires k.next + 1 < |k.order| && IsLight(At(plan, k, k.next + 1)) && k.activeLight < plan.maxLight
    requires !DepUnmet(plan, env, k, k.next + 1)
    ensures OneTurn(plan, env, k) == Go(Swap(k, k.next + 1))
    ensures CanPump(plan, Swap(k, k.next + 1))
    ensures OneTurn(plan, env, Swap(k, k.next + 1)) == Go(AfterLight(plan, k))
    ensures Shape(plan, AfterLight(plan, k)) && Counted(plan, AfterLight(plan, k))
  {
    var n := k.next;
    var k1 := Swap(k, n + 1);
    PullsFrontLight(plan, env, k);
    SwapKeeps(plan, k, n + 1);
    SameUnmet(plan, env, k, n + 1, k1, n);
    LightLaunches(plan, env, k1);
  }

  lemma {:induction false} LightLaunches(plan: Plan, env: Env, k: Kick)
    requires GoodPlan(plan) && Shape(plan, k) && Counted(plan, k) && k.next < |k.order|
    requires IsLight(At(plan, k, k.next)) && k.activeLight < plan.maxLight && !DepUnmet(plan, env, k, k.next)
    ensures OneTurn(plan, env, k) == Go(Launch(plan, k)) && Shape(plan, Launch(plan, k)) && Counted(plan, Launch(plan, k))
  {
    TurnKeeps(plan, env, k);
  }

  /** The state after the light pack, place by place. */
  lemma {:induction false} AfterLightEffect(plan: Plan, env: Env, k: Kick)
    requires CanPump(plan, k) && k.next + 1 < |k.order| && IsLight(At(plan, k, k.next + 1))
    ensures var t := AfterLight(plan, k);
            && CanPump(plan, t) && t.next == k.next + 1 && |t.order| == |k.order| && t.active == k.active
            && t.activeLight == k.activeLight + 1 && t.tried == k.tried
            && t.order[k.next] == k.order[k.next + 1] && t.order[k.next + 1] == k.order[k.next]
            && (forall i :: k.next + 1 < i < |k.order| ==> t.order[i] == k.order[i])
            && t.order[..k.next] == k.order[..k.next]
            && t.order == SwapOrder(k.order, k.next, k.next + 1)
  {
  }

  /** A pack behind the light one keeps its dependencies met. */
  lemma {:induction false} AfterLightKeepsMet(plan: Plan, env: Env, k: Kick, i: nat, j: nat)
    requires CanPump(plan, k) && k.next + 1 < |k.order| && IsLight(At(plan, k, k.next + 1))
    requires i < |k.order| && !DepUnmet(plan, env, k, i) && j == Moved(k.next, k.next + 1, i)
    ensures CanPump(plan, AfterLight(plan, k)) && !DepUnmet(plan, env, AfterLight(plan, k), j)
  {
    var k1 := Swap(k, k.next + 1);
    SameUnmet(plan, env, k, i, k1, j);
    LaunchKeepsMet(plan, env, k1, j);
  }

  lemma {:induction false} AfterLightKeepsBlocked(plan: Plan, env: Env, k: Kick)
    requires CanPump(plan, k) && BlockedB10(plan, env, k)
    requires k.next + 1 < |k.order| && IsLight(At(plan, k, k.next + 1))
    requires k.activeLight < plan.maxLight
    ensures var t := AfterLight(plan, k);
            && CanPump(plan, t) && BlockedB10(plan, env, t) && t.order[t.next] == k.order[k.next]
            && FirstExclusive(plan, t, t.next + 1) == FirstExclusive(plan, k, k.next + 1)
            && (LightsFirst(plan, t) <==> LightsFirst(plan, k))
            && (LightsReady(plan, env, k) ==> LightsReady(plan, env, t))
  {
    var t := AfterLight(plan, k);
    AfterLightEffect(plan, env, k);
    AfterLightKeepsMet(plan, env, k, k.next, k.next + 1);
    var x := FirstExclusive(plan, k, k.next + 1);
    assert forall i :: k.next + 1 < i < |k.order| ==> At(plan, t, i) == At(plan, k, i);
    FirstExclusiveUnique(plan, t, t.next + 1, x);
    if LightsReady(plan, env, k) {
      forall i | t.next < i < x && i - t.next <= plan.maxLight - t.activeLight
        ensures !DepUnmet(plan, env, t, i)
      {
        AfterLightKeepsMet(plan, env, k, i, i);
      }
    }
  }

  lemma {:induction false} AfterLightLoops(plan: Plan, env: Env, k: Kick)
    requires GoodPlan(plan) && Shape(plan, k) && Counted(plan, k) && BlockedB10(plan, env, k)
    requires k.next + 1 < |k.order| && IsLight(At(plan, k, k.next + 1)) && k.activeLight < plan.maxLight
    requires !DepUnmet(plan, env, k, k.next + 1)
    ensures CanPump(plan, AfterLight(plan, k)) && Loop(plan, env, k) == Loop(plan, env, AfterLight(plan, k))
  {
    LightGoesFirst(plan, env, k);
    assert Loop(plan, env, k) == Loop(plan, env, Swap(k, k.next + 1));
  }

  lemma {:induction false} CallKeepsLeadUnfolds(plan: Plan, env: Env, k: Kick, t: Kick, h: nat)
    requires GoodPlan(plan) && CanPump(plan, k) && k.next < |k.order| && OneTurn(plan, env, k) == Go(t) && CanPump(plan, t)
    requires LeadKept(plan, k.order, t.order, h)
    ensures CallKeepsLead(plan, env, k, h) <==> CallKeepsLead(plan, env, t, h)
  {
  }

  /** The pull of a ready light pack from right behind the head is harmless. */
  lemma {:induction false} FrontLightKeepsLead(plan: Plan, env: Env, k: Kick)
    requires GoodPlan(plan) && Shape(plan, k) && Counted(plan, k) && BlockedB10(plan, env, k)
    requires k.next + 1 < |k.order| && IsLight(At(plan, k, k.next + 1)) && k.activeLight < plan.maxLight
    requires !DepUnmet(plan, env, k, k.next + 1)
    ensures var t := Swap(k, k.next + 1);
            CanPump(plan, t) && OneTurn(plan, env, k) == Go(t) && LeadKept(plan, k.order, t.order, k.order[k.next])
  {
    LightGoesFirst(plan, env, k);
    FrontPullKeepsLead(plan, k);
  }

  lemma {:induction false} AfterLightKeepsLead(plan: Plan, env: Env, k: Kick)
    requires GoodPlan(plan) && Shape(plan, k) && Counted(plan, k) && BlockedB10(plan, env, k)
    requires k.next + 1 < |k.order| && IsLight(At(plan, k, k.next + 1)) && k.activeLight < plan.maxLight
    requires !DepUnmet(plan, env, k, k.next + 1)
    ensures CanPump(plan, AfterLight(plan, k))
    ensures CallKeepsLead(plan, env, k, k.order[k.next]) <==> CallKeepsLead(plan, env, AfterLight(plan, k), k.order[k.next])
  {
    var h, k1 := k.order[k.next], Swap(k, k.next + 1);
    LightGoesFirst(plan, env, k);
    FrontLightKeepsLead(plan, env, k);
    CallKeepsLeadUnfolds(plan, env, k, k1, h);
    SameOrderKeepsLead(plan, k1.order, h);
    CallKeepsLeadUnfolds(plan, env, k1, AfterLight(plan, k), h);
  }

  /**
   The light pack right behind a blocked B10 head lacks a dependency and the search for a ready pack finds place r: the
   two change places, and the light pack has spent its deferral.
   */
  function Postponed(k: Kick, r: nat): Kick
    requires k.next + 1 < r < |k.order|
  {
    k.(tried := k.tried + {k.order[k.next + 1]}, order := SwapOrder(k.order, k.next + 1, r))
  }

  /** Where that search ends: the head is the light pack by then, with the B10 pack right behind it. */
  function ReadyPlace(plan: Plan, env: Env, k: Kick): nat
    requires CanPump(plan, k) && k.next + 1 < |k.order|
  {
    PullPlace(plan, env, Swap(k, k.next + 1))
  }

  /** The turn of a head with a missing dependency, when the pack right behind it waits for its classes. */
  lemma {:induction false} DefersHead(plan: Plan, env: Env, k: Kick)
    requires CanPump(plan, k) && k.next + 1 < |k.order| && DepUnmet(plan, env, k, k.next)
    requires !IsLight(At(plan, k, k.next + 1)) && !ClassesFree(k.active, At(plan, k, k.next + 1).classes)
    ensures var d, r := k.(tried := k.tried + {k.order[k.next]}), PullPlace(plan, env, k);
            && k.next + 1 < r <= |k.order|
            && OneTurn(plan, env, k) == (if r == |k.order| then Stop(d) else Go(Swap(d, r)))
            && (r < |k.order| ==> Candidate(plan, env, d, ReadyPack, r))
  {
    var d := k.(tried := k.tried + {k.order[k.next]});
    assert !Candidate(plan, env, d, ReadyPack, k.next + 1);
  }

  /** The B10 pack has its dependencies met but not its classes, so the search passes over it. */
  lemma {:induction false} DeferredLight(plan: Plan, env: Env, k: Kick)
    requires GoodPlan(plan) && Shape(plan, k) && Counted(plan, k) && BlockedB10(plan, env, k)
    requires k.next + 1 < |k.order| && IsLight(At(plan, k, k.next + 1)) && k.activeLight < plan.maxLight
    requires DepUnmet(plan, env, k, k.next + 1)
    ensures var k1, r := Swap(k, k.next + 1), ReadyPlace(plan, env, k);
            && CanPump(plan, k1) && OneTurn(plan, env, k) == Go(k1)
            && k.next + 1 < r <= |k.order|
            && (r == |k.order| ==> OneTurn(plan, env, k1).Stop? && OneTurn(plan, env, k1).k.order == k1.order)
            && (r < |k.order| ==> OneTurn(plan, env, k1) == Go(Swap(Postponed(k, r), k.next + 1)) && At(plan, k1, r) == At(plan, k, r)
                                  && (IsLight(At(plan, k, r)) || ClassesFree(k.active, At(plan, k, r).classes)))
  {
    var n := k.next;
    var k1 := Swap(k, n + 1);
    PullsFrontLight(plan, env, k);
    DeferredHead(plan, env, k);
    DefersHead(plan, env, k1);
    var r := ReadyPlace(plan, env, k);
    if r < |k.order| {
      SwapsMeet(k, r);
    }
  }

  lemma {:induction false} DeferredHead(plan: Plan, env: Env, k: Kick)
    requires CanPump(plan, k) && BlockedB10(plan, env, k) && k.next + 1 < |k.order| && DepUnmet(plan, env, k, k.next + 1)
    ensures var t := Swap(k, k.next + 1);
            && CanPump(plan, t) && DepUnmet(plan, env, t, k.next) && At(plan, t, k.next + 1) == At(plan, k, k.next)
            && t.order[k.next] == k.order[k.next + 1]
  {
    var t := Swap(k, k.next + 1);
    assert t.order[..k.next] == k.order[..k.next];
    SameUnmet(plan, env, k, k.next + 1, t, k.next);
  }

  /** Pulling the light pack and then the ready one is postponing the light pack and then pulling. */
  lemma {:induction false} SwapsMeet(k: Kick, r: nat)
    requires k.next + 1 < r < |k.order|
    ensures var k1 := Swap(k, k.next + 1);
            && Swap(k1.(tried := k1.tried + {k1.order[k.next]}), r) == Swap(Postponed(k, r), k.next + 1)
            && k1.order[r] == k.order[r]
  {
    var k1 := Swap(k, k.next + 1);
    assert Swap(k1, r).order == Swap(Postponed(k, r), k.next + 1).order;
  }

  /** The call from there is the call with the ready light pack right behind the head. */
  lemma {:induction false} PostponedKeeps(plan: Plan, env: Env, k: Kick)
    requires GoodPlan(plan) && Shape(plan, k) && Counted(plan, k) && BlockedB10(plan, env, k)
    requires k.next + 1 < |k.order| && IsLight(At(plan, k, k.next + 1)) && k.activeLight < plan.maxLight
    requires DepUnmet(plan, env, k, k.next + 1)
    requires ReadyPlace(plan, env, k) < |k.order| && IsLight(At(plan, k, ReadyPlace(plan, env, k)))
    ensures k.next + 1 < ReadyPlace(plan, env, k)
    ensures var t := Postponed(k, ReadyPlace(plan, env, k));
            && Shape(plan, t) && Counted(plan, t) && BlockedB10(plan, env, t)
            && t.order[t.next] == k.order[k.next] && IsLight(At(plan, t, t.next + 1)) && !DepUnmet(plan, env, t, t.next + 1)
            && Untried(plan, t) < Untried(plan, k)
  {
    DeferredLight(plan, env, k);
    var n, r, k1 := k.next, ReadyPlace(plan, env, k), Swap(k, k.next + 1);
    var t := Postponed(k, r);
    PostponedShape(plan, k, r);
    SameUnmet(plan, env, k, n, t, n);
    var d := k1.(tried := k1.tried + {k1.order[n]});
    SameUnmet(plan, env, k, n + 1, k1, n);
    assert Candidate(plan, env, d, ReadyPack, r);
    SameUnmet(plan, env, d, r, t, n + 1);
    assert k.order[n + 1] in Untried(plan, k) && k.order[n + 1] !in Untried(plan, t);
  }

  lemma {:induction false} PostponedShape(plan: Plan, k: Kick, r: nat)
    requires Shape(plan, k) && Counted(plan, k) && k.next + 1 < r < |k.order|
    ensures Shape(plan, Postponed(k, r)) && Counted(plan, Postponed(k, r))
    ensures Postponed(k, r).order[..k.next] == k.order[..k.next]
  {
    var o := SwapOrder(k.order, k.next + 1, r);
    assert o[..k.next] == k.order[..k.next];
    SameRunningCounted(plan, k, Postponed(k, r));
  }

  /** Two states whose next turns lead to the same one, the lead kept. */
  lemma {:induction false} LeadJoins(plan: Plan, env: Env, a: Kick, b: Kick, c: Kick, h: nat)
    requires GoodPlan(plan) && CanPump(plan, a) && CanPump(plan, b) && CanPump(plan, c)
    requires a.next < |a.order| && b.next < |b.order| && OneTurn(plan, env, a) == Go(c) && OneTurn(plan, env, b) == Go(c)
    requires LeadKept(plan, a.order, c.order, h) && LeadKept(plan, b.order, c.order, h)
    ensures CallKeepsLead(plan, env, a, h) <==> CallKeepsLead(plan, env, b, h)
  {
    CallKeepsLeadUnfolds(plan, env, a, c, h);
    CallKeepsLeadUnfolds(plan, env, b, c, h);
  }

  /** The pull and, from there, whether the turn that defers the light pack leaves the lead alone. */
  lemma {:induction false} DeferralKeepsLeadIff(plan: Plan, env: Env, k: Kick)
    requires GoodPlan(plan) && Shape(plan, k) && Counted(plan, k) && BlockedB10(plan, env, k)
    requires k.next + 1 < |k.order| && IsLight(At(plan, k, k.next + 1)) && k.activeLight < plan.maxLight
    requires DepUnmet(plan, env, k, k.next + 1)
    ensures var k1, h, r := Swap(k, k.next + 1), k.order[k.next], ReadyPlace(plan, env, k);
            && CanPump(plan, k1) && k.next + 1 < r
            && (CallKeepsLead(plan, env, k, h) <==> CallKeepsLead(plan, env, k1, h))
            && (LeadKept(plan, k1.order, OneTurn(plan, env, k1).k.order, h) <==> r >= |k.order| || IsLight(At(plan, k, r)))
  {
    DeferredLight(plan, env, k);
    SwapKeeps(plan, k, k.next + 1);
    FrontPullKeepsLead(plan, k);
    CallKeepsLeadUnfolds(plan, env, k, Swap(k, k.next + 1), k.order[k.next]);
    DeferringTurn(plan, env, k, Swap(k, k.next + 1));
  }

  lemma {:induction false} FrontPullKeepsLead(plan: Plan, k: Kick)
    requires Shape(plan, k) && k.next + 1 < |k.order| && IsLight(At(plan, k, k.next + 1))
    ensures LeadKept(plan, k.order, Swap(k, k.next + 1).order, k.order[k.next])
  {
    SwapKeepsLeadIff(plan, k.order, k.next, k.next + 1, k.next);
    assert Swap(k, k.next + 1).order == SwapOrder(k.order, k.next, k.next + 1);
  }

  lemma {:induction false} DeferringTurn(plan: Plan, env: Env, k: Kick, t: Kick)
    requires Shape(plan, k) && Shape(plan, t) && k.next + 1 < |k.order| && t == Swap(k, k.next + 1)
    requires var r := PullPlace(plan, env, t); r > k.next + 1 && (r < |k.order| ==> At(plan, t, r) == At(plan, k, r))
    ensures var r := PullPlace(plan, env, t);
            LeadKept(plan, t.order, OneTurn(plan, env, t).k.order, k.order[k.next]) <==> r >= |k.order| || IsLight(At(plan, k, r))
  {
    TurnKeepsLeadIff(plan, env, t, k.next + 1);
  }

  /** A deferred light pack leaves the lead alone exactly if a light pack, or none, comes forward, and what follows does. */
  lemma {:induction false} PostponedKeepsLead(plan: Plan, env: Env, k: Kick)
    requires GoodPlan(plan) && Shape(plan, k) && Counted(plan, k) && BlockedB10(plan, env, k)
    requires k.next + 1 < |k.order| && IsLight(At(plan, k, k.next + 1)) && k.activeLight < plan.maxLight
    requires DepUnmet(plan, env, k, k.next + 1)
    ensures var h, r := k.order[k.next], ReadyPlace(plan, env, k);
            && k.next + 1 < r
            && (r >= |k.order| ==> CallKeepsLead(plan, env, k, h))
            && (r < |k.order| && !IsLight(At(plan, k, r)) ==> !CallKeepsLead(plan, env, k, h))
            && (r < |k.order| && IsLight(At(plan, k, r)) ==>
                  CanPump(plan, Postponed(k, r)) && (CallKeepsLead(plan, env, k, h) <==> CallKeepsLead(plan, env, Postponed(k, r), h)))
  {
    DeferredLight(plan, env, k);
    DeferralKeepsLeadIff(plan, env, k);
    var r := ReadyPlace(plan, env, k);
    if r < |k.order| && IsLight(At(plan, k, r)) {
      PostponedKeeps(plan, env, k);
      FrontLightKeepsLead(plan, env, Postponed(k, r));
      LeadJoins(plan, env, Swap(k, k.next + 1), Postponed(k, r), Swap(Postponed(k, r), k.next + 1), k.order[k.next]);
    }
  }

  /**
   Place by place behind a blocked B10 head: with a free slot, the first pack is light or no light pack follows at all;
   and a light pack that has to be deferred gives way to a light one, or to none.
   */
  ghost predicate LightsClear(plan: Plan, env: Env, k: Kick)
    requires GoodPlan(plan) && CanPump(plan, k)
    decreases |k.order| - k.next, Untried(plan, k)
  {
    var n := k.next;
    if n + 1 >= |k.order| || k.activeLight >= plan.maxLight then true
    else if !IsLight(At(plan, k, n + 1)) then forall i :: n < i < |k.order| ==> !IsLight(At(plan, k, i))
    else if !DepUnmet(plan, env, k, n + 1) then LightsClear(plan, env, AfterLight(plan, k))
    else
      var r := ReadyPlace(plan, env, k);
      if n + 1 < r < |k.order| then
        var t := Postponed(k, r);
        assert k.order[n + 1] in Untried(plan, k) && k.order[n + 1] !in Untried(plan, t);
        IsLight(At(plan, k, r)) && LightsClear(plan, env, t)
      else true
  }

  /** In the whole pump call every turn leaves a blocked B10 head in front of every exclusive pack it preceded if and only if the light packs clear. */
  lemma {:induction false} BlockedB10CallIff(plan: Plan, env: Env, k: Kick)
    requires GoodPlan(plan) && Shape(plan, k) && Counted(plan, k) && BlockedB10(plan, env, k)
    ensures CallKeepsLead(plan, env, k, k.order[k.next]) <==> LightsClear(plan, env, k)
    decreases |k.order| - k.next, Untried(plan, k)
  {
    var n := k.next;
    var j := First(plan, env, k, AheadOfBlocked(true), n + 1);
    SearchFindsLight(plan, env, k);
    BlockedB10TurnIff(plan, env, k);
    if n + 1 < |k.order| && k.activeLight < plan.maxLight && IsLight(At(plan, k, n + 1)) {
      if !DepUnmet(plan, env, k, n + 1) {
        AfterLightKeepsLead(plan, env, k);
        AfterLightKeepsBlocked(plan, env, k);
        LightGoesFirst(plan, env, k);
        AfterLightEffect(plan, env, k);
        BlockedB10CallIff(plan, env, AfterLight(plan, k));
      } else {
        PostponedKeepsLead(plan, env, k);
        var r := ReadyPlace(plan, env, k);
        if r < |k.order| && IsLight(At(plan, k, r)) {
          PostponedKeeps(plan, env, k);
          BlockedB10CallIff(plan, env, Postponed(k, r));
        }
      }
    }
  }

  /**
   When none of the light packs right behind the head that get a slot has to be deferred: they clear if and only if they
   use up the free slots or no light pack stands behind an exclusive one.
   */
  lemma {:induction false} LightsClearIff(plan: Plan, env: Env, k: Kick)
    requires GoodPlan(plan) && Shape(plan, k) && Counted(plan, k) && BlockedB10(plan, env, k) && LightsReady(plan, env, k)
    ensures LightsClear(plan, env, k) <==> LightsFirst(plan, k)
    decreases |k.order| - k.next
  {
    var n := k.next;
    if n + 1 < |k.order| && k.activeLight < plan.maxLight && IsLight(At(plan, k, n + 1)) {
      assert FirstExclusive(plan, k, n + 1) > n + 1;
      AfterLightKeepsBlocked(plan, env, k);
      LightGoesFirst(plan, env, k);
      AfterLightEffect(plan, env, k);
      LightsClearIff(plan, env, AfterLight(plan, k));
    }
  }

  // ---------------------------------------------------------------- an exclusive pack launched first

  /** The pack is among those launched. */
  ghost predicate Launched(k: Kick, y: nat) {
    exists i :: 0 <= i < k.next && i < |k.order| && k.order[i] == y
  }

  /** It stands at or behind the head. */
  ghost predicate Ahead(k: Kick, y: nat) {
    exists i :: k.next <= i < |k.order| && k.order[i] == y
  }

  ghost predicate Busy(plan: Plan, k: Kick, h: nat) {
    h < |plan.table| && exists c :: c in plan.table[h].classes && c != Light && Count(k.active, c) >= 1
  }

  lemma {:induction false} LaunchKeepsBusy(plan: Plan, k: Kick, h: nat)
    requires GoodPlan(plan) && CanPump(plan, k) && k.next < |k.order| && Busy(plan, k, h)
    ensures Busy(plan, Launch(plan, k), h)
  {
    var c :| c in plan.table[h].classes && c != Light && Count(k.active, c) >= 1;
    MarkCounts(k.active, At(plan, k, k.next).classes, 1, c);
    assert Count(Launch(plan, k).active, c) >= 1;
  }

  lemma {:induction false} SwapKeepsAhead(k: Kick, j: nat, h: nat)
    requires k.next < j < |k.order| && Ahead(k, h)
    ensures Ahead(Swap(k, j), h)
  {
    var i :| k.next <= i < |k.order| && k.order[i] == h;
    assert Swap(k, j).order[Moved(k.next, j, i)] == h;
  }

  lemma {:induction false} TurnCases(plan: Plan, env: Env, k: Kick)
    requires CanPump(plan, k) && k.next < |k.order|
    ensures var t := OneTurn(plan, env, k).k; (t.next == k.next && t.active == k.active) || t == Launch(plan, k)
  {
  }

  /** A head with a busy class waits. */
  lemma {:induction false} BusyHeadIsNotLaunched(plan: Plan, env: Env, k: Kick, h: nat)
    requires GoodPlan(plan) && CanPump(plan, k) && k.next < |k.order| && Busy(plan, k, h)
    ensures k.order[k.next] == h ==> OneTurn(plan, env, k).k.next == k.next
  {
    var c :| c in plan.table[h].classes && c != Light && Count(k.active, c) >= 1;
    var d :| 0 <= d < |plan.table[h].classes| && plan.table[h].classes[d] == c;
    assert !ClassesFree(k.active, plan.table[h].classes);
    assert !IsLight(plan.table[h]);
  }

  /** What a turn does, as far as a busy pack is concerned. */
  lemma {:induction false} TurnKeepsBusyAhead(plan: Plan, env: Env, k: Kick, h: nat)
    requires GoodPlan(plan) && CanPump(plan, k) && k.next < |k.order| && Ahead(k, h) && Busy(plan, k, h)
    ensures Ahead(OneTurn(plan, env, k).k, h) && Busy(plan, OneTurn(plan, env, k).k, h)
  {
    var t := OneTurn(plan, env, k).k;
    TurnOrder(plan, env, k);
    TurnCases(plan, env, k);
    BusyHeadIsNotLaunched(plan, env, k, h);
    if t.next == k.next {
      var j := PullPlace(plan, env, k);
      if j < |k.order| {
        SwapKeepsAhead(k, j, h);
        assert t.order == Swap(k, j).order;
      } else {
        assert t.order == k.order;
      }
    } else {
      LaunchKeepsBusy(plan, k, h);
      var i :| k.next <= i < |k.order| && k.order[i] == h;
      assert t.order[i] == h;
    }
  }

  /** A pack with a busy class is not launched by a pump call. */
  lemma {:induction false} BusyIsNotLaunched(plan: Plan, env: Env, k: Kick, h: nat)
    requires GoodPlan(plan) && Shape(plan, k) && Counted(plan, k) && Ahead(k, h) && Busy(plan, k, h)
    ensures Ahead(Loop(plan, env, k), h)
    decreases |k.order| - k.next, Untried(plan, k), HeadBlocked(plan, env, k)
  {
    if k.next < |k.order| {
      TurnKeepsBusyAhead(plan, env, k, h);
      TurnKeeps(plan, env, k);
      match OneTurn(plan, env, k)
      case Stop(t) =>
      case Go(t) =>
        TurnProgress(plan, env, k);
        BusyIsNotLaunched(plan, env, t, h);
    }
  }

  lemma {:induction false} BlockedIsBusy(plan: Plan, env: Env, k: Kick)
    requires CanPump(plan, k) && BlockedB10(plan, env, k)
    ensures Ahead(k, k.order[k.next]) && Busy(plan, k, k.order[k.next])
  {
    var p := At(plan, k, k.next);
    var i :| 0 <= i < |p.classes| && p.classes[i] != Light && Count(k.active, p.classes[i]) >= 1;
    assert p.classes[i] in plan.table[k.order[k.next]].classes;
    assert k.order[k.next] == k.order[k.next];
  }

  /** The displaced case with the exclusive pack x right behind the head and the first light pack at place j. */
  lemma {:induction false} OvertakenAtOnce(plan: Plan, env: Env, k: Kick, j: nat)
    requires GoodPlan(plan) && Shape(plan, k) && Counted(plan, k) && BlockedB10(plan, env, k)
    requires k.next + 1 < j < |k.order| && IsLight(At(plan, k, j)) && Launchable(plan, env, k, j)
    requires forall i :: k.next < i < j ==> !IsLight(At(plan, k, i))
    requires Launchable(plan, env, k, k.next + 1)
    ensures Launched(Loop(plan, env, k), k.order[k.next + 1])
  {
    var n := k.next;
    var k1 := Swap(k, j);
    SearchFindsLight(plan, env, k);
    var f := First(plan, env, k, AheadOfBlocked(true), n + 1);
    assert Candidate(plan, env, k, AheadOfBlocked(true), j);
    assert f == j && OneTurn(plan, env, k) == Go(k1);
    SwapKeeps(plan, k, j);
    SwapKeepsLaunchable(plan, env, k, j, k1, n);
    SwapKeepsLaunchable(plan, env, k, n + 1, k1, n + 1);
    LaunchTwo(plan, env, k1);
    LoopKeepsPrefix(plan, env, Launch(plan, Launch(plan, k1)));
    var t := Loop(plan, env, k);
    assert t.order[n + 1] == t.order[..n + 2][n + 1] == k.order[n + 1];
  }

  /**
   The exclusive pack y gets in front of the blocked B10 head and could run: it stands right behind the head when a light
   pack behind it is pulled forward, or it is the ready pack that a deferred light pack gives way to.
   */
  ghost predicate Overtakes(plan: Plan, env: Env, k: Kick, y: nat)
    requires GoodPlan(plan) && CanPump(plan, k)
    decreases |k.order| - k.next, Untried(plan, k)
  {
    var n := k.next;
    if n + 1 >= |k.order| || k.activeLight >= plan.maxLight then false
    else if !IsLight(At(plan, k, n + 1)) then
      && y == k.order[n + 1] && Launchable(plan, env, k, n + 1)
      && exists j :: n + 1 < j < |k.order| && FirstLight(plan, k, j) && !DepUnmet(plan, env, k, j)
    else if !DepUnmet(plan, env, k, n + 1) then Overtakes(plan, env, AfterLight(plan, k), y)
    else
      var r := ReadyPlace(plan, env, k);
      if n + 1 < r < |k.order| then
        var t := Postponed(k, r);
        assert k.order[n + 1] in Untried(plan, k) && k.order[n + 1] !in Untried(plan, t);
        if IsLight(At(plan, k, r)) then Overtakes(plan, env, t, y)
        else y == k.order[r] && !MustDefer(env, At(plan, k, r).id, At(plan, k, r).exclusiveLane)
      else false
  }

  ghost predicate FirstLight(plan: Plan, k: Kick, j: nat)
    requires CanPump(plan, k) && j < |k.order|
  {
    IsLight(At(plan, k, j)) && forall i :: k.next < i < j ==> !IsLight(At(plan, k, i))
  }

  /** The ready exclusive pack comes to the head and can run. */
  lemma {:induction false} ReadyComesForward(plan: Plan, env: Env, k: Kick)
    requires GoodPlan(plan) && Shape(plan, k) && Counted(plan, k) && BlockedB10(plan, env, k)
    requires k.next + 1 < |k.order| && IsLight(At(plan, k, k.next + 1)) && k.activeLight < plan.maxLight
    requires DepUnmet(plan, env, k, k.next + 1)
    requires var r := ReadyPlace(plan, env, k);
             r < |k.order| && !IsLight(At(plan, k, r)) && !MustDefer(env, At(plan, k, r).id, At(plan, k, r).exclusiveLane)
    ensures k.next + 1 < ReadyPlace(plan, env, k)
    ensures var r := ReadyPlace(plan, env, k); var t := Swap(Postponed(k, r), k.next + 1);
            && CanPump(plan, t) && Launchable(plan, env, t, k.next) && t.order[k.next] == k.order[r]
            && OneTurn(plan, env, Swap(k, k.next + 1)) == Go(t)
  {
    DeferredLight(plan, env, k);
    var n, r, k1 := k.next, ReadyPlace(plan, env, k), Swap(k, k.next + 1);
    var d := k1.(tried := k1.tried + {k1.order[n]});
    var k2 := Swap(Postponed(k, r), n + 1);
    SameUnmet(plan, env, k, n + 1, k1, n);
    assert Candidate(plan, env, d, ReadyPack, r);
    assert k2.order[..n] == d.order[..n] == k.order[..n];
    SameUnmet(plan, env, d, r, k2, n);
    assert At(plan, k2, n) == At(plan, k, r);
  }

  lemma {:induction false} OvertakenByReady(plan: Plan, env: Env, k: Kick)
    requires GoodPlan(plan) && Shape(plan, k) && Counted(plan, k) && BlockedB10(plan, env, k)
    requires k.next + 1 < |k.order| && IsLight(At(plan, k, k.next + 1)) && k.activeLight < plan.maxLight
    requires DepUnmet(plan, env, k, k.next + 1)
    requires var r := ReadyPlace(plan, env, k);
             r < |k.order| && !IsLight(At(plan, k, r)) && !MustDefer(env, At(plan, k, r).id, At(plan, k, r).exclusiveLane)
    ensures k.next + 1 < ReadyPlace(plan, env, k)
    ensures Launched(Loop(plan, env, k), k.order[ReadyPlace(plan, env, k)])
  {
    DeferredLight(plan, env, k);
    ReadyComesForward(plan, env, k);
    var n, k1 := k.next, Swap(k, k.next + 1);
    SwapKeeps(plan, k, n + 1);
    TurnKeeps(plan, env, k1);
    LoopUnfolds(plan, env, k, k1);
    LoopUnfolds(plan, env, k1, Swap(Postponed(k, ReadyPlace(plan, env, k)), n + 1));
    HeadIsLaunched(plan, env, Swap(Postponed(k, ReadyPlace(plan, env, k)), n + 1));
  }

  lemma {:induction false} LoopUnfolds(plan: Plan, env: Env, k: Kick, t: Kick)
    requires GoodPlan(plan) && CanPump(plan, k) && k.next < |k.order| && OneTurn(plan, env, k) == Go(t) && CanPump(plan, t)
    ensures Loop(plan, env, k) == Loop(plan, env, t)
  {
  }

  lemma {:induction false} HeadIsLaunched(plan: Plan, env: Env, k: Kick)
    requires GoodPlan(plan) && Shape(plan, k) && Counted(plan, k) && k.next < |k.order| && Launchable(plan, env, k, k.next)
    ensures Launched(Loop(plan, env, k), k.order[k.next])
  {
    LaunchableLaunches(plan, env, k);
    AfterLaunch(plan, env, k, Launch(plan, k));
  }

  lemma {:induction false} AfterLaunch(plan: Plan, env: Env, k: Kick, t: Kick)
    requires GoodPlan(plan) && Shape(plan, t) && Counted(plan, t)
    requires k.next < |k.order| && t.order == k.order && t.next == k.next + 1
    ensures Launched(Loop(plan, env, t), k.order[k.next])
  {
    LoopKeepsPrefix(plan, env, t);
    PrefixIsLaunched(Loop(plan, env, t), k);
  }

  lemma {:induction false} PrefixIsLaunched(t: Kick, k: Kick)
    requires k.next < |k.order| == |t.order| && t.next > k.next && t.order[..k.next + 1] == k.order[..k.next + 1]
    ensures Launched(t, k.order[k.next])
  {
    assert t.order[k.next] == t.order[..k.next + 1][k.next] == k.order[..k.next + 1][k.next];
  }

  lemma {:induction false} PostponedLoops(plan: Plan, env: Env, k: Kick)
    requires GoodPlan(plan) && Shape(plan, k) && Counted(plan, k) && BlockedB10(plan, env, k)
    requires k.next + 1 < |k.order| && IsLight(At(plan, k, k.next + 1)) && k.activeLight < plan.maxLight
    requires DepUnmet(plan, env, k, k.next + 1)
    requires ReadyPlace(plan, env, k) < |k.order| && IsLight(At(plan, k, ReadyPlace(plan, env, k)))
    ensures k.next + 1 < ReadyPlace(plan, env, k)
    ensures var t := Postponed(k, ReadyPlace(plan, env, k)); CanPump(plan, t) && Loop(plan, env, k) == Loop(plan, env, t)
  {
    DeferredLight(plan, env, k);
    PostponedKeeps(plan, env, k);
    var t := Postponed(k, ReadyPlace(plan, env, k));
    LightGoesFirst(plan, env, t);
    LoopUnfolds(plan, env, k, Swap(k, k.next + 1));
    LoopUnfolds(plan, env, Swap(k, k.next + 1), Swap(t, t.next + 1));
    LoopUnfolds(plan, env, t, Swap(t, t.next + 1));
  }

  lemma {:induction false} OvertakerLaunched(plan: Plan, env: Env, k: Kick, y: nat)
    requires GoodPlan(plan) && Shape(plan, k) && Counted(plan, k) && BlockedB10(plan, env, k) && Overtakes(plan, env, k, y)
    ensures Launched(Loop(plan, env, k), y)
    decreases |k.order| - k.next, Untried(plan, k)
  {
    var n := k.next;
    if !IsLight(At(plan, k, n + 1)) {
      var j :| n + 1 < j < |k.order| && FirstLight(plan, k, j) && !DepUnmet(plan, env, k, j);
      OvertakenAtOnce(plan, env, k, j);
    } else if !DepUnmet(plan, env, k, n + 1) {
      AfterLightLoops(plan, env, k);
      AfterLightKeepsBlocked(plan, env, k);
      LightGoesFirst(plan, env, k);
      OvertakerLaunched(plan, env, AfterLight(plan, k), y);
    } else if IsLight(At(plan, k, ReadyPlace(plan, env, k))) {
      PostponedLoops(plan, env, k);
      PostponedKeeps(plan, env, k);
      OvertakerLaunched(plan, env, Postponed(k, ReadyPlace(plan, env, k)), y);
    } else {
      OvertakenByReady(plan, env, k);
    }
  }

  /** A pack that overtakes the blocked B10 head is launched in the same call, and the B10 pack is not. */
  lemma {:induction false} OvertakenB10(plan: Plan, env: Env, k: Kick, y: nat)
    requires GoodPlan(plan) && Shape(plan, k) && Counted(plan, k) && BlockedB10(plan, env, k) && Overtakes(plan, env, k, y)
    ensures var t := Loop(plan, env, k); Launched(t, y) && Ahead(t, k.order[k.next])
  {
    BlockedIsBusy(plan, env, k);
    BusyIsNotLaunched(plan, env, k, k.order[k.next]);
    OvertakerLaunched(plan, env, k, y);
  }

  function Named(id: string, classes: seq<Class>): Pack {
    Pack(id, id, classes, classes != [Light], [])
  }

  /** Both names of the primary residual, a bootstrap pack on a class of its own, and a light pack. */
  function RacePlan(): (plan: Plan)
    ensures GoodPlan(plan) && |plan.table| == 4 && plan.table[1].id == "mid.curves" && plan.table[2].id == "B2_hardware"
  {
    Plan([Named("B10_hw_curves", [Gpu]), Named("mid.curves", [Gpu]), Named("B2_hardware", [Cpu]), Named("B9_light", [Light])], 2)
  }

  /** The kick after the first pack was launched. */
  ghost function RaceHead(): Kick {
    Kick([0, 1, 2, 3], 1, 0, map[Gpu := 1], 4, {}, false, false, [Unset, Unset, Unset, Unset], {0})
  }

  lemma {:induction false} RaceStarts(env: Env)
    requires env == Env({}, true, false)
    ensures GoodPlan(RacePlan()) && Start(RacePlan(), env) == Loop(RacePlan(), env, RaceHead())
    ensures Shape(RacePlan(), RaceHead()) && Counted(RacePlan(), RaceHead())
  {
    var plan := RacePlan();
    var k := Fresh(plan);
    FreshIsShaped(plan);
    assert k.order == [0, 1, 2, 3] && k.results == [Unset, Unset, Unset, Unset];
    assert At(plan, k, 0).id == "B10_hw_curves";
    assert Launchable(plan, env, k, 0);
    LaunchableLaunches(plan, env, k);
    assert Mark(map[], [Gpu], 1) == map[Gpu := 1];
    assert Launch(plan, k) == RaceHead();
  }

  lemma {:induction false} RaceOvertakes(env: Env)
    requires env == Env({}, true, false)
    ensures GoodPlan(RacePlan()) && CanPump(RacePlan(), RaceHead())
    ensures BlockedB10(RacePlan(), env, RaceHead()) && Overtakes(RacePlan(), env, RaceHead(), 2)
  {
    var plan, k := RacePlan(), RaceHead();
    assert At(plan, k, 1).id == "mid.curves" && At(plan, k, 2).id == "B2_hardware" && At(plan, k, 3).id == "B9_light";
    assert FirstLight(plan, k, 3) && Launchable(plan, env, k, 2);
  }

  /** Starting this kick launches the bootstrap pack while the second B10 pack, which preceded it, is left waiting. */
  lemma {:induction false} B10OvertakenFromStart()
    ensures var plan, t := RacePlan(), Start(RacePlan(), Env({}, true, false));
            GoodPlan(plan) && Launched(t, 2) && Ahead(t, 1) && plan.table[1].id == "mid.curves" && plan.table[2].id == "B2_hardware"
  {
    var env := Env({}, true, false);
    RaceStarts(env);
    RaceOvertakes(env);
    OvertakenB10(RacePlan(), env, RaceHead(), 2);
  }
}
