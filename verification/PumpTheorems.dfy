/**
 What the pump keeps and what it achieves: the accounting invariant over every run of kickAll,
 the exact condition under which a pump call stalls, and completion of the kick.
 */
module PumpTheorems {
  import opened ResourceClasses
  import opened Pump

  // ---------------------------------------------------------------- the accounting invariant

  ghost function Touching(plan: Plan, k: Kick, c: Class): set<nat>
    requires CanPump(plan, k) && forall i :: i in k.running ==> i < k.next
  {
    set i | i in k.running && c in At(plan, k, i).classes
  }

  ghost predicate Shape(plan: Plan, k: Kick) {
    && CanPump(plan, k)
    && |k.order| == |plan.table| == |k.results|
    && (forall i, j :: 0 <= i < j < |k.order| ==> k.order[i] != k.order[j])
    && (forall i :: i in k.running ==> i < k.next)
    && (forall i :: 0 <= i < |k.order| ==> (k.results[i] == Unset <==> i >= k.next || i in k.running))
    && k.pending == |k.order| - k.next + |k.running|
  }

  /** The counter of a class equals the number of running packs it stands for: at most maxLight for light, else at most one. */
  ghost predicate CountedAt(plan: Plan, k: Kick, c: Class)
    requires CanPump(plan, k) && forall i :: i in k.running ==> i < k.next
  {
    if c == Light then k.activeLight == |Touching(plan, k, c)| <= plan.maxLight
    else Count(k.active, c) == |Touching(plan, k, c)| <= 1
  }

  ghost predicate Counted(plan: Plan, k: Kick)
    requires CanPump(plan, k) && forall i :: i in k.running ==> i < k.next
  {
    forall c :: CountedAt(plan, k, c)
  }

  ghost predicate Inv(plan: Plan, k: Kick) {
    GoodPlan(plan) && Shape(plan, k) && Counted(plan, k) && (k.resolved <==> k.pending == 0)
  }

  lemma {:induction false} MarkCounts(active: map<Class, int>, classes: seq<Class>, delta: int, c: Class)
    requires forall i, j :: 0 <= i < j < |classes| ==> classes[i] != classes[j]
    ensures Count(Mark(active, classes, delta), c)
         == if c == Light || c !in classes then Count(active, c)
            else if Count(active, c) + delta < 0 then 0 else Count(active, c) + delta
    decreases |classes|
  {
    if classes != [] {
      var n := Count(active, classes[0]) + delta;
      MarkCounts(if classes[0] == Light then active else active[classes[0] := if n < 0 then 0 else n], classes[1..], delta, c);
      assert classes[0] !in classes[1..];
      assert c in classes <==> c == classes[0] || c in classes[1..];
    }
  }

  /** What a pump call may change: it permutes what lies behind the launched prefix, launches, and no more. */
  ghost predicate Pumped(k: Kick, t: Kick) {
    && |t.order| == |k.order| && k.next <= t.next <= |t.order|
    && t.order[..k.next] == k.order[..k.next]
    && multiset(t.order) == multiset(k.order)
    && (forall i :: i in t.running <==> i in k.running || k.next <= i < t.next)
    && t.results == k.results && t.pending == k.pending && t.resolved == k.resolved
    && k.tried <= t.tried && (k.timer ==> t.timer)
  }

  lemma PumpedTransitive(k: Kick, t: Kick, u: Kick)
    requires k.next <= |k.order| && Pumped(k, t) && Pumped(t, u)
    ensures Pumped(k, u)
  {
    assert u.order[..k.next] == u.order[..t.next][..k.next] == t.order[..t.next][..k.next] == t.order[..k.next];
  }

  lemma SameRunningCounted(plan: Plan, k: Kick, t: Kick)
    requires Shape(plan, k) && Counted(plan, k)
    requires CanPump(plan, t) && k.next <= t.next && t.order[..k.next] == k.order[..k.next]
    requires t.running == k.running && t.activeLight == k.activeLight && t.active == k.active
    ensures Counted(plan, t)
  {
    forall c ensures CountedAt(plan, t, c) {
      assert CountedAt(plan, k, c);
      assert forall i :: i in k.running ==> t.order[..k.next][i] == k.order[..k.next][i];
      assert Touching(plan, t, c) == Touching(plan, k, c);
    }
  }

  lemma SwapKeeps(plan: Plan, k: Kick, j: nat)
    requires Shape(plan, k) && Counted(plan, k) && k.next < j < |k.order|
    ensures Shape(plan, Swap(k, j)) && Counted(plan, Swap(k, j)) && Pumped(k, Swap(k, j))
  {
    var t := Swap(k, j);
    assert t.order[..k.next] == k.order[..k.next];
    SameRunningCounted(plan, k, t);
  }

  lemma AddOne(s: set<nat>, i: nat)
    requires i !in s
    ensures |s + {i}| == |s| + 1
  {
  }

  lemma TouchingAfterLaunch(plan: Plan, k: Kick, c: Class)
    requires GoodPlan(plan) && Shape(plan, k) && k.next < |k.order|
    ensures Touching(plan, Launch(plan, k), c)
         == Touching(plan, k, c) + if c in At(plan, k, k.next).classes then {k.next} else {}
  {
  }

  lemma LaunchKeepsShape(plan: Plan, k: Kick)
    requires Shape(plan, k) && k.next < |k.order|
    ensures Shape(plan, Launch(plan, k))
  {
    AddOne(k.running, k.next);
  }

  lemma LaunchPumps(plan: Plan, k: Kick)
    requires CanPump(plan, k) && k.next < |k.order|
    ensures Pumped(k, Launch(plan, k))
  {
  }

  lemma LaunchCounts(plan: Plan, k: Kick, c: Class)
    requires GoodPlan(plan) && Shape(plan, k) && k.next < |k.order| && CountedAt(plan, k, c)
    requires var p := At(plan, k, k.next);
             if IsLight(p) then k.activeLight < plan.maxLight else ClassesFree(k.active, p.classes)
    ensures CountedAt(plan, Launch(plan, k), c)
  {
    var p := At(plan, k, k.next);
    TouchingAfterLaunch(plan, k, c);
    if c in p.classes {
      var i :| 0 <= i < |p.classes| && p.classes[i] == c;
      AddOne(Touching(plan, k, c), k.next);
    } else {
      assert Touching(plan, k, c) + {} == Touching(plan, k, c);
    }
    MarkCounts(k.active, p.classes, 1, c);
  }

  lemma LaunchKeepsCounted(plan: Plan, k: Kick)
    requires GoodPlan(plan) && Shape(plan, k) && Counted(plan, k) && k.next < |k.order|
    requires var p := At(plan, k, k.next);
             if IsLight(p) then k.activeLight < plan.maxLight else ClassesFree(k.active, p.classes)
    ensures Counted(plan, Launch(plan, k))
  {
    forall c ensures CountedAt(plan, Launch(plan, k), c) {
      LaunchCounts(plan, k, c);
    }
  }

  lemma PullCases(plan: Plan, env: Env, k: Kick, search: Search, otherwise: Kick) returns (j: nat)
    requires CanPump(plan, k) && k.next < |k.order|
    ensures k.next < j <= |k.order|
    ensures Pull(plan, env, k, search, otherwise).k == if j == |k.order| then otherwise else Swap(k, j)
  {
    j := First(plan, env, k, search, k.next + 1);
  }

  lemma PullKeeps(plan: Plan, env: Env, k: Kick, search: Search, otherwise: Kick)
    requires Shape(plan, k) && Counted(plan, k) && k.next < |k.order|
    requires Shape(plan, otherwise) && Counted(plan, otherwise) && Pumped(k, otherwise)
    ensures var t := Pull(plan, env, k, search, otherwise).k; Shape(plan, t) && Counted(plan, t) && Pumped(k, t)
  {
    var j := PullCases(plan, env, k, search, otherwise);
    if j < |k.order| { SwapKeeps(plan, k, j); }
  }

  lemma TurnKeeps(plan: Plan, env: Env, k: Kick)
    requires GoodPlan(plan) && Shape(plan, k) && Counted(plan, k) && k.next < |k.order|
    ensures var t := OneTurn(plan, env, k).k; Shape(plan, t) && Counted(plan, t) && Pumped(k, t)
  {
    var p := At(plan, k, k.next);
    TriedTimerKeep(plan, k, k);
    if DepUnmet(plan, env, k, k.next) {
      var k1 := k.(tried := k.tried + {k.order[k.next]});
      TriedTimerKeep(plan, k, k1);
      TriedTimerKeep(plan, k1, k1);
      PullKeeps(plan, env, k1, ReadyPack, k1);
      PumpedTransitive(k, k1, Pull(plan, env, k1, ReadyPack, k1).k);
    } else if !IsLight(p) && MustDefer(env, p.id, p.exclusiveLane) {
      PullKeeps(plan, env, k, AllowedPack, k);
    } else if !IsLight(p) && !ClassesFree(k.active, p.classes) {
      TriedTimerKeep(plan, k, k.(timer := true));
      PullKeeps(plan, env, k, AheadOfBlocked(IsB10(p.id)), k.(timer := true));
    } else if !IsLight(p) || k.activeLight < plan.maxLight {
      LaunchKeepsShape(plan, k);
      LaunchKeepsCounted(plan, k);
      LaunchPumps(plan, k);
    }
  }

  lemma TriedTimerKeep(plan: Plan, k: Kick, t: Kick)
    requires Shape(plan, k) && Counted(plan, k)
    requires t == k.(tried := t.tried, timer := t.timer) && k.tried <= t.tried && (k.timer ==> t.timer)
    ensures Shape(plan, t) && Counted(plan, t) && Pumped(k, t)
  {
    SameRunningCounted(plan, k, t);
  }

  lemma {:induction false} LoopKeeps(plan: Plan, env: Env, k: Kick)
    requires GoodPlan(plan) && Shape(plan, k) && Counted(plan, k)
    ensures var t := Loop(plan, env, k); Shape(plan, t) && Counted(plan, t) && Pumped(k, t)
    decreases |k.order| - k.next, Untried(plan, k), HeadBlocked(plan, env, k)
  {
    if k.next == |k.order| {
      TriedTimerKeep(plan, k, k);
    } else {
      TurnKeeps(plan, env, k);
      if OneTurn(plan, env, k).Go? {
        var t := OneTurn(plan, env, k).k;
        TurnProgress(plan, env, k);
        LoopKeeps(plan, env, t);
        PumpedTransitive(k, t, Loop(plan, env, t));
      }
    }
  }

  // ---------------------------------------------------------------- callbacks keep the invariant

  /** Running packs show up in the counters, so the halt branch of a pump call finds everything settled. */
  lemma CountersSeeRunning(plan: Plan, k: Kick, i: nat)
    requires GoodPlan(plan) && Shape(plan, k) && Counted(plan, k) && i in k.running
    ensures k.activeLight > 0 || Busy(k.active) > 0
  {
    var p := At(plan, k, i);
    var c := p.classes[0];
    assert i in Touching(plan, k, c);
    assert CountedAt(plan, k, c);
    assert forall d :: d != Light ==> CountedAt(plan, k, d) && Count(k.active, d) >= 0;
    assert Count(k.active, Gpu) >= 0 && Count(k.active, Audio) >= 0 && Count(k.active, Rtc) >= 0;
    assert Count(k.active, Cpu) >= 0 && Count(k.active, Nest) >= 0 && Count(k.active, Verify) >= 0;
  }

  lemma PumpCallKeepsInv(plan: Plan, env: Env, k: Kick)
    requires GoodPlan(plan) && Shape(plan, k) && Counted(plan, k) && (k.pending == 0 ==> k.resolved) && (k.resolved ==> k.pending == 0)
    ensures Inv(plan, PumpCall(plan, env, k)) && Pumped(k, PumpCall(plan, env, k))
  {
    if env.halted && k.activeLight == 0 && Busy(k.active) == 0 && k.next >= |k.order| {
      if k.running != {} {
        var i :| i in k.running;
        CountersSeeRunning(plan, k, i);
      }
      TriedTimerKeep(plan, k, k);
      assert PumpCall(plan, env, k) == k;
    } else {
      LoopKeeps(plan, env, k);
    }
  }

  lemma RemoveOne(s: set<nat>, i: nat)
    requires i in s
    ensures |s - {i}| == |s| - 1
  {
  }

  lemma FreeKeepsShape(plan: Plan, k: Kick, slot: nat, r: Slot)
    requires Shape(plan, k) && slot in k.running && r != Unset
    ensures Shape(plan, Free(plan, k, slot, r))
  {
    RemoveOne(k.running, slot);
  }

  lemma TouchingAfterFree(plan: Plan, k: Kick, slot: nat, r: Slot, c: Class)
    requires Shape(plan, k) && slot in k.running
    ensures Touching(plan, Free(plan, k, slot, r), c) == Touching(plan, k, c) - {slot}
  {
  }

  lemma FreeCounts(plan: Plan, k: Kick, slot: nat, r: Slot, c: Class)
    requires GoodPlan(plan) && Shape(plan, k) && slot in k.running && CountedAt(plan, k, c)
    ensures CountedAt(plan, Free(plan, k, slot, r), c)
  {
    var p := At(plan, k, slot);
    MarkCounts(k.active, p.classes, -1, c);
    TouchingAfterFree(plan, k, slot, r, c);
    if c in p.classes {
      RemoveOne(Touching(plan, k, c), slot);
    } else {
      assert Touching(plan, k, c) - {slot} == Touching(plan, k, c);
    }
  }

  lemma FreeKeepsCounted(plan: Plan, k: Kick, slot: nat, r: Slot)
    requires GoodPlan(plan) && Shape(plan, k) && Counted(plan, k) && slot in k.running
    ensures Counted(plan, Free(plan, k, slot, r))
  {
    forall c ensures CountedAt(plan, Free(plan, k, slot, r), c) {
      FreeCounts(plan, k, slot, r, c);
    }
  }

  lemma CompleteKeepsInv(plan: Plan, env: Env, k: Kick, slot: nat, r: Slot)
    requires Inv(plan, k) && slot in k.running && r != Unset
    ensures var t := Complete(plan, env, k, slot, r);
            && Inv(plan, t) && t.pending == k.pending - 1
            && t.results == k.results[slot := r]
            && t.order[..k.next] == k.order[..k.next] && multiset(t.order) == multiset(k.order)
  {
    RemoveOne(k.running, slot);
    FreeKeepsShape(plan, k, slot, r);
    FreeKeepsCounted(plan, k, slot, r);
    var k1 := Free(plan, k, slot, r);
    if k1.pending > 0 {
      PumpCallKeepsInv(plan, env, k1);
    } else {
      SameRunningCounted(plan, k1, k1.(resolved := true));
    }
  }

  lemma TimerKeepsInv(plan: Plan, env: Env, k: Kick)
    requires Inv(plan, k)
    ensures var t := TimerFires(plan, env, k);
            && Inv(plan, t) && t.pending == k.pending && t.results == k.results
            && t.order[..k.next] == k.order[..k.next] && multiset(t.order) == multiset(k.order)
  {
    var k1 := k.(timer := false);
    SameRunningCounted(plan, k, k1);
    PumpCallKeepsInv(plan, env, k1);
  }

  ghost function Fresh(plan: Plan): Kick {
    var n := |plan.table|;
    Kick(seq(n, i => i), 0, 0, map[], n, {}, false, n == 0, seq(n, i => Unset), {})
  }

  lemma StartKeepsInv(plan: Plan, env: Env)
    requires GoodPlan(plan)
    ensures Inv(plan, Start(plan, env)) && Start(plan, env).pending == |plan.table|
    ensures multiset(Start(plan, env).order) == multiset(seq(|plan.table|, i => i))
  {
    var k := Fresh(plan);
    assert forall c :: Touching(plan, k, c) == {} && CountedAt(plan, k, c);
    if |plan.table| > 0 {
      PumpCallKeepsInv(plan, env, k);
    }
  }
}
