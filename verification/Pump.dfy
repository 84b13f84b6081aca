/**
 The pump of kickAll as a function on its state: one turn of its loop, the loop, and the three
 callbacks that enter it (start, a settled run, the re-pump timer).
 A pack is named by its index in the table handed to the pump; `order` is the array the pump swaps in.
 */
module Pump {
  import opened ResourceClasses

  /**
   id: the id or pack_id, empty when there is neither; key: the same with batch_id as a last resort.
   classes: the classes the pump accounts the pack under; exclusiveLane: whether the class table,
   asked by name only, puts the pack on an exclusive class.
   */
  datatype Pack = Pack(id: string, key: string, classes: seq<Class>, exclusiveLane: bool, dependsOn: seq<string>)

  /** What a pump call reads from outside: packs already kicked, whether B10 is unacked, whether probing is halted. */
  datatype Env = Env(kicked: set<string>, b10Pending: bool, halted: bool)

  /** A result slot: not written, or the value of the run, or null for a failed one. */
  datatype Slot = Unset | Null | Value(v: int)

  datatype Plan = Plan(table: seq<Pack>, maxLight: nat)

  /** running: the launched slots whose run has not settled. */
  datatype Kick = Kick(order: seq<nat>, next: nat, activeLight: int, active: map<Class, int>, pending: int,
                       tried: set<nat>, timer: bool, resolved: bool, results: seq<Slot>, running: set<nat>)

  predicate IsB10(name: string) {
    name == "B10_hw_curves" || name == "mid.curves"
  }

  const EXEMPT := {"B7_sandbox", "B0_bootstrap", "B1_conflict", "B11_interaction", "B8_gateway",
                   "B8_gateway_early", "B3_system", "B2_hardware", "B12_anti_camouflage"}

  /** Exclusive packs other than B10 and the bootstrap ones wait while B10 is unacked. */
  predicate MustDefer(env: Env, name: string, exclusiveLane: bool) {
    name != "" && !IsB10(name) && exclusiveLane && name !in EXEMPT && env.b10Pending
  }

  predicate IsLight(p: Pack) {
    p.classes == [Light]
  }

  ghost predicate GoodPack(p: Pack) {
    && (p.id != "" ==> p.key == p.id)
    && p.classes != [] && (Light in p.classes ==> IsLight(p))
    && forall i, j :: 0 <= i < j < |p.classes| ==> p.classes[i] != p.classes[j]
  }

  ghost predicate GoodPlan(plan: Plan) {
    plan.maxLight >= 1 && forall i :: 0 <= i < |plan.table| ==> GoodPack(plan.table[i])
  }

  function Count(active: map<Class, int>, c: Class): int {
    if c in active then active[c] else 0
  }

  predicate ClassesFree(active: map<Class, int>, classes: seq<Class>) {
    forall i :: 0 <= i < |classes| && classes[i] != Light ==> Count(active, classes[i]) < 1
  }

  function Mark(active: map<Class, int>, classes: seq<Class>, delta: int): map<Class, int>
    decreases |classes|
  {
    if classes == [] then active
    else if classes[0] == Light then Mark(active, classes[1..], delta)
    else
      var n := Count(active, classes[0]) + delta;
      Mark(active[classes[0] := if n < 0 then 0 else n], classes[1..], delta)
  }

  predicate InTable(plan: Plan, order: seq<nat>) {
    forall i :: 0 <= i < |order| ==> order[i] < |plan.table|
  }

  function At(plan: Plan, k: Kick, i: nat): Pack
    requires InTable(plan, k.order) && i < |k.order|
  {
    plan.table[k.order[i]]
  }

  /** The dependency is on none of the launched packs and was not kicked before. */
  predicate DepMissing(plan: Plan, env: Env, k: Kick, dep: string)
    requires InTable(plan, k.order) && k.next <= |k.order|
  {
    dep !in env.kicked && forall j :: 0 <= j < k.next ==> At(plan, k, j).key != dep
  }

  predicate DepUnmet(plan: Plan, env: Env, k: Kick, i: nat)
    requires InTable(plan, k.order) && k.next <= |k.order| && i < |k.order|
  {
    && k.order[i] !in k.tried
    && exists d :: 0 <= d < |At(plan, k, i).dependsOn| && DepMissing(plan, env, k, At(plan, k, i).dependsOn[d])
  }

  /** The three searches for a pack to pull in front of the head. */
  datatype Search = ReadyPack | AllowedPack | AheadOfBlocked(headIsB10: bool)

  predicate Candidate(plan: Plan, env: Env, k: Kick, search: Search, j: nat)
    requires InTable(plan, k.order) && k.next <= |k.order| && j < |k.order|
  {
    var p := At(plan, k, j);
    && (search.ReadyPack? ==> !DepUnmet(plan, env, k, j))
    && (search.AllowedPack? ==> !MustDefer(env, p.id, p.exclusiveLane))
    && if IsLight(p) then k.activeLight < plan.maxLight
       else
         && (search.AheadOfBlocked? ==> !search.headIsB10 && !MustDefer(env, p.key, p.exclusiveLane))
         && ClassesFree(k.active, p.classes)
  }

  /** The first candidate at or after j, or the length of the order when there is none. */
  function First(plan: Plan, env: Env, k: Kick, search: Search, j: nat): (r: nat)
    requires InTable(plan, k.order) && k.next <= |k.order| && j <= |k.order|
    ensures j <= r <= |k.order|
    ensures r < |k.order| ==> Candidate(plan, env, k, search, r)
    ensures forall i :: j <= i < r ==> !Candidate(plan, env, k, search, i)
    decreases |k.order| - j
  {
    if j == |k.order| || Candidate(plan, env, k, search, j) then j else First(plan, env, k, search, j + 1)
  }

  function Swap(k: Kick, j: nat): Kick
    requires k.next < |k.order| && j < |k.order|
  {
    k.(order := k.order[k.next := k.order[j]][j := k.order[k.next]])
  }

  /** One turn of the loop either leaves it or goes on. */
  datatype Turn = Stop(k: Kick) | Go(k: Kick)

  predicate CanPump(plan: Plan, k: Kick) {
    InTable(plan, k.order) && k.next <= |k.order|
  }

  function Pull(plan: Plan, env: Env, k: Kick, search: Search, otherwise: Kick): Turn
    requires CanPump(plan, k) && k.next < |k.order|
  {
    var j := First(plan, env, k, search, k.next + 1);
    if j == |k.order| then Stop(otherwise) else Go(Swap(k, j))
  }

  function Launch(plan: Plan, k: Kick): Kick
    requires CanPump(plan, k) && k.next < |k.order|
  {
    var p := At(plan, k, k.next);
    var k1 := k.(next := k.next + 1, running := k.running + {k.next});
    if IsLight(p) then k1.(activeLight := k.activeLight + 1)
    else k1.(active := Mark(k.active, p.classes, 1))
  }

  function OneTurn(plan: Plan, env: Env, k: Kick): Turn
    requires CanPump(plan, k) && k.next < |k.order|
  {
    var p := At(plan, k, k.next);
    if DepUnmet(plan, env, k, k.next) then
      var k1 := k.(tried := k.tried + {k.order[k.next]});
      Pull(plan, env, k1, ReadyPack, k1)
    else if IsLight(p) then
      if k.activeLight >= plan.maxLight then Stop(k) else Go(Launch(plan, k))
    else if MustDefer(env, p.id, p.exclusiveLane) then
      Pull(plan, env, k, AllowedPack, k)
    else if !ClassesFree(k.active, p.classes) then
      Pull(plan, env, k, AheadOfBlocked(IsB10(p.id)), k.(timer := true))
    else Go(Launch(plan, k))
  }

  // ---------------------------------------------------------------- the loop terminates

  ghost function Untried(plan: Plan, k: Kick): set<nat> {
    set t: nat | t < |plan.table| && t !in k.tried
  }

  /** The head is an exclusive pack that is deferred or lacks a free class. */
  predicate HeadBlocked(plan: Plan, env: Env, k: Kick)
    requires CanPump(plan, k)
  {
    k.next < |k.order| &&
    var p := At(plan, k, k.next);
    !IsLight(p) && (MustDefer(env, p.id, p.exclusiveLane) || !ClassesFree(k.active, p.classes))
  }

  /** A turn that goes on launches a pack, or uses up a deferral, or puts an admissible pack at a blocked head. */
  lemma TurnProgress(plan: Plan, env: Env, k: Kick)
    requires GoodPlan(plan) && CanPump(plan, k) && k.next < |k.order| && OneTurn(plan, env, k).Go?
    ensures var t := OneTurn(plan, env, k).k;
            && CanPump(plan, t) && |t.order| == |k.order|
            && (|| t.next == k.next + 1
                || (t.next == k.next && Untried(plan, t) < Untried(plan, k))
                || (t.next == k.next && t.tried == k.tried && HeadBlocked(plan, env, k) && !HeadBlocked(plan, env, t)))
  {
    var t := OneTurn(plan, env, k).k;
    if DepUnmet(plan, env, k, k.next) {
      assert k.order[k.next] in Untried(plan, k) && k.order[k.next] !in Untried(plan, t);
      assert Untried(plan, t) <= Untried(plan, k);
    }
  }

  ghost function Loop(plan: Plan, env: Env, k: Kick): Kick
    requires GoodPlan(plan) && CanPump(plan, k)
    decreases |k.order| - k.next, Untried(plan, k), HeadBlocked(plan, env, k)
  {
    if k.next == |k.order| then k
    else
      match OneTurn(plan, env, k)
      case Stop(t) => t
      case Go(t) => TurnProgress(plan, env, k); Loop(plan, env, t)
  }

  // ---------------------------------------------------------------- the callbacks

  function Busy(active: map<Class, int>): int {
    Count(active, Gpu) + Count(active, Audio) + Count(active, Rtc) + Count(active, Cpu) + Count(active, Nest) + Count(active, Verify)
  }

  ghost function PumpCall(plan: Plan, env: Env, k: Kick): Kick
    requires GoodPlan(plan) && CanPump(plan, k)
  {
    if env.halted && k.activeLight == 0 && Busy(k.active) == 0 && k.next >= |k.order| then k.(resolved := true)
    else Loop(plan, env, k)
  }

  ghost function Start(plan: Plan, env: Env): Kick
    requires GoodPlan(plan)
  {
    var n := |plan.table|;
    var k := Kick(seq(n, i => i), 0, 0, map[], n, {}, false, false, seq(n, i => Unset), {});
    if n == 0 then k.(resolved := true) else PumpCall(plan, env, k)
  }

  /** The bookkeeping of a settled run, before it pumps again. */
  function Free(plan: Plan, k: Kick, slot: nat, r: Slot): Kick
    requires CanPump(plan, k) && slot < |k.order| && |k.results| == |k.order|
  {
    var p := At(plan, k, slot);
    var k1 := k.(results := k.results[slot := r], running := k.running - {slot}, pending := k.pending - 1);
    if IsLight(p) then k1.(activeLight := k.activeLight - 1) else k1.(active := Mark(k.active, p.classes, -1))
  }

  ghost function Complete(plan: Plan, env: Env, k: Kick, slot: nat, r: Slot): Kick
    requires GoodPlan(plan) && CanPump(plan, k) && slot < |k.order| && |k.results| == |k.order|
  {
    var k1 := Free(plan, k, slot, r);
    if k1.pending <= 0 then k1.(resolved := true) else PumpCall(plan, env, k1)
  }

  ghost function TimerFires(plan: Plan, env: Env, k: Kick): Kick
    requires GoodPlan(plan) && CanPump(plan, k)
  {
    PumpCall(plan, env, k.(timer := false))
  }
}
