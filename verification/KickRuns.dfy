/**
 Whole runs of kickAll: what every run keeps, when a pump call stalls, and when the kick completes.
 */
module KickRuns {
  import opened ResourceClasses
  import opened Pump
  import opened PumpTheorems

  // ---------------------------------------------------------------- a pump call on an idle kick

  ghost predicate AllUnmet(plan: Plan, env: Env, k: Kick)
    requires CanPump(plan, k)
  {
    forall i :: k.next <= i < |k.order| ==> DepUnmet(plan, env, k, i)
  }

  predicate Deferred(plan: Plan, env: Env, k: Kick, i: nat)
    requires CanPump(plan, k) && i < |k.order|
  {
    MustDefer(env, At(plan, k, i).id, At(plan, k, i).exclusiveLane)
  }

  ghost predicate AllDeferred(plan: Plan, env: Env, k: Kick)
    requires CanPump(plan, k)
  {
    forall i :: k.next <= i < |k.order| ==> Deferred(plan, env, k, i)
  }

  ghost predicate FirstReady(plan: Plan, env: Env, k: Kick, i: nat)
    requires CanPump(plan, k)
  {
    k.next <= i < |k.order| && !DepUnmet(plan, env, k, i) && forall j :: k.next <= j < i ==> DepUnmet(plan, env, k, j)
  }

  /**
   The condition, on the state before the call, under which an idle pump launches nothing: every remaining pack
   still has an unmet dependency it was not yet deferred for, or every remaining pack must wait for B10 and the
   first one without such a dependency is exclusive.
   */
  ghost predicate Stalls(plan: Plan, env: Env, k: Kick)
    requires CanPump(plan, k)
  {
    || AllUnmet(plan, env, k)
    || (AllDeferred(plan, env, k) && exists i :: FirstReady(plan, env, k, i) && !IsLight(At(plan, k, i)))
  }

  lemma {:induction false} IdleIsFree(plan: Plan, k: Kick, classes: seq<Class>)
    requires GoodPlan(plan) && Shape(plan, k) && Counted(plan, k) && k.running == {}
    ensures k.activeLight == 0 && ClassesFree(k.active, classes)
  {
    assert CountedAt(plan, k, Light);
    forall c | c != Light ensures Count(k.active, c) == 0 {
      assert CountedAt(plan, k, c) && Touching(plan, k, c) == {};
    }
  }

  /** Whether a pack's dependencies are unmet depends on the launched prefix and its own deferral, not on its place. */
  lemma {:induction false} SameUnmet(plan: Plan, env: Env, k: Kick, i: nat, t: Kick, j: nat)
    requires CanPump(plan, k) && CanPump(plan, t) && i < |k.order| && j < |t.order|
    requires k.order[i] == t.order[j] && k.next == t.next && k.order[..k.next] == t.order[..k.next]
    requires k.order[i] in k.tried <==> t.order[j] in t.tried
    ensures DepUnmet(plan, env, k, i) == DepUnmet(plan, env, t, j)
  {
    forall x | 0 <= x < k.next ensures At(plan, k, x) == At(plan, t, x) {
      assert k.order[x] == k.order[..k.next][x] == t.order[..k.next][x] == t.order[x];
    }
    assert At(plan, k, i) == At(plan, t, j);
    forall dep ensures DepMissing(plan, env, k, dep) == DepMissing(plan, env, t, dep) {
    }
  }

  lemma {:induction false} SwapKeepsAllDeferred(plan: Plan, env: Env, k: Kick, j: nat)
    requires CanPump(plan, k) && k.next < j < |k.order|
    ensures CanPump(plan, Swap(k, j)) && (AllDeferred(plan, env, k) <==> AllDeferred(plan, env, Swap(k, j)))
  {
    var t := Swap(k, j);
    forall i | k.next <= i < |k.order|
      ensures Deferred(plan, env, t, i) == Deferred(plan, env, k, if i == k.next then j else if i == j then k.next else i)
    {
    }
    if AllDeferred(plan, env, t) {
      forall i | k.next <= i < |k.order| ensures Deferred(plan, env, k, i) {
        assert Deferred(plan, env, t, if i == k.next then j else if i == j then k.next else i);
      }
    }
  }

  lemma {:induction false} FirstReadyUnique(plan: Plan, env: Env, k: Kick, i: nat, j: nat)
    requires CanPump(plan, k) && FirstReady(plan, env, k, i) && FirstReady(plan, env, k, j)
    ensures i == j
  {
  }

  /** Deferring the head and pulling the first ready pack forward leaves the stall condition as it was. */
  lemma {:induction false} PullReadyKeepsStalls(plan: Plan, env: Env, k: Kick, r: nat)
    requires Shape(plan, k) && k.next < r < |k.order| && DepUnmet(plan, env, k, k.next)
    requires var k1 := k.(tried := k.tried + {k.order[k.next]});
             !DepUnmet(plan, env, k1, r) && forall i :: k.next < i < r ==> DepUnmet(plan, env, k1, i)
    ensures var t := Swap(k.(tried := k.tried + {k.order[k.next]}), r);
            CanPump(plan, t) && (Stalls(plan, env, k) <==> Stalls(plan, env, t))
  {
    var k1 := k.(tried := k.tried + {k.order[k.next]});
    var t := Swap(k1, r);
    assert t.order[..k.next] == k.order[..k.next];
    forall i | k.next < i <= r ensures DepUnmet(plan, env, k, i) == DepUnmet(plan, env, k1, i) {
      SameUnmet(plan, env, k, i, k1, i);
    }
    SameUnmet(plan, env, k1, r, t, k.next);
    assert FirstReady(plan, env, k, r);
    assert FirstReady(plan, env, t, k.next);
    SwapKeepsAllDeferred(plan, env, k1, r);
    assert AllDeferred(plan, env, k) <==> AllDeferred(plan, env, k1) by {
      assert forall i :: k.next <= i < |k.order| ==> Deferred(plan, env, k, i) == Deferred(plan, env, k1, i);
    }
    if i :| FirstReady(plan, env, k, i) && !IsLight(At(plan, k, i)) {
      FirstReadyUnique(plan, env, k, i, r);
    }
    if i :| FirstReady(plan, env, t, i) && !IsLight(At(plan, t, i)) {
      FirstReadyUnique(plan, env, t, i, k.next);
    }
  }

  /** With nothing running, a pump call that has work left launches nothing if and only if the stall condition held. */
  lemma {:induction false} IdlePumpStallsIff(plan: Plan, env: Env, k: Kick)
    requires GoodPlan(plan) && Shape(plan, k) && Counted(plan, k) && k.running == {} && k.next < |k.order|
    ensures Loop(plan, env, k).running == {} <==> Stalls(plan, env, k)
    ensures Loop(plan, env, k).running == {} ==> Loop(plan, env, k).timer == k.timer
    decreases |k.order| - k.next, Untried(plan, k), HeadBlocked(plan, env, k)
  {
    var p := At(plan, k, k.next);
    IdleIsFree(plan, k, p.classes);
    if DepUnmet(plan, env, k, k.next) {
      IdleUnmetHead(plan, env, k);
    } else if IsLight(p) || !Deferred(plan, env, k, k.next) {
      ReadyHeadLaunches(plan, env, k);
    } else {
      IdleDeferredHead(plan, env, k);
    }
  }

  lemma {:induction false} ReadyHeadLaunches(plan: Plan, env: Env, k: Kick)
    requires GoodPlan(plan) && Shape(plan, k) && Counted(plan, k) && k.running == {} && k.next < |k.order|
    requires !DepUnmet(plan, env, k, k.next) && (IsLight(At(plan, k, k.next)) || !Deferred(plan, env, k, k.next))
    ensures Loop(plan, env, k).running != {} && !Stalls(plan, env, k)
  {
    IdleIsFree(plan, k, At(plan, k, k.next).classes);
    TurnKeeps(plan, env, k);
    var t := Launch(plan, k);
    assert OneTurn(plan, env, k) == Go(t);
    LoopKeeps(plan, env, t);
    assert k.next in t.running && k.next in Loop(plan, env, t).running;
    assert FirstReady(plan, env, k, k.next);
    if i :| FirstReady(plan, env, k, i) && !IsLight(At(plan, k, i)) {
      FirstReadyUnique(plan, env, k, i, k.next);
    }
  }

  lemma {:induction false} IdleUnmetHead(plan: Plan, env: Env, k: Kick)
    requires GoodPlan(plan) && Shape(plan, k) && Counted(plan, k) && k.running == {} && k.next < |k.order|
    requires DepUnmet(plan, env, k, k.next)
    ensures Loop(plan, env, k).running == {} <==> Stalls(plan, env, k)
    ensures Loop(plan, env, k).running == {} ==> Loop(plan, env, k).timer == k.timer
    decreases |k.order| - k.next, Untried(plan, k), HeadBlocked(plan, env, k), 0
  {
    var k1 := k.(tried := k.tried + {k.order[k.next]});
    var r := First(plan, env, k1, ReadyPack, k.next + 1);
    forall i | k.next < i < |k.order|
      ensures Candidate(plan, env, k1, ReadyPack, i) <==> !DepUnmet(plan, env, k1, i)
      ensures DepUnmet(plan, env, k1, i) == DepUnmet(plan, env, k, i)
    {
      IdleIsFree(plan, k, At(plan, k, i).classes);
      SameUnmet(plan, env, k, i, k1, i);
    }
    if r == |k.order| {
      assert AllUnmet(plan, env, k);
    } else {
      var t := Swap(k1, r);
      assert OneTurn(plan, env, k) == Go(t);
      TurnKeeps(plan, env, k);
      TurnProgress(plan, env, k);
      IdlePumpStallsIff(plan, env, t);
      PullReadyKeepsStalls(plan, env, k, r);
    }
  }

  lemma {:induction false} NotStalled(plan: Plan, env: Env, k: Kick, ready: nat, allowed: nat)
    requires CanPump(plan, k) && k.next <= ready < |k.order| && k.next <= allowed < |k.order|
    requires !DepUnmet(plan, env, k, ready) && !Deferred(plan, env, k, allowed)
    ensures !Stalls(plan, env, k)
  {
  }

  lemma {:induction false} IdleDeferredHead(plan: Plan, env: Env, k: Kick)
    requires GoodPlan(plan) && Shape(plan, k) && Counted(plan, k) && k.running == {} && k.next < |k.order|
    requires !DepUnmet(plan, env, k, k.next) && !IsLight(At(plan, k, k.next)) && Deferred(plan, env, k, k.next)
    ensures Loop(plan, env, k).running == {} <==> Stalls(plan, env, k)
    ensures Loop(plan, env, k).running == {} ==> Loop(plan, env, k).timer == k.timer
    decreases |k.order| - k.next, Untried(plan, k), HeadBlocked(plan, env, k), 0
  {
    var r := First(plan, env, k, AllowedPack, k.next + 1);
    assert FirstReady(plan, env, k, k.next);
    forall i | k.next < i < |k.order|
      ensures Candidate(plan, env, k, AllowedPack, i) <==> !Deferred(plan, env, k, i)
    {
      IdleIsFree(plan, k, At(plan, k, i).classes);
    }
    if r == |k.order| {
      assert AllDeferred(plan, env, k);
    } else {
      var t := Swap(k, r);
      assert OneTurn(plan, env, k) == Go(t);
      TurnKeeps(plan, env, k);
      TurnProgress(plan, env, k);
      IdlePumpStallsIff(plan, env, t);
      assert t.order[..k.next] == k.order[..k.next];
      SameUnmet(plan, env, k, k.next, t, r);
      NotStalled(plan, env, t, r, k.next);
      NotStalled(plan, env, k, k.next, r);
    }
  }

  /** A pump call with work left ends with nothing running if and only if nothing ran before it and it stalled. */
  lemma {:induction false} PumpCallStallsIff(plan: Plan, env: Env, k: Kick)
    requires GoodPlan(plan) && Shape(plan, k) && Counted(plan, k) && k.pending > 0
    ensures PumpCall(plan, env, k).running == {} <==> k.running == {} && Stalls(plan, env, k)
    ensures PumpCall(plan, env, k).running == {} ==> PumpCall(plan, env, k).timer == k.timer
  {
    if k.running == {} {
      IdlePumpStallsIff(plan, env, k);
    } else {
      var i :| i in k.running;
      LoopKeeps(plan, env, k);
      CountersSeeRunning(plan, k, i);
      assert i in Loop(plan, env, k).running;
    }
  }

  // ---------------------------------------------------------------- runs

  datatype Event = Settled(env: Env, slot: nat, r: Slot) | Fired(env: Env)

  ghost predicate Sized(plan: Plan, k: Kick) {
    GoodPlan(plan) && CanPump(plan, k) && |k.results| == |k.order|
  }

  predicate Enabled(k: Kick, e: Event) {
    match e
    case Settled(_, slot, r) => slot in k.running && slot < |k.order| && r != Unset
    case Fired(_) => k.timer
  }

  ghost function Step(plan: Plan, k: Kick, e: Event): Kick
    requires Sized(plan, k) && Enabled(k, e)
  {
    match e
    case Settled(env, slot, r) => Complete(plan, env, k, slot, r)
    case Fired(env) => TimerFires(plan, env, k)
  }

  /** t is reached from k by the callbacks, in order. */
  ghost predicate Reaches(plan: Plan, k: Kick, events: seq<Event>, t: Kick)
    decreases |events|
  {
    if events == [] then t == k
    else Sized(plan, k) && Enabled(k, events[0]) && Reaches(plan, Step(plan, k, events[0]), events[1..], t)
  }

  function Settles(events: seq<Event>): nat {
    if events == [] then 0 else (if events[0].Settled? then 1 else 0) + Settles(events[1..])
  }

  /** Launched packs stay in their slots, written results stay, and the order stays a permutation. */
  ghost predicate Later(k: Kick, t: Kick) {
    && |t.order| == |k.order| && |t.results| == |k.results| && k.next <= t.next <= |t.order|
    && t.order[..k.next] == k.order[..k.next] && multiset(t.order) == multiset(k.order)
    && forall i :: 0 <= i < |k.results| && k.results[i] != Unset ==> t.results[i] == k.results[i]
  }

  lemma {:induction false} StepKeeps(plan: Plan, k: Kick, e: Event)
    requires Inv(plan, k) && Enabled(k, e)
    ensures var t := Step(plan, k, e);
            Inv(plan, t) && Later(k, t) && t.pending == k.pending - if e.Settled? then 1 else 0
  {
    match e
    case Settled(env, slot, r) =>
      CompleteKeepsInv(plan, env, k, slot, r);
      CompleteAdvances(plan, env, k, slot, r);
    case Fired(env) =>
      TimerKeepsInv(plan, env, k);
      SameRunningCounted(plan, k, k.(timer := false));
      PumpCallKeepsInv(plan, env, k.(timer := false));
  }

  lemma {:induction false} CompleteAdvances(plan: Plan, env: Env, k: Kick, slot: nat, r: Slot)
    requires Inv(plan, k) && slot in k.running && r != Unset
    ensures k.next <= Complete(plan, env, k, slot, r).next
  {
    var k1 := Free(plan, k, slot, r);
    if k1.pending > 0 {
      FreeKeepsShape(plan, k, slot, r);
      FreeKeepsCounted(plan, k, slot, r);
      PumpCallKeepsInv(plan, env, k1);
    }
  }

  lemma {:induction false} RunKeeps(plan: Plan, k: Kick, events: seq<Event>, t: Kick)
    requires Inv(plan, k) && k.next <= |k.order| && Reaches(plan, k, events, t)
    ensures Inv(plan, t) && Later(k, t) && t.pending + Settles(events) == k.pending
    decreases |events|
  {
    if events != [] {
      var u := Step(plan, k, events[0]);
      StepKeeps(plan, k, events[0]);
      RunKeeps(plan, u, events[1..], t);
      assert t.order[..k.next] == t.order[..u.next][..k.next] == u.order[..u.next][..k.next] == u.order[..k.next];
    }
  }

  lemma {:induction false} TwoElements(s: set<nat>, i: nat, j: nat)
    requires i in s && j in s && i != j
    ensures |s| >= 2
  {
    assert |{i, j}| == 2 && {i, j} <= s;
    assert |s - {i, j}| + |{i, j}| == |s|;
  }

  /**
   Every run of kickAll, whatever packs, environments and completion order: running packs share no exclusive
   class, at most maxLight light packs run, and the pack array is a permutation of the packs handed in.
   */
  lemma {:induction false} RunningPacksDisjoint(plan: Plan, env: Env, events: seq<Event>, t: Kick, i: nat, j: nat, c: Class)
    requires GoodPlan(plan) && Reaches(plan, Start(plan, env), events, t)
    requires i in t.running && j in t.running && i != j
    ensures i < |t.order| && j < |t.order| && InTable(plan, t.order)
    ensures c in At(plan, t, i).classes && c in At(plan, t, j).classes ==> c == Light && plan.maxLight >= 2
    ensures multiset(t.order) == multiset(seq(|plan.table|, x => x))
  {
    StartKeepsInv(plan, env);
    RunKeeps(plan, Start(plan, env), events, t);
    assert CountedAt(plan, t, c);
    if c in At(plan, t, i).classes && c in At(plan, t, j).classes {
      TwoElements(Touching(plan, t, c), i, j);
    }
  }

  /** kickAll resolves after exactly as many settled runs as there are packs, with every result slot written. */
  lemma {:induction false} ResolvesAfterAllSettle(plan: Plan, env: Env, events: seq<Event>, t: Kick)
    requires GoodPlan(plan) && Reaches(plan, Start(plan, env), events, t)
    ensures Settles(events) <= |plan.table|
    ensures t.resolved <==> Settles(events) == |plan.table|
    ensures t.resolved ==> |t.results| == |plan.table| && forall i :: 0 <= i < |t.results| ==> t.results[i] != Unset
  {
    StartKeepsInv(plan, env);
    RunKeeps(plan, Start(plan, env), events, t);
  }

  // ---------------------------------------------------------------- progress

  /** The state on which the callback pumps, when it does. */
  ghost function BeforePump(plan: Plan, k: Kick, e: Event): Kick
    requires Sized(plan, k) && Enabled(k, e)
  {
    match e
    case Settled(_, slot, r) => Free(plan, k, slot, r)
    case Fired(_) => k.(timer := false)
  }

  /** No pump call of the run meets the stall condition with nothing running. */
  ghost predicate OpenRun(plan: Plan, k: Kick, events: seq<Event>)
    decreases |events|
  {
    events == [] ||
    (Sized(plan, k) && Enabled(k, events[0])
     && CanPump(plan, BeforePump(plan, k, events[0]))
     && (BeforePump(plan, k, events[0]).running == {} ==> !Stalls(plan, events[0].env, BeforePump(plan, k, events[0])))
     && OpenRun(plan, Step(plan, k, events[0]), events[1..]))
  }

  lemma {:induction false} StepKeepsRunning(plan: Plan, k: Kick, e: Event)
    requires Inv(plan, k) && Enabled(k, e)
    requires BeforePump(plan, k, e).running == {} ==> !Stalls(plan, e.env, BeforePump(plan, k, e))
    ensures Step(plan, k, e).pending > 0 ==> Step(plan, k, e).running != {}
  {
    var b := BeforePump(plan, k, e);
    match e {
      case Settled(env, slot, r) =>
        FreeKeepsShape(plan, k, slot, r);
        FreeKeepsCounted(plan, k, slot, r);
      case Fired(env) =>
        SameRunningCounted(plan, k, b);
    }
    if b.pending > 0 {
      PumpCallStallsIff(plan, e.env, b);
    } else if e.Fired? {
      PumpCallKeepsInv(plan, e.env, b);
    }
  }

  /** With the gates open, work left means a running pack, so the kick goes on until it resolves. */
  lemma {:induction false} OpenRunKeepsRunning(plan: Plan, k: Kick, events: seq<Event>, t: Kick)
    requires Inv(plan, k) && (k.pending > 0 ==> k.running != {})
    requires Reaches(plan, k, events, t) && OpenRun(plan, k, events)
    ensures t.pending > 0 ==> t.running != {}
    decreases |events|
  {
    if events != [] {
      StepKeeps(plan, k, events[0]);
      StepKeepsRunning(plan, k, events[0]);
      OpenRunKeepsRunning(plan, Step(plan, k, events[0]), events[1..], t);
    }
  }

  lemma {:induction false} FreshIsShaped(plan: Plan)
    requires GoodPlan(plan)
    ensures Shape(plan, Fresh(plan)) && Counted(plan, Fresh(plan))
  {
    assert forall c :: Touching(plan, Fresh(plan), c) == {} && CountedAt(plan, Fresh(plan), c);
  }

  /**
   An open run that has not resolved still has a run to settle, and it resolves once no more than
   the number of packs have settled.
   */
  lemma {:induction false} OpenKickCompletes(plan: Plan, env: Env, events: seq<Event>, t: Kick)
    requires GoodPlan(plan) && !Stalls(plan, env, Fresh(plan))
    requires Reaches(plan, Start(plan, env), events, t) && OpenRun(plan, Start(plan, env), events)
    ensures !t.resolved ==> Settles(events) < |plan.table| && exists e: Event :: e.Settled? && Enabled(t, e)
  {
    StartKeepsInv(plan, env);
    FreshIsShaped(plan);
    if |plan.table| > 0 {
      PumpCallStallsIff(plan, env, Fresh(plan));
    }
    RunKeeps(plan, Start(plan, env), events, t);
    OpenRunKeepsRunning(plan, Start(plan, env), events, t);
    if !t.resolved {
      var i :| i in t.running;
      assert Enabled(t, Settled(env, i, Null));
    }
  }

  /** A kick is dead on arrival, unresolved with no callback left to come, if and only if its first pump call stalls. */
  lemma {:induction false} DeadOnArrivalIff(plan: Plan, env: Env)
    requires GoodPlan(plan) && |plan.table| > 0
    ensures (!Start(plan, env).resolved && forall e :: !Enabled(Start(plan, env), e)) <==> Stalls(plan, env, Fresh(plan))
  {
    FreshIsShaped(plan);
    StartKeepsInv(plan, env);
    PumpCallStallsIff(plan, env, Fresh(plan));
    var t := Start(plan, env);
    if t.running != {} {
      var i :| i in t.running;
      assert Enabled(t, Settled(env, i, Null));
    }
  }

  /**
   A kick dies at a callback, unresolved with no callback left to come, if and only if that callback finds work
   left, nothing running, no timer armed, and the stall condition.
   */
  lemma {:induction false} DiesAtCallbackIff(plan: Plan, start: Env, events: seq<Event>, k: Kick, e: Event)
    requires GoodPlan(plan) && Reaches(plan, Start(plan, start), events, k) && Enabled(k, e)
    ensures Inv(plan, k)
    ensures CanPump(plan, BeforePump(plan, k, e))
    ensures var t := Step(plan, k, e); var b := BeforePump(plan, k, e);
            (!t.resolved && forall f :: !Enabled(t, f))
            <==> b.pending > 0 && b.running == {} && !b.timer && Stalls(plan, e.env, b)
  {
    StartKeepsInv(plan, start);
    RunKeeps(plan, Start(plan, start), events, k);
    StepKeeps(plan, k, e);
    var b := BeforePump(plan, k, e);
    match e {
      case Settled(env, slot, r) =>
        FreeKeepsShape(plan, k, slot, r);
        FreeKeepsCounted(plan, k, slot, r);
      case Fired(env) =>
        SameRunningCounted(plan, k, b);
    }
    var t := Step(plan, k, e);
    if b.pending > 0 {
      PumpCallStallsIff(plan, e.env, b);
    }
    NoEventIff(t, e.env);
  }

  lemma {:induction false} NoEventIff(t: Kick, env: Env)
    requires forall i :: i in t.running ==> i < |t.order|
    ensures (forall f :: !Enabled(t, f)) <==> t.running == {} && !t.timer
  {
    if t.running != {} {
      var i :| i in t.running;
      assert Enabled(t, Settled(env, i, Null));
    }
    if t.timer {
      assert Enabled(t, Fired(env));
    }
  }

  /** A single light pack whose declared dependency was never kicked is deferred once and then never runs. */
  lemma {:induction false} SoftDependencyNeverRuns()
    ensures var plan := Plan([Pack("P", "P", [Light], false, ["Q"])], 2); var env := Env({}, false, false);
            GoodPlan(plan) && !Start(plan, env).resolved && forall e :: !Enabled(Start(plan, env), e)
  {
    var plan := Plan([Pack("P", "P", [Light], false, ["Q"])], 2);
    var env := Env({}, false, false);
    assert DepMissing(plan, env, Fresh(plan), At(plan, Fresh(plan), 0).dependsOn[0]);
    DeadOnArrivalIff(plan, env);
  }

  // ---------------------------------------------------------------- deferral

  /**
   A pack is launched with a missing dependency only after its one deferral, and a deferral is spent only on the
   head, once, and while a dependency is missing.
   */
  lemma {:induction false} TurnDeferral(plan: Plan, env: Env, k: Kick)
    requires CanPump(plan, k) && k.next < |k.order|
    ensures var t := OneTurn(plan, env, k).k; var head := k.order[k.next]; var deps := plan.table[head].dependsOn;
            var missing := exists d :: 0 <= d < |deps| && DepMissing(plan, env, k, deps[d]);
            && (t.next > k.next && missing ==> head in k.tried)
            && t.tried == (if missing && head !in k.tried then k.tried + {head} else k.tried)
  {
    var k1 := k.(tried := k.tried + {k.order[k.next]});
    var j1 := PullCases(plan, env, k1, ReadyPack, k1);
    var j2 := PullCases(plan, env, k, AllowedPack, k);
    var j3 := PullCases(plan, env, k, AheadOfBlocked(IsB10(At(plan, k, k.next).id)), k.(timer := true));
  }
}
