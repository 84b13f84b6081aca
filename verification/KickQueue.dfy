/**
 kickAll's queue as the object it is: the pack array swapped in place, the counters, the result array.
 Each method is proved to have the effect of the function of the same step in Pump.
 */
module KickQueueObject {
  import opened ResourceClasses
  import opened Pump
  import opened PumpTheorems

  lemma FirstIs(plan: Plan, env: Env, k: Kick, search: Search, start: nat, j: nat)
    requires CanPump(plan, k) && start <= j <= |k.order|
    requires forall i :: start <= i < j ==> !Candidate(plan, env, k, search, i)
    requires j < |k.order| ==> Candidate(plan, env, k, search, j)
    ensures First(plan, env, k, search, start) == j
  {
  }

  class KickQueue {
    const plan: Plan
    const order: array<nat>
    const results: array<Slot>
    var next: nat
    var activeLight: int
    var active: map<Class, int>
    var pending: int
    var tried: set<nat>
    var timer: bool
    var resolved: bool
    var running: set<nat>

    function View(): Kick
      reads this, order, results
    {
      Kick(order[..], next, activeLight, active, pending, tried, timer, resolved, results[..], running)
    }

    ghost predicate Ready()
      reads this, order, results
    {
      GoodPlan(plan) && CanPump(plan, View()) && results.Length == order.Length
    }

    ghost predicate Valid()
      reads this, order, results
    {
      Ready() && Inv(plan, View())
    }

    constructor (plan: Plan, env: Env)
      requires GoodPlan(plan)
      ensures this.plan == plan && fresh(order) && fresh(results)
      ensures Valid() && View() == Start(plan, env)
    {
      var n := |plan.table|;
      this.plan := plan;
      order := new nat[n](i => i);
      results := new Slot[n](i => Unset);
      next, activeLight, active, pending, tried := 0, 0, map[], n, {};
      timer, resolved, running := false, n == 0, {};
      new;
      assert View() == Fresh(plan);
      StartKeepsInv(plan, env);
      if n > 0 {
        PumpNow(env);
      }
    }

    /** Is a declared dependency of the pack neither kicked nor launched before, and the pack not yet deferred? */
    method DagDepUnmet(env: Env, i: nat) returns (unmet: bool)
      requires Ready() && i < order.Length
      ensures unmet == DepUnmet(plan, env, View(), i)
    {
      var deps := plan.table[order[i]].dependsOn;
      if order[i] in tried {
        return false;
      }
      for d := 0 to |deps|
        invariant forall e :: 0 <= e < d ==> !DepMissing(plan, env, View(), deps[e])
      {
        var present := deps[d] in env.kicked;
        for j := 0 to next
          invariant present <==> deps[d] in env.kicked || exists x :: 0 <= x < j && At(plan, View(), x).key == deps[d]
        {
          present := present || plan.table[order[j]].key == deps[d];
          assert At(plan, View(), j) == plan.table[order[j]];
        }
        if !present {
          assert DepMissing(plan, env, View(), At(plan, View(), i).dependsOn[d]);
          return true;
        }
      }
      return false;
    }

    method IsCandidate(env: Env, search: Search, j: nat) returns (yes: bool)
      requires Ready() && j < order.Length
      ensures yes == Candidate(plan, env, View(), search, j)
    {
      var p := plan.table[order[j]];
      assert p == At(plan, View(), j);
      if search.ReadyPack? {
        var unmet := DagDepUnmet(env, j);
        if unmet {
          return false;
        }
      }
      if search.AllowedPack? && MustDefer(env, p.id, p.exclusiveLane) {
        return false;
      }
      if IsLight(p) {
        return activeLight < plan.maxLight;
      }
      if search.AheadOfBlocked? && (search.headIsB10 || MustDefer(env, p.key, p.exclusiveLane)) {
        return false;
      }
      return ClassesFree(active, p.classes);
    }

    method FindBehindHead(env: Env, search: Search) returns (j: nat)
      requires Ready() && next < order.Length
      ensures j == First(plan, env, View(), search, next + 1)
    {
      j := next + 1;
      while j < order.Length
        invariant next < j <= order.Length
        invariant forall i :: next < i < j ==> !Candidate(plan, env, View(), search, i)
      {
        var yes := IsCandidate(env, search, j);
        if yes {
          break;
        }
        j := j + 1;
      }
      FirstIs(plan, env, View(), search, next + 1, j);
    }

    /** Look behind the head for a pack to pull forward, and swap it in; false when there is none. */
    method PullForward(env: Env, search: Search) returns (found: bool)
      requires Ready() && next < order.Length
      modifies order
      ensures Ready()
      ensures var k := old(View()); var j := First(plan, env, k, search, k.next + 1);
              found == (j < |k.order|) && View() == if found then Swap(k, j) else k
    {
      var j := FindBehindHead(env, search);
      found := j < order.Length;
      if found {
        order[next], order[j] := order[j], order[next];
        assert View() == Swap(old(View()), j);
      }
    }

    method LaunchHead()
      requires Ready() && next < order.Length
      modifies this
      ensures Ready() && View() == Launch(plan, old(View()))
    {
      var p := plan.table[order[next]];
      running := running + {next};
      next := next + 1;
      if IsLight(p) {
        activeLight := activeLight + 1;
      } else {
        active := MarkClasses(p.classes, 1);
      }
    }

    method MarkClasses(classes: seq<Class>, delta: int) returns (marked: map<Class, int>)
      ensures marked == Mark(active, classes, delta)
    {
      marked := active;
      for i := 0 to |classes|
        invariant Mark(marked, classes[i..], delta) == Mark(active, classes, delta)
      {
        assert classes[i..][0] == classes[i] && classes[i..][1..] == classes[i + 1..];
        if classes[i] != Light {
          var n := Count(marked, classes[i]) + delta;
          marked := marked[classes[i] := if n < 0 then 0 else n];
        }
      }
      assert classes[|classes|..] == [];
    }

    /** One turn of the pump loop. */
    method Turn(env: Env) returns (goOn: bool)
      requires Ready() && next < order.Length
      modifies this, order
      ensures Ready()
      ensures OneTurn(plan, env, old(View())) == if goOn then Go(View()) else Stop(View())
    {
      var p := plan.table[order[next]];
      assert p == At(plan, View(), next);
      var unmet := DagDepUnmet(env, next);
      if unmet {
        tried := tried + {order[next]};
        goOn := PullForward(env, ReadyPack);
      } else if IsLight(p) {
        goOn := activeLight < plan.maxLight;
        if goOn {
          LaunchHead();
        }
      } else if MustDefer(env, p.id, p.exclusiveLane) {
        goOn := PullForward(env, AllowedPack);
      } else if !ClassesFree(active, p.classes) {
        goOn := PullForward(env, AheadOfBlocked(IsB10(p.id)));
        if !goOn {
          timer := true;
        }
      } else {
        goOn := true;
        LaunchHead();
      }
    }

    method PumpNow(env: Env)
      requires Ready()
      modifies this, order
      ensures Ready() && View() == PumpCall(plan, env, old(View()))
    {
      if env.halted && activeLight == 0 && Busy(active) == 0 && next >= order.Length {
        resolved := true;
        return;
      }
      var goOn := true;
      while goOn && next < order.Length
        invariant Ready()
        invariant if goOn then Loop(plan, env, View()) == Loop(plan, env, old(View())) else View() == Loop(plan, env, old(View()))
        decreases goOn, order.Length - next, Untried(plan, View()), HeadBlocked(plan, env, View())
      {
        ghost var k := View();
        goOn := Turn(env);
        if goOn {
          TurnProgress(plan, env, k);
        }
      }
    }

    /** The result is written and the counters of the pack go down again. */
    method FreeSlot(slot: nat, r: Slot)
      requires Ready() && slot < order.Length
      modifies this, results
      ensures Ready() && View() == Free(plan, old(View()), slot, r)
    {
      var p := plan.table[order[slot]];
      results[slot] := r;
      running := running - {slot};
      if IsLight(p) {
        activeLight := activeLight - 1;
      } else {
        active := MarkClasses(p.classes, -1);
      }
      pending := pending - 1;
    }

    /** The run launched in the slot settled with r, null for a failure. */
    method Settle(env: Env, slot: nat, r: Slot)
      requires Valid() && slot in running && r != Unset
      modifies this, order, results
      ensures Valid() && View() == Complete(plan, env, old(View()), slot, r)
    {
      CompleteKeepsInv(plan, env, View(), slot, r);
      FreeSlot(slot, r);
      if pending <= 0 {
        resolved := true;
      } else {
        PumpNow(env);
      }
    }

    method FireTimer(env: Env)
      requires Valid() && timer
      modifies this, order
      ensures Valid() && View() == TimerFires(plan, env, old(View()))
    {
      TimerKeepsInv(plan, env, View());
      timer := false;
      PumpNow(env);
    }
  }
}
