/**
 What the lock protocol guarantees over whole runs: exclusion where forced releases hit free classes only; and in all
 runs, with every forced release, when nesting depths are exact and calls overlap, no deadlock, and completion.
 */
module LockTheorems {
  import opened ResourceClasses
  import opened ResourceBus
  import opened LockProtocol
  import opened ForcedRelease

  // ---------------------------------------------------------------- exclusion

  /** A locked or nested function is executing on behalf of the caller. */
  predicate Executing(x: Caller) {
    x.phase.Running? || x.phase.Nested?
  }

  /**
   In every state reachable without a forced release of a held class, a class taken through the bus has one owner; a
   nested function runs only beside such an owner when it starts, and two executing callers that share a
   class are never both lock owners.
   */
  lemma {:induction false} MutualExclusion(events: seq<Event>, t: Sys, a: Id, b: Id, c: Class)
    requires Reaches(INITIAL, events, t) && FreeForces(INITIAL, events)
    requires a < |t.callers| && b < |t.callers| && a != b
    ensures !(Owns(t.callers[a], c) && Owns(t.callers[b], c))
    ensures c in t.bus.holders <==> exists id :: 0 <= id < |t.callers| && Owns(t.callers[id], c)
    ensures Executing(t.callers[a]) && Executing(t.callers[b]) && c in t.callers[a].list && c in t.callers[b].list
            ==> t.callers[a].phase.Nested? || t.callers[b].phase.Nested?
  {
    InitialInv();
    AlwaysInvIff(INITIAL, events, t);
    OwnersExclusive(t, a, b, c);
    assert c in t.bus.holders ==> Owns(t.callers[t.bus.holders[c]], c);
  }

  lemma OwnersExclusive(t: Sys, a: Id, b: Id, c: Class)
    requires Exclusive(t) && a < |t.callers| && b < |t.callers| && a != b
    ensures !(Owns(t.callers[a], c) && Owns(t.callers[b], c))
    ensures t.callers[a].phase.Running? && t.callers[b].phase.Running? ==> !(c in t.callers[a].list && c in t.callers[b].list)
  {
    var x, y := t.callers[a], t.callers[b];
    assert x.list[..|x.list|] == x.list && y.list[..|y.list|] == y.list;
    assert Owns(x, c) ==> t.bus.holders[c] == a;
    assert Owns(y, c) ==> t.bus.holders[c] == b;
  }

  // ---------------------------------------------------------------- nesting depths

  predicate NestedWith(x: Caller, c: Class) {
    x.phase.Nested? && c in x.list
  }

  /** How many nested functions touching the class are executing. */
  function NestedOn(callers: seq<Caller>, c: Class): nat {
    if callers == [] then 0
    else NestedOn(callers[..|callers| - 1], c) + if NestedWith(callers[|callers| - 1], c) then 1 else 0
  }

  lemma {:induction false} NestedOnUpdate(callers: seq<Caller>, id: Id, x: Caller, c: Class)
    requires id < |callers|
    ensures NestedOn(callers[id := x], c)
         == NestedOn(callers, c) - (if NestedWith(callers[id], c) then 1 else 0) + (if NestedWith(x, c) then 1 else 0)
  {
    var n := |callers| - 1;
    if id == n {
      assert callers[id := x][..n] == callers[..n];
    } else {
      NestedOnUpdate(callers[..n], id, x, c);
      assert callers[id := x][..n] == callers[..n][id := x];
    }
  }

  lemma {:induction false} NestedOnZero(callers: seq<Caller>, c: Class, id: Id)
    requires NestedOn(callers, c) == 0 && id < |callers|
    ensures !NestedWith(callers[id], c)
  {
    if id < |callers| - 1 {
      NestedOnZero(callers[..|callers| - 1], c, id);
    }
  }

  /** The depth of a held class is one for its holder and one for every nested function on it; a free class has neither. */
  ghost predicate DepthsExact(s: Sys) {
    forall c :: Depth(s.bus, c) == (if c in s.bus.holders then 1 + NestedOn(s.callers, c) else 0)
             && (c !in s.bus.holders ==> NestedOn(s.callers, c) == 0)
  }

  /** The release loop is the bus's release of the whole list, and moves no other caller into or out of a function. */
  lemma {:induction false} ReleaseLoopEffect(s: Sys, id: Id)
    requires id < |s.callers| && s.callers[id].phase.Releasing? && s.callers[id].phase.k <= |s.callers[id].list|
    ensures var t := ReleaseLoop(s, id); var x := s.callers[id]; var freed := x.list[..x.phase.k];
            && t.bus == ReleaseAll(s.bus, freed)
            && t.callers[id] == x.(phase := Done)
            && (forall j :: 0 <= j < |s.callers| && j != id ==> Same(s.callers[j], t.callers[j]))
    decreases s.callers[id].phase.k
  {
    var x := s.callers[id];
    var k := x.phase.k;
    if k > 0 {
      var r := ReleaseStep(s, id);
      OnlyWakes(s, id);
      ReleaseLoopEffect(r, id);
      ReleaseLast(s.bus, x.list, k);
      assert forall j :: 0 <= j < |s.callers| && j != id ==> Same(s.callers[j], r.callers[j]) && Same(r.callers[j], ReleaseLoop(r, id).callers[j]);
    }
  }

  lemma OnlyWakes(s: Sys, id: Id)
    requires id < |s.callers| && s.callers[id].phase.Releasing? && 0 < s.callers[id].phase.k <= |s.callers[id].list|
    ensures var t := ReleaseStep(s, id);
            forall j :: 0 <= j < |s.callers| && j != id ==> Same(s.callers[j], t.callers[j])
  {
  }

  lemma {:induction false} ReleaseAllFrees(b: Bus, list: seq<Class>)
    ensures var t := ReleaseAll(b, list);
            t.holders == b.holders - Elements(list) && forall c :: Depth(t, c) == if c in list then 0 else Depth(b, c)
    decreases |list|
  {
    if list != [] {
      var init, c := list[..|list| - 1], list[|list| - 1];
      ReleaseAllFrees(ReleaseOne(b, c), init);
      assert list == init + [c];
      assert Elements(list) == Elements(init) + {c};
      assert b.holders - Elements(list) == b.holders - {c} - Elements(init);
    }
  }

  /** Unchanged up to a wake-up from a queue. */
  ghost predicate Same(x: Caller, y: Caller) {
    y == x || (x.phase.Queued? && y == x.(phase := Trying(x.phase.i)))
  }

  lemma {:induction false} SameNestedOn(before: seq<Caller>, after: seq<Caller>, c: Class)
    requires |before| == |after|
    requires forall j :: 0 <= j < |before| ==> (NestedWith(before[j], c) <==> NestedWith(after[j], c))
    ensures NestedOn(before, c) == NestedOn(after, c)
  {
    if before != [] {
      SameNestedOn(before[..|before| - 1], after[..|after| - 1], c);
    }
  }

  lemma ArriveKeepsDepthsExact(s: Sys, list: seq<Class>)
    requires NestedMeansHeld(s) && DepthsExact(s) && GoodList(list)
    ensures DepthsExact(Arrive(s, list))
  {
    forall c {
      ArriveDepth(s, list, c);
    }
  }

  lemma ArriveDepth(s: Sys, list: seq<Class>, c: Class)
    requires NestedMeansHeld(s) && DepthsExact(s) && GoodList(list)
    ensures var t := Arrive(s, list);
            && Depth(t.bus, c) == (if c in t.bus.holders then 1 + NestedOn(t.callers, c) else 0)
            && (c !in t.bus.holders ==> NestedOn(t.callers, c) == 0)
  {
    var t := Arrive(s, list);
    ShiftDepths(s.bus, list, 1);
    assert t.callers[..|t.callers| - 1] == s.callers;
    if t.callers[|s.callers|].phase.Nested? && c in list {
      var i :| 0 <= i < |list| && list[i] == c;
    }
  }

  lemma AttemptKeepsDepthsExact(s: Sys, id: Id)
    requires DepthsExact(s) && Enabled(s, Try(id))
    ensures DepthsExact(Attempt(s, id))
  {
    var t := Attempt(s, id);
    forall c
      ensures Depth(t.bus, c) == (if c in t.bus.holders then 1 + NestedOn(t.callers, c) else 0)
      ensures c !in t.bus.holders ==> NestedOn(t.callers, c) == 0
    {
      NestedOnUpdate(s.callers, id, t.callers[id], c);
    }
  }

  /**
   A finished function leaves the depths exact if and only if it was not the owner of a class on which a
   nested function still executes.
   */
  lemma SettleKeepsDepthsExactIff(s: Sys, id: Id)
    requires AllWellFormed(s) && DepthsExact(s) && Enabled(s, Finish(id))
    ensures DepthsExact(Settle(s, id))
       <==> (s.callers[id].phase.Running? ==> forall c :: c in s.callers[id].list ==> NestedOn(s.callers, c) == 0)
  {
    if s.callers[id].phase.Running? {
      OwnerSettles(s, id);
    } else {
      NonHolderSettles(s, id);
    }
  }

  lemma OwnerSettles(s: Sys, id: Id)
    requires DepthsExact(s) && id < |s.callers| && s.callers[id].phase.Running?
    ensures DepthsExact(Settle(s, id)) <==> forall c :: c in s.callers[id].list ==> NestedOn(s.callers, c) == 0
  {
    var x := s.callers[id];
    var t := Settle(s, id);
    assert x.list[..|x.list|] == x.list;
    var r := s.(callers := s.callers[id := x.(phase := Releasing(|x.list|))]);
    ReleaseLoopEffect(r, id);
    ReleaseAllFrees(s.bus, x.list);
    forall c ensures NestedOn(t.callers, c) == NestedOn(s.callers, c) {
      forall j | 0 <= j < |s.callers| ensures NestedWith(s.callers[j], c) <==> NestedWith(t.callers[j], c) {
        if j != id { assert Same(r.callers[j], t.callers[j]); }
      }
      SameNestedOn(s.callers, t.callers, c);
    }
    assert forall c :: c in t.bus.holders <==> c in s.bus.holders && c !in x.list;
    assert forall c :: c in x.list ==> Depth(t.bus, c) == 0;
  }

  /** A forced release leaves the depths exact if and only if no nested function executes on its class. */
  lemma ForceKeepsDepthsExactIff(s: Sys, c: Class)
    requires QueuesMatch(s) && DepthsExact(s)
    ensures DepthsExact(ForceStep(s, c)) <==> NestedOn(s.callers, c) == 0
  {
    var t := ForceStep(s, c);
    ForceStepEffect(s, c);
    ForceReleaseHandsOver(s.bus, c);
    forall d ensures NestedOn(t.callers, d) == NestedOn(s.callers, d) {
      SameNestedOn(s.callers, t.callers, d);
    }
    assert Depth(t.bus, c) == if c in t.bus.holders then 1 else 0;
    assert forall d :: d != c ==> (d in t.bus.holders <==> d in s.bus.holders);
  }

  lemma NonHolderSettles(s: Sys, id: Id)
    requires DepthsExact(s) && id < |s.callers| && Ranked(s.callers[id].list)
    requires s.callers[id].phase.Nested? || s.callers[id].phase.Unlocked?
    ensures DepthsExact(Settle(s, id))
  {
    var x := s.callers[id];
    var t := Settle(s, id);
    ShiftDepths(s.bus, x.list, -1);
    forall c
      ensures Depth(t.bus, c) == (if c in t.bus.holders then 1 + NestedOn(t.callers, c) else 0)
      ensures c !in t.bus.holders ==> NestedOn(t.callers, c) == 0
    {
      NestedOnUpdate(s.callers, id, x.(phase := Done), c);
      if NestedOn(s.callers, c) == 0 { NestedOnZero(s.callers, c, id); }
    }
  }

  /** The event takes no class away from under a nested function: the end of an owner, or a forced release. */
  ghost predicate EndsNoOuter(s: Sys, e: Event)
    requires Enabled(s, e)
  {
    match e
    case Finish(id) => s.callers[id].phase.Running? ==> forall c :: c in s.callers[id].list ==> NestedOn(s.callers, c) == 0
    case Force(c) => NestedOn(s.callers, c) == 0
    case _ => true
  }

  lemma StepKeepsDepthsExactIff(s: Sys, e: Event)
    requires Consistent(s) && DepthsExact(s) && Enabled(s, e)
    ensures DepthsExact(Step(s, e)) <==> EndsNoOuter(s, e)
  {
    match e
    case Call(list) => ArriveKeepsDepthsExact(s, list);
    case Try(id) => AttemptKeepsDepthsExact(s, id);
    case Finish(id) => SettleKeepsDepthsExactIff(s, id);
    case Force(c) => ForceKeepsDepthsExactIff(s, c);
  }

  /** Every nested function of the run ends before its class is given up or forced away. */
  ghost predicate Bracketed(s: Sys, events: seq<Event>)
    decreases |events|
  {
    events == [] || (Enabled(s, events[0]) && EndsNoOuter(s, events[0]) && Bracketed(Step(s, events[0]), events[1..]))
  }

  ghost predicate AlwaysDepthsExact(s: Sys, events: seq<Event>)
    decreases |events|
  {
    DepthsExact(s) && (events == [] || (Enabled(s, events[0]) && AlwaysDepthsExact(Step(s, events[0]), events[1..])))
  }

  /** Over any run: the depths are exact in every state if and only if the run is bracketed. */
  lemma {:induction false} AlwaysDepthsExactIff(s: Sys, events: seq<Event>, t: Sys)
    requires Consistent(s) && DepthsExact(s) && Reaches(s, events, t)
    ensures AlwaysDepthsExact(s, events) <==> Bracketed(s, events)
    ensures Bracketed(s, events) ==> DepthsExact(t)
    decreases |events|
  {
    if events != [] {
      StepKeepsDepthsExactIff(s, events[0]);
      StepKeepsConsistent(s, events[0]);
      if DepthsExact(Step(s, events[0])) {
        AlwaysDepthsExactIff(Step(s, events[0]), events[1..], t);
      }
    }
  }

  /**
   The nesting test looks at the bus, not at the caller: a newly arriving call starts its function at once if and
   only if every class it asks for has a positive depth, and then every one of them is held.
   */
  lemma ArrivalOverlapsIff(s: Sys, list: seq<Class>)
    requires NestedMeansHeld(s) && GoodList(list) && list != [Light]
    ensures Executing(Arrive(s, list).callers[|s.callers|]) <==> forall c :: c in list ==> Depth(s.bus, c) > 0
    ensures Executing(Arrive(s, list).callers[|s.callers|]) ==> forall c :: c in list ==> c in s.bus.holders
  {
    if exists c :: c in list && Depth(s.bus, c) <= 0 {
      var c :| c in list && Depth(s.bus, c) <= 0;
      var i :| 0 <= i < |list| && list[i] == c;
      assert !AllNested(s.bus, list);
    } else {
      assert forall i :: 0 <= i < |list| ==> list[i] in list;
    }
  }

  lemma InitialDepthsExact()
    ensures DepthsExact(INITIAL)
  {
  }

  /** After a bracketed run it does so if and only if all of them are held. */
  lemma {:induction false} BracketedArrivalOverlapsIff(events: seq<Event>, s: Sys, list: seq<Class>)
    requires Reaches(INITIAL, events, s) && Bracketed(INITIAL, events)
    requires GoodList(list) && list != [Light]
    ensures Executing(Arrive(s, list).callers[|s.callers|]) <==> forall c :: c in list ==> c in s.bus.holders
  {
    InitialInv();
    InitialDepthsExact();
    RunKeepsConsistent(INITIAL, events, s);
    AlwaysDepthsExactIff(INITIAL, events, s);
    ArrivalOverlapsIff(s, list);
    assert forall c :: c in s.bus.holders ==> Depth(s.bus, c) > 0;
  }

  /**
   Without that, a held class can have depth 0, and the next call for it queues: a holder leaves before the function
   nested in it, a second caller takes the class, and the nested function lowers the depth of the second one.
   */
  lemma HeldAtDepthZero()
    ensures exists t :: Reaches(INITIAL, [Call([Gpu]), Try(0), Call([Gpu]), Finish(0), Call([Gpu]), Try(2), Finish(1)], t)
              && t.callers == [Caller([Gpu], Done), Caller([Gpu], Done), Caller([Gpu], Running)]
              && Gpu in t.bus.holders && Depth(t.bus, Gpu) == 0 && Arrive(t, [Gpu]).callers[3].phase == Trying(0)
  {
    var l := [Gpu];
    var s4 := Settle(OverlapState(), 0);
    LoneHolderSettles(OverlapState());
    HeldAtDepthZeroEnds(s4);
    var t := Settle(Attempt(Arrive(s4, l), 2), 1);
    var rest := [Call(l), Try(2), Finish(1)];
    HolderLeaves(rest, t);
    assert [Call(l), Try(0), Call(l), Finish(0)] + rest == [Call(l), Try(0), Call(l), Finish(0), Call(l), Try(2), Finish(1)];
  }

  lemma HolderLeaves(rest: seq<Event>, t: Sys)
    requires Reaches(Settle(OverlapState(), 0), rest, t)
    ensures Reaches(INITIAL, [Call([Gpu]), Try(0), Call([Gpu]), Finish(0)] + rest, t)
  {
    OneStep(OverlapState(), Finish(0), rest, t);
    OverlapReached([Finish(0)] + rest, t);
    assert [Call([Gpu]), Try(0), Call([Gpu])] + ([Finish(0)] + rest) == [Call([Gpu]), Try(0), Call([Gpu]), Finish(0)] + rest;
  }

  /** A holder of the gpu beside a nested function. */
  function OverlapState(): Sys {
    Sys(Bus(map[Gpu := 0], map[], map[Gpu := 2]), [Caller([Gpu], Running), Caller([Gpu], Nested)])
  }

  lemma OverlapSetUp()
    ensures Enabled(INITIAL, Call([Gpu]))
    ensures var s1 := Arrive(INITIAL, [Gpu]); Enabled(s1, Try(0)) && Arrive(Attempt(s1, 0), [Gpu]) == OverlapState()
  {
    var s2 := Attempt(Arrive(INITIAL, [Gpu]), 0);
    assert Depth(INITIAL.bus, [Gpu][0]) == 0;
    assert s2.bus == Bus(map[Gpu := 0], map[], map[Gpu := 1]);
    assert Shift(s2.bus, [Gpu], 1) == OverlapState().bus;
  }

  lemma OverlapReached(rest: seq<Event>, t: Sys)
    requires Reaches(OverlapState(), rest, t)
    ensures Reaches(INITIAL, [Call([Gpu]), Try(0), Call([Gpu])] + rest, t)
  {
    OverlapSetUp();
    var s1 := Arrive(INITIAL, [Gpu]);
    OneStep(Attempt(s1, 0), Call([Gpu]), rest, t);
    OneStep(s1, Try(0), [Call([Gpu])] + rest, t);
    OneStep(INITIAL, Call([Gpu]), [Try(0)] + ([Call([Gpu])] + rest), t);
    assert [Call([Gpu])] + ([Try(0)] + ([Call([Gpu])] + rest)) == [Call([Gpu]), Try(0), Call([Gpu])] + rest;
  }

  /** A holder of the gpu that leaves with nobody waiting frees it at depth zero. */
  lemma LoneHolderSettles(s: Sys)
    requires s.callers == [Caller([Gpu], Running), Caller([Gpu], Nested)] && s.bus.waiters == map[]
    ensures var t := Settle(s, 0);
            && t.callers == [Caller([Gpu], Done), Caller([Gpu], Nested)] && t.bus.waiters == map[]
            && Depth(t.bus, Gpu) == 0 && Gpu !in t.bus.holders
  {
    var r := s.(callers := s.callers[0 := Caller([Gpu], Releasing(1))]);
    ReleaseLoopEffect(r, 0);
    ReleaseAllFrees(s.bus, [Gpu]);
    assert [Gpu][..1] == [Gpu];
    assert Same(r.callers[1], Settle(s, 0).callers[1]);
    assert ReleaseAll(s.bus, [Gpu]) == ReleaseAll(ReleaseOne(s.bus, Gpu), [Gpu][..0]);
    assert [Gpu][..0] == [];
  }

  lemma HeldAtDepthZeroEnds(s: Sys)
    requires s.callers == [Caller([Gpu], Done), Caller([Gpu], Nested)]
    requires Depth(s.bus, Gpu) == 0 && Gpu !in s.bus.holders
    ensures var t := Settle(Attempt(Arrive(s, [Gpu]), 2), 1);
            && Reaches(s, [Call([Gpu]), Try(2), Finish(1)], t)
            && t.callers == [Caller([Gpu], Done), Caller([Gpu], Done), Caller([Gpu], Running)]
            && Gpu in t.bus.holders && Depth(t.bus, Gpu) == 0 && Arrive(t, [Gpu]).callers[3].phase == Trying(0)
  {
    var s5 := Arrive(s, [Gpu]);
    assert !AllNested(s.bus, [Gpu]) by { assert Depth(s.bus, [Gpu][0]) == 0; }
    var s6 := Attempt(s5, 2);
    assert Depth(s6.bus, Gpu) == 1;
    var t := Settle(s6, 1);
    ShiftDepths(s6.bus, [Gpu], -1);
    assert !AllNested(t.bus, [Gpu]) by { assert Depth(t.bus, [Gpu][0]) == 0; }
    OneStep(s6, Finish(1), [], t);
    OneStep(s5, Try(2), [Finish(1)] + [], t);
    OneStep(s, Call([Gpu]), [Try(2)] + ([Finish(1)] + []), t);
    assert [Call([Gpu])] + ([Try(2)] + ([Finish(1)] + [])) == [Call([Gpu]), Try(2), Finish(1)];
  }

  /** A second call for a held class runs its function while the first one runs. */
  lemma SecondCallerOverlaps()
    ensures exists t :: Reaches(INITIAL, [Call([Gpu]), Try(0), Call([Gpu])], t)
              && t.callers == [Caller([Gpu], Running), Caller([Gpu], Nested)]
  {
    OverlapReached([], OverlapState());
    assert [Call([Gpu]), Try(0), Call([Gpu])] + [] == [Call([Gpu]), Try(0), Call([Gpu])];
  }

  // ---------------------------------------------------------------- no deadlock, every call completes

  /** Between steps nobody is inside the release loop. */
  ghost predicate Settled(s: Sys) {
    forall id :: 0 <= id < |s.callers| ==> !s.callers[id].phase.Releasing?
  }

  ghost predicate CanStep(s: Sys, e: Event) {
    (e.Try? || e.Finish?) && Enabled(s, e)
  }

  /**
   Deadlock freedom in every state, forced releases or not: while some caller is not done, some caller can attempt, or
   finish its function.
   A blocked caller waits for a class of higher rank than all it holds, so following holders climbs the ranks.
   */
  lemma {:induction false} SomeoneCanStep(s: Sys, id: Id)
    requires Consistent(s) && Settled(s) && id < |s.callers| && !s.callers[id].phase.Done?
    ensures exists e :: CanStep(s, e)
    decreases if s.callers[id].phase.Queued? then 6 - Rank(s.callers[id].list[s.callers[id].phase.i]) else 7
  {
    var x := s.callers[id];
    if x.phase.Queued? {
      var c := x.list[x.phase.i];
      assert Waits(x, c);
      if c in s.bus.holders {
        var h := s.bus.holders[c];
        var y := s.callers[h];
        if y.phase.Queued? {
          var j :| 0 <= j < y.phase.i && y.list[j] == c;
          SomeoneCanStep(s, h);
        } else if y.phase.Trying? {
          assert CanStep(s, Try(h));
        } else {
          assert CanStep(s, Finish(h));
        }
      } else {
        assert Wanted(s.callers, c);
        var w :| 0 <= w < |s.callers| && Wants(s.callers[w], c);
        assert CanStep(s, Try(w));
      }
    } else if x.phase.Trying? {
      assert CanStep(s, Try(id));
    } else {
      assert CanStep(s, Finish(id));
    }
  }

  /** Steps a caller may still cost; a wake-up costs its waiter one more attempt, paid for by the releaser. */
  function Cost(x: Caller): nat {
    var n := |x.list|;
    match x.phase
    case Trying(i) => if i <= n then 2 * (n - i) + n + 1 else 0
    case Queued(i) => if i <= n then 2 * (n - i) + n else 0
    case Running => n + 1
    case Releasing(k) => k
    case Nested => 1
    case Unlocked => 1
    case Done => 0
  }

  function Work(callers: seq<Caller>): nat {
    if callers == [] then 0 else Work(callers[..|callers| - 1]) + Cost(callers[|callers| - 1])
  }

  lemma {:induction false} WorkUpdate(callers: seq<Caller>, id: Id, x: Caller)
    requires id < |callers|
    ensures Work(callers[id := x]) == Work(callers) - Cost(callers[id]) + Cost(x)
  {
    var n := |callers| - 1;
    if id == n {
      assert callers[id := x][..n] == callers[..n];
    } else {
      WorkUpdate(callers[..n], id, x);
      assert callers[id := x][..n] == callers[..n][id := x];
    }
  }

  lemma {:induction false} ReleaseLoopWork(s: Sys, id: Id)
    requires id < |s.callers| && s.callers[id].phase.Releasing? && s.callers[id].phase.k <= |s.callers[id].list|
    ensures Work(ReleaseLoop(s, id).callers) <= Work(s.callers)
    decreases s.callers[id].phase.k
  {
    var x := s.callers[id];
    if x.phase.k == 0 {
      WorkUpdate(s.callers, id, x.(phase := Done));
    } else {
      ReleaseStepWork(s, id);
      ReleaseLoopWork(ReleaseStep(s, id), id);
    }
  }

  lemma ReleaseStepWork(s: Sys, id: Id)
    requires id < |s.callers| && s.callers[id].phase.Releasing? && 0 < s.callers[id].phase.k <= |s.callers[id].list|
    ensures Work(ReleaseStep(s, id).callers) <= Work(s.callers)
  {
    var x := s.callers[id];
    var w := Woken(s.bus, x.list[x.phase.k - 1]);
    WakeWork(s.callers, w);
    WorkUpdate(Wake(s.callers, w), id, x.(phase := Releasing(x.phase.k - 1)));
  }

  lemma WakeWork(callers: seq<Caller>, w: Option<Id>)
    ensures Work(Wake(callers, w)) <= Work(callers) + 1
  {
    if w.Some? && w.value < |callers| && callers[w.value].phase.Queued? {
      WorkUpdate(callers, w.value, callers[w.value].(phase := Trying(callers[w.value].phase.i)));
    }
  }

  lemma HolderReducesWork(s: Sys, id: Id)
    requires Settled(s) && id < |s.callers| && s.callers[id].phase.Running?
    ensures Work(Settle(s, id).callers) < Work(s.callers) && Settled(Settle(s, id))
  {
    var x := s.callers[id];
    var r := s.(callers := s.callers[id := x.(phase := Releasing(|x.list|))]);
    WorkUpdate(s.callers, id, x.(phase := Releasing(|x.list|)));
    ReleaseLoopWork(r, id);
    ReleaseLoopEffect(r, id);
    assert forall j :: 0 <= j < |s.callers| && j != id ==> Same(r.callers[j], Settle(s, id).callers[j]);
  }

  /** Every attempt and every finish strictly reduces the work left, and no caller stays in the release loop. */
  lemma StepReducesWork(s: Sys, e: Event)
    requires Settled(s) && CanStep(s, e)
    ensures Work(Step(s, e).callers) < Work(s.callers) && Settled(Step(s, e))
  {
    match e
    case Try(id) =>
      WorkUpdate(s.callers, id, Attempt(s, id).callers[id]);
    case Finish(id) =>
      if s.callers[id].phase.Running? {
        HolderReducesWork(s, id);
      } else {
        WorkUpdate(s.callers, id, s.callers[id].(phase := Done));
      }
  }

  /** A forced release adds no work: the first waiter gets its class without another attempt. */
  lemma ForceKeepsWork(s: Sys, c: Class)
    requires QueuesMatch(s) && Settled(s)
    ensures Work(ForceStep(s, c).callers) <= Work(s.callers) && Settled(ForceStep(s, c))
  {
    var t, q := ForceStep(s, c), Queue(s.bus, c);
    ForceStepEffect(s, c);
    if q != [] {
      assert t.callers == s.callers[q[0] := Took(s.callers[q[0]])];
      WorkUpdate(s.callers, q[0], Took(s.callers[q[0]]));
    }
  }

  /** How many events of the run are attempts and ends of functions. */
  function Moves(events: seq<Event>): nat {
    if events == [] then 0 else (if events[0].Try? || events[0].Finish? then 1 else 0) + Moves(events[1..])
  }

  ghost predicate NoCalls(events: seq<Event>) {
    forall i :: 0 <= i < |events| ==> !events[i].Call?
  }

  /** Without new calls, whatever is forced, a run has no more moves than the work that was left when it started. */
  lemma {:induction false} RunBoundedByWork(s: Sys, events: seq<Event>, t: Sys)
    requires Consistent(s) && Settled(s) && Reaches(s, events, t) && NoCalls(events)
    ensures Moves(events) + Work(t.callers) <= Work(s.callers)
    ensures Consistent(t) && Settled(t)
    decreases |events|
  {
    if events != [] {
      if events[0].Force? {
        ForceKeepsWork(s, events[0].c);
      } else {
        StepReducesWork(s, events[0]);
      }
      StepKeepsConsistent(s, events[0]);
      RunBoundedByWork(Step(s, events[0]), events[1..], t);
    }
  }

  lemma {:induction false} RunKeepsSettled(s: Sys, events: seq<Event>, t: Sys)
    requires Consistent(s) && Settled(s) && Reaches(s, events, t)
    ensures Settled(t)
    decreases |events|
  {
    if events != [] {
      if events[0].Force? {
        ForceKeepsWork(s, events[0].c);
      } else if !events[0].Call? {
        StepReducesWork(s, events[0]);
      }
      StepKeepsConsistent(s, events[0]);
      RunKeepsSettled(Step(s, events[0]), events[1..], t);
    }
  }

  /**
   A run in which no caller can go on, whatever the interleaving and whatever was forced, has completed every call and
   left the bus empty. With RunBoundedByWork: once calls stop arriving every interleaving gets there.
   */
  lemma {:induction false} StuckRunIsComplete(events: seq<Event>, t: Sys)
    requires Reaches(INITIAL, events, t)
    requires forall e :: !CanStep(t, e)
    ensures forall id :: 0 <= id < |t.callers| ==> t.callers[id].phase.Done?
    ensures t.bus.holders == map[] && forall c :: Queue(t.bus, c) == []
  {
    InitialInv();
    RunKeepsConsistent(INITIAL, events, t);
    RunKeepsSettled(INITIAL, events, t);
    assert forall c :: Queue(t.bus, c) != [] ==> Queue(t.bus, c)[0] < |t.callers| && Waits(t.callers[Queue(t.bus, c)[0]], c);
    forall id | 0 <= id < |t.callers| ensures t.callers[id].phase.Done? {
      if !t.callers[id].phase.Done? {
        SomeoneCanStep(t, id);
      }
    }
  }
}
