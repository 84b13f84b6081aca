/**
 Forced release, which a pack's timeout runs for three classes whoever holds them: what it moves, what it keeps of the
 lock protocol in every state, when it keeps the record of the owners, and when a class gets a second owner.
 */
module ForcedRelease {
  import opened ResourceClasses
  import opened ResourceBus
  import opened LockProtocol

  lemma {:induction false} RetryHeld(s: Sys, c: Class, q: seq<Id>)
    requires c in s.bus.holders
    requires forall k :: 0 <= k < |q| ==> q[k] < |s.callers| && Waits(s.callers[q[k]], c)
    ensures Retry(s, q).callers == s.callers && Retry(s, q).bus == TryAll(s.bus, c, q)
    decreases |q|
  {
    if q != [] {
      var t := Attempt(s, q[0]);
      assert t.callers == s.callers;
      RetryHeld(t, c, q[1..]);
    }
  }

  /**
   On the bus, the step is the bus's own forced release; among the callers only the first waiter moves, and it takes the
   class.
   */
  lemma ForceStepEffect(s: Sys, c: Class)
    requires QueuedWait(s) && QueuedOnce(s)
    ensures var q := Queue(s.bus, c); var t := ForceStep(s, c);
            && t.bus == ForceRelease(s.bus, c)
            && |t.callers| == |s.callers|
            && (q == [] ==> t.callers == s.callers)
            && (q != [] ==> forall j :: 0 <= j < |s.callers| && j != q[0] ==> t.callers[j] == s.callers[j])
            && (q != [] ==> q[0] < |s.callers| && Waits(s.callers[q[0]], c) && t.callers[q[0]] == Took(s.callers[q[0]])
                            && forall d :: Owns(t.callers[q[0]], d) <==> Owns(s.callers[q[0]], d) || d == c)
  {
    var q := Queue(s.bus, c);
    if q != [] {
      var d := s.(bus := Dropped(s.bus, c));
      var x := s.callers[q[0]];
      assert Waits(x, c);
      var u := Attempt(d, q[0]);
      TookOwns(x, c);
      forall k | 0 <= k < |q[1..]|
        ensures q[1..][k] < |u.callers| && Waits(u.callers[q[1..][k]], c)
      {
        assert q[1..][k] == q[k + 1] && q[k + 1] != q[0];
      }
      RetryHeld(u, c, q[1..]);
    }
  }

  // ---------------------------------------------------------------- what it keeps in every state

  lemma ForcePops(s: Sys, c: Class)
    requires QueuesMatch(s)
    ensures Popped(s, ForceStep(s, c), c)
  {
    ForceStepEffect(s, c);
    ForceReleaseHandsOver(s.bus, c);
  }

  /** t is s with class c dropped, or handed to caller q[0]. */
  ghost predicate HandedOver(s: Sys, t: Sys, c: Class, q: seq<Id>) {
    && |t.callers| == |s.callers| && (q != [] ==> q[0] < |s.callers|)
    && t.bus.holders == (if q == [] then s.bus.holders - {c} else s.bus.holders[c := q[0]])
    && forall j, d :: 0 <= j < |s.callers| ==> (Owns(t.callers[j], d) <==> Owns(s.callers[j], d) || (q != [] && j == q[0] && d == c))
  }

  lemma ForceHandsOver(s: Sys, c: Class)
    requires QueuedWait(s) && QueuedOnce(s)
    ensures HandedOver(s, ForceStep(s, c), c, Queue(s.bus, c))
  {
    ForceStepEffect(s, c);
    ForceReleaseHandsOver(s.bus, c);
  }

  lemma HandOverKeepsHoldersOwn(s: Sys, t: Sys, c: Class, q: seq<Id>)
    requires HoldersOwn(s) && HandedOver(s, t, c, q)
    ensures HoldersOwn(t)
  {
    forall d | d in t.bus.holders
      ensures t.bus.holders[d] < |t.callers| && Owns(t.callers[t.bus.holders[d]], d)
    {
      assert d != c ==> Owns(s.callers[s.bus.holders[d]], d);
    }
  }

  lemma ForceKeepsWellFormed(s: Sys, c: Class)
    requires AllWellFormed(s) && QueuesMatch(s)
    ensures AllWellFormed(ForceStep(s, c))
  {
    var t, q := ForceStep(s, c), Queue(s.bus, c);
    ForceStepEffect(s, c);
    forall j | 0 <= j < |t.callers|
      ensures WellFormed(t.callers[j])
    {
      assert WellFormed(s.callers[j]);
    }
  }

  lemma ForceKeepsNestedMeansHeld(s: Sys, c: Class)
    requires QueuesMatch(s) && NestedMeansHeld(s)
    ensures NestedMeansHeld(ForceStep(s, c))
  {
    ForceStepEffect(s, c);
    ForceReleaseHandsOver(s.bus, c);
  }

  lemma ForceKeepsNoLostWakeup(s: Sys, c: Class)
    requires QueuesMatch(s) && NoLostWakeup(s)
    ensures NoLostWakeup(ForceStep(s, c))
  {
    var t, q := ForceStep(s, c), Queue(s.bus, c);
    ForceStepEffect(s, c);
    ForceReleaseHandsOver(s.bus, c);
    forall d | Queue(t.bus, d) != [] && d !in t.bus.holders
      ensures Wanted(t.callers, d)
    {
      StillWanted(s.callers, t.callers, d, if q == [] then |s.callers| else q[0]);
    }
  }

  /** In every state, whoever holds the class: the queues, the wake-ups, the nesting and the holders stay right. */
  lemma ForceKeepsConsistent(s: Sys, c: Class)
    requires Consistent(s)
    ensures Consistent(ForceStep(s, c))
  {
    ForcePops(s, c);
    PopKeepsQueuedWait(s, ForceStep(s, c), c);
    PopKeepsWaitersQueued(s, ForceStep(s, c), c);
    ForceHandsOver(s, c);
    HandOverKeepsHoldersOwn(s, ForceStep(s, c), c, Queue(s.bus, c));
    ForceKeepsWellFormed(s, c);
    ForceKeepsNestedMeansHeld(s, c);
    ForceKeepsNoLostWakeup(s, c);
  }

  lemma StepKeepsConsistent(s: Sys, e: Event)
    requires Consistent(s) && Enabled(s, e)
    ensures Consistent(Step(s, e))
  {
    match e
    case Call(list) => ArriveKeepsInv(s, list);
    case Try(id) => AttemptKeepsInv(s, id);
    case Finish(id) => SettleKeepsInv(s, id);
    case Force(c) => ForceKeepsConsistent(s, c);
  }

  lemma {:induction false} RunKeepsConsistent(s: Sys, events: seq<Event>, t: Sys)
    requires Consistent(s) && Reaches(s, events, t)
    ensures Consistent(t)
    decreases |events|
  {
    if events != [] {
      StepKeepsConsistent(s, events[0]);
      RunKeepsConsistent(Step(s, events[0]), events[1..], t);
    }
  }

  // ---------------------------------------------------------------- the record of the owners

  /** The class that a caller queues for or is about to take is not among those it owns. */
  lemma NextIsNotOwned(x: Caller, c: Class)
    requires Ranked(x.list) && (Waits(x, c) || Wants(x, c))
    ensures !Owns(x, c)
  {
    assert forall j :: 0 <= j < x.phase.i ==> Rank(x.list[j]) < Rank(x.list[x.phase.i]);
    assert forall j :: 0 <= j < x.phase.i ==> x.list[..x.phase.i][j] != c;
  }

  /** A forced release keeps every owner recorded, and with that the whole invariant, if and only if the class was not held. */
  lemma ForceKeepsInvIff(s: Sys, c: Class)
    requires Inv(s)
    ensures Inv(ForceStep(s, c)) <==> c !in s.bus.holders
  {
    ForceKeepsConsistent(s, c);
    ForceHandsOver(s, c);
    if c in s.bus.holders {
      if Queue(s.bus, c) != [] {
        FirstWaiterOwnsNot(s, c);
      }
      HeldForceLosesOwner(s, ForceStep(s, c), c, Queue(s.bus, c), s.bus.holders[c]);
    } else {
      FreeForceKeepsOwners(s, ForceStep(s, c), c, Queue(s.bus, c));
    }
  }

  lemma HeldForceLosesOwner(s: Sys, t: Sys, c: Class, q: seq<Id>, h: Id)
    requires HandedOver(s, t, c, q) && h < |s.callers| && Owns(s.callers[h], c)
    requires q != [] ==> !Owns(s.callers[q[0]], c)
    ensures !OwnersRecorded(t)
  {
    assert q != [] ==> h != q[0];
    assert c in t.bus.holders ==> q != [] && t.bus.holders[c] == q[0];
    assert Owns(t.callers[h], c) && 0 <= h < |t.callers|;
  }

  lemma FirstWaiterOwnsNot(s: Sys, c: Class)
    requires Consistent(s) && Queue(s.bus, c) != []
    ensures Queue(s.bus, c)[0] < |s.callers| && !Owns(s.callers[Queue(s.bus, c)[0]], c)
  {
    var w := Queue(s.bus, c)[0];
    assert Waits(s.callers[w], c) && WellFormed(s.callers[w]);
    NextIsNotOwned(s.callers[w], c);
  }

  lemma FreeForceKeepsOwners(s: Sys, t: Sys, c: Class, q: seq<Id>)
    requires Exclusive(s) && c !in s.bus.holders && HandedOver(s, t, c, q)
    ensures OwnersRecorded(t)
  {
  }

  /** Every forced release of the run hits a class that is free at the time. */
  ghost predicate FreeForces(s: Sys, events: seq<Event>)
    decreases |events|
  {
    events == []
    || (&& Enabled(s, events[0]) && (events[0].Force? ==> events[0].c !in s.bus.holders)
        && FreeForces(Step(s, events[0]), events[1..]))
  }

  ghost predicate AlwaysInv(s: Sys, events: seq<Event>)
    decreases |events|
  {
    Inv(s) && (events == [] || (Enabled(s, events[0]) && AlwaysInv(Step(s, events[0]), events[1..])))
  }

  lemma StepKeepsInvIff(s: Sys, e: Event)
    requires Inv(s) && Enabled(s, e)
    ensures Inv(Step(s, e)) <==> (e.Force? ==> e.c !in s.bus.holders)
  {
    match e
    case Call(list) => ArriveKeepsInv(s, list);
    case Try(id) => AttemptKeepsInv(s, id);
    case Finish(id) => SettleKeepsInv(s, id);
    case Force(c) => ForceKeepsInvIff(s, c);
  }

  /** Over any run: the invariant holds in every state if and only if the forced releases hit free classes only. */
  lemma {:induction false} AlwaysInvIff(s: Sys, events: seq<Event>, t: Sys)
    requires Inv(s) && Reaches(s, events, t)
    ensures AlwaysInv(s, events) <==> FreeForces(s, events)
    ensures FreeForces(s, events) ==> Inv(t)
    decreases |events|
  {
    if events != [] {
      StepKeepsInvIff(s, events[0]);
      if Inv(Step(s, events[0])) {
        AlwaysInvIff(Step(s, events[0]), events[1..], t);
      }
    }
  }

  // ---------------------------------------------------------------- two owners

  /** No class has two owners. */
  ghost predicate SingleOwner(s: Sys) {
    forall a, b, c :: 0 <= a < b < |s.callers| && Owns(s.callers[a], c) ==> !Owns(s.callers[b], c)
  }

  lemma {:induction false} ExclusiveIsSingle(s: Sys)
    requires Exclusive(s)
    ensures SingleOwner(s)
  {
    forall a, b, c | 0 <= a < b < |s.callers| && Owns(s.callers[a], c)
      ensures !Owns(s.callers[b], c)
    {
      assert s.bus.holders[c] == a;
    }
  }

  lemma {:induction false} TwoOwners(s: Sys, a: Id, b: Id, c: Class)
    requires a < |s.callers| && b < |s.callers| && a != b && Owns(s.callers[a], c) && Owns(s.callers[b], c)
    ensures !SingleOwner(s)
  {
    if a < b {
      assert Owns(s.callers[a], c) && Owns(s.callers[b], c);
    } else {
      assert Owns(s.callers[b], c) && Owns(s.callers[a], c);
    }
  }

  /**
   A forced release leaves no class with two owners if and only if the class was not held or nobody waited for it:
   the first waiter takes the class that the old owner still uses.
   */
  lemma {:induction false} ForceKeepsSingleOwnerIff(s: Sys, c: Class)
    requires Inv(s)
    ensures SingleOwner(ForceStep(s, c)) <==> c !in s.bus.holders || Queue(s.bus, c) == []
  {
    ForceStepEffect(s, c);
    ExclusiveIsSingle(s);
    if c !in s.bus.holders {
      ForceKeepsInvIff(s, c);
      ExclusiveIsSingle(ForceStep(s, c));
    } else if Queue(s.bus, c) != [] {
      var h, w := s.bus.holders[c], Queue(s.bus, c)[0];
      assert Owns(s.callers[h], c) && Waits(s.callers[w], c);
      assert WellFormed(s.callers[w]);
      NextIsNotOwned(s.callers[w], c);
      TwoOwners(ForceStep(s, c), h, w, c);
    }
  }

  /** Forced away while nobody waits, a held class is free on the bus, and the next caller that takes it is a second owner. */
  lemma {:induction false} NextTakeDoublesOwner(s: Sys, c: Class, id: Id)
    requires Inv(s) && c in s.bus.holders && Queue(s.bus, c) == []
    requires id < |s.callers| && Wants(s.callers[id], c)
    ensures Enabled(ForceStep(s, c), Try(id)) && !SingleOwner(Attempt(ForceStep(s, c), id))
  {
    ForceStepEffect(s, c);
    ForceReleaseHandsOver(s.bus, c);
    var t, x := ForceStep(s, c), s.callers[id];
    var h := s.bus.holders[c];
    assert WellFormed(x) && Owns(s.callers[h], c);
    NextIsNotOwned(x, c);
    var u := Attempt(t, id);
    assert x.list[..x.phase.i + 1][x.phase.i] == c;
    assert x.list[..|x.list|] == x.list;
    assert Owns(u.callers[id], c);
    TwoOwners(u, h, id, c);
  }

  /** Two callers own the gpu class after the first one's class is forced away from under it. */
  lemma ForcedReleaseTwoOwners()
    ensures exists t :: Reaches(INITIAL, [Call([Gpu]), Call([Gpu]), Try(0), Try(1), Force(Gpu)], t)
              && t.callers == [Caller([Gpu], Running), Caller([Gpu], Running)]
  {
    var l := [Gpu];
    var s1 := Arrive(INITIAL, l);
    var s2 := Arrive(s1, l);
    var s3 := Attempt(s2, 0);
    var s4 := Attempt(s3, 1);
    var s5 := ForceStep(s4, Gpu);
    assert Depth(s1.bus, Gpu) == 0 && !AllNested(s1.bus, l);
    assert s2.callers == [Caller(l, Trying(0)), Caller(l, Trying(0))];
    assert s3.callers == [Caller(l, Running), Caller(l, Trying(0))];
    assert s4.callers == [Caller(l, Running), Caller(l, Queued(0))] && Queue(s4.bus, Gpu) == [1];
    var d := s4.(bus := Dropped(s4.bus, Gpu));
    assert Retry(Attempt(d, 1), [1][1..]) == Attempt(d, 1);
    assert s5.callers == [Caller(l, Running), Caller(l, Running)];
    OneStep(s4, Force(Gpu), [], s5);
    OneStep(s3, Try(1), [Force(Gpu)], s5);
    OneStep(s2, Try(0), [Try(1), Force(Gpu)], s5);
    OneStep(s1, Call(l), [Try(0), Try(1), Force(Gpu)], s5);
    OneStep(INITIAL, Call(l), [Call(l), Try(0), Try(1), Force(Gpu)], s5);
    assert [Force(Gpu)] + [] == [Force(Gpu)];
    assert [Try(1)] + [Force(Gpu)] == [Try(1), Force(Gpu)];
    assert [Try(0)] + [Try(1), Force(Gpu)] == [Try(0), Try(1), Force(Gpu)];
    assert [Call(l)] + [Try(0), Try(1), Force(Gpu)] == [Call(l), Try(0), Try(1), Force(Gpu)];
    assert [Call(l)] + [Call(l), Try(0), Try(1), Force(Gpu)] == [Call(l), Call(l), Try(0), Try(1), Force(Gpu)];
  }
}
