/**
 The shared bus object: holders, waiter queues and nesting depths, one entry a class.
 The functions give the effect of each operation on the bus as a value; the class updates
 its three tables in place, and every method is proved to have that effect.
 A missing table entry reads as depth 0 and as an empty queue. A waiter is the id of the
 caller whose pending take the queue stores; a holder is the id of the caller that took.
 */
module ResourceBus {
  import opened ResourceClasses

  type Id = nat

  datatype Option<+T> = None | Some(value: T)

  datatype Bus = Bus(holders: map<Class, Id>, waiters: map<Class, seq<Id>>, nestDepth: map<Class, int>)

  const EMPTY := Bus(map[], map[], map[])

  function Depth(b: Bus, c: Class): int {
    if c in b.nestDepth then b.nestDepth[c] else 0
  }

  function Queue(b: Bus, c: Class): seq<Id> {
    if c in b.waiters then b.waiters[c] else []
  }

  predicate AllNested(b: Bus, list: seq<Class>) {
    forall i :: 0 <= i < |list| ==> Depth(b, list[i]) > 0
  }

  /** Take the class when it is free, else queue at the back. */
  function TryTake(b: Bus, c: Class, id: Id): Bus {
    if c !in b.holders then b.(holders := b.holders[c := id], nestDepth := b.nestDepth[c := 1])
    else b.(waiters := b.waiters[c := Queue(b, c) + [id]])
  }

  function AsSeq(o: Option<Id>): seq<Id> {
    if o.Some? then [o.value] else []
  }

  /** The waiter that releasing the class wakes. */
  function Woken(b: Bus, c: Class): Option<Id> {
    if Queue(b, c) == [] then None else Some(Queue(b, c)[0])
  }

  function ReleaseOne(b: Bus, c: Class): Bus {
    var q := Queue(b, c);
    Bus(b.holders - {c}, if q == [] then b.waiters else b.waiters[c := q[1..]], b.nestDepth[c := 0])
  }

  /** Release a list from its last class to its first. */
  function ReleaseAll(b: Bus, list: seq<Class>): Bus
    decreases |list|
  {
    if list == [] then b else ReleaseAll(ReleaseOne(b, list[|list| - 1]), list[..|list| - 1])
  }

  function WokenByAll(b: Bus, list: seq<Class>): seq<Id>
    decreases |list|
  {
    if list == [] then []
    else
      var c := list[|list| - 1];
      AsSeq(Woken(b, c)) + WokenByAll(ReleaseOne(b, c), list[..|list| - 1])
  }

  lemma ReleaseLast(b: Bus, list: seq<Class>, i: nat)
    requires 0 < i <= |list|
    ensures ReleaseAll(b, list[..i]) == ReleaseAll(ReleaseOne(b, list[i - 1]), list[..i - 1])
    ensures WokenByAll(b, list[..i]) == AsSeq(Woken(b, list[i - 1])) + WokenByAll(ReleaseOne(b, list[i - 1]), list[..i - 1])
  {
    assert list[..i][..i - 1] == list[..i - 1] && list[..i][i - 1] == list[i - 1];
  }

  lemma Associates(a: seq<Id>, b: seq<Id>, c: seq<Id>)
    ensures a + (b + c) == a + b + c
  {
  }

  /** A nested entry adds 1 to the depth of every class of the list, a nested exit adds -1. */
  function Shift(b: Bus, list: seq<Class>, delta: int): Bus
    decreases |list|
  {
    if list == [] then b
    else Shift(b.(nestDepth := b.nestDepth[list[0] := Depth(b, list[0]) + delta]), list[1..], delta)
  }

  function TryAll(b: Bus, c: Class, q: seq<Id>): Bus
    decreases |q|
  {
    if q == [] then b else TryAll(TryTake(b, c, q[0]), c, q[1..])
  }

  function Dropped(b: Bus, c: Class): Bus {
    Bus(b.holders - {c}, b.waiters[c := []], b.nestDepth[c := 0])
  }

  /** Hang recovery: drop the holder whoever it is, then let every waiter of the old queue retry at once. */
  function ForceRelease(b: Bus, c: Class): Bus {
    TryAll(Dropped(b, c), c, Queue(b, c))
  }

  /** A shift moves each depth of the list by exactly `delta` and leaves every other depth, holder and queue. */
  lemma {:induction false} ShiftDepths(b: Bus, list: seq<Class>, delta: int)
    requires Ranked(list)
    ensures var t := Shift(b, list, delta);
            t.holders == b.holders && t.waiters == b.waiters &&
            forall c :: Depth(t, c) == Depth(b, c) + if c in list then delta else 0
    decreases |list|
  {
    if list != [] {
      var b1 := b.(nestDepth := b.nestDepth[list[0] := Depth(b, list[0]) + delta]);
      ShiftDepths(b1, list[1..], delta);
      assert list[0] !in list[1..];
    }
  }

  lemma {:induction false} TryAllHeld(b: Bus, c: Class, q: seq<Id>)
    requires c in b.holders
    ensures var t := TryAll(b, c, q);
            t.holders == b.holders && t.nestDepth == b.nestDepth &&
            Queue(t, c) == Queue(b, c) + q && forall d :: d != c ==> Queue(t, d) == Queue(b, d)
    decreases |q|
  {
    if q != [] {
      TryAllHeld(TryTake(b, c, q[0]), c, q[1..]);
      assert Queue(b, c) + q == Queue(b, c) + [q[0]] + q[1..];
    }
  }

  lemma Reinsert<V>(m: map<Class, V>, c: Class, v: V)
    ensures (m - {c})[c := v] == m[c := v]
  {
  }

  /** Forced release hands the class to the first waiter and keeps the others queued in their order. */
  lemma ForceReleaseHandsOver(b: Bus, c: Class)
    ensures var t := ForceRelease(b, c); var q := Queue(b, c);
            && t.holders == (if q == [] then b.holders - {c} else b.holders[c := q[0]])
            && Queue(t, c) == (if q == [] then [] else q[1..])
            && Depth(t, c) == (if q == [] then 0 else 1)
            && forall d :: d != c ==> Queue(t, d) == Queue(b, d) && Depth(t, d) == Depth(b, d)
  {
    var q := Queue(b, c);
    if q != [] {
      Reinsert(b.holders, c, q[0]);
      TryAllHeld(TryTake(Dropped(b, c), c, q[0]), c, q[1..]);
    }
  }

  class SharedBus {
    var holders: map<Class, Id>
    var waiters: map<Class, seq<Id>>
    var nestDepth: map<Class, int>

    function View(): Bus
      reads this
    {
      Bus(holders, waiters, nestDepth)
    }

    constructor ()
      ensures View() == EMPTY
    {
      holders, waiters, nestDepth := map[], map[], map[];
    }

    method IsAllNested(list: seq<Class>) returns (all: bool)
      ensures all == AllNested(View(), list)
    {
      all := true;
      for i := 0 to |list|
        invariant all == forall j :: 0 <= j < i ==> Depth(View(), list[j]) > 0
      {
        all := all && list[i] in nestDepth && nestDepth[list[i]] > 0;
      }
    }

    method Take(c: Class, id: Id) returns (taken: bool)
      modifies this
      ensures View() == TryTake(old(View()), c, id)
      ensures taken == (c !in old(holders))
    {
      taken := c !in holders;
      if taken {
        holders := holders[c := id];
        nestDepth := nestDepth[c := 1];
      } else {
        var q := if c in waiters then waiters[c] else [];
        waiters := waiters[c := q + [id]];
      }
    }

    method Release(c: Class) returns (next: Option<Id>)
      modifies this
      ensures View() == ReleaseOne(old(View()), c)
      ensures next == Woken(old(View()), c)
    {
      nestDepth := nestDepth[c := 0];
      holders := holders - {c};
      var q := if c in waiters then waiters[c] else [];
      next := None;
      if q != [] {
        next := Some(q[0]);
        waiters := waiters[c := q[1..]];
      }
    }

    method ReleaseList(list: seq<Class>) returns (woken: seq<Id>)
      modifies this
      ensures View() == ReleaseAll(old(View()), list)
      ensures woken == WokenByAll(old(View()), list)
    {
      ghost var start := View();
      ghost var now := start;
      woken := [];
      var i := |list|;
      assert list[..i] == list;
      while i > 0
        invariant 0 <= i <= |list| && View() == now
        invariant ReleaseAll(now, list[..i]) == ReleaseAll(start, list)
        invariant woken + WokenByAll(now, list[..i]) == WokenByAll(start, list)
      {
        ReleaseLast(now, list, i);
        var next := Release(list[i - 1]);
        Associates(woken, AsSeq(next), WokenByAll(ReleaseOne(now, list[i - 1]), list[..i - 1]));
        woken := woken + AsSeq(next);
        now := ReleaseOne(now, list[i - 1]);
        i := i - 1;
      }
    }

    method Nest(list: seq<Class>, delta: int)
      modifies this
      ensures View() == Shift(old(View()), list, delta)
    {
      for i := 0 to |list|
        invariant Shift(View(), list[i..], delta) == Shift(old(View()), list, delta)
      {
        assert list[i..][0] == list[i] && list[i..][1..] == list[i + 1..];
        var d := if list[i] in nestDepth then nestDepth[list[i]] else 0;
        nestDepth := nestDepth[list[i] := d + delta];
      }
      assert list[|list|..] == [];
    }

    method Force(c: Class) returns (had: bool)
      modifies this
      ensures View() == ForceRelease(old(View()), c)
      ensures had == (c in old(holders))
    {
      had := c in holders;
      nestDepth := nestDepth[c := 0];
      holders := holders - {c};
      var q := if c in waiters then waiters[c] else [];
      waiters := waiters[c := []];
      for i := 0 to |q|
        invariant TryAll(View(), c, q[i..]) == ForceRelease(old(View()), c)
      {
        assert q[i..][0] == q[i] && q[i..][1..] == q[i + 1..];
        var _ := Take(c, q[i]);
      }
      assert q[|q|..] == [];
    }
  }
}
