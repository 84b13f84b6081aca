/**
 All callers of the multi-class lock together with the bus, as a state machine whose steps are the
 callbacks that run to completion: a call arriving, a take attempt, a finished function, a forced release.
 */
module LockProtocol {
  import opened ResourceClasses
  import opened ResourceBus

  /**
   Unlocked: a light caller, running without a lock.
   Trying(i): a callback that attempts list[i] is scheduled.  Queued(i): that callback sits in the waiter queue of list[i].
   Running: all classes taken, the locked function runs.  Nested: admitted by the nesting test, the function runs.
   Releasing(k): inside the release loop, list[..k] not yet released.
   */
  datatype Phase = Unlocked | Trying(i: nat) | Queued(i: nat) | Running | Releasing(k: nat) | Nested | Done

  datatype Caller = Caller(list: seq<Class>, phase: Phase)

  datatype Sys = Sys(bus: Bus, callers: seq<Caller>)

  datatype Event = Call(list: seq<Class>) | Try(id: Id) | Finish(id: Id) | Force(c: Class)

  const INITIAL := Sys(EMPTY, [])

  ghost predicate GoodList(list: seq<Class>) {
    Ranked(list) && list != [] && (Light in list ==> list == [Light])
  }

  ghost predicate WellFormed(x: Caller) {
    && GoodList(x.list)
    && (x.phase.Unlocked? ==> x.list == [Light])
    && (x.phase.Trying? || x.phase.Queued? || x.phase.Running? || x.phase.Nested? || x.phase.Releasing? ==> Light !in x.list)
    && (x.phase.Trying? || x.phase.Queued? ==> x.phase.i < |x.list|)
    && (x.phase.Releasing? ==> x.phase.k <= |x.list|)
  }

  /** How many classes of its list a caller has taken and not yet released. */
  function Taken(x: Caller): nat {
    match x.phase
    case Trying(i) => i
    case Queued(i) => i
    case Running => |x.list|
    case Releasing(k) => k
    case _ => 0
  }

  ghost predicate Owns(x: Caller, c: Class) {
    Taken(x) <= |x.list| && c in x.list[..Taken(x)]
  }

  predicate Wants(x: Caller, c: Class) {
    x.phase.Trying? && x.phase.i < |x.list| && x.list[x.phase.i] == c
  }

  predicate Waits(x: Caller, c: Class) {
    x.phase.Queued? && x.phase.i < |x.list| && x.list[x.phase.i] == c
  }

  // ---------------------------------------------------------------- steps

  function Arrive(s: Sys, list: seq<Class>): Sys {
    if list == [Light] then s.(callers := s.callers + [Caller(list, Unlocked)])
    else if AllNested(s.bus, list) then Sys(Shift(s.bus, list, 1), s.callers + [Caller(list, Nested)])
    else s.(callers := s.callers + [Caller(list, Trying(0))])
  }

  /** The take callback of a caller: take the next class or queue for it. */
  function Attempt(s: Sys, id: Id): Sys
    requires id < |s.callers|
    requires var p := s.callers[id].phase; (p.Trying? || p.Queued?) && p.i < |s.callers[id].list|
  {
    var x := s.callers[id];
    var i := x.phase.i;
    var after := if x.list[i] in s.bus.holders then Queued(i)
                 else if i + 1 == |x.list| then Running else Trying(i + 1);
    Sys(TryTake(s.bus, x.list[i], id), s.callers[id := x.(phase := after)])
  }

  /** A woken waiter leaves the queue with its attempt scheduled. */
  function Wake(callers: seq<Caller>, w: Option<Id>): seq<Caller> {
    if w.Some? && w.value < |callers| && callers[w.value].phase.Queued?
    then callers[w.value := callers[w.value].(phase := Trying(callers[w.value].phase.i))]
    else callers
  }

  /** One turn of the release loop. */
  function ReleaseStep(s: Sys, id: Id): (t: Sys)
    requires id < |s.callers| && s.callers[id].phase.Releasing? && 0 < s.callers[id].phase.k <= |s.callers[id].list|
    ensures |t.callers| == |s.callers| && t.callers[id] == s.callers[id].(phase := Releasing(s.callers[id].phase.k - 1))
  {
    var x := s.callers[id];
    var c := x.list[x.phase.k - 1];
    Sys(ReleaseOne(s.bus, c), Wake(s.callers, Woken(s.bus, c))[id := x.(phase := Releasing(x.phase.k - 1))])
  }

  function ReleaseLoop(s: Sys, id: Id): (t: Sys)
    requires id < |s.callers| && s.callers[id].phase.Releasing? && s.callers[id].phase.k <= |s.callers[id].list|
    ensures |t.callers| == |s.callers|
    decreases s.callers[id].phase.k
  {
    if s.callers[id].phase.k == 0 then s.(callers := s.callers[id := s.callers[id].(phase := Done)])
    else ReleaseLoop(ReleaseStep(s, id), id)
  }

  /** The locked function settled, with a value or an error: leave the bus the way it was entered. */
  function Settle(s: Sys, id: Id): Sys
    requires id < |s.callers|
  {
    var x := s.callers[id];
    match x.phase
    case Running => ReleaseLoop(s.(callers := s.callers[id := x.(phase := Releasing(|x.list|))]), id)
    case Nested => Sys(Shift(s.bus, x.list, -1), s.callers[id := x.(phase := Done)])
    case _ => s.(callers := s.callers[id := x.(phase := Done)])
  }

  function Retry(s: Sys, q: seq<Id>): Sys
    decreases |q|
  {
    if q == [] then s
    else
      var t := if q[0] < |s.callers| && s.callers[q[0]].phase.Queued? && s.callers[q[0]].phase.i < |s.callers[q[0]].list|
               then Attempt(s, q[0]) else s;
      Retry(t, q[1..])
  }

  function ForceStep(s: Sys, c: Class): Sys {
    Retry(s.(bus := Dropped(s.bus, c)), Queue(s.bus, c))
  }

  ghost predicate Enabled(s: Sys, e: Event) {
    match e
    case Call(list) => GoodList(list)
    case Try(id) => id < |s.callers| && s.callers[id].phase.Trying? && s.callers[id].phase.i < |s.callers[id].list|
    case Finish(id) => id < |s.callers| && (s.callers[id].phase.Running? || s.callers[id].phase.Nested? || s.callers[id].phase.Unlocked?)
    case Force(c) => c != Light
  }

  ghost function Step(s: Sys, e: Event): Sys
    requires Enabled(s, e)
  {
    match e
    case Call(list) => Arrive(s, list)
    case Try(id) => Attempt(s, id)
    case Finish(id) => Settle(s, id)
    case Force(c) => ForceStep(s, c)
  }

  /** t is reached from s by the events, in order. */
  ghost predicate Reaches(s: Sys, events: seq<Event>, t: Sys)
    decreases |events|
  {
    if events == [] then t == s
    else Enabled(s, events[0]) && Reaches(Step(s, events[0]), events[1..], t)
  }

  lemma {:induction false} OneStep(s: Sys, e: Event, rest: seq<Event>, t: Sys)
    requires Enabled(s, e) && Reaches(Step(s, e), rest, t)
    ensures Reaches(s, [e] + rest, t)
  {
    assert ([e] + rest)[1..] == rest;
  }

  // ---------------------------------------------------------------- the invariant

  ghost predicate AllWellFormed(s: Sys) {
    forall id :: 0 <= id < |s.callers| ==> WellFormed(s.callers[id])
  }

  ghost predicate OwnersRecorded(s: Sys) {
    forall id, c :: 0 <= id < |s.callers| && Owns(s.callers[id], c) ==> c in s.bus.holders && s.bus.holders[c] == id
  }

  ghost predicate HoldersOwn(s: Sys) {
    forall c :: c in s.bus.holders ==> s.bus.holders[c] < |s.callers| && Owns(s.callers[s.bus.holders[c]], c)
  }

  /** The holder table records exactly who owns what; so a class never has two owners. */
  ghost predicate Exclusive(s: Sys) {
    OwnersRecorded(s) && HoldersOwn(s)
  }

  ghost predicate QueuedWait(s: Sys) {
    forall c, k :: 0 <= k < |Queue(s.bus, c)| ==> Queue(s.bus, c)[k] < |s.callers| && Waits(s.callers[Queue(s.bus, c)[k]], c)
  }

  ghost predicate QueuedOnce(s: Sys) {
    forall c, j, k :: 0 <= j < k < |Queue(s.bus, c)| ==> Queue(s.bus, c)[j] != Queue(s.bus, c)[k]
  }

  ghost predicate WaitersQueued(s: Sys) {
    forall id, c :: 0 <= id < |s.callers| && Waits(s.callers[id], c) ==> id in Queue(s.bus, c)
  }

  /** The queue of a class lists exactly the callers that wait for it, each once. */
  ghost predicate QueuesMatch(s: Sys) {
    QueuedWait(s) && QueuedOnce(s) && WaitersQueued(s)
  }

  ghost predicate Wanted(callers: seq<Caller>, c: Class) {
    exists id :: 0 <= id < |callers| && Wants(callers[id], c)
  }

  /** A non-empty queue has a holder in front of it, or a wake-up on its way. */
  ghost predicate NoLostWakeup(s: Sys) {
    forall c :: Queue(s.bus, c) != [] && c !in s.bus.holders ==> Wanted(s.callers, c)
  }

  ghost predicate NestedMeansHeld(s: Sys) {
    forall c :: Depth(s.bus, c) > 0 ==> c in s.bus.holders
  }

  /** What every step keeps: the queues list the waiters, none of them is forgotten, and a recorded holder owns its class. */
  ghost predicate Consistent(s: Sys) {
    AllWellFormed(s) && HoldersOwn(s) && QueuesMatch(s) && NoLostWakeup(s) && NestedMeansHeld(s)
  }

  /** With every owner recorded as well, which a forced release of a held class breaks. */
  ghost predicate Inv(s: Sys) {
    Consistent(s) && OwnersRecorded(s)
  }

  /** What every caller wanted in one state is still wanted in another that changed no such caller. */
  lemma StillWanted(before: seq<Caller>, after: seq<Caller>, c: Class, id: Id)
    requires |before| <= |after| && Wanted(before, c)
    requires forall j :: 0 <= j < |before| && j != id && Wants(before[j], c) ==> Wants(after[j], c)
    requires id < |before| ==> !Wants(before[id], c)
    ensures Wanted(after, c)
  {
    var w :| 0 <= w < |before| && Wants(before[w], c);
    assert Wants(after[w], c);
  }

  lemma ArriveKeepsInv(s: Sys, list: seq<Class>)
    requires Consistent(s) && GoodList(list)
    ensures Consistent(Arrive(s, list))
    ensures Inv(s) ==> Inv(Arrive(s, list))
  {
    var t := Arrive(s, list);
    ShiftDepths(s.bus, list, 1);
    assert forall c :: Queue(t.bus, c) == Queue(s.bus, c);
    assert t.bus.holders == s.bus.holders;
    assert t.callers[..|s.callers|] == s.callers;
    ArriveKeepsParts(s, t, list);
    assert NestedMeansHeld(t) by {
      forall c | Depth(t.bus, c) > 0 ensures c in t.bus.holders {
        if t.bus != s.bus && c in list {
          var i :| 0 <= i < |list| && list[i] == c;
        }
      }
    }
  }

  lemma ArriveKeepsParts(s: Sys, t: Sys, list: seq<Class>)
    requires Consistent(s) && GoodList(list)
    requires |t.callers| == |s.callers| + 1 && t.callers[..|s.callers|] == s.callers
    requires var x := t.callers[|s.callers|];
             x.list == list && Taken(x) == 0 && !x.phase.Queued? && WellFormed(x)
    requires t.bus.holders == s.bus.holders && forall c :: Queue(t.bus, c) == Queue(s.bus, c)
    ensures AllWellFormed(t) && HoldersOwn(t) && QueuesMatch(t) && NoLostWakeup(t)
    ensures OwnersRecorded(s) ==> OwnersRecorded(t)
  {
    assert forall id :: 0 <= id < |s.callers| ==> t.callers[id] == t.callers[..|s.callers|][id] == s.callers[id];
    forall c | Queue(t.bus, c) != [] && c !in t.bus.holders
      ensures Wanted(t.callers, c)
    {
      StillWanted(s.callers, t.callers, c, |s.callers|);
    }
  }

  /** A caller whose attempt succeeded. */
  function Took(x: Caller): Caller
    requires x.phase.Trying? || x.phase.Queued?
  {
    x.(phase := if x.phase.i + 1 == |x.list| then Running else Trying(x.phase.i + 1))
  }

  lemma TookOwns(x: Caller, c: Class)
    requires Waits(x, c) || Wants(x, c)
    ensures forall d :: Owns(Took(x), d) <==> Owns(x, d) || d == c
    ensures WellFormed(x) ==> WellFormed(Took(x))
  {
    assert x.list[..x.phase.i + 1] == x.list[..x.phase.i] + [c];
    assert x.list[..|x.list|] == x.list;
  }

  /** An attempt at a free class makes the caller its holder and changes nothing else in the table. */
  lemma AttemptKeepsHolders(s: Sys, id: Id)
    requires AllWellFormed(s) && HoldersOwn(s) && NestedMeansHeld(s) && Enabled(s, Try(id))
    ensures AllWellFormed(Attempt(s, id)) && HoldersOwn(Attempt(s, id)) && NestedMeansHeld(Attempt(s, id))
    ensures OwnersRecorded(s) ==> OwnersRecorded(Attempt(s, id))
  {
    var t, x := Attempt(s, id), s.callers[id];
    var c := x.list[x.phase.i];
    TookOwns(x, c);
    if c in s.bus.holders {
      assert t.callers[id] == x.(phase := Queued(x.phase.i)) && t.bus.holders == s.bus.holders;
      assert forall d :: Owns(t.callers[id], d) <==> Owns(x, d);
    } else {
      assert t.callers[id] == Took(x) && t.bus.holders == s.bus.holders[c := id];
    }
  }

  lemma AttemptEffect(s: Sys, id: Id)
    requires AllWellFormed(s) && Enabled(s, Try(id))
    ensures var t := Attempt(s, id); var c := s.callers[id].list[s.callers[id].phase.i]; var held := c in s.bus.holders;
            && |t.callers| == |s.callers| && (forall j :: 0 <= j < |s.callers| && j != id ==> t.callers[j] == s.callers[j])
            && (forall d :: d != c ==> Queue(t.bus, d) == Queue(s.bus, d))
            && Queue(t.bus, c) == (if held then Queue(s.bus, c) + [id] else Queue(s.bus, c))
            && (forall d :: Waits(t.callers[id], d) <==> d == c && held)
            && (forall d :: d in t.bus.holders <==> d in s.bus.holders || d == c)
  {
  }

  /** t is s with caller id, which waited for nothing, at the end of the queue of c if it found c held. */
  ghost predicate Joined(s: Sys, t: Sys, id: Id, c: Class, held: bool) {
    && |t.callers| == |s.callers| && id < |s.callers|
    && (forall j :: 0 <= j < |s.callers| && j != id ==> t.callers[j] == s.callers[j])
    && (forall d :: d != c ==> Queue(t.bus, d) == Queue(s.bus, d))
    && Queue(t.bus, c) == (if held then Queue(s.bus, c) + [id] else Queue(s.bus, c))
    && (forall d :: !Waits(s.callers[id], d) && (Waits(t.callers[id], d) <==> d == c && held))
  }

  lemma NotQueued(s: Sys, id: Id, d: Class)
    requires QueuedWait(s) && id < |s.callers| && !Waits(s.callers[id], d)
    ensures id !in Queue(s.bus, d)
  {
  }

  lemma JoinKeepsQueuedWait(s: Sys, t: Sys, id: Id, c: Class, held: bool)
    requires QueuedWait(s) && Joined(s, t, id, c, held)
    ensures QueuedWait(t)
  {
    forall d, k | 0 <= k < |Queue(t.bus, d)|
      ensures Queue(t.bus, d)[k] < |t.callers| && Waits(t.callers[Queue(t.bus, d)[k]], d)
    {
      NotQueued(s, id, d);
      assert k < |Queue(s.bus, d)| ==> Queue(t.bus, d)[k] == Queue(s.bus, d)[k] != id;
    }
  }

  lemma JoinKeepsQueuedOnce(s: Sys, t: Sys, id: Id, c: Class, held: bool)
    requires QueuedWait(s) && QueuedOnce(s) && Joined(s, t, id, c, held)
    ensures QueuedOnce(t)
  {
    NotQueued(s, id, c);
  }

  lemma JoinKeepsWaitersQueued(s: Sys, t: Sys, id: Id, c: Class, held: bool)
    requires WaitersQueued(s) && Joined(s, t, id, c, held)
    ensures WaitersQueued(t)
  {
  }

  lemma AttemptKeepsQueues(s: Sys, id: Id)
    requires AllWellFormed(s) && QueuesMatch(s) && Enabled(s, Try(id))
    ensures QueuesMatch(Attempt(s, id))
  {
    var c := s.callers[id].list[s.callers[id].phase.i];
    var held := c in s.bus.holders;
    AttemptEffect(s, id);
    JoinKeepsQueuedWait(s, Attempt(s, id), id, c, held);
    JoinKeepsQueuedOnce(s, Attempt(s, id), id, c, held);
    JoinKeepsWaitersQueued(s, Attempt(s, id), id, c, held);
  }

  lemma AttemptKeepsNoLostWakeup(s: Sys, id: Id)
    requires NoLostWakeup(s) && AllWellFormed(s) && Enabled(s, Try(id))
    ensures NoLostWakeup(Attempt(s, id))
  {
    var t := Attempt(s, id);
    AttemptEffect(s, id);
    forall d | Queue(t.bus, d) != [] && d !in t.bus.holders
      ensures Wanted(t.callers, d)
    {
      StillWanted(s.callers, t.callers, d, id);
    }
  }

  /** One release: the owner gives up one class, the head of its queue turns from waiting to wanting. */
  lemma ReleaseStepEffect(s: Sys, id: Id, c: Class)
    requires AllWellFormed(s) && QueuedWait(s) && id < |s.callers| && s.callers[id].phase.Releasing? && s.callers[id].phase.k > 0
    requires c == s.callers[id].list[s.callers[id].phase.k - 1]
    ensures var t := ReleaseStep(s, id); var q := Queue(s.bus, c);
            && |t.callers| == |s.callers|
            && Owns(s.callers[id], c)
            && (forall d :: Owns(t.callers[id], d) <==> Owns(s.callers[id], d) && d != c)
            && WellFormed(t.callers[id]) && t.callers[id].phase.Releasing?
            && (q != [] ==> q[0] != id && q[0] < |s.callers| && Waits(s.callers[q[0]], c))
            && (q != [] ==> t.callers[q[0]] == s.callers[q[0]].(phase := Trying(s.callers[q[0]].phase.i)))
            && (forall j, d :: 0 <= j < |s.callers| && j != id ==> (Owns(t.callers[j], d) <==> Owns(s.callers[j], d)))
            && (forall j :: 0 <= j < |s.callers| && j != id && (q == [] || j != q[0]) ==> t.callers[j] == s.callers[j])
  {
    var x := s.callers[id];
    assert x.list[..x.phase.k] == x.list[..x.phase.k - 1] + [c];
    var q := Queue(s.bus, c);
    if q != [] {
      assert Waits(s.callers[q[0]], c);
    }
  }

  lemma ReleaseStepKeepsHolders(s: Sys, id: Id)
    requires AllWellFormed(s) && HoldersOwn(s) && QueuedWait(s) && NestedMeansHeld(s)
    requires id < |s.callers| && s.callers[id].phase.Releasing? && s.callers[id].phase.k > 0
    ensures var t := ReleaseStep(s, id);
            AllWellFormed(t) && HoldersOwn(t) && NestedMeansHeld(t) && (OwnersRecorded(s) ==> OwnersRecorded(t))
  {
    var t := ReleaseStep(s, id);
    var c := s.callers[id].list[s.callers[id].phase.k - 1];
    ReleaseStepEffect(s, id, c);
    GiveUpKeepsHoldersOwn(s, t, id, c);
    if OwnersRecorded(s) {
      GiveUpKeepsOwnersRecorded(s, t, id, c);
    }
  }

  /** t is s with class c given up by caller id. */
  ghost predicate GivenUp(s: Sys, t: Sys, id: Id, c: Class) {
    && |t.callers| == |s.callers| && id < |s.callers|
    && Owns(s.callers[id], c) && t.bus.holders == s.bus.holders - {c}
    && forall j, d :: 0 <= j < |s.callers| ==>
         (Owns(t.callers[j], d) <==> Owns(s.callers[j], d) && !(j == id && d == c))
  }

  lemma GiveUpKeepsOwnersRecorded(s: Sys, t: Sys, id: Id, c: Class)
    requires OwnersRecorded(s) && GivenUp(s, t, id, c)
    ensures OwnersRecorded(t)
  {
  }

  lemma GiveUpKeepsHoldersOwn(s: Sys, t: Sys, id: Id, c: Class)
    requires HoldersOwn(s) && GivenUp(s, t, id, c)
    ensures HoldersOwn(t)
  {
    forall d | d in t.bus.holders
      ensures t.bus.holders[d] < |t.callers| && Owns(t.callers[t.bus.holders[d]], d)
    {
      assert Owns(s.callers[s.bus.holders[d]], d);
    }
  }

  lemma ReleaseStepPops(s: Sys, id: Id, c: Class)
    requires AllWellFormed(s) && QueuedWait(s) && id < |s.callers| && s.callers[id].phase.Releasing? && s.callers[id].phase.k > 0
    requires c == s.callers[id].list[s.callers[id].phase.k - 1]
    ensures Popped(s, ReleaseStep(s, id), c)
    ensures Queue(s.bus, c) != [] ==> Wants(ReleaseStep(s, id).callers[Queue(s.bus, c)[0]], c)
  {
    ReleaseStepEffect(s, id, c);
  }

  lemma ReleaseStepKeepsQueues(s: Sys, id: Id)
    requires Consistent(s) && id < |s.callers| && s.callers[id].phase.Releasing? && s.callers[id].phase.k > 0
    ensures QueuesMatch(ReleaseStep(s, id)) && NoLostWakeup(ReleaseStep(s, id))
  {
    var t := ReleaseStep(s, id);
    var c := s.callers[id].list[s.callers[id].phase.k - 1];
    ReleaseStepEffect(s, id, c);
    ReleaseStepPops(s, id, c);
    PopKeepsQueuedWait(s, t, c);
    PopKeepsWaitersQueued(s, t, c);
    PopKeepsNoLostWakeup(s, t, id, c);
  }

  lemma PopKeepsNoLostWakeup(s: Sys, t: Sys, id: Id, c: Class)
    requires NoLostWakeup(s) && Popped(s, t, c) && t.bus.holders == s.bus.holders - {c}
    requires id < |s.callers| && s.callers[id].phase.Releasing?
    requires Queue(s.bus, c) != [] ==> Queue(s.bus, c)[0] < |t.callers| && Wants(t.callers[Queue(s.bus, c)[0]], c)
    requires forall j, d :: 0 <= j < |s.callers| && j != id && Wants(s.callers[j], d) ==> Wants(t.callers[j], d)
    ensures NoLostWakeup(t)
  {
    forall d | Queue(t.bus, d) != [] && d !in t.bus.holders
      ensures Wanted(t.callers, d)
    {
      if d == c {
        assert Wants(t.callers[Queue(s.bus, c)[0]], c);
      } else {
        StillWanted(s.callers, t.callers, d, id);
      }
    }
  }

  /** t takes the head out of the queue of c, and that caller stops waiting. */
  ghost predicate Popped(s: Sys, t: Sys, c: Class) {
    && |t.callers| == |s.callers|
    && Queue(t.bus, c) == (if Queue(s.bus, c) == [] then [] else Queue(s.bus, c)[1..])
    && (forall d :: d != c ==> Queue(t.bus, d) == Queue(s.bus, d))
    && (forall j, d :: 0 <= j < |s.callers| ==>
          (Waits(t.callers[j], d) <==> Waits(s.callers[j], d) && !(Queue(s.bus, c) != [] && j == Queue(s.bus, c)[0])))
  }

  lemma PopKeepsQueuedWait(s: Sys, t: Sys, c: Class)
    requires QueuesMatch(s) && Popped(s, t, c)
    ensures QueuedWait(t)
  {
    var q := Queue(s.bus, c);
    forall d, k | 0 <= k < |Queue(t.bus, d)|
      ensures Queue(t.bus, d)[k] < |t.callers| && Waits(t.callers[Queue(t.bus, d)[k]], d)
    {
      if d == c {
        assert Queue(t.bus, c)[k] == q[k + 1];
      } else if q != [] {
        assert Waits(s.callers[q[0]], c) && Waits(s.callers[Queue(s.bus, d)[k]], d);
      }
    }
  }

  lemma PopKeepsWaitersQueued(s: Sys, t: Sys, c: Class)
    requires QueuesMatch(s) && Popped(s, t, c)
    ensures WaitersQueued(t) && QueuedOnce(t)
  {
    var q := Queue(s.bus, c);
    forall j, d | 0 <= j < |t.callers| && Waits(t.callers[j], d)
      ensures j in Queue(t.bus, d)
    {
      assert j in Queue(s.bus, d);
      if d == c {
        var k :| 0 <= k < |q| && q[k] == j;
        assert q[1..][k - 1] == j;
      }
    }
  }

  lemma {:induction false} ReleaseLoopKeepsInv(s: Sys, id: Id)
    requires Consistent(s) && id < |s.callers| && s.callers[id].phase.Releasing?
    ensures Consistent(ReleaseLoop(s, id))
    ensures Inv(s) ==> Inv(ReleaseLoop(s, id))
    decreases s.callers[id].phase.k
  {
    if s.callers[id].phase.k == 0 {
      ChangePhaseKeepsInv(s, id, Done);
    } else {
      ReleaseStepKeepsHolders(s, id);
      ReleaseStepKeepsQueues(s, id);
      ReleaseLoopKeepsInv(ReleaseStep(s, id), id);
    }
  }

  /** Changing one caller between phases that own the same classes and neither want nor wait keeps the invariant. */
  lemma ChangePhaseKeepsInv(s: Sys, id: Id, p: Phase)
    requires Consistent(s) && id < |s.callers|
    requires var x := s.callers[id]; var y := x.(phase := p);
             && WellFormed(y) && (forall c :: Owns(x, c) <==> Owns(y, c))
             && !x.phase.Trying? && !x.phase.Queued? && !p.Trying? && !p.Queued?
    ensures Consistent(s.(callers := s.callers[id := s.callers[id].(phase := p)]))
    ensures Inv(s) ==> Inv(s.(callers := s.callers[id := s.callers[id].(phase := p)]))
  {
    var t := s.(callers := s.callers[id := s.callers[id].(phase := p)]);
    forall d | Queue(t.bus, d) != [] && d !in t.bus.holders
      ensures Wanted(t.callers, d)
    {
      StillWanted(s.callers, t.callers, d, id);
    }
  }

  /** A bus with the same holders and queues, and depths positive on held classes only. */
  lemma SameTablesKeepInv(s: Sys, b: Bus)
    requires Consistent(s)
    requires b.holders == s.bus.holders && b.waiters == s.bus.waiters
    requires forall c :: Depth(b, c) > 0 ==> c in b.holders
    ensures Consistent(s.(bus := b))
    ensures Inv(s) ==> Inv(s.(bus := b))
  {
    assert forall c :: Queue(b, c) == Queue(s.bus, c);
  }

  lemma SettleKeepsInv(s: Sys, id: Id)
    requires Consistent(s) && Enabled(s, Finish(id))
    ensures Consistent(Settle(s, id))
    ensures Inv(s) ==> Inv(Settle(s, id))
  {
    var x := s.callers[id];
    assert x.list[..|x.list|] == x.list;
    if x.phase.Running? {
      ChangePhaseKeepsInv(s, id, Releasing(|x.list|));
      ReleaseLoopKeepsInv(s.(callers := s.callers[id := x.(phase := Releasing(|x.list|))]), id);
    } else {
      ChangePhaseKeepsInv(s, id, Done);
      if x.phase.Nested? {
        ShiftDepths(s.bus, x.list, -1);
        SameTablesKeepInv(s.(callers := s.callers[id := x.(phase := Done)]), Shift(s.bus, x.list, -1));
      }
    }
  }

  lemma AttemptKeepsInv(s: Sys, id: Id)
    requires Consistent(s) && Enabled(s, Try(id))
    ensures Consistent(Attempt(s, id))
    ensures Inv(s) ==> Inv(Attempt(s, id))
  {
    AttemptKeepsHolders(s, id);
    AttemptKeepsQueues(s, id);
    AttemptKeepsNoLostWakeup(s, id);
  }

  lemma InitialInv()
    ensures Inv(INITIAL)
  {
  }
}
