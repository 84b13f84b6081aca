/**
 The two-track buffer is exactly the last moves and the last actions of the history, and what
 acknowledged sequence numbers say about the events that were sent.
 */
module RpaTheorems {
  import opened Rpa

  // ---------------------------------------------------------------- the buffer refines a simple specification

  /** How many events of each track to keep. */
  datatype Quota = Quota(moves: nat, actions: nat) {
    function Of(move: bool): nat {
      if move then moves else actions
    }

    function Less(move: bool): Quota
      requires Of(move) > 0
    {
      if move then Quota(moves - 1, actions) else Quota(moves, actions - 1)
    }
  }

  /** The history filtered to the last events of each track that the quota allows, in order. */
  function Retain(h: seq<Event>, q: Quota): seq<Event>
    decreases |h|
  {
    if h == [] then []
    else
      var last := h[|h| - 1];
      if q.Of(IsMove(last.kind)) == 0 then Retain(h[..|h| - 1], q)
      else Retain(h[..|h| - 1], q.Less(IsMove(last.kind))) + [last]
  }

  function Min(a: nat, b: nat): nat {
    if a < b then a else b
  }

  lemma {:induction false} TallySnoc(arr: seq<Event>, e: Event, move: bool)
    ensures Tally(arr + [e], move) == Tally(arr, move) + if IsMove(e.kind) == move then 1 else 0
  {
    assert (arr + [e])[..|arr|] == arr;
  }

  lemma {:induction false} TallyRetain(h: seq<Event>, q: Quota, move: bool)
    ensures Tally(Retain(h, q), move) == Min(q.Of(move), Tally(h, move))
    decreases |h|
  {
    if h != [] {
      var init, last := h[..|h| - 1], h[|h| - 1];
      if q.Of(IsMove(last.kind)) == 0 {
        TallyRetain(init, q, move);
      } else {
        TallyRetain(init, q.Less(IsMove(last.kind)), move);
        TallySnoc(Retain(init, q.Less(IsMove(last.kind))), last, move);
      }
    }
  }

  lemma {:induction false} DropSnoc(arr: seq<Event>, e: Event, move: bool)
    ensures DropOldest(arr + [e], move)
         == if Tally(arr, move) > 0 then DropOldest(arr, move) + [e] else if IsMove(e.kind) == move then arr else arr + [e]
  {
    assert (arr + [e])[..|arr|] == arr;
  }

  /** The buffer after its oldest event of a track was dropped because the track is full. */
  function DropIfFull(arr: seq<Event>, full: nat, move: bool): seq<Event> {
    if Tally(arr, move) == full then DropOldest(arr, move) else arr
  }

  lemma {:induction false} RetainSnoc(h: seq<Event>, e: Event, q: Quota)
    ensures Retain(h + [e], q)
         == if q.Of(IsMove(e.kind)) == 0 then Retain(h, q) else Retain(h, q.Less(IsMove(e.kind))) + [e]
  {
    assert (h + [e])[..|h|] == h;
  }

  lemma {:induction false} LowerOtherTrack(h: seq<Event>, e: Event, q: Quota, move: bool)
    requires q.Of(move) > 0 && IsMove(e.kind) != move && q.Of(!move) > 0
    requires Retain(h, q.Less(!move).Less(move)) == DropIfFull(Retain(h, q.Less(!move)), q.Of(move), move)
    ensures Retain(h + [e], q.Less(move)) == DropIfFull(Retain(h + [e], q), q.Of(move), move)
  {
    RetainSnoc(h, e, q);
    RetainSnoc(h, e, q.Less(move));
    TallySnoc(Retain(h, q.Less(!move)), e, move);
    DropSnoc(Retain(h, q.Less(!move)), e, move);
  }

  lemma {:induction false} LowerSameTrack(h: seq<Event>, e: Event, q: Quota)
    requires var t := IsMove(e.kind);
             q.Of(t) > 0 && (q.Less(t).Of(t) > 0 ==>
               Retain(h, q.Less(t).Less(t)) == DropIfFull(Retain(h, q.Less(t)), q.Less(t).Of(t), t))
    ensures var t := IsMove(e.kind); Retain(h + [e], q.Less(t)) == DropIfFull(Retain(h + [e], q), q.Of(t), t)
  {
    var t := IsMove(e.kind);
    RetainSnoc(h, e, q);
    RetainSnoc(h, e, q.Less(t));
    TallyRetain(h, q.Less(t), t);
    TallySnoc(Retain(h, q.Less(t)), e, t);
    DropSnoc(Retain(h, q.Less(t)), e, t);
  }

  /** Lowering a track's quota by one drops the oldest event of that track, when the quota is used up. */
  lemma {:induction false} LowerQuota(h: seq<Event>, q: Quota, move: bool)
    requires q.Of(move) > 0
    ensures Retain(h, q.Less(move)) == DropIfFull(Retain(h, q), q.Of(move), move)
    decreases |h|
  {
    if h != [] {
      var init, last := h[..|h| - 1], h[|h| - 1];
      var t := IsMove(last.kind);
      assert h == init + [last];
      if q.Of(t) == 0 {
        LowerQuota(init, q, move);
        RetainSnoc(init, last, q);
        RetainSnoc(init, last, q.Less(move));
      } else if t != move {
        LowerQuota(init, q.Less(t), move);
        LowerOtherTrack(init, last, q, move);
      } else {
        if q.Less(t).Of(t) > 0 { LowerQuota(init, q.Less(t), t); }
        LowerSameTrack(init, last, q);
      }
    }
  }

  const FULL := Quota(MOVE_CAP, ACTION_CAP)

  /** The buffer of a history: last 48 moves and last 32 actions. */
  function Buffer(h: seq<Event>): seq<Event> {
    Retain(h, FULL)
  }

  lemma {:induction false} BufferSize(h: seq<Event>, move: bool)
    ensures Tally(Buffer(h), move) <= Cap(move)
    ensures |Retain(h, FULL.Less(move))| < EVENT_CAP && Tally(Retain(h, FULL.Less(move)), move) < Cap(move)
  {
    TallyRetain(h, FULL, move);
    TallyRetain(h, FULL.Less(move), true);
    TallyRetain(h, FULL.Less(move), false);
    TallyBoth(Retain(h, FULL.Less(move)));
  }

  /** Admitting an event drops at most the oldest event of its own track, and the global cap never cuts anything. */
  lemma {:induction false} AdmitOnBuffer(h: seq<Event>, kind: string)
    ensures var arr := Buffer(h); var move := IsMove(kind);
            && Admit(arr, kind) == DropIfFull(arr, Cap(move), move) == Retain(h, FULL.Less(move))
            && TrimAll(TrimTrack(arr, move)) == TrimTrack(arr, move)
  {
    var move := IsMove(kind);
    BufferSize(h, move);
    LowerQuota(h, FULL, move);
    var t := Retain(h, FULL.Less(move));
    assert TrimTrack(t, move) == t;
    assert TrimTrack(Buffer(h), move) == t;
  }

  /** Pushing onto the buffer of a history gives the buffer of the longer history. */
  lemma {:induction false} PushRefinesHistory(h: seq<Event>, e: Event)
    ensures Admit(Buffer(h), e.kind) + [e] == Buffer(h + [e])
  {
    AdmitOnBuffer(h, e.kind);
    assert (h + [e])[..|h|] == h;
  }

  /** One track of a buffer or history, in order. */
  function Track(arr: seq<Event>, move: bool): seq<Event> {
    if arr == [] then []
    else if IsMove(arr[|arr| - 1].kind) == move then Track(arr[..|arr| - 1], move) + [arr[|arr| - 1]]
    else Track(arr[..|arr| - 1], move)
  }

  function Last(arr: seq<Event>, n: nat): seq<Event> {
    if |arr| <= n then arr else arr[|arr| - n..]
  }

  lemma {:induction false} TrackSnoc(arr: seq<Event>, e: Event, move: bool)
    ensures Track(arr + [e], move) == if IsMove(e.kind) == move then Track(arr, move) + [e] else Track(arr, move)
  {
    assert (arr + [e])[..|arr|] == arr;
  }

  lemma {:induction false} TrackOfRetainSnoc(h: seq<Event>, e: Event, q: Quota, move: bool)
    requires var t := IsMove(e.kind); var r := if q.Of(t) == 0 then q else q.Less(t);
             Track(Retain(h, r), move) == Last(Track(h, move), r.Of(move))
    ensures Track(Retain(h + [e], q), move) == Last(Track(h + [e], move), q.Of(move))
  {
    var t := IsMove(e.kind);
    RetainSnoc(h, e, q);
    TrackSnoc(h, e, move);
    LastSnoc(Track(h, move), e, q.Of(move));
    if q.Of(t) > 0 {
      TrackSnoc(Retain(h, q.Less(t)), e, move);
    }
  }

  /** Each track of the retained history is the last part of that track, whatever happened on the other. */
  lemma {:induction false} TrackOfRetain(h: seq<Event>, q: Quota, move: bool)
    ensures Track(Retain(h, q), move) == Last(Track(h, move), q.Of(move))
    decreases |h|
  {
    if h != [] {
      var init, last := h[..|h| - 1], h[|h| - 1];
      var t := IsMove(last.kind);
      assert h == init + [last];
      TrackOfRetain(init, if q.Of(t) == 0 then q else q.Less(t), move);
      TrackOfRetainSnoc(init, last, q, move);
    }
  }

  lemma {:induction false} LastSnoc(arr: seq<Event>, e: Event, n: nat)
    ensures Last(arr, 0) == [] && Last(arr + [e], n) == if n == 0 then [] else Last(arr, n - 1) + [e]
  {
  }

  /** A move flood never evicts an action and actions never evict a move. */
  lemma {:induction false} PushKeepsOtherTrack(h: seq<Event>, e: Event)
    ensures Track(Buffer(h + [e]), !IsMove(e.kind)) == Track(Buffer(h), !IsMove(e.kind))
  {
    TrackOfRetain(h, FULL, !IsMove(e.kind));
    TrackOfRetain(h + [e], FULL, !IsMove(e.kind));
    TrackSnoc(h, e, !IsMove(e.kind));
  }

  // ---------------------------------------------------------------- runs of one surface

  datatype Action = PushA(kind: string) | FlushA(force: bool) | AckA(k: nat, withId: bool)

  /** A surface with everything it was pushed and every segment it sent; an ack names a sent segment. */
  datatype Run = Run(s: Surface, history: seq<Event>, sent: seq<Segment>)

  const START := Run(EMPTY, [], [])

  predicate Enabled(r: Run, a: Action) {
    a.AckA? ==> a.k < |r.sent|
  }

  function AckOf(r: Run, k: nat, withId: bool): Surface
    requires k < |r.sent|
  {
    Ack(r.s, r.sent[k].end, if withId then Some(r.sent[k].id) else None)
  }

  function Step(r: Run, a: Action): Run
    requires Enabled(r, a)
  {
    match a
    case PushA(kind) => Run(Push(r.s, kind), r.history + [Event(r.s.nextSeq, kind)], r.sent)
    case FlushA(force) => Run(Flush(r.s, force), r.history, if Sends(r.s, force) then r.sent + [Cut(r.s)] else r.sent)
    case AckA(k, withId) => r.(s := AckOf(r, k, withId))
  }

  ghost predicate Reaches(r: Run, actions: seq<Action>, t: Run)
    decreases |actions|
  {
    if actions == [] then t == r
    else Enabled(r, actions[0]) && Reaches(Step(r, actions[0]), actions[1..], t)
  }

  /** The event numbered q was carried by some sent segment. */
  ghost predicate SentSeq(sent: seq<Segment>, q: int) {
    exists g, i :: 0 <= g < |sent| && 0 <= i < |sent[g].events| && sent[g].events[i].seqNo == q
  }

  /** The event numbered q was pushed and has been evicted by the caps. */
  ghost predicate Evicted(r: Run, q: int) {
    1 <= q <= |r.history| && forall i :: 0 <= i < |r.s.events| ==> r.s.events[i].seqNo != q
  }

  /** Every number up to n is an event that was sent or evicted. */
  ghost predicate Covered(r: Run, n: int) {
    forall q :: 1 <= q <= n ==> SentSeq(r.sent, q) || Evicted(r, q)
  }

  ghost predicate Increasing(arr: seq<Event>) {
    forall i, j :: 0 <= i < j < |arr| ==> arr[i].seqNo < arr[j].seqNo
  }

  ghost predicate BufferOk(r: Run) {
    && (forall i :: 0 <= i < |r.history| ==> r.history[i].seqNo == i + 1)
    && r.s.nextSeq == |r.history| + 1
    && r.s.events == Buffer(r.history)
  }

  ghost predicate SegmentOk(r: Run, g: Segment) {
    && Increasing(g.events)
    && (g.events != [] ==> g.start == g.events[0].seqNo && g.end == g.events[|g.events| - 1].seqNo && Covered(r, g.end))
    && (g.events == [] ==> g.start == g.end <= r.s.ackedSeq + 1)
  }

  ghost predicate Inv(r: Run) {
    && BufferOk(r) && r.s.ackedSeq >= 0 && Covered(r, r.s.ackedSeq)
    && (forall g :: 0 <= g < |r.sent| ==> SegmentOk(r, r.sent[g]))
    && (r.s.inflight.Some? ==> r.s.inflight.value in r.sent)
  }

  lemma {:induction false} RetainWithin(h: seq<Event>, q: Quota)
    requires Increasing(h)
    ensures Increasing(Retain(h, q)) && forall e :: e in Retain(h, q) ==> e in h
    decreases |h|
  {
    if h != [] {
      var init, last := h[..|h| - 1], h[|h| - 1];
      var t := IsMove(last.kind);
      var rest := Retain(init, if q.Of(t) == 0 then q else q.Less(t));
      RetainWithin(init, if q.Of(t) == 0 then q else q.Less(t));
      forall e | e in rest ensures e in h && e.seqNo < last.seqNo {
        var i :| 0 <= i < |init| && init[i] == e;
        assert h[i] == e;
      }
      assert forall i :: 0 <= i < |rest| ==> rest[i] in rest;
    }
  }

  lemma {:induction false} AboveIncreasing(arr: seq<Event>, n: int)
    requires Increasing(arr)
    ensures Increasing(Above(arr, n))
  {
    if arr != [] {
      AboveIncreasing(arr[..|arr| - 1], n);
    }
  }

  lemma {:induction false} DropOldestWithin(arr: seq<Event>, move: bool)
    ensures forall e :: e in DropOldest(arr, move) ==> e in arr
  {
    if arr != [] { DropOldestWithin(arr[..|arr| - 1], move); }
  }

  /** What was covered stays covered when segments are added and nothing evicted comes back. */
  lemma CoveredStays(r: Run, t: Run, n: int)
    requires Covered(r, n) && r.sent <= t.sent
    requires forall q :: Evicted(r, q) ==> Evicted(t, q)
    ensures Covered(t, n)
  {
    forall q | 1 <= q <= n ensures SentSeq(t.sent, q) || Evicted(t, q) {
      if SentSeq(r.sent, q) {
        var g, i :| 0 <= g < |r.sent| && 0 <= i < |r.sent[g].events| && r.sent[g].events[i].seqNo == q;
        assert t.sent[g].events[i].seqNo == q;
      }
    }
  }

  /** A segment that was fine stays fine as the run goes on. */
  lemma SegmentStays(r: Run, t: Run, g: Segment)
    requires SegmentOk(r, g) && r.sent <= t.sent && r.s.ackedSeq <= t.s.ackedSeq
    requires forall q :: Evicted(r, q) ==> Evicted(t, q)
    ensures SegmentOk(t, g)
  {
    if g.events != [] { CoveredStays(r, t, g.end); }
  }

  lemma PushEvicts(r: Run, kind: string)
    requires BufferOk(r)
    ensures BufferOk(Step(r, PushA(kind))) && forall q :: Evicted(r, q) ==> Evicted(Step(r, PushA(kind)), q)
  {
    var t := Step(r, PushA(kind));
    var e := Event(r.s.nextSeq, kind);
    PushRefinesHistory(r.history, e);
    AdmitOnBuffer(r.history, kind);
    DropOldestWithin(r.s.events, IsMove(kind));
    forall q | Evicted(r, q) ensures Evicted(t, q) {
      forall i | 0 <= i < |t.s.events| ensures t.s.events[i].seqNo != q {
        var admitted := Admit(r.s.events, kind);
        if i < |admitted| {
          assert admitted[i] in r.s.events;
        }
      }
    }
  }

  lemma PushKeepsInv(r: Run, kind: string)
    requires Inv(r)
    ensures Inv(Step(r, PushA(kind)))
  {
    var t := Step(r, PushA(kind));
    PushEvicts(r, kind);
    CoveredStays(r, t, r.s.ackedSeq);
    forall g | 0 <= g < |t.sent| ensures SegmentOk(t, t.sent[g]) { SegmentStays(r, t, r.sent[g]); }
  }

  /** A fresh segment carries exactly the buffered events above the ack, in order. */
  lemma FreshSegment(r: Run)
    requires Inv(r) && !(r.s.inflight.Some? && r.s.inflight.value.events != [])
    ensures Increasing(Cut(r.s).events)
    ensures forall e :: e in Cut(r.s).events <==> e in r.s.events && e.seqNo > r.s.ackedSeq
  {
    RetainWithin(r.history, FULL);
    AboveIncreasing(r.s.events, r.s.ackedSeq);
  }

  lemma FreshSegmentCoversOne(r: Run, g: Segment, sent: seq<Segment>, q: int)
    requires Inv(r) && sent == r.sent + [g] && r.s.ackedSeq < q <= |r.history|
    requires forall e :: e in r.s.events && e.seqNo > r.s.ackedSeq ==> e in g.events
    ensures SentSeq(sent, q) || Evicted(r, q)
  {
    if !Evicted(r, q) {
      var i :| 0 <= i < |r.s.events| && r.s.events[i].seqNo == q;
      var j :| 0 <= j < |g.events| && g.events[j] == r.s.events[i];
      assert sent[|r.sent|].events[j].seqNo == q;
    }
  }

  lemma FreshSegmentCovers(r: Run, force: bool)
    requires Inv(r) && Sends(r.s, force) && !(r.s.inflight.Some? && r.s.inflight.value.events != [])
    ensures SegmentOk(Step(r, FlushA(force)), Cut(r.s))
  {
    var t := Step(r, FlushA(force));
    var g := Cut(r.s);
    FreshSegment(r);
    if g.events != [] {
      RetainWithin(r.history, FULL);
      assert g.events[|g.events| - 1] in r.history;
      assert forall q :: Evicted(r, q) ==> Evicted(t, q);
      CoveredStays(r, t, r.s.ackedSeq);
      forall q | 1 <= q <= g.end ensures SentSeq(t.sent, q) || Evicted(t, q) {
        if q > r.s.ackedSeq { FreshSegmentCoversOne(r, g, t.sent, q); }
      }
    }
  }

  /** A segment with events that begins and ends at their numbers. */
  predicate Spans(g: Segment) {
    g.events != [] && g.start == g.events[0].seqNo && g.end == g.events[|g.events| - 1].seqNo
  }

  /** A non-empty segment in flight is sent again as it is: same events, range and id. */
  lemma ResendsInflight(r: Run)
    requires Inv(r) && r.s.inflight.Some? && r.s.inflight.value.events != []
    ensures Spans(r.s.inflight.value) && Sends(r.s, false) && Cut(r.s) == r.s.inflight.value
  {
    var i :| 0 <= i < |r.sent| && r.sent[i] == r.s.inflight.value;
    assert SegmentOk(r, r.sent[i]);
  }

  lemma FlushKeepsInv(r: Run, force: bool)
    requires Inv(r)
    ensures Inv(Step(r, FlushA(force)))
  {
    var t := Step(r, FlushA(force));
    if Sends(r.s, force) {
      assert forall q :: Evicted(r, q) ==> Evicted(t, q);
      CoveredStays(r, t, r.s.ackedSeq);
      if r.s.inflight.Some? && r.s.inflight.value.events != [] {
        ResendsInflight(r);
        var i :| 0 <= i < |r.sent| && r.sent[i] == r.s.inflight.value;
        SegmentStays(r, t, r.sent[i]);
      } else {
        FreshSegmentCovers(r, force);
      }
      forall g | 0 <= g < |r.sent| ensures SegmentOk(t, t.sent[g]) { SegmentStays(r, t, r.sent[g]); }
      assert t.sent[|r.sent|] == Cut(r.s);
    }
  }

  /**
   The segment that the ack names carried an event, or ends at a number that was acknowledged before or whose event was
   sent or evicted.
   */
  ghost predicate Harmless(r: Run, k: nat)
    requires k < |r.sent|
  {
    var g := r.sent[k];
    g.events != [] || g.end <= r.s.ackedSeq || SentSeq(r.sent, g.end) || Evicted(r, g.end)
  }

  /** An ack leaves every number up to ackedSeq sent or evicted if and only if it is harmless. */
  lemma AckKeepsCoverageIff(r: Run, k: nat, withId: bool)
    requires Inv(r) && k < |r.sent|
    ensures var t := Step(r, AckA(k, withId));
            && (Covered(t, t.s.ackedSeq) <==> Harmless(r, k))
            && (Covered(t, t.s.ackedSeq) ==> Inv(t))
            && t.s.ackedSeq >= r.s.ackedSeq
  {
    var t := Step(r, AckA(k, withId));
    var g := r.sent[k];
    assert SegmentOk(r, g);
    assert forall q :: Evicted(r, q) <==> Evicted(t, q);
    forall i | 0 <= i < |t.sent| ensures SegmentOk(t, t.sent[i]) { SegmentStays(r, t, r.sent[i]); }
    if g.events != [] { CoveredStays(r, t, g.end); }
    CoveredStays(r, t, r.s.ackedSeq);
  }

  ghost predicate AllHarmless(r: Run, actions: seq<Action>)
    decreases |actions|
  {
    actions == []
    || (&& Enabled(r, actions[0]) && (actions[0].AckA? ==> Harmless(r, actions[0].k))
        && AllHarmless(Step(r, actions[0]), actions[1..]))
  }

  ghost predicate AlwaysCovered(r: Run, actions: seq<Action>)
    decreases |actions|
  {
    Covered(r, r.s.ackedSeq) && (actions == [] || (Enabled(r, actions[0]) && AlwaysCovered(Step(r, actions[0]), actions[1..])))
  }

  lemma StepKeepsCoverageIff(r: Run, a: Action)
    requires Inv(r) && Enabled(r, a)
    ensures var t := Step(r, a);
            && (Covered(t, t.s.ackedSeq) <==> (a.AckA? ==> Harmless(r, a.k)))
            && (Covered(t, t.s.ackedSeq) ==> Inv(t))
            && t.s.ackedSeq >= r.s.ackedSeq
  {
    match a
    case PushA(kind) => PushKeepsInv(r, kind);
    case FlushA(force) => FlushKeepsInv(r, force);
    case AckA(k, withId) => AckKeepsCoverageIff(r, k, withId);
  }

  /** Conservation over any run: in every state no event at or below ackedSeq is lost, if and only if every ack is harmless. */
  lemma {:induction false} AlwaysCoveredIff(r: Run, actions: seq<Action>, t: Run)
    requires Inv(r) && Reaches(r, actions, t)
    ensures AlwaysCovered(r, actions) <==> AllHarmless(r, actions)
    ensures AllHarmless(r, actions) ==> Inv(t)
    decreases |actions|
  {
    if actions != [] {
      StepKeepsCoverageIff(r, actions[0]);
      if Covered(Step(r, actions[0]), Step(r, actions[0]).s.ackedSeq) {
        AlwaysCoveredIff(Step(r, actions[0]), actions[1..], t);
      }
    }
  }

  lemma {:induction false} AckedSeqNeverFalls(r: Run, actions: seq<Action>, t: Run)
    requires Reaches(r, actions, t)
    ensures t.s.ackedSeq >= r.s.ackedSeq
    decreases |actions|
  {
    if actions != [] {
      AckedSeqNeverFalls(Step(r, actions[0]), actions[1..], t);
    }
  }

  lemma StartInv()
    ensures Inv(START)
  {
  }

  /** The buffer after any run is the last 48 moves and the last 32 actions ever pushed, in increasing order. */
  lemma {:induction false} BufferAfterRun(r: Run, actions: seq<Action>, t: Run)
    requires BufferOk(r) && Reaches(r, actions, t)
    ensures BufferOk(t) && Increasing(t.s.events)
    ensures forall move :: Track(t.s.events, move) == Last(Track(t.history, move), Cap(move))
    decreases |actions|
  {
    if actions != [] {
      if actions[0].PushA? { PushEvicts(r, actions[0].kind); }
      BufferAfterRun(Step(r, actions[0]), actions[1..], t);
    } else {
      RetainWithin(t.history, FULL);
      TrackOfRetain(t.history, FULL, true);
      TrackOfRetain(t.history, FULL, false);
    }
  }

  /** The ack does not settle the segment: it names another id and ends before it. */
  predicate Misses(r: Run, a: Action, g: Segment) {
    a.AckA? ==> a.k < |r.sent| && a.withId && r.sent[a.k].id != g.id && r.sent[a.k].end < g.end
  }

  ghost predicate AllMiss(r: Run, actions: seq<Action>, g: Segment)
    decreases |actions|
  {
    actions == [] ||
    (Enabled(r, actions[0]) && Misses(r, actions[0], g) && AllMiss(Step(r, actions[0]), actions[1..], g))
  }

  lemma {:induction false} SpanningIsResent(r: Run, actions: seq<Action>, t: Run, g: Segment)
    requires Spans(g) && r.s.inflight == Some(g) && Reaches(r, actions, t) && AllMiss(r, actions, g)
    ensures t.s.inflight == Some(g) && Cut(t.s) == g && Sends(t.s, false)
    decreases |actions|
  {
    if actions != [] {
      SpanningIsResent(Step(r, actions[0]), actions[1..], t, g);
    }
  }

  /** Until an ack reaches it, a non-empty segment in flight is what every flush sends, whatever is pushed meanwhile. */
  lemma {:induction false} ResentUntilAcked(r: Run, actions: seq<Action>, t: Run, g: Segment)
    requires Inv(r) && r.s.inflight == Some(g) && g.events != []
    requires Reaches(r, actions, t) && AllMiss(r, actions, g)
    ensures t.s.inflight == Some(g) && Cut(t.s) == g && Sends(t.s, false)
  {
    ResendsInflight(r);
    SpanningIsResent(r, actions, t, g);
  }

  /** After a forced flush of nothing, a first click, and the ack of that empty segment. */
  const LOST := Run(Surface([Event(1, "click")], 2, 1, None), [Event(1, "click")], [Segment([], 1, 1, SegmentId(1, 1))])

  /** The ack of an empty segment marks an event acked that was neither sent nor evicted, and no flush will send it. */
  lemma AckedEmptySegmentLosesEvent()
    ensures Reaches(START, [FlushA(true), PushA("click"), AckA(0, true)], LOST)
    ensures !Covered(LOST, LOST.s.ackedSeq) && Slice(LOST.s) == []
  {
    var actions := [FlushA(true), PushA("click"), AckA(0, true)];
    var r1 := Step(START, actions[0]);
    assert r1 == Run(Surface([], 1, 0, Some(LOST.sent[0])), [], LOST.sent);
    var r2 := Step(r1, actions[1]);
    AdmitOnBuffer([], "click");
    assert r2 == Run(Surface(LOST.s.events, 2, 0, Some(LOST.sent[0])), LOST.history, LOST.sent);
    assert Step(r2, actions[2]) == LOST;
    assert actions[1..][1..] == actions[2..] && actions[2..][0] == actions[2] && actions[2..][1..] == [];
    assert Reaches(r2, actions[2..], LOST);
    assert actions[1..][0] == actions[1] && Reaches(r1, actions[1..], LOST);
    assert Reaches(START, actions, LOST);
    assert LOST.s.events[0].seqNo == 1;
    assert !SentSeq(LOST.sent, 1) && !Evicted(LOST, 1);
    assert [Event(1, "click")][..0] == [];
  }
}
