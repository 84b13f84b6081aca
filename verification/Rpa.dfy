/**
 The event monitor of one surface: the two-track bounded event buffer, and the segments cut from it.
 Only the sequence number and the kind of an event matter here.
 */
module Rpa {

  datatype Option<+T> = None | Some(value: T)

  datatype Event = Event(seqNo: nat, kind: string)

  /** A segment id names its page and its range; the page is fixed for a surface. */
  datatype SegmentId = SegmentId(first: int, last: int)

  datatype Segment = Segment(events: seq<Event>, start: int, end: int, id: SegmentId)

  datatype Surface = Surface(events: seq<Event>, nextSeq: nat, ackedSeq: int, inflight: Option<Segment>)

  const EVENT_CAP := 80
  const MOVE_CAP := 48
  const ACTION_CAP := 32

  const EMPTY := Surface([], 1, 0, None)

  predicate IsMove(kind: string) {
    kind in {"pointermove", "mousemove", "touchmove", "pointerrawupdate"}
  }

  function Cap(move: bool): nat {
    if move then MOVE_CAP else ACTION_CAP
  }

  /** How many events of the buffer are on the track. */
  function Tally(arr: seq<Event>, move: bool): nat {
    if arr == [] then 0 else Tally(arr[..|arr| - 1], move) + if IsMove(arr[|arr| - 1].kind) == move then 1 else 0
  }

  /** The buffer without its oldest event of the track. */
  function DropOldest(arr: seq<Event>, move: bool): (r: seq<Event>)
    ensures |r| <= |arr|
    ensures Tally(arr, move) > 0 ==> |r| == |arr| - 1
  {
    if arr == [] then []
    else if Tally(arr[..|arr| - 1], move) > 0 then DropOldest(arr[..|arr| - 1], move) + [arr[|arr| - 1]]
    else if IsMove(arr[|arr| - 1].kind) == move then arr[..|arr| - 1]
    else arr
  }

  /** Make room on the track, oldest first. */
  function TrimTrack(arr: seq<Event>, move: bool): seq<Event>
    decreases |arr|
  {
    if Tally(arr, move) < Cap(move) then arr else TrimTrack(DropOldest(arr, move), move)
  }

  /** Make room in the whole buffer, oldest move first, oldest event when there is no move. */
  function TrimAll(arr: seq<Event>): seq<Event>
    decreases |arr|
  {
    if |arr| < EVENT_CAP then arr
    else TrimAll(if Tally(arr, true) > 0 then DropOldest(arr, true) else arr[1..])
  }

  function Admit(arr: seq<Event>, kind: string): seq<Event> {
    TrimAll(TrimTrack(arr, IsMove(kind)))
  }

  function Push(s: Surface, kind: string): Surface {
    s.(events := Admit(s.events, kind) + [Event(s.nextSeq, kind)], nextSeq := s.nextSeq + 1)
  }

  /** The buffered events above a sequence number. */
  function Above(arr: seq<Event>, n: int): (r: seq<Event>)
    ensures forall e :: e in r <==> e in arr && e.seqNo > n
  {
    if arr == [] then []
    else Above(arr[..|arr| - 1], n) + if arr[|arr| - 1].seqNo > n then [arr[|arr| - 1]] else []
  }

  /** The events a flush would send: those of a non-empty segment in flight, else all buffered ones above the ack. */
  function Slice(s: Surface): seq<Event> {
    if s.inflight.Some? && s.inflight.value.events != [] then s.inflight.value.events else Above(s.events, s.ackedSeq)
  }

  function Cut(s: Surface): Segment {
    var slice := Slice(s);
    var start := if slice == [] then s.ackedSeq + 1 else slice[0].seqNo as int;
    var end := if slice == [] then start else slice[|slice| - 1].seqNo as int;
    Segment(slice, start, end, if s.inflight.Some? then s.inflight.value.id else SegmentId(start, end))
  }

  /** force stands for the force argument or a hiding page. */
  predicate Sends(s: Surface, force: bool) {
    Slice(s) != [] || force
  }

  function Flush(s: Surface, force: bool): Surface {
    if Sends(s, force) then s.(inflight := Some(Cut(s))) else s
  }

  function Ack(s: Surface, end: int, id: Option<SegmentId>): Surface {
    var clears := s.inflight.None? || id.None? || s.inflight.value.id == id.value || s.inflight.value.end <= end;
    s.(ackedSeq := if end > s.ackedSeq then end else s.ackedSeq, inflight := if clears then None else s.inflight)
  }

  // ---------------------------------------------------------------- counting and dropping

  lemma {:induction false} TallyBoth(arr: seq<Event>)
    ensures Tally(arr, true) + Tally(arr, false) == |arr|
  {
    if arr != [] { TallyBoth(arr[..|arr| - 1]); }
  }

  /** Scanning from the front, the first event of the track is the one dropped. */
  lemma {:induction false} DropOldestAt(arr: seq<Event>, move: bool, i: nat)
    requires i < |arr| && IsMove(arr[i].kind) == move
    requires forall j :: 0 <= j < i ==> IsMove(arr[j].kind) != move
    ensures Tally(arr[..i], move) == 0
    ensures DropOldest(arr, move) == arr[..i] + arr[i + 1..] && Tally(arr, move) > 0
  {
    var n := |arr| - 1;
    if i == n {
      NoneOnTrack(arr[..n], move);
    } else {
      DropOldestAt(arr[..n], move, i);
      assert arr[..n][..i] == arr[..i] && arr[..n][i + 1..] + [arr[n]] == arr[i + 1..];
    }
  }

  lemma {:induction false} NoneOnTrack(arr: seq<Event>, move: bool)
    requires forall j :: 0 <= j < |arr| ==> IsMove(arr[j].kind) != move
    ensures Tally(arr, move) == 0
  {
    if arr != [] { NoneOnTrack(arr[..|arr| - 1], move); }
  }

  // ---------------------------------------------------------------- the monitor object

  class Monitor {
    var events: seq<Event>
    var nextSeq: nat
    var ackedSeq: int
    var inflightSeg: Option<Segment>

    function View(): Surface
      reads this
    {
      Surface(events, nextSeq, ackedSeq, inflightSeg)
    }

    constructor ()
      ensures View() == EMPTY
    {
      events, nextSeq, ackedSeq, inflightSeg := [], 1, 0, None;
    }

    /** Drop the first event of the track found from the front; false when there is none. */
    method DropFirst(move: bool) returns (dropped: bool)
      modifies `events
      ensures events == DropOldest(old(events), move)
      ensures dropped == (Tally(old(events), move) > 0)
    {
      for i := 0 to |events|
        invariant events == old(events)
        invariant forall j :: 0 <= j < i ==> IsMove(events[j].kind) != move
      {
        if IsMove(events[i].kind) == move {
          DropOldestAt(events, move, i);
          events := events[..i] + events[i + 1..];
          return true;
        }
      }
      NoneOnTrack(events, move);
      NothingToDrop(events, move);
      return false;
    }

    method CountKind(move: bool) returns (n: nat)
      ensures n == Tally(events, move)
    {
      n := 0;
      for i := 0 to |events|
        invariant n == Tally(events[..i], move)
      {
        assert events[..i + 1][..i] == events[..i];
        if IsMove(events[i].kind) == move {
          n := n + 1;
        }
      }
      assert events[..|events|] == events;
    }

    method DualTrackAdmit(kind: string)
      modifies `events
      ensures events == Admit(old(events), kind)
    {
      var move := IsMove(kind);
      var n := CountKind(move);
      while n >= Cap(move)
        invariant n == Tally(events, move)
        invariant TrimTrack(events, move) == TrimTrack(old(events), move)
        decreases |events|
      {
        var _ := DropFirst(move);
        n := CountKind(move);
      }
      ghost var trimmed := events;
      while |events| >= EVENT_CAP
        invariant TrimAll(events) == TrimAll(trimmed)
        decreases |events|
      {
        ghost var before := events;
        var dropped := DropFirst(true);
        if !dropped {
          NothingToDrop(before, true);
          events := events[1..];
        }
      }
    }

    method PushEvent(kind: string)
      modifies this
      ensures View() == Push(old(View()), kind)
    {
      DualTrackAdmit(kind);
      events := events + [Event(nextSeq, kind)];
      nextSeq := nextSeq + 1;
    }

    method EventsAboveAck() returns (slice: seq<Event>)
      ensures slice == Above(events, ackedSeq)
    {
      slice := [];
      for i := 0 to |events|
        invariant slice == Above(events[..i], ackedSeq)
      {
        assert events[..i + 1][..i] == events[..i];
        if events[i].seqNo > ackedSeq {
          slice := slice + [events[i]];
        } else {
          assert slice + [] == slice;
        }
      }
      assert events[..|events|] == events;
    }

    method FlushNow(force: bool) returns (sent: Option<Segment>)
      modifies this
      ensures View() == Flush(old(View()), force)
      ensures sent == if Sends(old(View()), force) then Some(Cut(old(View()))) else None
    {
      var slice: seq<Event>;
      if inflightSeg.Some? && inflightSeg.value.events != [] {
        slice := inflightSeg.value.events;
      } else {
        slice := EventsAboveAck();
      }
      if |slice| == 0 && !force {
        return None;
      }
      var start := if |slice| > 0 then slice[0].seqNo as int else ackedSeq + 1;
      var end := if |slice| > 0 then slice[|slice| - 1].seqNo as int else start;
      var id := if inflightSeg.Some? then inflightSeg.value.id else SegmentId(start, end);
      inflightSeg := Some(Segment(slice, start, end, id));
      sent := inflightSeg;
    }

    method AckSegment(end: int, id: Option<SegmentId>)
      modifies this
      ensures View() == Ack(old(View()), end, id)
    {
      if end > ackedSeq {
        ackedSeq := end;
      }
      if inflightSeg.None? || id.None? || inflightSeg.value.id == id.value || inflightSeg.value.end <= end {
        inflightSeg := None;
      }
    }
  }

  lemma {:induction false} NothingToDrop(arr: seq<Event>, move: bool)
    requires Tally(arr, move) == 0
    ensures DropOldest(arr, move) == arr
  {
  }
}
