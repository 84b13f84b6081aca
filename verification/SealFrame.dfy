/**
 The bytes a sealed envelope is signed over: the parts copied one behind the other, which are the version, a
 bar, and the ten fields with bars between them, each in UTF-8.
 */
module SealFrame {
  import opened Utf8

  const BAR: Byte := 0x7C

  datatype Envelope = Envelope(
    sessionId: seq<Unit>, visitorTerminalId: seq<Unit>, batchId: seq<Unit>, suiteId: seq<Unit>,
    feEpoch: seq<Unit>, wasmModuleId: seq<Unit>, challengeBind: seq<Unit>, packSetHash: seq<Unit>,
    nonceB64: seq<Unit>, ciphertextB64: seq<Unit>)
  {
    function Fields(): seq<seq<Unit>> {
      [sessionId, visitorTerminalId, batchId, suiteId, feEpoch, wasmModuleId, challengeBind, packSetHash,
       nonceB64, ciphertextB64]
    }
  }

  function Flatten(parts: seq<seq<Byte>>): seq<Byte> {
    if parts == [] then [] else Flatten(parts[..|parts| - 1]) + parts[|parts| - 1]
  }

  function EncodeAll(fs: seq<seq<Unit>>): seq<seq<Byte>> {
    seq(|fs|, i requires 0 <= i < |fs| => Encode(fs[i]))
  }

  /** The parts handed to the signer for version 2, given the ten encoded fields. */
  function V2Parts(f: seq<seq<Byte>>): seq<seq<Byte>>
    requires |f| == 10
  {
    [ [0x76, 0x32, BAR],
      f[0], [BAR], f[1], [BAR], f[2], [BAR], f[3], [BAR], f[4], [BAR],
      f[5], [BAR], f[6], [BAR], f[7], [BAR], f[8], [BAR], f[9] ]
  }

  function V2Message(e: Envelope): seq<Byte> {
    Flatten(V2Parts(EncodeAll(e.Fields())))
  }

  /** The message is put together in one buffer of the right size. */
  method ConcatParts(parts: seq<seq<Byte>>) returns (msg: array<Byte>)
    ensures fresh(msg) && msg[..] == Flatten(parts)
  {
    var total := 0;
    for i := 0 to |parts|
      invariant total == |Flatten(parts[..i])|
    {
      assert parts[..i + 1][..i] == parts[..i];
      total := total + |parts[i]|;
    }
    assert parts[..|parts|] == parts;
    msg := new Byte[total](i => 0);
    var off := 0;
    for j := 0 to |parts|
      invariant off == |Flatten(parts[..j])| <= total
      invariant off <= msg.Length && msg[..off] == Flatten(parts[..j])
    {
      FlattenGrows(parts, j);
      ghost var before := msg[..];
      WasmGlue.CopyBytes(parts[j], msg, off);
      OverlaySlice(before, msg[..], off, parts[j]);
      assert msg[..off + |parts[j]|] == msg[..off] + msg[off..off + |parts[j]|];
      off := off + |parts[j]|;
    }
    assert msg[..] == msg[..off];
  }

  lemma {:induction false} FlattenGrows(parts: seq<seq<Byte>>, j: nat)
    requires j < |parts|
    ensures Flatten(parts[..j + 1]) == Flatten(parts[..j]) + parts[j]
    ensures |Flatten(parts[..j + 1])| <= |Flatten(parts)|
    decreases |parts| - j
  {
    assert parts[..j + 1][..j] == parts[..j];
    if j + 1 < |parts| {
      FlattenGrows(parts, j + 1);
    } else {
      assert parts[..j + 1] == parts;
    }
  }

  /** concatBytes: the second array behind the first. */
  method ConcatBytes(a: seq<Byte>, b: seq<Byte>) returns (o: array<Byte>)
    ensures fresh(o) && o[..] == a + b
  {
    o := ConcatParts([a, b]);
    assert [a, b][..1] == [a] && [a][..0] == [];
    assert Flatten([a]) == [] + a == a;
  }

  // ---------------------------------------------------------------- framing

  function Join(ps: seq<seq<Byte>>): seq<Byte> {
    if ps == [] then [] else if |ps| == 1 then ps[0] else ps[0] + [BAR] + Join(ps[1..])
  }

  function FirstBar(b: seq<Byte>): (n: nat)
    ensures n <= |b| && (n < |b| ==> b[n] == BAR)
  {
    if b == [] || b[0] == BAR then 0 else 1 + FirstBar(b[1..])
  }

  /** The pieces between the bars of a message. */
  function Split(b: seq<Byte>): (ps: seq<seq<Byte>>)
    ensures ps != []
    decreases |b|
  {
    var n := FirstBar(b);
    if n == |b| then [b] else [b[..n]] + Split(b[n + 1..])
  }

  predicate NoBar(b: seq<Byte>) {
    FirstBar(b) == |b|
  }

  ghost predicate NoBars(ps: seq<seq<Byte>>) {
    forall i :: 0 <= i < |ps| ==> NoBar(ps[i])
  }

  lemma {:induction false} FirstBarAfter(p: seq<Byte>, b: seq<Byte>)
    requires NoBar(p)
    ensures FirstBar(p + [BAR] + b) == |p|
    decreases |p|
  {
    var s := p + [BAR] + b;
    if p != [] {
      assert s[1..] == p[1..] + [BAR] + b;
      FirstBarAfter(p[1..], b);
    }
  }

  lemma {:induction false} NoBarBefore(b: seq<Byte>, n: nat)
    requires n <= FirstBar(b)
    ensures NoBar(b[..n])
    decreases n
  {
    if n > 0 {
      NoBarBefore(b[1..], n - 1);
      assert b[..n][1..] == b[1..][..n - 1];
    }
  }

  lemma {:induction false} SplitHasNoBars(b: seq<Byte>)
    ensures NoBars(Split(b))
    decreases |b|
  {
    var n := FirstBar(b);
    if n < |b| {
      NoBarBefore(b, n);
      SplitHasNoBars(b[n + 1..]);
    }
  }

  lemma {:induction false} SplitJoined(ps: seq<seq<Byte>>)
    requires ps != [] && NoBars(ps)
    ensures Split(Join(ps)) == ps
    decreases |ps|
  {
    assert NoBar(ps[0]);
    if |ps| > 1 {
      assert NoBars(ps[1..]);
      SplitJoined(ps[1..]);
      FirstBarAfter(ps[0], Join(ps[1..]));
      var s := Join(ps);
      assert s[..|ps[0]|] == ps[0] && s[|ps[0]| + 1..] == Join(ps[1..]);
    }
  }

  /** A message splits back into what was joined if and only if no piece holds a bar. */
  lemma SplitsBackIff(ps: seq<seq<Byte>>)
    requires ps != []
    ensures Split(Join(ps)) == ps <==> NoBars(ps)
  {
    SplitHasNoBars(Join(ps));
    if NoBars(ps) {
      SplitJoined(ps);
    }
  }

  // ---------------------------------------------------------------- bars in text

  ghost predicate NoBarIn(s: seq<Unit>) {
    forall i :: 0 <= i < |s| ==> s[i] != BAR
  }

  lemma {:induction false} NoBarAcross(a: seq<Byte>, b: seq<Byte>)
    ensures NoBar(a + b) <==> NoBar(a) && NoBar(b)
    decreases |a|
  {
    if a == [] {
      assert a + b == b;
    } else {
      assert (a + b)[1..] == a[1..] + b;
      NoBarAcross(a[1..], b);
    }
  }

  lemma {:induction false} BytesHighOrLead(v: nat, k: nat, lead: Byte)
    requires Fits(v, k, lead) && lead >= 0xC0
    ensures NoBar(Bytes(v, k, lead))
    decreases k
  {
    if k == 0 {
      assert Bytes(v, 0, lead)[1..] == [];
    } else {
      BytesHighOrLead(v / 0x40, k - 1, lead);
      var t: seq<Byte> := [0x80 + v % 0x40];
      assert t[1..] == [];
      NoBarAcross(Bytes(v / 0x40, k - 1, lead), t);
    }
  }

  lemma BarInScalar(v: nat)
    requires Scalar(v)
    ensures NoBar(EncodeScalar(v)) <==> v != BAR
  {
    ScalarFits(v);
    if v < 0x80 {
      assert EncodeScalar(v) == [v] && [v][1..] == [];
    } else if v < 0x800 {
      BytesHighOrLead(v, 1, 0xC0);
    } else if v < 0x10000 {
      BytesHighOrLead(v, 2, 0xE0);
    } else {
      BytesHighOrLead(v, 3, 0xF0);
    }
  }

  /** UTF-8 writes a bar byte for a bar and for nothing else. */
  lemma {:induction false} BarInEncoding(s: seq<Unit>)
    ensures NoBar(Encode(s)) <==> NoBarIn(s)
    decreases |s|
  {
    if s != [] {
      var n := Width(s);
      BarInEncoding(s[n..]);
      BarInScalar(First(s));
      NoBarAcross(EncodeScalar(First(s)), Encode(s[n..]));
      assert s == s[..n] + s[n..];
      assert NoBarIn(s) <==> NoBarIn(s[..n]) && NoBarIn(s[n..]);
    }
  }

  // ---------------------------------------------------------------- the version 2 message

  ghost predicate WithoutBars(fs: seq<seq<Unit>>) {
    forall i :: 0 <= i < |fs| ==> NoBarIn(fs[i])
  }

  const V2: seq<Byte> := [0x76, 0x32]

  /** The version and the encoded fields. */
  function Pieces(fs: seq<seq<Unit>>): seq<seq<Byte>> {
    [V2] + EncodeAll(fs)
  }

  /** The pieces with a bar after each but the last, as the parts list them. */
  function Barred(ps: seq<seq<Byte>>): seq<seq<Byte>> {
    if ps == [] then [] else if |ps| == 1 then ps else [ps[0], [BAR]] + Barred(ps[1..])
  }

  lemma {:induction false} FlattenFront(p: seq<Byte>, ps: seq<seq<Byte>>)
    ensures Flatten([p] + ps) == p + Flatten(ps)
    decreases |ps|
  {
    var all := [p] + ps;
    if ps == [] {
      assert all == [p] && all[..0] == [];
      assert p + [] == p == [] + p;
    } else {
      var n := |ps| - 1;
      assert all[..n + 1] == [p] + ps[..n];
      FlattenFront(p, ps[..n]);
    }
  }

  lemma {:induction false} FlattenBarred(ps: seq<seq<Byte>>)
    ensures Flatten(Barred(ps)) == Join(ps)
    decreases |ps|
  {
    if |ps| == 1 {
      assert ps[..0] == [];
    } else if |ps| > 1 {
      FlattenBarred(ps[1..]);
      var rest := Barred(ps[1..]);
      assert Barred(ps) == [ps[0]] + ([[BAR]] + rest);
      FlattenFront([BAR], rest);
      FlattenFront(ps[0], [[BAR]] + rest);
    }
  }

  lemma BarredFront(p: seq<Byte>, ps: seq<seq<Byte>>)
    requires ps != []
    ensures Barred([p] + ps) == [p, [BAR]] + Barred(ps)
  {
    assert ([p] + ps)[1..] == ps;
  }

  lemma BarredFive(a: seq<Byte>, b: seq<Byte>, c: seq<Byte>, d: seq<Byte>, e: seq<Byte>)
    ensures Barred([a, b, c, d, e]) == [a, [BAR], b, [BAR], c, [BAR], d, [BAR], e]
  {
    BarredFront(d, [e]);
    BarredFront(c, [d] + [e]);
    BarredFront(b, [c] + ([d] + [e]));
    BarredFront(a, [b] + ([c] + ([d] + [e])));
    assert [a, b, c, d, e] == [a] + ([b] + ([c] + ([d] + [e])));
  }

  lemma {:induction false} BarredAcross(ps: seq<seq<Byte>>, qs: seq<seq<Byte>>)
    requires ps != [] && qs != []
    ensures Barred(ps + qs) == Barred(ps) + [[BAR]] + Barred(qs)
    decreases |ps|
  {
    assert (ps + qs)[1..] == ps[1..] + qs;
    if |ps| > 1 {
      BarredAcross(ps[1..], qs);
    } else {
      assert ps[1..] + qs == qs;
    }
  }

  lemma TwoFives<T>(v: T, bar: T, f: seq<T>)
    requires |f| == 10
    ensures [v, f[0], bar, f[1], bar, f[2], bar, f[3], bar, f[4], bar, f[5], bar, f[6], bar, f[7], bar, f[8], bar, f[9]]
         == [v] + ([f[0], bar, f[1], bar, f[2], bar, f[3], bar, f[4]] + [bar]
                   + [f[5], bar, f[6], bar, f[7], bar, f[8], bar, f[9]])
    ensures f == [f[0], f[1], f[2], f[3], f[4]] + [f[5], f[6], f[7], f[8], f[9]]
  {
  }

  lemma PartsAreBarred(f: seq<seq<Byte>>)
    requires |f| == 10
    ensures V2Parts(f) == [[0x76, 0x32, BAR]] + Barred(f)
  {
    BarredFive(f[0], f[1], f[2], f[3], f[4]);
    BarredFive(f[5], f[6], f[7], f[8], f[9]);
    BarredAcross([f[0], f[1], f[2], f[3], f[4]], [f[5], f[6], f[7], f[8], f[9]]);
    TwoFives([0x76, 0x32, BAR], [BAR], f);
  }

  lemma PartsAreJoined(f: seq<seq<Byte>>)
    requires |f| == 10
    ensures Flatten(V2Parts(f)) == Join([V2] + f)
  {
    PartsAreBarred(f);
    FlattenFront([0x76, 0x32, BAR], Barred(f));
    FlattenBarred(f);
    assert ([V2] + f)[1..] == f;
    assert V2 + [BAR] == [0x76, 0x32, BAR];
  }

  /** The signed bytes are the version and the ten fields with bars between them. */
  lemma V2MessageIsJoined(e: Envelope)
    ensures V2Message(e) == Join(Pieces(e.Fields()))
  {
    PartsAreJoined(EncodeAll(e.Fields()));
  }

  lemma EncodedNoBarIff(fs: seq<seq<Unit>>)
    ensures NoBars(EncodeAll(fs)) <==> WithoutBars(fs)
  {
    var ps := EncodeAll(fs);
    forall i | 0 <= i < |fs|
      ensures NoBar(ps[i]) <==> NoBarIn(fs[i])
    {
      BarInEncoding(fs[i]);
    }
  }

  lemma FrontNoBar(p: seq<Byte>, ps: seq<seq<Byte>>)
    requires NoBar(p)
    ensures NoBars([p] + ps) <==> NoBars(ps)
  {
    assert forall i :: 0 <= i < |ps| ==> ps[i] == ([p] + ps)[i + 1];
  }

  /** The signed message splits back into the version and the ten fields if and only if no field holds a bar. */
  lemma V2SplitsBackIff(e: Envelope)
    ensures Split(V2Message(e)) == Pieces(e.Fields()) <==> WithoutBars(e.Fields())
  {
    V2MessageIsJoined(e);
    SplitsBackIff(Pieces(e.Fields()));
    assert V2[1..][1..] == [];
    FrontNoBar(V2, EncodeAll(e.Fields()));
    EncodedNoBarIff(e.Fields());
  }

  lemma EncodingsDecide(a: seq<Unit>, b: seq<Unit>)
    requires Encode(a) == Encode(b)
    ensures Scrub(a) == Scrub(b) && (WellFormed(a) && WellFormed(b) ==> a == b)
  {
    DecodeEncode(a);
    DecodeEncode(b);
    ScrubIdentityIff(a);
    ScrubIdentityIff(b);
  }

  /** Two envelopes without bars in their fields are signed over the same bytes only if they read the same. */
  lemma V2MessageDeterminesFields(e: Envelope, f: Envelope, i: nat)
    requires WithoutBars(e.Fields()) && WithoutBars(f.Fields()) && V2Message(e) == V2Message(f) && i < 10
    ensures Scrub(e.Fields()[i]) == Scrub(f.Fields()[i])
    ensures WellFormed(e.Fields()[i]) && WellFormed(f.Fields()[i]) ==> e.Fields()[i] == f.Fields()[i]
  {
    V2SplitsBackIff(e);
    V2SplitsBackIff(f);
    SamePieces(e.Fields(), f.Fields(), i);
  }

  lemma SamePieces(es: seq<seq<Unit>>, fs: seq<seq<Unit>>, i: nat)
    requires |es| == |fs| && Pieces(es) == Pieces(fs) && i < |es|
    ensures Scrub(es[i]) == Scrub(fs[i]) && (WellFormed(es[i]) && WellFormed(fs[i]) ==> es[i] == fs[i])
  {
    assert Pieces(es)[i + 1] == Encode(es[i]) && Pieces(fs)[i + 1] == Encode(fs[i]);
    EncodingsDecide(es[i], fs[i]);
  }

  lemma {:induction false} EncodeAroundBar(x: seq<Unit>, y: seq<Unit>)
    ensures Encode(x + [BAR] + y) == Encode(x) + [BAR] + Encode(y)
    decreases |x|
  {
    var s := x + [BAR] + y;
    if x == [] {
      assert s[1..] == y && s[0] == BAR;
      assert EncodeScalar(First(s)) == [BAR];
    } else {
      var n := Width(x);
      assert First(s) == First(x) && Width(s) == n;
      assert s[n..] == x[n..] + [BAR] + y;
      EncodeAroundBar(x[n..], y);
    }
  }

  lemma PiecesApart(head: seq<seq<Unit>>, mid: seq<seq<Unit>>, tail: seq<seq<Unit>>)
    ensures Pieces(head + mid + tail) == ([V2] + EncodeAll(head)) + (EncodeAll(mid) + EncodeAll(tail))
  {
  }

  lemma EncodeTwo(x: seq<Unit>, y: seq<Unit>)
    ensures EncodeAll([x, y]) == [Encode(x), Encode(y)]
  {
  }

  lemma MovedBar(head: seq<seq<Unit>>, x: seq<Unit>, y: seq<Unit>, z: seq<Unit>, tail: seq<seq<Unit>>)
    requires tail != []
    ensures Join(Pieces(head + [x + [BAR] + y, z] + tail)) == Join(Pieces(head + [x, y + [BAR] + z] + tail))
  {
    var xy, yz := x + [BAR] + y, y + [BAR] + z;
    EncodeTwo(xy, z);
    EncodeTwo(x, yz);
    PiecesApart(head, [xy, z], tail);
    PiecesApart(head, [x, yz], tail);
    MovedBarMiddle(x, y, z, EncodeAll(tail));
    JoinSame([V2] + EncodeAll(head), [Encode(xy), Encode(z)] + EncodeAll(tail), [Encode(x), Encode(yz)] + EncodeAll(tail));
  }

  lemma MovedBarMiddle(x: seq<Unit>, y: seq<Unit>, z: seq<Unit>, tail: seq<seq<Byte>>)
    requires tail != []
    ensures Join([Encode(x + [BAR] + y), Encode(z)] + tail) == Join([Encode(x), Encode(y + [BAR] + z)] + tail)
  {
    EncodeAroundBar(x, y);
    EncodeAroundBar(y, z);
    JoinMiddle(Encode(x), Encode(y), Encode(z), tail);
  }

  /** A bar inside the batch id can be moved into the suite id without a trace in the signed bytes. */
  lemma BarsCollide(e: Envelope, x: seq<Unit>, y: seq<Unit>, z: seq<Unit>)
    ensures var one := e.(batchId := x + [BAR] + y, suiteId := z);
      var two := e.(batchId := x, suiteId := y + [BAR] + z);
      one != two && V2Message(one) == V2Message(two)
  {
    var one := e.(batchId := x + [BAR] + y, suiteId := z);
    var two := e.(batchId := x, suiteId := y + [BAR] + z);
    var head, tail := one.Fields()[..2], one.Fields()[4..];
    MovedBar(head, x, y, z, tail);
    assert one.Fields() == head + [x + [BAR] + y, z] + tail;
    assert two.Fields() == head + [x, y + [BAR] + z] + tail;
    V2MessageIsJoined(one);
    V2MessageIsJoined(two);
    assert |x + [BAR] + y| > |x|;
  }

  lemma JoinMiddle(x: seq<Byte>, y: seq<Byte>, z: seq<Byte>, tail: seq<seq<Byte>>)
    requires tail != []
    ensures Join([x + [BAR] + y, z] + tail) == Join([x, y + [BAR] + z] + tail)
  {
    var one := [x + [BAR] + y, z] + tail;
    var two := [x, y + [BAR] + z] + tail;
    assert one[1..] == [z] + tail && two[1..] == [y + [BAR] + z] + tail;
    assert ([z] + tail)[1..] == tail && ([y + [BAR] + z] + tail)[1..] == tail;
    var t := Join(tail);
    assert Join(one) == x + [BAR] + y + [BAR] + (z + [BAR] + t);
    assert Join(two) == x + [BAR] + (y + [BAR] + z + [BAR] + t);
  }

  lemma {:induction false} JoinSame(before: seq<seq<Byte>>, a: seq<seq<Byte>>, b: seq<seq<Byte>>)
    requires a != [] && b != [] && Join(a) == Join(b)
    ensures Join(before + a) == Join(before + b)
    decreases |before|
  {
    if before == [] {
      assert before + a == a && before + b == b;
    } else {
      assert (before + a)[1..] == before[1..] + a && (before + b)[1..] == before[1..] + b;
      JoinSame(before[1..], a, b);
    }
  }
}
