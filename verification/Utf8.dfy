/**
 Strings as sequences of UTF-16 code units, their UTF-8 encoding (section 3 of RFC 3629) with lone
 surrogates replaced by U+FFFD, and the strict decoding that rejects every ill-formed byte sequence.
 */
module Utf8 {

  datatype Option<+T> = None | Some(value: T)

  type Unit = n: nat | n < 0x10000
  type Byte = n: nat | n < 0x100

  const REPLACEMENT: Unit := 0xFFFD

  predicate High(u: Unit) {
    0xD800 <= u <= 0xDBFF
  }

  predicate Low(u: Unit) {
    0xDC00 <= u <= 0xDFFF
  }

  predicate Scalar(v: nat) {
    v <= 0x10FFFF && !(0xD800 <= v <= 0xDFFF)
  }

  predicate PairAt(s: seq<Unit>, i: nat) {
    i + 1 < |s| && High(s[i]) && Low(s[i + 1])
  }

  /** How many units the first character of a string takes. */
  function Width(s: seq<Unit>): (n: nat)
    requires s != []
    ensures 1 <= n <= |s|
  {
    if PairAt(s, 0) then 2 else 1
  }

  /** The first character: a surrogate pair is one scalar, a lone surrogate reads as U+FFFD. */
  function First(s: seq<Unit>): (v: nat)
    requires s != []
    ensures Scalar(v)
  {
    if PairAt(s, 0) then 0x10000 + (s[0] - 0xD800) * 0x400 + (s[1] - 0xDC00)
    else if High(s[0]) || Low(s[0]) then REPLACEMENT
    else s[0]
  }

  /** Whether v has at most 6 * k bits below the free bits of the lead byte. */
  predicate Fits(v: nat, k: nat, lead: Byte) {
    if k == 0 then lead + v < 0x100 else Fits(v / 0x40, k - 1, lead)
  }

  /** The lead byte carries the top bits, each of the k bytes after it six more. */
  function Bytes(v: nat, k: nat, lead: Byte): (b: seq<Byte>)
    requires Fits(v, k, lead)
    ensures |b| == k + 1
    decreases k
  {
    if k == 0 then [lead + v] else Bytes(v / 0x40, k - 1, lead) + [0x80 + v % 0x40]
  }

  lemma ScalarFits(v: nat)
    requires Scalar(v)
    ensures v < 0x80 ==> Fits(v, 0, 0)
    ensures 0x80 <= v < 0x800 ==> Fits(v, 1, 0xC0)
    ensures 0x800 <= v < 0x10000 ==> Fits(v, 2, 0xE0)
    ensures 0x10000 <= v ==> Fits(v, 3, 0xF0)
  {
    assert 0x10000 <= v ==> Fits(v / 0x40 / 0x40, 1, 0xF0);
  }

  function EncodeScalar(v: nat): (b: seq<Byte>)
    requires Scalar(v)
    ensures 1 <= |b| <= 4
  {
    ScalarFits(v);
    if v < 0x80 then Bytes(v, 0, 0)
    else if v < 0x800 then Bytes(v, 1, 0xC0)
    else if v < 0x10000 then Bytes(v, 2, 0xE0)
    else Bytes(v, 3, 0xF0)
  }

  function Encode(s: seq<Unit>): seq<Byte>
    decreases |s|
  {
    if s == [] then [] else EncodeScalar(First(s)) + Encode(s[Width(s)..])
  }

  predicate Tail(b: int) {
    0x80 <= b <= 0xBF
  }

  function Decode2(b0: int, b1: int): (v: Option<nat>)
    ensures v.Some? ==> 0x80 <= v.value < 0x800
  {
    if 0xC2 <= b0 <= 0xDF && Tail(b1) then Some((b0 - 0xC0) * 0x40 + (b1 - 0x80)) else None
  }

  function Decode3(b0: int, b1: int, b2: int): (v: Option<nat>)
    ensures v.Some? ==> 0x800 <= v.value < 0x10000 && Scalar(v.value)
  {
    if 0xE0 <= b0 <= 0xEF && Tail(b1) && Tail(b2) then
      var v := ((b0 - 0xE0) * 0x40 + (b1 - 0x80)) * 0x40 + (b2 - 0x80);
      if v >= 0x800 && Scalar(v) then Some(v) else None
    else None
  }

  function Decode4(b0: int, b1: int, b2: int, b3: int): (v: Option<nat>)
    ensures v.Some? ==> 0x10000 <= v.value && Scalar(v.value)
  {
    if 0xF0 <= b0 <= 0xF4 && Tail(b1) && Tail(b2) && Tail(b3) then
      var v := (((b0 - 0xF0) * 0x40 + (b1 - 0x80)) * 0x40 + (b2 - 0x80)) * 0x40 + (b3 - 0x80);
      if v >= 0x10000 && Scalar(v) then Some(v) else None
    else None
  }

  /** The scalar at the front of a byte sequence: the shortest form only, no surrogate, nothing above U+10FFFF. */
  function DecodeFirst(b: seq<Byte>): (v: Option<nat>)
    ensures v.Some? ==> Scalar(v.value)
  {
    if b == [] then None
    else if b[0] < 0x80 then Some(b[0])
    else if b[0] < 0xE0 then if |b| > 1 then Decode2(b[0], b[1]) else None
    else if b[0] < 0xF0 then if |b| > 2 then Decode3(b[0], b[1], b[2]) else None
    else if |b| > 3 then Decode4(b[0], b[1], b[2], b[3])
    else None
  }

  function Units(v: nat): (s: seq<Unit>)
    requires Scalar(v)
    ensures s != []
  {
    if v < 0x10000 then [v] else [0xD800 + (v - 0x10000) / 0x400, 0xDC00 + (v - 0x10000) % 0x400]
  }

  lemma Digit(hi: nat, lo: nat)
    requires lo < 0x40
    ensures (hi * 0x40 + lo) / 0x40 == hi && (hi * 0x40 + lo) % 0x40 == lo
  {
  }

  lemma Encode2(b0: Byte, b1: Byte)
    requires Decode2(b0, b1).Some?
    ensures EncodeScalar(Decode2(b0, b1).value) == [b0, b1]
  {
    Digit(b0 - 0xC0, b1 - 0x80);
  }

  lemma Encode3(b0: Byte, b1: Byte, b2: Byte)
    requires Decode3(b0, b1, b2).Some?
    ensures EncodeScalar(Decode3(b0, b1, b2).value) == [b0, b1, b2]
  {
    Digit((b0 - 0xE0) * 0x40 + (b1 - 0x80), b2 - 0x80);
    Digit(b0 - 0xE0, b1 - 0x80);
  }

  lemma Encode4(b0: Byte, b1: Byte, b2: Byte, b3: Byte)
    requires Decode4(b0, b1, b2, b3).Some?
    ensures EncodeScalar(Decode4(b0, b1, b2, b3).value) == [b0, b1, b2, b3]
  {
    Digit(((b0 - 0xF0) * 0x40 + (b1 - 0x80)) * 0x40 + (b2 - 0x80), b3 - 0x80);
    Digit((b0 - 0xF0) * 0x40 + (b1 - 0x80), b2 - 0x80);
    Digit(b0 - 0xF0, b1 - 0x80);
  }

  /** What the decoder reads at the front is the encoding of the scalar it returns. */
  lemma DecodedSize(b: seq<Byte>)
    requires DecodeFirst(b).Some?
    ensures EncodeScalar(DecodeFirst(b).value) <= b
  {
    if b[0] < 0x80 {
      assert b[..1] == [b[0]];
    } else if b[0] < 0xE0 {
      Encode2(b[0], b[1]);
      assert b[..2] == [b[0], b[1]];
    } else if b[0] < 0xF0 {
      Encode3(b[0], b[1], b[2]);
      assert b[..3] == [b[0], b[1], b[2]];
    } else {
      Encode4(b[0], b[1], b[2], b[3]);
      assert b[..4] == [b[0], b[1], b[2], b[3]];
    }
  }

  /** A byte sequence that is not well-formed UTF-8 makes the whole decoding fail. */
  function Decode(b: seq<Byte>): Option<seq<Unit>>
    decreases |b|
  {
    if b == [] then Some([])
    else
      match DecodeFirst(b)
      case None => None
      case Some(v) =>
        DecodedSize(b);
        match Decode(b[|EncodeScalar(v)|..])
        case None => None
        case Some(rest) => Some(Units(v) + rest)
  }

  /** The string with every lone surrogate replaced. */
  function Scrub(s: seq<Unit>): seq<Unit>
    decreases |s|
  {
    if s == [] then []
    else if PairAt(s, 0) then s[..2] + Scrub(s[2..])
    else [if High(s[0]) || Low(s[0]) then REPLACEMENT else s[0]] + Scrub(s[1..])
  }

  /** Every surrogate is half of a pair. */
  predicate WellFormed(s: seq<Unit>)
    decreases |s|
  {
    s == [] ||
    if PairAt(s, 0) then WellFormed(s[2..]) else !High(s[0]) && !Low(s[0]) && WellFormed(s[1..])
  }

  // ---------------------------------------------------------------- round trips

  lemma DecodeEncodedScalar(v: nat, rest: seq<Byte>)
    requires Scalar(v)
    ensures DecodeFirst(EncodeScalar(v) + rest) == Some(v)
  {
    var e := EncodeScalar(v);
    var b := e + rest;
    assert forall i :: 0 <= i < |e| ==> b[i] == e[i];
    if v < 0x80 {
    } else if v < 0x800 {
      assert Decode2(e[0], e[1]) == Some(v);
    } else if v < 0x10000 {
      assert Decode3(e[0], e[1], e[2]) == Some(v);
    } else {
      assert Decode4(e[0], e[1], e[2], e[3]) == Some(v);
    }
  }

  lemma UnitsOfFirst(s: seq<Unit>)
    requires s != []
    ensures Units(First(s)) == if PairAt(s, 0) then s[..2] else [if High(s[0]) || Low(s[0]) then REPLACEMENT else s[0]]
  {
  }

  /** Decoding an encoded string gives the string with its lone surrogates replaced, for every string. */
  lemma {:induction false} DecodeEncode(s: seq<Unit>)
    ensures Decode(Encode(s)) == Some(Scrub(s))
    decreases |s|
  {
    if s != [] {
      var e, rest := EncodeScalar(First(s)), Encode(s[Width(s)..]);
      DecodeEncode(s[Width(s)..]);
      DecodeEncodedScalar(First(s), rest);
      assert (e + rest)[|e|..] == rest;
      UnitsOfFirst(s);
    }
  }

  lemma {:induction false} ScrubIdentityIff(s: seq<Unit>)
    ensures Scrub(s) == s <==> WellFormed(s)
    ensures |Scrub(s)| == |s|
    decreases |s|
  {
    if s != [] {
      var n := Width(s);
      ScrubIdentityIff(s[n..]);
      assert s == s[..n] + s[n..];
      assert Scrub(s)[n..] == Scrub(s[n..]);
    }
  }

  /** Text survives the trip into wasm memory and back if and only if it has no lone surrogate. */
  lemma RoundTripIff(s: seq<Unit>)
    ensures Decode(Encode(s)) == Some(s) <==> WellFormed(s)
  {
    DecodeEncode(s);
    ScrubIdentityIff(s);
  }

  lemma FirstOfUnits(v: nat, rest: seq<Unit>)
    requires Scalar(v)
    ensures First(Units(v) + rest) == v && Width(Units(v) + rest) == |Units(v)|
  {
  }

  /** Every byte sequence the decoder accepts is the encoding of what it returns. */
  lemma {:induction false} EncodeDecode(b: seq<Byte>)
    requires Decode(b).Some?
    ensures Encode(Decode(b).value) == b
    decreases |b|
  {
    if b != [] {
      var v := DecodeFirst(b).value;
      DecodedSize(b);
      var n := |EncodeScalar(v)|;
      EncodeDecode(b[n..]);
      var rest := Decode(b[n..]).value;
      FirstOfUnits(v, rest);
      assert (Units(v) + rest)[|Units(v)|..] == rest;
      assert b == b[..n] + b[n..];
    }
  }

  /** Three bytes a unit are enough room for any string. */
  lemma {:induction false} EncodeFits(s: seq<Unit>)
    ensures |Encode(s)| <= 3 * |s|
    decreases |s|
  {
    if s != [] { EncodeFits(s[Width(s)..]); }
  }

  lemma EncodeStep(s: seq<Unit>, read: nat, out: seq<Byte>)
    requires read < |s|
    ensures read + Width(s[read..]) <= |s|
    ensures Encode(s[read..]) == EncodeScalar(First(s[read..])) + Encode(s[read + Width(s[read..])..])
    ensures out + Encode(s[read..]) == out + EncodeScalar(First(s[read..])) + Encode(s[read + Width(s[read..])..])
  {
    var rest := s[read..];
    assert rest[Width(rest)..] == s[read + Width(rest)..];
  }

  predicate AsciiPrefix(b: seq<Byte>, s: seq<Unit>) {
    |b| <= |s| && forall i :: 0 <= i < |b| ==> b[i] < 0x80 && s[i] == b[i]
  }

  lemma AsciiStep(b: seq<Byte>, i: nat, s: seq<Unit>)
    requires AsciiPrefix(b, s) && i < |b|
    ensures b[..i] + Encode(s[i..]) == b[..i + 1] + Encode(s[i + 1..])
  {
    assert s[i] == b[i] < 0x80;
    EncodeStep(s, i, b[..i]);
    assert b[..i + 1] == b[..i] + [b[i]];
  }

  /** The fast path: an ASCII prefix is its own encoding, and the rest is encoded on its own. */
  lemma {:induction false} EncodeAsciiPrefix(b: seq<Byte>, n: nat, s: seq<Unit>)
    requires AsciiPrefix(b, s) && n <= |b|
    ensures Encode(s) == b[..n] + Encode(s[n..])
    decreases n
  {
    if n == 0 {
      assert s[0..] == s;
    } else {
      EncodeAsciiPrefix(b, n - 1, s);
      AsciiStep(b, n - 1, s);
    }
  }

  // ---------------------------------------------------------------- the wasm glue

  /** The bytes q are p with out written over them from the offset on. */
  ghost predicate Overlay(q: seq<Byte>, p: seq<Byte>, offset: nat, out: seq<Byte>) {
    && |q| == |p| && offset + |out| <= |p|
    && forall i :: 0 <= i < |p| ==> q[i] == if offset <= i < offset + |out| then out[i - offset] else p[i]
  }

  lemma OverlayExtend(p: seq<Byte>, q: seq<Byte>, r: seq<Byte>, offset: nat, out: seq<Byte>, e: seq<Byte>)
    requires Overlay(q, p, offset, out) && Overlay(r, q, offset + |out|, e)
    ensures Overlay(r, p, offset, out + e)
  {
  }

  lemma OverlaySlice(p: seq<Byte>, q: seq<Byte>, offset: nat, out: seq<Byte>)
    requires Overlay(q, p, offset, out)
    ensures q[offset..offset + |out|] == out && q[..offset] == p[..offset]
  {
  }

  /** An allocation is an array of its own, so a pointer and a length are the array and its length. */
  class WasmGlue {
    var vectorLen: nat

    constructor ()
    {
      vectorLen := 0;
    }

    static method Malloc(n: nat) returns (p: array<Byte>)
      ensures fresh(p) && p.Length == n
    {
      p := new Byte[n](i => 0);
    }

    static method Realloc(p: array<Byte>, n: nat) returns (q: array<Byte>)
      ensures fresh(q) && q.Length == n
      ensures forall i :: 0 <= i < n && i < p.Length ==> q[i] == p[i]
    {
      q := new Byte[n](i => 0);
      for i := 0 to n
        modifies q
        invariant forall j :: 0 <= j < i && j < p.Length ==> q[j] == p[j]
      {
        if i < p.Length {
          q[i] := p[i];
        }
      }
    }

    static method CopyBytes(b: seq<Byte>, p: array<Byte>, offset: nat)
      requires offset + |b| <= p.Length
      modifies p
      ensures Overlay(p[..], old(p[..]), offset, b)
    {
      for k := 0 to |b|
        invariant Overlay(p[..], old(p[..]), offset, b[..k])
      {
        p[offset + k] := b[k];
      }
    }

    static method Append(e: seq<Byte>, p: array<Byte>, offset: nat, n: nat, ghost base: seq<Byte>, ghost out: seq<Byte>)
      requires |out| == n && offset + n + |e| <= p.Length && Overlay(p[..], base, offset, out)
      modifies p
      ensures Overlay(p[..], base, offset, out + e)
    {
      CopyBytes(e, p, offset + n);
      OverlayExtend(base, old(p[..]), p[..], offset, out, e);
    }

    /** The platform encoder: whole characters as long as they fit behind the offset; out is what it wrote. */
    static method EncodeInto(arg: seq<Unit>, p: array<Byte>, offset: nat)
      returns (read: nat, written: nat, ghost out: seq<Byte>)
      requires offset <= p.Length
      modifies p
      ensures Overlay(p[..], old(p[..]), offset, out) && |out| == written
      ensures read <= |arg| && Encode(arg) == out + Encode(arg[read..])
      ensures offset + |Encode(arg)| <= p.Length ==> read == |arg|
    {
      read, written, out := 0, 0, [];
      ghost var base := p[..];
      assert arg[0..] == arg;
      while read < |arg|
        invariant read <= |arg| && |out| == written && Overlay(p[..], base, offset, out)
        invariant Encode(arg) == out + Encode(arg[read..])
      {
        var e := EncodeScalar(First(arg[read..]));
        EncodeStep(arg, read, out);
        if offset + written + |e| > p.Length {
          break;
        }
        Append(e, p, offset, written, base, out);
        written, out := written + |e|, out + e;
        read := read + Width(arg[read..]);
      }
    }

    /** The ASCII prefix is copied as it is, up to the first unit above 0x7F. */
    static method CopyAscii(arg: seq<Unit>, p: array<Byte>) returns (offset: nat)
      requires p.Length == |arg|
      modifies p
      ensures offset <= |arg| && AsciiPrefix(p[..offset], arg)
      ensures offset < |arg| ==> arg[offset] > 0x7F
    {
      offset := 0;
      while offset < |arg| && arg[offset] <= 0x7F
        invariant offset <= |arg|
        invariant forall i :: 0 <= i < offset ==> p[i] < 0x80 && p[i] == arg[i]
      {
        p[offset] := arg[offset];
        offset := offset + 1;
      }
    }

    /** passStringToWasm0 with a realloc: ASCII fast path, then room for three bytes a unit, then shrink. */
    method PassString(arg: seq<Unit>) returns (p: array<Byte>)
      modifies this
      ensures fresh(p) && p[..] == Encode(arg) && vectorLen == |Encode(arg)|
    {
      p := Malloc(|arg|);
      var offset := CopyAscii(arg, p);
      ghost var prefix := p[..offset];
      assert prefix[..offset] == prefix;
      EncodeAsciiPrefix(prefix, offset, arg);
      if offset != |arg| {
        p, offset := PassTail(arg[offset..], p, offset);
      } else {
        assert arg[offset..] == [];
        assert p[..] == prefix;
      }
      vectorLen := offset;
    }

    /** The slow tail: the rest is encoded behind the first offset bytes. */
    static method PassTail(rest: seq<Unit>, buf: array<Byte>, offset: nat) returns (p: array<Byte>, end: nat)
      requires offset <= buf.Length
      ensures fresh(p) && end == p.Length && p[..] == buf[..offset] + Encode(rest)
    {
      EncodeFits(rest);
      var q := Realloc(buf, offset + |rest| * 3);
      assert q[..offset] == buf[..offset];
      ghost var before := q[..];
      var read, written, out := EncodeInto(rest, q, offset);
      OverlaySlice(before, q[..], offset, out);
      assert rest[read..] == [];
      end := offset + written;
      p := Realloc(q, end);
      assert p[..] == q[..end] == q[..offset] + q[offset..end];
    }

    /** passStringToWasm0 without a realloc: encode first, then allocate exactly. */
    method PassStringExact(arg: seq<Unit>) returns (p: array<Byte>)
      modifies this
      ensures fresh(p) && p[..] == Encode(arg) && vectorLen == |Encode(arg)|
    {
      var buf := Encode(arg);
      p := Malloc(|buf|);
      ghost var before := p[..];
      CopyBytes(buf, p, 0);
      OverlaySlice(before, p[..], 0, buf);
      vectorLen := |buf|;
    }

    /** getStringFromWasm0: None where the fatal decoder throws. */
    static method GetString(p: array<Byte>, len: nat) returns (s: Option<seq<Unit>>)
      requires len <= p.Length
      ensures s.Some? ==> Encode(s.value) == p[..len]
      ensures forall t :: p[..len] == Encode(t) ==> s == Some(Scrub(t))
    {
      s := Decode(p[..len]);
      if s.Some? {
        EncodeDecode(p[..len]);
      }
      forall t | p[..len] == Encode(t)
        ensures s == Some(Scrub(t))
      {
        DecodeEncode(t);
      }
    }
  }
}
