/**
 Base64 (section 4 of RFC 4648) as the browser's btoa writes it and its forgiving atob reads it, and the two
 loops that carry byte arrays through them. A binary string is a sequence of bytes.
 */
module Base64 {
  import opened Utf8

  const CHUNK := 0x8000

  function Digit(n: nat): (c: char)
    requires n < 64
    ensures ValueOf(c) == Some(n) && c != '=' && !Blank(c)
  {
    if n < 26 then ('A' as int + n) as char
    else if n < 52 then ('a' as int + n - 26) as char
    else if n < 62 then ('0' as int + n - 52) as char
    else if n == 62 then '+' else '/'
  }

  function ValueOf(c: char): (v: Option<nat>)
    ensures v.Some? ==> v.value < 64
  {
    if 'A' <= c <= 'Z' then Some(c as int - 'A' as int)
    else if 'a' <= c <= 'z' then Some(c as int - 'a' as int + 26)
    else if '0' <= c <= '9' then Some(c as int - '0' as int + 52)
    else if c == '+' then Some(62)
    else if c == '/' then Some(63)
    else None
  }

  predicate IsDigit(c: char) {
    ValueOf(c).Some?
  }

  /** The digits of a byte sequence, three bytes at a time, without padding. */
  function Digits(b: seq<Byte>): string {
    if b == [] then []
    else if |b| == 1 then [Digit(b[0] / 4), Digit(b[0] % 4 * 16)]
    else if |b| == 2 then [Digit(b[0] / 4), Digit(b[0] % 4 * 16 + b[1] / 16), Digit(b[1] % 16 * 4)]
    else [Digit(b[0] / 4), Digit(b[0] % 4 * 16 + b[1] / 16), Digit(b[1] % 16 * 4 + b[2] / 64), Digit(b[2] % 64)]
         + Digits(b[3..])
  }

  function Btoa(b: seq<Byte>): string {
    Digits(b) + Padding(|b|)
  }

  function Padding(n: nat): string {
    if n % 3 == 1 then "==" else if n % 3 == 2 then "=" else ""
  }

  predicate Blank(c: char) {
    c == ' ' || c == '\t' || c == '\n' || c == '\r' || c as int == 12
  }

  function WithoutBlanks(s: string): string {
    if s == [] then [] else if Blank(s[0]) then WithoutBlanks(s[1..]) else [s[0]] + WithoutBlanks(s[1..])
  }

  /** Up to two padding characters go if the length is a multiple of four. */
  function Unpad(s: string): string {
    if |s| % 4 == 0 && |s| >= 2 && s[|s| - 2] == '=' && s[|s| - 1] == '=' then s[..|s| - 2]
    else if |s| % 4 == 0 && |s| >= 1 && s[|s| - 1] == '=' then s[..|s| - 1]
    else s
  }

  predicate AllDigits(s: string) {
    forall i :: 0 <= i < |s| ==> IsDigit(s[i])
  }

  function Val(c: char): nat
    requires IsDigit(c)
  {
    ValueOf(c).value
  }

  /** Four digits make three bytes; of two or three left-over digits the spare bits are dropped. */
  function FromDigits(s: string): seq<Byte>
    requires AllDigits(s) && |s| % 4 != 1
  {
    if s == [] then []
    else if |s| == 2 then [Val(s[0]) * 4 + Val(s[1]) / 16]
    else if |s| == 3 then [Val(s[0]) * 4 + Val(s[1]) / 16, Val(s[1]) % 16 * 16 + Val(s[2]) / 4]
    else
      [Val(s[0]) * 4 + Val(s[1]) / 16, Val(s[1]) % 16 * 16 + Val(s[2]) / 4, Val(s[2]) % 4 * 64 + Val(s[3])]
      + FromDigits(s[4..])
  }

  /** None where atob throws. */
  function Atob(s: string): Option<seq<Byte>> {
    var t := Unpad(WithoutBlanks(s));
    if |t| % 4 == 1 || !AllDigits(t) then None else Some(FromDigits(t))
  }

  // ---------------------------------------------------------------- round trip

  lemma {:induction false} DigitsLength(b: seq<Byte>)
    ensures |Digits(b)| == |b| / 3 * 4 + if |b| % 3 == 0 then 0 else |b| % 3 + 1
    decreases |b|
  {
    if |b| >= 3 { DigitsLength(b[3..]); }
  }

  predicate Clear(c: char) {
    IsDigit(c) && c != '=' && !Blank(c)
  }

  lemma {:induction false} DigitsClear(b: seq<Byte>)
    ensures forall i :: 0 <= i < |Digits(b)| ==> Clear(Digits(b)[i])
    decreases |b|
  {
    if |b| >= 3 { DigitsClear(b[3..]); }
  }

  lemma DigitsShape(b: seq<Byte>)
    ensures AllDigits(Digits(b)) && |Digits(b)| % 4 != 1
  {
    DigitsLength(b);
    DigitsClear(b);
  }

  lemma {:induction false} FromDigitsOfDigits(b: seq<Byte>)
    ensures AllDigits(Digits(b)) && |Digits(b)| % 4 != 1
    ensures FromDigits(Digits(b)) == b
    decreases |b|
  {
    DigitsShape(b);
    if |b| >= 3 {
      FromDigitsOfDigits(b[3..]);
      FourDigits(b);
    }
  }

  lemma FourDigits(b: seq<Byte>)
    requires |b| >= 3 && AllDigits(Digits(b)) && |Digits(b)| % 4 != 1
    requires AllDigits(Digits(b[3..])) && |Digits(b[3..])| % 4 != 1 && FromDigits(Digits(b[3..])) == b[3..]
    ensures FromDigits(Digits(b)) == b
  {
    var b0, b1, b2 := b[0], b[1], b[2];
    var s := Digits(b);
    assert s[4..] == Digits(b[3..]);
    assert b == [b0, b1, b2] + b[3..];
    assert Val(s[0]) * 4 + Val(s[1]) / 16 == b0;
    assert Val(s[1]) % 16 * 16 + Val(s[2]) / 4 == b1;
    assert Val(s[2]) % 4 * 64 + Val(s[3]) == b2;
  }

  lemma {:induction false} NoBlanks(s: string)
    requires forall i :: 0 <= i < |s| ==> !Blank(s[i])
    ensures WithoutBlanks(s) == s
    decreases |s|
  {
    if s != [] { NoBlanks(s[1..]); }
  }

  lemma UnpadPadded(d: string, n: nat, k: nat)
    requires |d| + |Padding(n)| == 4 * k && forall i :: 0 <= i < |d| ==> Clear(d[i])
    ensures Unpad(d + Padding(n)) == d
  {
    var s := d + Padding(n);
    assert |s| % 4 == 0;
    assert d != [] ==> Clear(d[|d| - 1]);
    assert s[..|d|] == d;
  }

  lemma PaddedNotBlank(d: string, n: nat)
    requires forall i :: 0 <= i < |d| ==> Clear(d[i])
    ensures WithoutBlanks(d + Padding(n)) == d + Padding(n)
  {
    NoBlanks(d + Padding(n));
  }

  /** The length of the text, padding included. */
  lemma BtoaLength(b: seq<Byte>)
    ensures |Digits(b)| + |Padding(|b|)| == 4 * ((|b| + 2) / 3)
    ensures |Btoa(b)| == 4 * ((|b| + 2) / 3)
  {
    DigitsLength(b);
  }

  /** What btoa writes, atob reads back, for every length. */
  lemma AtobOfBtoa(b: seq<Byte>)
    ensures Atob(Btoa(b)) == Some(b)
  {
    BtoaLength(b);
    DigitsClear(b);
    UnpadPadded(Digits(b), |b|, (|b| + 2) / 3);
    PaddedNotBlank(Digits(b), |b|);
    FromDigitsOfDigits(b);
  }

  // ---------------------------------------------------------------- the loops

  function Min(a: nat, b: nat): nat {
    if a < b then a else b
  }

  /** The binary string is put together in chunks; the text is that of the whole array. */
  method BytesToB64(u8: array<Byte>) returns (s: string)
    ensures s == Btoa(u8[..])
  {
    var bin: seq<Byte> := [];
    var i := 0;
    while i < u8.Length
      invariant bin == u8[..Min(i, u8.Length)]
    {
      var end := Min(i + CHUNK, u8.Length);
      assert u8[..end] == u8[..i] + u8[i..end];
      bin := bin + u8[i..end];
      i := i + CHUNK;
    }
    assert bin == u8[..];
    s := Btoa(bin);
  }

  method B64ToBytes(s: string) returns (out: Option<array<Byte>>)
    ensures out.Some? <==> Atob(s).Some?
    ensures out.Some? ==> fresh(out.value) && out.value[..] == Atob(s).value
  {
    match Atob(s) {
      case None => out := None;
      case Some(bin) =>
        var a := new Byte[|bin|](i => 0);
        for i := 0 to |bin|
          invariant a[..i] == bin[..i]
        {
          a[i] := bin[i];
        }
        assert a[..] == bin;
        out := Some(a);
    }
  }
}
