/**
 The resource classes of the pack loader: normalisation of a class name, and the
 sorted duplicate-free class list in which every caller acquires its locks.
 */
module ResourceClasses {

  datatype Class = Gpu | Audio | Rtc | Cpu | Nest | Verify | Light

  /** Index in the table of exclusive classes; the light class is not in the table. */
  function Rank(c: Class): int {
    match c
    case Gpu => 0
    case Audio => 1
    case Rtc => 2
    case Cpu => 3
    case Nest => 4
    case Verify => 5
    case Light => -1
  }

  function LowerChar(c: char): char {
    if 'A' <= c <= 'Z' then (c as int + 32) as char else c
  }

  function Lower(s: string): string {
    seq(|s|, i requires 0 <= i < |s| => LowerChar(s[i]))
  }

  /** An absent or empty name means light; aliases fold into gpu and rtc; unknown names are light. */
  function NormalizeClass(name: string): Class {
    var c := Lower(name);
    if c in {"gl", "webgl", "webgpu", "gpu"} then Gpu
    else if c in {"webrtc", "ice", "network", "rtc"} then Rtc
    else if c == "audio" then Audio
    else if c == "cpu" then Cpu
    else if c == "nest" then Nest
    else if c == "verify" then Verify
    else Light
  }

  /** The exclusive classes that a list of names asks for. */
  ghost function Asked(names: seq<string>): set<Class> {
    set i | 0 <= i < |names| && NormalizeClass(names[i]) != Light :: NormalizeClass(names[i])
  }

  ghost predicate Ranked(list: seq<Class>) {
    forall i, j :: 0 <= i < j < |list| ==> Rank(list[i]) < Rank(list[j])
  }

  ghost function Elements(list: seq<Class>): set<Class> {
    set c | c in list
  }

  function InsertRanked(c: Class, list: seq<Class>): (r: seq<Class>)
    requires Ranked(list) && c !in list
    ensures Ranked(r) && Elements(r) == Elements(list) + {c}
  {
    if list == [] then [c]
    else if Rank(c) < Rank(list[0]) then [c] + list
    else
      var rest := InsertRanked(c, list[1..]);
      assert forall d :: d in rest ==> d in Elements(rest);
      assert Rank(list[0]) < Rank(c) && forall d :: d in rest ==> Rank(list[0]) < Rank(d);
      [list[0]] + rest
  }

  /**
   The list a caller locks: exactly the exclusive classes asked for, in strictly increasing
   rank, or the light class alone when none was asked for.
   */
  method UniqueClasses(names: seq<string>) returns (out: seq<Class>)
    ensures Ranked(out) && out != []
    ensures Elements(out) == if Asked(names) == {} then {Light} else Asked(names)
  {
    out := [];
    for i := 0 to |names|
      invariant Ranked(out) && Elements(out) == Asked(names[..i])
    {
      var c := NormalizeClass(names[i]);
      assert names[..i + 1] == names[..i] + [names[i]];
      assert Asked(names[..i + 1]) == Asked(names[..i]) + (if c == Light then {} else {c}) by {
        assert forall k :: 0 <= k < i ==> names[..i + 1][k] == names[..i][k];
      }
      if c != Light && c !in out {
        out := InsertRanked(c, out);
      } else if c != Light {
        assert c in Elements(out);
      }
    }
    assert names[..|names|] == names;
    if out == [] {
      out := [Light];
    } else {
      assert out[0] in Elements(out);
    }
  }

  /** The list is determined by its set of classes: two callers with the same classes lock in the same order. */
  lemma {:induction false} RankedListUnique(a: seq<Class>, b: seq<Class>)
    requires Ranked(a) && Ranked(b) && Elements(a) == Elements(b)
    ensures a == b
  {
    assert a != [] ==> a[0] in Elements(b);
    assert b != [] ==> b[0] in Elements(a);
    if a != [] {
      assert a[0] == b[0];
      assert Elements(a[1..]) == Elements(a) - {a[0]};
      assert Elements(b[1..]) == Elements(b) - {b[0]};
      RankedListUnique(a[1..], b[1..]);
      assert a == [a[0]] + a[1..] && b == [b[0]] + b[1..];
    }
  }
}
