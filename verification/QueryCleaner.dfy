/**
 The removal of the gr_v and gr_reload parameters from the address bar: a chain of global regular
 expression replacements over the part of the URL before the fragment. Every replacement is a function
 that scans from the left as the expression engine does.
 */
module QueryCleaner {

  const GR_V := "gr_v="
  const GR_RELOAD := "gr_reload="

  predicate Sep(c: char) {
    c == '?' || c == '&'
  }

  /** The part of a string before its first separator. */
  function Head(s: string): (h: string)
    ensures h <= s
  {
    if s == [] || Sep(s[0]) then [] else [s[0]] + Head(s[1..])
  }

  /** The index of the first c, or the length if there is none. */
  function IndexOf(s: string, c: char): (n: nat)
    ensures n <= |s| && (n < |s| ==> s[n] == c)
  {
    if s == [] || s[0] == c then 0 else 1 + IndexOf(s[1..], c)
  }

  predicate Without(s: string, c: char) {
    s == [] || (s[0] != c && Without(s[1..], c))
  }

  lemma {:induction false} WithoutIndex(s: string, c: char)
    ensures Without(s, c) <==> IndexOf(s, c) == |s|
    decreases |s|
  {
    if s != [] { WithoutIndex(s[1..], c); }
  }

  // Four facts on the first character of a string.

  lemma Cons(c: char, t: string)
    ensures ([c] + t)[1..] == t
  {
  }

  lemma Uncons(s: string)
    requires s != []
    ensures s == [s[0]] + s[1..]
  {
  }

  lemma TailAcross(s: string, t: string)
    requires s != []
    ensures (s + t)[1..] == s[1..] + t
  {
  }

  lemma TailTwice(s: string)
    requires |s| >= 2
    ensures s[1..][1..] == s[2..]
  {
  }

  /** How far the scan moves on: past the removed text when the name follows a separator. */
  function Span(s: string, name: string): (n: nat)
    requires s != []
    ensures 1 <= n <= |s|
  {
    if Sep(s[0]) && name <= s[1..] then 1 + IndexOf(s[1..], '&') else 1
  }

  /** Each separator followed by the name stays, and what follows it up to the next ampersand goes. */
  function DropParam(s: string, name: string): (r: string)
    ensures (r == [] <==> s == []) && (s != [] ==> r[0] == s[0])
    decreases |s|
  {
    if s == [] then [] else [s[0]] + DropParam(s[Span(s, name)..], name)
  }

  function DropBoth(s: string, v: string, r: string): string {
    DropParam(DropParam(s, v), r)
  }

  /** Separators at the end go. */
  function Trim(s: string): (r: string)
    ensures r <= s && EndsClean(r)
  {
    if s != [] && Sep(s[|s| - 1]) then Trim(s[..|s| - 1]) else s
  }

  /** The first question mark that an ampersand follows loses that ampersand. */
  function FirstSqueeze(s: string): (r: string)
    ensures (r == [] <==> s == []) && (s != [] ==> r[0] == s[0])
    ensures Head(r) == Head(s)
  {
    if s == [] then []
    else if |s| >= 2 && s[0] == '?' && s[1] == '&' then [s[0]] + s[2..]
    else [s[0]] + FirstSqueeze(s[1..])
  }

  /** Each c loses all the ampersands right after it. */
  function Squeeze(s: string, c: char): (r: string)
    requires Sep(c)
    ensures (r == [] <==> s == []) && (s != [] ==> r[0] == s[0])
    ensures Head(r) == Head(s)
    decreases |s|
  {
    if s == [] then []
    else if |s| >= 2 && s[0] == c && s[1] == '&' then Squeeze([c] + s[2..], c)
    else [s[0]] + Squeeze(s[1..], c)
  }

  function Clean(base: string): string {
    var dropped := DropBoth(base, GR_V, GR_RELOAD);
    var once := Squeeze(FirstSqueeze(Trim(dropped)), '&');
    var twice := Squeeze(Squeeze(once, '?'), '&');
    if twice != [] && twice[|twice| - 1] == '?' then twice[..|twice| - 1] else twice
  }

  /** The new address: the same one when neither name follows a separator anywhere in it. */
  function Strip(href: string): string {
    if Free(href, GR_V) && Free(href, GR_RELOAD) then href
    else
      var n := IndexOf(href, '#');
      Clean(href[..n]) + href[n..]
  }

  // ---------------------------------------------------------------- normal strings

  /** No separator is followed by the name. */
  predicate Free(s: string, name: string) {
    s == [] || (!(Sep(s[0]) && name <= s[1..]) && Free(s[1..], name))
  }

  /** No c is followed by an ampersand. */
  predicate NoPair(s: string, c: char) {
    |s| < 2 || (!(s[0] == c && s[1] == '&') && NoPair(s[1..], c))
  }

  predicate EndsClean(s: string) {
    s == [] || !Sep(s[|s| - 1])
  }

  /** Nothing is left to clean: no legacy parameter, no doubled or dangling separator. */
  predicate Normal(s: string) {
    && Free(s, GR_V) && Free(s, GR_RELOAD)
    && NoPair(s, '?') && NoPair(s, '&')
    && EndsClean(s)
  }

  predicate Plain(name: string) {
    name != [] && !Sep(name[0]) && Head(name) == name
  }

  lemma {:induction false} AllInHead(s: string)
    requires forall i :: 0 <= i < |s| ==> !Sep(s[i])
    ensures Head(s) == s
    decreases |s|
  {
    if s != [] {
      AllInHead(s[1..]);
    }
  }

  lemma NamesArePlain()
    ensures Plain(GR_V) && Plain(GR_RELOAD)
  {
    AllInHead(GR_V);
    AllInHead(GR_RELOAD);
  }

  lemma {:induction false} NameInHead(name: string, s: string)
    requires Head(name) == name
    ensures name <= s <==> name <= Head(s)
    decreases |name|
  {
    if name != [] && s != [] {
      if name[0] == s[0] {
        NameInHead(name[1..], s[1..]);
        assert name == [s[0]] + name[1..] && s == [s[0]] + s[1..];
        assert name <= s <==> name[1..] <= s[1..];
        var h := Head(s);
        assert name <= h <==> name[1..] <= h[1..];
      }
    }
  }

  lemma SameHead(name: string, s: string, t: string)
    requires Plain(name) && Head(s) == Head(t)
    ensures name <= s <==> name <= t
  {
    NameInHead(name, s);
    NameInHead(name, t);
  }

  // ---------------------------------------------------------------- what each replacement keeps

  lemma {:induction false} FreeSuffix(s: string, n: nat, name: string)
    requires Free(s, name) && n <= |s|
    ensures Free(s[n..], name)
    decreases n
  {
    if n > 0 {
      FreeSuffix(s[1..], n - 1, name);
      assert s[1..][n - 1..] == s[n..];
    } else {
      assert s[0..] == s;
    }
  }

  lemma {:induction false} FreePrefix(s: string, p: string, name: string)
    requires Free(s, name) && p <= s
    ensures Free(p, name)
    decreases |p|
  {
    if p != [] {
      FreePrefix(s[1..], p[1..], name);
    }
  }

  lemma {:induction false} DropHead(s: string, name: string)
    ensures Head(DropParam(s, name)) == Head(s)
    decreases |s|
  {
    if s != [] {
      DropHead(s[Span(s, name)..], name);
    }
  }

  lemma {:induction false} DropFrees(s: string, name: string)
    requires Plain(name)
    ensures Free(DropParam(s, name), name)
    decreases |s|
  {
    if s != [] {
      if Sep(s[0]) && name <= s[1..] {
        var rest := s[1 + IndexOf(s[1..], '&')..];
        DropFrees(rest, name);
        Cons(s[0], DropParam(rest, name));
        assert rest != [] ==> rest[0] == '&';
      } else {
        DropFrees(s[1..], name);
        DropHead(s[1..], name);
        SameHead(name, s[1..], DropParam(s[1..], name));
        Cons(s[0], DropParam(s[1..], name));
      }
    }
  }

  lemma {:induction false} DropKeepsFree(s: string, name: string, other: string)
    requires Plain(name) && Plain(other) && Free(s, other)
    ensures Free(DropParam(s, name), other)
    decreases |s|
  {
    if s != [] {
      if Sep(s[0]) && name <= s[1..] {
        var n := 1 + IndexOf(s[1..], '&');
        FreeSuffix(s, n, other);
        DropKeepsFree(s[n..], name, other);
        Cons(s[0], DropParam(s[n..], name));
        assert s[n..] != [] ==> s[n..][0] == '&';
      } else {
        DropKeepsFree(s[1..], name, other);
        DropHead(s[1..], name);
        SameHead(other, s[1..], DropParam(s[1..], name));
        Cons(s[0], DropParam(s[1..], name));
      }
    }
  }

  lemma {:induction false} FirstSqueezeFree(s: string, name: string)
    requires Plain(name) && Free(s, name)
    ensures Free(FirstSqueeze(s), name)
    decreases |s|
  {
    if s != [] {
      if |s| >= 2 && s[0] == '?' && s[1] == '&' {
        MergeFree(s, '?', name);
      } else {
        FirstSqueezeFree(s[1..], name);
        SameHead(name, s[1..], FirstSqueeze(s[1..]));
        Cons(s[0], FirstSqueeze(s[1..]));
      }
    }
  }

  lemma {:induction false} FirstSqueezeEnds(s: string)
    requires EndsClean(s)
    ensures EndsClean(FirstSqueeze(s))
    decreases |s|
  {
    if s != [] && !(|s| >= 2 && s[0] == '?' && s[1] == '&') {
      FirstSqueezeEnds(s[1..]);
    }
  }

  lemma MergeFree(s: string, c: char, name: string)
    requires |s| >= 2 && Sep(c) && s[0] == c && s[1] == '&' && Free(s, name)
    ensures Free([c] + s[2..], name)
  {
    TailTwice(s);
    Cons(c, s[2..]);
  }

  lemma {:induction false} SqueezeFree(s: string, c: char, name: string)
    requires Sep(c) && Plain(name) && Free(s, name)
    ensures Free(Squeeze(s, c), name)
    decreases |s|
  {
    if s != [] {
      if |s| >= 2 && s[0] == c && s[1] == '&' {
        MergeFree(s, c, name);
        SqueezeFree([c] + s[2..], c, name);
      } else {
        SqueezeFree(s[1..], c, name);
        SameHead(name, s[1..], Squeeze(s[1..], c));
        Cons(s[0], Squeeze(s[1..], c));
      }
    }
  }

  lemma {:induction false} SqueezeEnds(s: string, c: char)
    requires Sep(c) && EndsClean(s)
    ensures EndsClean(Squeeze(s, c))
    decreases |s|
  {
    if s != [] {
      if |s| >= 2 && s[0] == c && s[1] == '&' {
        SqueezeEnds([c] + s[2..], c);
      } else {
        SqueezeEnds(s[1..], c);
      }
    }
  }

  lemma {:induction false} SqueezePairs(s: string, c: char, d: char)
    requires Sep(c) && (d != c ==> NoPair(s, d))
    ensures NoPair(Squeeze(s, c), d)
    decreases |s|
  {
    if s != [] {
      if |s| >= 2 && s[0] == c && s[1] == '&' {
        var t := [c] + s[2..];
        TailTwice(s);
        Cons(t[0], s[2..]);
        SqueezePairs(t, c, d);
      } else {
        SqueezePairs(s[1..], c, d);
        Cons(s[0], Squeeze(s[1..], c));
      }
    }
  }

  function Squeezes(s: string): string {
    Squeeze(Squeeze(Squeeze(FirstSqueeze(Trim(s)), '&'), '?'), '&')
  }

  lemma SqueezesFree(s: string, name: string)
    requires Plain(name) && Free(s, name)
    ensures Free(Squeezes(s), name)
  {
    var a := Trim(s);
    var b := FirstSqueeze(a);
    var c := Squeeze(b, '&');
    FreePrefix(s, a, name);
    FirstSqueezeFree(a, name);
    SqueezeFree(b, '&', name);
    SqueezeFree(c, '?', name);
    SqueezeFree(Squeeze(c, '?'), '&', name);
  }

  lemma SqueezesTidy(s: string)
    ensures NoPair(Squeezes(s), '?') && NoPair(Squeezes(s), '&') && EndsClean(Squeezes(s))
  {
    var b := FirstSqueeze(Trim(s));
    var c := Squeeze(b, '&');
    var d := Squeeze(c, '?');
    FirstSqueezeEnds(Trim(s));
    SqueezeEnds(b, '&');
    SqueezeEnds(c, '?');
    SqueezeEnds(d, '&');
    SqueezePairs(c, '?', '?');
    SqueezePairs(d, '&', '?');
    SqueezePairs(d, '&', '&');
  }

  lemma DropsFreeBoth(s: string)
    ensures Free(DropParam(DropParam(s, GR_V), GR_RELOAD), GR_V)
    ensures Free(DropParam(DropParam(s, GR_V), GR_RELOAD), GR_RELOAD)
  {
    NamesArePlain();
    var t := DropParam(s, GR_V);
    DropFrees(s, GR_V);
    DropKeepsFree(t, GR_RELOAD, GR_V);
    DropFrees(t, GR_RELOAD);
  }

  /** Cleaning leaves nothing to clean, for every string; the last test of the chain never fires. */
  lemma CleanIsNormal(base: string)
    ensures Clean(base) == Squeezes(DropBoth(base, GR_V, GR_RELOAD))
    ensures Normal(Clean(base))
  {
    var dropped := DropBoth(base, GR_V, GR_RELOAD);
    DropsFreeBoth(base);
    NamesArePlain();
    SqueezesFree(dropped, GR_V);
    SqueezesFree(dropped, GR_RELOAD);
    SqueezesTidy(dropped);
  }

  // ---------------------------------------------------------------- cleaning twice

  lemma {:induction false} DropFixed(s: string, name: string)
    requires Free(s, name)
    ensures DropParam(s, name) == s
    decreases |s|
  {
    if s != [] { DropFixed(s[1..], name); }
  }

  lemma {:induction false} SqueezeFixed(s: string, c: char)
    requires Sep(c) && NoPair(s, c)
    ensures Squeeze(s, c) == s
    decreases |s|
  {
    if s != [] { SqueezeFixed(s[1..], c); }
  }

  lemma {:induction false} FirstSqueezeFixed(s: string)
    requires NoPair(s, '?')
    ensures FirstSqueeze(s) == s
    decreases |s|
  {
    if s != [] { FirstSqueezeFixed(s[1..]); }
  }

  lemma NormalIsFixed(s: string)
    requires Normal(s)
    ensures Clean(s) == s
  {
    DropFixed(s, GR_V);
    DropFixed(s, GR_RELOAD);
    assert Trim(s) == s;
    FirstSqueezeFixed(s);
    SqueezeFixed(s, '&');
    SqueezeFixed(s, '?');
  }

  lemma {:induction false} WithoutSuffix(s: string, n: nat, c: char)
    requires Without(s, c) && n <= |s|
    ensures Without(s[n..], c)
    decreases n
  {
    if n > 0 {
      WithoutSuffix(s[1..], n - 1, c);
      assert s[1..][n - 1..] == s[n..];
    } else {
      assert s[0..] == s;
    }
  }

  lemma {:induction false} WithoutPrefix(s: string, n: nat, c: char)
    requires n <= IndexOf(s, c)
    ensures Without(s[..n], c)
    decreases n
  {
    if n > 0 {
      WithoutPrefix(s[1..], n - 1, c);
      assert s[1..][..n - 1] == s[..n][1..];
    }
  }

  lemma {:induction false} DropKeepsNo(c: char, s: string, name: string)
    requires Without(s, c)
    ensures Without(DropParam(s, name), c)
    decreases |s|
  {
    if s != [] {
      WithoutSuffix(s, Span(s, name), c);
      DropKeepsNo(c, s[Span(s, name)..], name);
    }
  }

  lemma {:induction false} SqueezeKeepsNo(c: char, s: string, d: char)
    requires Sep(d) && Without(s, c)
    ensures Without(Squeeze(s, d), c)
    decreases |s|
  {
    if s != [] {
      if |s| >= 2 && s[0] == d && s[1] == '&' {
        var t := [d] + s[2..];
        TailTwice(s);
        Cons(t[0], s[2..]);
        SqueezeKeepsNo(c, t, d);
      } else {
        SqueezeKeepsNo(c, s[1..], d);
        Cons(s[0], Squeeze(s[1..], d));
      }
    }
  }

  lemma {:induction false} FirstSqueezeKeepsNo(c: char, s: string)
    requires Without(s, c)
    ensures Without(FirstSqueeze(s), c)
    decreases |s|
  {
    if s != [] {
      if |s| >= 2 && s[0] == '?' && s[1] == '&' {
        TailTwice(s);
        Cons(s[0], s[2..]);
      } else {
        FirstSqueezeKeepsNo(c, s[1..]);
        Cons(s[0], FirstSqueeze(s[1..]));
      }
    }
  }

  lemma CleanAddsNoHash(base: string)
    requires Without(base, '#')
    ensures Without(Clean(base), '#')
  {
    CleanIsNormal(base);
    DropKeepsNo('#', base, GR_V);
    DropKeepsNo('#', DropParam(base, GR_V), GR_RELOAD);
    var dropped := DropBoth(base, GR_V, GR_RELOAD);
    var a := Trim(dropped);
    WithoutIndex(dropped, '#');
    WithoutPrefix(dropped, |a|, '#');
    assert dropped[..|a|] == a;
    FirstSqueezeKeepsNo('#', a);
    var b := FirstSqueeze(a);
    SqueezeKeepsNo('#', b, '&');
    SqueezeKeepsNo('#', Squeeze(b, '&'), '?');
    SqueezeKeepsNo('#', Squeeze(Squeeze(b, '&'), '?'), '&');
  }

  lemma {:induction false} IndexAfter(a: string, b: string)
    requires Without(a, '#') && (b == [] || b[0] == '#')
    ensures IndexOf(a + b, '#') == |a|
    decreases |a|
  {
    if a == [] {
      assert a + b == b;
    } else {
      TailAcross(a, b);
      IndexAfter(a[1..], b);
    }
  }

  /** The fragment is never touched, and stripping an address twice is stripping it once, for every address. */
  lemma StripTwice(href: string)
    ensures var n := IndexOf(href, '#');
      Strip(href) == href || Strip(href) == Clean(href[..n]) + href[n..]
    ensures Strip(Strip(href)) == Strip(href)
  {
    var n := IndexOf(href, '#');
    var once := Clean(href[..n]);
    if Strip(href) != href {
      WithoutPrefix(href, n, '#');
      CleanAddsNoHash(href[..n]);
      IndexAfter(once, href[n..]);
      var again := once + href[n..];
      assert again[..|once|] == once && again[|once|..] == href[n..];
      CleanIsNormal(href[..n]);
      NormalIsFixed(once);
    }
  }
}
