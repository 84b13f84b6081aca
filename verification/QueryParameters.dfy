/**
 What the query cleaner leaves of an address: the path and the business parameters, exactly when nothing in
 them looks like one of the removed tokens.
 */
module QueryParameters {
  import opened QueryCleaner

  /** The parameters of a query: its non-empty pieces between ampersands. */
  function Words(q: string): seq<string>
    decreases |q|
  {
    if q == [] then []
    else if q[0] == '&' then Words(q[1..])
    else [q[..IndexOf(q, '&')]] + Words(q[IndexOf(q, '&')..])
  }

  predicate Legacy(w: string, v: string, r: string) {
    v <= w || r <= w
  }

  /** The parameters that are neither gr_v nor gr_reload. */
  function Kept(ws: seq<string>, v: string, r: string): seq<string> {
    if ws == [] then [] else if Legacy(ws[0], v, r) then Kept(ws[1..], v, r) else [ws[0]] + Kept(ws[1..], v, r)
  }

  function Join(ws: seq<string>): string {
    if ws == [] then [] else if |ws| == 1 then ws[0] else ws[0] + "&" + Join(ws[1..])
  }

  /** The address with this path and these parameters; without a question mark if there are none. */
  function Render(path: string, ws: seq<string>): string {
    if ws == [] then path else path + "?" + Join(ws)
  }

  /** The address as its documentation promises it: the same path, the business parameters in order. */
  function Promised(base: string): string {
    var n := IndexOf(base, '?');
    if n == |base| then base else Render(base[..n], Kept(Words(base[n + 1..]), GR_V, GR_RELOAD))
  }

  // ---- dropping, piece by piece

  lemma {:induction false} NameAcross(name: string, s: string, t: string)
    requires Plain(name) && (t == [] || Sep(t[0]))
    ensures name <= s + t <==> name <= s
  {
    NameInHead(name, s + t);
    NameInHead(name, s);
    HeadAcross(s, t);
  }

  lemma {:induction false} HeadAcross(s: string, t: string)
    requires t == [] || Sep(t[0])
    ensures Head(s + t) == Head(s)
    decreases |s|
  {
    if s == [] {
      assert s + t == t;
    } else {
      TailAcross(s, t);
      HeadAcross(s[1..], t);
    }
  }

  lemma {:induction false} AmpAcross(s: string, t: string)
    requires t == [] || t[0] == '&'
    ensures IndexOf(s + t, '&') == IndexOf(s, '&')
    decreases |s|
  {
    if s == [] {
      assert s + t == t;
    } else {
      TailAcross(s, t);
      AmpAcross(s[1..], t);
    }
  }

  lemma {:induction false} Prepend(c: char, a: string, b: string)
    ensures [c] + (a + b) == [c] + a + b
    ensures ([c] + a + b)[1..] == a + b
  {
  }

  lemma {:induction false} SpanAcross(s: string, t: string, name: string)
    requires s != [] && Plain(name) && (t == [] || t[0] == '&')
    ensures Span(s + t, name) == Span(s, name)
  {
    TailAcross(s, t);
    NameAcross(name, s[1..], t);
    AmpAcross(s[1..], t);
  }

  /** An ampersand stops every removal, so the pieces before and after it are dropped on their own. */
  lemma {:induction false} DropAcross(s: string, t: string, name: string)
    requires Plain(name) && (t == [] || t[0] == '&')
    ensures DropParam(s + t, name) == DropParam(s, name) + DropParam(t, name)
    decreases |s|
  {
    if s == [] {
      assert s + t == t;
    } else {
      var n := Span(s, name);
      SpanAcross(s, t, name);
      assert (s + t)[n..] == s[n..] + t;
      DropAcross(s[n..], t, name);
      Prepend(s[0], DropParam(s[n..], name), DropParam(t, name));
    }
  }

  lemma {:induction false} SpanPast(s: string, t: string, name: string)
    requires s != [] && Plain(name) && Free(s, name) && (t == [] || Sep(t[0]))
    ensures Span(s + t, name) == 1
  {
    TailAcross(s, t);
    NameAcross(name, s[1..], t);
  }

  /** A free piece is passed over. */
  lemma {:induction false} DropPast(s: string, t: string, name: string)
    requires Plain(name) && Free(s, name) && (t == [] || Sep(t[0]))
    ensures DropParam(s + t, name) == s + DropParam(t, name)
    decreases |s|
  {
    if s == [] {
      assert s + t == t;
    } else {
      SpanPast(s, t, name);
      TailAcross(s, t);
      DropPast(s[1..], t, name);
      Prepend(s[0], s[1..], DropParam(t, name));
      Uncons(s);
    }
  }

  /** A whole parameter after its separator goes if it has the name. */
  lemma {:induction false} DropWhole(c: char, w: string, t: string, name: string)
    requires Sep(c) && Plain(name) && Without(w, '&') && name <= w && (t == [] || t[0] == '&')
    ensures DropParam([c] + w + t, name) == [c] + DropParam(t, name)
  {
    var s := [c] + w + t;
    assert s[1..] == w + t;
    AmpAcross(w, t);
    WithoutIndex(w, '&');
    assert s[1 + |w|..] == t;
  }

  /** A whole parameter after its separator stays if it is free and does not have the name. */
  lemma {:induction false} DropNone(c: char, w: string, t: string, name: string)
    requires Sep(c) && Plain(name) && Free([c] + w, name) && (t == [] || t[0] == '&')
    ensures DropParam([c] + w + t, name) == [c] + w + DropParam(t, name)
  {
    DropPast([c] + w, t, name);
  }

  predicate FreeBoth(s: string, v: string, r: string) {
    Free(s, v) && Free(s, r)
  }

  lemma {:induction false} DropBothWord(c: char, w: string, t: string, v: string, r: string)
    requires Plain(v) && Plain(r)
    requires Sep(c) && Without(w, '&') && (t == [] || t[0] == '&')
    requires Legacy(w, v, r) || FreeBoth(w, v, r)
    ensures DropBoth([c] + w + t, v, r) == [c] + (if Legacy(w, v, r) then [] else w) + DropBoth(t, v, r)
  {
    var u := DropParam(t, v);
    if v <= w {
      DropWhole(c, w, t, v);
      DropNone(c, [], u, r);
      assert [c] + [] + u == [c] + u;
    } else if r <= w {
      DropReload(c, w, t, v, r);
    } else {
      assert ([c] + w)[1..] == w;
      DropNone(c, w, t, v);
      DropNone(c, w, u, r);
    }
  }

  lemma {:induction false} DropReload(c: char, w: string, t: string, v: string, r: string)
    requires Plain(v) && Plain(r)
    requires Sep(c) && Without(w, '&') && (t == [] || t[0] == '&')
    requires r <= w && !(v <= w)
    ensures DropBoth([c] + w + t, v, r) == [c] + DropBoth(t, v, r)
  {
    var u := DropParam(t, v);
    var w1 := DropParam(w, v);
    var s := [c] + w + t;
    assert s[1..] == w + t;
    NameAcross(v, w, t);
    DropAcross(w, t, v);
    assert DropParam(s, v) == [c] + (w1 + u) == [c] + w1 + u;
    DropHead(w, v);
    SameHead(r, w, w1);
    DropKeepsNo('&', w, v);
    DropWhole(c, w1, u, r);
  }

  /** No word of a query has a removable token inside. */
  predicate FreeWords(ws: seq<string>, v: string, r: string) {
    forall i :: 0 <= i < |ws| ==> FreeBoth(ws[i], v, r)
  }

  lemma {:induction false} WordsApart(w: string, t: string)
    requires Without(w, '&') && (t == [] || t[0] == '&')
    ensures Words(w + t) == if w == [] then Words(t) else [w] + Words(t)
  {
    if w == [] {
      assert w + t == t;
    } else {
      AmpAcross(w, t);
      WithoutIndex(w, '&');
      assert (w + t)[0] == w[0] != '&';
      assert (w + t)[..|w|] == w && (w + t)[|w|..] == t;
    }
  }

  lemma {:induction false} KeptApart(w: string, t: string, v: string, r: string)
    requires Without(w, '&') && (t == [] || t[0] == '&')
    ensures Kept(Words(w + t), v, r) == (if w == [] || Legacy(w, v, r) then Kept(Words(t), v, r) else [w] + Kept(Words(t), v, r))
  {
    WordsApart(w, t);
    if w != [] {
      var ws := [w] + Words(t);
      assert ws[0] == w && ws[1..] == Words(t);
    }
  }

  lemma {:induction false} FreeWordsRest(w: string, ws: seq<string>, v: string, r: string)
    requires FreeWords([w] + ws, v, r)
    ensures FreeBoth(w, v, r) && FreeWords(ws, v, r)
  {
    assert ([w] + ws)[0] == w;
    assert forall i :: 0 <= i < |ws| ==> ws[i] == ([w] + ws)[i + 1];
  }

  lemma {:induction false} FreeApart(w: string, t: string, v: string, r: string)
    requires Without(w, '&') && (t == [] || t[0] == '&')
    requires FreeWords(Kept(Words(w + t), v, r), v, r)
    ensures FreeWords(Kept(Words(t), v, r), v, r) && (Legacy(w, v, r) || FreeBoth(w, v, r))
  {
    KeptApart(w, t, v, r);
    if w != [] && !Legacy(w, v, r) {
      FreeWordsRest(w, Kept(Words(t), v, r), v, r);
    }
  }

  lemma {:induction false} DropFirstWord(c: char, w: string, t: string, v: string, r: string)
    requires Plain(v) && Plain(r)
    requires Sep(c) && Without(w, '&') && (t == [] || t[0] == '&')
    requires Legacy(w, v, r) || FreeBoth(w, v, r)
    requires var u := DropBoth(t, v, r); (u == [] || u[0] == '&') && Words(u) == Kept(Words(t), v, r)
    ensures var x := DropBoth([c] + w + t, v, r);
      x != [] && x[0] == c && Words(x[1..]) == Kept(Words(w + t), v, r)
  {
    DropBothWord(c, w, t, v, r);
    var left := if Legacy(w, v, r) then [] else w;
    var u := DropBoth(t, v, r);
    Prepend(c, left, u);
    WordsApart(left, u);
    KeptApart(w, t, v, r);
  }

  /** The two removals turn the query into one whose parameters are those that should be kept. */
  lemma {:induction false} DropQuery(c: char, q: string, v: string, r: string)
    requires Plain(v) && Plain(r)
    requires Sep(c) && FreeWords(Kept(Words(q), v, r), v, r)
    ensures var x := DropBoth([c] + q, v, r);
      x != [] && x[0] == c && Words(x[1..]) == Kept(Words(q), v, r)
    decreases |q|, 1
  {
    var w, t := q[..IndexOf(q, '&')], q[IndexOf(q, '&')..];
    assert q == w + t;
    WithoutPrefix(q, |w|, '&');
    FreeApart(w, t, v, r);
    DropTail(w, t, v, r);
    DropFirstWord(c, w, t, v, r);
    Prepend(c, w, t);
  }

  lemma {:induction false} DropTail(w: string, t: string, v: string, r: string)
    requires Plain(v) && Plain(r)
    requires (t == [] || t[0] == '&') && FreeWords(Kept(Words(t), v, r), v, r)
    ensures var u := DropBoth(t, v, r); (u == [] || u[0] == '&') && Words(u) == Kept(Words(t), v, r)
    decreases |w + t|, 0
  {
    if t != [] {
      assert ['&'] + t[1..] == t;
      DropQuery('&', t[1..], v, r);
    }
  }

  // ---- squeezing, piece by piece

  predicate EndsIn(s: string, c: char) {
    s != [] && s[|s| - 1] == c
  }

  lemma {:induction false} NoPairApart(s: string, t: string, c: char)
    requires NoPair(s + t, c)
    ensures NoPair(s, c) && NoPair(t, c) && !(EndsIn(s, c) && t != [] && t[0] == '&')
    decreases |s|
  {
    if s == [] {
      assert s + t == t;
    } else {
      TailAcross(s, t);
      NoPairApart(s[1..], t, c);
    }
  }

  lemma {:induction false} NoPairAcross(s: string, t: string, c: char)
    requires NoPair(s, c) && NoPair(t, c) && !(EndsIn(s, c) && t != [] && t[0] == '&')
    ensures NoPair(s + t, c)
    decreases |s|
  {
    if s == [] {
      assert s + t == t;
    } else {
      TailAcross(s, t);
      NoPairAcross(s[1..], t, c);
    }
  }

  lemma {:induction false} WithoutHasNoPair(s: string, c: char)
    requires Without(s, '&') || Without(s, c)
    ensures NoPair(s, c)
    ensures Without(s, c) ==> !EndsIn(s, c)
    decreases |s|
  {
    if s != [] {
      if Without(s, '&') {
        WithoutHasNoPair(s[1..], c);
      }
      if Without(s, c) {
        WithoutHasNoPair(s[1..], c);
      }
    }
  }

  lemma {:induction false} SqueezeAcross(s: string, t: string, c: char)
    requires Sep(c) && NoPair(s, c) && !(EndsIn(s, c) && t != [] && t[0] == '&')
    ensures Squeeze(s + t, c) == s + Squeeze(t, c)
    decreases |s|
  {
    if s == [] {
      assert s + t == t;
    } else {
      TailAcross(s, t);
      SqueezeAcross(s[1..], t, c);
      Prepend(s[0], s[1..], Squeeze(t, c));
      Uncons(s);
    }
  }

  /** Doubled ampersands carry no parameter. */
  lemma {:induction false} SqueezeKeepsWords(q: string)
    ensures Words(Squeeze(q, '&')) == Words(q)
    decreases |q|
  {
    if q != [] && q[0] == '&' {
      if |q| >= 2 && q[1] == '&' {
        TailTwice(q);
        Cons('&', q[2..]);
        SqueezeKeepsWords(['&'] + q[2..]);
      } else {
        SqueezeKeepsWords(q[1..]);
        Cons('&', Squeeze(q[1..], '&'));
      }
    } else if q != [] {
      var w, t := q[..IndexOf(q, '&')], q[IndexOf(q, '&')..];
      assert q == w + t;
      WithoutPrefix(q, |w|, '&');
      WithoutHasNoPair(w, '&');
      SqueezeAcross(w, t, '&');
      SqueezeKeepsWords(t);
      WordsApart(w, t);
      WordsApart(w, Squeeze(t, '&'));
    }
  }

  function TrimAmps(q: string): string {
    if EndsIn(q, '&') then TrimAmps(q[..|q| - 1]) else q
  }

  lemma {:induction false} WordsBeforeAmp(q: string)
    ensures Words(q + ['&']) == Words(q)
    decreases |q|
  {
    if q == [] {
      assert q + ['&'] == ['&'];
    } else if q[0] == '&' {
      TailAcross(q, ['&']);
      WordsBeforeAmp(q[1..]);
    } else {
      var w, t := q[..IndexOf(q, '&')], q[IndexOf(q, '&')..];
      assert q == w + t;
      WithoutPrefix(q, |w|, '&');
      WordsBeforeAmp(t);
      assert q + ['&'] == w + (t + ['&']);
      WordsApart(w, t);
      WordsApart(w, t + ['&']);
    }
  }

  lemma {:induction false} TrimAmpsKeepsWords(q: string)
    ensures Words(TrimAmps(q)) == Words(q) && !EndsIn(TrimAmps(q), '&')
    decreases |q|
  {
    if EndsIn(q, '&') {
      assert q == q[..|q| - 1] + ['&'];
      WordsBeforeAmp(q[..|q| - 1]);
      TrimAmpsKeepsWords(q[..|q| - 1]);
    }
  }

  /** No parameter ends in a question mark. */
  predicate Closed(ws: seq<string>) {
    forall i :: 0 <= i < |ws| ==> !EndsIn(ws[i], '?')
  }

  lemma {:induction false} ClosedApart(w: string, t: string)
    requires Without(w, '&') && w != [] && (t == [] || t[0] == '&') && Closed(Words(w + t))
    ensures !EndsIn(w, '?') && Closed(Words(t))
  {
    WordsApart(w, t);
    var ws := Words(t);
    assert ([w] + ws)[0] == w;
    assert forall i :: 0 <= i < |ws| ==> ws[i] == ([w] + ws)[i + 1];
  }

  lemma {:induction false} ClosedQuery(q: string)
    requires Closed(Words(q))
    ensures NoPair(q, '?') && !EndsIn(q, '?')
    decreases |q|
  {
    if q != [] && q[0] == '&' {
      ClosedQuery(q[1..]);
    } else if q != [] {
      var w, t := q[..IndexOf(q, '&')], q[IndexOf(q, '&')..];
      assert q == w + t;
      WithoutPrefix(q, |w|, '&');
      ClosedApart(w, t);
      ClosedQuery(t);
      WithoutHasNoPair(w, '?');
      NoPairAcross(w, t, '?');
    }
  }

  lemma {:induction false} JoinApart(w: string, t: string)
    requires |t| >= 2 && t[0] == '&' && t[1] != '&'
    ensures Join([w] + Words(t)) == w + "&" + Join(Words(t[1..]))
    ensures Join(Words(t[1..])) == t[1..] ==> Join([w] + Words(t)) == w + t
  {
    var ws := Words(t);
    assert ws == Words(t[1..]) && ws != [];
    assert ([w] + ws)[1..] == ws;
  }

  lemma {:induction false} JoinWords(q: string)
    requires NoPair(q, '&') && (q == [] || q[0] != '&') && !EndsIn(q, '&')
    ensures Join(Words(q)) == q
    decreases |q|
  {
    if q != [] {
      var w, t := q[..IndexOf(q, '&')], q[IndexOf(q, '&')..];
      assert q == w + t;
      WithoutPrefix(q, |w|, '&');
      WordsApart(w, t);
      NoPairApart(w, t, '&');
      if t != [] {
        JoinWords(t[1..]);
        JoinApart(w, t);
      }
    }
  }

  // ---- the whole chain

  predicate NonEmpty(ws: seq<string>) {
    forall i :: 0 <= i < |ws| ==> ws[i] != []
  }

  lemma {:induction false} WordsNonEmpty(q: string)
    ensures NonEmpty(Words(q))
    decreases |q|
  {
    if q != [] {
      if q[0] == '&' {
        WordsNonEmpty(q[1..]);
      } else {
        WordsNonEmpty(q[IndexOf(q, '&')..]);
      }
    }
  }

  lemma {:induction false} KeptNonEmpty(ws: seq<string>, v: string, r: string)
    requires NonEmpty(ws)
    ensures NonEmpty(Kept(ws, v, r))
    decreases |ws|
  {
    if ws != [] { KeptNonEmpty(ws[1..], v, r); }
  }

  lemma {:induction false} FreeAcross(s: string, t: string, name: string)
    requires Free(s + t, name)
    ensures Free(s, name) && Free(t, name)
  {
    FreePrefix(s + t, s, name);
    FreeSuffix(s + t, |s|, name);
    assert (s + t)[|s|..] == t;
  }

  /** Nothing inside the joined parameters is removable, so nothing inside any of them is. */
  lemma {:induction false} JoinedFree(ws: seq<string>, v: string, r: string)
    requires FreeBoth(Join(ws), v, r)
    ensures FreeWords(ws, v, r)
    decreases |ws|
  {
    if |ws| > 1 {
      var rest := "&" + Join(ws[1..]);
      assert Join(ws) == ws[0] + rest;
      FreeAcross(ws[0], rest, v);
      FreeAcross(ws[0], rest, r);
      FreeAcross("&", Join(ws[1..]), v);
      FreeAcross("&", Join(ws[1..]), r);
      JoinedFree(ws[1..], v, r);
    }
  }

  lemma {:induction false} JoinedClosed(ws: seq<string>)
    requires NonEmpty(ws) && NoPair(Join(ws), '?') && EndsClean(Join(ws))
    ensures Closed(ws) && (ws != [] ==> Join(ws) != [])
    decreases |ws|
  {
    if |ws| > 1 {
      var rest := "&" + Join(ws[1..]);
      assert Join(ws) == ws[0] + rest;
      NoPairApart(ws[0], rest, '?');
      NoPairApart("&", Join(ws[1..]), '?');
      assert ws[1..] != [] && NonEmpty(ws[1..]);
      assert rest[|rest| - 1] == Join(ws)[|Join(ws)| - 1];
      JoinedClosed(ws[1..]);
    }
  }

  lemma {:induction false} TrimQuery(path: string, q: string)
    requires !EndsIn(TrimAmps(q), '?')
    ensures Trim(path + "?" + q) == if TrimAmps(q) == [] then Trim(path) else path + "?" + TrimAmps(q)
    decreases |q|
  {
    var s := path + "?" + q;
    if EndsIn(q, '&') {
      assert s[..|s| - 1] == path + "?" + q[..|q| - 1];
      TrimQuery(path, q[..|q| - 1]);
    } else if q == [] {
      assert s[..|s| - 1] == path;
    }
  }

  /** A query without an ampersand in front. */
  function OneLess(q: string): (r: string)
    ensures Words(r) == Words(q)
  {
    if q != [] && q[0] == '&' then q[1..] else q
  }

  lemma {:induction false} Group(path: string, q: string)
    ensures path + "?" + q == path + ("?" + q)
  {
  }

  lemma {:induction false} FirstAcross(s: string, t: string)
    requires Without(s, '?')
    ensures FirstSqueeze(s + t) == s + FirstSqueeze(t)
    decreases |s|
  {
    if s == [] {
      assert s + t == t;
    } else {
      TailAcross(s, t);
      FirstAcross(s[1..], t);
      Prepend(s[0], s[1..], FirstSqueeze(t));
      Uncons(s);
    }
  }

  lemma {:induction false} OneLessNoPair(q: string, c: char)
    requires NoPair(q, c)
    ensures NoPair(OneLess(q), c)
    ensures NoPair(q, '&') ==> OneLess(q) == [] || OneLess(q)[0] != '&'
  {
  }

  lemma {:induction false} AfterMark(q: string)
    requires NoPair(q, '?')
    ensures FirstSqueeze("?" + q) == "?" + OneLess(q)
    ensures NoPair(q, '&') ==> Squeeze("?" + q, '?') == "?" + OneLess(q)
  {
    var s := "?" + q;
    assert s[1..] == q;
    OneLessNoPair(q, '?');
    var t := "?" + OneLess(q);
    assert t[1..] == OneLess(q);
    if q != [] && q[0] == '&' {
      assert s[2..] == q[1..];
    } else {
      FirstSqueezeFixed(q);
    }
    if NoPair(q, '&') {
      OneLessNoPair(q, '&');
      SqueezeFixed(t, '?');
    }
  }

  lemma {:induction false} FirstQuery(path: string, q: string)
    requires Without(path, '?') && NoPair(q, '?')
    ensures FirstSqueeze(path + "?" + q) == path + "?" + OneLess(q)
  {
    Group(path, q);
    FirstAcross(path, "?" + q);
    AfterMark(q);
    Group(path, OneLess(q));
  }

  lemma {:induction false} SqueezeQuery(path: string, q: string)
    requires Without(path, '?') && NoPair(q, '?') && NoPair(q, '&')
    ensures Squeeze(path + "?" + q, '?') == path + "?" + OneLess(q)
  {
    WithoutHasNoPair(path, '?');
    Group(path, q);
    SqueezeAcross(path, "?" + q, '?');
    AfterMark(q);
    Group(path, OneLess(q));
  }

  lemma {:induction false} NoPairQuery(path: string, q: string, c: char)
    requires NoPair(path, c) && NoPair(q, c) && (c == '?' ==> q == [] || q[0] != '&')
    ensures NoPair(path + "?" + q, c)
  {
    NoPairAcross(path, "?", c);
    NoPairAcross(path + "?", q, c);
  }

  lemma {:induction false} SqueezeAmps(path: string, q: string)
    requires NoPair(path, '&')
    ensures Squeeze(path + "?" + q, '&') == path + "?" + Squeeze(q, '&')
  {
    NoPairAcross(path, "?", '&');
    SqueezeAcross(path + "?", q, '&');
  }

  /** The separators around the parameters are put right, and nothing else changes. */
  lemma {:induction false} SqueezesRender(path: string, q: string)
    requires Without(path, '?') && NoPair(path, '&') && Closed(Words(q))
    requires Words(q) == [] ==> EndsClean(path)
    ensures Squeezes(path + "?" + q) == Render(path, Words(q))
  {
    var q1 := TrimAmps(q);
    TrimAmpsKeepsWords(q);
    ClosedQuery(q1);
    TrimQuery(path, q);
    WithoutHasNoPair(path, '?');
    if q1 == [] {
      FirstSqueezeFixed(path);
      SqueezeFixed(path, '&');
      SqueezeFixed(path, '?');
    } else {
      FirstQuery(path, q1);
      SqueezesTail(path, q1);
    }
  }

  lemma {:induction false} SqueezesTail(path: string, q1: string)
    requires Without(path, '?') && NoPair(path, '&') && NoPair(path, '?')
    requires q1 != [] && EndsClean(q1) && Closed(Words(q1))
    ensures Squeeze(Squeeze(Squeeze(path + "?" + OneLess(q1), '&'), '?'), '&') == Render(path, Words(q1))
  {
    var q3 := Squeeze(OneLess(q1), '&');
    SqueezeAmps(path, OneLess(q1));
    MiddleQuery(q1);
    ClosedQuery(q3);
    SqueezeQuery(path, q3);
    LastQuery(path, q3);
  }

  lemma {:induction false} MiddleQuery(q1: string)
    requires q1 != [] && EndsClean(q1)
    ensures var q3 := Squeeze(OneLess(q1), '&');
      q3 != [] && EndsClean(q3) && NoPair(q3, '&') && Words(q3) == Words(q1)
  {
    var q2 := OneLess(q1);
    assert |q1| == 1 ==> q1[0] != '&';
    SqueezeKeepsWords(q2);
    SqueezePairs(q2, '&', '&');
    SqueezeEnds(q2, '&');
  }

  lemma {:induction false} LastQuery(path: string, q3: string)
    requires NoPair(path, '&') && q3 != [] && EndsClean(q3) && NoPair(q3, '&')
    ensures Squeeze(path + "?" + OneLess(q3), '&') == Render(path, Words(q3))
  {
    var q4 := OneLess(q3);
    assert |q3| == 1 ==> q3[0] != '&';
    OneLessNoPair(q3, '&');
    NoPairQuery(path, q4, '&');
    SqueezeFixed(path + "?" + q4, '&');
    JoinWords(q4);
    assert Words(q4) != [];
  }

  // ---- the main result

  lemma {:induction false} PromisedParts(path: string, ws: seq<string>)
    requires Normal(Render(path, ws)) && NonEmpty(ws) && Without(path, '?')
    ensures FreeBoth(path, GR_V, GR_RELOAD) && NoPair(path, '&')
    ensures FreeWords(ws, GR_V, GR_RELOAD) && Closed(ws)
    ensures ws == [] ==> EndsClean(path)
  {
    if ws != [] {
      var j := Join(ws);
      Group(path, j);
      var t := "?" + j;
      forall name | name == GR_V || name == GR_RELOAD
        ensures Free(path, name) && Free(j, name)
      {
        FreeAcross(path, t, name);
        FreeAcross("?", j, name);
      }
      NoPairApart(path, t, '&');
      NoPairApart(path, t, '?');
      NoPairApart("?", j, '?');
      assert j != [] ==> j[|j| - 1] == Render(path, ws)[|path| + |j|];
      JoinedFree(ws, GR_V, GR_RELOAD);
      JoinedClosed(ws);
    }
  }

  lemma {:induction false} DropAll(path: string, q: string)
    requires FreeBoth(path, GR_V, GR_RELOAD)
    requires FreeWords(Kept(Words(q), GR_V, GR_RELOAD), GR_V, GR_RELOAD)
    ensures exists q1 :: DropBoth(path + "?" + q, GR_V, GR_RELOAD) == path + "?" + q1
                      && Words(q1) == Kept(Words(q), GR_V, GR_RELOAD)
  {
    NamesArePlain();
    Group(path, q);
    var t := "?" + q;
    DropPast(path, t, GR_V);
    DropPast(path, DropParam(t, GR_V), GR_RELOAD);
    DropQuery('?', q, GR_V, GR_RELOAD);
    var x := DropBoth(t, GR_V, GR_RELOAD);
    Uncons(x);
    Group(path, x[1..]);
    assert DropBoth(path + "?" + q, GR_V, GR_RELOAD) == path + "?" + x[1..];
  }

  lemma {:induction false} KeepsPromise(path: string, q: string, ws: seq<string>)
    requires Without(path, '?') && ws == Kept(Words(q), GR_V, GR_RELOAD) && Normal(Render(path, ws))
    ensures Clean(path + "?" + q) == Render(path, ws)
  {
    WordsNonEmpty(q);
    KeptNonEmpty(Words(q), GR_V, GR_RELOAD);
    PromisedParts(path, ws);
    DropAll(path, q);
    var q1 :| DropBoth(path + "?" + q, GR_V, GR_RELOAD) == path + "?" + q1 && Words(q1) == ws;
    SqueezesRender(path, q1);
    CleanIsNormal(path + "?" + q);
  }

  lemma {:induction false} SplitAt(s: string, n: nat)
    requires n < |s|
    ensures s == s[..n] + [s[n]] + s[n + 1..]
  {
  }

  lemma {:induction false} PromisedShape(base: string)
    ensures var n := IndexOf(base, '?');
      n < |base| ==> base == base[..n] + "?" + base[n + 1..] && Without(base[..n], '?')
  {
    var n := IndexOf(base, '?');
    if n < |base| {
      WithoutPrefix(base, n, '?');
      SplitAt(base, n);
    }
  }

  /**
   The cleaned address keeps the path and exactly the business parameters, in order, if and only if that
   address has nothing left to clean. For every string: question marks inside parameters, ampersands in
   the path and empty parameters included.
   */
  lemma {:induction false} CleanKeepsPromiseIff(base: string)
    ensures Clean(base) == Promised(base) <==> Normal(Promised(base))
  {
    CleanIsNormal(base);
    if Normal(Promised(base)) {
      var n := IndexOf(base, '?');
      if n == |base| {
        NormalIsFixed(base);
      } else {
        PromisedShape(base);
        KeepsPromise(base[..n], base[n + 1..], Kept(Words(base[n + 1..]), GR_V, GR_RELOAD));
      }
    }
  }

  // ---- addresses of the ordinary shape

  lemma {:induction false} PlainWordFree(w: string, name: string)
    requires Without(w, '?') && Without(w, '&')
    ensures Free(w, name) && NoPair(w, '?') && NoPair(w, '&') && EndsClean(w)
    decreases |w|
  {
    if w != [] {
      PlainWordFree(w[1..], name);
    }
  }

  predicate PlainWords(ws: seq<string>, v: string, r: string) {
    forall i :: 0 <= i < |ws| ==> ws[i] != [] && Without(ws[i], '?') && Without(ws[i], '&') && !Legacy(ws[i], v, r)
  }

  lemma {:induction false} WordsOfPlain(q: string, v: string, r: string)
    requires Without(q, '?')
    ensures PlainWords(Kept(Words(q), v, r), v, r)
    decreases |q|
  {
    if q != [] && q[0] == '&' {
      WordsOfPlain(q[1..], v, r);
    } else if q != [] {
      var w, t := q[..IndexOf(q, '&')], q[IndexOf(q, '&')..];
      assert q == w + t;
      WithoutPrefix(q, |w|, '&');
      WithoutIndex(q, '?');
      WithoutPrefix(q, |w|, '?');
      WithoutSuffix(q, |w|, '?');
      WordsOfPlain(t, v, r);
      KeptApart(w, t, v, r);
    }
  }

  /** Parameters without separators and legacy names, joined behind one more separator, are clean. */
  lemma {:induction false} JoinedNormal(c: char, ws: seq<string>, v: string, r: string)
    requires Plain(v) && Plain(r) && Sep(c) && ws != [] && PlainWords(ws, v, r)
    ensures FreeBoth([c] + Join(ws), v, r)
    ensures NoPair([c] + Join(ws), '?') && NoPair([c] + Join(ws), '&') && EndsClean([c] + Join(ws))
    decreases |ws|
  {
    var w := ws[0];
    PlainWordFree(w, v);
    PlainWordFree(w, r);
    Cons(c, w);
    if |ws| == 1 {
    } else {
      var t := ['&'] + Join(ws[1..]);
      JoinedNormal('&', ws[1..], v, r);
      assert [c] + Join(ws) == [c] + w + t;
      Tied(c, w, t, v);
      Tied(c, w, t, r);
    }
  }

  lemma {:induction false} Tied(c: char, w: string, t: string, name: string)
    requires Plain(name) && Sep(c) && w != [] && t != [] && t[0] == '&' && !(name <= w) && w[0] != '&'
    requires Free(w, name) && NoPair(w, '?') && NoPair(w, '&') && EndsClean(w)
    requires Free(t, name) && NoPair(t, '?') && NoPair(t, '&') && EndsClean(t)
    ensures var s := [c] + w + t; Free(s, name) && NoPair(s, '?') && NoPair(s, '&') && EndsClean(s)
  {
    var s := [c] + w + t;
    Prepend(c, w, t);
    FreeTied(w, t, name);
    NameAcross(name, w, t);
    NoPairAcross(w, t, '?');
    NoPairAcross(w, t, '&');
    assert s[|s| - 1] == t[|t| - 1];
  }

  lemma {:induction false} FreeTied(s: string, t: string, name: string)
    requires Plain(name) && Free(s, name) && Free(t, name) && (t == [] || Sep(t[0]))
    ensures Free(s + t, name)
    decreases |s|
  {
    if s == [] {
      assert s + t == t;
    } else {
      TailAcross(s, t);
      NameAcross(name, s[1..], t);
      FreeTied(s[1..], t, name);
    }
  }

  /** With at most one question mark and no ampersand before it the promise is kept. */
  lemma {:induction false} OrdinaryAddressKeepsPromise(path: string, q: string)
    requires Without(path, '?') && Without(path, '&') && Without(q, '?')
    ensures Clean(path + "?" + q) == Render(path, Kept(Words(q), GR_V, GR_RELOAD))
    ensures Clean(path) == path
  {
    NamesArePlain();
    PlainWordFree(path, GR_V);
    PlainWordFree(path, GR_RELOAD);
    NormalIsFixed(path);
    var ws := Kept(Words(q), GR_V, GR_RELOAD);
    WordsOfPlain(q, GR_V, GR_RELOAD);
    if ws != [] {
      JoinedNormal('?', ws, GR_V, GR_RELOAD);
      RenderNormal(path, Join(ws));
    }
    KeepsPromise(path, q, ws);
  }

  lemma {:induction false} RenderNormal(path: string, j: string)
    requires Without(path, '?') && Without(path, '&') && Normal("?" + j) && FreeBoth(path, GR_V, GR_RELOAD)
    ensures Normal(path + "?" + j)
  {
    NamesArePlain();
    Group(path, j);
    FreeTied(path, "?" + j, GR_V);
    FreeTied(path, "?" + j, GR_RELOAD);
    WithoutHasNoPair(path, '?');
    WithoutHasNoPair(path, '&');
    NoPairAcross(path, "?" + j, '?');
    NoPairAcross(path, "?" + j, '&');
  }

  lemma {:induction false} InnerWord(w: string, u: string)
    requires Without(w, '&') && Without(u, '&') && w != [] && !Legacy(w, GR_V, GR_RELOAD)
    ensures var word := w + ("?" + (GR_V + u));
      word != [] && Words(word) == [word] && Kept([word], GR_V, GR_RELOAD) == [word]
  {
    WithoutTied(GR_V, u, '&');
    WithoutTied("?", GR_V + u, '&');
    NamesArePlain();
    TailWord(w, "?" + (GR_V + u), GR_V, GR_RELOAD);
  }

  lemma {:induction false} TailWord(w: string, tail: string, v: string, r: string)
    requires Plain(v) && Plain(r) && Without(w, '&') && w != [] && !Legacy(w, v, r)
    requires Without(tail, '&') && tail != [] && Sep(tail[0])
    ensures Words(w + tail) == [w + tail] && Kept([w + tail], v, r) == [w + tail]
  {
    WithoutTied(w, tail, '&');
    NameAcross(v, w, tail);
    NameAcross(r, w, tail);
    WordsApart(w + tail, []);
    assert w + tail + [] == w + tail;
  }

  lemma {:induction false} InnerNotFree(s: string, u: string)
    ensures !Free(s + ("?" + (GR_V + u)), GR_V)
  {
    var tail := "?" + (GR_V + u);
    Cons('?', GR_V + u);
    assert GR_V <= GR_V + u;
    if Free(s + tail, GR_V) {
      FreeAcross(s, tail, GR_V);
      assert false;
    }
  }

  lemma {:induction false} OneWordCut(path: string, word: string)
    requires Without(path, '?') && word != [] && Words(word) == [word] && Kept([word], GR_V, GR_RELOAD) == [word]
    requires !Free(word, GR_V)
    ensures Promised(path + "?" + word) == path + "?" + word
    ensures Clean(path + "?" + word) != path + "?" + word
  {
    var base := path + "?" + word;
    IndexOfMark(path, word);
    if Normal(base) {
      FreeAcross(path + "?", word, GR_V);
      assert false;
    }
    CleanKeepsPromiseIff(base);
  }

  /**
   Where the promise fails: a business parameter w whose value holds a question mark and then gr_v= is cut
   short, although nothing of it is a legacy parameter.
   */
  lemma {:induction false} InnerQuestionMarkIsCut(path: string, w: string, u: string)
    requires Without(path, '?') && Without(w, '&') && Without(u, '&')
    requires w != [] && !Legacy(w, GR_V, GR_RELOAD)
    ensures var base := path + "?" + (w + ("?" + (GR_V + u)));
      Promised(base) == base && Clean(base) != base
  {
    var word := w + ("?" + (GR_V + u));
    InnerWord(w, u);
    InnerNotFree(w, u);
    OneWordCut(path, word);
  }

  lemma {:induction false} WithoutTied(s: string, t: string, c: char)
    requires Without(s, c) && Without(t, c)
    ensures Without(s + t, c)
    decreases |s|
  {
    if s == [] {
      assert s + t == t;
    } else {
      TailAcross(s, t);
      WithoutTied(s[1..], t, c);
    }
  }

  lemma {:induction false} IndexOfMark(path: string, q: string)
    requires Without(path, '?')
    ensures var s := path + "?" + q; IndexOf(s, '?') == |path| && s[..|path|] == path && s[|path| + 1..] == q
    decreases |path|
  {
    var s := path + "?" + q;
    if path != [] {
      IndexOfMark(path[1..], q);
      assert s[1..] == path[1..] + "?" + q;
    }
  }
}
