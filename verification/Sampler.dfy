/**
 The resampling of the on-demand packs: the vocabulary of each dimension is collected from the existing packs,
 and every new pack takes a deterministic pseudo-random sample of it, as many operations as the median pack
 had, in the order of the vocabulary.
 */
module Sampler {

  datatype Op = Op(id: string, rest: string)

  datatype Dim = Dim(name: string, ops: seq<Op>)

  // ---------------------------------------------------------------- vocabulary

  predicate HasId(seen: seq<Op>, id: string) {
    exists i | 0 <= i < |seen| :: seen[i].id == id
  }

  /** The operations whose id is not there yet are appended, in order. */
  function AddNew(seen: seq<Op>, ops: seq<Op>): seq<Op> {
    if ops == [] then seen
    else
      var n := |ops| - 1;
      var s := AddNew(seen, ops[..n]);
      if HasId(s, ops[n].id) then s else s + [ops[n]]
  }

  /** All operations a dimension had in the packs, one pack after the other. */
  function OpsOf(dims: seq<Dim>, d: string): seq<Op> {
    if dims == [] then []
    else
      var n := |dims| - 1;
      if dims[n].name == d then OpsOf(dims[..n], d) + dims[n].ops else OpsOf(dims[..n], d)
  }

  /** How many operations each pack had in a dimension. */
  function CountsOf(dims: seq<Dim>, d: string): seq<nat> {
    if dims == [] then []
    else
      var n := |dims| - 1;
      if dims[n].name == d then CountsOf(dims[..n], d) + [|dims[n].ops|] else CountsOf(dims[..n], d)
  }

  /** The names of the dimensions in the order of their first appearance. */
  function Names(dims: seq<Dim>): seq<string> {
    if dims == [] then []
    else
      var n := |dims| - 1;
      var ns := Names(dims[..n]);
      if dims[n].name in ns then ns else ns + [dims[n].name]
  }

  lemma {:induction false} AddNewTwice(seen: seq<Op>, a: seq<Op>, b: seq<Op>)
    ensures AddNew(AddNew(seen, a), b) == AddNew(seen, a + b)
    decreases |b|
  {
    if b == [] {
      assert a + b == a;
    } else {
      var n := |b| - 1;
      AddNewTwice(seen, a, b[..n]);
      assert (a + b)[..|a + b| - 1] == a + b[..n];
    }
  }

  ghost predicate DistinctIds(ops: seq<Op>) {
    forall i, j :: 0 <= i < j < |ops| ==> ops[i].id != ops[j].id
  }

  /** The vocabulary has every id once. */
  lemma {:induction false} VocabularyDistinct(ops: seq<Op>)
    ensures DistinctIds(AddNew([], ops))
    decreases |ops|
  {
    if ops != [] { VocabularyDistinct(ops[..|ops| - 1]); }
  }

  /** The first operation of an id among ops. */
  predicate FirstOfId(ops: seq<Op>, k: nat) {
    k < |ops| && forall i | 0 <= i < k :: ops[i].id != ops[k].id
  }

  lemma {:induction false} VocabularyHasId(ops: seq<Op>, id: string)
    ensures HasId(AddNew([], ops), id) <==> HasId(ops, id)
    decreases |ops|
  {
    if ops != [] {
      var n := |ops| - 1;
      VocabularyHasId(ops[..n], id);
      VocabularyHasId(ops[..n], ops[n].id);
      var s := AddNew([], ops[..n]);
      if HasId(ops, id) && !HasId(ops[..n], id) {
        assert ops[n].id == id;
        assert (s + [ops[n]])[|s|].id == id;
      }
      if HasId(ops[..n], id) {
        var i :| 0 <= i < n && ops[..n][i].id == id;
        assert ops[i].id == id;
        var k :| 0 <= k < |s| && s[k].id == id;
        assert (s + [ops[n]])[k].id == id;
      }
    }
  }

  predicate IsFirst(ops: seq<Op>, o: Op) {
    exists k: nat | k < |ops| :: FirstOfId(ops, k) && ops[k] == o
  }

  lemma FirstInPrefix(ops: seq<Op>, n: nat, k: nat)
    requires k < n <= |ops|
    ensures FirstOfId(ops, k) <==> FirstOfId(ops[..n], k)
  {
    assert forall i :: 0 <= i < n ==> ops[..n][i] == ops[i];
  }

  lemma FirstAtEnd(ops: seq<Op>, n: nat)
    requires n < |ops|
    ensures FirstOfId(ops, n) <==> !HasId(ops[..n], ops[n].id)
  {
    assert forall i :: 0 <= i < n ==> ops[..n][i] == ops[i];
  }

  lemma FirstStays(ops: seq<Op>, n: nat, o: Op)
    requires n <= |ops| && IsFirst(ops[..n], o)
    ensures IsFirst(ops, o)
  {
    var k: nat :| k < n && FirstOfId(ops[..n], k) && ops[..n][k] == o;
    FirstInPrefix(ops, n, k);
  }

  lemma FirstComes(ops: seq<Op>, n: nat, o: Op)
    requires n + 1 == |ops| && IsFirst(ops, o)
    ensures IsFirst(ops[..n], o) || (FirstOfId(ops, n) && ops[n] == o)
  {
    var k: nat :| k < |ops| && FirstOfId(ops, k) && ops[k] == o;
    if k < n {
      FirstInPrefix(ops, n, k);
      assert ops[..n][k] == o;
    }
  }

  /** The vocabulary is exactly the first operation of each id, whatever else those ids came with later. */
  lemma {:induction false} VocabularyIsFirsts(ops: seq<Op>, o: Op)
    ensures o in AddNew([], ops) <==> IsFirst(ops, o)
    decreases |ops|
  {
    if ops != [] {
      var n := |ops| - 1;
      VocabularyIsFirsts(ops[..n], o);
      VocabularyHasId(ops[..n], ops[n].id);
      FirstAtEnd(ops, n);
      if IsFirst(ops[..n], o) {
        FirstStays(ops, n, o);
      }
      if IsFirst(ops, o) {
        FirstComes(ops, n, o);
      }
      var s := AddNew([], ops[..n]);
      assert o in s + [ops[n]] <==> o in s || o == ops[n];
    }
  }

  ghost predicate NamesHold(order: seq<string>, vocab: map<string, seq<Op>>, counts: map<string, seq<nat>>, dims: seq<Dim>) {
    && order == Names(dims)
    && forall d :: (d in vocab <==> d in order) && (d in counts <==> d in order)
  }

  ghost predicate MapsHold(vocab: map<string, seq<Op>>, counts: map<string, seq<nat>>, dims: seq<Dim>) {
    && (forall d :: d in vocab ==> vocab[d] == AddNew([], OpsOf(dims, d)))
    && (forall d :: d in counts ==> counts[d] == CountsOf(dims, d))
  }

  /** What the maps of the extraction hold after the given dimensions of all packs so far. */
  ghost predicate Holds(order: seq<string>, vocab: map<string, seq<Op>>, counts: map<string, seq<nat>>, dims: seq<Dim>) {
    NamesHold(order, vocab, counts, dims) && MapsHold(vocab, counts, dims)
  }

  lemma OneMore(before: seq<Dim>, dim: Dim, e: string)
    ensures OpsOf(before + [dim], e) == if e == dim.name then OpsOf(before, e) + dim.ops else OpsOf(before, e)
    ensures CountsOf(before + [dim], e)
         == if e == dim.name then CountsOf(before, e) + [|dim.ops|] else CountsOf(before, e)
    ensures Names(before + [dim]) == if dim.name in Names(before) then Names(before) else Names(before) + [dim.name]
  {
    assert (before + [dim])[..|before|] == before;
  }

  lemma {:induction false} NamesOrNothing(dims: seq<Dim>, d: string)
    ensures d !in Names(dims) ==> OpsOf(dims, d) == [] && CountsOf(dims, d) == []
    ensures d in Names(dims) ==> |CountsOf(dims, d)| > 0
    decreases |dims|
  {
    if dims != [] {
      NamesOrNothing(dims[..|dims| - 1], d);
    }
  }

  lemma FedOps(seen: seq<Op>, cs: seq<nat>, before: seq<Dim>, dim: Dim)
    requires seen == AddNew([], OpsOf(before, dim.name)) && cs == CountsOf(before, dim.name)
    ensures AddNew(seen, dim.ops) == AddNew([], OpsOf(before + [dim], dim.name))
    ensures cs + [|dim.ops|] == CountsOf(before + [dim], dim.name)
  {
    OneMore(before, dim, dim.name);
    AddNewTwice([], OpsOf(before, dim.name), dim.ops);
  }

  lemma FedMaps(vocab: map<string, seq<Op>>, counts: map<string, seq<nat>>, before: seq<Dim>, dim: Dim,
                seen: seq<Op>, cs: seq<nat>)
    requires MapsHold(vocab, counts, before)
    requires seen == AddNew([], OpsOf(before, dim.name)) && cs == CountsOf(before, dim.name)
    ensures MapsHold(vocab[dim.name := AddNew(seen, dim.ops)], counts[dim.name := cs + [|dim.ops|]], before + [dim])
  {
    FedOps(seen, cs, before, dim);
    forall e | e != dim.name
      ensures OpsOf(before + [dim], e) == OpsOf(before, e) && CountsOf(before + [dim], e) == CountsOf(before, e)
    {
      OneMore(before, dim, e);
    }
  }

  lemma FedHolds(order: seq<string>, vocab: map<string, seq<Op>>, counts: map<string, seq<nat>>, before: seq<Dim>, dim: Dim)
    requires Holds(order, vocab, counts, before)
    ensures var d := dim.name;
      var order' := if d in vocab then order else order + [d];
      var seen := if d in vocab then vocab[d] else [];
      var cs := if d in counts then counts[d] else [];
      Holds(order', vocab[d := AddNew(seen, dim.ops)], counts[d := cs + [|dim.ops|]], before + [dim])
  {
    var d := dim.name;
    NamesOrNothing(before, d);
    OneMore(before, dim, d);
    FedMaps(vocab, counts, before, dim, if d in vocab then vocab[d] else [], if d in counts then counts[d] else []);
  }

  /** The maps that the extraction fills. */
  class Extraction {
    var dimOrder: seq<string>
    var vocab: map<string, seq<Op>>
    var counts: map<string, seq<nat>>

    constructor ()
      ensures Holds(dimOrder, vocab, counts, [])
    {
      dimOrder, vocab, counts := [], map[], map[];
    }

    static method Learn(known: seq<Op>, ops: seq<Op>) returns (seen: seq<Op>)
      ensures seen == AddNew(known, ops)
    {
      seen := known;
      for i := 0 to |ops|
        invariant seen == AddNew(known, ops[..i])
      {
        assert ops[..i + 1][..i] == ops[..i];
        if !HasId(seen, ops[i].id) {
          seen := seen + [ops[i]];
        }
      }
      assert ops[..|ops|] == ops;
    }

    method Feed(dim: Dim, ghost before: seq<Dim>)
      requires Holds(dimOrder, vocab, counts, before)
      modifies this
      ensures Holds(dimOrder, vocab, counts, before + [dim])
    {
      FedHolds(dimOrder, vocab, counts, before, dim);
      var d := dim.name;
      var known, cs := [], [];
      if d in vocab {
        known, cs := vocab[d], counts[d];
      } else {
        dimOrder := dimOrder + [d];
      }
      var seen := Learn(known, dim.ops);
      vocab := vocab[d := seen];
      counts := counts[d := cs + [|dim.ops|]];
    }

    method FeedAll(dims: seq<Dim>)
      requires Holds(dimOrder, vocab, counts, [])
      modifies this
      ensures Holds(dimOrder, vocab, counts, dims)
    {
      for i := 0 to |dims|
        invariant Holds(dimOrder, vocab, counts, dims[..i])
      {
        assert dims[..i + 1] == dims[..i] + [dims[i]];
        Feed(dims[i], dims[..i]);
      }
      assert dims[..|dims|] == dims;
    }
  }

  // ---------------------------------------------------------------- the median

  function Insert(x: nat, s: seq<nat>): seq<nat> {
    if s == [] || x <= s[0] then [x] + s else [s[0]] + Insert(x, s[1..])
  }

  function Sort(s: seq<nat>): seq<nat> {
    if s == [] then [] else Insert(s[0], Sort(s[1..]))
  }

  ghost predicate Sorted(s: seq<nat>) {
    forall i, j :: 0 <= i < j < |s| ==> s[i] <= s[j]
  }

  lemma {:induction false} InsertKeeps(x: nat, s: seq<nat>)
    ensures multiset(Insert(x, s)) == multiset(s) + multiset{x}
    decreases |s|
  {
    if s != [] && x > s[0] {
      InsertKeeps(x, s[1..]);
      assert s == [s[0]] + s[1..];
    }
  }

  lemma {:induction false} InsertAbove(x: nat, s: seq<nat>, low: nat)
    requires low <= x && forall i :: 0 <= i < |s| ==> low <= s[i]
    ensures forall i :: 0 <= i < |Insert(x, s)| ==> low <= Insert(x, s)[i]
    decreases |s|
  {
    if s != [] && x > s[0] {
      InsertAbove(x, s[1..], low);
    }
  }

  lemma {:induction false} InsertSorts(x: nat, s: seq<nat>)
    requires Sorted(s)
    ensures Sorted(Insert(x, s))
    decreases |s|
  {
    if s != [] && x > s[0] {
      InsertSorts(x, s[1..]);
      InsertAbove(x, s[1..], s[0]);
    }
  }

  lemma {:induction false} SortSorts(s: seq<nat>)
    ensures Sorted(Sort(s)) && multiset(Sort(s)) == multiset(s) && |Sort(s)| == |s|
    decreases |s|
  {
    if s != [] {
      SortSorts(s[1..]);
      InsertSorts(s[0], Sort(s[1..]));
      InsertKeeps(s[0], Sort(s[1..]));
      assert s == [s[0]] + s[1..];
      assert |multiset(Sort(s))| == |Sort(s)| && |multiset(s)| == |s|;
    }
  }

  /** The middle of the sorted counts. */
  function Median(cs: seq<nat>): nat
    requires cs != []
  {
    SortSorts(cs);
    Sort(cs)[|cs| / 2]
  }

  function Zeros(cs: seq<nat>): nat {
    multiset(cs)[0]
  }

  lemma {:induction false} ZeroPrefix(s: seq<nat>)
    requires Sorted(s)
    ensures Zeros(s) <= |s| && forall i :: 0 <= i < |s| ==> (s[i] == 0 <==> i < Zeros(s))
    decreases |s|
  {
    if s != [] {
      assert s == [s[0]] + s[1..];
      ZeroPrefix(s[1..]);
      if s[0] != 0 {
        assert forall i :: 0 <= i < |s| ==> s[i] != 0;
      }
    }
  }

  /** The median is zero exactly when more than half of the packs had no operation in the dimension. */
  lemma MedianZeroIff(cs: seq<nat>)
    requires cs != []
    ensures Median(cs) == 0 <==> Zeros(cs) > |cs| / 2
  {
    SortSorts(cs);
    ZeroPrefix(Sort(cs));
  }

  // ---------------------------------------------------------------- the generator

  type Word = n: nat | n < 0x1_0000_0000

  /** The new state and 32 random bits. */
  type Generator = bv32 -> (bv32, Word)

  function Mulberry(t: bv32): (bv32, Word) {
    var t1 := t + 0x6d2b79f5;
    var r := (t1 ^ (t1 >> 15)) * (1 | t1);
    var r1 := (r + (r ^ (r >> 7)) * (61 | r)) ^ r;
    (t1, (r1 ^ (r1 >> 14)) as int)
  }

  /** FNV-1a over the code units of a stream name. */
  function HashStr(s: seq<bv16>): bv32 {
    if s == [] then 0x811c9dc5
    else (HashStr(s[..|s| - 1]) ^ (s[|s| - 1] as bv32)) * 0x01000193
  }

  /** The seed of the stream of one pack and dimension. */
  function StreamSeed(name: seq<bv16>): bv32 {
    HashStr(name) ^ 0x9e3779b9
  }

  /**
   A random number below n from 32 random bits. The product with the fraction of 2^32 is exact in a double
   for n up to 2^21.
   */
  function Draw(u: Word, n: nat): nat {
    u * n / 0x1_0000_0000
  }

  lemma Multiply(a: nat, b: nat, n: nat)
    requires a < b && n > 0
    ensures a * n < b * n
  {
  }

  lemma DivBelow(x: nat, n: nat)
    requires x < 0x1_0000_0000 * n
    ensures x / 0x1_0000_0000 < n
  {
  }

  lemma DrawInRange(u: Word, n: nat)
    requires n > 0
    ensures Draw(u, n) < n
  {
    Multiply(u, 0x1_0000_0000, n);
    DivBelow(u * n, n);
  }

  // ---------------------------------------------------------------- the sample

  function Swap(s: seq<nat>, i: nat, k: nat): seq<nat>
    requires i < |s| && k < |s|
  {
    s[i := s[k]][k := s[i]]
  }

  ghost predicate Perm(s: seq<nat>) {
    && (forall i :: 0 <= i < |s| ==> s[i] < |s|)
    && (forall i, j :: 0 <= i < j < |s| ==> s[i] != s[j])
  }

  /** Round j of the shuffle: an entry that has not been drawn yet moves to place j. */
  function Round(s: seq<nat>, j: nat, u: Word): (r: seq<nat>)
    requires j < |s|
    ensures |r| == |s|
  {
    DrawInRange(u, |s| - j);
    Swap(s, j, j + Draw(u, |s| - j))
  }

  /** The state of a generator after n numbers. */
  function StateAfter(g: Generator, t: bv32, n: nat): bv32 {
    if n == 0 then t else g(StateAfter(g, t, n - 1)).0
  }

  /** What n rounds of the in-place partial shuffle leave. */
  function Shuffled(s: seq<nat>, g: Generator, seed: bv32, n: nat): (r: seq<nat>)
    requires n <= |s|
    ensures |r| == |s|
    decreases n
  {
    if n == 0 then s
    else Round(Shuffled(s, g, seed, n - 1), n - 1, g(StateAfter(g, seed, n - 1)).1)
  }

  lemma RoundPerm(s: seq<nat>, j: nat, u: Word)
    requires Perm(s) && j < |s|
    ensures Perm(Round(s, j, u))
  {
    DrawInRange(u, |s| - j);
  }

  /** However the bits fall, the shuffled indices are a permutation. */
  lemma {:induction false} ShuffledPerm(s: seq<nat>, g: Generator, seed: bv32, n: nat)
    requires Perm(s) && n <= |s|
    ensures Perm(Shuffled(s, g, seed, n))
    decreases n
  {
    if n > 0 {
      ShuffledPerm(s, g, seed, n - 1);
      RoundPerm(Shuffled(s, g, seed, n - 1), n - 1, g(StateAfter(g, seed, n - 1)).1);
    }
  }

  /** The first n entries of the shuffled indices, in the order of the vocabulary. */
  function Picked(idx: seq<nat>, n: nat): seq<nat>
    requires n <= |idx|
  {
    Sort(idx[..n])
  }

  ghost predicate Ascending(ps: seq<nat>, len: nat) {
    && (forall i :: 0 <= i < |ps| ==> ps[i] < len)
    && (forall i, j :: 0 <= i < j < |ps| ==> ps[i] < ps[j])
  }

  lemma {:induction false} CountsOnce(s: seq<nat>, x: nat)
    requires forall i, j :: 0 <= i < j < |s| ==> s[i] != s[j]
    ensures multiset(s)[x] <= 1
    decreases |s|
  {
    if s != [] {
      var n := |s| - 1;
      CountsOnce(s[..n], x);
      assert s == s[..n] + [s[n]];
      assert x == s[n] ==> x !in s[..n];
    }
  }

  lemma {:induction false} OnceIsDistinct(s: seq<nat>)
    requires forall x :: multiset(s)[x] <= 1
    ensures forall i, j :: 0 <= i < j < |s| ==> s[i] != s[j]
  {
    forall i, j | 0 <= i < j < |s|
      ensures s[i] != s[j]
    {
      assert s == s[..j] + [s[j]] + s[j + 1..];
      assert multiset(s) == multiset(s[..j]) + multiset{s[j]} + multiset(s[j + 1..]);
      assert s[i] in s[..j];
      assert multiset(s)[s[j]] <= 1;
    }
  }

  /** The picked indices are n different places of the vocabulary, in ascending order. */
  lemma PickedAscend(idx: seq<nat>, n: nat)
    requires Perm(idx) && n <= |idx|
    ensures |Picked(idx, n)| == n && Ascending(Picked(idx, n), |idx|)
    ensures forall x :: x in Picked(idx, n) <==> x in idx[..n]
  {
    var p := Picked(idx, n);
    SortSorts(idx[..n]);
    forall x
      ensures multiset(p)[x] <= 1
      ensures x in p <==> x in idx[..n]
    {
      CountsOnce(idx[..n], x);
      assert x in p <==> x in multiset(p);
      assert x in idx[..n] <==> x in multiset(idx[..n]);
    }
    OnceIsDistinct(p);
    forall i | 0 <= i < |p|
      ensures p[i] < |idx|
    {
      assert p[i] in idx[..n];
    }
  }

  function Indices(n: nat): seq<nat> {
    seq(n, i => i)
  }

  /** How many operations a new pack takes of a dimension. */
  function Wanted(vocabulary: seq<Op>, median: nat): (n: nat)
    ensures n <= |vocabulary| && n <= median
  {
    if median < |vocabulary| then median else |vocabulary|
  }

  function Pick(vocabulary: seq<Op>, places: seq<nat>): seq<Op>
    requires Ascending(places, |vocabulary|)
  {
    seq(|places|, i requires 0 <= i < |places| => vocabulary[places[i]])
  }

  /** The places a stream picks out of a vocabulary. */
  function Places(len: nat, n: nat, g: Generator, seed: bv32): seq<nat>
    requires n <= len
  {
    Picked(Shuffled(Indices(len), g, seed, n), n)
  }

  lemma PlacesAscend(len: nat, n: nat, g: Generator, seed: bv32)
    requires n <= len
    ensures |Places(len, n, g, seed)| == n && Ascending(Places(len, n, g, seed), len)
  {
    assert Perm(Indices(len));
    ShuffledPerm(Indices(len), g, seed, n);
    PickedAscend(Shuffled(Indices(len), g, seed, n), n);
  }

  /** The operations of one dimension in a new pack. */
  function Sample(vocabulary: seq<Op>, median: nat, g: Generator, seed: bv32): seq<Op> {
    var n := Wanted(vocabulary, median);
    PlacesAscend(|vocabulary|, n, g, seed);
    Pick(vocabulary, Places(|vocabulary|, n, g, seed))
  }

  lemma PickDistinct(v: seq<Op>, places: seq<nat>)
    requires DistinctIds(v) && Ascending(places, |v|)
    ensures DistinctIds(Pick(v, places))
  {
  }

  /**
   For every generator and seed a dimension gets as many operations as the median pack had, or all there are if those are
   fewer: different ones, out of the operations of the input packs, in the order of the vocabulary.
   */
  lemma SampleIsSubsequence(all: seq<Op>, median: nat, g: Generator, seed: bv32)
    ensures var v := AddNew([], all);
      var s := Sample(v, median, g, seed);
      && |s| == (if median < |v| then median else |v|)
      && DistinctIds(s)
      && (forall i :: 0 <= i < |s| ==> IsFirst(all, s[i]))
      && (exists places :: Ascending(places, |v|) && s == Pick(v, places))
  {
    var v := AddNew([], all);
    var places := Places(|v|, Wanted(v, median), g, seed);
    PlacesAscend(|v|, Wanted(v, median), g, seed);
    VocabularyDistinct(all);
    var s := Sample(v, median, g, seed);
    PickDistinct(v, places);
    forall i | 0 <= i < |s|
      ensures IsFirst(all, s[i])
    {
      assert s[i] == v[places[i]];
      VocabularyIsFirsts(all, s[i]);
    }
  }

  // ---------------------------------------------------------------- the loops

  class Prng {
    const g: Generator
    var t: bv32

    constructor (g: Generator, seed: bv32)
      ensures this.g == g && t == seed
    {
      this.g := g;
      t := seed;
    }

    method Next() returns (u: Word)
      modifies this
      ensures (t, u) == g(old(t))
    {
      var (t1, b) := g(t);
      t := t1;
      u := b;
    }
  }

  method SwapIn(idx: array<nat>, j: nat, u: Word)
    requires j < idx.Length
    modifies idx
    ensures idx[..] == Round(old(idx[..]), j, u)
  {
    DrawInRange(u, idx.Length - j);
    var k := j + Draw(u, idx.Length - j);
    idx[j], idx[k] := idx[k], idx[j];
  }

  method ShuffleInPlace(idx: array<nat>, n: nat, rnd: Prng)
    requires n <= idx.Length
    modifies idx, rnd
    ensures idx[..] == Shuffled(old(idx[..]), rnd.g, old(rnd.t), n)
  {
    ghost var was, seed := idx[..], rnd.t;
    for j := 0 to n
      invariant rnd.t == StateAfter(rnd.g, seed, j)
      invariant idx[..] == Shuffled(was, rnd.g, seed, j)
    {
      var u := rnd.Next();
      SwapIn(idx, j, u);
    }
  }

  method Resample(vocabulary: seq<Op>, median: nat, name: seq<bv16>) returns (ops: seq<Op>)
    ensures ops == Sample(vocabulary, median, Mulberry, StreamSeed(name))
  {
    var n := Wanted(vocabulary, median);
    var seed := StreamSeed(name);
    var rnd := new Prng(Mulberry, seed);
    var idx := new nat[|vocabulary|](i => i);
    assert idx[..] == Indices(|vocabulary|);
    ShuffleInPlace(idx, n, rnd);
    PlacesAscend(|vocabulary|, n, Mulberry, seed);
    var places := Sort(idx[..n]);
    assert places == Places(|vocabulary|, n, Mulberry, seed);
    ops := Pick(vocabulary, places);
  }

  // ---------------------------------------------------------------- the self-check

  /** The sizes of the dimensions of every new pack, in order. */
  function Sizes(dims: seq<Dim>): seq<nat> {
    var names := Names(dims);
    seq(|names|, i requires 0 <= i < |names| => SizeOf(dims, names[i]))
  }

  function SizeOf(dims: seq<Dim>, d: string): nat {
    var cs := CountsOf(dims, d);
    if cs == [] then 0 else Wanted(AddNew([], OpsOf(dims, d)), Median(cs))
  }

  /** The check refuses a pack without dimensions or with an empty dimension. */
  predicate CheckFails(dims: seq<Dim>) {
    var sizes := Sizes(dims);
    sizes == [] || exists i | 0 <= i < |sizes| :: sizes[i] == 0
  }

  lemma {:induction false} AddNewGrows(seen: seq<Op>, ops: seq<Op>)
    ensures |AddNew(seen, ops)| >= |seen|
    ensures seen == [] && ops != [] ==> AddNew(seen, ops) != []
    decreases |ops|
  {
    if ops != [] {
      var n := |ops| - 1;
      AddNewGrows(seen, ops[..n]);
    }
  }

  lemma {:induction false} NoOpsNoCounts(dims: seq<Dim>, d: string)
    requires OpsOf(dims, d) == []
    ensures Zeros(CountsOf(dims, d)) == |CountsOf(dims, d)|
    decreases |dims|
  {
    if dims != [] {
      NoOpsNoCounts(dims[..|dims| - 1], d);
    }
  }

  /** More than half of the packs that list the dimension list no operation in it. */
  predicate MostlyEmpty(dims: seq<Dim>, d: string) {
    Zeros(CountsOf(dims, d)) > |CountsOf(dims, d)| / 2
  }

  lemma SizeZeroIff(dims: seq<Dim>, d: string)
    requires d in Names(dims)
    ensures SizeOf(dims, d) == 0 <==> MostlyEmpty(dims, d)
  {
    NamesOrNothing(dims, d);
    var cs := CountsOf(dims, d);
    MedianZeroIff(cs);
    AddNewGrows([], OpsOf(dims, d));
    if OpsOf(dims, d) == [] {
      NoOpsNoCounts(dims, d);
    }
  }

  /**
   The self-check fails exactly when there is no dimension, or more than half of the packs that list some
   dimension list no operation in it. Nothing in it asks for twelve dimensions.
   */
  lemma CheckFailsIff(dims: seq<Dim>)
    ensures CheckFails(dims) <==> Names(dims) == [] || exists d <- Names(dims) :: MostlyEmpty(dims, d)
  {
    var names, sizes := Names(dims), Sizes(dims);
    forall i | 0 <= i < |names|
      ensures sizes[i] == 0 <==> MostlyEmpty(dims, names[i])
    {
      SizeZeroIff(dims, names[i]);
    }
  }
}
