/**
 The order in which a kick admits its packs: a deterministic shuffle for the session and source, then the
 primary residual in front, the deepen packs that must land behind it by priority, and the rest as they are.
 And the stages in which a route plan hands its packs to kicks.
 */
module KickOrder {

  datatype Pack = Pack(id: string, packId: string, reason: string, priority: int)

  function IdOf(p: Pack): string {
    if p.id != "" then p.id else p.packId
  }

  // ---------------------------------------------------------------- shuffle

  /** The hash of session and source; the 64-bit offset keeps its low word as a double does, the prime its own. */
  function SeedOf(s: seq<bv16>): bv32 {
    if s == [] then 0x84222000 else (SeedOf(s[..|s| - 1]) ^ (s[|s| - 1] as bv32)) * 0x1b3
  }

  /** One round: the new state and the number it draws with. */
  function XorShift(h: bv32): (bv32, nat) {
    var a := h ^ (h << 13);
    var b := a ^ (a >> 7);
    var c := b ^ (b << 17);
    (c, c as int)
  }

  type Generator = bv32 -> (bv32, nat)

  /** The state of a generator after n rounds. */
  function After(g: Generator, h: bv32, n: nat): bv32 {
    if n == 0 then h else g(After(g, h, n - 1)).0
  }

  function Swap(s: seq<Pack>, i: nat, j: nat): (r: seq<Pack>)
    requires i < |s| && j < |s|
    ensures |r| == |s|
  {
    s[i := s[j]][j := s[i]]
  }

  /** Round k from the end: the place |s| - k is swapped with one at or before it. */
  function Round(s: seq<Pack>, k: nat, draw: nat): (r: seq<Pack>)
    requires 0 < k < |s|
    ensures |r| == |s|
  {
    Swap(s, |s| - k, draw % (|s| - k + 1))
  }

  function Shuffled(s: seq<Pack>, g: Generator, h: bv32, n: nat): (r: seq<Pack>)
    requires n < |s|
    ensures |r| == |s|
    decreases n
  {
    if n == 0 then s else Round(Shuffled(s, g, h, n - 1), n, g(After(g, h, n - 1)).1)
  }

  lemma RoundKeeps(s: seq<Pack>, k: nat, draw: nat)
    requires 0 < k < |s|
    ensures multiset(Round(s, k, draw)) == multiset(s)
  {
  }

  /** The shuffle is a permutation, whatever is drawn. */
  lemma {:induction false} ShuffledKeeps(s: seq<Pack>, g: Generator, h: bv32, n: nat)
    requires n < |s|
    ensures multiset(Shuffled(s, g, h, n)) == multiset(s)
    decreases n
  {
    if n > 0 {
      ShuffledKeeps(s, g, h, n - 1);
      RoundKeeps(Shuffled(s, g, h, n - 1), n, g(After(g, h, n - 1)).1);
    }
  }

  function ForSource(packs: seq<Pack>, seed: seq<bv16>): seq<Pack> {
    if |packs| <= 1 then packs else Shuffled(packs, XorShift, SeedOf(seed), |packs| - 1)
  }

  method SwapRound(a: array<Pack>, k: nat, draw: nat)
    requires 0 < k < a.Length
    modifies a
    ensures a[..] == Round(old(a[..]), k, draw)
  {
    var i, j := a.Length - k, draw % (a.Length - k + 1);
    a[i], a[j] := a[j], a[i];
  }

  method ShuffleInPlace(a: array<Pack>, g: Generator, seed: bv32)
    requires a.Length > 1
    modifies a
    ensures a[..] == Shuffled(old(a[..]), g, seed, a.Length - 1)
  {
    var h := seed;
    var i := a.Length - 1;
    ghost var was, k := a[..], 0;
    while i > 0
      invariant 0 <= i && i + k == a.Length - 1
      invariant h == After(g, seed, k)
      invariant a[..] == Shuffled(was, g, seed, k)
    {
      var (next, draw) := g(h);
      SwapRound(a, a.Length - i, draw);
      h, i, k := next, i - 1, k + 1;
    }
  }

  // ---------------------------------------------------------------- order

  datatype Rank = Primary | MustLand | Other

  function RankOf(p: Pack): Rank {
    if IdOf(p) == "B10_hw_curves" || IdOf(p) == "mid.curves" then Primary
    else if p.reason == "edh_b10x_silicon_must_land" || "B10x_silicon_" <= IdOf(p) then MustLand
    else Other
  }

  type Ranking = Pack -> Rank

  function OfRank(ps: seq<Pack>, rank: Ranking, r: Rank): seq<Pack> {
    if ps == [] then []
    else
      var n := |ps| - 1;
      if rank(ps[n]) == r then OfRank(ps[..n], rank, r) + [ps[n]] else OfRank(ps[..n], rank, r)
  }

  /** A stable place by falling priority: behind every pack of the same or a higher one. */
  function InsertByPriority(ps: seq<Pack>, p: Pack): seq<Pack> {
    if ps == [] then [p]
    else
      var n := |ps| - 1;
      if ps[n].priority >= p.priority then ps + [p] else InsertByPriority(ps[..n], p) + [ps[n]]
  }

  function ByPriority(ps: seq<Pack>): seq<Pack> {
    if ps == [] then [] else InsertByPriority(ByPriority(ps[..|ps| - 1]), ps[|ps| - 1])
  }

  function Ordered(ps: seq<Pack>, rank: Ranking): seq<Pack> {
    var primary, land, other := OfRank(ps, rank, Primary), OfRank(ps, rank, MustLand), OfRank(ps, rank, Other);
    if |ps| > 1 && (primary != [] || land != []) then primary + ByPriority(land) + other else ps
  }

  /** The order a kick starts with. */
  function KickList(packs: seq<Pack>, shuffle: bool, seed: seq<bv16>): seq<Pack> {
    Ordered(if shuffle && |packs| > 1 then ForSource(packs, seed) else ByPriority(packs), RankOf)
  }

  function OfPriority(ps: seq<Pack>, v: int): seq<Pack> {
    if ps == [] then []
    else
      var n := |ps| - 1;
      if ps[n].priority == v then OfPriority(ps[..n], v) + [ps[n]] else OfPriority(ps[..n], v)
  }

  ghost predicate Falling(ps: seq<Pack>) {
    forall i, j :: 0 <= i < j < |ps| ==> ps[i].priority >= ps[j].priority
  }

  lemma {:induction false} InsertKeeps(ps: seq<Pack>, p: Pack)
    ensures multiset(InsertByPriority(ps, p)) == multiset(ps) + multiset{p}
    decreases |ps|
  {
    if ps != [] && ps[|ps| - 1].priority < p.priority {
      var n := |ps| - 1;
      InsertKeeps(ps[..n], p);
      assert ps == ps[..n] + [ps[n]];
    }
  }

  lemma {:induction false} InsertAtLeast(ps: seq<Pack>, p: Pack, low: int)
    requires low <= p.priority && forall i :: 0 <= i < |ps| ==> low <= ps[i].priority
    ensures forall i :: 0 <= i < |InsertByPriority(ps, p)| ==> low <= InsertByPriority(ps, p)[i].priority
    decreases |ps|
  {
    if ps != [] && ps[|ps| - 1].priority < p.priority {
      InsertAtLeast(ps[..|ps| - 1], p, low);
    }
  }

  lemma {:induction false} InsertFalls(ps: seq<Pack>, p: Pack)
    requires Falling(ps)
    ensures Falling(InsertByPriority(ps, p))
    decreases |ps|
  {
    if ps != [] && ps[|ps| - 1].priority < p.priority {
      var n := |ps| - 1;
      InsertFalls(ps[..n], p);
      InsertAtLeast(ps[..n], p, ps[n].priority);
    }
  }

  lemma PriorityPush(ps: seq<Pack>, p: Pack, v: int)
    ensures OfPriority(ps + [p], v) == if p.priority == v then OfPriority(ps, v) + [p] else OfPriority(ps, v)
  {
    assert (ps + [p])[..|ps|] == ps;
  }

  function Appended(ps: seq<Pack>, p: Pack, v: int): seq<Pack> {
    if p.priority == v then OfPriority(ps, v) + [p] else OfPriority(ps, v)
  }

  lemma StableUnder(pre: seq<Pack>, ins: seq<Pack>, x: Pack, p: Pack, v: int)
    requires x.priority < p.priority && OfPriority(ins, v) == Appended(pre, p, v)
    ensures OfPriority(ins + [x], v) == Appended(pre + [x], p, v)
  {
    PriorityPush(ins, x, v);
    PriorityPush(pre, x, v);
  }

  lemma StableAlone(p: Pack, v: int)
    ensures OfPriority([p], v) == Appended([], p, v)
  {
    PriorityPush([], p, v);
    assert [] + [p] == [p];
  }

  lemma {:induction false} InsertStable(ps: seq<Pack>, p: Pack, v: int)
    ensures OfPriority(InsertByPriority(ps, p), v) == Appended(ps, p, v)
    decreases |ps|, 0
  {
    if ps == [] {
      StableAlone(p, v);
    } else if ps[|ps| - 1].priority >= p.priority {
      PriorityPush(ps, p, v);
    } else {
      StableBelow(ps[..|ps| - 1], ps[|ps| - 1], p, v);
      Snoc(ps);
    }
  }

  lemma {:induction false} StableBelow(pre: seq<Pack>, x: Pack, p: Pack, v: int)
    requires x.priority < p.priority
    ensures OfPriority(InsertByPriority(pre + [x], p), v) == Appended(pre + [x], p, v)
    decreases |pre|, 1
  {
    InsertStable(pre, p, v);
    assert (pre + [x])[..|pre|] == pre;
    StableUnder(pre, InsertByPriority(pre, p), x, p, v);
  }

  lemma Snoc(ps: seq<Pack>)
    requires ps != []
    ensures ps == ps[..|ps| - 1] + [ps[|ps| - 1]]
  {
  }

  lemma {:induction false} ByPriorityFalls(ps: seq<Pack>)
    ensures Falling(ByPriority(ps))
    decreases |ps|
  {
    if ps != [] {
      ByPriorityFalls(ps[..|ps| - 1]);
      InsertFalls(ByPriority(ps[..|ps| - 1]), ps[|ps| - 1]);
    }
  }

  lemma {:induction false} ByPriorityKeeps(ps: seq<Pack>)
    ensures multiset(ByPriority(ps)) == multiset(ps)
    decreases |ps|
  {
    if ps != [] {
      ByPriorityKeeps(ps[..|ps| - 1]);
      InsertKeeps(ByPriority(ps[..|ps| - 1]), ps[|ps| - 1]);
      Snoc(ps);
    }
  }

  lemma {:induction false} ByPriorityStable(ps: seq<Pack>, v: int)
    ensures OfPriority(ByPriority(ps), v) == OfPriority(ps, v)
    decreases |ps|
  {
    if ps != [] {
      ByPriorityStable(ps[..|ps| - 1], v);
      InsertStable(ByPriority(ps[..|ps| - 1]), ps[|ps| - 1], v);
    }
  }

  lemma {:induction false} RanksPartition(ps: seq<Pack>, rank: Ranking)
    ensures multiset(ps) == multiset(OfRank(ps, rank, Primary)) + multiset(OfRank(ps, rank, MustLand)) + multiset(OfRank(ps, rank, Other))
    decreases |ps|
  {
    if ps != [] {
      var n := |ps| - 1;
      RanksPartition(ps[..n], rank);
      assert ps == ps[..n] + [ps[n]];
    }
  }

  lemma {:induction false} OfRankHasRank(ps: seq<Pack>, rank: Ranking, r: Rank)
    ensures forall i :: 0 <= i < |OfRank(ps, rank, r)| ==> rank(OfRank(ps, rank, r)[i]) == r
    decreases |ps|
  {
    if ps != [] { OfRankHasRank(ps[..|ps| - 1], rank, r); }
  }

  lemma {:induction false} OfRankAcross(a: seq<Pack>, b: seq<Pack>, rank: Ranking, r: Rank)
    ensures OfRank(a + b, rank, r) == OfRank(a, rank, r) + OfRank(b, rank, r)
    decreases |b|
  {
    if b == [] {
      assert a + b == a;
    } else {
      var n := |b| - 1;
      OfRankAcross(a, b[..n], rank, r);
      assert (a + b)[..|a| + n] == a + b[..n];
    }
  }

  lemma {:induction false} AllOrNone(ps: seq<Pack>, rank: Ranking, r: Rank, q: Rank)
    requires forall i :: 0 <= i < |ps| ==> rank(ps[i]) == q
    ensures OfRank(ps, rank, r) == if r == q then ps else []
    decreases |ps|
  {
    if ps != [] {
      var n := |ps| - 1;
      AllOrNone(ps[..n], rank, r, q);
      assert ps == ps[..n] + [ps[n]];
    }
  }

  lemma SortedRank(ps: seq<Pack>, rank: Ranking, q: Rank)
    requires forall i :: 0 <= i < |ps| ==> rank(ps[i]) == q
    ensures forall i :: 0 <= i < |ByPriority(ps)| ==> rank(ByPriority(ps)[i]) == q
  {
    var r := ByPriority(ps);
    ByPriorityKeeps(ps);
    forall i | 0 <= i < |r|
      ensures rank(r[i]) == q
    {
      assert r[i] in multiset(r);
      assert r[i] in ps;
    }
  }

  function Before(r: Rank): nat {
    match r case Primary => 0 case MustLand => 1 case Other => 2
  }

  ghost predicate RanksRise(ps: seq<Pack>, rank: Ranking) {
    forall i, j :: 0 <= i < j < |ps| ==> Before(rank(ps[i])) <= Before(rank(ps[j]))
  }

  ghost predicate AllOfRank(ps: seq<Pack>, rank: Ranking, r: Rank) {
    forall i :: 0 <= i < |ps| ==> rank(ps[i]) == r
  }

  lemma ThreeAcross(a: seq<Pack>, b: seq<Pack>, c: seq<Pack>, rank: Ranking, r: Rank)
    ensures OfRank(a + b + c, rank, r) == OfRank(a, rank, r) + OfRank(b, rank, r) + OfRank(c, rank, r)
  {
    OfRankAcross(a + b, c, rank, r);
    OfRankAcross(a, b, rank, r);
  }

  lemma ThreeParts(a: seq<Pack>, b: seq<Pack>, c: seq<Pack>, rank: Ranking, r: Rank)
    requires AllOfRank(a, rank, Primary) && AllOfRank(b, rank, MustLand) && AllOfRank(c, rank, Other)
    ensures OfRank(a + b + c, rank, r) == if r == Primary then a else if r == MustLand then b else c
  {
    ThreeAcross(a, b, c, rank, r);
    AllOrNone(a, rank, r, Primary);
    AllOrNone(b, rank, r, MustLand);
    AllOrNone(c, rank, r, Other);
  }

  lemma ThreePartsRise(a: seq<Pack>, b: seq<Pack>, c: seq<Pack>, rank: Ranking)
    requires AllOfRank(a, rank, Primary) && AllOfRank(b, rank, MustLand) && AllOfRank(c, rank, Other)
    ensures RanksRise(a + b + c, rank)
  {
    var s := a + b + c;
    assert forall i :: 0 <= i < |s| ==>
      rank(s[i]) == if i < |a| then Primary else if i < |a| + |b| then MustLand else Other;
  }

  lemma {:induction false} OfRankSome(ps: seq<Pack>, rank: Ranking, i: nat)
    requires i < |ps|
    ensures OfRank(ps, rank, rank(ps[i])) != []
    decreases |ps|
  {
    if i < |ps| - 1 {
      OfRankSome(ps[..|ps| - 1], rank, i);
    }
  }

  /** The first test of the reordering: there is something to put in front. */
  predicate Reorders(ps: seq<Pack>, rank: Ranking) {
    |ps| > 1 && (OfRank(ps, rank, Primary) != [] || OfRank(ps, rank, MustLand) != [])
  }

  lemma NotReordered(ps: seq<Pack>, rank: Ranking)
    requires !Reorders(ps, rank)
    ensures RanksRise(ps, rank) && Falling(OfRank(ps, rank, MustLand))
  {
    if |ps| > 1 {
      forall i | 0 <= i < |ps|
        ensures rank(ps[i]) == Other
      {
        OfRankSome(ps, rank, i);
      }
    } else if |ps| == 1 {
      assert ps[..0] == [];
    }
  }

  lemma Parts(ps: seq<Pack>, rank: Ranking)
    ensures AllOfRank(OfRank(ps, rank, Primary), rank, Primary)
    ensures AllOfRank(ByPriority(OfRank(ps, rank, MustLand)), rank, MustLand)
    ensures AllOfRank(OfRank(ps, rank, Other), rank, Other)
  {
    OfRankHasRank(ps, rank, Primary);
    OfRankHasRank(ps, rank, MustLand);
    OfRankHasRank(ps, rank, Other);
    SortedRank(OfRank(ps, rank, MustLand), rank, MustLand);
  }

  /** The reordering moves the primary packs and the must-land packs to the front, and only that. */
  lemma OrderedIsStable(ps: seq<Pack>, rank: Ranking, v: int)
    ensures var r := Ordered(ps, rank);
      && RanksRise(r, rank)
      && OfRank(r, rank, Primary) == OfRank(ps, rank, Primary)
      && OfRank(r, rank, Other) == OfRank(ps, rank, Other)
      && Falling(OfRank(r, rank, MustLand))
      && OfPriority(OfRank(r, rank, MustLand), v) == OfPriority(OfRank(ps, rank, MustLand), v)
  {
    if Reorders(ps, rank) {
      var a, land, c := OfRank(ps, rank, Primary), OfRank(ps, rank, MustLand), OfRank(ps, rank, Other);
      Parts(ps, rank);
      ThreeParts(a, ByPriority(land), c, rank, Primary);
      ThreeParts(a, ByPriority(land), c, rank, MustLand);
      ThreeParts(a, ByPriority(land), c, rank, Other);
      ThreePartsRise(a, ByPriority(land), c, rank);
      ByPriorityFalls(land);
      ByPriorityStable(land, v);
    } else {
      NotReordered(ps, rank);
    }
  }

  lemma OrderedKeeps(ps: seq<Pack>, rank: Ranking)
    ensures multiset(Ordered(ps, rank)) == multiset(ps)
  {
    if Reorders(ps, rank) {
      RanksPartition(ps, rank);
      ByPriorityKeeps(OfRank(ps, rank, MustLand));
    }
  }

  /** No pack is lost or doubled on the way into a kick. */
  lemma KickListKeeps(packs: seq<Pack>, shuffle: bool, seed: seq<bv16>)
    ensures multiset(KickList(packs, shuffle, seed)) == multiset(packs)
  {
    if shuffle && |packs| > 1 {
      ShuffledKeeps(packs, XorShift, SeedOf(seed), |packs| - 1);
      OrderedKeeps(ForSource(packs, seed), RankOf);
    } else {
      ByPriorityKeeps(packs);
      OrderedKeeps(ByPriority(packs), RankOf);
    }
  }

  /** In the list of a kick a primary pack is never behind another one, nor a must-land pack behind an ordinary one. */
  lemma KickListOrder(packs: seq<Pack>, shuffle: bool, seed: seq<bv16>, v: int)
    ensures var base := if shuffle && |packs| > 1 then ForSource(packs, seed) else ByPriority(packs);
      var r := KickList(packs, shuffle, seed);
      && RanksRise(r, RankOf)
      && Falling(OfRank(r, RankOf, MustLand))
      && OfRank(r, RankOf, Primary) == OfRank(base, RankOf, Primary)
      && OfRank(r, RankOf, Other) == OfRank(base, RankOf, Other)
      && OfPriority(OfRank(r, RankOf, MustLand), v) == OfPriority(OfRank(base, RankOf, MustLand), v)
  {
    OrderedIsStable(if shuffle && |packs| > 1 then ForSource(packs, seed) else ByPriority(packs), RankOf, v);
  }

  /** The loop that sorts the packs into the three lists. */
  method Order(ps: seq<Pack>, rank: Ranking) returns (r: seq<Pack>)
    ensures r == Ordered(ps, rank)
  {
    r := ps;
    if |ps| > 1 {
      var primary, land, other := [], [], [];
      for i := 0 to |ps|
        invariant primary == OfRank(ps[..i], rank, Primary)
        invariant land == OfRank(ps[..i], rank, MustLand)
        invariant other == OfRank(ps[..i], rank, Other)
      {
        assert ps[..i + 1][..i] == ps[..i];
        match rank(ps[i])
        case Primary => primary := primary + [ps[i]];
        case MustLand => land := land + [ps[i]];
        case Other => other := other + [ps[i]];
      }
      assert ps[..|ps|] == ps;
      if primary != [] || land != [] {
        r := primary + ByPriority(land) + other;
      }
    }
  }
}
