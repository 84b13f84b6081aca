/**
 The stages of a route plan: one kick for each parallel group in turn, then one for the packs that no group
 lists. A stage without packs starts no kick.
 */
module Staging {
  import opened KickOrder

  predicate Lists(group: seq<string>, id: string) {
    id in group
  }

  predicate ListedAnywhere(groups: seq<seq<string>>, id: string) {
    exists k | 0 <= k < |groups| :: Lists(groups[k], id)
  }

  function InGroup(ps: seq<Pack>, group: seq<string>): seq<Pack> {
    if ps == [] then []
    else
      var n := |ps| - 1;
      if Lists(group, IdOf(ps[n])) then InGroup(ps[..n], group) + [ps[n]] else InGroup(ps[..n], group)
  }

  /** The packs of which neither name is listed. */
  function Unlisted(ps: seq<Pack>, groups: seq<seq<string>>): seq<Pack> {
    if ps == [] then []
    else
      var n := |ps| - 1;
      if ListedAnywhere(groups, ps[n].id) || ListedAnywhere(groups, ps[n].packId) then Unlisted(ps[..n], groups)
      else Unlisted(ps[..n], groups) + [ps[n]]
  }

  function GroupStages(ps: seq<Pack>, groups: seq<seq<string>>): seq<seq<Pack>> {
    if groups == [] then []
    else
      var n := |groups| - 1;
      var sub := InGroup(ps, groups[n]);
      if sub == [] then GroupStages(ps, groups[..n]) else GroupStages(ps, groups[..n]) + [sub]
  }

  /** The lists of packs handed to a kick, in turn; a plan with fewer than two groups has one stage. */
  function Stages(ps: seq<Pack>, groups: seq<seq<string>>): seq<seq<Pack>> {
    if |groups| > 1 then
      var rest := Unlisted(ps, groups);
      if rest == [] then GroupStages(ps, groups) else GroupStages(ps, groups) + [rest]
    else [ps]
  }

  function Flat(stages: seq<seq<Pack>>): seq<Pack> {
    if stages == [] then [] else Flat(stages[..|stages| - 1]) + stages[|stages| - 1]
  }

  // ---------------------------------------------------------------- how often a pack is handed over

  /** The number of groups that list an id. */
  function Groups(groups: seq<seq<string>>, id: string): nat {
    if groups == [] then 0
    else Groups(groups[..|groups| - 1], id) + if Lists(groups[|groups| - 1], id) then 1 else 0
  }

  /** The names a pack is looked up by at the end: id and packId, while the groups take id or else packId. */
  predicate Left(groups: seq<seq<string>>, p: Pack) {
    !ListedAnywhere(groups, p.id) && !ListedAnywhere(groups, p.packId)
  }

  function TimesHanded(groups: seq<seq<string>>, p: Pack): nat {
    if |groups| > 1 then Groups(groups, IdOf(p)) + (if Left(groups, p) then 1 else 0) else 1
  }

  lemma {:induction false} CountInGroup(ps: seq<Pack>, group: seq<string>, p: Pack)
    ensures multiset(InGroup(ps, group))[p] == if Lists(group, IdOf(p)) then multiset(ps)[p] else 0
    decreases |ps|
  {
    if ps != [] {
      CountInGroup(ps[..|ps| - 1], group, p);
      Snoc(ps);
    }
  }

  lemma {:induction false} CountUnlisted(ps: seq<Pack>, groups: seq<seq<string>>, p: Pack)
    ensures multiset(Unlisted(ps, groups))[p] == if Left(groups, p) then multiset(ps)[p] else 0
    decreases |ps|
  {
    if ps != [] {
      CountUnlisted(ps[..|ps| - 1], groups, p);
      Snoc(ps);
    }
  }

  lemma FlatPush(stages: seq<seq<Pack>>, sub: seq<Pack>)
    ensures Flat(stages + [sub]) == Flat(stages) + sub
  {
    assert (stages + [sub])[..|stages|] == stages;
  }

  lemma {:induction false} CountGroupStages(ps: seq<Pack>, groups: seq<seq<string>>, p: Pack)
    ensures multiset(Flat(GroupStages(ps, groups)))[p] == multiset(ps)[p] * Groups(groups, IdOf(p))
    decreases |groups|
  {
    if groups != [] {
      var n := |groups| - 1;
      CountGroupStages(ps, groups[..n], p);
      CountInGroup(ps, groups[n], p);
      FlatPush(GroupStages(ps, groups[..n]), InGroup(ps, groups[n]));
      OneMore(multiset(ps)[p], Groups(groups[..n], IdOf(p)), Lists(groups[n], IdOf(p)));
    }
  }

  lemma OneMore(n: nat, k: nat, more: bool)
    ensures n * (k + if more then 1 else 0) == n * k + if more then n else 0
  {
  }

  lemma StagesWithRest(ps: seq<Pack>, groups: seq<seq<string>>)
    requires |groups| > 1
    ensures Flat(Stages(ps, groups)) == Flat(GroupStages(ps, groups)) + Unlisted(ps, groups)
  {
    FlatPush(GroupStages(ps, groups), Unlisted(ps, groups));
  }

  lemma OneStage(ps: seq<Pack>, groups: seq<seq<string>>)
    requires |groups| <= 1
    ensures Flat(Stages(ps, groups)) == ps
  {
    assert [ps][..0] == [];
    assert Flat([ps]) == [] + ps == ps;
  }

  lemma CountBoth(a: seq<Pack>, b: seq<Pack>, p: Pack, n: nat, k: nat, more: bool, times: nat)
    requires multiset(a)[p] == n * k && multiset(b)[p] == if more then n else 0
    requires times == k + if more then 1 else 0
    ensures multiset(a + b)[p] == n * times
  {
    OneMore(n, k, more);
  }

  /** Over all stages a pack is handed to kicks once for every group that lists it, and at the end if it is left. */
  lemma HandedCount(ps: seq<Pack>, groups: seq<seq<string>>, p: Pack)
    ensures multiset(Flat(Stages(ps, groups)))[p] == multiset(ps)[p] * TimesHanded(groups, p)
  {
    if |groups| > 1 {
      StagesWithRest(ps, groups);
      HandedInStages(ps, groups, p);
    } else {
      OneStage(ps, groups);
    }
  }

  lemma HandedInStages(ps: seq<Pack>, groups: seq<seq<string>>, p: Pack)
    requires |groups| > 1
    ensures multiset(Flat(GroupStages(ps, groups)) + Unlisted(ps, groups))[p] == multiset(ps)[p] * TimesHanded(groups, p)
  {
    CountGroupStages(ps, groups, p);
    CountUnlisted(ps, groups, p);
    CountBoth(Flat(GroupStages(ps, groups)), Unlisted(ps, groups), p,
              multiset(ps)[p], Groups(groups, IdOf(p)), Left(groups, p), TimesHanded(groups, p));
  }

  lemma {:induction false} GroupsZeroIff(groups: seq<seq<string>>, id: string)
    ensures Groups(groups, id) == 0 <==> !ListedAnywhere(groups, id)
    decreases |groups|
  {
    if groups != [] {
      var n := |groups| - 1;
      GroupsZeroIff(groups[..n], id);
      assert forall k :: 0 <= k < n ==> groups[..n][k] == groups[k];
      if ListedAnywhere(groups[..n], id) {
        var k :| 0 <= k < n && Lists(groups[..n][k], id);
        assert Lists(groups[k], id);
      }
      if ListedAnywhere(groups, id) {
        var k :| 0 <= k < |groups| && Lists(groups[k], id);
        assert k < n ==> Lists(groups[..n][k], id);
      }
    }
  }

  predicate ListedOnce(groups: seq<seq<string>>, p: Pack) {
    && Groups(groups, IdOf(p)) <= 1
    && (ListedAnywhere(groups, p.packId) || ListedAnywhere(groups, p.id) ==> ListedAnywhere(groups, IdOf(p)))
  }

  lemma OnceIff(groups: seq<seq<string>>, p: Pack)
    requires |groups| > 1
    ensures TimesHanded(groups, p) == 1 <==> ListedOnce(groups, p)
  {
    GroupsZeroIff(groups, IdOf(p));
  }

  lemma CountOnceIff(n: nat, k: nat)
    ensures n * k == n <==> n == 0 || k == 1
  {
    if k > 1 && n > 0 {
      assert n * k == n + n * (k - 1);
    }
  }

  /**
   Every runnable pack is handed over exactly once if and only if each is listed by one group at most, and
   none is listed by its packId alone while it has an id of its own.
   */
  lemma EachHandedOnceIff(ps: seq<Pack>, groups: seq<seq<string>>)
    requires |groups| > 1
    ensures multiset(Flat(Stages(ps, groups))) == multiset(ps) <==> forall p <- ps :: ListedOnce(groups, p)
  {
    var handed := multiset(Flat(Stages(ps, groups)));
    forall p
      ensures handed[p] == multiset(ps)[p] <==> p !in ps || ListedOnce(groups, p)
    {
      HandedCount(ps, groups, p);
      CountOnceIff(multiset(ps)[p], TimesHanded(groups, p));
      OnceIff(groups, p);
      assert p in ps <==> p in multiset(ps);
    }
    if forall p <- ps :: ListedOnce(groups, p) {
      assert forall p :: handed[p] == multiset(ps)[p];
    }
  }

  /** A pack that only its packId is listed for, while it has an id of its own, is never handed over. */
  lemma ListedByOtherNameIsLost(ps: seq<Pack>, groups: seq<seq<string>>, p: Pack)
    requires |groups| > 1 && p.id != "" && !ListedAnywhere(groups, p.id) && ListedAnywhere(groups, p.packId)
    ensures p !in Flat(Stages(ps, groups))
  {
    NeverHanded(groups, p);
    HandedCount(ps, groups, p);
    NotAmong(Flat(Stages(ps, groups)), p, multiset(ps)[p], TimesHanded(groups, p));
  }

  lemma NeverHanded(groups: seq<seq<string>>, p: Pack)
    requires |groups| > 1 && p.id != "" && !ListedAnywhere(groups, p.id) && ListedAnywhere(groups, p.packId)
    ensures TimesHanded(groups, p) == 0
  {
    GroupsZeroIff(groups, p.id);
  }

  lemma NotAmong(s: seq<Pack>, p: Pack, n: nat, times: nat)
    requires multiset(s)[p] == n * times && times == 0
    ensures p !in s
  {
    assert p in s <==> p in multiset(s);
  }

  /** One kick after the other, each with the runnable packs of its group. */
  method Plan(ps: seq<Pack>, groups: seq<seq<string>>) returns (stages: seq<seq<Pack>>)
    ensures stages == Stages(ps, groups)
  {
    if |groups| <= 1 {
      return [ps];
    }
    stages := [];
    for k := 0 to |groups|
      invariant stages == GroupStages(ps, groups[..k])
    {
      assert groups[..k + 1][..k] == groups[..k];
      var subset := InGroup(ps, groups[k]);
      if subset != [] {
        stages := stages + [subset];
      }
    }
    assert groups[..|groups|] == groups;
    var rest := Unlisted(ps, groups);
    if rest != [] {
      stages := stages + [rest];
    }
  }
}
