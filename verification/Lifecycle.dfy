/**
 The failure budget of the probe lifecycle: a rolling window of failures that puts the ordinary batches to
 rest when it fills up, class-wide rests for interaction and deepen batches, and the enqueue gate that reads
 all three. The clock is an input of each call.
 */
module Lifecycle {
  import opened SlidingWindow

  /** The part of the policy the budget reads; the server publishes positive numbers only. */
  datatype Policy = Policy(budget: nat, window: int, rpaQuiet: int, deepenQuiet: int) {
    ghost predicate Valid() {
      budget > 0 && window > 0 && rpaQuiet > 0 && deepenQuiet > 0
    }
  }

  datatype State = IdleCool | NeedProbe | Probing | RetryBackoff | FailedQuiet | CompleteCool

  datatype Life = Life(fails: seq<int>, state: State, quietUntil: int, rpaQuietUntil: int, deepenQuietUntil: int)

  datatype Verdict = Verdict(overBudget: bool, failCount: nat, rpaQuiet: bool, soft: bool)

  // ---------------------------------------------------------------- batches and reasons

  function LowerChar(c: char): char {
    if 'A' <= c <= 'Z' then ((c as int) + 32) as char else c
  }

  /** A case-insensitive search for a lower-case word. */
  predicate Mentions(s: string, word: string) {
    exists i | 0 <= i <= |s| - |word| :: MatchAt(s, word, i)
  }

  predicate MatchAt(s: string, word: string, i: nat)
    requires i + |word| <= |s|
  {
    forall k | 0 <= k < |word| :: LowerChar(s[i + k]) == word[k]
  }

  const HARD_IDS: seq<string> := [
    "B10_hw_curves", "B0_bootstrap", "B2_hardware", "B3_system", "B1_conflict", "B12_anti_camouflage",
    "B8_gateway", "B8_gateway_early", "B7_sandbox", "mid.curves"
  ]

  predicate IsHard(id: string) {
    id != "" && !("B10x_" <= id) && id in HARD_IDS
  }

  predicate IsDeepen(id: string) {
    "B10x_" <= id || id == "B15_cross_curves"
  }

  predicate IsRpa(id: string) {
    id == "B11_interaction" || "B11_" <= id || id == "rpa.interaction"
  }

  predicate IsSecondary(id: string) {
    id == "B47_sab_clock" || id == "B18_webgpu" || id == "B46_audio_deep" || id == "B10x_silicon_deep"
  }

  predicate IsTiming(id: string) {
    || id == "B47_sab_clock" || id == "B34_cpu_cache_ladder" || id == "B22_gpu_timer"
    || id == "B37_thermal_drift_lite" || id == "B42_thermal_drift_full"
    || Mentions(id, "timing") || Mentions(id, "thermal") || Mentions(id, "sab_clock")
    || Mentions(id, "cache_ladder") || Mentions(id, "eu_timing")
  }

  /** Failures that do not burn the budget. */
  predicate IsSoft(why: string) {
    && (|| Mentions(why, "upload_timeout_abort") || Mentions(why, "timeout") || Mentions(why, "pagehide")
        || Mentions(why, "halt") || Mentions(why, "abort") || Mentions(why, "network"))
    && !Mentions(why, "attempts_exhausted")
  }

  // ---------------------------------------------------------------- the operations

  /** Three clock reads of one call: when it prunes, when it records, when it decides. */
  datatype Clock = Clock(prune: int, push: int, decide: int) {
    predicate Valid() { prune <= push <= decide }
  }

  function RestClasses(p: Policy, l: Life, id: string, why: string, now: int): Life {
    var rpa := if why == "attempts_exhausted" && IsRpa(id) then now + p.rpaQuiet else l.rpaQuietUntil;
    var deepen :=
      if (why == "attempts_exhausted" || Mentions(why, "network")) && IsDeepen(id) then now + p.deepenQuiet
      else l.deepenQuietUntil;
    l.(rpaQuietUntil := rpa, deepenQuietUntil := deepen)
  }

  function RecordFail(p: Policy, l: Life, id: string, why: string, at: Clock): (Life, Verdict) {
    var kept := Recent(l.fails, at.prune, p.window);
    var fails := if IsSoft(why) then kept else kept + [at.push];
    var rested := RestClasses(p, l.(fails := fails), id, why, at.decide);
    var over := |fails| >= p.budget;
    var after :=
      if over then rested.(state := FailedQuiet, quietUntil := at.decide + p.window)
      else if !IsSoft(why) then rested.(state := RetryBackoff)
      else rested;
    (after, Verdict(over, |fails|, at.decide < after.rpaQuietUntil, IsSoft(why)))
  }

  function SoftQuiet(l: Life, now: int): (Life, bool) {
    if l.state != FailedQuiet then (l, false)
    else if now < l.quietUntil then (l, true)
    else (l.(state := NeedProbe, quietUntil := 0, fails := []), false)
  }

  function RpaQuiet(l: Life, now: int): (Life, bool) {
    if l.rpaQuietUntil == 0 then (l, false)
    else if now < l.rpaQuietUntil then (l, true)
    else (l.(rpaQuietUntil := 0), false)
  }

  function DeepenQuiet(l: Life, now: int): (Life, bool) {
    if l.deepenQuietUntil == 0 then (l, false)
    else if now < l.deepenQuietUntil then (l, true)
    else (l.(deepenQuietUntil := 0), false)
  }

  /** calm tells that the device is not under serious or critical pressure. */
  function AllowEnqueue(l: Life, id: string, calm: bool, now: int): (Life, bool) {
    if IsSecondary(id) then (l, true)
    else
      var (l1, rpa) := if IsRpa(id) then RpaQuiet(l, now) else (l, false);
      if rpa then (l1, false)
      else if IsTiming(id) && !calm then (l1, false)
      else
        var (l2, deepen) := if IsDeepen(id) then DeepenQuiet(l1, now) else (l1, false);
        if deepen then (l2, false)
        else
          var (l3, quiet) := SoftQuiet(l2, now);
          (l3, !(quiet && !IsHard(id) && !IsDeepen(id)))
  }

  function MarkProbing(l: Life): Life {
    if l.state != CompleteCool && l.state != IdleCool then l.(state := Probing) else l
  }

  function MarkCool(l: Life): Life {
    l.(state := CompleteCool)
  }

  function MarkNeedProbe(l: Life): Life {
    l.(state := NeedProbe, quietUntil := 0)
  }

  function Initial(): Life {
    Life([], NeedProbe, 0, 0, 0)
  }

  /** The script's variables, updated in place. */
  class Tracker {
    const policy: Policy
    var failTimes: seq<int>
    var state: State
    var quietUntil: int
    var rpaQuietUntil: int
    var deepenQuietUntil: int

    constructor (policy: Policy)
      ensures this.policy == policy && Value() == Initial()
    {
      this.policy := policy;
      failTimes, state, quietUntil, rpaQuietUntil, deepenQuietUntil := [], NeedProbe, 0, 0, 0;
    }

    function Value(): Life
      reads this
    {
      Life(failTimes, state, quietUntil, rpaQuietUntil, deepenQuietUntil)
    }

    method PruneFails(now: int)
      modifies this`failTimes
      ensures failTimes == Recent(old(failTimes), now, policy.window)
    {
      failTimes := Prune(failTimes, now, policy.window);
    }

    method Rest(id: string, why: string, now: int)
      modifies this`rpaQuietUntil, this`deepenQuietUntil
      ensures Value() == RestClasses(policy, old(Value()), id, why, now)
    {
      if why == "attempts_exhausted" && IsRpa(id) {
        rpaQuietUntil := now + policy.rpaQuiet;
      }
      if (why == "attempts_exhausted" || Mentions(why, "network")) && IsDeepen(id) {
        deepenQuietUntil := now + policy.deepenQuiet;
      }
    }

    method Fail(id: string, why: string, at: Clock) returns (v: Verdict)
      modifies this
      ensures (Value(), v) == RecordFail(policy, old(Value()), id, why, at)
    {
      PruneFails(at.prune);
      var soft := IsSoft(why);
      if !soft {
        failTimes := failTimes + [at.push];
      }
      Rest(id, why, at.decide);
      var over := |failTimes| >= policy.budget;
      if over {
        state := FailedQuiet;
        quietUntil := at.decide + policy.window;
      } else if !soft {
        state := RetryBackoff;
      }
      v := Verdict(over, |failTimes|, at.decide < rpaQuietUntil, soft);
    }

    method SoftQuietActive(now: int) returns (quiet: bool)
      modifies this
      ensures (Value(), quiet) == SoftQuiet(old(Value()), now)
    {
      if state == FailedQuiet && now < quietUntil {
        return true;
      }
      if state == FailedQuiet && now >= quietUntil {
        state, quietUntil, failTimes := NeedProbe, 0, [];
      }
      return false;
    }

    method RpaQuietActive(now: int) returns (quiet: bool)
      modifies this
      ensures (Value(), quiet) == RpaQuiet(old(Value()), now)
    {
      if rpaQuietUntil != 0 && now < rpaQuietUntil {
        return true;
      }
      if rpaQuietUntil != 0 && now >= rpaQuietUntil {
        rpaQuietUntil := 0;
      }
      return false;
    }

    method DeepenQuietActive(now: int) returns (quiet: bool)
      modifies this
      ensures (Value(), quiet) == DeepenQuiet(old(Value()), now)
    {
      if deepenQuietUntil != 0 && now < deepenQuietUntil {
        return true;
      }
      if deepenQuietUntil != 0 && now >= deepenQuietUntil {
        deepenQuietUntil := 0;
      }
      return false;
    }

    method Allow(id: string, calm: bool, now: int) returns (ok: bool)
      modifies this
      ensures (Value(), ok) == AllowEnqueue(old(Value()), id, calm, now)
    {
      if IsSecondary(id) {
        return true;
      }
      if IsRpa(id) {
        var rpa := RpaQuietActive(now);
        if rpa {
          return false;
        }
      }
      if IsTiming(id) && !calm {
        return false;
      }
      if IsDeepen(id) {
        var deepen := DeepenQuietActive(now);
        if deepen {
          return false;
        }
      }
      var quiet := SoftQuietActive(now);
      if quiet && !IsHard(id) && !IsDeepen(id) {
        return false;
      }
      return true;
    }
  }

  // ---------------------------------------------------------------- hard batches

  lemma NoMention(s: string, word: string, k: nat)
    requires k < |word| && forall i :: 0 <= i < |s| ==> LowerChar(s[i]) != word[k]
    ensures !Mentions(s, word)
  {
    forall i | 0 <= i <= |s| - |word|
      ensures !MatchAt(s, word, i)
    {
      assert LowerChar(s[i + k]) != word[k];
    }
  }

  lemma NoMentionPair(s: string, word: string, k: nat)
    requires k + 1 < |word|
    requires forall i :: 0 <= i < |s| - 1 ==> !(LowerChar(s[i]) == word[k] && LowerChar(s[i + 1]) == word[k + 1])
    ensures !Mentions(s, word)
  {
    forall i | 0 <= i <= |s| - |word|
      ensures !MatchAt(s, word, i)
    {
      assert s[i + k + 1] == s[i + (k + 1)];
      assert !(LowerChar(s[i + k]) == word[k] && LowerChar(s[i + (k + 1)]) == word[k + 1]);
    }
  }

  // No hard id has a k. Two have an h, one of them without c and m, the other without a, c and m. Three have a
  // g: the gateways have no i, and the camouflage one has no i behind its m.

  lemma HardNoThermal(id: string)
    requires id in HARD_IDS
    ensures !Mentions(id, "thermal")
  {
    if id == "B2_hardware" || id == "B10_hw_curves" {
      NoMention(id, "thermal", 4);
    } else {
      NoMention(id, "thermal", 1);
    }
  }

  lemma HardNoClock(id: string)
    requires id in HARD_IDS
    ensures !Mentions(id, "sab_clock")
  {
    NoMention(id, "sab_clock", 8);
  }

  lemma HardNoLadder(id: string)
    requires id in HARD_IDS
    ensures !Mentions(id, "cache_ladder")
  {
    if id == "B2_hardware" {
      NoMention(id, "cache_ladder", 0);
    } else if id == "B10_hw_curves" {
      NoMention(id, "cache_ladder", 1);
    } else {
      NoMention(id, "cache_ladder", 3);
    }
  }

  lemma HardNoTiming(id: string)
    requires id in HARD_IDS
    ensures !Mentions(id, "timing") && !Mentions(id, "eu_timing")
  {
    if id == "B12_anti_camouflage" {
      NoMentionPair(id, "timing", 2);
      NoMentionPair(id, "eu_timing", 5);
    } else if id == "B8_gateway" || id == "B8_gateway_early" {
      NoMention(id, "timing", 1);
      NoMention(id, "eu_timing", 4);
    } else {
      NoMention(id, "timing", 5);
      NoMention(id, "eu_timing", 8);
    }
  }

  lemma HardStart(id: string)
    requires id in HARD_IDS
    ensures |id| > 2 && (id[2] == '0' || id[2] == '_' || id[2] == 'd' || (id[1] == '1' && id[2] == '2'))
  {
  }

  lemma HardIsOrdinary(id: string)
    requires IsHard(id)
    ensures !IsTiming(id) && !IsRpa(id) && !IsDeepen(id) && !IsSecondary(id)
  {
    HardNoThermal(id);
    HardNoClock(id);
    HardNoLadder(id);
    HardNoTiming(id);
    HardStart(id);
  }

  /** Whatever has happened, a hard batch may be enqueued. */
  lemma HardAlwaysAllowed(l: Life, id: string, calm: bool, now: int)
    requires IsHard(id)
    ensures AllowEnqueue(l, id, calm, now).1
  {
    HardIsOrdinary(id);
  }

  // ---------------------------------------------------------------- runs

  /** The budget with the failures that counted since it was last reset, and when it last pruned. */
  datatype World = World(l: Life, counted: seq<int>, pruned: int, now: int)

  datatype Event =
    | Failed(id: string, why: string, at: Clock)
    | Asked(id: string, calm: bool, when: int)
    | Probe
    | Cool
    | Need

  function Step(p: Policy, w: World, e: Event): World {
    match e
    case Failed(id, why, at) =>
      World(RecordFail(p, w.l, id, why, at).0, if IsSoft(why) then w.counted else w.counted + [at.push],
            at.prune, at.decide)
    case Asked(id, calm, at) =>
      var l := AllowEnqueue(w.l, id, calm, at).0;
      World(l, if w.l.state == FailedQuiet && l.state != FailedQuiet then [] else w.counted, w.pruned, at)
    case Probe => w.(l := MarkProbing(w.l))
    case Cool => w.(l := MarkCool(w.l))
    case Need => w.(l := MarkNeedProbe(w.l))
  }

  ghost predicate InOrder(w: World, e: Event) {
    match e
    case Failed(_, _, at) => w.now <= at.prune && at.Valid()
    case Asked(_, _, at) => w.now <= at
    case _ => true
  }

  ghost predicate Reaches(p: Policy, w: World, es: seq<Event>, v: World)
    decreases |es|
  {
    if es == [] then v == w else InOrder(w, es[0]) && Reaches(p, Step(p, w, es[0]), es[1..], v)
  }

  ghost predicate Inv(p: Policy, w: World) {
    && w.l.fails == Recent(w.counted, w.pruned, p.window)
    && w.pruned <= w.now
    && forall i :: 0 <= i < |w.counted| ==> w.counted[i] <= w.now
  }

  function Start(now: int): World {
    World(Initial(), [], now, now)
  }

  lemma SoftQuietTouches(l: Life, now: int)
    ensures var l1 := SoftQuiet(l, now).0;
      || (l1.state == l.state && l1.fails == l.fails && l1.quietUntil == l.quietUntil)
      || (l.state == FailedQuiet && l.quietUntil <= now && l1.state == NeedProbe && l1.fails == [])
  {
  }

  lemma ClassQuietTouches(l: Life, now: int)
    ensures RpaQuiet(l, now).0 == l.(rpaQuietUntil := RpaQuiet(l, now).0.rpaQuietUntil)
    ensures DeepenQuiet(l, now).0 == l.(deepenQuietUntil := DeepenQuiet(l, now).0.deepenQuietUntil)
  {
  }

  lemma AllowTouches(l: Life, id: string, calm: bool, now: int)
    ensures var l1 := AllowEnqueue(l, id, calm, now).0;
      || (l1.state == l.state && l1.fails == l.fails && l1.quietUntil == l.quietUntil)
      || (l.state == FailedQuiet && l.quietUntil <= now && l1.state == NeedProbe && l1.fails == [])
  {
    var l1 := if IsRpa(id) then RpaQuiet(l, now).0 else l;
    var l2 := if IsDeepen(id) then DeepenQuiet(l1, now).0 else l1;
    ClassQuietTouches(l, now);
    ClassQuietTouches(l1, now);
    SoftQuietTouches(l2, now);
  }

  lemma FailTouches(p: Policy, l: Life, id: string, why: string, at: Clock)
    ensures var (l1, v) := RecordFail(p, l, id, why, at);
      var kept := Recent(l.fails, at.prune, p.window);
      && l1.fails == (if IsSoft(why) then kept else kept + [at.push])
      && (v.overBudget <==> |l1.fails| >= p.budget)
      && (v.overBudget ==> l1.state == FailedQuiet && l1.quietUntil == at.decide + p.window)
      && (!v.overBudget ==> l1.quietUntil == l.quietUntil)
      && (!v.overBudget ==> l1.state == if IsSoft(why) then l.state else RetryBackoff)
  {
  }

  lemma StepKeepsInv(p: Policy, w: World, e: Event)
    requires p.Valid() && Inv(p, w) && InOrder(w, e)
    ensures Inv(p, Step(p, w, e))
  {
    match e
    case Failed(id, why, at) =>
      FailTouches(p, w.l, id, why, at);
      RecentAgain(w.counted, w.pruned, at.prune, p.window);
      RecentPush(w.counted, at.push, at.prune, p.window);
    case Asked(id, calm, at) =>
      AllowTouches(w.l, id, calm, at);
    case _ =>
  }

  lemma {:induction false} RunKeepsInv(p: Policy, w: World, es: seq<Event>, v: World)
    requires p.Valid() && Inv(p, w) && Reaches(p, w, es, v)
    ensures Inv(p, v)
    decreases |es|
  {
    if es != [] {
      StepKeepsInv(p, w, es[0]);
      RunKeepsInv(p, Step(p, w, es[0]), es[1..], v);
    }
  }

  /** The failures in the window that ends at the pruning, the present one included if it counts. */
  function Burned(p: Policy, w: World, why: string, at: Clock): nat {
    Between(w.counted, at.prune - p.window + 1, at.prune + 1) + if IsSoft(why) then 0 else 1
  }

  lemma {:induction false} OverBudgetAt(p: Policy, w: World, id: string, why: string, at: Clock)
    requires p.Valid() && Inv(p, w) && InOrder(w, Failed(id, why, at))
    ensures RecordFail(p, w.l, id, why, at).1.overBudget <==> Burned(p, w, why, at) >= p.budget
    ensures RecordFail(p, w.l, id, why, at).1.failCount == Burned(p, w, why, at)
    ensures RecordFail(p, w.l, id, why, at).0.state == FailedQuiet
       <==> Burned(p, w, why, at) >= p.budget || (IsSoft(why) && w.l.state == FailedQuiet)
  {
    FailTouches(p, w.l, id, why, at);
    RecentAgain(w.counted, w.pruned, at.prune, p.window);
    RecentCounts(w.counted, at.prune, p.window, at.prune + 1);
  }

  /**
   The pruned list answers for the whole history: in every reachable state a failure puts the ordinary
   batches to rest exactly when enough failures since the last reset lie in the window.
   */
  lemma {:induction false} OverBudgetIff(p: Policy, start: int, es: seq<Event>, w: World, id: string, why: string, at: Clock)
    requires p.Valid() && Reaches(p, Start(start), es, w) && InOrder(w, Failed(id, why, at))
    ensures RecordFail(p, w.l, id, why, at).1.overBudget <==> Burned(p, w, why, at) >= p.budget
    ensures RecordFail(p, w.l, id, why, at).1.failCount == Burned(p, w, why, at)
    ensures RecordFail(p, w.l, id, why, at).0.state == FailedQuiet
       <==> Burned(p, w, why, at) >= p.budget || (IsSoft(why) && w.l.state == FailedQuiet)
  {
    RunKeepsInv(p, Start(start), es, w);
    OverBudgetAt(p, w, id, why, at);
  }

  predicate Ordinary(id: string) {
    !IsHard(id) && !IsDeepen(id) && !IsRpa(id) && !IsSecondary(id) && !IsTiming(id)
  }

  predicate Resting(l: Life, now: int) {
    l.state == FailedQuiet && now < l.quietUntil
  }

  /** An ordinary batch is refused exactly while the budget rests. */
  lemma OrdinaryRefusedIffResting(l: Life, id: string, calm: bool, now: int)
    requires Ordinary(id)
    ensures AllowEnqueue(l, id, calm, now).1 <==> !Resting(l, now)
  {
  }

  function TimeOf(w: World, e: Event): int {
    match e
    case Failed(_, _, at) => at.decide
    case Asked(_, _, when) => when
    case _ => w.now
  }

  /** A mark of a session (opened, cool, needed again), or a failure that counts while the window holds fewer than the budget. */
  predicate EndsRest(p: Policy, w: World, e: Event) {
    match e
    case Failed(_, why, at) => !IsSoft(why) && Burned(p, w, why, at) < p.budget
    case Asked(_, _, _) => false
    case _ => true
  }

  lemma {:induction false} RestStepIff(p: Policy, w: World, e: Event)
    requires p.Valid() && Inv(p, w) && InOrder(w, e) && Resting(w.l, TimeOf(w, e))
    ensures Resting(Step(p, w, e).l, TimeOf(w, e)) <==> !EndsRest(p, w, e)
  {
    match e
    case Failed(id, why, at) =>
      OverBudgetAt(p, w, id, why, at);
      FailTouches(p, w.l, id, why, at);
    case Asked(id, calm, when) =>
      AllowTouches(w.l, id, calm, when);
    case _ =>
  }

  /**
   Any event of a run: before quietUntil, the rest goes on after it if and only if it is neither a mark of a session
   nor a failure that counts when the window has slid so far that the budget is no longer exceeded.
   */
  lemma {:induction false} RestGoesOnIff(p: Policy, start: int, es: seq<Event>, w: World, e: Event)
    requires p.Valid() && Reaches(p, Start(start), es, w) && InOrder(w, e) && Resting(w.l, TimeOf(w, e))
    ensures Resting(Step(p, w, e).l, TimeOf(w, e)) <==> !EndsRest(p, w, e)
  {
    RunKeepsInv(p, Start(start), es, w);
    RestStepIff(p, w, e);
  }

  /** The rest holds when each of the events comes, and after it. */
  predicate RestLasts(p: Policy, w: World, es: seq<Event>)
    decreases |es|
  {
    es == []
    || (&& Resting(w.l, TimeOf(w, es[0])) && Resting(Step(p, w, es[0]).l, TimeOf(w, es[0]))
        && RestLasts(p, Step(p, w, es[0]), es[1..]))
  }

  /** Every event comes before quietUntil and ends no rest. */
  predicate NothingEndsRest(p: Policy, w: World, es: seq<Event>)
    decreases |es|
  {
    es == [] || (TimeOf(w, es[0]) < w.l.quietUntil && !EndsRest(p, w, es[0]) && NothingEndsRest(p, Step(p, w, es[0]), es[1..]))
  }

  lemma {:induction false} RestLastsFrom(p: Policy, w: World, es: seq<Event>, v: World)
    requires p.Valid() && Inv(p, w) && Reaches(p, w, es, v) && Resting(w.l, w.now)
    ensures RestLasts(p, w, es) <==> NothingEndsRest(p, w, es)
    decreases |es|
  {
    if es != [] && Resting(w.l, TimeOf(w, es[0])) {
      RestStepIff(p, w, es[0]);
      if !EndsRest(p, w, es[0]) {
        StepKeepsInv(p, w, es[0]);
        RestLastsFrom(p, Step(p, w, es[0]), es[1..], v);
      }
    }
  }

  /** A rest that a run has begun lasts through any further run if and only if nothing in it ends a rest. */
  lemma {:induction false} RestLastsIff(p: Policy, start: int, before: seq<Event>, w: World, es: seq<Event>, v: World)
    requires p.Valid() && Reaches(p, Start(start), before, w) && Resting(w.l, w.now) && Reaches(p, w, es, v)
    ensures RestLasts(p, w, es) <==> NothingEndsRest(p, w, es)
  {
    RunKeepsInv(p, Start(start), before, w);
    RestLastsFrom(p, w, es, v);
  }

  function Now(t: int): Clock {
    Clock(t, t, t)
  }

  lemma Recent3(now: int)
    requires now == 1 || now == 9 || now == 12
    ensures now == 1 ==> Recent([0], now, 10) == [0]
    ensures now == 9 ==> Recent([0, 1], now, 10) == [0, 1]
    ensures now == 12 ==> Recent([0, 1, 9], now, 10) == [9]
  {
    assert [0, 1, 9][..2] == [0, 1] && [0, 1][..1] == [0] && [0][..0] == [];
    assert Recent([], now, 10) == [];
    assert Recent([0], now, 10) == if now < 10 then [0] else [];
    assert Recent([0, 1], now, 10) == if now < 10 then [0, 1] else [];
  }

  lemma FailStep(p: Policy, w: World, id: string, why: string, t: int)
    requires !IsSoft(why) && why != "attempts_exhausted" && Ordinary(id)
    ensures var fails := Recent(w.l.fails, t, p.window) + [t];
      var over := |fails| >= p.budget;
      Step(p, w, Failed(id, why, Now(t)))
      == World(Life(fails, if over then FailedQuiet else RetryBackoff, if over then t + p.window else w.l.quietUntil,
                    w.l.rpaQuietUntil, w.l.deepenQuietUntil), w.counted + [t], t, t)
  {
  }

  const SMALL := Policy(3, 10, 1, 1)

  function Rest1(): World { World(Life([0], RetryBackoff, 0, 0, 0), [0], 0, 0) }
  function Rest2(): World { World(Life([0, 1], RetryBackoff, 0, 0, 0), [0, 1], 1, 1) }
  function Rest3(): World { World(Life([0, 1, 9], FailedQuiet, 19, 0, 0), [0, 1, 9], 9, 9) }
  function Rest4(): World { World(Life([9, 12], RetryBackoff, 19, 0, 0), [0, 1, 9, 12], 12, 12) }

  lemma RestBegins(id: string, why: string)
    requires !IsSoft(why) && why != "attempts_exhausted" && Ordinary(id)
    ensures Step(SMALL, Start(0), Failed(id, why, Now(0))) == Rest1()
    ensures Step(SMALL, Rest1(), Failed(id, why, Now(1))) == Rest2()
  {
    FailStep(SMALL, Start(0), id, why, 0);
    assert Recent([], 0, 10) + [0] == [0] && [] + [0] == [0];
    FailStep(SMALL, Rest1(), id, why, 1);
    Recent3(1);
  }

  lemma RestEnds(id: string, why: string)
    requires !IsSoft(why) && why != "attempts_exhausted" && Ordinary(id)
    ensures Step(SMALL, Rest2(), Failed(id, why, Now(9))) == Rest3()
    ensures Step(SMALL, Rest3(), Failed(id, why, Now(12))) == Rest4()
  {
    FailStep(SMALL, Rest2(), id, why, 9);
    Recent3(9);
    FailStep(SMALL, Rest3(), id, why, 12);
    Recent3(12);
  }

  lemma FourSteps(p: Policy, w0: World, e0: Event, w1: World, e1: Event, w2: World, e2: Event, w3: World, e3: Event, w4: World)
    requires InOrder(w0, e0) && Step(p, w0, e0) == w1 && InOrder(w1, e1) && Step(p, w1, e1) == w2
    requires InOrder(w2, e2) && Step(p, w2, e2) == w3 && InOrder(w3, e3) && Step(p, w3, e3) == w4
    ensures Reaches(p, w0, [e0, e1, e2, e3], w4)
  {
    assert [e3][1..] == [] && Reaches(p, w3, [e3], w4);
    assert [e2, e3][1..] == [e3] && Reaches(p, w2, [e2, e3], w4);
    assert [e1, e2, e3][1..] == [e2, e3] && Reaches(p, w1, [e1, e2, e3], w4);
    assert [e0, e1, e2, e3][1..] == [e1, e2, e3];
  }

  /**
   Three failures at 0, 1 and 9 under a budget of three in ten put the ordinary batches to rest until 19; one
   more failure at 12 lets them in again seven ticks early.
   */
  lemma RestCutShort(id: string, why: string, other: string)
    requires !IsSoft(why) && why != "attempts_exhausted" && Ordinary(id) && Ordinary(other)
    ensures exists es, w :: Reaches(SMALL, Start(0), es, w) && w.l.quietUntil == 19 && w.now == 12
                         && w.counted == [0, 1, 9, 12] && AllowEnqueue(w.l, other, true, 12).1
  {
    RestBegins(id, why);
    RestEnds(id, why);
    var e0, e1 := Failed(id, why, Now(0)), Failed(id, why, Now(1));
    var e2, e3 := Failed(id, why, Now(9)), Failed(id, why, Now(12));
    FourSteps(SMALL, Start(0), e0, Rest1(), e1, Rest2(), e2, Rest3(), e3, Rest4());
    OrdinaryRefusedIffResting(Rest4().l, other, true, 12);
  }
}
