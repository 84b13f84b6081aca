/**
 The governor of WebGL contexts: a short list of live contexts, one shared context per type for canvases
 outside the document, and a release that really loses contexts only while hard losing is allowed. Contexts
 are numbers in the order of their creation; which of them the browser reports lost is part of the state.
 */
module GlGovernor {

  datatype Option<+T> = None | Some(value: T)

  datatype Kind = Webgl | Webgl2

  type Context = nat

  /** The shared context of each type, if there is one. */
  datatype Pool = Pool(webgl: Option<Context>, webgl2: Option<Context>) {
    function Slot(k: Kind): Option<Context> {
      if k == Webgl then webgl else webgl2
    }

    function Put(k: Kind, c: Option<Context>): Pool {
      if k == Webgl then this.(webgl := c) else this.(webgl2 := c)
    }

    function Contexts(): set<Context> {
      (if webgl.Some? then {webgl.value} else {}) + (if webgl2.Some? then {webgl2.value} else {})
    }
  }

  datatype Gov = Gov(
    live: seq<Context>, pool: Pool, allow: bool, maxLive: nat,
    creates: nat, hits: nat, lost: set<Context>, next: Context)

  function Initial(): Gov {
    Gov([], Pool(None, None), false, 2, 0, 0, {}, 0)
  }

  function Alive(cs: seq<Context>, lost: set<Context>): seq<Context> {
    if cs == [] then []
    else
      var n := |cs| - 1;
      if cs[n] in lost then Alive(cs[..n], lost) else Alive(cs[..n], lost) + [cs[n]]
  }

  function AliveSlot(slot: Option<Context>, lost: set<Context>): Option<Context> {
    if slot.Some? && slot.value in lost then None else slot
  }

  function PruneDead(g: Gov): Gov {
    g.(live := Alive(g.live, g.lost),
       pool := Pool(AliveSlot(g.pool.webgl, g.lost), AliveSlot(g.pool.webgl2, g.lost)))
  }

  function Elements(cs: seq<Context>): set<Context> {
    set c | c in cs
  }

  /** Losing a context is a soft clear, which leaves it alive, unless hard losing is allowed. */
  function Lose(g: Gov, cs: set<Context>): Gov {
    if g.allow then g.(lost := g.lost + cs) else g
  }

  /** The oldest live contexts go until n are left. */
  function DropTo(g: Gov, n: nat): Gov {
    if |g.live| <= n then g
    else Lose(g, Elements(g.live[..|g.live| - n])).(live := g.live[|g.live| - n..])
  }

  function ForceCap(g: Gov): Gov {
    PruneDead(DropTo(PruneDead(g), g.maxLive))
  }

  function Track(g: Gov, c: Context): Gov
    requires g.maxLive > 0
  {
    var p := PruneDead(g);
    if c in p.live then p
    else
      var d := DropTo(p, g.maxLive - 1);
      d.(live := d.live + [c])
  }

  function Hit(g: Gov): Gov {
    g.(hits := g.hits + 1)
  }

  function Create(g: Gov, k: Kind): Gov {
    g.(creates := g.creates + 1, pool := g.pool.Put(k, Some(g.next)), next := g.next + 1)
  }

  function Adopt(g: Gov, c: Context): Gov {
    g.(creates := g.creates + 1, next := if c < g.next then g.next else c + 1)
  }

  predicate Shared(g: Gov, k: Kind) {
    g.pool.Slot(k).Some? && g.pool.Slot(k).value !in g.lost
  }

  /** getContext on a canvas outside the document; works tells whether the browser can make a context. */
  function GetShared(g: Gov, k: Kind, works: bool): (Gov, Option<Context>)
    requires g.maxLive > 0
  {
    if Shared(g, k) then (Track(Hit(g), g.pool.Slot(k).value), g.pool.Slot(k))
    else if !works then (ForceCap(g), None)
    else (Track(Create(ForceCap(g), k), g.next), Some(g.next))
  }

  /** getContext on a canvas in the document, for which the browser returns an old context, a new one or none. */
  function GetInPage(g: Gov, native: Option<Context>): Gov
    requires g.maxLive > 0
  {
    if native.None? then ForceCap(g) else Track(Adopt(ForceCap(g), native.value), native.value)
  }

  function HardReleaseAll(g: Gov): Gov {
    var p := PruneDead(g);
    Lose(p, Elements(p.live) + p.pool.Contexts()).(live := [], pool := Pool(None, None))
  }

  /** Leaving the page, or tearing down a hung path: hard losing is allowed for the one release. */
  function ReleaseAllowed(g: Gov, after: bool): Gov {
    HardReleaseAll(g.(allow := true)).(allow := after)
  }

  function SetMaxLive(g: Gov, n: int): Gov {
    ForceCap(g.(maxLive := if n < 1 then 1 else if n > 2 then 2 else n))
  }

  // ---------------------------------------------------------------- the live list

  ghost predicate LiveOk(live: seq<Context>, n: nat, next: Context) {
    && |live| <= n
    && (forall i :: 0 <= i < |live| ==> live[i] < next)
    && (forall i, j :: 0 <= i < j < |live| ==> live[i] != live[j])
  }

  lemma {:induction false} AliveIn(cs: seq<Context>, lost: set<Context>, c: Context)
    ensures c in Alive(cs, lost) <==> c in cs && c !in lost
    decreases |cs|
  {
    if cs != [] {
      var n := |cs| - 1;
      AliveIn(cs[..n], lost, c);
      assert cs == cs[..n] + [cs[n]];
    }
  }

  lemma {:induction false} PushKeeps(live: seq<Context>, n: nat, c: Context, next: Context)
    requires LiveOk(live, n, next) && c !in live && c < next
    ensures LiveOk(live + [c], n + 1, next)
  {
  }

  lemma {:induction false} AliveKeeps(cs: seq<Context>, lost: set<Context>, n: nat, next: Context)
    requires LiveOk(cs, n, next)
    ensures LiveOk(Alive(cs, lost), n, next) && |Alive(cs, lost)| <= |cs|
    decreases |cs|
  {
    if cs != [] {
      var m := |cs| - 1;
      AliveKeeps(cs[..m], lost, m, next);
      AliveIn(cs[..m], lost, cs[m]);
      PushKeeps2(Alive(cs[..m], lost), m, cs[m], next);
    }
  }

  lemma {:induction false} PushKeeps2(live: seq<Context>, n: nat, c: Context, next: Context)
    requires LiveOk(live, n, next) && c < next
    ensures c !in live ==> LiveOk(live + [c], n + 1, next)
  {
  }

  lemma {:induction false} DropToEffect(g: Gov, b: nat, n: nat)
    requires LiveOk(g.live, b, g.next)
    ensures var d := DropTo(g, n);
      && LiveOk(d.live, n, g.next)
      && (g.allow || d.lost == g.lost)
      && d == g.(live := d.live, lost := d.lost)
      && (forall c :: c in d.live ==> c in g.live)
  {
  }

  lemma {:induction false} PruneEffect(g: Gov, b: nat)
    requires LiveOk(g.live, b, g.next)
    ensures var p := PruneDead(g);
      && LiveOk(p.live, b, g.next)
      && p == g.(live := p.live, pool := p.pool)
  {
    AliveKeeps(g.live, g.lost, b, g.next);
  }

  lemma {:induction false} ForceCapEffect(g: Gov, b: nat)
    requires LiveOk(g.live, b, g.next) && !g.allow
    ensures var f := ForceCap(g);
      && LiveOk(f.live, g.maxLive, g.next)
      && f == g.(live := f.live, pool := PruneDead(g).pool)
  {
    PruneEffect(g, b);
    DropToEffect(PruneDead(g), b, g.maxLive);
    PruneEffect(DropTo(PruneDead(g), g.maxLive), g.maxLive);
  }

  lemma {:induction false} TrackEffect(g: Gov, c: Context)
    requires LiveOk(g.live, g.maxLive, g.next) && !g.allow && g.maxLive > 0 && c < g.next
    ensures var t := Track(g, c);
      && LiveOk(t.live, g.maxLive, g.next) && c in t.live
      && t == g.(live := t.live, pool := PruneDead(g).pool)
  {
    PruneEffect(g, g.maxLive);
    var p := PruneDead(g);
    if c !in p.live {
      DropToEffect(p, g.maxLive, g.maxLive - 1);
      PushKeeps(DropTo(p, g.maxLive - 1).live, g.maxLive - 1, c, g.next);
    }
  }

  ghost predicate GovInv(g: Gov) {
    && 1 <= g.maxLive <= 2 && !g.allow
    && LiveOk(g.live, g.maxLive, g.next)
    && (forall c :: c in g.lost ==> c < g.next)
    && (forall k: Kind :: g.pool.Slot(k).Some? ==> g.pool.Slot(k).value < g.next)
  }

  /** What a getContext outside the document does to the pool, the counters and the contexts. */
  lemma {:induction false} GetSharedEffect(g: Gov, k: Kind, works: bool)
    requires GovInv(g)
    ensures var (h, r) := GetShared(g, k, works);
      && LiveOk(h.live, g.maxLive, h.next) && h.lost == g.lost && !h.allow && h.maxLive == g.maxLive
      && (Shared(g, k) ==> r == g.pool.Slot(k) && h.next == g.next && h.hits == g.hits + 1 && h.creates == g.creates)
      && (!Shared(g, k) ==> r == (if works then Some(g.next) else None) && h.hits == g.hits)
      && (!Shared(g, k) && works ==> h.next == g.next + 1 && h.creates == g.creates + 1)
      && (!Shared(g, k) && !works ==> h.next == g.next && h.creates == g.creates)
      && (forall j: Kind :: h.pool.Slot(j)
                         == if j == k && !Shared(g, k) && works then Some(g.next) else AliveSlot(g.pool.Slot(j), g.lost))
      && (r.Some? ==> r.value in h.live)
  {
    if Shared(g, k) {
      TrackEffect(Hit(g), g.pool.Slot(k).value);
    } else {
      ForceCapEffect(g, g.maxLive);
      if works {
        TrackEffect(Create(ForceCap(g), k), g.next);
      }
    }
  }

  lemma {:induction false} GetInPageEffect(g: Gov, native: Option<Context>)
    requires GovInv(g)
    ensures var h := GetInPage(g, native);
      && LiveOk(h.live, g.maxLive, h.next) && h.lost == g.lost && !h.allow && h.maxLive == g.maxLive
      && h.next == (if native.Some? && native.value >= g.next then native.value + 1 else g.next)
      && (forall j: Kind :: h.pool.Slot(j) == AliveSlot(g.pool.Slot(j), g.lost))
      && h.hits == g.hits && h.creates == g.creates + (if native.Some? then 1 else 0)
  {
    ForceCapEffect(g, g.maxLive);
    if native.Some? {
      TrackEffect(Adopt(ForceCap(g), native.value), native.value);
    }
  }

  lemma {:induction false} HardReleaseEffect(g: Gov)
    requires LiveOk(g.live, g.maxLive, g.next)
    ensures var h := HardReleaseAll(g);
      && h.live == [] && h.pool == Pool(None, None)
      && h == g.(live := [], pool := Pool(None, None), lost := h.lost)
      && (!g.allow ==> h.lost == g.lost)
      && (forall c :: g.allow ==> (c in h.lost <==> c in g.lost || c in g.live || c in g.pool.Contexts()))
  {
    forall c
      ensures c in Alive(g.live, g.lost) <==> c in g.live && c !in g.lost
    {
      AliveIn(g.live, g.lost, c);
    }
  }

  // ---------------------------------------------------------------- runs

  /** The governor with every shared context it ever made, and for which type. */
  datatype World = World(g: Gov, made: map<Context, Kind>)

  datatype Event =
    | Detached(kind: Kind, works: bool)
    | InPage(native: Option<Context>)
    | BrowserLoses(contexts: set<Context>)
    | Prune
    | Cap
    | MaxLive(n: int)
    | LeavePage
    | RetryHang
    | ReleaseHard

  function Step(w: World, e: Event): World
    requires w.g.maxLive > 0
  {
    match e
    case Detached(k, works) =>
      var (h, r) := GetShared(w.g, k, works);
      World(h, if r.Some? && !Shared(w.g, k) then w.made[r.value := k] else w.made)
    case InPage(native) => w.(g := GetInPage(w.g, native))
    case BrowserLoses(cs) => w.(g := w.g.(lost := w.g.lost + cs))
    case Prune => w.(g := PruneDead(w.g))
    case Cap => w.(g := ForceCap(w.g))
    case MaxLive(n) => w.(g := SetMaxLive(w.g, n))
    case LeavePage => w.(g := ReleaseAllowed(w.g, false))
    case RetryHang => w.(g := ReleaseAllowed(w.g, w.g.allow))
    case ReleaseHard => w.(g := HardReleaseAll(w.g))
  }

  /** The browser returns contexts that exist or the next one, and loses only contexts that exist. */
  predicate Possible(w: World, e: Event) {
    match e
    case InPage(native) => native.Some? ==> native.value <= w.g.next
    case BrowserLoses(cs) => forall c :: c in cs ==> c < w.g.next
    case _ => true
  }

  ghost predicate Reaches(w: World, es: seq<Event>, v: World)
    decreases |es|
  {
    if es == [] then v == w
    else w.g.maxLive > 0 && Possible(w, es[0]) && Reaches(Step(w, es[0]), es[1..], v)
  }

  /** The contexts that hard releases without permission let go of while they were the living shared ones. */
  function LetGo(w: World, e: Event): set<Context> {
    if e == ReleaseHard && !w.g.allow then w.g.pool.Contexts() - w.g.lost else {}
  }

  /** Every living shared context is the pool's or was let go of; only the latter can be forgotten. */
  ghost predicate Accounted(w: World, gone: set<Context>) {
    && (forall c :: c in w.made ==> c < w.g.next)
    && (forall c :: c in gone ==> c in w.made)
    && (forall c :: c in w.made && c !in w.g.lost ==> w.g.pool.Slot(w.made[c]) == Some(c) || c in gone)
    && (forall k: Kind :: w.g.pool.Slot(k).Some? ==>
          w.g.pool.Slot(k).value in w.made && w.made[w.g.pool.Slot(k).value] == k)
  }

  /** A shared context that is not lost is the one in the pool. */
  ghost predicate Pooled(w: World) {
    Accounted(w, {})
  }

  ghost predicate OneShared(w: World) {
    forall c, d :: c in w.made && d in w.made && w.made[c] == w.made[d] && c !in w.g.lost && d !in w.g.lost ==>
      c == d
  }

  /** Whether any shared context is alive; what a hard release without permission must be called without. */
  predicate AnyShared(g: Gov) {
    Shared(g, Webgl) || Shared(g, Webgl2)
  }

  lemma {:induction false} ReleaseAllowedEffect(g: Gov, after: bool)
    requires GovInv(g) && !after
    ensures var h := ReleaseAllowed(g, after); GovInv(h) && h.pool == Pool(None, None)
    ensures var h := ReleaseAllowed(g, after);
      forall c :: c in h.lost <==> c in g.lost || c in g.live || c in g.pool.Contexts()
    ensures ReleaseAllowed(g, after).next == g.next
  {
    HardReleaseEffect(g.(allow := true));
    assert forall c :: c in g.pool.Contexts() ==>
      g.pool.Slot(Webgl) == Some(c) || g.pool.Slot(Webgl2) == Some(c);
  }

  lemma {:induction false} SetMaxLiveEffect(g: Gov, n: int)
    requires GovInv(g)
    ensures var h := SetMaxLive(g, n);
      GovInv(h) && h.next == g.next && h.lost == g.lost && h.pool == PruneDead(g).pool
  {
    var m := g.(maxLive := if n < 1 then 1 else if n > 2 then 2 else n);
    ForceCapEffect(m, g.maxLive);
    PrunedInv(g, SetMaxLive(g, n));
  }

  lemma {:induction false} PrunedInv(g: Gov, h: Gov)
    requires GovInv(g) && h.pool == PruneDead(g).pool && h.lost == g.lost && h.next == g.next
    requires 1 <= h.maxLive <= 2 && !h.allow && LiveOk(h.live, h.maxLive, h.next)
    ensures GovInv(h)
  {
    assert forall k: Kind :: h.pool.Slot(k) == AliveSlot(g.pool.Slot(k), g.lost);
  }

  lemma {:induction false} StepKeepsGov(w: World, e: Event)
    requires GovInv(w.g) && Possible(w, e)
    ensures GovInv(Step(w, e).g)
  {
    match e
    case Detached(k, works) => GetSharedEffect(w.g, k, works);
    case InPage(native) => GetInPageEffect(w.g, native);
    case BrowserLoses(cs) =>
    case Prune => PruneEffect(w.g, w.g.maxLive);
    case Cap => ForceCapEffect(w.g, w.g.maxLive);
    case MaxLive(n) => SetMaxLiveEffect(w.g, n);
    case LeavePage => ReleaseAllowedEffect(w.g, false);
    case RetryHang => ReleaseAllowedEffect(w.g, w.g.allow);
    case ReleaseHard => HardReleaseEffect(w.g);
  }

  lemma {:induction false} DetachedAccounted(w: World, gone: set<Context>, k: Kind, works: bool)
    requires GovInv(w.g) && Accounted(w, gone)
    ensures Accounted(Step(w, Detached(k, works)), gone)
  {
    GetSharedEffect(w.g, k, works);
  }

  lemma {:induction false} PrunedAccounted(w: World, gone: set<Context>, h: Gov)
    requires GovInv(w.g) && Accounted(w, gone)
    requires h.lost == w.g.lost && h.next >= w.g.next
    requires forall j: Kind :: h.pool.Slot(j) == AliveSlot(w.g.pool.Slot(j), w.g.lost)
    ensures Accounted(w.(g := h), gone)
  {
  }

  lemma {:induction false} ReleaseAllowedAccounted(w: World, gone: set<Context>, after: bool)
    requires GovInv(w.g) && Accounted(w, gone) && !after
    ensures Accounted(w.(g := ReleaseAllowed(w.g, after)), gone)
  {
    ReleaseAllowedEffect(w.g, after);
    PooledIsListed(w.g);
  }

  lemma {:induction false} ReleaseHardAccounted(w: World, gone: set<Context>)
    requires GovInv(w.g) && Accounted(w, gone)
    ensures Accounted(Step(w, ReleaseHard), gone + LetGo(w, ReleaseHard))
  {
    HardReleaseEffect(w.g);
    PooledIsListed(w.g);
  }

  lemma {:induction false} PooledIsListed(g: Gov)
    ensures forall k: Kind, c :: g.pool.Slot(k) == Some(c) ==> c in g.pool.Contexts()
    ensures forall c :: c in g.pool.Contexts() ==> g.pool.Slot(Webgl) == Some(c) || g.pool.Slot(Webgl2) == Some(c)
  {
  }

  lemma {:induction false} StepKeepsAccounted(w: World, gone: set<Context>, e: Event)
    requires GovInv(w.g) && Accounted(w, gone) && Possible(w, e)
    ensures Accounted(Step(w, e), gone + LetGo(w, e))
  {
    assert e != ReleaseHard ==> gone + LetGo(w, e) == gone;
    match e
    case Detached(k, works) => DetachedAccounted(w, gone, k, works);
    case InPage(native) =>
      GetInPageEffect(w.g, native);
      PrunedAccounted(w, gone, GetInPage(w.g, native));
    case BrowserLoses(cs) =>
    case Prune => PrunedAccounted(w, gone, PruneDead(w.g));
    case Cap =>
      ForceCapEffect(w.g, w.g.maxLive);
      PrunedAccounted(w, gone, ForceCap(w.g));
    case MaxLive(n) =>
      SetMaxLiveEffect(w.g, n);
      PrunedAccounted(w, gone, SetMaxLive(w.g, n));
    case LeavePage => ReleaseAllowedAccounted(w, gone, false);
    case RetryHang => ReleaseAllowedAccounted(w, gone, w.g.allow);
    case ReleaseHard => ReleaseHardAccounted(w, gone);
  }

  /** A careful step lets go of nothing. */
  lemma {:induction false} CarefulLetsGoNothing(w: World, e: Event)
    requires e == ReleaseHard ==> !AnyShared(w.g)
    ensures LetGo(w, e) == {}
  {
    PooledIsListed(w.g);
  }

  /** The public hard release keeps track of the shared contexts if and only if none of them is alive. */
  lemma {:induction false} ReleaseHardKeepsPooledIff(w: World)
    requires GovInv(w.g) && Pooled(w)
    ensures Pooled(Step(w, ReleaseHard)) <==> !AnyShared(w.g)
  {
    HardReleaseEffect(w.g);
    var v := Step(w, ReleaseHard);
    forall k: Kind | Shared(w.g, k)
      ensures !Pooled(v)
    {
      var c := w.g.pool.Slot(k).value;
      assert c in v.made && c !in v.g.lost && v.g.pool.Slot(v.made[c]) == None;
    }
  }

  /** Hard releases happen only while no shared context is alive. */
  ghost predicate Careful(w: World, es: seq<Event>)
    requires w.g.maxLive > 0
    decreases |es|
  {
    es == [] ||
    (&& (es[0] == ReleaseHard ==> !AnyShared(w.g))
     && (Step(w, es[0]).g.maxLive > 0 ==> Careful(Step(w, es[0]), es[1..])))
  }

  lemma {:induction false} RunKeepsGov(w: World, es: seq<Event>, v: World)
    requires GovInv(w.g) && Reaches(w, es, v)
    ensures GovInv(v.g)
    decreases |es|
  {
    if es != [] {
      StepKeepsGov(w, es[0]);
      RunKeepsGov(Step(w, es[0]), es[1..], v);
    }
  }

  lemma {:induction false} RunKeepsPooled(w: World, es: seq<Event>, v: World)
    requires GovInv(w.g) && Pooled(w) && Reaches(w, es, v) && Careful(w, es)
    ensures GovInv(v.g) && Pooled(v)
    decreases |es|
  {
    if es != [] {
      StepKeepsGov(w, es[0]);
      StepKeepsAccounted(w, {}, es[0]);
      CarefulLetsGoNothing(w, es[0]);
      RunKeepsPooled(Step(w, es[0]), es[1..], v);
    }
  }

  function Start(): World {
    World(Initial(), map[])
  }

  /** In every reachable state the live contexts are pairwise distinct and within the bound, and losing is off. */
  lemma {:induction false} LiveIsBounded(es: seq<Event>, v: World)
    requires Reaches(Start(), es, v)
    ensures |v.g.live| <= v.g.maxLive <= 2 && !v.g.allow
    ensures forall i, j :: 0 <= i < j < |v.g.live| ==> v.g.live[i] != v.g.live[j]
  {
    RunKeepsGov(Start(), es, v);
  }

  /** However many canvases ask, at most one shared context of each type is alive. */
  lemma {:induction false} AtMostOneShared(es: seq<Event>, v: World)
    requires Reaches(Start(), es, v) && Careful(Start(), es)
    ensures OneShared(v)
  {
    RunKeepsPooled(Start(), es, v);
  }

  /** A call for a detached canvas fails only if the browser does; otherwise it is counted once, as one of two. */
  lemma {:induction false} EveryContextIsCounted(es: seq<Event>, v: World, k: Kind, works: bool)
    requires Reaches(Start(), es, v)
    ensures v.g.maxLive > 0
    ensures var (h, r) := GetShared(v.g, k, works);
      && (r.Some? <==> works || Shared(v.g, k))
      && h.creates - v.g.creates == (if r.Some? && !Shared(v.g, k) then 1 else 0)
      && h.hits - v.g.hits == (if Shared(v.g, k) then 1 else 0)
      && (r.Some? ==> r.value in h.live && Shared(h, k) && h.pool.Slot(k) == r)
  {
    RunKeepsGov(Start(), es, v);
    GetSharedEffect(v.g, k, works);
  }

  /** After a hard release in the middle of probing the next canvas makes a second shared context of its type. */
  lemma {:induction false} ReleaseHardLeaks(w: World, k: Kind)
    requires GovInv(w.g) && Pooled(w) && Shared(w.g, k)
    ensures var v := Step(w, ReleaseHard); GovInv(v.g) && !OneShared(Step(v, Detached(k, true)))
  {
    HardReleaseEffect(w.g);
    var v := Step(w, ReleaseHard);
    StepKeepsGov(w, ReleaseHard);
    GetSharedEffect(v.g, k, true);
    var u := Step(v, Detached(k, true));
    var c := w.g.pool.Slot(k).value;
    assert c in u.made && v.g.next in u.made && u.made[c] == u.made[v.g.next] && c != v.g.next;
  }

  // ---------------------------------------------------------------- one shared context, exactly

  /** A detached canvas asks for a type whose shared context was let go of and is alive still. */
  predicate Doubles(w: World, gone: set<Context>, e: Event) {
    e.Detached? && e.works && !Shared(w.g, e.kind)
    && exists c <- gone :: c in w.made && w.made[c] == e.kind && c !in w.g.lost
  }

  /** One step: a second living shared context appears exactly when a canvas doubles one that was let go of. */
  lemma {:induction false} StepKeepsOneSharedIff(w: World, gone: set<Context>, e: Event)
    requires GovInv(w.g) && Accounted(w, gone) && Possible(w, e) && OneShared(w)
    ensures OneShared(Step(w, e)) <==> !Doubles(w, gone, e)
  {
    var v := Step(w, e);
    LostStays(w, e);
    if e.Detached? {
      GetSharedEffect(w.g, e.kind, e.works);
      if Doubles(w, gone, e) {
        var c :| c in gone && c in w.made && w.made[c] == e.kind && c !in w.g.lost;
        assert c in v.made && w.g.next in v.made && v.made[c] == v.made[w.g.next] && c != w.g.next;
      }
    }
  }

  lemma {:induction false} LostStays(w: World, e: Event)
    requires GovInv(w.g) && Possible(w, e)
    ensures w.g.lost <= Step(w, e).g.lost
    ensures !e.Detached? ==> Step(w, e).made == w.made
  {
    match e
    case Detached(k, works) => GetSharedEffect(w.g, k, works);
    case InPage(native) => GetInPageEffect(w.g, native);
    case BrowserLoses(cs) =>
    case Prune => PruneEffect(w.g, w.g.maxLive);
    case Cap => ForceCapEffect(w.g, w.g.maxLive);
    case MaxLive(n) => SetMaxLiveEffect(w.g, n);
    case LeavePage => ReleaseAllowedEffect(w.g, false);
    case RetryHang => ReleaseAllowedEffect(w.g, w.g.allow);
    case ReleaseHard => HardReleaseEffect(w.g);
  }

  ghost predicate AlwaysOneShared(w: World, es: seq<Event>)
    decreases |es|
  {
    OneShared(w) && (es == [] || (w.g.maxLive > 0 && AlwaysOneShared(Step(w, es[0]), es[1..])))
  }

  predicate NeverDoubles(w: World, gone: set<Context>, es: seq<Event>)
    decreases |es|
  {
    es == []
    || (w.g.maxLive > 0 && !Doubles(w, gone, es[0]) && NeverDoubles(Step(w, es[0]), gone + LetGo(w, es[0]), es[1..]))
  }

  lemma {:induction false} OneSharedFrom(w: World, gone: set<Context>, es: seq<Event>, v: World)
    requires GovInv(w.g) && Accounted(w, gone) && OneShared(w) && Reaches(w, es, v)
    ensures AlwaysOneShared(w, es) <==> NeverDoubles(w, gone, es)
    decreases |es|
  {
    if es != [] {
      StepKeepsGov(w, es[0]);
      StepKeepsAccounted(w, gone, es[0]);
      StepKeepsOneSharedIff(w, gone, es[0]);
      if !Doubles(w, gone, es[0]) {
        OneSharedFrom(Step(w, es[0]), gone + LetGo(w, es[0]), es[1..], v);
      }
    }
  }

  /**
   Over any run: at most one shared context of each type is alive in every state, if and only if no detached canvas
   asks for a type whose shared context a hard release let go of and which is alive still.
   */
  lemma {:induction false} OneSharedIff(es: seq<Event>, v: World)
    requires Reaches(Start(), es, v)
    ensures AlwaysOneShared(Start(), es) <==> NeverDoubles(Start(), {}, es)
  {
    OneSharedFrom(Start(), {}, es, v);
  }

  /** Whatever comes next, as long as further hard releases are careful, one shared context of each type at most is alive. */
  ghost predicate SafeFrom(w: World) {
    w.g.maxLive > 0 && forall es, v :: Reaches(w, es, v) && Careful(w, es) ==> OneShared(v)
  }

  /** A hard release after a careful run is safe for all that comes next if and only if no shared context is alive. */
  lemma {:induction false} ReleaseHardSafeIff(before: seq<Event>, w: World)
    requires Reaches(Start(), before, w) && Careful(Start(), before)
    ensures w.g.maxLive > 0
    ensures SafeFrom(Step(w, ReleaseHard)) <==> !AnyShared(w.g)
  {
    RunKeepsPooled(Start(), before, w);
    var v := Step(w, ReleaseHard);
    StepKeepsGov(w, ReleaseHard);
    ReleaseHardKeepsPooledIff(w);
    if AnyShared(w.g) {
      var k := if Shared(w.g, Webgl) then Webgl else Webgl2;
      ReleaseHardLeaks(w, k);
      OneStepReaches(v, Detached(k, true));
    } else {
      forall es, u | Reaches(v, es, u) && Careful(v, es)
        ensures OneShared(u)
      {
        RunKeepsPooled(v, es, u);
      }
    }
  }

  lemma {:induction false} OneStepReaches(w: World, e: Event)
    requires w.g.maxLive > 0 && Possible(w, e) && e != ReleaseHard
    ensures Reaches(w, [e], Step(w, e)) && Careful(w, [e])
  {
    assert [e][1..] == [];
  }

  // ---------------------------------------------------------------- the contexts alive

  function AliveContexts(g: Gov): set<Context> {
    set c: nat | c < g.next && c !in g.lost
  }

  /** The browser makes a context: for a canvas in the document, or the shared one of a type that has none alive. */
  predicate Creates(w: World, e: Event) {
    match e
    case InPage(native) => native == Some(w.g.next)
    case Detached(k, works) => works && !Shared(w.g, k)
    case _ => false
  }

  /** Neither the browser nor the end of a page or of a hung path takes contexts away. */
  predicate Gentle(e: Event) {
    !e.BrowserLoses? && !e.LeavePage? && !e.RetryHang?
  }

  /** Such a step loses no context to make room, whatever it does to the list: the ones alive grow by the one made. */
  lemma {:induction false} StepKeepsAlive(w: World, e: Event)
    requires GovInv(w.g) && Possible(w, e) && Gentle(e)
    ensures AliveContexts(Step(w, e).g) == AliveContexts(w.g) + if Creates(w, e) then {w.g.next} else {}
    ensures Step(w, e).g.lost == w.g.lost && w.g.next !in AliveContexts(w.g)
  {
    GentleEffect(w, e);
  }

  lemma {:induction false} GentleEffect(w: World, e: Event)
    requires GovInv(w.g) && Possible(w, e) && Gentle(e)
    ensures Step(w, e).g.lost == w.g.lost && Step(w, e).g.next == w.g.next + if Creates(w, e) then 1 else 0
  {
    match e
    case Detached(k, works) => GetSharedEffect(w.g, k, works);
    case InPage(native) => GetInPageEffect(w.g, native);
    case Prune => PruneEffect(w.g, w.g.maxLive);
    case Cap => ForceCapEffect(w.g, w.g.maxLive);
    case MaxLive(n) => SetMaxLiveEffect(w.g, n);
    case ReleaseHard => HardReleaseEffect(w.g);
  }

  ghost predicate AllGentle(es: seq<Event>) {
    forall i :: 0 <= i < |es| ==> Gentle(es[i])
  }

  /** How many contexts the browser makes during the run. */
  function Created(w: World, es: seq<Event>): nat
    decreases |es|
  {
    if es == [] || w.g.maxLive == 0 then 0
    else (if Creates(w, es[0]) then 1 else 0) + Created(Step(w, es[0]), es[1..])
  }

  lemma {:induction false} RunKeepsAlive(w: World, es: seq<Event>, v: World)
    requires GovInv(w.g) && Reaches(w, es, v) && AllGentle(es)
    ensures |AliveContexts(v.g)| == |AliveContexts(w.g)| + Created(w, es) && AliveContexts(w.g) <= AliveContexts(v.g)
    decreases |es|
  {
    if es != [] {
      StepKeepsGov(w, es[0]);
      StepKeepsAlive(w, es[0]);
      RunKeepsAlive(Step(w, es[0]), es[1..], v);
    }
  }

  /**
   The bound is on the list, not on the browser: the list stays within it, and the contexts alive do so if and only if
   no more than that were made, for no context is given up to make room.
   */
  lemma {:induction false} AliveBoundedIff(es: seq<Event>, v: World)
    requires Reaches(Start(), es, v) && AllGentle(es)
    ensures |v.g.live| <= v.g.maxLive
    ensures |AliveContexts(v.g)| == Created(Start(), es)
    ensures |AliveContexts(v.g)| <= v.g.maxLive <==> Created(Start(), es) <= v.g.maxLive
  {
    RunKeepsGov(Start(), es, v);
    RunKeepsAlive(Start(), es, v);
    assert AliveContexts(Initial()) == {};
  }

  ghost predicate AllInPage(es: seq<Event>) {
    forall i :: 0 <= i < |es| ==> es[i].InPage?
  }

  /** From every state, a run of n canvases in the document, and nothing else, has n more contexts alive at its end. */
  lemma {:induction false} PageContextsPileUp(w: World, n: nat)
    requires GovInv(w.g)
    ensures exists es, v ::
      |es| == n && AllInPage(es) && Reaches(w, es, v) && Created(w, es) == n
      && |AliveContexts(v.g)| == |AliveContexts(w.g)| + n && |v.g.live| <= v.g.maxLive
    decreases n
  {
    if n == 0 {
      assert Reaches(w, [], w);
    } else {
      var e := InPage(Some(w.g.next));
      StepKeepsGov(w, e);
      StepKeepsAlive(w, e);
      PageContextsPileUp(Step(w, e), n - 1);
      var es, v :| |es| == n - 1 && AllInPage(es) && Reaches(Step(w, e), es, v) && Created(Step(w, e), es) == n - 1
        && |AliveContexts(v.g)| == |AliveContexts(Step(w, e).g)| + (n - 1) && |v.g.live| <= v.g.maxLive;
      Prefixed(w, e, es, v);
      assert ([e] + es)[1..] == es && AllInPage([e] + es);
    }
  }

  lemma {:induction false} Prefixed(w: World, e: Event, es: seq<Event>, v: World)
    requires w.g.maxLive > 0 && Possible(w, e) && Reaches(Step(w, e), es, v)
    ensures Reaches(w, [e] + es, v)
  {
    assert ([e] + es)[1..] == es;
  }

  // ---------------------------------------------------------------- the script's variables

  class Governor {
    var live: seq<Context>
    var pool: Pool
    var allowHardLose: bool
    var maxLive: nat
    var creates: nat
    var hits: nat
    var lost: set<Context>
    var next: Context

    constructor ()
      ensures Value() == Initial()
    {
      live, pool, allowHardLose, maxLive := [], Pool(None, None), false, 2;
      creates, hits, lost, next := 0, 0, {}, 0;
    }

    function Value(): Gov
      reads this
    {
      Gov(live, pool, allowHardLose, maxLive, creates, hits, lost, next)
    }

    method HardLoseOne(c: Context)
      modifies this`lost
      ensures Value() == Lose(old(Value()), {c})
    {
      if allowHardLose {
        lost := lost + {c};
      }
    }

    method DropDead()
      modifies this`live, this`pool
      ensures Value() == PruneDead(old(Value()))
    {
      var r: seq<Context> := [];
      for i := 0 to |live|
        invariant r == Alive(live[..i], lost) && live == old(live)
      {
        assert live[..i + 1][..i] == live[..i];
        if live[i] !in lost {
          r := r + [live[i]];
        }
      }
      assert live[..|live|] == live;
      live := r;
      pool := Pool(AliveSlot(pool.webgl, lost), AliveSlot(pool.webgl2, lost));
    }

    /** The loop that shifts the oldest contexts out. */
    method ShiftTo(n: nat)
      modifies this`live, this`lost
      ensures Value() == DropTo(old(Value()), n)
    {
      ghost var was := live;
      while |live| > n
        invariant |live| <= |was| && live == was[|was| - |live|..]
        invariant lost == if allowHardLose then old(lost) + Elements(was[..|was| - |live|]) else old(lost)
        invariant |was| > n ==> |live| >= n
        invariant |was| <= n ==> live == was
      {
        var c := live[0];
        live := live[1..];
        assert was[..|was| - |live|] == was[..|was| - |live| - 1] + [c];
        HardLoseOne(c);
      }
      assert |was| <= n ==> was[..0] == [] && was[0..] == was;
      assert Elements([]) == {};
    }

    method Cap()
      modifies this`live, this`pool, this`lost
      ensures Value() == ForceCap(old(Value()))
    {
      DropDead();
      ShiftTo(maxLive);
      DropDead();
    }

    method Keep(c: Context)
      requires maxLive > 0
      modifies this`live, this`pool, this`lost
      ensures Value() == Track(old(Value()), c)
    {
      DropDead();
      var i := 0;
      while i < |live|
        invariant i <= |live| && c !in live[..i]
        invariant Value() == PruneDead(old(Value()))
      {
        if live[i] == c {
          return;
        }
        assert live[..i + 1] == live[..i] + [live[i]];
        i := i + 1;
      }
      assert live[..i] == live;
      ShiftTo(maxLive - 1);
      live := live + [c];
    }

    method Acquire(k: Kind, works: bool) returns (c: Option<Context>)
      requires maxLive > 0
      modifies this
      ensures (Value(), c) == GetShared(old(Value()), k, works)
    {
      var slot := pool.Slot(k);
      if slot.Some? && slot.value !in lost {
        hits := hits + 1;
        Keep(slot.value);
        return slot;
      }
      Cap();
      if !works {
        return None;
      }
      c := Some(next);
      Make(k);
      Keep(c.value);
    }

    method Make(k: Kind)
      modifies this`creates, this`pool, this`next
      ensures Value() == Create(old(Value()), k)
    {
      creates, pool, next := creates + 1, pool.Put(k, Some(next)), next + 1;
    }

    method AcquireInPage(native: Option<Context>)
      requires maxLive > 0
      modifies this
      ensures Value() == GetInPage(old(Value()), native)
    {
      Cap();
      if native.Some? {
        Note(native.value);
        Keep(native.value);
      }
    }

    method Note(c: Context)
      modifies this`creates, this`next
      ensures Value() == Adopt(old(Value()), c)
    {
      creates, next := creates + 1, if c < next then next else c + 1;
    }

    method ReleaseEverything()
      modifies this`live, this`pool, this`lost
      ensures Value() == HardReleaseAll(old(Value()))
    {
      DropDead();
      ghost var g := Value();
      ShiftTo(0);
      assert g.live[..|g.live|] == g.live && g.live[|g.live|..] == [];
      if pool.webgl.Some? {
        HardLoseOne(pool.webgl.value);
      }
      if pool.webgl2.Some? {
        HardLoseOne(pool.webgl2.value);
      }
      pool := Pool(None, None);
    }

    method OnLeave()
      modifies this
      ensures Value() == ReleaseAllowed(old(Value()), false)
    {
      allowHardLose := true;
      ReleaseEverything();
      allowHardLose := false;
    }

    method ForRetry()
      modifies this
      ensures Value() == ReleaseAllowed(old(Value()), old(allowHardLose))
    {
      var prev := allowHardLose;
      allowHardLose := true;
      ReleaseEverything();
      allowHardLose := prev;
    }
  }
}
