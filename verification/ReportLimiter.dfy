/**
 The limiter of the client event reporter: a cap per event code, sampling per code, and at most 80 reports
 a minute. The clock values and the random draw of a call are inputs.
 */
module ReportLimiter {
  import opened SlidingWindow

  const MAX_PER_MIN := 80
  const WINDOW_MS := 60000

  /** The tables of the reporter. */
  datatype Tables = Tables(caps: map<string, nat>, rates: map<string, real>) {
    /** Every cap lets at least the first event of its code through. */
    ghost predicate Valid() {
      forall c <- caps :: caps[c] >= 1
    }
  }

  const CODE_CAPS: map<string, nat> := map[
    "cycle_remint" := 1, "vt_mint" := 2, "upload_4xx" := 6, "rpa_quiet" := 3, "upload_soft_exhausted" := 4,
    "upload_deepen_exhausted" := 4, "upload_hard_exhausted" := 4, "fe_pack_reload" := 2,
    "wave2_defer_b10" := 2, "b10_content_gate" := 3, "gap_t_retry" := 8, "gap_c_retry" := 10,
    "gap_c_timeout" := 6, "gap_b_apply" := 8, "gap_satisfied" := 6, "gap_supervisor_start" := 2,
    "gap_supervisor_stop" := 2, "fe_console_error" := 5, "upload_network" := 8,
    "upload_upstream_closed" := 8, "wave2_empty" := 2, "upload_recovered" := 12, "upload_seal_fail" := 4,
    "seal_wasm_fail" := 3, "seal_wasm_unsupported" := 2, "upload_5xx" := 12
  ]

  const SAMPLE_RATES: map<string, real> := map[
    "cycle_remint" := 0.02, "vt_mint" := 0.04, "fe_diag" := 0.02, "hard_sla_retry" := 0.1,
    "need_hard_anchor" := 0.1, "privacy_guard" := 0.02, "multipath_done" := 0.05, "upload_network" := 0.2,
    "upload_upstream_closed" := 0.25, "rpa_quiet" := 0.1, "upload_soft_exhausted" := 0.2,
    "upload_deepen_exhausted" := 0.25, "upload_hard_exhausted" := 0.35, "fe_pack_reload" := 0.03,
    "wave2_defer_b10" := 0.08, "b10_content_gate" := 0.15, "upload_4xx" := 0.15, "wave2_empty" := 0.12,
    "gap_t_retry" := 0.2, "gap_c_retry" := 0.35, "gap_c_timeout" := 0.6, "gap_b_apply" := 0.2,
    "gap_satisfied" := 0.15, "gap_supervisor_start" := 1.0, "gap_supervisor_stop" := 1.0,
    "cool_without_silicon" := 0.2, "upload_seal_fail" := 0.35, "seal_wasm_fail" := 0.25,
    "seal_wasm_unsupported" := 1.0, "upload_recovered" := 1.0, "upload_session_summary" := 1.0,
    "b10x_must_land_scheduled" := 0.15
  ]

  /** One call: whether the gates before the limiter let it in, its code, its draw and its two clock reads. */
  datatype Call = Call(open: bool, code: string, draw: real, pruneAt: int, sendAt: int)

  datatype Limiter = Limiter(sent: seq<int>, counts: map<string, nat>, seen: set<string>)

  function CountOf(m: map<string, nat>, c: string): nat {
    if c in m then m[c] else 0
  }

  function Bump(t: Tables, l: Limiter, c: string): Limiter {
    if c in t.caps then l.(counts := l.counts[c := CountOf(l.counts, c) + 1]) else l
  }

  predicate OverCap(t: Tables, l: Limiter, c: string) {
    c in t.caps && CountOf(l.counts, c) > t.caps[c]
  }

  predicate Sampled(t: Tables, c: string) {
    c in t.rates && t.rates[c] < 1.0
  }

  function ShouldSample(t: Tables, l: Limiter, c: string, draw: real): (Limiter, bool) {
    var l1 := Bump(t, l, c);
    if OverCap(t, l1, c) then (l1, false)
    else if !Sampled(t, c) then (l1, true)
    else if c !in l1.seen then (l1.(seen := l1.seen + {c}), true)
    else (l1, draw < t.rates[c])
  }

  predicate Asked(call: Call) {
    call.open && call.code != ""
  }

  function Report(t: Tables, l: Limiter, call: Call): (Limiter, bool) {
    if !Asked(call) then (l, false)
    else
      var (l1, sample) := ShouldSample(t, l, call.code, call.draw);
      if !sample then (l1, false)
      else
        var l2 := l1.(sent := Recent(l1.sent, call.pruneAt, WINDOW_MS));
        if |l2.sent| >= MAX_PER_MIN then (l2, false)
        else (l2.(sent := l2.sent + [call.sendAt]), true)
  }

  /** The reporter's variables, updated in place. */
  class Reporter {
    const tables: Tables
    var sent: seq<int>
    var codeCaps: map<string, nat>
    var sampleSeen: set<string>

    constructor (tables: Tables)
      ensures this.tables == tables && Value() == Limiter([], map[], {})
    {
      this.tables := tables;
      sent, codeCaps, sampleSeen := [], map[], {};
    }

    function Value(): Limiter
      reads this
    {
      Limiter(sent, codeCaps, sampleSeen)
    }

    method Sample(code: string, draw: real) returns (keep: bool)
      modifies this
      ensures (Value(), keep) == ShouldSample(tables, old(Value()), code, draw)
    {
      if code in tables.caps {
        codeCaps := codeCaps[code := CountOf(codeCaps, code) + 1];
        if codeCaps[code] > tables.caps[code] {
          return false;
        }
      }
      if code !in tables.rates || tables.rates[code] >= 1.0 {
        return true;
      }
      if code !in sampleSeen {
        sampleSeen := sampleSeen + {code};
        return true;
      }
      return draw < tables.rates[code];
    }

    method Send(call: Call) returns (went: bool)
      modifies this
      ensures (Value(), went) == Report(tables, old(Value()), call)
    {
      if !Asked(call) {
        return false;
      }
      var keep := Sample(call.code, call.draw);
      if !keep {
        return false;
      }
      sent := Prune(sent, call.pruneAt, WINDOW_MS);
      if |sent| >= MAX_PER_MIN {
        return false;
      }
      sent := sent + [call.sendAt];
      return true;
    }
  }

  // ---------------------------------------------------------------- runs

  /** The limiter with its whole past: what was asked of it and what went out, and when it last pruned. */
  datatype World = World(l: Limiter, asked: seq<string>, codes: seq<string>, times: seq<int>, pruned: int, now: int)

  function Start(now: int): World {
    World(Limiter([], map[], {}), [], [], [], now, now)
  }

  ghost predicate InOrder(w: World, call: Call) {
    w.now <= call.pruneAt <= call.sendAt
  }

  function Step(t: Tables, w: World, call: Call): World {
    var (l, went) := Report(t, w.l, call);
    World(
      l,
      if Asked(call) then w.asked + [call.code] else w.asked,
      if went then w.codes + [call.code] else w.codes,
      if went then w.times + [call.sendAt] else w.times,
      if Asked(call) && ShouldSample(t, w.l, call.code, call.draw).1 then call.pruneAt else w.pruned,
      call.sendAt)
  }

  ghost predicate Reaches(t: Tables, w: World, calls: seq<Call>, v: World)
    decreases |calls|
  {
    if calls == [] then v == w
    else InOrder(w, calls[0]) && Reaches(t, Step(t, w, calls[0]), calls[1..], v)
  }

  function Times(cs: seq<string>, c: string): nat {
    if cs == [] then 0 else Times(cs[..|cs| - 1], c) + if cs[|cs| - 1] == c then 1 else 0
  }

  lemma TimesPush(cs: seq<string>, d: string, c: string)
    ensures Times(cs + [d], c) == Times(cs, c) + if d == c then 1 else 0
  {
    assert (cs + [d])[..|cs|] == cs;
  }

  ghost predicate Counted(t: Tables, w: World) {
    forall c :: c in t.caps ==> CountOf(w.l.counts, c) == Times(w.asked, c)
  }

  ghost predicate SeenWhenAsked(t: Tables, w: World) {
    forall c :: Sampled(t, c) ==> (c in w.l.seen <==> Times(w.asked, c) > 0)
  }

  ghost predicate Capped(t: Tables, w: World) {
    forall c :: c in t.caps ==> Times(w.codes, c) <= t.caps[c] && Times(w.codes, c) <= Times(w.asked, c)
  }

  ghost predicate Remembered(w: World) {
    && w.l.sent == Recent(w.times, w.pruned, WINDOW_MS)
    && w.pruned <= w.now
    && (forall i :: 0 <= i < |w.times| ==> w.times[i] <= w.now)
  }

  /** The reports of the minute that begins at lo. */
  function InMinute(ts: seq<int>, lo: int): nat {
    Between(ts, lo, lo + WINDOW_MS)
  }

  ghost predicate Spread(ts: seq<int>) {
    forall lo :: InMinute(ts, lo) <= MAX_PER_MIN
  }

  ghost predicate Inv(t: Tables, w: World) {
    Counted(t, w) && SeenWhenAsked(t, w) && Capped(t, w) && Remembered(w) && Spread(w.times)
  }

  lemma PrunedIsRecent(w: World, at: int)
    requires Remembered(w) && w.now <= at
    ensures Recent(w.l.sent, at, WINDOW_MS) == Recent(w.times, at, WINDOW_MS)
    ensures |Recent(w.times, at, WINDOW_MS)| == Between(w.times, at - WINDOW_MS + 1, at + 1)
  {
    RecentAgain(w.times, w.pruned, at, WINDOW_MS);
    RecentCounts(w.times, at, WINDOW_MS, at + 1);
  }

  ghost predicate SampleDue(t: Tables, asked: seq<string>, c: string, draw: real) {
    && (c in t.caps ==> Times(asked, c) < t.caps[c])
    && (Sampled(t, c) && Times(asked, c) > 0 ==> draw < t.rates[c])
  }

  /** Whether the limiter should let a call out, told from the past alone. */
  ghost predicate Due(t: Tables, w: World, call: Call) {
    && Asked(call)
    && SampleDue(t, w.asked, call.code, call.draw)
    && Between(w.times, call.pruneAt - WINDOW_MS + 1, call.pruneAt + 1) < MAX_PER_MIN
  }

  lemma SampleIffDue(t: Tables, w: World, c: string, draw: real)
    requires Counted(t, w) && SeenWhenAsked(t, w)
    ensures ShouldSample(t, w.l, c, draw).1 <==> SampleDue(t, w.asked, c, draw)
    ensures ShouldSample(t, w.l, c, draw).0.sent == w.l.sent
  {
    assert c in t.caps ==> CountOf(w.l.counts, c) == Times(w.asked, c);
    assert Sampled(t, c) ==> (c in w.l.seen <==> Times(w.asked, c) > 0);
  }

  /**
   The limiter keeps no more than a few numbers, and yet a report goes out exactly when the whole past says
   it should: its code was asked for less often than its cap, it is the first of its code or the draw keeps
   it, and fewer than 80 reports went out in the minute that ends now.
   */
  lemma SentIffDue(t: Tables, w: World, call: Call)
    requires Inv(t, w) && InOrder(w, call)
    ensures Report(t, w.l, call).1 <==> Due(t, w, call)
  {
    PrunedIsRecent(w, call.pruneAt);
    SampleIffDue(t, w, call.code, call.draw);
  }

  lemma SampleCounts(t: Tables, l: Limiter, c: string, draw: real, d: string)
    requires t.Valid()
    ensures var l1 := ShouldSample(t, l, c, draw).0;
      && l1.sent == l.sent
      && CountOf(l1.counts, d) == CountOf(l.counts, d) + (if d == c && c in t.caps then 1 else 0)
      && (d != c ==> (d in l1.seen <==> d in l.seen))
  {
  }

  lemma ReportCounts(t: Tables, l: Limiter, call: Call)
    ensures var (l1, _) := Report(t, l, call);
      var l2 := if Asked(call) then ShouldSample(t, l, call.code, call.draw).0 else l;
      l1.counts == l2.counts && l1.seen == l2.seen
  {
  }

  lemma StepCounts(t: Tables, w: World, call: Call, c: string)
    requires t.Valid() && Counted(t, w) && c in t.caps
    ensures var v := Step(t, w, call); CountOf(v.l.counts, c) == Times(v.asked, c)
  {
    TimesPush(w.asked, call.code, c);
    ReportCounts(t, w.l, call);
    SampleCounts(t, w.l, call.code, call.draw, c);
  }

  lemma StepSeen(t: Tables, w: World, call: Call, c: string)
    requires t.Valid() && Counted(t, w) && SeenWhenAsked(t, w) && Sampled(t, c)
    ensures var v := Step(t, w, call); c in v.l.seen <==> Times(v.asked, c) > 0
  {
    TimesPush(w.asked, call.code, c);
    ReportCounts(t, w.l, call);
    SampleCounts(t, w.l, call.code, call.draw, c);
    assert c in w.l.seen <==> Times(w.asked, c) > 0;
    assert c in t.caps ==> CountOf(w.l.counts, c) == Times(w.asked, c) && t.caps[c] >= 1;
  }

  lemma StepKeepsCounts(t: Tables, w: World, call: Call)
    requires t.Valid() && Counted(t, w) && SeenWhenAsked(t, w)
    ensures Counted(t, Step(t, w, call)) && SeenWhenAsked(t, Step(t, w, call))
  {
    forall c | c in t.caps
      ensures CountOf(Step(t, w, call).l.counts, c) == Times(Step(t, w, call).asked, c)
    {
      StepCounts(t, w, call, c);
    }
    forall c | Sampled(t, c)
      ensures c in Step(t, w, call).l.seen <==> Times(Step(t, w, call).asked, c) > 0
    {
      StepSeen(t, w, call, c);
    }
  }

  lemma ReportSent(t: Tables, l: Limiter, call: Call)
    ensures var (l1, went) := Report(t, l, call);
      var looked := Asked(call) && ShouldSample(t, l, call.code, call.draw).1;
      var kept := Recent(l.sent, call.pruneAt, WINDOW_MS);
      && (went ==> looked && |kept| < MAX_PER_MIN && l1.sent == kept + [call.sendAt])
      && (!went ==> l1.sent == if looked then kept else l.sent)
  {
  }

  lemma SampleWithinCap(t: Tables, l: Limiter, c: string, draw: real)
    requires ShouldSample(t, l, c, draw).1 && c in t.caps
    ensures CountOf(l.counts, c) < t.caps[c]
  {
  }

  lemma StepCap(t: Tables, w: World, call: Call, c: string)
    requires Counted(t, w) && Capped(t, w) && c in t.caps
    ensures var v := Step(t, w, call); Times(v.codes, c) <= t.caps[c] && Times(v.codes, c) <= Times(v.asked, c)
  {
    TimesPush(w.asked, call.code, c);
    TimesPush(w.codes, call.code, c);
    ReportSent(t, w.l, call);
    assert Times(w.codes, c) <= Times(w.asked, c);
    if Report(t, w.l, call).1 && call.code == c {
      SampleWithinCap(t, w.l, c, call.draw);
    }
  }

  lemma StepKeepsCaps(t: Tables, w: World, call: Call)
    requires Counted(t, w) && Capped(t, w)
    ensures Capped(t, Step(t, w, call))
  {
    forall c | c in t.caps
      ensures Times(Step(t, w, call).codes, c) <= t.caps[c]
      ensures Times(Step(t, w, call).codes, c) <= Times(Step(t, w, call).asked, c)
    {
      StepCap(t, w, call, c);
    }
  }

  lemma PushKeepsSpread(ts: seq<int>, at: int, sendAt: int)
    requires Spread(ts) && at <= sendAt && |Recent(ts, at, WINDOW_MS)| < MAX_PER_MIN
    requires forall i :: 0 <= i < |ts| ==> ts[i] <= at
    ensures Spread(ts + [sendAt])
  {
    forall lo
      ensures InMinute(ts + [sendAt], lo) <= MAX_PER_MIN
    {
      assert InMinute(ts, lo) <= MAX_PER_MIN;
      BetweenPush(ts, sendAt, lo, lo + WINDOW_MS);
      if lo <= sendAt < lo + WINDOW_MS {
        var hi := lo + WINDOW_MS;
        var top := if hi > at then hi else at + 1;
        RecentCounts(ts, at, WINDOW_MS, top);
        BetweenWider(ts, lo, hi, at - WINDOW_MS + 1, top);
      }
    }
  }

  lemma StepKeepsWindow(t: Tables, w: World, call: Call)
    requires Remembered(w) && Spread(w.times) && InOrder(w, call)
    ensures Remembered(Step(t, w, call)) && Spread(Step(t, w, call).times)
  {
    PrunedIsRecent(w, call.pruneAt);
    ReportSent(t, w.l, call);
    if Report(t, w.l, call).1 {
      RecentPush(w.times, call.sendAt, call.pruneAt, WINDOW_MS);
      PushKeepsSpread(w.times, call.pruneAt, call.sendAt);
    }
  }

  lemma {:induction false} RunKeepsInv(t: Tables, w: World, calls: seq<Call>, v: World)
    requires t.Valid() && Inv(t, w) && Reaches(t, w, calls, v)
    ensures Inv(t, v)
    decreases |calls|
  {
    if calls != [] {
      StepKeepsCounts(t, w, calls[0]);
      StepKeepsCaps(t, w, calls[0]);
      StepKeepsWindow(t, w, calls[0]);
      RunKeepsInv(t, Step(t, w, calls[0]), calls[1..], v);
    }
  }

  lemma ReporterTablesValid()
    ensures Tables(CODE_CAPS, SAMPLE_RATES).Valid()
  {
  }

  lemma StartInv(t: Tables, now: int)
    ensures Inv(t, Start(now))
  {
    assert forall lo :: InMinute([], lo) == 0;
  }

  /** In any run no minute, wherever it begins, holds more than 80 reports, and no code exceeds its cap. */
  lemma {:induction false} RateAndCapsHold(t: Tables, start: int, calls: seq<Call>, v: World, lo: int, code: string)
    requires t.Valid() && Reaches(t, Start(start), calls, v)
    ensures InMinute(v.times, lo) <= MAX_PER_MIN
    ensures code in t.caps ==> Times(v.codes, code) <= t.caps[code]
  {
    StartInv(t, start);
    RunKeepsInv(t, Start(start), calls, v);
    assert InMinute(v.times, lo) <= MAX_PER_MIN;
  }

  /** The same for the tables of the script, whose caps all let a first event through. */
  lemma {:induction false} ScriptKeepsLimits(start: int, calls: seq<Call>, v: World, lo: int, code: string)
    requires Reaches(Tables(CODE_CAPS, SAMPLE_RATES), Start(start), calls, v)
    ensures InMinute(v.times, lo) <= MAX_PER_MIN
    ensures code in CODE_CAPS ==> Times(v.codes, code) <= CODE_CAPS[code]
  {
    ReporterTablesValid();
    RateAndCapsHold(Tables(CODE_CAPS, SAMPLE_RATES), start, calls, v, lo, code);
  }
}
