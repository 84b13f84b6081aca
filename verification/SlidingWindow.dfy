/**
 Event times kept for a rolling window. Two scripts prune such a list before they look at its length;
 pruning again and again forgets nothing that a look at the whole history would still see.
 */
module SlidingWindow {

  /** The times that are less than a window old. */
  function Recent(ts: seq<int>, now: int, window: int): (r: seq<int>)
    ensures |r| <= |ts|
  {
    if ts == [] then []
    else
      var n := |ts| - 1;
      if now - ts[n] < window then Recent(ts[..n], now, window) + [ts[n]] else Recent(ts[..n], now, window)
  }

  /** How many times lie in [lo, hi). */
  function Between(ts: seq<int>, lo: int, hi: int): nat {
    if ts == [] then 0
    else
      var n := |ts| - 1;
      Between(ts[..n], lo, hi) + if lo <= ts[n] < hi then 1 else 0
  }

  lemma RecentPush(ts: seq<int>, t: int, now: int, window: int)
    ensures Recent(ts + [t], now, window)
         == if now - t < window then Recent(ts, now, window) + [t] else Recent(ts, now, window)
  {
    assert (ts + [t])[..|ts|] == ts;
  }

  lemma BetweenPush(ts: seq<int>, t: int, lo: int, hi: int)
    ensures Between(ts + [t], lo, hi) == Between(ts, lo, hi) + if lo <= t < hi then 1 else 0
  {
    assert (ts + [t])[..|ts|] == ts;
  }

  /** Pruning what was already pruned earlier is pruning the whole history. */
  lemma {:induction false} RecentAgain(ts: seq<int>, before: int, now: int, window: int)
    requires before <= now
    ensures Recent(Recent(ts, before, window), now, window) == Recent(ts, now, window)
    decreases |ts|
  {
    if ts != [] {
      var n := |ts| - 1;
      RecentAgain(ts[..n], before, now, window);
      if before - ts[n] < window {
        RecentPush(Recent(ts[..n], before, window), ts[n], now, window);
      }
    }
  }

  /** What the pruned list holds is everything in the window that ends now. */
  lemma {:induction false} RecentCounts(ts: seq<int>, now: int, window: int, hi: int)
    requires forall i :: 0 <= i < |ts| ==> ts[i] < hi
    ensures |Recent(ts, now, window)| == Between(ts, now - window + 1, hi)
    decreases |ts|
  {
    if ts != [] { RecentCounts(ts[..|ts| - 1], now, window, hi); }
  }

  lemma {:induction false} BetweenWider(ts: seq<int>, lo: int, hi: int, lo': int, hi': int)
    requires lo' <= lo && hi <= hi'
    ensures Between(ts, lo, hi) <= Between(ts, lo', hi')
    decreases |ts|
  {
    if ts != [] { BetweenWider(ts[..|ts| - 1], lo, hi, lo', hi'); }
  }

  /** The filter as a loop. */
  method Prune(ts: seq<int>, now: int, window: int) returns (r: seq<int>)
    ensures r == Recent(ts, now, window)
  {
    r := [];
    for i := 0 to |ts|
      invariant r == Recent(ts[..i], now, window)
    {
      RecentPush(ts[..i], ts[i], now, window);
      assert ts[..i + 1] == ts[..i] + [ts[i]];
      if now - ts[i] < window {
        r := r + [ts[i]];
      }
    }
    assert ts[..|ts|] == ts;
  }
}
