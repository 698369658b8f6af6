/** The rolling window of publish durations and the backpressure signal computed from it. */
module LagWindow {

  datatype Sample = Sample(ts: int, ms: int)

  datatype Metrics = Metrics(sampleCount: nat, p50: int, p95: int, max: int, signalPause: bool)

  const WINDOW_MS := 30_000
  const MAX_SAMPLES := 500
  const PAUSE_THRESHOLD_MS := 500

  // ---------------------------------------------------------------- order statistics

  /** How many values exceed `t`. */
  function Above(s: seq<int>, t: int): (c: nat)
    ensures c <= |s|
  {
    if s == [] then 0 else (if s[0] > t then 1 else 0) + Above(s[1..], t)
  }

  predicate Sorted(s: seq<int>) {
    forall i, j :: 0 <= i < j < |s| ==> s[i] <= s[j]
  }

  function Insert(x: int, s: seq<int>): (r: seq<int>)
    requires Sorted(s)
    ensures |r| == |s| + 1 && Sorted(r)
    ensures forall y :: y in r <==> y == x || y in s
  {
    if s == [] then [x]
    else if x <= s[0] then [x] + s
    else
      var rest := Insert(x, s[1..]);
      assert forall y :: y in s <==> y == s[0] || y in s[1..];
      assert forall i :: 0 <= i < |rest| ==> rest[i] in rest && s[0] <= rest[i];
      var r := [s[0]] + rest;
      assert forall y :: y in r <==> y == s[0] || y in rest;
      r
  }

  function Sort(s: seq<int>): (r: seq<int>)
    ensures |r| == |s| && Sorted(r)
  {
    if s == [] then [] else Insert(s[0], Sort(s[1..]))
  }

  lemma {:induction false} InsertAbove(x: int, s: seq<int>, t: int)
    requires Sorted(s)
    ensures Above(Insert(x, s), t) == (if x > t then 1 else 0) + Above(s, t)
  {
    if s != [] && x > s[0] {
      InsertAbove(x, s[1..], t);
      assert ([s[0]] + Insert(x, s[1..]))[1..] == Insert(x, s[1..]);
    } else {
      assert ([x] + s)[1..] == s;
    }
  }

  /** Sorting keeps, for every threshold, the number of values above it. */
  lemma {:induction false} SortAbove(s: seq<int>, t: int)
    ensures Above(Sort(s), t) == Above(s, t)
  {
    if s != [] {
      SortAbove(s[1..], t);
      InsertAbove(s[0], Sort(s[1..]), t);
    }
  }

  /** In a sorted sequence the i-th value exceeds `t` exactly when everything from i on does, and nothing less would do. */
  lemma {:induction false} SortedAbove(s: seq<int>, i: nat, t: int)
    requires Sorted(s) && i < |s|
    ensures s[i] > t <==> Above(s, t) >= |s| - i
  {
    if i > 0 {
      SortedAbove(s[1..], i - 1, t);
      if s[0] > t { AllAbove(s, t); }
    } else if s[0] > t {
      AllAbove(s, t);
    }
  }

  lemma {:induction false} AllAbove(s: seq<int>, t: int)
    requires Sorted(s) && s != [] && s[0] > t
    ensures Above(s, t) == |s|
  {
    if |s| > 1 { AllAbove(s[1..], t); }
  }

  function Durations(w: seq<Sample>): seq<int> {
    seq(|w|, i requires 0 <= i < |w| => w[i].ms)
  }

  /** `v` is the value a sorted copy holds at `index`: at most `index` values lie below, at most the rest above. */
  ghost predicate IsOrderStatistic(s: seq<int>, index: nat, v: int) {
    index < |s| && Above(s, v) <= |s| - 1 - index && Above(s, v - 1) >= |s| - index
  }

  lemma RankOfSorted(r: seq<int>, index: nat)
    requires Sorted(r) && index < |r|
    ensures IsOrderStatistic(r, index, r[index])
  {
    SortedAbove(r, index, r[index]);
    SortedAbove(r, index, r[index] - 1);
  }

  ghost predicate IsSortOf(r: seq<int>, s: seq<int>) {
    |r| == |s| && Sorted(r) && forall t :: Above(r, t) == Above(s, t)
  }

  method SortValues(s: seq<int>) returns (r: seq<int>)
    ensures IsSortOf(r, s)
  {
    r := Sort(s);
    forall t ensures Above(r, t) == Above(s, t) {
      SortAbove(s, t);
    }
  }

  /** A sorted sequence shows the order statistics of what was sorted. */
  lemma RankIsOrderStatistic(s: seq<int>, r: seq<int>, index: nat)
    requires IsSortOf(r, s) && index < |s|
    ensures IsOrderStatistic(s, index, r[index])
  {
    RankOfSorted(r, index);
  }

  /**
   * Each percentile is the order statistic at its floored rank, they are ordered, and the pause signal counts
   * samples above the threshold.
   */
  ghost predicate Summary(d: seq<int>, m: Metrics)
    requires d != []
  {
    var n := |d|;
    && m.sampleCount == n
    && IsOrderStatistic(d, n / 2, m.p50)
    && IsOrderStatistic(d, 19 * n / 20, m.p95)
    && IsOrderStatistic(d, n - 1, m.max)
    && m.p50 <= m.p95 <= m.max
    && (m.signalPause <==> m.p95 > 500)
    && (m.signalPause <==> Above(d, 500) >= n - 19 * n / 20)
  }

  method Summarize(d: seq<int>) returns (m: Metrics)
    requires d != []
    ensures Summary(d, m)
  {
    var sorted := SortValues(d);
    var n := |d|;
    var p50, p95, max := sorted[n / 2], sorted[19 * n / 20], sorted[n - 1];
    RankIsOrderStatistic(d, sorted, n / 2);
    RankIsOrderStatistic(d, sorted, 19 * n / 20);
    RankIsOrderStatistic(d, sorted, n - 1);
    SortedAbove(sorted, 19 * n / 20, PAUSE_THRESHOLD_MS);
    m := Metrics(n, p50, p95, max, p95 > PAUSE_THRESHOLD_MS);
  }

  // ---------------------------------------------------------------- the window

  /** Dropping the first `k` samples ever recorded leaves only recent ones, and few enough. */
  ghost predicate Fits(all: seq<Sample>, k: nat, now: int) {
    k <= |all| && |all| - k <= 500 && forall i :: k <= i < |all| ==> all[i].ts >= now - 30_000
  }

  /** The simple definition: the longest suffix that fits. */
  ghost predicate IsLongestSuffix(all: seq<Sample>, w: seq<Sample>, now: int) {
    && |w| <= |all|
    && w == all[|all| - |w|..]
    && Fits(all, |all| - |w|, now)
    && forall k :: 0 <= k < |all| - |w| ==> !Fits(all, k, now)
  }

  class PublishLag {
    var window: seq<Sample>
    /** Every sample recorded so far, and the last clock reading. */
    ghost var all: seq<Sample>
    ghost var clock: int

    ghost predicate Valid()
      reads this
    {
      && (forall i, j :: 0 <= i < j < |all| ==> all[i].ts <= all[j].ts)
      && (forall i :: 0 <= i < |all| ==> all[i].ts <= clock)
      && IsLongestSuffix(all, window, clock)
    }

    constructor (now: int)
      ensures Valid() && all == [] && clock == now
    {
      window, all, clock := [], [], now;
    }

    /** Shifts old samples off the front, then the excess: under a clock that never goes back, exactly the longest suffix stays. */
    method Prune(now: int)
      requires clock <= now
      requires forall i, j :: 0 <= i < j < |all| ==> all[i].ts <= all[j].ts
      requires |window| <= |all| && window == all[|all| - |window|..]
      requires forall k :: 0 <= k < |all| - |window| ==> !Fits(all, k, now)
      modifies this`window
      ensures IsLongestSuffix(all, window, now)
    {
      var cutoff := now - WINDOW_MS;
      while |window| > 0 && window[0].ts < cutoff
        invariant |window| <= |all| && window == all[|all| - |window|..]
        invariant forall k :: 0 <= k < |all| - |window| ==> !Fits(all, k, now)
      {
        window := window[1..];
      }
      while |window| > MAX_SAMPLES
        invariant |window| <= |all| && window == all[|all| - |window|..]
        invariant forall i :: 0 <= i < |window| ==> window[i].ts >= cutoff
        invariant forall k :: 0 <= k < |all| - |window| ==> !Fits(all, k, now)
      {
        window := window[1..];
      }
    }

    method RecordLagSample(ms: int, now: int)
      requires Valid() && clock <= now
      modifies this
      ensures Valid() && clock == now && all == old(all) + [Sample(now, ms)]
    {
      StillTooLong(all, window, clock, now, Sample(now, ms));
      window := window + [Sample(now, ms)];
      all := all + [Sample(now, ms)];
      clock := now;
      Prune(now);
    }

    /** The metrics of the pruned window. */
    method GetPublishLagMetrics(now: int) returns (m: Metrics)
      requires Valid() && clock <= now
      modifies this
      ensures Valid() && clock == now && all == old(all)
      ensures window == [] ==> m == Metrics(0, 0, 0, 0, false)
      ensures window != [] ==> forall d: seq<int> :: |d| == |window| && (forall i :: 0 <= i < |d| ==> d[i] == window[i].ms) ==> Summary(d, m)
    {
      StillTooLong(all, window, clock, now, Sample(now, 0));
      clock := now;
      Prune(now);
      if |window| == 0 { return Metrics(0, 0, 0, 0, false); }
      m := Summarize(Durations(window));
      forall d: seq<int> | |d| == |window| && (forall i :: 0 <= i < |d| ==> d[i] == window[i].ms) ensures Summary(d, m) {
        assert d == Durations(window);
      }
    }
  }

  /** A suffix that did not fit earlier does not fit later, with one more sample. */
  lemma StillTooLong(all: seq<Sample>, w: seq<Sample>, before: int, now: int, x: Sample)
    requires before <= now && IsLongestSuffix(all, w, before)
    ensures forall k :: 0 <= k < |all| - |w| ==> !Fits(all + [x], k, now) && !Fits(all, k, now)
  {
    forall k | 0 <= k < |all| - |w| ensures !Fits(all + [x], k, now) && !Fits(all, k, now) {
      assert !Fits(all, k, before);
      if |all| - k <= 500 {
        var i :| k <= i < |all| && all[i].ts < before - 30_000;
        assert (all + [x])[i] == all[i];
      }
    }
  }
}
