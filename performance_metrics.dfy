/**
 * The performance sampler widget: every tick it times one request to the
 * API, appends a sample to a sliding window of the last 20 samples, and
 * derives a mean latency and a success rate.
 */
module PerformanceMetrics {
  import opened Fetch

  /** One measurement: its time label, the rounded round-trip latency in ms, and `response.ok`. */
  datatype Sample = Sample(time: string, responseTime: nat, success: bool)

  const WINDOW_SIZE: nat := 20

  function Min(a: nat, b: nat): nat {
    if a <= b then a else b
  }

  /** `s.slice(-20)`: the last 20 elements of `s`, or all of `s` when it is shorter. */
  function Recent(s: seq<Sample>): (r: seq<Sample>)
    ensures |r| == Min(|s|, WINDOW_SIZE)
    ensures r == s[|s| - |r|..]
  {
    if |s| <= WINDOW_SIZE then s else s[|s| - WINDOW_SIZE..]
  }

  /**
   * `[...prev, p].slice(-20)`: the window after inserting `p`. The new
   * sample is last, the samples before it are the newest ones of `prev` in
   * their original order, and at most 20 remain.
   */
  function Window(prev: seq<Sample>, p: Sample): (w: seq<Sample>)
    ensures |w| == Min(|prev| + 1, WINDOW_SIZE)
    ensures w == prev[|prev| + 1 - |w|..] + [p]
    ensures w[|w| - 1] == p
    ensures |prev| < WINDOW_SIZE ==> w == prev + [p]
    ensures |prev| == WINDOW_SIZE ==> w == prev[1..] + [p]
  {
    var u := prev + [p];
    assert u[|u| - Min(|u|, WINDOW_SIZE)..] == prev[|prev| + 1 - Min(|u|, WINDOW_SIZE)..] + [p];
    Recent(u)
  }

  /** The window after inserting the samples of `ps` one at a time, oldest first. */
  function Windows(prev: seq<Sample>, ps: seq<Sample>): seq<Sample>
    decreases |ps|
  {
    if ps == [] then prev else Windows(Window(prev, ps[0]), ps[1..])
  }

  lemma {:induction false} RecentOfRecent(u: seq<Sample>, rest: seq<Sample>)
    ensures Recent(Recent(u) + rest) == Recent(u + rest)
  {
    var r := Recent(u);
    var a, b := r + rest, u + rest;
    assert a == b[|b| - |a|..];
    assert Recent(a) == b[|b| - |Recent(a)|..];
  }

  /**
   * However many samples are inserted, the window always holds exactly
   * the newest 20 of everything seen (oldest evicted first).
   */
  lemma {:induction false} WindowsAreRecent(prev: seq<Sample>, ps: seq<Sample>)
    requires ps != []
    ensures Windows(prev, ps) == Recent(prev + ps)
    decreases |ps|
  {
    var w := Window(prev, ps[0]);
    assert prev + ps == (prev + [ps[0]]) + ps[1..];
    if ps[1..] == [] {
      assert ps == [ps[0]];
    } else {
      WindowsAreRecent(w, ps[1..]);
      RecentOfRecent(prev + [ps[0]], ps[1..]);
    }
  }

  /** `reduce((sum, m) => sum + m.responseTime, 0)`: 0 for no samples, and never less than any one latency. */
  function TotalResponseTime(s: seq<Sample>): (t: nat)
    ensures s == [] ==> t == 0
    ensures forall i :: 0 <= i < |s| ==> s[i].responseTime <= t
  {
    if s == [] then 0 else TotalResponseTime(s[..|s| - 1]) + s[|s| - 1].responseTime
  }

  /** `filter((m) => m.success).length`: never more than the number of samples. */
  function SuccessCount(s: seq<Sample>): (c: nat)
    ensures c <= |s|
    ensures c == |s| <==> forall i :: 0 <= i < |s| ==> s[i].success
    ensures c == 0 <==> forall i :: 0 <= i < |s| ==> !s[i].success
  {
    if s == [] then 0 else SuccessCount(s[..|s| - 1]) + (if s[|s| - 1].success then 1 else 0)
  }

  /**
   * `Math.round(a / b)` for non-negative `a` and positive `b`: the integer
   * nearest to a/b, halves rounded up.
   */
  function RoundHalfUp(a: nat, b: nat): (r: nat)
    requires b > 0
    ensures 2 * r * b <= 2 * a + b < 2 * (r + 1) * b
  {
    var q := (2 * a + b) / (2 * b);
    assert q * (2 * b) <= 2 * a + b < (q + 1) * (2 * b);
    q
  }

  /** Every response time in `s` lies between `lo` and `hi`. */
  predicate LatenciesWithin(s: seq<Sample>, lo: nat, hi: nat) {
    forall i :: 0 <= i < |s| ==> lo <= s[i].responseTime <= hi
  }

  lemma {:induction false} TotalResponseTimeBounded(s: seq<Sample>, lo: nat, hi: nat)
    requires LatenciesWithin(s, lo, hi)
    ensures lo * |s| <= TotalResponseTime(s) <= hi * |s|
  {
    if s != [] {
      var init, n := s[..|s| - 1], |s|;
      TotalResponseTimeBounded(init, lo, hi);
      assert TotalResponseTime(s) == TotalResponseTime(init) + s[n - 1].responseTime;
      assert lo * (n - 1) + lo == lo * n;
      assert hi * (n - 1) + hi == hi * n;
    }
  }

  lemma MulMono(a: nat, b: nat, n: nat)
    requires a <= b
    ensures a * n <= b * n
  {
  }

  /**
   * The mean latency the widget displays for `recent` (never empty: it
   * includes the new sample): the rounded mean of the response times,
   * which lies between the smallest and the largest of them.
   */
  function MeanResponseTime(recent: seq<Sample>): (r: nat)
    requires |recent| > 0
    ensures 2 * r * |recent| <= 2 * TotalResponseTime(recent) + |recent| < 2 * (r + 1) * |recent|
    ensures forall lo: nat, hi: nat :: LatenciesWithin(recent, lo, hi) ==> lo <= r <= hi
  {
    var n := |recent|;
    var r := RoundHalfUp(TotalResponseTime(recent), n);
    forall lo: nat, hi: nat | LatenciesWithin(recent, lo, hi)
      ensures lo <= r <= hi
    {
      TotalResponseTimeBounded(recent, lo, hi);
      MeanWithinBounds(TotalResponseTime(recent), n, r, lo, hi);
    }
    r
  }

  lemma MeanWithinBounds(t: nat, n: nat, r: nat, lo: nat, hi: nat)
    requires n > 0
    requires 2 * r * n <= 2 * t + n < 2 * (r + 1) * n
    requires lo * n <= t <= hi * n
    ensures lo <= r <= hi
  {
    MulCancelStrict(2 * r, 2 * hi + 2, n);
    MulCancelStrict(2 * lo, 2 * r + 2, n);
  }

  /**
   * The success rate the widget displays for `recent`: the percentage of
   * successful samples, rounded to the nearest integer; always in [0, 100].
   * For a window of at most 20 samples it is 100 exactly when every sample
   * succeeded and 0 exactly when none did.
   */
  function SuccessRate(recent: seq<Sample>): (r: nat)
    requires |recent| > 0
    ensures 2 * r * |recent| <= 200 * SuccessCount(recent) + |recent| < 2 * (r + 1) * |recent|
    ensures r <= 100
    ensures |recent| <= WINDOW_SIZE ==> (r == 100 <==> SuccessCount(recent) == |recent|)
    ensures |recent| <= WINDOW_SIZE ==> (r == 0 <==> SuccessCount(recent) == 0)
  {
    var n, c := |recent|, SuccessCount(recent);
    var r := RoundHalfUp(100 * c, n);
    RateBounds(c, n, r);
    r
  }

  lemma RateBounds(c: nat, n: nat, r: nat)
    requires 0 < n && c <= n
    requires 2 * r * n <= 200 * c + n < 2 * (r + 1) * n
    ensures r <= 100
    ensures n <= WINDOW_SIZE ==> (r == 100 <==> c == n)
    ensures n <= WINDOW_SIZE ==> (r == 0 <==> c == 0)
  {
    MulMono(c, n, 200);
    MulCancel(2 * r, 201, n);
    if c == n {
      MulCancelStrict(201, 2 * (r + 1), n);
    }
    if c == 0 {
      MulCancel(2 * r, 1, n);
    }
    if r == 100 {
      assert 2 * r * n == 200 * n;
    }
    if r == 0 {
      assert 2 * (r + 1) * n == 2 * n;
    }
  }

  lemma MulCancel(a: nat, b: nat, n: nat)
    requires n > 0 && a * n <= b * n
    ensures a <= b
  {
  }

  lemma MulCancelStrict(a: nat, b: nat, n: nat)
    requires n > 0 && a * n < b * n
    ensures a < b
  {
  }

  /** The sampler's state cells: the stored window and the two displayed statistics. */
  datatype SamplerView = SamplerView(metrics: seq<Sample>, avgResponseTime: nat, successRate: nat)

  /** The state on mount: an empty window, mean 0 ms, success rate 100%. */
  function Initial(): (v: SamplerView)
    ensures v.metrics == [] && v.avgResponseTime == 0 && v.successRate == 100
  {
    SamplerView([], 0, 100)
  }

  /**
   * The state after one run of `measurePerformance`. `fetch` is what the
   * request did, `responseTime` the rounded latency it took, `time` the
   * clock label, and `captured` the `metrics` value the running callback
   * closed over, from which the statistics are computed (the window cell
   * itself is updated from its own previous value). A resolved request
   * inserts a sample carrying `response.ok` and sets both statistics; a
   * thrown one inserts a failed zero-latency sample and keeps them. The
   * window never exceeds 20 samples and the rate never exceeds 100.
   */
  function AfterMeasure(v: SamplerView, fetch: FetchResult, responseTime: nat, time: string, captured: seq<Sample>): (w: SamplerView)
    ensures |w.metrics| <= WINDOW_SIZE
    ensures v.successRate <= 100 ==> w.successRate <= 100
    ensures fetch.Resolved? ==>
      var p := Sample(time, responseTime, Ok(fetch.status));
      w.metrics == Window(v.metrics, p) &&
      w.avgResponseTime == MeanResponseTime(Window(captured, p)) &&
      w.successRate == SuccessRate(Window(captured, p))
    ensures fetch.Rejected? ==>
      w.metrics == Window(v.metrics, Sample(time, 0, false)) &&
      w.avgResponseTime == v.avgResponseTime &&
      w.successRate == v.successRate
  {
    match fetch
    case Resolved(status) =>
      var p := Sample(time, responseTime, Ok(status));
      var recentMetrics := Window(captured, p);
      SamplerView(Window(v.metrics, p), MeanResponseTime(recentMetrics), SuccessRate(recentMetrics))
    case Rejected(_) =>
      v.(metrics := Window(v.metrics, Sample(time, 0, false)))
  }

  /** The sampler's state cells, updated in place by `measurePerformance`. */
  class Sampler {
    var metrics: seq<Sample>
    var avgResponseTime: nat
    var successRate: nat

    function View(): SamplerView
      reads this
    {
      SamplerView(metrics, avgResponseTime, successRate)
    }

    ghost predicate Valid()
      reads this
    {
      |metrics| <= WINDOW_SIZE && successRate <= 100
    }

    constructor ()
      ensures Valid() && View() == Initial()
    {
      metrics := [];
      avgResponseTime := 0;
      successRate := 100;
    }

    /** One run of `measurePerformance`: the window update, then the statistics on the success path. */
    method MeasurePerformance(fetch: FetchResult, responseTime: nat, time: string, captured: seq<Sample>)
      requires Valid()
      modifies this
      ensures Valid()
      ensures View() == AfterMeasure(old(View()), fetch, responseTime, time, captured)
    {
      match fetch {
        case Resolved(status) =>
          var p := Sample(time, responseTime, Ok(status));
          metrics := Window(metrics, p);
          var recentMetrics := Window(captured, p);
          avgResponseTime := MeanResponseTime(recentMetrics);
          successRate := SuccessRate(recentMetrics);
        case Rejected(_) =>
          metrics := Window(metrics, Sample(time, 0, false));
      }
    }
  }

  /**
   * The callback the widget schedules on mount closes over the mount-time
   * `metrics`, which is empty, so the statistics it displays describe the
   * newest sample alone, whatever the stored window holds.
   */
  lemma MountClosureStatistics(p: Sample)
    ensures MeanResponseTime(Window([], p)) == p.responseTime
    ensures SuccessRate(Window([], p)) == if p.success then 100 else 0
  {
    assert Window([], p) == [p];
    assert TotalResponseTime([p]) == p.responseTime by {
      assert [p][..0] == [];
    }
    assert SuccessCount([p]) == if p.success then 1 else 0 by {
      assert [p][..0] == [];
    }
  }
}
