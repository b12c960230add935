/** The computations of the metrics detail page (src/pages/Metrics.tsx): the
    history fetch for a time range, the chart series and the summary statistics
    of one selected vital. */
module MetricsPage {
  import opened Types
  import opened Constants
  import opened Helpers
  import opened Store
  import WebVitals

  datatype TimeRange = OneHour | SixHours | OneDay

  function HoursFor(range: TimeRange): (h: nat)
    ensures range == OneHour ==> h == 1
    ensures range == SixHours ==> h == 6
    ensures range == OneDay ==> h == 24
  {
    match range
    case OneHour => 1
    case SixHours => 6
    case OneDay => 24
  }

  /** What the historical query yields to the page: null when the request
      failed, otherwise a body whose `data` array may be missing. */
  datatype HistoricalResponse = HistoricalResponse(data: Option<seq<PerformanceMetric>>)

  /** The fetch effect: ask for `HoursFor(range)` hours, then replace the history
      only when the response and its data are present. An empty array is
      present, so it does replace. */
  method FetchHistory(store: MetricsStore, range: TimeRange, response: Option<HistoricalResponse>)
    returns (requestedHours: nat)
    modifies store
    ensures requestedHours == HoursFor(range)
    ensures response.Some? && response.value.data.Some? ==>
      store.historicalMetrics == response.value.data.value
    ensures response.None? || response.value.data.None? ==>
      store.historicalMetrics == old(store.historicalMetrics)
    ensures store.currentMetric == old(store.currentMetric)
    ensures store.connectionStatus == old(store.connectionStatus)
  {
    requestedHours := HoursFor(range);
    if response.Some? && response.value.data.Some? {
      store.SetHistoricalMetrics(response.value.data.value);
    }
  }

  /** Every sample carries the selected vital. */
  predicate HasKey(history: seq<PerformanceMetric>, key: VitalKey)
  {
    forall i :: 0 <= i < |history| ==> key in history[i].metrics
  }

  /** The page offers every key of the label table, `fid` among them, but a
      history made of collector samples never carries `fid`: for that key the
      model's requirement fails, while the other four offered keys are present
      in every sample. */
  lemma CollectorHistoryLacksFid(history: seq<PerformanceMetric>)
    requires |history| > 0
    requires forall i :: 0 <= i < |history| ==> history[i].metrics.Keys == WebVitals.CollectorKeys
    ensures Fid in MetricLabels.Keys
    ensures !HasKey(history, Fid)
    ensures forall k :: k in MetricLabels.Keys && k != Fid ==> HasKey(history, k)
  {
    TablesShareKeys();
    assert Fid !in history[0].metrics.Keys;
  }

  /** `historicalMetrics.map(...)`: one point per sample, same order. */
  function ChartData(history: seq<PerformanceMetric>, key: VitalKey): (r: seq<ChartPoint>)
    requires HasKey(history, key)
    ensures |r| == |history|
    ensures forall i :: 0 <= i < |r| ==> r[i].timestamp == history[i].timestamp && r[i].value == history[i].metrics[key]
  {
    seq(|history|, i requires 0 <= i < |history| => ChartPoint(history[i].timestamp, history[i].metrics[key]))
  }

  /** The selected vital of each sample. */
  function Values(history: seq<PerformanceMetric>, key: VitalKey): (r: seq<real>)
    requires HasKey(history, key)
    ensures |r| == |history|
    ensures forall i :: 0 <= i < |r| ==> r[i] == history[i].metrics[key]
  {
    seq(|history|, i requires 0 <= i < |history| => history[i].metrics[key])
  }

  /** `values.reduce((sum, val) => sum + val, 0)`. */
  function Sum(s: seq<real>): (r: real)
    ensures |s| == 0 ==> r == 0.0
    ensures |s| == 1 ==> r == s[0]
  {
    if s == [] then 0.0 else Sum(s[..|s| - 1]) + s[|s| - 1]
  }

  /** `Math.min(...values)` on a non-empty list. */
  function MinOf(s: seq<real>): (r: real)
    requires |s| > 0
    ensures r in s
    ensures forall i :: 0 <= i < |s| ==> r <= s[i]
  {
    if |s| == 1 then s[0]
    else
      var m := MinOf(s[..|s| - 1]);
      if s[|s| - 1] < m then s[|s| - 1] else m
  }

  /** `Math.max(...values)` on a non-empty list. */
  function MaxOf(s: seq<real>): (r: real)
    requires |s| > 0
    ensures r in s
    ensures forall i :: 0 <= i < |s| ==> s[i] <= r
  {
    if |s| == 1 then s[0]
    else
      var m := MaxOf(s[..|s| - 1]);
      if s[|s| - 1] > m then s[|s| - 1] else m
  }

  /** The sum does not depend on where the list is split: reducing left to
      right over `a + b` adds the sums of the two parts. */
  lemma {:induction false} SumAppend(a: seq<real>, b: seq<real>)
    ensures Sum(a + b) == Sum(a) + Sum(b)
    decreases |b|
  {
    if b != [] {
      assert (a + b)[..|a + b| - 1] == a + b[..|b| - 1];
      SumAppend(a, b[..|b| - 1]);
    } else {
      assert a + b == a;
    }
  }

  /** A sum of `n` values each between `lo` and `hi` lies between `n * lo` and `n * hi`. */
  lemma {:induction false} SumBetween(s: seq<real>, lo: real, hi: real)
    requires forall i :: 0 <= i < |s| ==> lo <= s[i] <= hi
    ensures |s| as real * lo <= Sum(s) <= |s| as real * hi
    decreases |s|
  {
    if s != [] {
      var n := |s| as real;
      SumBetween(s[..|s| - 1], lo, hi);
      assert |s[..|s| - 1]| as real == n - 1.0;
      assert n * lo == (n - 1.0) * lo + lo && n * hi == (n - 1.0) * hi + hi;
    }
  }

  /** Dividing bounds `n * lo <= total <= n * hi` by a positive `n`. */
  lemma DivideBounds(total: real, n: real, lo: real, hi: real)
    requires n > 0.0 && n * lo <= total <= n * hi
    ensures lo <= total / n <= hi
  {
  }

  /** The arithmetic mean, `sum / values.length`. */
  function Mean(s: seq<real>): (r: real)
    requires |s| > 0
    ensures r * |s| as real == Sum(s)
  {
    Sum(s) / |s| as real
  }

  /** A mean of values between `lo` and `hi` is itself between them. */
  lemma MeanBetween(s: seq<real>, lo: real, hi: real)
    requires |s| > 0
    requires forall i :: 0 <= i < |s| ==> lo <= s[i] <= hi
    ensures lo <= Mean(s) <= hi
  {
    SumBetween(s, lo, hi);
    DivideBounds(Sum(s), |s| as real, lo, hi);
  }

  datatype Stats = Stats(avg: real, min: real, max: real, latest: real, status: MetricStatus)

  /** `calculateStats`: nothing for an empty history; otherwise the mean,
      extremes and last value of the selected vital, and the tier of the mean
      against that vital's row of the threshold table. */
  function CalculateStats(history: seq<PerformanceMetric>, key: VitalKey): (r: Option<Stats>)
    requires key in TableKeys && HasKey(history, key)
    ensures r.None? <==> |history| == 0
    ensures r.Some? ==>
      && r.value.avg == Mean(Values(history, key))
      && r.value.min <= r.value.avg <= r.value.max
      && (forall i :: 0 <= i < |history| ==> r.value.min <= history[i].metrics[key] <= r.value.max)
      && (exists i :: 0 <= i < |history| && history[i].metrics[key] == r.value.min)
      && (exists j :: 0 <= j < |history| && history[j].metrics[key] == r.value.max)
      && r.value.latest == history[|history| - 1].metrics[key]
      && r.value.status == GetMetricStatus(r.value.avg, Threshold(key))
  {
    if |history| == 0 then None
    else
      var values := Values(history, key);
      var avg := Mean(values);
      MeanBetween(values, MinOf(values), MaxOf(values));
      Some(Stats(avg, MinOf(values), MaxOf(values), values[|values| - 1], GetMetricStatus(avg, Threshold(key))))
  }
}
