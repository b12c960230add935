/** The computations of the dashboard page (src/pages/Dashboard.tsx): the
    per-vital trend between the last two samples, the per-vital chart series
    over the last 20 samples, and the overall score. */
module DashboardPage {
  import opened Types
  import Constants
  import WebVitals

  datatype Direction = Up | Down | Stable

  datatype Trend = Trend(direction: Direction, value: real)

  function Abs(x: real): real
  {
    if x < 0.0 then -x else x
  }

  /** `sample?.metrics[key] || 0`: a missing vital reads as 0. */
  function ValueOrZero(sample: PerformanceMetric, key: VitalKey): (r: real)
    ensures key in sample.metrics ==> r == sample.metrics[key]
    ensures key !in sample.metrics ==> r == 0.0
  {
    if key in sample.metrics then sample.metrics[key] else 0.0
  }

  /** `((current - previous) / previous) * 100`. */
  function PercentChange(previous: real, current: real): (r: real)
    requires previous != 0.0
    ensures r * previous == (current - previous) * 100.0
  {
    (current - previous) / previous * 100.0
  }

  /** The trend from `previous` to `current`: stable when there is no previous
      value or the change is under 5 percent, otherwise the direction and size
      of the percent change. */
  function TrendBetween(previous: real, current: real): (r: Trend)
    ensures previous == 0.0 ==> r == Trend(Stable, 0.0)
    ensures r.direction == Stable <==> r.value == 0.0
    ensures r.direction != Stable ==>
      previous != 0.0 && r.value == Abs(PercentChange(previous, current)) && r.value >= 5.0
    ensures r.direction == Up ==> PercentChange(previous, current) >= 5.0
    ensures r.direction == Down ==> PercentChange(previous, current) <= -5.0
    ensures r.direction == Stable && previous != 0.0 ==> Abs(PercentChange(previous, current)) < 5.0
  {
    if previous == 0.0 then Trend(Stable, 0.0)
    else
      var percentChange := PercentChange(previous, current);
      if Abs(percentChange) < 5.0 then Trend(Stable, 0.0)
      else
        Trend(if percentChange > 0.0 then Up else Down, Abs(percentChange))
  }

  /** For a positive base, `a <= b` survives scaling by it. */
  lemma ScaleCompare(a: real, b: real, base: real)
    requires base > 0.0
    ensures a <= b <==> a * base <= b * base
  {
  }

  /** For a positive base, the percent change crosses +5 and -5 exactly at
      105 and 95 percent of the base. */
  lemma PercentBands(previous: real, current: real)
    requires previous > 0.0
    ensures PercentChange(previous, current) >= 5.0 <==> current >= previous * 1.05
    ensures PercentChange(previous, current) <= -5.0 <==> current <= previous * 0.95
  {
    var q := (current - previous) / previous;
    assert q * previous == current - previous;
    assert PercentChange(previous, current) == q * 100.0;
    ScaleCompare(0.05, q, previous);
    ScaleCompare(q, -0.05, previous);
  }

  /** For a positive previous reading the dead band is an interval: the trend
      is up from 105 percent of it, down from 95 percent of it, stable in between. */
  lemma TrendBands(previous: real, current: real)
    requires previous > 0.0
    ensures TrendBetween(previous, current).direction == Up <==> current >= previous * 1.05
    ensures TrendBetween(previous, current).direction == Down <==> current <= previous * 0.95
    ensures TrendBetween(previous, current).direction == Stable <==> previous * 0.95 < current < previous * 1.05
  {
    PercentBands(previous, current);
  }

  /** `calculateTrend`: fewer than two samples is stable; otherwise only the
      last two samples matter (the ten-sample window around them does not). */
  function CalculateTrend(history: seq<PerformanceMetric>, key: VitalKey): (r: Trend)
    ensures |history| < 2 ==> r == Trend(Stable, 0.0)
    ensures |history| >= 2 ==>
      r == TrendBetween(ValueOrZero(history[|history| - 2], key), ValueOrZero(history[|history| - 1], key))
  {
    if |history| < 2 then Trend(Stable, 0.0)
    else
      var recent := TakeLast(history, 10);
      var current := ValueOrZero(recent[|recent| - 1], key);
      var previous := ValueOrZero(recent[|recent| - 2], key);
      TrendBetween(previous, current)
  }

  /** A non-stable trend between positive readings is up exactly when the
      latest reading is larger. */
  lemma TrendUpWhenLarger(previous: real, current: real)
    requires previous > 0.0
    requires TrendBetween(previous, current).direction != Stable
    ensures TrendBetween(previous, current).direction == Up <==> current > previous
  {
  }

  // ----------------------------------------------------------- chart series

  const ChartWindow: nat := 20

  /** The keys the dashboard's series record is declared with. */
  const BucketKeys: set<VitalKey> := {Lcp, Fid, Cls, Fcp, Ttfb}

  /** The point one sample adds to the series of `key`: none when it lacks the key. */
  function PointOf(sample: PerformanceMetric, key: VitalKey): seq<ChartPoint>
  {
    if key in sample.metrics then [ChartPoint(sample.timestamp, sample.metrics[key])] else []
  }

  /** The series of one vital: a point for every sample that carries it, in order. */
  function Bucket(samples: seq<PerformanceMetric>, key: VitalKey): seq<ChartPoint>
  {
    if samples == [] then []
    else Bucket(samples[..|samples| - 1], key) + PointOf(samples[|samples| - 1], key)
  }

  lemma BucketSnoc(samples: seq<PerformanceMetric>, sample: PerformanceMetric, key: VitalKey)
    ensures Bucket(samples + [sample], key) == Bucket(samples, key) + PointOf(sample, key)
  {
  }

  /** Every key of every sample has a series to be pushed into. */
  predicate Bucketable(samples: seq<PerformanceMetric>)
  {
    forall i :: 0 <= i < |samples| ==> samples[i].metrics.Keys <= BucketKeys
  }

  /** The inner `forEach`: push the point of every key the sample carries onto
      that key's series, in whatever order the keys come. */
  method PushSample(buckets: map<VitalKey, seq<ChartPoint>>, sample: PerformanceMetric)
    returns (pushed: map<VitalKey, seq<ChartPoint>>)
    requires buckets.Keys == BucketKeys && sample.metrics.Keys <= BucketKeys
    ensures pushed.Keys == BucketKeys
    ensures forall k :: k in BucketKeys ==> pushed[k] == buckets[k] + PointOf(sample, k)
  {
    pushed := buckets;
    var pending := sample.metrics.Keys;
    ghost var done: set<VitalKey> := {};
    while pending != {}
      invariant pending + done == sample.metrics.Keys && pending !! done
      invariant pushed.Keys == BucketKeys
      invariant forall k :: k in BucketKeys ==>
        pushed[k] == buckets[k] + (if k in done then PointOf(sample, k) else [])
      decreases pending
    {
      var k :| k in pending;
      pushed := pushed[k := pushed[k] + [ChartPoint(sample.timestamp, sample.metrics[k])]];
      pending := pending - {k};
      done := done + {k};
    }
  }

  /** The outer `forEach` over the given samples, starting from five empty series. */
  method BucketAll(samples: seq<PerformanceMetric>) returns (buckets: map<VitalKey, seq<ChartPoint>>)
    requires Bucketable(samples)
    ensures buckets.Keys == BucketKeys
    ensures forall k :: k in BucketKeys ==> buckets[k] == Bucket(samples, k)
  {
    buckets := map[Lcp := [], Fid := [], Cls := [], Fcp := [], Ttfb := []];
    var i := 0;
    while i < |samples|
      invariant 0 <= i <= |samples|
      invariant buckets.Keys == BucketKeys
      invariant forall k :: k in BucketKeys ==> buckets[k] == Bucket(samples[..i], k)
    {
      ghost var before := samples[..i];
      buckets := PushSample(buckets, samples[i]);
      assert samples[..i + 1] == before + [samples[i]];
      forall k | k in BucketKeys
        ensures buckets[k] == Bucket(samples[..i + 1], k)
      {
        BucketSnoc(before, samples[i], k);
      }
      i := i + 1;
    }
    assert samples[..i] == samples;
  }

  /** The `chartData` memo: five empty series, then, for each of the last 20
      samples and each key it carries, push that point onto the key's series.
      A key without a series (such as `inp`) makes the push fail, so every key
      must be a series key. */
  method ChartBuckets(history: seq<PerformanceMetric>) returns (buckets: map<VitalKey, seq<ChartPoint>>)
    requires Bucketable(TakeLast(history, ChartWindow))
    ensures buckets.Keys == BucketKeys
    ensures forall k :: k in BucketKeys ==> buckets[k] == Bucket(TakeLast(history, ChartWindow), k)
    ensures forall k :: k in BucketKeys ==> |buckets[k]| <= ChartWindow
  {
    var recent := TakeLast(history, ChartWindow);
    buckets := BucketAll(recent);
    forall k | k in BucketKeys
      ensures |buckets[k]| <= ChartWindow
    {
      BucketLength(recent, k);
    }
  }

  /** A series never has more points than samples, so at most 20 on the dashboard. */
  lemma {:induction false} BucketLength(samples: seq<PerformanceMetric>, key: VitalKey)
    ensures |Bucket(samples, key)| <= |samples|
    decreases |samples|
  {
    if samples != [] {
      BucketLength(samples[..|samples| - 1], key);
    }
  }

  /** When every sample carries the key, the series is that vital of every
      sample, one point each and in the samples' order. */
  lemma {:induction false} BucketComplete(samples: seq<PerformanceMetric>, key: VitalKey)
    requires forall i :: 0 <= i < |samples| ==> key in samples[i].metrics
    ensures |Bucket(samples, key)| == |samples|
    ensures forall i :: 0 <= i < |samples| ==>
      Bucket(samples, key)[i] == ChartPoint(samples[i].timestamp, samples[i].metrics[key])
    decreases |samples|
  {
    if samples != [] {
      BucketComplete(samples[..|samples| - 1], key);
    }
  }

  /** The series keys are the keys of the threshold table, and a complete
      sample built by the collector carries `inp`, which has no series: the
      dashboard's precondition fails on the collector's own samples. */
  lemma CollectorSampleHasNoBucket(metrics: map<VitalKey, real>)
    requires WebVitals.IsComplete(metrics)
    ensures BucketKeys == Constants.TableKeys
    ensures Inp in metrics && Inp !in BucketKeys
    ensures !Bucketable([PerformanceMetric("", 0, "", metrics, "", None, 0)])
  {
    var sample := PerformanceMetric("", 0, "", metrics, "", None, 0);
    assert Inp in WebVitals.CollectorKeys;
    assert Inp in [sample][0].metrics.Keys;
  }

  // ---------------------------------------------------------- overall score

  /** `currentMetric?.score || 0`. */
  function OverallScore(current: Option<PerformanceMetric>): (r: int)
    ensures current.None? ==> r == 0
    ensures current.Some? ==> r == current.value.score
  {
    if current.Some? then current.value.score else 0
  }
}
