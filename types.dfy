/** Record shapes shared by the telemetry core (src/types/index.ts), and the
    one sequence operation every layer uses: JavaScript's `slice(-n)`. */
module Types {

  datatype Option<+T> = None | Some(value: T)

  /** The names a vitals record can carry. The declared `WebVitals` type uses
      `fid`; the collector and scorer use `inp`. Both are kept so that every
      function can say which key set it assumes. */
  datatype VitalKey = Lcp | Inp | Fid | Cls | Fcp | Ttfb

  /** One finalized measurement. `metrics` is the JavaScript object of vitals:
      its key set is whatever the producer put in it. */
  datatype PerformanceMetric = PerformanceMetric(
    id: string,
    timestamp: int,
    url: string,
    metrics: map<VitalKey, real>,
    userAgent: string,
    connectionType: Option<string>,
    score: int)

  datatype ConnectionStatus = ConnectionStatus(connected: bool, latency: int, lastUpdate: int)

  /** The trend the backend attaches to a pushed sample; the client ignores it. */
  datatype ServerTrend = Improving | Steady | Degrading

  datatype MetricUpdate = MetricUpdate(metric: PerformanceMetric, trend: ServerTrend)

  /** A point of a chart series; the display label is not modelled. */
  datatype ChartPoint = ChartPoint(timestamp: int, value: real)

  /** `s.slice(-n)` for n > 0: the last `n` elements, or all of `s` when it is shorter. */
  function TakeLast<T>(s: seq<T>, n: nat): (r: seq<T>)
    requires n > 0
    ensures |r| == if |s| <= n then |s| else n
    ensures r == s[|s| - |r|..]
  {
    if |s| <= n then s else s[|s| - n..]
  }

  /** Taking the last `n` after one more append does not depend on whether the
      older part was already trimmed to `n`. */
  lemma TakeLastAbsorbs<T>(s: seq<T>, x: T, n: nat)
    requires n > 0
    ensures TakeLast(TakeLast(s, n) + [x], n) == TakeLast(s + [x], n)
  {
  }
}
