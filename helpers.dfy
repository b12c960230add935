/** The pure helpers of src/utils/helpers.ts: the three-tier classifier, the
    millisecond/second choice of the duration formatter and the status colours. */
module Helpers {
  import opened Constants

  datatype MetricStatus = Good | NeedsImprovement | Poor

  /** Position of a tier from best (0) to worst (2). */
  function Rank(s: MetricStatus): nat
  {
    match s
    case Good => 0
    case NeedsImprovement => 1
    case Poor => 2
  }

  /** `getMetricStatus`: ties resolve to the better tier; `poor` is never read. */
  function GetMetricStatus(value: real, t: ThresholdSet): (r: MetricStatus)
    ensures r == Good <==> value <= t.good
    ensures r == NeedsImprovement <==> t.good < value <= t.needsImprovement
    ensures r == Poor <==> t.good < value && t.needsImprovement < value
  {
    if value <= t.good then Good
    else if value <= t.needsImprovement then NeedsImprovement
    else Poor
  }

  /** With ordered bounds, a larger value never receives a better tier. */
  lemma StatusMonotone(v1: real, v2: real, t: ThresholdSet)
    requires t.good <= t.needsImprovement
    requires v1 <= v2
    ensures Rank(GetMetricStatus(v1, t)) <= Rank(GetMetricStatus(v2, t))
  {
  }

  /** The classifier does not look at the `poor` bound. */
  lemma StatusIgnoresPoor(value: real, t: ThresholdSet, p: Bound)
    ensures GetMetricStatus(value, t) == GetMetricStatus(value, t.(poor := p))
  {
  }

  /** What `formatDuration` prints before digit rendering: the rounded
      millisecond count, or the value in seconds (shown with two decimals). */
  datatype Duration = Millis(rounded: int) | Seconds(value: real)

  function Suffix(d: Duration): string
  {
    match d
    case Millis(_) => "ms"
    case Seconds(_) => "s"
  }

  /** JavaScript's `Math.round`: halves round up, towards positive infinity. */
  function Round(x: real): (r: int)
    ensures r as real - 0.5 <= x < r as real + 0.5
  {
    (x + 0.5).Floor
  }

  function FormatDuration(ms: real): (r: Duration)
    ensures Suffix(r) == "ms" <==> ms < 1000.0
    ensures Suffix(r) == "s" <==> 1000.0 <= ms
    ensures r.Millis? ==> r.rounded as real - 0.5 <= ms < r.rounded as real + 0.5
    ensures r.Seconds? ==> r.value * 1000.0 == ms
  {
    if ms < 1000.0 then Millis(Round(ms)) else Seconds(ms / 1000.0)
  }

  /** The theme palette that stands for each tier. */
  function Palette(status: MetricStatus): string
  {
    match status
    case Good => "success"
    case NeedsImprovement => "warning"
    case Poor => "danger"
  }

  /** `getMetricColor`: the tier's palette as text colour, default shade in the
      light theme and light shade in the dark theme. */
  function GetMetricColor(status: MetricStatus): (r: string)
    ensures |r| > 5 + |Palette(status)|
    ensures r[..5] == "text-" && r[5..5 + |Palette(status)|] == Palette(status)
  {
    "text-" + Palette(status) + "-DEFAULT dark:text-" + Palette(status) + "-light"
  }

  /** `getMetricBgColor`: the same palette as `getMetricColor`, as a background
      at 10 percent opacity. */
  function GetMetricBgColor(status: MetricStatus): (r: string)
    ensures |r| > 3 + |Palette(status)|
    ensures r[..3] == "bg-" && r[3..3 + |Palette(status)|] == Palette(status)
  {
    "bg-" + Palette(status) + "-DEFAULT/10 dark:bg-" + Palette(status) + "-light/10"
  }

  /** Each colour map tells the three tiers apart. */
  lemma ColorsDistinct(s1: MetricStatus, s2: MetricStatus)
    requires s1 != s2
    ensures GetMetricColor(s1) != GetMetricColor(s2)
    ensures GetMetricBgColor(s1) != GetMetricBgColor(s2)
  {
  }
}
