/** The static tables of src/utils/constants.ts: per-metric tier bounds after
    Google's Core Web Vitals guidance, display labels and descriptions. */
module Constants {
  import opened Types

  /** An upper bound that may be the JavaScript `Infinity`. */
  datatype Bound = Finite(limit: real) | Infinity

  /** One row of the threshold table: values up to `good` are good, up to
      `needsImprovement` need improvement, and the rest are poor up to `poor`. */
  datatype ThresholdSet = ThresholdSet(good: real, needsImprovement: real, poor: Bound)

  /** The keys every table in this file is indexed by: `fid`, not `inp`. */
  const TableKeys: set<VitalKey> := {Lcp, Fid, Cls, Fcp, Ttfb}

  const WebVitalsThresholds: map<VitalKey, ThresholdSet> := map[
    Lcp := ThresholdSet(2500.0, 4000.0, Infinity),
    Fid := ThresholdSet(100.0, 300.0, Infinity),
    Cls := ThresholdSet(0.1, 0.25, Infinity),
    Fcp := ThresholdSet(1800.0, 3000.0, Infinity),
    Ttfb := ThresholdSet(800.0, 1800.0, Infinity)]

  const MetricLabels: map<VitalKey, string> := map[
    Lcp := "Largest Contentful Paint",
    Fid := "First Input Delay",
    Cls := "Cumulative Layout Shift",
    Fcp := "First Contentful Paint",
    Ttfb := "Time to First Byte"]

  const MetricDescriptions: map<VitalKey, string> := map[
    Lcp := "Measures loading performance. Should occur within 2.5s of page load.",
    Fid := "Measures interactivity. Pages should have an FID of 100ms or less.",
    Cls := "Measures visual stability. Pages should maintain a CLS of 0.1 or less.",
    Fcp := "Measures perceived load speed. Should occur within 1.8s.",
    Ttfb := "Measures server response time. Should be within 800ms."]

  /** `WEB_VITALS_THRESHOLDS[key]` for a key of the table. */
  function Threshold(key: VitalKey): (t: ThresholdSet)
    requires key in TableKeys
    ensures t.good < t.needsImprovement
    ensures t.poor == Infinity
    ensures key == Lcp ==> t.good == 2500.0 && t.needsImprovement == 4000.0
    ensures key == Fid ==> t.good == 100.0 && t.needsImprovement == 300.0
    ensures key == Cls ==> t.good == 0.1 && t.needsImprovement == 0.25
    ensures key == Fcp ==> t.good == 1800.0 && t.needsImprovement == 3000.0
    ensures key == Ttfb ==> t.good == 800.0 && t.needsImprovement == 1800.0
  {
    WebVitalsThresholds[key]
  }

  /** The three tables share one key set, and `inp` is in none of them. */
  lemma TablesShareKeys()
    ensures WebVitalsThresholds.Keys == MetricLabels.Keys == MetricDescriptions.Keys == TableKeys
    ensures Inp !in TableKeys
  {
  }
}
