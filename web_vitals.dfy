/** The browser-side collector and scorer of src/services/webVitals.ts. */
module WebVitals {
  import opened Types
  import Constants
  import Helpers

  /** The record the collector and the scorer work with: `inp`, not `fid`. */
  datatype WebVitalsRecord = WebVitalsRecord(lcp: real, inp: real, cls: real, fcp: real, ttfb: real)

  /** The five keys the collector waits for before it sends. */
  const CollectorKeys: set<VitalKey> := {Lcp, Inp, Cls, Fcp, Ttfb}

  // ---------------------------------------------------------------- scoring

  function LcpDeduction(lcp: real): int
  {
    if lcp > 4000.0 then 40 else if lcp > 2500.0 then 20 else if lcp > 2000.0 then 10 else 0
  }

  function InpDeduction(inp: real): int
  {
    if inp > 500.0 then 30 else if inp > 200.0 then 15 else 0
  }

  function ClsDeduction(cls: real): int
  {
    if cls > 0.25 then 30 else if cls > 0.1 then 15 else 0
  }

  /** `calculateScore`: 100 minus one deduction tier per scored vital, clamped at 0.
      The score is 100 exactly when every scored vital is within its lowest
      bound, and 0 exactly when every one is beyond its highest bound. */
  function CalculateScore(v: WebVitalsRecord): (r: int)
    ensures 0 <= r <= 100
    ensures r == 100 <==> v.lcp <= 2000.0 && v.inp <= 200.0 && v.cls <= 0.1
    ensures r == 0 <==> v.lcp > 4000.0 && v.inp > 500.0 && v.cls > 0.25
  {
    var score := 100 - LcpDeduction(v.lcp) - InpDeduction(v.inp) - ClsDeduction(v.cls);
    if score < 0 then 0 else score
  }

  /** fcp and ttfb never affect the score. */
  lemma ScoreIgnoresFcpTtfb(v: WebVitalsRecord, fcp: real, ttfb: real)
    ensures CalculateScore(v.(fcp := fcp, ttfb := ttfb)) == CalculateScore(v)
  {
  }

  /** Raising lcp, inp or cls (the others held or raised too) never raises the score. */
  lemma ScoreMonotone(v: WebVitalsRecord, w: WebVitalsRecord)
    requires v.lcp <= w.lcp && v.inp <= w.inp && v.cls <= w.cls
    ensures CalculateScore(w) <= CalculateScore(v)
  {
  }

  /** Each scored vital takes exactly one tier: with the other two good, the
      score shows that vital's single deduction, never a sum of tiers. */
  lemma ScoreSingleTier(v: WebVitalsRecord)
    ensures v.inp <= 200.0 && v.cls <= 0.1 ==>
      && (CalculateScore(v) == 60 <==> v.lcp > 4000.0)
      && (CalculateScore(v) == 80 <==> 2500.0 < v.lcp <= 4000.0)
      && (CalculateScore(v) == 90 <==> 2000.0 < v.lcp <= 2500.0)
    ensures v.lcp <= 2000.0 && v.cls <= 0.1 ==>
      && (CalculateScore(v) == 70 <==> v.inp > 500.0)
      && (CalculateScore(v) == 85 <==> 200.0 < v.inp <= 500.0)
    ensures v.lcp <= 2000.0 && v.inp <= 200.0 ==>
      && (CalculateScore(v) == 70 <==> v.cls > 0.25)
      && (CalculateScore(v) == 85 <==> 0.1 < v.cls <= 0.25)
  {
  }

  /** The bounds use strict `>`: lcp at 2500 with the others good is 90, and
      lcp just past 4000 costs at least 40 points. */
  lemma ScoreBoundaries(v: WebVitalsRecord)
    ensures v.lcp == 2500.0 && v.inp <= 200.0 && v.cls <= 0.1 ==> CalculateScore(v) == 90
    ensures v.lcp > 4000.0 ==> CalculateScore(v) <= 60
  {
  }

  /** For lcp and cls the largest deduction applies exactly in the poor tier of
      the threshold table and the middle one exactly in the needs-improvement tier. */
  lemma DeductionMatchesTier(v: WebVitalsRecord)
    ensures LcpDeduction(v.lcp) == 40 <==> Helpers.GetMetricStatus(v.lcp, Constants.Threshold(Lcp)) == Helpers.Poor
    ensures LcpDeduction(v.lcp) == 20 <==> Helpers.GetMetricStatus(v.lcp, Constants.Threshold(Lcp)) == Helpers.NeedsImprovement
    ensures ClsDeduction(v.cls) == 30 <==> Helpers.GetMetricStatus(v.cls, Constants.Threshold(Cls)) == Helpers.Poor
    ensures ClsDeduction(v.cls) == 15 <==> Helpers.GetMetricStatus(v.cls, Constants.Threshold(Cls)) == Helpers.NeedsImprovement
  {
  }

  // ------------------------------------------------- records and samples

  /** The five-key object the collector builds from a record. */
  function ToMetrics(v: WebVitalsRecord): (m: map<VitalKey, real>)
    ensures m.Keys == CollectorKeys
  {
    map[Lcp := v.lcp, Inp := v.inp, Cls := v.cls, Fcp := v.fcp, Ttfb := v.ttfb]
  }

  /** Reading the five collector keys of an object as a record. */
  function FromMetrics(m: map<VitalKey, real>): (v: WebVitalsRecord)
    requires CollectorKeys <= m.Keys
    ensures ToMetrics(v) == m - (m.Keys - CollectorKeys)
  {
    WebVitalsRecord(m[Lcp], m[Inp], m[Cls], m[Fcp], m[Ttfb])
  }

  lemma MetricsRoundTrip(v: WebVitalsRecord)
    ensures FromMetrics(ToMetrics(v)) == v
  {
  }

  /** The periodic flush's record: recorded values pass through, missing ones are 0. */
  function ZeroFilled(m: map<VitalKey, real>): (v: WebVitalsRecord)
    ensures forall k :: k in CollectorKeys ==> ToMetrics(v)[k] == if k in m then m[k] else 0.0
  {
    WebVitalsRecord(
      if Lcp in m then m[Lcp] else 0.0,
      if Inp in m then m[Inp] else 0.0,
      if Cls in m then m[Cls] else 0.0,
      if Fcp in m then m[Fcp] else 0.0,
      if Ttfb in m then m[Ttfb] else 0.0)
  }

  /** On a complete map the flush sends the same values as the completion path. */
  lemma ZeroFilledComplete(m: map<VitalKey, real>)
    requires CollectorKeys <= m.Keys
    ensures ZeroFilled(m) == FromMetrics(m)
  {
  }

  /** What the browser environment supplies when a sample is built: the random
      id, `Date.now()`, the page URL, the user agent and the connection type. */
  datatype Env = Env(id: string, now: int, url: string, userAgent: string, effectiveType: Option<string>)

  /** `connection?.effectiveType || 'unknown'`: an absent or empty type becomes "unknown". */
  function ConnectionType(effectiveType: Option<string>): (r: string)
    ensures effectiveType.Some? && effectiveType.value != "" ==> r == effectiveType.value
    ensures effectiveType.None? || effectiveType.value == "" ==> r == "unknown"
    ensures r != ""
  {
    if effectiveType.Some? && effectiveType.value != "" then effectiveType.value else "unknown"
  }

  /** The record `sendMetricsToBackend` posts for a complete vitals object. */
  function BuildSample(metrics: map<VitalKey, real>, env: Env): (s: PerformanceMetric)
    requires CollectorKeys <= metrics.Keys
    ensures s.metrics == metrics
    ensures s.score == CalculateScore(FromMetrics(metrics)) && 0 <= s.score <= 100
    ensures s.id == env.id && s.timestamp == env.now && s.url == env.url && s.userAgent == env.userAgent
    ensures s.connectionType == Some(ConnectionType(env.effectiveType))
  {
    PerformanceMetric(env.id, env.now, env.url, metrics, env.userAgent,
      Some(ConnectionType(env.effectiveType)), CalculateScore(FromMetrics(metrics)))
  }

  // --------------------------------------------------------------- collector

  predicate IsComplete(m: map<VitalKey, real>)
  {
    CollectorKeys <= m.Keys
  }

  /** The module-level `collectedMetrics` object and the log of what was sent.
      The object is never cleared: once complete, every later arrival sends again. */
  class Collector {
    var collected: map<VitalKey, real>
    var emitted: seq<PerformanceMetric>

    /** Only collector keys are recorded, and every record sent so far
        carries exactly the five collector keys. */
    ghost predicate Valid()
      reads this
    {
      && collected.Keys <= CollectorKeys
      && forall i :: 0 <= i < |emitted| ==> emitted[i].metrics.Keys == CollectorKeys
    }

    constructor ()
      ensures Valid() && collected == map[] && emitted == []
    {
      collected := map[];
      emitted := [];
    }

    /** `handleMetric`: record the value under its key (last write wins), then
        send the whole object when all five keys are present. */
    method HandleMetric(key: VitalKey, value: real, env: Env)
      requires Valid() && key in CollectorKeys
      modifies this
      ensures Valid()
      ensures collected == old(collected)[key := value]
      ensures forall k :: k in old(collected) && k != key ==> k in collected && collected[k] == old(collected)[k]
      ensures IsComplete(collected) ==> emitted == old(emitted) + [BuildSample(collected, env)]
      ensures !IsComplete(collected) ==> emitted == old(emitted)
      ensures old(IsComplete(collected)) ==> |emitted| == |old(emitted)| + 1
      ensures forall i :: 0 <= i < |emitted| ==> emitted[i].metrics.Keys == CollectorKeys
    {
      collected := collected[key := value];
      if IsComplete(collected) {
        emitted := emitted + [BuildSample(collected, env)];
      }
    }

    /** The 30-second interval callback: when anything is recorded, send a
        zero-filled record; the collected object is left as it is. */
    method Tick(env: Env)
      requires Valid()
      modifies this`emitted
      ensures Valid() && collected == old(collected)
      ensures |collected| > 0 ==> emitted == old(emitted) + [BuildSample(ToMetrics(ZeroFilled(collected)), env)]
      ensures |collected| == 0 ==> emitted == old(emitted)
      ensures forall i :: 0 <= i < |emitted| ==> emitted[i].metrics.Keys == CollectorKeys
    {
      if |collected| > 0 {
        emitted := emitted + [BuildSample(ToMetrics(ZeroFilled(collected)), env)];
      }
    }
  }

  /** lcp, inp, cls and fcp arrive but ttfb never does: nothing is sent on
      arrival, and the next tick sends exactly one record with ttfb = 0. */
  method MissingTtfbScenario(lcp: real, inp: real, cls: real, fcp: real, env: Env)
    returns (sent: seq<PerformanceMetric>)
    ensures |sent| == 1
    ensures sent[0].metrics == map[Lcp := lcp, Inp := inp, Cls := cls, Fcp := fcp, Ttfb := 0.0]
    ensures sent[0].score == CalculateScore(WebVitalsRecord(lcp, inp, cls, fcp, 0.0))
  {
    var c := new Collector();
    c.HandleMetric(Lcp, lcp, env);
    c.HandleMetric(Inp, inp, env);
    c.HandleMetric(Cls, cls, env);
    c.HandleMetric(Fcp, fcp, env);
    assert c.collected == map[Lcp := lcp, Inp := inp, Cls := cls, Fcp := fcp];
    assert c.emitted == [];
    c.Tick(env);
    sent := c.emitted;
  }
}
