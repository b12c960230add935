/** The client-side metrics cache of src/stores/metricsStore.ts: a current
    sample, a history capped at the last 100 appends, and a connection record. */
module Store {
  import opened Types

  const HistoryCapacity: nat := 100

  /** `[...history, metric].slice(-100)`. */
  function Appended(history: seq<PerformanceMetric>, metric: PerformanceMetric): (r: seq<PerformanceMetric>)
    ensures |r| <= HistoryCapacity
    ensures |r| > 0 && r[|r| - 1] == metric
    ensures |history| < HistoryCapacity ==> r == history + [metric]
    ensures |history| >= HistoryCapacity ==> |r| == HistoryCapacity
    ensures r == (history + [metric])[|history| + 1 - |r|..]
  {
    TakeLast(history + [metric], HistoryCapacity)
  }

  /** The history after appending each of `metrics` in turn. */
  function AppendAll(history: seq<PerformanceMetric>, metrics: seq<PerformanceMetric>): seq<PerformanceMetric>
    decreases |metrics|
  {
    if metrics == [] then history
    else Appended(AppendAll(history, metrics[..|metrics| - 1]), metrics[|metrics| - 1])
  }

  /** Eviction is strict first-in first-out: after at least one append, the
      history is the last 100 of everything ever put in it, in order. */
  lemma {:induction false} AppendAllKeepsNewest(history: seq<PerformanceMetric>, metrics: seq<PerformanceMetric>)
    requires metrics != []
    ensures AppendAll(history, metrics) == TakeLast(history + metrics, HistoryCapacity)
    decreases |metrics|
  {
    var init, last := metrics[..|metrics| - 1], metrics[|metrics| - 1];
    assert metrics == init + [last];
    assert history + metrics == (history + init) + [last];
    if init == [] {
      assert history + init == history;
    } else {
      AppendAllKeepsNewest(history, init);
      TakeLastAbsorbs(history + init, last, HistoryCapacity);
    }
  }

  /** 150 appends to an empty history keep 100, starting at the 51st. */
  lemma OverflowScenario(metrics: seq<PerformanceMetric>)
    requires |metrics| == 150
    ensures |AppendAll([], metrics)| == 100
    ensures AppendAll([], metrics)[0] == metrics[50]
    ensures AppendAll([], metrics) == metrics[50..]
  {
    AppendAllKeepsNewest([], metrics);
    assert [] + metrics == metrics;
  }

  /** A `Partial<ConnectionStatus>`: the fields a caller supplies. */
  datatype StatusPatch = StatusPatch(connected: Option<bool>, latency: Option<int>, lastUpdate: Option<int>)

  /** `{...status, ...patch}`: supplied fields win, the others are kept. */
  function Merge(status: ConnectionStatus, patch: StatusPatch): (r: ConnectionStatus)
    ensures r.connected == if patch.connected.Some? then patch.connected.value else status.connected
    ensures r.latency == if patch.latency.Some? then patch.latency.value else status.latency
    ensures r.lastUpdate == if patch.lastUpdate.Some? then patch.lastUpdate.value else status.lastUpdate
  {
    ConnectionStatus(
      if patch.connected.Some? then patch.connected.value else status.connected,
      if patch.latency.Some? then patch.latency.value else status.latency,
      if patch.lastUpdate.Some? then patch.lastUpdate.value else status.lastUpdate)
  }

  /** Merging the same patch twice is merging it once; the empty patch changes nothing. */
  lemma MergeIdempotent(status: ConnectionStatus, patch: StatusPatch)
    ensures Merge(Merge(status, patch), patch) == Merge(status, patch)
    ensures Merge(status, StatusPatch(None, None, None)) == status
  {
  }

  class MetricsStore {
    var currentMetric: Option<PerformanceMetric>
    var historicalMetrics: seq<PerformanceMetric>
    var connectionStatus: ConnectionStatus

    /** The initial state; `now` stands for the `Date.now()` read at creation. */
    constructor (now: int)
      ensures currentMetric == None && historicalMetrics == []
      ensures connectionStatus == ConnectionStatus(false, 0, now)
    {
      currentMetric := None;
      historicalMetrics := [];
      connectionStatus := ConnectionStatus(false, 0, now);
    }

    /** Point at a new sample and stamp `lastUpdate`; nothing else changes. */
    method SetCurrentMetric(metric: PerformanceMetric, now: int)
      modifies this
      ensures currentMetric == Some(metric)
      ensures connectionStatus == old(connectionStatus).(lastUpdate := now)
      ensures historicalMetrics == old(historicalMetrics)
    {
      currentMetric := Some(metric);
      connectionStatus := connectionStatus.(lastUpdate := now);
    }

    /** Append and keep the last 100. */
    method AddHistoricalMetric(metric: PerformanceMetric)
      modifies this
      ensures historicalMetrics == Appended(old(historicalMetrics), metric)
      ensures |historicalMetrics| <= HistoryCapacity
      ensures historicalMetrics[|historicalMetrics| - 1] == metric
      ensures currentMetric == old(currentMetric) && connectionStatus == old(connectionStatus)
    {
      historicalMetrics := Appended(historicalMetrics, metric);
    }

    /** Replace the history wholesale; no cap is applied here. */
    method SetHistoricalMetrics(metrics: seq<PerformanceMetric>)
      modifies this
      ensures historicalMetrics == metrics
      ensures currentMetric == old(currentMetric) && connectionStatus == old(connectionStatus)
    {
      historicalMetrics := metrics;
    }

    /** Overwrite the supplied status fields and keep the rest. */
    method SetConnectionStatus(patch: StatusPatch)
      modifies this
      ensures connectionStatus == Merge(old(connectionStatus), patch)
      ensures currentMetric == old(currentMetric) && historicalMetrics == old(historicalMetrics)
    {
      connectionStatus := Merge(connectionStatus, patch);
    }

    /** Forget the current sample and the history; the connection record stays. */
    method ClearMetrics()
      modifies this
      ensures currentMetric == None && historicalMetrics == []
      ensures connectionStatus == old(connectionStatus)
    {
      currentMetric := None;
      historicalMetrics := [];
    }
  }
}
