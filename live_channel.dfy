/** The live-channel handlers of src/hooks/useWebSocket.ts, as one dispatcher
    over a tagged event that drives the client cache. */
module LiveChannel {
  import opened Types
  import opened Store

  /** The handlers registered on the socket. */
  datatype Handler = OnConnect | OnDisconnect | OnMetricsUpdate | OnPing

  /** Which handler a socket event name reaches. */
  function HandlerFor(name: string): (r: Option<Handler>)
    ensures r == Some(OnConnect) <==> name == "connect"
    ensures r == Some(OnDisconnect) <==> name == "disconnect"
    ensures r == Some(OnMetricsUpdate) <==> name == "metrics:update"
    ensures r == Some(OnPing) <==> name == "ping"
    ensures r == None <==> name !in {"connect", "disconnect", "metrics:update", "ping"}
  {
    if name == "connect" then Some(OnConnect)
    else if name == "disconnect" then Some(OnDisconnect)
    else if name == "metrics:update" then Some(OnMetricsUpdate)
    else if name == "ping" then Some(OnPing)
    else None
  }

  /** An inbound event. A ping carries the time the pong was emitted and, when
      the backend acknowledged it, the time of the acknowledgement. */
  datatype Event =
    | Connect
    | Disconnect
    | MetricsUpdate(update: MetricUpdate)
    | Ping(sentAt: int, ackedAt: Option<int>)

  /** The socket event name an event arrives under. */
  function EventName(ev: Event): string
  {
    match ev
    case Connect => "connect"
    case Disconnect => "disconnect"
    case MetricsUpdate(_) => "metrics:update"
    case Ping(_, _) => "ping"
  }

  /** The handler an event's payload is meant for. */
  function HandlerOf(ev: Event): (h: Handler)
    ensures HandlerFor(EventName(ev)) == Some(h)
  {
    match ev
    case Connect => OnConnect
    case Disconnect => OnDisconnect
    case MetricsUpdate(_) => OnMetricsUpdate
    case Ping(_, _) => OnPing
  }

  /** Every event name reaches a registered handler, and different kinds of
      event reach different handlers. */
  lemma EventsReachDistinctHandlers(ev1: Event, ev2: Event)
    ensures HandlerFor(EventName(ev1)).Some?
    ensures HandlerOf(ev1) == HandlerOf(ev2) <==> EventName(ev1) == EventName(ev2)
  {
  }

  /** Run the handler of `ev` against the store; `now` is the clock reading
      `setCurrentMetric` stamps. */
  method Dispatch(store: MetricsStore, ev: Event, now: int)
    modifies store
    ensures ev.Connect? ==>
      && store.connectionStatus == old(store.connectionStatus).(connected := true)
      && store.currentMetric == old(store.currentMetric)
      && store.historicalMetrics == old(store.historicalMetrics)
    ensures ev.Disconnect? ==>
      && store.connectionStatus == old(store.connectionStatus).(connected := false)
      && store.currentMetric == old(store.currentMetric)
      && store.historicalMetrics == old(store.historicalMetrics)
    ensures ev.MetricsUpdate? ==>
      && store.currentMetric == Some(ev.update.metric)
      && store.historicalMetrics == Appended(old(store.historicalMetrics), ev.update.metric)
      && store.connectionStatus == old(store.connectionStatus).(lastUpdate := now)
    ensures ev.Ping? && ev.ackedAt.Some? ==>
      && store.connectionStatus == old(store.connectionStatus).(latency := ev.ackedAt.value - ev.sentAt)
      && store.currentMetric == old(store.currentMetric)
      && store.historicalMetrics == old(store.historicalMetrics)
    ensures ev.Ping? && ev.ackedAt.Some? && ev.sentAt <= ev.ackedAt.value ==> store.connectionStatus.latency >= 0
    ensures ev.Ping? && ev.ackedAt.None? ==>
      && store.connectionStatus == old(store.connectionStatus)
      && store.currentMetric == old(store.currentMetric)
      && store.historicalMetrics == old(store.historicalMetrics)
  {
    match ev
    case Connect =>
      store.SetConnectionStatus(StatusPatch(Some(true), None, None));
    case Disconnect =>
      store.SetConnectionStatus(StatusPatch(Some(false), None, None));
    case MetricsUpdate(update) =>
      store.SetCurrentMetric(update.metric, now);
      store.AddHistoricalMetric(update.metric);
    case Ping(sentAt, ackedAt) =>
      if ackedAt.Some? {
        store.SetConnectionStatus(StatusPatch(None, Some(ackedAt.value - sentAt), None));
      }
  }
}
