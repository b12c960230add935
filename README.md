# Web-vitals telemetry core, modelled in Dafny

This project models the client-side logic of a web-performance telemetry
front end. A collector in the browser records Core Web Vitals, scores them
and sends one sample per trigger. A client cache keeps a current sample, a
rolling history of the last 100 samples and a connection record. Live-channel
handlers drive that cache. The two pages compute trends, statistics and chart
series from it.

Modules, one per source file:

- `Types` (`types.dfy`): record shapes from `src/types/index.ts`, plus
  `TakeLast`, which is JavaScript's `slice(-n)`.
- `Constants` (`constants.dfy`): the threshold table, labels and descriptions.
- `Helpers` (`helpers.dfy`): the tier classifier, the branch choice of the
  duration formatter, and the status colours.
- `WebVitals` (`web_vitals.dfy`): the scorer (a pure function), the sample
  builder, and the `Collector` class. Its `collected` map is the module-level
  `collectedMetrics` object. Its `emitted` sequence logs every send.
- `Store` (`metrics_store.dfy`): the `MetricsStore` class with its five actions.
- `LiveChannel` (`live_channel.dfy`): one `Dispatch` method over a tagged
  event. Each case calls the store actions that its socket handler calls.
- `MetricsPage` (`metrics_page.dfy`) and `DashboardPage` (`dashboard_page.dfy`):
  the pure computations of the two pages, and the dashboard's push loop.

All vital values are `real` and compared exactly. Timestamps and latencies are `int`.

## Key sets

`VitalKey` has six constructors so that the `inp`/`fid` mismatch stays visible:

- The collector and the scorer use lcp, inp, cls, fcp and ttfb
  (`WebVitals.CollectorKeys`, `WebVitalsRecord`).
- The threshold table, the labels, the descriptions and the dashboard's chart
  series use lcp, fid, cls, fcp and ttfb (`Constants.TableKeys`,
  `DashboardPage.BucketKeys`). None of them has an `inp` entry.

A sample's `metrics` is a `map<VitalKey, real>`, because the pages read
whatever keys the sample object carries. `DashboardPage.ChartBuckets` requires
every key of the last 20 samples to have a series. The source pushes onto
`metrics[key]`, which is undefined for `inp`, so such a sample makes it fail.
`DashboardPage.CollectorSampleHasNoBucket` shows that every complete sample the
collector builds breaks this requirement. `MetricsPage.CalculateStats` and
`MetricsPage.ChartData` require the selected vital in every sample. Without it
the source computes with `undefined`.

The metrics page offers every key of the label table, `fid` included
(`src/pages/Metrics.tsx:16`, `:54`). The collector's samples carry `inp`
instead (`src/services/webVitals.ts:47`, `:64-70`), and every sample it sends
has exactly the five collector keys (`WebVitals.Collector.Valid`). So for a
non-empty history of collector samples, `fid` always falls outside the model:
`MetricsPage.CollectorHistoryLacksFid` proves that the requirement fails for
`fid` and holds for the other four offered keys. In the source, selecting
`fid` on such a history gives NaN for avg, min and max, `undefined` for
latest, and the status "poor", because `NaN <= bound` is false for both
bounds (`src/utils/helpers.ts:23-24`).

## Behaviour worth knowing

- The threshold table rates an lcp of 2500 as good
  (`src/utils/constants.ts:5-6`), yet the scorer deducts 10 points for any lcp
  above 2000 (`src/services/webVitals.ts:12`). So lcp = 2500 with the other
  vitals good scores 90, and a "good" lcp can cost points
  (`WebVitals.ScoreBoundaries`, `WebVitals.DeductionMatchesTier`).
- The collector never clears its map, neither after a complete send nor after
  a periodic flush. Once all five keys are present, every later arrival sends
  again (`WebVitals.Collector.HandleMetric`).
- The reconnection policy (a 1000 ms delay, five attempts) is configuration
  passed to the socket library (`src/hooks/useWebSocket.ts:43-45`). The
  repository has no reconnection logic of its own.

## Model

| member | source | states |
|---|---|---|
| `Constants.Threshold` | src/utils/constants.ts:4-30 | each row has good < needsImprovement and an infinite poor bound; the concrete bounds are lcp 2500/4000, fid 100/300, cls 0.1/0.25, fcp 1800/3000, ttfb 800/1800 |
| `Constants.TablesShareKeys` | src/utils/constants.ts:4-46 | thresholds, labels and descriptions are keyed by the same five keys, and `inp` is not one of them |
| `Types.TakeLast` | src/stores/metricsStore.ts:36 | `slice(-n)`: the last n elements, or the whole sequence when it is shorter, as a suffix of the input |
| `Helpers.GetMetricStatus` | src/utils/helpers.ts:19-26 | good exactly when value <= good; needsImprovement exactly when good < value <= needsImprovement; poor exactly when value is above both bounds |
| `Helpers.StatusMonotone` | src/utils/helpers.ts:19-26 | with good <= needsImprovement, a larger value never gets a better tier |
| `Helpers.StatusIgnoresPoor` | src/utils/helpers.ts:19-26 | the classifier's result does not depend on the `poor` bound |
| `Helpers.Round` | src/utils/helpers.ts:15 | `Math.round`: the result is within half a unit of the input, and halves round up |
| `Helpers.FormatDuration` | src/utils/helpers.ts:14-17 | the "ms" form is chosen exactly when ms < 1000 and holds the rounded value; otherwise the "s" form holds ms / 1000 |
| `Helpers.ColorsDistinct` | src/utils/helpers.ts:28-44 | both colour maps give the three tiers three different strings |
| `Helpers.GetMetricColor` | src/utils/helpers.ts:28-35 | the text colour of a tier names that tier's palette (success for good, warning for needsImprovement, danger for poor) |
| `Helpers.GetMetricBgColor` | src/utils/helpers.ts:37-44 | the background colour of a tier names the same palette as its text colour |
| `WebVitals.CalculateScore` | src/services/webVitals.ts:7-21 | score in [0, 100]; exactly 100 when lcp <= 2000, inp <= 200 and cls <= 0.1; exactly 0 when lcp > 4000, inp > 500 and cls > 0.25 |
| `WebVitals.ScoreIgnoresFcpTtfb` | src/services/webVitals.ts:7-21 | changing fcp and ttfb never changes the score |
| `WebVitals.ScoreMonotone` | src/services/webVitals.ts:10-18 | raising lcp, inp or cls never raises the score |
| `WebVitals.ScoreSingleTier` | src/services/webVitals.ts:10-18 | with the other two vitals good, each vital costs exactly one tier: lcp 40/20/10, inp 30/15, cls 30/15, never a sum of tiers |
| `WebVitals.ScoreBoundaries` | src/services/webVitals.ts:10-20 | strict `>`: lcp = 2500 with the others good gives 90; any lcp > 4000 gives at most 60 |
| `WebVitals.DeductionMatchesTier` | src/services/webVitals.ts:10-18 | for lcp and cls, the largest deduction applies exactly in the table's poor tier, and the middle one exactly in its needsImprovement tier |
| `WebVitals.ToMetrics` | src/services/webVitals.ts:64-70 | the object built from a record has exactly the collector's five keys |
| `WebVitals.FromMetrics` | src/services/webVitals.ts:51 | reading a complete object as a record keeps its five collector values |
| `WebVitals.MetricsRoundTrip` | src/services/webVitals.ts:64-70 | reading back the object built from a record gives the same record |
| `WebVitals.ZeroFilled` | src/services/webVitals.ts:64-70 | recorded values pass through; missing ones become 0 |
| `WebVitals.ZeroFilledComplete` | src/services/webVitals.ts:64-70 | on a complete map, the flush record equals the completion-path record |
| `WebVitals.ConnectionType` | src/services/webVitals.ts:31 | the effective connection type when present and non-empty, otherwise "unknown" |
| `WebVitals.BuildSample` | src/services/webVitals.ts:25-33 | the posted sample carries the given vitals, id, timestamp, url, user agent and connection type; its score is the score of those vitals, in [0, 100] |
| `WebVitals.Collector.constructor` | src/services/webVitals.ts:5 | the collector starts with nothing recorded and nothing sent |
| `WebVitals.Collector.HandleMetric` | src/services/webVitals.ts:43-53 | only the arriving key is overwritten; one sample of the whole map is sent exactly when all five keys are present afterwards; once complete, every later arrival sends; every sample sent has exactly the five collector keys |
| `WebVitals.Collector.Tick` | src/services/webVitals.ts:62-73 | sends one zero-filled sample exactly when something is recorded, and leaves the map unchanged; every sample sent has exactly the five collector keys |
| `WebVitals.MissingTtfbScenario` | src/services/webVitals.ts:43-73 | if lcp, inp, cls and fcp arrive and ttfb never does, a tick sends exactly one sample, and its ttfb is 0 |
| `Store.Appended` | src/stores/metricsStore.ts:34-38 | after an append the history has at most 100 entries and ends with the new sample; below capacity nothing is dropped; at capacity it has exactly 100 and is a suffix of the old history plus the sample |
| `Store.AppendAllKeepsNewest` | src/stores/metricsStore.ts:36 | after one or more appends the history is the last 100 of everything appended, in order (strict FIFO eviction) |
| `Store.OverflowScenario` | src/stores/metricsStore.ts:36 | 150 appends to an empty history leave 100 samples, the first being the 51st appended |
| `Store.Merge` | src/stores/metricsStore.ts:44-51 | supplied status fields overwrite and the others are kept |
| `Store.MergeIdempotent` | src/stores/metricsStore.ts:44-51 | merging a patch twice equals merging it once; an empty patch changes nothing |
| `Store.MetricsStore.constructor` | src/stores/metricsStore.ts:15-22 | no current sample, empty history, not connected, latency 0 |
| `Store.MetricsStore.SetCurrentMetric` | src/stores/metricsStore.ts:24-32 | sets current and `lastUpdate`; connected, latency and history unchanged |
| `Store.MetricsStore.AddHistoricalMetric` | src/stores/metricsStore.ts:34-38 | history becomes `Appended(old history, metric)`: at most 100 entries, ending with the metric; current and status unchanged |
| `Store.MetricsStore.SetHistoricalMetrics` | src/stores/metricsStore.ts:40-42 | history is replaced wholesale by the given list, with no cap |
| `Store.MetricsStore.SetConnectionStatus` | src/stores/metricsStore.ts:44-51 | status becomes the merge of old status and patch; current and history untouched |
| `Store.MetricsStore.ClearMetrics` | src/stores/metricsStore.ts:53-58 | current and history emptied; connection status unchanged |
| `LiveChannel.HandlerFor` | src/hooks/useWebSocket.ts:50-53 | exactly the four names connect, disconnect, metrics:update and ping have a handler, each its own |
| `LiveChannel.HandlerOf` | src/hooks/useWebSocket.ts:50-53 | the name each kind of event arrives under reaches that event's own handler |
| `LiveChannel.EventsReachDistinctHandlers` | src/hooks/useWebSocket.ts:50-53 | every event name has a handler, and two events reach the same handler exactly when they arrive under the same name |
| `LiveChannel.Dispatch` | src/hooks/useWebSocket.ts:14-38 | connect sets connected and nothing else; disconnect clears connected and keeps current and history; an update sets current and appends to the capped history, ignoring its trend; an acknowledged ping sets latency to ack time minus send time (>= 0 for a monotone clock) and nothing else |
| `MetricsPage.HoursFor` | src/pages/Metrics.tsx:22 | "1h" is 1 hour, "6h" is 6 and "24h" is 24 |
| `MetricsPage.FetchHistory` | src/pages/Metrics.tsx:20-29 | requests the range's hours; replaces history only when the response and its data are present (an empty array counts), else leaves it unchanged |
| `MetricsPage.ChartData` | src/pages/Metrics.tsx:31-35 | one point per sample, same order, carrying that sample's timestamp and selected vital |
| `MetricsPage.Values` | src/pages/Metrics.tsx:40 | the selected vital of each sample, in order |
| `MetricsPage.MinOf` | src/pages/Metrics.tsx:42 | the result is one of the values and is <= all of them |
| `MetricsPage.MaxOf` | src/pages/Metrics.tsx:43 | the result is one of the values and is >= all of them |
| `MetricsPage.Sum` | src/pages/Metrics.tsx:41 | the reduce starts from 0, and a single value sums to itself |
| `MetricsPage.SumAppend` | src/pages/Metrics.tsx:41 | the sum of a concatenation is the sum of the sums of its parts |
| `MetricsPage.SumBetween` | src/pages/Metrics.tsx:41 | a sum of n values between lo and hi lies between n*lo and n*hi |
| `MetricsPage.MeanBetween` | src/pages/Metrics.tsx:40-43 | the mean of values between lo and hi lies between lo and hi |
| `MetricsPage.Mean` | src/pages/Metrics.tsx:41 | the mean times the number of values is their sum |
| `MetricsPage.CollectorHistoryLacksFid` | src/pages/Metrics.tsx:16-54 | the page offers `fid`, but no non-empty history of collector samples carries it, while every other offered key is in every sample |
| `MetricsPage.CalculateStats` | src/pages/Metrics.tsx:37-50 | null exactly for an empty history; otherwise avg is the arithmetic mean, min <= avg <= max, min and max bound every value and are attained, latest is the last sample's value, and status is the tier of avg in the selected vital's threshold row |
| `DashboardPage.TrendBetween` | src/pages/Dashboard.tsx:30-38 | stable with value 0 when previous is 0 or the change is under 5%; otherwise the value is the absolute percent change, at least 5, and up/down follows its sign |
| `DashboardPage.ValueOrZero` | src/pages/Dashboard.tsx:27-28 | the sample's vital when it carries the key, otherwise the fallback 0 |
| `DashboardPage.PercentChange` | src/pages/Dashboard.tsx:32 | the change times the previous value is 100 times the difference current - previous |
| `DashboardPage.PercentBands` | src/pages/Dashboard.tsx:32-34 | for a positive previous value, the change is at least +5% exactly from 105% of it, and at most -5% exactly up to 95% of it |
| `DashboardPage.TrendBands` | src/pages/Dashboard.tsx:30-38 | for a positive previous value: up exactly when current >= 1.05*previous, down exactly when current <= 0.95*previous, stable strictly in between |
| `DashboardPage.TrendUpWhenLarger` | src/pages/Dashboard.tsx:36 | a non-stable trend between positive readings is up exactly when current > previous |
| `DashboardPage.CalculateTrend` | src/pages/Dashboard.tsx:21-39 | stable with 0 for fewer than two samples; otherwise it depends only on the last two samples (a missing vital reads as 0), so the 10-sample window changes nothing |
| `DashboardPage.PushSample` | src/pages/Dashboard.tsx:52-58 | every key the sample carries gets that sample's point appended, other series are unchanged, and the result does not depend on key order |
| `DashboardPage.BucketAll` | src/pages/Dashboard.tsx:51-59 | starting from five empty series, each series ends up holding the points of the samples carrying its key, in sample order |
| `DashboardPage.ChartBuckets` | src/pages/Dashboard.tsx:42-62 | exactly the five series lcp, fid, cls, fcp and ttfb; each is the in-order series of the last 20 samples and has at most 20 points |
| `DashboardPage.BucketLength` | src/pages/Dashboard.tsx:51 | a series never has more points than there are samples |
| `DashboardPage.BucketComplete` | src/pages/Dashboard.tsx:51-59 | when every sample carries the key, the series has one point per sample, in chronological order |
| `DashboardPage.CollectorSampleHasNoBucket` | src/pages/Dashboard.tsx:43-49 | the series keys equal the threshold-table keys; a complete collector sample carries `inp`, which has no series, so such a sample breaks the bucketing precondition |
| `DashboardPage.OverallScore` | src/pages/Dashboard.tsx:65 | the current sample's score, or 0 when there is no current sample |

## Left out

- HTTP transport: `src/services/api.ts`, `src/lib/axios.ts`, `src/hooks/useApi.ts`
  and the `axiosInstance.post` call are not part of this model. A send is an
  append to `Collector.emitted`. The outcome of the historical query is a
  parameter of `FetchHistory`.
- Socket connection and reconnection (`io(...)` options, `socket.on`/`off`,
  `close`) are socket library behaviour. The `socket.on` registration is
  modelled by `HandlerFor`. Exhausting the reconnect attempts is not modelled.
- Environment values are parameters: `Date.now()`, `Math.random()`,
  `window.location.href`, `navigator.userAgent` and
  `navigator.connection.effectiveType` (`WebVitals.Env`). So is the clock read
  by `setCurrentMetric`. The initial `Date.now()` of the store is a
  constructor argument.
- The 30-second `setInterval` scheduling: a tick is an explicit call to `Collector.Tick`.
- The web-vitals library is the upstream event source. `HandleMetric` receives
  the already lower-cased key, one of the five the library reports.
- `Collector.HandleMetric`: the posted sample is modelled as a copy of the map.
  In the source it is the same object, which the collector goes on mutating.
- `Helpers.FormatDuration`: the digit strings of `toFixed` and the rest of the
  rendering are not modelled. Only the branch, the rounded millisecond value
  and the seconds value are.
- `Ping`: a ping is one event carrying its send time and an optional
  acknowledgement time. The pong emission and the ack callback are not separate steps.
- Floating point: values are exact reals, so NaN, `Infinity` arithmetic and
  rounding error are not modelled. `|| 0` on NaN and `Math.min` of an empty
  spread cannot happen here.
- `MetricsPage.CalculateStats`, `MetricsPage.ChartData` and `MetricsPage.Values`
  require the selected vital in every sample. The source would compute with
  `undefined` (NaN statistics, status "poor"). For collector samples this is
  always the case for `fid`, as `MetricsPage.CollectorHistoryLacksFid` shows.
- `DashboardPage.ChartBuckets` requires every key of the last 20 samples to be
  a series key. The source throws a TypeError instead.
- Rendering, theming, layout and the labels of chart points are not modelled.
  This covers all components, `Settings.tsx`, `themeStore.ts` and the JSX of both pages.
- `cn`, `formatNumber`, `debounce` and `throttle` are wrappers over clsx and
  Intl, or timers.
- The backend aggregation store and the historical aggregates are not part of
  this repository. The `timeRange` and `aggregates` fields of the historical
  response are not modelled, because the page does not read them.
