# spring-boot-metrics-collector, modelled in Dafny

The collector polls metrics endpoints of running services and turns what they expose
into time-series documents for Elasticsearch. This project models its core.

- **Parsers.** Three parsers turn a response body into raw samples:
  - the Prometheus text exposition format (`PrometheusDataParser`);
  - nested Dropwizard/Yammer JSON (`YammerDataParser`);
  - the flat Spring Boot 1 `/metrics` JSON (`SpringBootDataParser`).
- **Composers.** The composers turn a raw sample into output metrics:
  - counter deltas with a reset guard (`CounterMetricsComposer`);
  - summary count and sum deltas plus a rate (`SummaryMetricsComposer`);
  - pass-through (`DefaultMetricsComposer`).

  The counter and summary composers read and overwrite the keyed sample cache
  (`CacheService`). The cache evicts entries older than 30 minutes, snapshots the kept
  entries to a file, and reloads that file at start-up.
- **Older combined service.** `MetricService` does the same job over the older sample
  shape, which has `value1` and `value2` and string tags.
- **Delivery.** A bounded fan-out queue sits between producers and consumers
  (`QueueService`). The Elasticsearch writer builds the `_bulk` body
  (`ElasticsearchService`).
- **Polling and control.**
  - `BeatService` is the poller. It has a tick guard, dispatches to a driver by URI path,
    and stamps host, port and time on each sample.
  - `EndpointService` discovers endpoints from a Eureka registry.
  - `BeatController` holds the REST edits of the host and exclude lists.

## Layout

One module per source file, except `Composers`, which groups the three composer files
(`CounterMetricsComposer`, `SummaryMetricsComposer` and `DefaultMetricsComposer`). Four
modules are shared:

- `Common` holds Option and Result, plus the `StringUtils` and `String` operations the
  code uses, stated over `seq<char>`.
- `Domain` holds the sample kinds and the sample records `RawData` and `LegacySample`.
  It also holds `MetricData`, ordered maps with Java `put`/`get`/`putAll` semantics,
  the decoded JSON tree and the cache keys.
- `TagParsing` holds `extractTags`, which `PrometheusDataParser` and `MetricService`
  carry in identical copies.
- `Retention` holds the eviction, snapshot and load pass, which `CacheService` and
  `MetricService` carry in identical copies.

How the source's form maps to Dafny:

- Stateful services are classes whose fields the methods update: the cache's map and
  file, the queue list and `run` flag, counters, `lastRun`, the discovered hosts and
  the host and exclude lists.
- Each method is proved against a specification function, and the properties are
  proved as lemmas about those functions.
- Exceptions become `Err` results.
- Library and I/O boundaries are function parameters:
  - Jackson decoding and encoding, and `Double.valueOf`;
  - `SimpleDateFormat`;
  - `new URI` and `new URL`;
  - HTTP fetch, HEAD probe and status;
  - the random pick.
- Doubles are `real`.

Behaviour of the code worth noting:

- `QueueService.put` waits up to one second for room in a full queue, then drops the
  metric for that queue and logs a warning; the model drops it at once (the timeout is
  listed under Left out).
- `ElasticsearchService` does not retry a failed bulk request.
- No code consults the exclude list.
- The Prometheus parser stores no HELP line.
- The Spring Boot parser marks non-`counter.` names UNTYPED; `BeatService`'s copy of
  that parser marks them GAUGE.

## Model

| member | source | states |
|---|---|---|
| `Common.RemoveChar` | src/main/java/cn/batchfile/metrics/collector/functions/PrometheusDataParser.java:19 | `StringUtils.remove`: the result holds exactly the characters of the input other than the removed one |
| `Common.Split` | src/main/java/cn/batchfile/metrics/collector/functions/PrometheusDataParser.java:77 | `StringUtils.split` on one separator character: every token is non-empty and free of the separator |
| `Common.SplitJoin` | src/main/java/cn/batchfile/metrics/collector/functions/PrometheusDataParser.java:81 | splitting tokens joined by the separator gives the tokens back when none is empty or holds the separator |
| `Common.AfterLast` | src/main/java/cn/batchfile/metrics/collector/functions/PrometheusDataParser.java:59-64 | `substringAfterLast(line, " ")`: a space-free suffix that follows the last space; empty when there is no space |
| `Common.Between` | src/main/java/cn/batchfile/metrics/collector/functions/PrometheusDataParser.java:50 | `substringBetween(line, "{", "}")` is null exactly when there is no `{` or no `}` after the first `{` |
| `Common.IndexOf` | src/main/java/cn/batchfile/metrics/collector/functions/PrometheusDataParser.java:40 | the index `substringAfter` searches for is the first occurrence of the pattern at or after the start, or none |
| `Common.UpperCase` | src/main/java/cn/batchfile/metrics/collector/functions/PrometheusDataParser.java:44 | `upperCase` restricted to ASCII: each letter a-z becomes its capital, every other character stays as it is |
| `Domain.TypeValueOf` | src/main/java/cn/batchfile/metrics/collector/domain/RawData.java:7-13 | `Type.valueOf` succeeds exactly on the five constant names and returns the constant of that name |
| `Domain.KindOf` | src/main/java/cn/batchfile/metrics/collector/functions/PrometheusDataParser.java:43-47 | the kind is the constant named by the upper-cased text, and UNTYPED when no constant has that name |
| `Domain.Get` | src/main/java/cn/batchfile/metrics/collector/service/MetricService.java:171 | `Map.get` is null exactly when the key is absent, else the value stored under it |
| `Domain.Put` | src/main/java/cn/batchfile/metrics/collector/service/MetricService.java:175 | `Map.put` keeps an existing key in place and appends a new key last |
| `Domain.PutGet` | src/main/java/cn/batchfile/metrics/collector/service/CacheService.java:88-94 | after put, get of that key returns the new value and get of any other key is unchanged |
| `Domain.PutAllKeys` | src/main/java/cn/batchfile/metrics/collector/functions/CounterMetricsComposer.java:28-30 | `putAll` keeps the existing keys as a prefix, adds exactly the other map's keys, and keeps keys unique |
| `Domain.PutAllGet` | src/main/java/cn/batchfile/metrics/collector/functions/SummaryMetricsComposer.java:45-47 | after `putAll`, a key of the added map reads its value from it; any other key reads the old value |
| `Domain.HostPortShape` | src/main/java/cn/batchfile/metrics/collector/functions/DefaultMetricsComposer.java:26-27 | the first two tags are `host` (possibly null) and `port` (the port printed as a string) |
| `Domain.BaseTagsKeys` | src/main/java/cn/batchfile/metrics/collector/functions/DefaultMetricsComposer.java:26-30 | output tags start with `host`, `port`, hold exactly those and the sample's tag keys, with no key twice |
| `Domain.BaseTagsGet` | src/main/java/cn/batchfile/metrics/collector/functions/CounterMetricsComposer.java:26-30 | a sample tag named `host` or `port` overrides the stamped value; otherwise host and port read as stamped |
| `PrometheusDataParser.Lines` | src/main/java/cn/batchfile/metrics/collector/functions/PrometheusDataParser.java:19 | every line is non-empty and holds no line break |
| `PrometheusDataParser.LinesKeepText` | src/main/java/cn/batchfile/metrics/collector/functions/PrometheusDataParser.java:19 | the lines concatenated are the content without `\r` and `\n`: nothing else is lost |
| `PrometheusDataParser.GroupFoldShape` | src/main/java/cn/batchfile/metrics/collector/functions/PrometheusDataParser.java:24-33 | the grouping loop fails exactly when the first line is not a HELP line; otherwise one open group per HELP seen |
| `PrometheusDataParser.GroupsShape` | src/main/java/cn/batchfile/metrics/collector/functions/PrometheusDataParser.java:22-36 | grouping succeeds iff the first line is a HELP line; groups = number of HELP lines; groups concatenated = the non-HELP lines in order |
| `PrometheusDataParser.GroupLines` | src/main/java/cn/batchfile/metrics/collector/functions/PrometheusDataParser.java:22-36 | the grouping loop computes the grouping specification |
| `PrometheusDataParser.HeaderOfTypeLine` | src/main/java/cn/batchfile/metrics/collector/functions/PrometheusDataParser.java:40-47 | for `# TYPE name kind…` the name is the first word and the kind is read from the second, UNTYPED when absent |
| `PrometheusDataParser.PlainSamples` | src/main/java/cn/batchfile/metrics/collector/functions/PrometheusDataParser.java:49-68 | a non-SUMMARY group of n lines gives n-1 samples in line order, each with its line's tags and value; fails iff a value does not parse |
| `PrometheusDataParser.SummarySamples` | src/main/java/cn/batchfile/metrics/collector/functions/PrometheusDataParser.java:58-62 | a SUMMARY group gives one sample per line pair, values `[first, second]`, tags from the first; fails on an odd line or a bad number |
| `PrometheusDataParser.ParseGroupsOk` | src/main/java/cn/batchfile/metrics/collector/functions/PrometheusDataParser.java:39-70 | the result is the groups' samples in group order, and fails iff some group fails |
| `PrometheusDataParser.ReadSamples` | src/main/java/cn/batchfile/metrics/collector/functions/PrometheusDataParser.java:49-69 | the sample loop, which advances `i` twice per SUMMARY pair, computes the per-group specification |
| `PrometheusDataParser.ReadSample` | src/main/java/cn/batchfile/metrics/collector/functions/PrometheusDataParser.java:49-68 | one pass of the loop body reads the next sample, taking two lines for SUMMARY, or fails as the group's samples do |
| `PrometheusDataParser.CreateData` | src/main/java/cn/batchfile/metrics/collector/functions/PrometheusDataParser.java:39-69 | one group's header and samples as specified |
| `PrometheusDataParser.Apply` | src/main/java/cn/batchfile/metrics/collector/functions/PrometheusDataParser.java:17-73 | `apply` computes the parse specification over the whole content |
| `TagParsing.ExtractTags` | src/main/java/cn/batchfile/metrics/collector/functions/PrometheusDataParser.java:75-89 | the element loop computes the tag fold: a null text gives no tags |
| `TagParsing.TagsFoldValues` | src/main/java/cn/batchfile/metrics/collector/functions/PrometheusDataParser.java:79-86 | extracted keys are unique and non-empty; no key or value holds `=` and no value holds a quote |
| `TagParsing.ExtractTagsShape` | src/main/java/cn/batchfile/metrics/collector/service/MetricService.java:191-205 | the same for the string-tag copy in `MetricService`: unique non-empty keys, quotes stripped from values |
| `TagParsing.AddRendered` | src/main/java/cn/batchfile/metrics/collector/functions/PrometheusDataParser.java:80-84 | one rendered `key="value"` element adds exactly that pair to the map |
| `TagParsing.ExtractRendered` | src/main/java/cn/batchfile/metrics/collector/functions/PrometheusDataParser.java:75-89 | round trip: tags written as `key="value"` joined by commas are extracted back unchanged, in order |
| `YammerDataParser.ParseInto` | src/main/java/cn/batchfile/metrics/collector/functions/YammerDataParser.java:46-72 | the recursive walk appends to the accumulator exactly the specified samples; `type` is threaded through the loop |
| `YammerDataParser.Apply` | src/main/java/cn/batchfile/metrics/collector/functions/YammerDataParser.java:28-44 | empty content or content that is not a JSON object gives no samples; otherwise the walk from the root |
| `YammerDataParser.WalkShape` | src/main/java/cn/batchfile/metrics/collector/functions/YammerDataParser.java:51-69 | every sample has no host, port, time or tags and one value; below a path every name extends `path.` |
| `YammerDataParser.WalkValues` | src/main/java/cn/batchfile/metrics/collector/functions/YammerDataParser.java:64-69 | one sample per numeric leaf, their values the leaves in depth-first order |
| `YammerDataParser.WalkKind` | src/main/java/cn/batchfile/metrics/collector/functions/YammerDataParser.java:56-68 | with no `type` entry in a subtree, every sample carries the inherited kind, UNTYPED when none |
| `YammerDataParser.WalkExample` | src/main/java/cn/batchfile/metrics/collector/functions/YammerDataParser.java:46-72 | a nested `type` sets the kind of its siblings only, and a top-level number is named `null.<key>` |
| `SpringBootDataParser.KindOfName` | src/main/java/cn/batchfile/metrics/collector/functions/SpringBootDataParser.java:44 | COUNTER exactly for a `counter.` name, UNTYPED otherwise |
| `SpringBootDataParser.SamplesShape` | src/main/java/cn/batchfile/metrics/collector/functions/SpringBootDataParser.java:38-47 | one sample per entry, name = key, values = `[value]`, no tags; fails exactly on a null value, naming its key |
| `SpringBootDataParser.Apply` | src/main/java/cn/batchfile/metrics/collector/functions/SpringBootDataParser.java:28-50 | the entry loop computes the parse specification; empty or undecodable content gives no samples |
| `Composers.Delta` | src/main/java/cn/batchfile/metrics/collector/functions/CounterMetricsComposer.java:32-35 | new minus cached when the cached value is not above the new one (so the delta is not negative); otherwise the raw value |
| `Composers.Rate` | src/main/java/cn/batchfile/metrics/collector/functions/SummaryMetricsComposer.java:30-36 | rate × count = sum when count ≠ 0; rate = 0 when count = 0 |
| `Composers.DefaultShape` | src/main/java/cn/batchfile/metrics/collector/functions/DefaultMetricsComposer.java:20-35 | one metric: the sample's name, first value, formatted time and host/port/sample tags; fails only on no values |
| `Composers.CounterCompose` | src/main/java/cn/batchfile/metrics/collector/functions/CounterMetricsComposer.java:21-41 | one metric equal to the pass-through one except its value: raw with no cache entry or on reset, else the non-negative delta |
| `Composers.SummaryCompose` | src/main/java/cn/batchfile/metrics/collector/functions/SummaryMetricsComposer.java:21-74 | three metrics `_count`, `_sum` and the rate, with shared time and tags; raw or delta values as the guard decides; rate relation |
| `Composers.SummaryFromReadings` | src/main/java/cn/batchfile/metrics/collector/functions/SummaryMetricsComposer.java:28-37 | the three metrics are built from the count and sum the guard selects |
| `Composers.ReadSummary` | src/main/java/cn/batchfile/metrics/collector/functions/SummaryMetricsComposer.java:28-37 | the imperative update of `count` and `sum` computes the guarded readings |
| `Composers.EmittedTotal` | src/main/java/cn/batchfile/metrics/collector/functions/CounterMetricsComposer.java:32-36 | over a non-decreasing run of readings the emitted deltas sum to last − first cached (telescoping) |
| `Composers.CounterMetricsComposer.Apply` | src/main/java/cn/batchfile/metrics/collector/functions/CounterMetricsComposer.java:21-41 | returns the counter composition of the cached entry read before the update, then overwrites the cache entry |
| `Composers.SummaryMetricsComposer.Apply` | src/main/java/cn/batchfile/metrics/collector/functions/SummaryMetricsComposer.java:21-74 | the same for summaries: composed against the previous entry, cache entry overwritten afterwards |
| `Cache.CacheService.constructor` | src/main/java/cn/batchfile/metrics/collector/service/CacheService.java:28 | the cache starts empty |
| `Cache.CacheService.Init` | src/main/java/cn/batchfile/metrics/collector/service/CacheService.java:35-50 | with a snapshot file, each line is loaded under its key in order; without one the cache is unchanged |
| `Cache.CacheService.SnapshotPass` | src/main/java/cn/batchfile/metrics/collector/service/CacheService.java:54-69 | the scan yields the snapshot lines of fresh, encodable entries and the keys of stale ones |
| `Cache.CacheService.RemoveAll` | src/main/java/cn/batchfile/metrics/collector/service/CacheService.java:81-83 | removing the collected keys one by one leaves the map without them |
| `Cache.CacheService.Sweep` | src/main/java/cn/batchfile/metrics/collector/service/CacheService.java:53-85 | afterwards exactly the fresh entries remain, and the file is rewritten only when the snapshot is non-empty |
| `Cache.CacheService.Put` | src/main/java/cn/batchfile/metrics/collector/service/CacheService.java:88-90 | get of the sample returns it; every other key reads as before |
| `Cache.CacheService.Get` | src/main/java/cn/batchfile/metrics/collector/service/CacheService.java:92-98 | null exactly when no entry has the sample's key; otherwise an entry with the same key |
| `Retention.KeptEntries` | src/main/java/cn/batchfile/metrics/collector/service/CacheService.java:58-69 | an entry is kept exactly when `now - time < 1800000` |
| `Retention.StaleKeysEntries` | src/main/java/cn/batchfile/metrics/collector/service/CacheService.java:66-68 | the removal list holds exactly the keys of stale entries |
| `Retention.RemoveWithout` | src/main/java/cn/batchfile/metrics/collector/service/CacheService.java:81-82 | removing one more key extends the removed list by that key |
| `Retention.SweepRemoves` | src/main/java/cn/batchfile/metrics/collector/service/CacheService.java:58-83 | removing the collected stale keys leaves exactly the fresh entries, in their order |
| `Retention.KeptKeyed` | src/main/java/cn/batchfile/metrics/collector/service/CacheService.java:81-83 | eviction keeps every entry under its own key and introduces no key |
| `Retention.KeptOrder` | src/main/java/cn/batchfile/metrics/collector/service/CacheService.java:58-62 | kept entries keep their relative order |
| `Retention.LoadKeyed` | src/main/java/cn/batchfile/metrics/collector/service/CacheService.java:41-46 | after loading, every entry is stored under its own key |
| `Retention.LoadLast` | src/main/java/cn/batchfile/metrics/collector/service/CacheService.java:42-46 | a later decodable line wins: its sample is what get returns for its key |
| `Retention.LoadSkips` | src/main/java/cn/batchfile/metrics/collector/service/CacheService.java:43-49 | an undecodable line is skipped and the load goes on |
| `Retention.LoadSnapshot` | src/main/java/cn/batchfile/metrics/collector/service/CacheService.java:41-74 | round trip: loading the snapshot into an empty cache gives exactly the kept entries when encoding round-trips |
| `MetricService.LegacyCompose` | src/main/java/cn/batchfile/metrics/collector/service/MetricService.java:99-115 | null exactly for kinds other than COUNTER, SUMMARY and GAUGE |
| `MetricService.LegacyShape` | src/main/java/cn/batchfile/metrics/collector/service/MetricService.java:117-189 | shared time and tags; GAUGE raw; COUNTER delta or raw by the guard; SUMMARY three named metrics with the rate relation |
| `MetricService.LegacyCounterAgrees` | src/main/java/cn/batchfile/metrics/collector/service/MetricService.java:168-177 | `composeCounter` agrees with `CounterMetricsComposer` on the corresponding sample |
| `MetricService.LegacySummaryAgrees` | src/main/java/cn/batchfile/metrics/collector/service/MetricService.java:117-166 | `composeSummary` agrees with `SummaryMetricsComposer` on the corresponding sample |
| `MetricService.LegacyGaugeAgrees` | src/main/java/cn/batchfile/metrics/collector/service/MetricService.java:179-189 | `composeGauge` agrees with `DefaultMetricsComposer` on the corresponding sample |
| `MetricService.SummaryList` | src/main/java/cn/batchfile/metrics/collector/service/MetricService.java:118-163 | the three metrics are built as the summary specification says |
| `MetricService.MetricService.Init` | src/main/java/cn/batchfile/metrics/collector/service/MetricService.java:46-61 | snapshot lines loaded under their keys, as in `CacheService` |
| `MetricService.MetricService.SnapshotPass` | src/main/java/cn/batchfile/metrics/collector/service/MetricService.java:65-80 | snapshot lines of fresh encodable entries and keys of stale ones |
| `MetricService.MetricService.RemoveAll` | src/main/java/cn/batchfile/metrics/collector/service/MetricService.java:92-94 | the collected keys removed |
| `MetricService.MetricService.Sweep` | src/main/java/cn/batchfile/metrics/collector/service/MetricService.java:63-96 | exactly the fresh entries remain; the file is written only when something was written to it |
| `MetricService.MetricService.Compose` | src/main/java/cn/batchfile/metrics/collector/service/MetricService.java:99-115 | the composition against the previously cached sample; the cache is overwritten for COUNTER and SUMMARY only |
| `MetricService.MetricService.ComposeCounter` | src/main/java/cn/batchfile/metrics/collector/service/MetricService.java:168-177 | the gauge metric with the guarded delta as value, then the cache entry overwritten |
| `MetricService.MetricService.ComposeSummary` | src/main/java/cn/batchfile/metrics/collector/service/MetricService.java:117-166 | the summary metrics against the previous entry, then the cache entry overwritten |
| `MetricService.MetricService.ComposeGauge` | src/main/java/cn/batchfile/metrics/collector/service/MetricService.java:179-189 | one metric with `value1` and host, port and extracted tags; no cache access |
| `MetricService.MetricService.StoreSample` | src/main/java/cn/batchfile/metrics/collector/service/MetricService.java:164 | the sample stored under its key, every other entry unchanged |
| `QueueService.OfferAllShape` | src/main/java/cn/batchfile/metrics/collector/service/QueueService.java:48-56 | every queue stays within 4096; a queue with room gains the metric at its tail; a full one is unchanged; total + full = old total + queues |
| `QueueService.OfferFifo` | src/main/java/cn/batchfile/metrics/collector/service/QueueService.java:64-67 | offering at the tail does not change the head a poll takes |
| `QueueService.TotalSizeUpdate` | src/main/java/cn/batchfile/metrics/collector/service/QueueService.java:33-40 | the size gauge changes by exactly the change in one queue's size |
| `QueueService.QueueService.constructor` | src/main/java/cn/batchfile/metrics/collector/service/QueueService.java:26-27 | no queues, running |
| `QueueService.QueueService.Destroy` | src/main/java/cn/batchfile/metrics/collector/service/QueueService.java:43-46 | clears `run`, queues untouched |
| `QueueService.QueueService.Put` | src/main/java/cn/batchfile/metrics/collector/service/QueueService.java:48-56 | every queue is offered the metric in order; warnings = full queues; the size gauge grows by the queues that had room |
| `QueueService.QueueService.Consume` | src/main/java/cn/batchfile/metrics/collector/service/QueueService.java:58-60 | exactly one empty queue appended; its index is returned; size unchanged |
| `QueueService.QueueService.Poll` | src/main/java/cn/batchfile/metrics/collector/service/QueueService.java:62-67 | an empty queue gives nothing; otherwise its head is removed and returned (FIFO) and the size drops by one |
| `ElasticsearchService.Sent` | src/main/java/cn/batchfile/metrics/collector/service/ElasticsearchService.java:96-98 | the metrics written are exactly those not skipped by the omit-zero filter |
| `ElasticsearchService.SentOmits` | src/main/java/cn/batchfile/metrics/collector/service/ElasticsearchService.java:96-98 | without omit-zero every metric is written; with it none of value 0 |
| `ElasticsearchService.BulkLinesOk` | src/main/java/cn/batchfile/metrics/collector/service/ElasticsearchService.java:102-107 | building the lines fails exactly when some written metric cannot be serialised |
| `ElasticsearchService.BulkLinesLayout` | src/main/java/cn/batchfile/metrics/collector/service/ElasticsearchService.java:61-65 | 2 lines per written metric in order: the action line, then the metric's JSON and `\n` |
| `ElasticsearchService.BodyLines` | src/main/java/cn/batchfile/metrics/collector/service/ElasticsearchService.java:69 | the joined body splits on `\n` back into the documents |
| `ElasticsearchService.PairedBody` | src/main/java/cn/batchfile/metrics/collector/service/ElasticsearchService.java:100-111 | a body of action/document pairs splits into alternating action and document texts |
| `ElasticsearchService.BulkBody` | src/main/java/cn/batchfile/metrics/collector/service/ElasticsearchService.java:61-69 | round trip: the bulk body read line by line is action, document, … for each written metric |
| `ElasticsearchService.SelectHost` | src/main/java/cn/batchfile/metrics/collector/service/ElasticsearchService.java:56-57 | a single host is used as is; otherwise some configured host; none exactly when the list is empty |
| `ElasticsearchService.ComposeLines` | src/main/java/cn/batchfile/metrics/collector/service/ElasticsearchService.java:62-65 | the `composeLine` loop computes the bulk-lines specification |
| `ElasticsearchService.ElasticsearchService.constructor` | src/main/java/cn/batchfile/metrics/collector/service/ElasticsearchService.java:47-51 | both counters start at zero |
| `ElasticsearchService.ElasticsearchService.Listener` | src/main/java/cn/batchfile/metrics/collector/service/ElasticsearchService.java:53-93 | request to `http://<host>/_bulk` with the joined lines; 2xx counts a write, any other status an error, a failure neither |
| `BeatService.DriverFor` | src/main/java/cn/batchfile/metrics/collector/service/BeatService.java:58-61 | Spring Boot driver exactly for path `/metrics`, Prometheus driver exactly for `/actuator/prometheus` |
| `BeatService.Stamp` | src/main/java/cn/batchfile/metrics/collector/service/BeatService.java:111-115 | every sample gets the URI's host and port and the fetch time; nothing else changes |
| `BeatService.LegacyEntriesShape` | src/main/java/cn/batchfile/metrics/collector/service/BeatService.java:136-142 | one sample per entry with its name and value; COUNTER exactly for `counter.` names, GAUGE otherwise; fails iff a value is null |
| `BeatService.ParseSpringBootRawData` | src/main/java/cn/batchfile/metrics/collector/service/BeatService.java:124-146 | the entry loop computes the parse specification; empty or undecodable content gives no samples |
| `BeatService.HostSamplesShape` | src/main/java/cn/batchfile/metrics/collector/service/BeatService.java:98-122 | all samples carry the URI's host, port and time; no samples for an unregistered or Prometheus path or a failed fetch |
| `BeatService.BeatHostStep` | src/main/java/cn/batchfile/metrics/collector/service/BeatService.java:91-122 | an unparsable URI changes nothing; otherwise exactly one fetch is counted, as an error when it failed and as a beat otherwise, and the queue receives exactly the host's stamped samples when there are any |
| `BeatService.BeatAllShape` | src/main/java/cn/batchfile/metrics/collector/service/BeatService.java:77-122 | a tick appends exactly the hosts' stamped batches in list order, each non-empty; in.queue.count grows by their size; beats and errors grow by exactly the parsed hosts whose fetch succeeded and failed |
| `BeatService.BeatService.constructor` | src/main/java/cn/batchfile/metrics/collector/service/BeatService.java:63-68 | counters at zero, nothing enqueued |
| `BeatService.PeriodMillis` | src/main/java/cn/batchfile/metrics/collector/service/BeatService.java:79 | `getPeriod() * 1000` as a Java `int` product: the value in the 32-bit range congruent to the exact product |
| `BeatService.BeatService.Beat` | src/main/java/cn/batchfile/metrics/collector/service/BeatService.java:77-89 | with hosts set and the elapsed time at least the wrapped period product, every host is polled and `lastRun = now`; otherwise nothing changes |
| `BeatService.BeatService.BeatOne` | src/main/java/cn/batchfile/metrics/collector/service/BeatService.java:91-122 | one host's fetch counted as ok or error, and its stamped samples enqueued when there are any |
| `EndpointService.FirstReachable` | src/main/java/cn/batchfile/metrics/collector/service/EndpointService.java:147-152 | a result exactly when some candidate answers 200, and then the earliest such candidate |
| `EndpointService.MetricsUrl` | src/main/java/cn/batchfile/metrics/collector/service/EndpointService.java:140-158 | null for a malformed URL or when no path answers 200; else `protocol://host:port<path>` for the first path that does |
| `EndpointService.FindMetrics` | src/main/java/cn/batchfile/metrics/collector/service/EndpointService.java:140-158 | the probing loop with early return computes that specification |
| `EndpointService.Lookup` | src/main/java/cn/batchfile/metrics/collector/service/EndpointService.java:102-138 | the two recursive `lookup` overloads compute the depth-first walk specification |
| `EndpointService.EndpointUrlEnds` | src/main/java/cn/batchfile/metrics/collector/service/EndpointService.java:148 | a candidate URL ends with its parser path |
| `EndpointService.VisitShape` | src/main/java/cn/batchfile/metrics/collector/service/EndpointService.java:111-122 | a scalar entry adds at most one host, and only a discovered endpoint |
| `EndpointService.LookupAppends` | src/main/java/cn/batchfile/metrics/collector/service/EndpointService.java:103-125 | the walk only appends, and every host it adds answered 200 at a registered path |
| `EndpointService.LookupPages` | src/main/java/cn/batchfile/metrics/collector/service/EndpointService.java:103-138 | the walk fails exactly when a `statusPageUrl` value it meets is null; otherwise it appends the `findMetrics` endpoint of every `statusPageUrl` that has one, in depth-first order |
| `EndpointService.LookupIgnoresStatus` | src/main/java/cn/batchfile/metrics/collector/service/EndpointService.java:112-114 | the `status` buffer is only overwritten: the hosts found and failure do not depend on it |
| `EndpointService.ListScalarsSkipped` | src/main/java/cn/batchfile/metrics/collector/service/EndpointService.java:128-138 | scalars directly inside a list change nothing |
| `EndpointService.EndpointService.Init` | src/main/java/cn/batchfile/metrics/collector/service/EndpointService.java:63-70 | the paths are registered in the order `/prometheus`, `/yammer/metrics`, `/actuator/prometheus`, `/metrics` |
| `EndpointService.EndpointService.GetEurekaHosts` | src/main/java/cn/batchfile/metrics/collector/service/EndpointService.java:84-100 | a non-map body fails; otherwise the result fails exactly on a null `statusPageUrl` and else is the endpoints of all `statusPageUrl` values in depth-first order, each of which answered 200 at a registered path |
| `EndpointService.EndpointService.Refresh` | src/main/java/cn/batchfile/metrics/collector/service/EndpointService.java:76-81 | the hosts are replaced only when a registry is configured and discovery succeeds |
| `BeatController.MergeShape` | src/main/java/cn/batchfile/metrics/collector/api/BeatController.java:52-56 | patching keeps the list as a prefix, holds exactly the old entries and the inputs, and adds no duplicate |
| `BeatController.MergePresent` | src/main/java/cn/batchfile/metrics/collector/api/BeatController.java:53 | inputs already present change nothing |
| `BeatController.MergeIdempotent` | src/main/java/cn/batchfile/metrics/collector/api/BeatController.java:46-59 | patching twice with the same input equals patching once |
| `BeatController.MergeConcat` | src/main/java/cn/batchfile/metrics/collector/api/BeatController.java:52-56 | patching with two inputs in turn equals patching with their concatenation |
| `BeatController.PutDedups` | src/main/java/cn/batchfile/metrics/collector/api/BeatController.java:36-44 | patching an empty list gives the input with duplicates removed, first occurrences kept |
| `BeatController.BeatController.PatchHosts` | src/main/java/cn/batchfile/metrics/collector/api/BeatController.java:46-59 | a null list becomes empty; the host list becomes the patch of the old one; excludes and period untouched |
| `BeatController.BeatController.PutHosts` | src/main/java/cn/batchfile/metrics/collector/api/BeatController.java:36-44 | the host list becomes the input's first occurrences in order |
| `BeatController.BeatController.PatchExcludes` | src/main/java/cn/batchfile/metrics/collector/api/BeatController.java:71-84 | the same patch on the exclude list; hosts untouched |
| `BeatController.BeatController.PutExcludes` | src/main/java/cn/batchfile/metrics/collector/api/BeatController.java:61-69 | the exclude list becomes the input's first occurrences in order |

## Left out

- I/O is not modelled, and neither is anything the model only takes as parameters:
  - HTTP and Eureka requests, file reads and writes, Jackson, `SimpleDateFormat`,
    `Double.valueOf`, `new URI` and `new URL`;
  - each of these is a parameter of the operation that uses it.
- Concurrency is not modelled: scheduled executors, consumer threads, the parallel stream
  over hosts, `ConcurrentHashMap` races and the JMS listener are gone.
  - Each operation is one sequential step.
  - `BeatService` polls hosts in list order.
- Map iteration order: `HashMap` and `ConcurrentHashMap` iteration order is modelled as
  insertion order. This affects:
  - the order of tags from `extractTags`;
  - the order of cache snapshot lines;
  - the `toString` of tags inside cache keys.
- Floating point: doubles are reals. NaN, infinities and rounding are not modelled.
- Metric values and the counters are unbounded numbers; no 64-bit overflow is modelled.
  The 32-bit product of the poll period is modelled (`BeatService.PeriodMillis`).
- Common.UpperCase: maps ASCII letters only. Java's `upperCase` uses Unicode case mapping
  in the default locale (`ß` becomes `SS`, `ſ` becomes `S`, a Turkish locale maps `i` to
  `İ`); these are not modelled, so type names written with such characters can resolve
  differently in the source.
- Micrometer timers and logging are not modelled. The counters are plain `nat` fields.
- `PrometheusDataParser`: a non-HELP line before the first HELP line throws a
  `NullPointerException` in the source. The model returns `Err(NoOpenGroup)` for it and
  does not take it as a precondition.
- `Composers`:
  - `Composers.CounterCompose` and `Composers.SummaryCompose` return `Err` where the
    source throws `ArrayIndexOutOfBoundsException` on too few values.
- `QueueService`:
  - The consumer callback of `consume` is not modelled; `Poll` models one turn of its
    loop.
  - The one-second offer and poll timeouts are not modelled.
  - That an exception from the consumer does not end the loop follows from the loop
    not being modelled.
  - The capacity is the constant 4096, the default of the queue configuration.
- `ElasticsearchService`:
  - The random host index is the `pick` parameter, taken modulo the host count.
  - The debug-only reading of the response's `items` is left out.
  - Spring's default error handler throws on 4xx and 5xx before the status check, so the
    model's error count over-approximates the source's.
    The model counts every non-2xx status as an error, as the code is written.
- `BeatService` and `MetricService` are written against a sample shape with `value1`,
  `value2` and string tags that `RawData` no longer declares. They are modelled over that
  shape (`LegacySample`).
  - The setter's parameter type is not visible. A null `Double` entry is taken to
    throw when it is unboxed into `value1`.
- `BeatService`:
  - It hands a whole list to a `put` that takes one metric. The model records each
    enqueued batch in the `enqueued` field instead.
  - `BeatService.BeatService.Beat` uses one fetch outcome per URI and one clock reading
    per host, supplied as functions.
- `EndpointService`:
  - The refresh every 10 seconds and the `eureka.time` timer are left out.
  - The registry response body is a parameter.
  - The `status` buffer is kept only to show that it does not influence the hosts.
- The `BeatController` getters are plain field reads. They are modelled as functions
  with no contract.
