# CDAP metrics ingestion, system metadata, token renewal and plugin wrapping in Dafny

This project models five pieces of CDAP and proves properties of each.

- **The metrics processor** (`MessagingMetricsProcessorService`).
  - One consumer per metrics topic fetches messages from the topic's stored marker.
  - It decodes each message into a metric record and appends the record to a bounded shared buffer.
  - It then advances its topic's marker.
  - Whichever consumer wins the persisting flag drains up to `queueSize` records in order. It writes them, plus one self-observability record, to the metric store, and then saves the snapshot of all markers it took before draining.
  - The step of one consumer is the function `MetricsProcessor.Step` over a `ProcessorState`.
  - The service and its consumer threads are classes. Their methods are proved to end in the state `Step` gives.
- **The system-metadata writer** (`AbstractSystemMetadataWriter`).
  - `write` clears the entity's SYSTEM properties, except `creation-time` and `description`, and all its SYSTEM tags.
  - It then adds the new properties, tags and schema, each only when there is something to add.
  - The metadata store is a class that records every call made to it.
  - `Replay` relates the call log to the resulting properties and tags.
  - `addPlugin` puts plugin keys into a map builder.
- **The delegation-token renewal interval** (`TokenSecureStoreUpdater`).
  - The interval is the shortest configured renewal interval, scheduled one hour early.
  - The subtraction is done in Java's 64-bit arithmetic, and a safeguard covers intervals that are too small.
  - The value is computed lazily, on first use, and cached.
- **Plugin wrapping** (`PipelinePluginContext`, `SparkPipelinePluginContext`).
  - A plugin is wrapped as the first pipeline interface it implements, in a fixed order, with a caller that is built in layers.
  - In the Spark context, plugins of no base kind are tried against the Spark kinds.
- **The pipeline studio's top panel helpers** (`toppanel-ctrl.js`).
  - Importing a pipeline: the `.json` name check, linear connections for a config that has none, artifact matching, and the text naming the invalid artifact fields.
  - The source/sink classification and guard that start a preview.
  - The pipeline-name error flag.

External systems are parameters:
- the messages a fetch delivers, and whether each one decodes;
- whether the metric store and the consumer meta table succeed;
- the clock reading;
- the configuration values.

Files:
- `wrappers.dfy`: the `Option` type, used for Java `null` and JavaScript `undefined`.
- `metrics_processor.dfy`
- `system_metadata.dfy`
- `token_renewal.dfy`
- `plugin_wrapping.dfy`
- `top_panel.dfy`

Where the code behaves in ways its comments do not suggest, the model follows the code:
- The call at line 370 of `MessagingMetricsProcessorService.java` passes `delay` and `lastRecordTime` in the opposite order to the parameters of `persistRecordsMessageIds`. So the `metrics.process.delay.ms` gauge carries the last record's time.
- `lastMetricTimeMillis` and `lastRecordTime` hold seconds (`toSeconds` of the timestamp), but they are compared with milliseconds.
- A fetch that throws after buffering some records keeps those records but does not advance the marker. The next fetch delivers those messages again.
- The final flush passes the live bounded buffer. When the buffer is full, appending the self metric throws before anything is written or saved. When the buffer is empty, `peekLast` yields null and `run` throws, so the markers are not saved at shutdown.

## Model

| member | source | states |
|---|---|---|
| Wrappers.Option.GetOr | cdap-ui/app/hydrator/controllers/create/toppanel-ctrl.js:174 | the value when there is one, and the default (the empty message list) otherwise |
| MetricsProcessor.ToSeconds | cdap-watchdog/src/main/java/co/cask/cdap/metrics/process/MessagingMetricsProcessorService.java:368 | `toSeconds` truncates toward zero: for non-negative millis `s*1000 <= millis < s*1000+1000`, mirrored for negative |
| MetricsProcessor.FetcherLimit | cdap-watchdog/src/main/java/co/cask/cdap/metrics/process/MessagingMetricsProcessorService.java:149 | the fetch limit is at least 1; it is 1 exactly when `queueSize < 2*topics`; otherwise it is the quotient `queueSize / topics` |
| MetricsProcessor.MarkerOf | cdap-watchdog/src/main/java/co/cask/cdap/metrics/process/MessagingMetricsProcessorService.java:409-425 | a marker-map lookup finds an entry exactly when the key bytes are present, and returns that entry |
| MetricsProcessor.EqualsIsEquivalence | cdap-watchdog/src/main/java/co/cask/cdap/metrics/process/MessagingMetricsProcessorService.java:409-425 | topic-key equality is reflexive, symmetric and transitive, and holds exactly when the key bytes are equal |
| MetricsProcessor.EqualKeysShareMarker | cdap-watchdog/src/main/java/co/cask/cdap/metrics/process/MessagingMetricsProcessorService.java:409-425 | equal topic keys address the same marker, whatever their topic ids |
| MetricsProcessor.FetchStart | cdap-watchdog/src/main/java/co/cask/cdap/metrics/process/MessagingMetricsProcessorService.java:310-319 | a fetch starts exclusively after the stored marker when there is one, and at time 0 otherwise |
| MetricsProcessor.Decoded | cdap-watchdog/src/main/java/co/cask/cdap/metrics/process/MessagingMetricsProcessorService.java:321-338 | the fetch loop buffers no more records than messages it visits |
| MetricsProcessor.DecodedAppend | cdap-watchdog/src/main/java/co/cask/cdap/metrics/process/MessagingMetricsProcessorService.java:321-338 | the records buffered from two runs of messages are those of the first followed by those of the second |
| MetricsProcessor.DecodedStep | cdap-watchdog/src/main/java/co/cask/cdap/metrics/process/MessagingMetricsProcessorService.java:324-336 | one message visited: a decoded message appends its record, sets the current id and sets the last metric time; a failed decode changes none of them |
| MetricsProcessor.LastDecodedIdIsLastBuffered | cdap-watchdog/src/main/java/co/cask/cdap/metrics/process/MessagingMetricsProcessorService.java:321-342 | the loop's current id is null exactly when nothing decoded; otherwise it is the id of a decoded message after which none decoded |
| MetricsProcessor.AdvanceMarker | cdap-watchdog/src/main/java/co/cask/cdap/metrics/process/MessagingMetricsProcessorService.java:340-342 | only the topic's own entry moves, to the current id when there is one; with none the map is unchanged |
| MetricsProcessor.PersistSavesOnlyAfterWrite | cdap-watchdog/src/main/java/co/cask/cdap/metrics/process/MessagingMetricsProcessorService.java:237-251 | an empty batch skips the store and saves the markers; markers are saved only after a successful store write; a store failure means no save; the save carries the given markers |
| MetricsProcessor.PersistAppendsSelfMetric | cdap-watchdog/src/main/java/co/cask/cdap/metrics/process/MessagingMetricsProcessorService.java:253-259 | a non-empty batch gets one record appended, counting the batch before the append and carrying the delay argument; the store receives the whole queue; a success adds batch size + 1 to the count |
| MetricsProcessor.DrainCount | cdap-watchdog/src/main/java/co/cask/cdap/metrics/process/MessagingMetricsProcessorService.java:364-367 | the drain takes all the records or exactly `queueSize` of them, and never more than either |
| MetricsProcessor.StepKeepsBufferBound | cdap-watchdog/src/main/java/co/cask/cdap/metrics/process/MessagingMetricsProcessorService.java:321-347 | when the fetched records fit (insertion blocks otherwise), the buffer never exceeds `queueSize` after a step |
| MetricsProcessor.StepReleasesFlag | cdap-watchdog/src/main/java/co/cask/cdap/metrics/process/MessagingMetricsProcessorService.java:379-382 | the persisting flag is as it was before the step, on every path: a holder always releases it |
| MetricsProcessor.StepAdvancesOwnMarker | cdap-watchdog/src/main/java/co/cask/cdap/metrics/process/MessagingMetricsProcessorService.java:340-342 | after a batch, the topic's marker is the last decoded id; it is unchanged when nothing decoded or the fetch failed; other topics' markers never move |
| MetricsProcessor.StepMarkerNamesBufferedMessage | cdap-watchdog/src/main/java/co/cask/cdap/metrics/process/MessagingMetricsProcessorService.java:321-342 | a marker that changes is the step's own topic's, and names a message of this batch that decoded and was buffered |
| MetricsProcessor.StepIdleWhenEmpty | cdap-watchdog/src/main/java/co/cask/cdap/metrics/process/MessagingMetricsProcessorService.java:345-347 | an empty buffer after fetching changes no state (flag included) and returns the full interval |
| MetricsProcessor.LastMetricTimeUnchanged | cdap-watchdog/src/main/java/co/cask/cdap/metrics/process/MessagingMetricsProcessorService.java:329 | when no message decodes, `lastMetricTimeMillis` keeps its value |
| MetricsProcessor.StepContended | cdap-watchdog/src/main/java/co/cask/cdap/metrics/process/MessagingMetricsProcessorService.java:351-359 | when the CAS fails, the fetched records stay buffered, no store is called and the count is unchanged; the sleep is 0 exactly when `now - lastMetricTimeMillis > maxDelayMillis` |
| MetricsProcessor.StepDrainsInOrder | cdap-watchdog/src/main/java/co/cask/cdap/metrics/process/MessagingMetricsProcessorService.java:360-370 | the holder removes 1..`queueSize` records from the front, in order, and leaves the rest; the write holds exactly those plus one; every save carries the pre-drain snapshot and follows a successful write |
| MetricsProcessor.StepDelayGaugeCarriesLastRecordTime | cdap-watchdog/src/main/java/co/cask/cdap/metrics/process/MessagingMetricsProcessorService.java:368-370 | the self metric's count is the batch size, and its `metrics.process.delay.ms` gauge is `toSeconds` of the last drained record's timestamp |
| MetricsProcessor.StepEmptiesBoundedBuffer | cdap-watchdog/src/main/java/co/cask/cdap/metrics/process/MessagingMetricsProcessorService.java:360-367 | a holder whose buffer fits in one drain leaves it empty |
| MetricsProcessor.StepFailedFetchRefetches | cdap-watchdog/src/main/java/co/cask/cdap/metrics/process/MessagingMetricsProcessorService.java:383-386 | a failed fetch keeps what it buffered, leaves the next fetch's start where it was, calls no store, and sleeps the interval |
| MetricsProcessor.StepResumesAfterLastBuffered | cdap-watchdog/src/main/java/co/cask/cdap/metrics/process/MessagingMetricsProcessorService.java:310-342 | after a batch in which something decoded, the next fetch starts exclusively after the last message that decoded |
| MetricsProcessor.LoadedMarkersFromCheckpoint | cdap-watchdog/src/main/java/co/cask/cdap/metrics/process/MessagingMetricsProcessorService.java:194-203 | after start-up, a key has a marker exactly when some topic with that key loaded a non-null one, and it is the last such one loaded |
| MetricsProcessor.PayloadInputStream.constructor | cdap-watchdog/src/main/java/co/cask/cdap/metrics/process/MessagingMetricsProcessorService.java:430-432 | the stream starts over the empty buffer |
| MetricsProcessor.PayloadInputStream.Reset | cdap-watchdog/src/main/java/co/cask/cdap/metrics/process/MessagingMetricsProcessorService.java:434-439 | reset reads the new buffer from its start to its end, with the mark at 0 |
| MetricsProcessor.MetricsProcessorService.constructor | cdap-watchdog/src/main/java/co/cask/cdap/metrics/process/MessagingMetricsProcessorService.java:149-156 | the fetch limit is `FetcherLimit`; the buffer and marker map are empty, the flag is clear and the count is 0 |
| MetricsProcessor.MetricsProcessorService.Put | cdap-watchdog/src/main/java/co/cask/cdap/metrics/process/MessagingMetricsProcessorService.java:328 | a record is appended at the tail of a buffer that has room, and the buffer stays within its bound |
| MetricsProcessor.MetricsProcessorService.PutMarker | cdap-watchdog/src/main/java/co/cask/cdap/metrics/process/MessagingMetricsProcessorService.java:341 | the topic's marker is set and nothing else in the map changes |
| MetricsProcessor.MetricsProcessorService.TryAcquire | cdap-watchdog/src/main/java/co/cask/cdap/metrics/process/MessagingMetricsProcessorService.java:351 | `compareAndSet(false, true)` succeeds exactly when the flag was clear, and the flag is set afterwards |
| MetricsProcessor.MetricsProcessorService.Release | cdap-watchdog/src/main/java/co/cask/cdap/metrics/process/MessagingMetricsProcessorService.java:381 | the flag is clear afterwards |
| MetricsProcessor.MetricsProcessorService.Drain | cdap-watchdog/src/main/java/co/cask/cdap/metrics/process/MessagingMetricsProcessorService.java:360-367 | the copy is the buffer's first `DrainCount` records in order, and the buffer keeps the rest |
| MetricsProcessor.MetricsProcessorService.PersistRecords | cdap-watchdog/src/main/java/co/cask/cdap/metrics/process/MessagingMetricsProcessorService.java:253-263 | appending to a full bounded queue fails before any call; otherwise the self metric is appended, the store is called with the queue, and the count grows by the queue size on success |
| MetricsProcessor.MetricsProcessorService.PersistRecordsMessageIds | cdap-watchdog/src/main/java/co/cask/cdap/metrics/process/MessagingMetricsProcessorService.java:237-251 | the calls, the count and the queue are those of `PersistPass` |
| MetricsProcessor.MetricsProcessorService.FinalFlush | cdap-watchdog/src/main/java/co/cask/cdap/metrics/process/MessagingMetricsProcessorService.java:221-224 | on an empty buffer run() throws before any call (no write, no marker save); otherwise the live buffer and marker map are persisted with the arguments in declared order, and the self metric stays in the buffer |
| MetricsProcessor.MetricsProcessorService.CreateConsumers | cdap-watchdog/src/main/java/co/cask/cdap/metrics/process/MessagingMetricsProcessorService.java:194-203 | one consumer per topic, in order, each over its own key; the marker map is `LoadedMarkers` of the loaded markers |
| MetricsProcessor.ProcessMetricsThread.constructor | cdap-watchdog/src/main/java/co/cask/cdap/metrics/process/MessagingMetricsProcessorService.java:271-280 | a non-null loaded marker is put under the topic's key; a null one leaves the map as it was |
| MetricsProcessor.ProcessMetricsThread.ProcessMetrics | cdap-watchdog/src/main/java/co/cask/cdap/metrics/process/MessagingMetricsProcessorService.java:305-387 | the new shared state, last metric time and returned sleep are those of `Step` on the fetch requested from `FetchStart` with `fetcherLimit` |
| MetricsProcessor.ProcessMetricsThread.BufferFetched | cdap-watchdog/src/main/java/co/cask/cdap/metrics/process/MessagingMetricsProcessorService.java:321-338 | the fetch loop appends `Decoded(msgs)` to the buffer and ends with `LastDecodedId` and `LastMetricTime` |
| MetricsProcessor.ProcessMetricsThread.PersistBuffered | cdap-watchdog/src/main/java/co/cask/cdap/metrics/process/MessagingMetricsProcessorService.java:344-382 | the state and sleep are those of `TryPersist` |
| SystemMetadata.ReplaySnoc | cdap-data-fabric/src/main/java/co/cask/cdap/data2/metadata/system/AbstractSystemMetadataWriter.java:89-114 | one more store call applies to the metadata the earlier calls left |
| SystemMetadata.WriteRemovesBeforeAdding | cdap-data-fabric/src/main/java/co/cask/cdap/data2/metadata/system/AbstractSystemMetadataWriter.java:90-108 | every removal of a rewrite precedes every addition, and all tags are removed |
| SystemMetadata.WriteRemovesUnpreserved | cdap-data-fabric/src/main/java/co/cask/cdap/data2/metadata/system/AbstractSystemMetadataWriter.java:91-97 | `removeProperties` is called exactly when some existing key is not preserved, and then with exactly those keys |
| SystemMetadata.WriteAddsOnlyWhatIsDefined | cdap-data-fabric/src/main/java/co/cask/cdap/data2/metadata/system/AbstractSystemMetadataWriter.java:101-113 | properties are set exactly when non-empty; tags are added exactly when non-empty; the schema is set (indexed, under "schema") exactly when it is non-null and non-empty |
| SystemMetadata.ReplayAppend | cdap-data-fabric/src/main/java/co/cask/cdap/data2/metadata/system/AbstractSystemMetadataWriter.java:89-114 | applying two runs of calls is applying their concatenation |
| SystemMetadata.ReplayOptional | cdap-data-fabric/src/main/java/co/cask/cdap/data2/metadata/system/AbstractSystemMetadataWriter.java:94-97 | a guarded call applies when its guard holds and leaves the metadata alone otherwise |
| SystemMetadata.RemovalResult | cdap-data-fabric/src/main/java/co/cask/cdap/data2/metadata/system/AbstractSystemMetadataWriter.java:91-98 | the removals leave exactly the preserved properties and no tags |
| SystemMetadata.ReplaySetProperties | cdap-data-fabric/src/main/java/co/cask/cdap/data2/metadata/system/AbstractSystemMetadataWriter.java:101-104 | the guarded `setProperties` upserts the new properties, and does nothing when there are none |
| SystemMetadata.ReplayAddTags | cdap-data-fabric/src/main/java/co/cask/cdap/data2/metadata/system/AbstractSystemMetadataWriter.java:105-108 | the guarded `addTags` adds the new tags, and does nothing when there are none |
| SystemMetadata.AdditionResult | cdap-data-fabric/src/main/java/co/cask/cdap/data2/metadata/system/AbstractSystemMetadataWriter.java:100-113 | the additions, applied to cleared metadata, leave the rewritten properties and exactly the new tags |
| SystemMetadata.RewrittenProperties | cdap-data-fabric/src/main/java/co/cask/cdap/data2/metadata/system/AbstractSystemMetadataWriter.java:89-114 | after a rewrite a key is present exactly when it is a preserved old key, a new key, or "schema" with a schema present; the schema wins over the new properties, which win over preserved ones |
| SystemMetadata.WriteResult | cdap-data-fabric/src/main/java/co/cask/cdap/data2/metadata/system/AbstractSystemMetadataWriter.java:89-114 | the calls of a rewrite, applied to any metadata, produce the rewritten properties and exactly the new tags |
| SystemMetadata.MetadataStore.constructor | cdap-data-fabric/src/main/java/co/cask/cdap/data2/metadata/system/AbstractSystemMetadataWriter.java:53 | a store over given metadata, with no calls made yet |
| SystemMetadata.MetadataStore.GetProperties | cdap-data-fabric/src/main/java/co/cask/cdap/data2/metadata/system/AbstractSystemMetadataWriter.java:91-92 | returns the current properties, recording no call |
| SystemMetadata.MetadataStore.RemoveProperties | cdap-data-fabric/src/main/java/co/cask/cdap/data2/metadata/system/AbstractSystemMetadataWriter.java:96 | the call is logged; the named keys are gone, the others and the tags are unchanged |
| SystemMetadata.MetadataStore.RemoveTags | cdap-data-fabric/src/main/java/co/cask/cdap/data2/metadata/system/AbstractSystemMetadataWriter.java:98 | the call is logged; no tags remain and the properties are unchanged |
| SystemMetadata.MetadataStore.SetProperties | cdap-data-fabric/src/main/java/co/cask/cdap/data2/metadata/system/AbstractSystemMetadataWriter.java:103 | the call is logged; the entries are upserted and the tags are unchanged |
| SystemMetadata.MetadataStore.AddTags | cdap-data-fabric/src/main/java/co/cask/cdap/data2/metadata/system/AbstractSystemMetadataWriter.java:107 | the call is logged; the tags gain the added ones and the properties are unchanged |
| SystemMetadata.PropertiesBuilder.constructor | cdap-data-fabric/src/main/java/co/cask/cdap/data2/metadata/system/AbstractSystemMetadataWriter.java:116-117 | a builder starts empty |
| SystemMetadata.PropertiesBuilder.Put | cdap-data-fabric/src/main/java/co/cask/cdap/data2/metadata/system/AbstractSystemMetadataWriter.java:122-125 | an entry is appended after those already put |
| SystemMetadata.SplitAtFirst | cdap-data-fabric/src/main/java/co/cask/cdap/data2/metadata/system/AbstractSystemMetadataWriter.java:120-121 | a string joined at a separator absent from the head splits back uniquely |
| SystemMetadata.PluginKeysIdentifyPlugin | cdap-data-fabric/src/main/java/co/cask/cdap/data2/metadata/system/AbstractSystemMetadataWriter.java:120-131 | with a one-character separator found in no name or type, two plugin keys (or two version keys) are equal exactly when name and type are; no plugin key is a version key |
| SystemMetadata.PluginKeyIsNoVersionKey | cdap-data-fabric/src/main/java/co/cask/cdap/data2/metadata/system/AbstractSystemMetadataWriter.java:122-131 | the "plugin" key and the "plugin-version" key of any two plugins differ, even with "-" as separator |
| SystemMetadata.PluginEntriesKeysDisjoint | cdap-data-fabric/src/main/java/co/cask/cdap/data2/metadata/system/AbstractSystemMetadataWriter.java:120-132 | two plugins that differ in name or type put no key in common |
| SystemMetadata.SystemMetadataWriter.constructor | cdap-data-fabric/src/main/java/co/cask/cdap/data2/metadata/system/AbstractSystemMetadataWriter.java:56-83 | a writer over a store, with the properties, tags and schema the entity defines |
| SystemMetadata.SystemMetadataWriter.Write | cdap-data-fabric/src/main/java/co/cask/cdap/data2/metadata/system/AbstractSystemMetadataWriter.java:89-114 | the store receives exactly `WriteCalls` and ends with the preserved old properties overwritten by the new ones and the schema, and exactly the new tags |
| SystemMetadata.SystemMetadataWriter.DeleteExisting | cdap-data-fabric/src/main/java/co/cask/cdap/data2/metadata/system/AbstractSystemMetadataWriter.java:90-98 | the removal calls are made; only the preserved properties and no tags remain |
| SystemMetadata.SystemMetadataWriter.AddNew | cdap-data-fabric/src/main/java/co/cask/cdap/data2/metadata/system/AbstractSystemMetadataWriter.java:100-113 | the addition calls are made; properties and tags become those the additions produce |
| SystemMetadata.SystemMetadataWriter.AddPlugin | cdap-data-fabric/src/main/java/co/cask/cdap/data2/metadata/system/AbstractSystemMetadataWriter.java:116-133 | the builder gains `plugin<sep>name<sep>type -> name<sep>type` and, only for a non-null version, `plugin-version<sep>name<sep>type -> name<sep>version` |
| TokenRenewal.WrapLong | cdap-app-fabric/src/main/java/co/cask/cdap/security/TokenSecureStoreUpdater.java:156 | Java long arithmetic: the result is a long congruent to the exact value modulo 2^64, and equal to it when it fits |
| TokenRenewal.GetLong | cdap-app-fabric/src/main/java/co/cask/cdap/security/TokenSecureStoreUpdater.java:127-128 | `getLong(key, default)` is the set value, or the default when unset |
| TokenRenewal.MinOf | cdap-app-fabric/src/main/java/co/cask/cdap/security/TokenSecureStoreUpdater.java:154 | `Collections.min` is an element no greater than any element |
| TokenRenewal.RenewalTimesAreLongs | cdap-app-fabric/src/main/java/co/cask/cdap/security/TokenSecureStoreUpdater.java:125-151 | the candidate list is never empty and holds only longs |
| TokenRenewal.RenewalTimesWithoutExplore | cdap-app-fabric/src/main/java/co/cask/cdap/security/TokenSecureStoreUpdater.java:125-132 | without secure explore the candidates are exactly DFS's and HBase's, HBase defaulting to 86,400,000 ms |
| TokenRenewal.RenewalTimesWithExplore | cdap-app-fabric/src/main/java/co/cask/cdap/security/TokenSecureStoreUpdater.java:134-151 | with secure explore YARN's, Hive's and the job history server's follow, in that order; Hive's is its default without a HiveConf |
| TokenRenewal.UpdateIntervalCases | cdap-app-fabric/src/main/java/co/cask/cdap/security/TokenSecureStoreUpdater.java:154-160 | `min - 1h` when positive; otherwise 1 for `min <= 2` and `min / 2` above; an interval within an hour of `Long.MIN_VALUE` wraps to a large positive delay |
| TokenRenewal.UpdateIntervalBounds | cdap-app-fabric/src/main/java/co/cask/cdap/security/TokenSecureStoreUpdater.java:156-162 | the delay is at least 1, and at most `min` whenever `min >= 1` |
| TokenRenewal.CalculatedIntervalPrecedesEveryRenewal | cdap-app-fabric/src/main/java/co/cask/cdap/security/TokenSecureStoreUpdater.java:124-163 | the computed interval is at least 1, and when every candidate is positive it fires no later than any of them |
| TokenRenewal.TokenSecureStoreUpdater.constructor | cdap-app-fabric/src/main/java/co/cask/cdap/security/TokenSecureStoreUpdater.java:64-72 | `secureExplore` holds exactly when explore is enabled and security is on; no interval is cached |
| TokenRenewal.TokenSecureStoreUpdater.GetUpdateInterval | cdap-app-fabric/src/main/java/co/cask/cdap/security/TokenSecureStoreUpdater.java:169-177 | the result is the calculated interval and is now cached; a cached value is returned unchanged; it is at least 1 |
| PluginWrapping.FirstMatch | cdap-app-templates/cdap-etl/cdap-etl-core/src/main/java/co/cask/cdap/etl/common/plugin/PipelinePluginContext.java:72-88 | the first type in the order that the plugin implements: none exactly when it implements none; otherwise an implemented type with no implemented type before it |
| PluginWrapping.CallerLayering | cdap-app-templates/cdap-etl/cdap-etl-core/src/main/java/co/cask/cdap/etl/common/plugin/PipelinePluginContext.java:93-99 | the timed caller is ClassLoader(StageLogging(Timing(DEFAULT))), the untimed one the same without Timing; both are scoped to the plugin id and use the plugin's class loader |
| PluginWrapping.WrapPluginIsFirstMatch | cdap-app-templates/cdap-etl/cdap-etl-core/src/main/java/co/cask/cdap/etl/common/plugin/PipelinePluginContext.java:70-91 | a plugin is wrapped, with the timed caller, as the first of Action, BatchSource, BatchSink, ErrorTransform, Transform, BatchAggregator, BatchJoiner, PostAction that it implements; with none it goes to `wrapUnknownPlugin` |
| PluginWrapping.ErrorTransformBeforeTransform | cdap-app-templates/cdap-etl/cdap-etl-core/src/main/java/co/cask/cdap/etl/common/plugin/PipelinePluginContext.java:78-81 | a plugin that is both an ErrorTransform and a Transform (and none of the earlier kinds) is wrapped as an ErrorTransform |
| PluginWrapping.SparkKindsOnlyAfterBaseKinds | cdap-app-templates/cdap-etl/hydrator-spark-core/src/main/java/co/cask/cdap/etl/spark/plugin/SparkPipelinePluginContext.java:39-41 | a plugin with a base interface is wrapped the same way by both contexts, as a base kind |
| PluginWrapping.UnknownPluginDispatch | cdap-app-templates/cdap-etl/hydrator-spark-core/src/main/java/co/cask/cdap/etl/spark/plugin/SparkPipelinePluginContext.java:39-53 | with no base interface, the base context returns the plugin itself; the Spark context wraps the first of Windower (timed), SparkCompute, SparkSink, StreamingSource (untimed) it implements, else returns the plugin |
| PluginWrapping.WrappedPluginShape | cdap-app-templates/cdap-etl/hydrator-spark-core/src/main/java/co/cask/cdap/etl/spark/plugin/SparkPipelinePluginContext.java:42-60 | the result always holds the plugin; a wrapper's kind is implemented by it and its caller sets its class loader, is scoped to its id, and times it exactly unless it is a driver-side Spark kind |
| PluginWrapping.PipelinePluginContext.GetPluginProperties | cdap-app-templates/cdap-etl/cdap-etl-core/src/main/java/co/cask/cdap/etl/common/plugin/PipelinePluginContext.java:49-52 | the delegate's properties for the plugin id are passed through unchanged, in either context |
| PluginWrapping.PipelinePluginContext.LoadPluginClass | cdap-app-templates/cdap-etl/cdap-etl-core/src/main/java/co/cask/cdap/etl/common/plugin/PipelinePluginContext.java:54-57 | the delegate's plugin class is passed through unchanged, in either context |
| PluginWrapping.PipelinePluginContext.NewPluginInstance | cdap-app-templates/cdap-etl/cdap-etl-core/src/main/java/co/cask/cdap/etl/common/plugin/PipelinePluginContext.java:59-62 | the delegate's instance, wrapped for the same plugin id, and still holding that instance |
| PluginWrapping.PipelinePluginContext.NewPluginInstanceWithMacros | cdap-app-templates/cdap-etl/cdap-etl-core/src/main/java/co/cask/cdap/etl/common/plugin/PipelinePluginContext.java:64-68 | the instance the delegate makes with the evaluator, wrapped for the same plugin id |
| TopPanel.Filter | cdap-ui/app/hydrator/controllers/create/toppanel-ctrl.js:408-410 | `filter` keeps exactly the elements satisfying the predicate, and is no longer than its input |
| TopPanel.ToUpper | cdap-ui/app/hydrator/controllers/create/toppanel-ctrl.js:410 | `toUpperCase` keeps the length |
| TopPanel.ScopeComparisonIgnoresCase | cdap-ui/app/hydrator/controllers/create/toppanel-ctrl.js:410 | scopes that differ only in letter case compare equal after upper-casing, and upper-casing is idempotent |
| TopPanel.NonEmptyHasMember | cdap-ui/app/hydrator/controllers/create/toppanel-ctrl.js:412-415 | a filtered list has positive length exactly when it has a member |
| TopPanel.ArtifactValidityMeaning | cdap-ui/app/hydrator/controllers/create/toppanel-ctrl.js:405-416 | the name is valid exactly when a known artifact has it; version and scope are valid exactly when an artifact of that name has them (scope ignoring case); either implies a valid name |
| TopPanel.InvalidFieldList | cdap-ui/app/hydrator/controllers/create/toppanel-ctrl.js:449-459 | only "Artifact name" when the name is invalid; otherwise exactly the invalid ones of "Artifact version" and "Artifact scope", once each, version first, and never the name |
| TopPanel.JoinSingle | cdap-ui/app/hydrator/controllers/create/toppanel-ctrl.js:461 | joining a single field gives that field, so the length-1 shortcut agrees with `join` |
| TopPanel.InvalidFieldsText | cdap-ui/app/hydrator/controllers/create/toppanel-ctrl.js:449-461 | the alert names "Artifact name", "Artifact version", "Artifact scope" or "Artifact version, Artifact scope", according to which fields are invalid |
| TopPanel.InvalidFields | cdap-ui/app/hydrator/controllers/create/toppanel-ctrl.js:449-461 | the pushes build exactly `InvalidFieldList`, and the text is that list joined with ", " |
| TopPanel.LinearConnections | cdap-ui/app/hydrator/controllers/create/toppanel-ctrl.js:394-403 | `max(0, n-1)` connections for n stages |
| TopPanel.GenerateLinearConnections | cdap-ui/app/hydrator/controllers/create/toppanel-ctrl.js:394-403 | the loop produces `LinearConnections` of the stages |
| TopPanel.LinearConnectionsChainStages | cdap-ui/app/hydrator/controllers/create/toppanel-ctrl.js:394-403 | connection i goes from stage i to stage i+1, consecutive connections chain, and one stage or none gets no connection |
| TopPanel.StagesOfKindMembers | cdap-ui/app/hydrator/controllers/create/toppanel-ctrl.js:276-282 | a name is listed for a kind exactly when a stage of that name has that kind; sources and sinks together number no more than the stages |
| TopPanel.TopPanelCtrl.constructor | cdap-ui/app/hydrator/controllers/create/toppanel-ctrl.js:173-180 | a controller with the known artifacts and plugin kinds, no name error, no preview loading, no alert |
| TopPanel.TopPanelCtrl.CheckNameError | cdap-ui/app/hydrator/controllers/create/toppanel-ctrl.js:173-180 | the name is flagged exactly when a console message (none when there are no messages) has type MISSING-NAME or INVALID-NAME |
| TopPanel.TopPanelCtrl.RunPreview | cdap-ui/app/hydrator/controllers/create/toppanel-ctrl.js:229-292 | sources become start stages and sinks end stages, in config order; with no source or no sink, loading stops and the NO-SOURCE-SINK alert is shown, otherwise the preview config is built |
| TopPanel.TopPanelCtrl.ImportFile | cdap-ui/app/hydrator/controllers/create/toppanel-ctrl.js:386-474 | a name without ".json" is refused with the JSON alert; an unknown artifact is refused with exactly one alert whose content names the `InvalidFieldList` fields joined with ", "; otherwise the pipeline loads with its own connections or, lacking any, linear ones |
| TopPanel.IndexOf | cdap-ui/app/hydrator/controllers/create/toppanel-ctrl.js:387 | `indexOf` is -1 exactly when the substring occurs nowhere; otherwise it is the first position where it occurs |

## Left out

- Threads: `start`, `join`, `interrupt`, the daemon loop and the `stopping` flag are not modelled. A step runs to completion, and another consumer holding the flag is a flag already set when the step begins. `isRunning()` ending the fetch loop early is modelled as a shorter fetched sequence.
- MetricsProcessor.MetricsProcessorService.Put: a full buffer blocks `put` until there is room. This is not modelled; the caller must have room (`ProcessMetrics` and `BufferFetched` require it).
- MetricsProcessor.FetcherLimit: requires at least one topic. With none, the division at line 149 throws `ArithmeticException` and no service is constructed, which a function's result cannot express.
- MetricsProcessor.MetricsProcessorService.constructor: requires `queueSize >= 1` and at least one topic. Otherwise the source's constructor throws (the division at line 149, or `new LinkedBlockingDeque<>(queueSize)` at line 154) and no service exists.
- The `getMetaTable` retry and sleep loop is I/O plumbing, so it is not modelled.
- The messaging fetch API, `MetricStore`, `MetricsConsumerMetaTable`, the record reader and `MessagingUtils.toMetadataRowKey` are foreign calls:
  - a fetch is the messages it delivers, each with its decode result, plus whether fetching threw;
  - the stores are success flags;
  - the row key is carried as given.
- MetricsProcessor.ProcessMetricsThread.ProcessMetrics: the source reads `System.currentTimeMillis()` up to three times per step, but the model takes one reading, `now`, per step.
- MetricsProcessor.MetricsProcessorService.PersistRecords: the `recordsProcessed` long is unbounded here. Its 64-bit overflow is not modelled, because it needs more than 2^63 records.
- Logging and the sampled progress log are left out, because they produce no state.
- `refreshCredentials`, `update` and the reflective `getHiveConf` of `TokenSecureStoreUpdater` call the Hadoop, HBase, Hive and YARN libraries, so they are not modelled.
  - What `getHiveConf` returns is a constructor parameter. The source calls it only while computing the cached interval, so it is read once.
  - The configuration key names and the libraries' defaults are parameters.
- The `MetadataStore` internals are assumed:
  - `removeProperties` deletes keys;
  - `setProperties` upserts;
  - tags form a set.
- `SchemaIndexer` is recorded only as a flag on the call.
- `MetadataDataset.KEYVALUE_SEPARATOR` is a parameter, because its value is not part of this model.
- The Wrapped* classes and the Caller implementations are represented by the kind and the caller's layers, because their code is not part of this model.
- PluginWrapping.PipelinePluginContext.NewPluginInstance: the delegate is a set of total functions, so the `InstantiationException` the delegate may throw, and the wrapper passes on, is not represented.
- PluginWrapping.PipelinePluginContext.NewPluginInstanceWithMacros: likewise, the `InstantiationException` and `InvalidMacroException` it passes on from the delegate are not represented.
- `MapReduceSinkContext` delegates and adds a random alias suffix, so it is not modelled.
- The top panel parts below are not modelled:
  - rendering, modals and local storage;
  - `FileReader`, `JSON.parse` and `validateImportJSON` (with their alerts);
  - the preview's network call, artifact-specific program settings, timers and polling;
  - the navigation after a successful import.
- The imported pipeline arrives already parsed.
- TopPanel.ToUpper: only ASCII letters are changed. Unicode case mapping is not modelled.
- The text behind the NO-SOURCE-SINK alert is a message-catalogue lookup. It is represented only by the alert's kind.
- `EntityCardHeader`, `SVG` and `client/core/views` are UI rendering and module maps, so they are not modelled.
