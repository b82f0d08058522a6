/**
 * The metrics-ingestion consumer (MessagingMetricsProcessorService): one consumer per metrics topic
 * fetches messages, decodes them into metric records, appends them to a bounded shared buffer and
 * advances its topic's marker; whichever consumer wins the persisting flag drains the buffer, writes
 * the batch to the metric store and then saves a snapshot of all markers to the consumer meta table.
 *
 * The step of one consumer is specified by the function `Step` over a `ProcessorState`; the classes
 * below run the same step imperatively and their methods are proved to end in the state `Step` gives.
 * Threads are not modelled: a step runs to completion, and "another consumer is persisting" is a
 * persisting flag that is already set when the step begins.
 */
module MetricsProcessor {
  import opened Wrappers

  type Bytes = seq<bv8>

  // ---------------------------------------------------------------------------------------------
  // Metric records and constants

  datatype MetricType = Counter | Gauge

  datatype MetricValue = MetricValue(name: string, kind: MetricType, value: int)

  /** MetricValues: tags, a timestamp and the values carried by one record. */
  datatype MetricRecord = MetricRecord(tags: map<string, string>, timestamp: int, metrics: seq<MetricValue>)

  const PROCESS_COUNT_METRIC := "metrics.process.count"
  const PROCESS_DELAY_METRIC := "metrics.process.delay.ms"

  /** The sleep the injected constructor uses between fetches. */
  const DEFAULT_PROCESS_INTERVAL_MILLIS := 1000

  /** TimeUnit.MILLISECONDS.toSeconds: Java's long division by 1000, which truncates toward zero. */
  function ToSeconds(millis: int): (s: int)
    ensures millis >= 0 ==> 0 <= s && s * 1000 <= millis < s * 1000 + 1000
    ensures millis < 0 ==> s <= 0 && s * 1000 - 1000 < millis <= s * 1000
  {
    if millis >= 0 then millis / 1000 else -((-millis) / 1000)
  }

  /** fetcherLimit: the queue size shared out among the topics, and never less than one message. */
  function FetcherLimit(queueSize: int, topicCount: int): (limit: int)
    requires topicCount >= 1
    ensures limit >= 1
    ensures limit == 1 <==> queueSize < 2 * topicCount
    ensures limit > 1 ==> limit * topicCount <= queueSize < (limit + 1) * topicCount
  {
    var share := queueSize / topicCount;
    if share > 1 then share else 1
  }

  // ---------------------------------------------------------------------------------------------
  // Topic keys

  datatype TopicId = TopicId(namespace: string, topic: string)

  /**
   * TopicIdMetaKey: a topic with its row key in the consumer meta table. The row key is computed by
   * MessagingUtils.toMetadataRowKey, which is not part of this model, so it is carried as given.
   */
  datatype TopicIdMetaKey = TopicIdMetaKey(topicId: TopicId, key: Bytes) {

    /** equals compares the row keys only. */
    predicate Equals(that: TopicIdMetaKey) {
      key == that.key
    }
  }

  /** Marker maps are hash maps over TopicIdMetaKey, so they are indexed here by the row key. */
  function MarkerOf(topicMessageIds: map<Bytes, Bytes>, k: TopicIdMetaKey): (m: Option<Bytes>)
    ensures m.Some? <==> k.key in topicMessageIds
    ensures m.Some? ==> m.value == topicMessageIds[k.key]
  {
    if k.key in topicMessageIds then Some(topicMessageIds[k.key]) else None
  }

  /** Equals is an equivalence relation, and it ignores the topic id. */
  lemma EqualsIsEquivalence(a: TopicIdMetaKey, b: TopicIdMetaKey, c: TopicIdMetaKey)
    ensures a.Equals(a)
    ensures a.Equals(b) <==> b.Equals(a)
    ensures a.Equals(b) && b.Equals(c) ==> a.Equals(c)
    ensures a.Equals(b) <==> a.key == b.key
  {
  }

  /** Two keys that are equal address the same marker, whatever their topic ids. */
  lemma EqualKeysShareMarker(topicMessageIds: map<Bytes, Bytes>, a: TopicIdMetaKey, b: TopicIdMetaKey)
    requires a.Equals(b)
    ensures MarkerOf(topicMessageIds, a) == MarkerOf(topicMessageIds, b)
  {
  }

  // ---------------------------------------------------------------------------------------------
  // Fetching

  /** Where a fetch starts: setStartMessage(id, inclusive) or setStartTime(time). */
  datatype StartPosition = StartMessage(messageId: Bytes, inclusive: bool) | StartTime(time: int)

  datatype FetchRequest = FetchRequest(topic: TopicId, start: StartPosition, limit: int)

  /**
   * One fetched message: its id, its payload, and what the record reader made of the payload
   * (None when reading threw an IOException).
   */
  datatype Fetched = Fetched(id: Bytes, payload: Bytes, decoded: Option<MetricRecord>)

  /**
   * What the fetch loop visited: the messages in fetch order, and whether preparing the fetch or
   * iterating then threw (which ends the step in the outer catch).
   */
  datatype FetchResult = FetchResult(messages: seq<Fetched>, failed: bool)

  /** The start of the next fetch: strictly after the stored marker, or from time 0 without one. */
  function FetchStart(topicMessageIds: map<Bytes, Bytes>, key: Bytes): (p: StartPosition)
    ensures p.StartMessage? <==> key in topicMessageIds
    ensures p.StartMessage? ==> p.messageId == topicMessageIds[key] && !p.inclusive
    ensures p.StartTime? ==> p.time == 0
  {
    if key in topicMessageIds then StartMessage(topicMessageIds[key], false) else StartTime(0)
  }

  function Last<T>(s: seq<T>): T
    requires s != []
  {
    s[|s| - 1]
  }

  /** The records the fetch loop puts into the buffer, in fetch order; undecodable messages are skipped. */
  function Decoded(msgs: seq<Fetched>): (rs: seq<MetricRecord>)
    ensures |rs| <= |msgs|
  {
    if msgs == [] then []
    else
      var m := Last(msgs);
      Decoded(msgs[..|msgs| - 1]) + (if m.decoded.Some? then [m.decoded.value] else [])
  }

  /** currentMessageId at the end of the fetch loop: the id of the last message that decoded. */
  function LastDecodedId(msgs: seq<Fetched>): Option<Bytes>
  {
    if msgs == [] then None
    else if Last(msgs).decoded.Some? then Some(Last(msgs).id)
    else LastDecodedId(msgs[..|msgs| - 1])
  }

  /**
   * lastMetricTimeMillis at the end of the fetch loop: toSeconds of the last decoded record's
   * timestamp, or its value before the loop when nothing decoded.
   */
  function LastMetricTime(msgs: seq<Fetched>, before: int): int
  {
    if msgs == [] then before
    else if Last(msgs).decoded.Some? then ToSeconds(Last(msgs).decoded.value.timestamp)
    else LastMetricTime(msgs[..|msgs| - 1], before)
  }

  /** Decoding distributes over concatenation, so the loop's prefix is a prefix of the result. */
  lemma {:induction false} DecodedAppend(a: seq<Fetched>, b: seq<Fetched>)
    ensures Decoded(a + b) == Decoded(a) + Decoded(b)
    decreases |b|
  {
    if b == [] {
      assert a + b == a;
    } else {
      var b' := b[..|b| - 1];
      assert (a + b)[..|a + b| - 1] == a + b';
      DecodedAppend(a, b');
    }
  }

  /** One more message visited by the fetch loop. */
  lemma DecodedStep(msgs: seq<Fetched>, i: nat, before: int)
    requires i < |msgs|
    ensures Decoded(msgs[..i + 1]) ==
            Decoded(msgs[..i]) + (if msgs[i].decoded.Some? then [msgs[i].decoded.value] else [])
    ensures LastDecodedId(msgs[..i + 1]) ==
            if msgs[i].decoded.Some? then Some(msgs[i].id) else LastDecodedId(msgs[..i])
    ensures LastMetricTime(msgs[..i + 1], before) ==
            if msgs[i].decoded.Some? then ToSeconds(msgs[i].decoded.value.timestamp)
            else LastMetricTime(msgs[..i], before)
  {
    assert msgs[..i + 1][..i] == msgs[..i];
  }

  /**
   * The marker the loop ends with is the id of the last message that decoded and was buffered, and
   * there is none exactly when no message decoded.
   */
  lemma {:induction false} LastDecodedIdIsLastBuffered(msgs: seq<Fetched>)
    ensures LastDecodedId(msgs).None? <==> Decoded(msgs) == []
    ensures LastDecodedId(msgs).None? <==> forall k :: 0 <= k < |msgs| ==> msgs[k].decoded.None?
    ensures LastDecodedId(msgs).Some? ==>
              exists j :: 0 <= j < |msgs| && msgs[j].decoded.Some? && msgs[j].id == LastDecodedId(msgs).value &&
                          forall k :: j < k < |msgs| ==> msgs[k].decoded.None?
  {
    if msgs != [] {
      var init := msgs[..|msgs| - 1];
      LastDecodedIdIsLastBuffered(init);
      assert forall k :: 0 <= k < |init| ==> init[k] == msgs[k];
      if Last(msgs).decoded.Some? {
        assert msgs[|msgs| - 1].decoded.Some?;
      }
    }
  }

  /** The marker map after a batch: the topic's entry moves to the last buffered id, if any. */
  function AdvanceMarker(topicMessageIds: map<Bytes, Bytes>, key: Bytes, current: Option<Bytes>): (ids: map<Bytes, Bytes>)
    ensures forall k :: k != key ==> (k in ids <==> k in topicMessageIds)
    ensures forall k :: k != key && k in ids ==> ids[k] == topicMessageIds[k]
    ensures current.Some? ==> key in ids && ids[key] == current.value
    ensures current.None? ==> ids == topicMessageIds
  {
    if current.Some? then topicMessageIds[key := current.value] else topicMessageIds
  }

  // ---------------------------------------------------------------------------------------------
  // Persisting

  /** A call made on an external store, with whether it succeeded. */
  datatype StoreCall =
    | MetricStoreAdd(records: seq<MetricRecord>, ok: bool)     // MetricStore.add
    | SaveMessageIds(ids: map<Bytes, Bytes>, ok: bool)         // MetricsConsumerMetaTable.saveMessageIds

  /** The self-observability record persistRecords appends to a batch. */
  function SelfMetric(tags: map<string, string>, nowSeconds: int, count: int, delay: int): MetricRecord
  {
    MetricRecord(tags, nowSeconds,
                 [MetricValue(PROCESS_COUNT_METRIC, Counter, count), MetricValue(PROCESS_DELAY_METRIC, Gauge, delay)])
  }

  /** The outcome of one persistRecordsMessageIds call: calls made, records counted, the queue afterwards. */
  datatype PersistOutcome = PersistOutcome(calls: seq<StoreCall>, processed: int, queue: seq<MetricRecord>)

  /**
   * persistRecordsMessageIds(metricValues, lastRecordTime, delay, messageIds). `capacity` is the
   * bound of the deque passed in (None for the unbounded copy a consumer drains into): appending the
   * self metric to a full bounded deque throws before the store is called. `lastRecordTime` is only
   * logged by the source.
   */
  function PersistPass(metricValues: seq<MetricRecord>, lastRecordTime: int, delay: int,
                                    messageIds: map<Bytes, Bytes>, tags: map<string, string>, nowSeconds: int,
                                    capacity: Option<nat>, storeOk: bool, saveOk: bool): PersistOutcome
  {
    if metricValues == [] then
      PersistOutcome([SaveMessageIds(messageIds, saveOk)], 0, metricValues)
    else if capacity.Some? && |metricValues| >= capacity.value then
      PersistOutcome([], 0, metricValues)
    else
      var written := metricValues + [SelfMetric(tags, nowSeconds, |metricValues|, delay)];
      if storeOk then
        PersistOutcome([MetricStoreAdd(written, true), SaveMessageIds(messageIds, saveOk)], |written|, written)
      else
        PersistOutcome([MetricStoreAdd(written, false)], 0, written)
  }

  /**
   * The calls of one persistence pass: nothing, a marker save alone (empty batch), a failed store
   * write alone, or a successful store write followed by a marker save.
   */
  ghost predicate PassShape(calls: seq<StoreCall>)
  {
    || calls == []
    || (|calls| == 1 && calls[0].SaveMessageIds?)
    || (|calls| == 1 && calls[0].MetricStoreAdd? && !calls[0].ok)
    || (|calls| == 2 && calls[0].MetricStoreAdd? && calls[0].ok && calls[1].SaveMessageIds?)
  }

  /**
   * Markers are saved only after a successful store write or when there was nothing to write; an
   * empty batch skips the store; a store failure skips the save; a save failure changes nothing else.
   */
  lemma PersistSavesOnlyAfterWrite(metricValues: seq<MetricRecord>, lastRecordTime: int, delay: int,
                                   messageIds: map<Bytes, Bytes>, tags: map<string, string>, nowSeconds: int,
                                   capacity: Option<nat>, storeOk: bool, saveOk: bool)
    ensures var out := PersistPass(metricValues, lastRecordTime, delay, messageIds, tags, nowSeconds,
                                                capacity, storeOk, saveOk);
            && PassShape(out.calls)
            && (metricValues == [] ==> out.calls == [SaveMessageIds(messageIds, saveOk)] && out.processed == 0)
            && (forall i :: 0 <= i < |out.calls| && out.calls[i].SaveMessageIds? ==>
                  out.calls[i].ids == messageIds &&
                  (metricValues == [] || (i > 0 && out.calls[i - 1].MetricStoreAdd? && out.calls[i - 1].ok)))
            && (metricValues != [] && !storeOk ==> forall c :: c in out.calls ==> !c.SaveMessageIds?)
            && (capacity.None? && metricValues != [] ==> out.calls[0].MetricStoreAdd?)
  {
  }

  /**
   * A non-empty batch gets one self metric appended whose count is the batch size before the append;
   * a successful write adds batch size + 1 to recordsProcessed.
   */
  lemma PersistAppendsSelfMetric(metricValues: seq<MetricRecord>, lastRecordTime: int, delay: int,
                                 messageIds: map<Bytes, Bytes>, tags: map<string, string>, nowSeconds: int,
                                 storeOk: bool, saveOk: bool)
    requires metricValues != []
    ensures var out := PersistPass(metricValues, lastRecordTime, delay, messageIds, tags, nowSeconds,
                                                None, storeOk, saveOk);
            && |out.queue| == |metricValues| + 1
            && out.queue[..|metricValues|] == metricValues
            && Last(out.queue).metrics[0] == MetricValue(PROCESS_COUNT_METRIC, Counter, |metricValues|)
            && Last(out.queue).metrics[1] == MetricValue(PROCESS_DELAY_METRIC, Gauge, delay)
            && out.calls[0] == MetricStoreAdd(out.queue, storeOk)
            && out.processed == (if storeOk then |metricValues| + 1 else 0)
  {
  }

  // ---------------------------------------------------------------------------------------------
  // One consumer step, as a function of the state

  datatype Config = Config(queueSize: nat, fetcherLimit: int, maxDelayMillis: int, intervalMillis: int,
                           contextTags: map<string, string>)
  {
    ghost predicate Valid() { queueSize >= 1 && fetcherLimit >= 1 }
  }

  /** The shared state: buffer, marker map, persisting flag, counter, and the calls made on the stores. */
  datatype ProcessorState = ProcessorState(records: seq<MetricRecord>, topicMessageIds: map<Bytes, Bytes>,
                                           persistingFlag: bool, recordsProcessed: int, io: seq<StoreCall>)

  datatype StepResult = StepResult(state: ProcessorState, lastMetricTime: int, sleep: int)

  /** The number of records a drain removes: as many as there are, up to the queue size. */
  function DrainCount(available: nat, queueSize: nat): (n: nat)
    ensures n <= available && n <= queueSize
    ensures n == available || n == queueSize
  {
    if available < queueSize then available else queueSize
  }

  /**
   * processMetrics of the consumer of the topic with row key `key`, whose lastMetricTimeMillis is
   * `lastMetricTime`, when the fetch delivers `fetch`, the clock reads `now`, and the metric store
   * and meta table succeed as `storeOk` and `saveOk` say.
   */
  function Step(cfg: Config, s: ProcessorState, key: Bytes, lastMetricTime: int, fetch: FetchResult,
                now: int, storeOk: bool, saveOk: bool): StepResult
    requires cfg.Valid()
  {
    var buffered := s.records + Decoded(fetch.messages);
    var lastTime := LastMetricTime(fetch.messages, lastMetricTime);
    if fetch.failed then
      StepResult(s.(records := buffered), lastTime, cfg.intervalMillis)
    else
      var ids := AdvanceMarker(s.topicMessageIds, key, LastDecodedId(fetch.messages));
      TryPersist(cfg, s.(records := buffered, topicMessageIds := ids), lastTime, now, storeOk, saveOk)
  }

  /**
   * The second half of processMetrics, once the fetched records are buffered and the marker is
   * advanced: skip an empty buffer, give way to a holder of the persisting flag, or take the flag,
   * snapshot the markers, drain and persist.
   */
  function TryPersist(cfg: Config, s: ProcessorState, lastMetricTime: int, now: int, storeOk: bool, saveOk: bool)
    : StepResult
    requires cfg.Valid()
  {
    if s.records == [] then
      StepResult(s, lastMetricTime, cfg.intervalMillis)
    else if s.persistingFlag then
      StepResult(s, lastMetricTime, if now - lastMetricTime > cfg.maxDelayMillis then 0 else cfg.intervalMillis)
    else
      var n := DrainCount(|s.records|, cfg.queueSize);
      var batch := s.records[..n];
      var lastRecordTime := ToSeconds(Last(batch).timestamp);
      var delay := now - lastRecordTime;
      // The call passes (delay, lastRecordTime) to parameters declared (lastRecordTime, delay).
      var out := PersistPass(batch, delay, lastRecordTime, s.topicMessageIds, cfg.contextTags, ToSeconds(now),
                             None, storeOk, saveOk);
      StepResult(s.(records := s.records[n..], recordsProcessed := s.recordsProcessed + out.processed,
                    io := s.io + out.calls),
                 lastMetricTime, if delay > cfg.maxDelayMillis then 0 else cfg.intervalMillis)
  }

  /** The buffer stays within its bound when the fetched records fit (insertion blocks otherwise). */
  lemma StepKeepsBufferBound(cfg: Config, s: ProcessorState, key: Bytes, lastMetricTime: int, fetch: FetchResult,
                             now: int, storeOk: bool, saveOk: bool)
    requires cfg.Valid()
    requires |s.records| + |Decoded(fetch.messages)| <= cfg.queueSize
    ensures |Step(cfg, s, key, lastMetricTime, fetch, now, storeOk, saveOk).state.records| <= cfg.queueSize
  {
  }

  /** The persisting flag is the same after the step on every path: a holder always releases it. */
  lemma StepReleasesFlag(cfg: Config, s: ProcessorState, key: Bytes, lastMetricTime: int, fetch: FetchResult,
                         now: int, storeOk: bool, saveOk: bool)
    requires cfg.Valid()
    ensures Step(cfg, s, key, lastMetricTime, fetch, now, storeOk, saveOk).state.persistingFlag == s.persistingFlag
  {
  }

  /**
   * After a batch the topic's marker is the id of the last message that decoded; it is unchanged
   * when none decoded or the fetch failed, and no other topic's marker moves.
   */
  lemma StepAdvancesOwnMarker(cfg: Config, s: ProcessorState, key: Bytes, lastMetricTime: int, fetch: FetchResult,
                              now: int, storeOk: bool, saveOk: bool)
    requires cfg.Valid()
    ensures var ids := Step(cfg, s, key, lastMetricTime, fetch, now, storeOk, saveOk).state.topicMessageIds;
            && (forall k :: k != key ==> (k in ids <==> k in s.topicMessageIds))
            && (forall k :: k != key && k in ids ==> ids[k] == s.topicMessageIds[k])
            && (!fetch.failed && LastDecodedId(fetch.messages).Some? ==>
                  key in ids && ids[key] == LastDecodedId(fetch.messages).value)
            && (fetch.failed || LastDecodedId(fetch.messages).None? ==> ids == s.topicMessageIds)
  {
  }

  /** A topic's marker moves only to the id of a message of this batch that decoded and was buffered. */
  lemma StepMarkerNamesBufferedMessage(cfg: Config, s: ProcessorState, key: Bytes, lastMetricTime: int,
                                       fetch: FetchResult, now: int, storeOk: bool, saveOk: bool)
    requires cfg.Valid()
    ensures var ids := Step(cfg, s, key, lastMetricTime, fetch, now, storeOk, saveOk).state.topicMessageIds;
            forall k :: k in ids && (k !in s.topicMessageIds || ids[k] != s.topicMessageIds[k]) ==>
              k == key && exists j :: 0 <= j < |fetch.messages| && fetch.messages[j].decoded.Some? &&
                                      fetch.messages[j].id == ids[k]
  {
    LastDecodedIdIsLastBuffered(fetch.messages);
  }

  /**
   * When nothing is buffered after fetching, the step changes nothing and sleeps the full interval,
   * without touching the flag.
   */
  lemma StepIdleWhenEmpty(cfg: Config, s: ProcessorState, key: Bytes, lastMetricTime: int, fetch: FetchResult,
                          now: int, storeOk: bool, saveOk: bool)
    requires cfg.Valid()
    requires s.records == [] && Decoded(fetch.messages) == []
    ensures var r := Step(cfg, s, key, lastMetricTime, fetch, now, storeOk, saveOk);
            r.state == s && r.sleep == cfg.intervalMillis && r.lastMetricTime == lastMetricTime
  {
    LastDecodedIdIsLastBuffered(fetch.messages);
    LastMetricTimeUnchanged(fetch.messages, lastMetricTime);
  }

  lemma {:induction false} LastMetricTimeUnchanged(msgs: seq<Fetched>, before: int)
    requires Decoded(msgs) == []
    ensures LastMetricTime(msgs, before) == before
  {
    if msgs != [] {
      LastMetricTimeUnchanged(msgs[..|msgs| - 1], before);
    }
  }

  /**
   * When another consumer holds the flag, the fetched records and the marker stay in place, no store
   * is called, and the step returns 0 exactly when now - lastMetricTimeMillis exceeds the maximum delay.
   */
  lemma StepContended(cfg: Config, s: ProcessorState, key: Bytes, lastMetricTime: int, fetch: FetchResult,
                      now: int, storeOk: bool, saveOk: bool)
    requires cfg.Valid()
    requires s.persistingFlag && !fetch.failed
    ensures var r := Step(cfg, s, key, lastMetricTime, fetch, now, storeOk, saveOk);
            && r.state.records == s.records + Decoded(fetch.messages)
            && r.state.io == s.io
            && r.state.recordsProcessed == s.recordsProcessed
            && r.state.persistingFlag
            && r.sleep == (if r.state.records != [] && now - r.lastMetricTime > cfg.maxDelayMillis then 0
                           else cfg.intervalMillis)
  {
  }

  /**
   * The flag holder snapshots the markers before draining, removes at most queueSize records from the
   * front in their original order, leaves the rest in place, and makes one persistence pass whose
   * marker save carries that snapshot.
   */
  lemma StepDrainsInOrder(cfg: Config, s: ProcessorState, key: Bytes, lastMetricTime: int, fetch: FetchResult,
                          now: int, storeOk: bool, saveOk: bool)
    requires cfg.Valid()
    requires !s.persistingFlag && !fetch.failed && s.records + Decoded(fetch.messages) != []
    ensures var buffered := s.records + Decoded(fetch.messages);
            var r := Step(cfg, s, key, lastMetricTime, fetch, now, storeOk, saveOk);
            var ids := AdvanceMarker(s.topicMessageIds, key, LastDecodedId(fetch.messages));
            exists n: nat, calls: seq<StoreCall> ::
              && 1 <= n <= cfg.queueSize && n <= |buffered|
              && (n < |buffered| ==> n == cfg.queueSize)
              && r.state.records == buffered[n..]
              && r.state.io == s.io + calls
              && PassShape(calls) && calls != []
              && calls[0].MetricStoreAdd? && calls[0].ok == storeOk
              && |calls[0].records| == n + 1 && calls[0].records[..n] == buffered[..n]
              && (forall i :: 0 <= i < |calls| && calls[i].SaveMessageIds? ==> calls[i].ids == ids && storeOk)
              && (storeOk ==> r.state.recordsProcessed == s.recordsProcessed + n + 1)
              && (!storeOk ==> r.state.recordsProcessed == s.recordsProcessed)
  {
    var buffered := s.records + Decoded(fetch.messages);
    var n := DrainCount(|buffered|, cfg.queueSize);
    var batch := buffered[..n];
    var lastRecordTime := ToSeconds(Last(batch).timestamp);
    var ids := AdvanceMarker(s.topicMessageIds, key, LastDecodedId(fetch.messages));
    var out := PersistPass(batch, now - lastRecordTime, lastRecordTime, ids, cfg.contextTags,
                                        ToSeconds(now), None, storeOk, saveOk);
    PersistSavesOnlyAfterWrite(batch, now - lastRecordTime, lastRecordTime, ids, cfg.contextTags, ToSeconds(now),
                               None, storeOk, saveOk);
    assert (batch + [Last(out.calls[0].records)])[..n] == batch;
  }

  /**
   * The quirk of the call at line 370: the self metric named metrics.process.delay.ms carries the
   * last record's time (its timestamp passed through toSeconds), not the processing delay.
   */
  lemma StepDelayGaugeCarriesLastRecordTime(cfg: Config, s: ProcessorState, key: Bytes, lastMetricTime: int,
                                            fetch: FetchResult, now: int, storeOk: bool, saveOk: bool)
    requires cfg.Valid()
    requires !s.persistingFlag && !fetch.failed && s.records + Decoded(fetch.messages) != []
    ensures var buffered := s.records + Decoded(fetch.messages);
            var n := DrainCount(|buffered|, cfg.queueSize);
            var r := Step(cfg, s, key, lastMetricTime, fetch, now, storeOk, saveOk);
            var written := r.state.io[|s.io|].records;
            && r.state.io[|s.io|].MetricStoreAdd?
            && Last(written).metrics[1] == MetricValue(PROCESS_DELAY_METRIC, Gauge, ToSeconds(buffered[n - 1].timestamp))
            && Last(written).metrics[0] == MetricValue(PROCESS_COUNT_METRIC, Counter, n)
  {
  }

  /** When the step takes the flag and the buffer fits in one drain, the buffer is empty afterwards. */
  lemma StepEmptiesBoundedBuffer(cfg: Config, s: ProcessorState, key: Bytes, lastMetricTime: int,
                                 fetch: FetchResult, now: int, storeOk: bool, saveOk: bool)
    requires cfg.Valid()
    requires |s.records| + |Decoded(fetch.messages)| <= cfg.queueSize
    requires !s.persistingFlag && !fetch.failed
    ensures Step(cfg, s, key, lastMetricTime, fetch, now, storeOk, saveOk).state.records == []
  {
  }

  /**
   * A failed fetch keeps what it buffered but does not advance the marker, so the next fetch starts
   * from the same position and delivers those messages again.
   */
  lemma StepFailedFetchRefetches(cfg: Config, s: ProcessorState, key: Bytes, lastMetricTime: int,
                                 fetch: FetchResult, now: int, storeOk: bool, saveOk: bool)
    requires cfg.Valid()
    requires fetch.failed
    ensures var r := Step(cfg, s, key, lastMetricTime, fetch, now, storeOk, saveOk);
            && r.state.records == s.records + Decoded(fetch.messages)
            && FetchStart(r.state.topicMessageIds, key) == FetchStart(s.topicMessageIds, key)
            && r.state.io == s.io && r.sleep == cfg.intervalMillis
  {
  }

  /** After a batch in which some message decoded, the next fetch resumes strictly after the last one. */
  lemma StepResumesAfterLastBuffered(cfg: Config, s: ProcessorState, key: Bytes, lastMetricTime: int,
                                     fetch: FetchResult, now: int, storeOk: bool, saveOk: bool)
    requires cfg.Valid()
    requires !fetch.failed && Decoded(fetch.messages) != []
    ensures var r := Step(cfg, s, key, lastMetricTime, fetch, now, storeOk, saveOk);
            exists j :: 0 <= j < |fetch.messages| && fetch.messages[j].decoded.Some? &&
                        (forall k :: j < k < |fetch.messages| ==> fetch.messages[k].decoded.None?) &&
                        FetchStart(r.state.topicMessageIds, key) == StartMessage(fetch.messages[j].id, false)
  {
    LastDecodedIdIsLastBuffered(fetch.messages);
  }

  // ---------------------------------------------------------------------------------------------
  // Marker loading at start-up

  /**
   * The marker map after the consumers are created in topic order: each loaded marker is put under
   * its topic's key; a missing (null) marker leaves the entry as it was.
   */
  function LoadedMarkers(topicMessageIds: map<Bytes, Bytes>, keys: seq<TopicIdMetaKey>, loaded: seq<Option<Bytes>>)
    : map<Bytes, Bytes>
    requires |keys| == |loaded|
    decreases |keys|
  {
    if keys == [] then topicMessageIds
    else
      var ids := LoadedMarkers(topicMessageIds, keys[..|keys| - 1], loaded[..|loaded| - 1]);
      if Last(loaded).Some? then ids[Last(keys).key := Last(loaded).value] else ids
  }

  /**
   * Starting from an empty map, a key has a marker exactly when some topic with that key loaded one,
   * and the marker is the one loaded last for that key.
   */
  lemma {:induction false} LoadedMarkersFromCheckpoint(keys: seq<TopicIdMetaKey>, loaded: seq<Option<Bytes>>, k: Bytes)
    requires |keys| == |loaded|
    ensures var ids := LoadedMarkers(map[], keys, loaded);
            && (k in ids <==> exists i :: 0 <= i < |keys| && keys[i].key == k && loaded[i].Some?)
            && (k in ids ==> exists i :: 0 <= i < |keys| && keys[i].key == k && loaded[i] == Some(ids[k]) &&
                               forall j :: i < j < |keys| && keys[j].key == k ==> loaded[j].None?)
    decreases |keys|
  {
    if keys != [] {
      var n := |keys| - 1;
      LoadedMarkersFromCheckpoint(keys[..n], loaded[..n], k);
      assert forall i :: 0 <= i < n ==> keys[..n][i] == keys[i] && loaded[..n][i] == loaded[i];
      var ids := LoadedMarkers(map[], keys, loaded);
      if keys[n].key == k && loaded[n].Some? {
        assert ids[k] == loaded[n].value;
      }
    }
  }

  // ---------------------------------------------------------------------------------------------
  // The imperative service

  /** PayloadInputStream: a ByteArrayInputStream whose buffer is replaced for every message. */
  class PayloadInputStream {
    var buf: Bytes
    var pos: int
    var count: int
    var mark: int

    ghost predicate Valid()
      reads this
    {
      0 <= pos <= count <= |buf| && 0 <= mark <= count
    }

    constructor()
      ensures Valid() && buf == [] && pos == 0 && count == 0 && mark == 0
    {
      buf, pos, count, mark := [], 0, 0, 0;
    }

    /** reset: read `b` from its start to its end. */
    method Reset(b: Bytes)
      modifies this
      ensures Valid()
      ensures buf == b && pos == 0 && count == |b| && mark == 0
    {
      buf := b;
      pos := 0;
      count := |b|;
      mark := 0;
    }
  }

  class MetricsProcessorService {
    const queueSize: nat
    const fetcherLimit: int
    const maxDelayMillis: int
    const metricsProcessIntervalMillis: int
    const metricsContextMap: map<string, string>

    /** The bounded shared buffer, oldest record first. */
    var records: seq<MetricRecord>
    /** The in-memory marker of each topic, by row key. */
    var topicMessageIds: map<Bytes, Bytes>
    var persistingFlag: bool
    var recordsProcessed: int
    /** The calls made on the metric store and the consumer meta table, in order. */
    var io: seq<StoreCall>

    ghost predicate Valid()
      reads this
    {
      Cfg().Valid() && |records| <= queueSize
    }

    ghost function Cfg(): Config
      reads this
    {
      Config(queueSize, fetcherLimit, maxDelayMillis, metricsProcessIntervalMillis, metricsContextMap)
    }

    ghost function State(): ProcessorState
      reads this
    {
      ProcessorState(records, topicMessageIds, persistingFlag, recordsProcessed, io)
    }

    constructor(queueSize: nat, topicCount: int, maxDelayMillis: int, metricsProcessIntervalMillis: int,
                metricsContextMap: map<string, string>)
      requires queueSize >= 1 && topicCount >= 1
      ensures Valid()
      ensures this.queueSize == queueSize && fetcherLimit == FetcherLimit(queueSize, topicCount)
      ensures this.maxDelayMillis == maxDelayMillis && this.metricsProcessIntervalMillis == metricsProcessIntervalMillis
      ensures this.metricsContextMap == metricsContextMap
      ensures State() == ProcessorState([], map[], false, 0, [])
    {
      this.queueSize := queueSize;
      this.fetcherLimit := FetcherLimit(queueSize, topicCount);
      this.maxDelayMillis := maxDelayMillis;
      this.metricsProcessIntervalMillis := metricsProcessIntervalMillis;
      this.metricsContextMap := metricsContextMap;
      records := [];
      topicMessageIds := map[];
      persistingFlag := false;
      recordsProcessed := 0;
      io := [];
    }

    /** records.put, when there is room (a full buffer blocks the caller instead). */
    method Put(r: MetricRecord)
      requires Valid() && |records| < queueSize
      modifies this`records
      ensures Valid()
      ensures records == old(records) + [r]
    {
      records := records + [r];
    }

    /** topicMessageIds.put */
    method PutMarker(key: Bytes, messageId: Bytes)
      modifies this`topicMessageIds
      ensures topicMessageIds == old(topicMessageIds)[key := messageId]
    {
      topicMessageIds := topicMessageIds[key := messageId];
    }

    /** persistingFlag.compareAndSet(false, true) */
    method TryAcquire() returns (acquired: bool)
      modifies this`persistingFlag
      ensures acquired == !old(persistingFlag)
      ensures persistingFlag
    {
      acquired := !persistingFlag;
      persistingFlag := true;
    }

    /** persistingFlag.set(false) */
    method Release()
      modifies this`persistingFlag
      ensures !persistingFlag
    {
      persistingFlag := false;
    }

    /** Moves up to `limit` records from the front of the buffer into a new batch, in order. */
    method Drain(limit: nat) returns (recordsCopy: seq<MetricRecord>)
      requires Valid()
      modifies this`records
      ensures Valid()
      ensures |recordsCopy| == DrainCount(|old(records)|, limit)
      ensures recordsCopy == old(records)[..|recordsCopy|]
      ensures records == old(records)[|recordsCopy|..]
    {
      recordsCopy := [];
      while records != [] && |recordsCopy| < limit
        invariant |recordsCopy| <= limit
        invariant recordsCopy + records == old(records)
        invariant |records| <= queueSize
        decreases |records|
      {
        recordsCopy := recordsCopy + [records[0]];
        records := records[1..];
      }
      assert old(records)[..|recordsCopy|] == recordsCopy;
    }

    /** persistRecords: append the self metric, write the batch, count it. */
    method PersistRecords(metricValues: seq<MetricRecord>, lastRecordTime: int, delay: int, nowSeconds: int,
                          capacity: Option<nat>, storeOk: bool)
      returns (queue: seq<MetricRecord>, ok: bool)
      requires metricValues != []
      modifies this`recordsProcessed, this`io
      ensures ok == (storeOk && (capacity.None? || |metricValues| < capacity.value))
      ensures capacity.Some? && |metricValues| >= capacity.value ==>
                queue == metricValues && io == old(io) && recordsProcessed == old(recordsProcessed)
      ensures capacity.None? || |metricValues| < capacity.value ==>
                && queue == metricValues + [SelfMetric(metricsContextMap, nowSeconds, |metricValues|, delay)]
                && io == old(io) + [MetricStoreAdd(queue, storeOk)]
                && recordsProcessed == old(recordsProcessed) + (if storeOk then |queue| else 0)
    {
      queue := metricValues;
      if capacity.Some? && |queue| >= capacity.value {
        // the deque is full: add throws before the store is called
        return queue, false;
      }
      queue := queue + [SelfMetric(metricsContextMap, nowSeconds, |queue| , delay)];
      io := io + [MetricStoreAdd(queue, storeOk)];
      if !storeOk {
        return queue, false;
      }
      recordsProcessed := recordsProcessed + |queue|;
      ok := true;
    }

    /** persistRecordsMessageIds: persist a non-empty batch, then save the markers unless that failed. */
    method PersistRecordsMessageIds(metricValues: seq<MetricRecord>, lastRecordTime: int, delay: int,
                                    messageIds: map<Bytes, Bytes>, nowSeconds: int, capacity: Option<nat>,
                                    storeOk: bool, saveOk: bool)
      returns (queue: seq<MetricRecord>)
      modifies this`recordsProcessed, this`io
      ensures var out := PersistPass(metricValues, lastRecordTime, delay, messageIds,
                                                  metricsContextMap, nowSeconds, capacity, storeOk, saveOk);
              queue == out.queue && io == old(io) + out.calls &&
              recordsProcessed == old(recordsProcessed) + out.processed
    {
      queue := metricValues;
      if metricValues != [] {
        var ok;
        queue, ok := PersistRecords(metricValues, lastRecordTime, delay, nowSeconds, capacity, storeOk);
        if !ok {
          return;
        }
      }
      io := io + [SaveMessageIds(messageIds, saveOk)];
    }

    /**
     * The final flush after all consumers have stopped: the live buffer and marker map are passed,
     * so the self metric is appended to the buffer itself, which is not cleared. On an empty buffer
     * `peekLast` yields null and run() ends in a NullPointerException (`threw`) before any call, so
     * the markers are not saved either.
     */
    method FinalFlush(now: int, storeOk: bool, saveOk: bool) returns (threw: bool)
      requires Valid()
      modifies this`records, this`recordsProcessed, this`io
      ensures Valid()
      ensures threw <==> old(records) == []
      ensures threw ==> records == old(records) && io == old(io) && recordsProcessed == old(recordsProcessed)
      ensures !threw ==>
                var lastRecordTime := ToSeconds(Last(old(records)).timestamp);
                var out := PersistPass(old(records), lastRecordTime, now - lastRecordTime,
                                       topicMessageIds, metricsContextMap, ToSeconds(now),
                                       Some(queueSize), storeOk, saveOk);
                records == out.queue && io == old(io) + out.calls &&
                recordsProcessed == old(recordsProcessed) + out.processed
    {
      if records == [] {
        return true;
      }
      var lastRecordTime := ToSeconds(records[|records| - 1].timestamp);
      var delay := now - lastRecordTime;
      records := PersistRecordsMessageIds(records, lastRecordTime, delay, topicMessageIds, ToSeconds(now),
                                          Some(queueSize), storeOk, saveOk);
      threw := false;
    }

    /** The consumers of run(), one per topic, each given the marker loaded for it (None: null or a failed read). */
    method CreateConsumers(keys: seq<TopicIdMetaKey>, loaded: seq<Option<Bytes>>)
      returns (threads: seq<ProcessMetricsThread>)
      requires Valid() && |keys| == |loaded|
      modifies this`topicMessageIds
      ensures Valid()
      ensures topicMessageIds == LoadedMarkers(old(topicMessageIds), keys, loaded)
      ensures |threads| == |keys|
      ensures forall i :: 0 <= i < |threads| ==>
                threads[i].service == this && threads[i].topicIdMetaKey == keys[i] && threads[i].Valid()
    {
      threads := [];
      var i := 0;
      while i < |keys|
        invariant 0 <= i <= |keys| && |threads| == i
        invariant Valid()
        invariant topicMessageIds == LoadedMarkers(old(topicMessageIds), keys[..i], loaded[..i])
        invariant forall j :: 0 <= j < i ==>
                    threads[j].service == this && threads[j].topicIdMetaKey == keys[j] && threads[j].Valid()
      {
        var t := new ProcessMetricsThread(this, keys[i], loaded[i]);
        threads := threads + [t];
        assert keys[..i + 1][..i] == keys[..i] && loaded[..i + 1][..i] == loaded[..i];
        i := i + 1;
      }
      assert keys[..i] == keys && loaded[..i] == loaded;
    }
  }

  /** One topic's consumer. */
  class ProcessMetricsThread {
    const service: MetricsProcessorService
    const topicIdMetaKey: TopicIdMetaKey
    const payloadInput: PayloadInputStream
    var lastMetricTimeMillis: int

    ghost predicate Valid()
      reads this, service, payloadInput
    {
      service.Valid() && payloadInput.Valid()
    }

    /** The fetch request of the next step: at most fetcherLimit messages from the marker's position. */
    ghost function Request(): FetchRequest
      reads this, service
    {
      FetchRequest(topicIdMetaKey.topicId, FetchStart(service.topicMessageIds, topicIdMetaKey.key), service.fetcherLimit)
    }

    /** A loaded marker is put into the marker map; a null one leaves it as it was. */
    constructor(service: MetricsProcessorService, topicIdMetaKey: TopicIdMetaKey, messageId: Option<Bytes>)
      requires service.Valid()
      modifies service`topicMessageIds
      ensures Valid() && fresh(payloadInput)
      ensures this.service == service && this.topicIdMetaKey == topicIdMetaKey && lastMetricTimeMillis == 0
      ensures service.topicMessageIds ==
                if messageId.Some? then old(service.topicMessageIds)[topicIdMetaKey.key := messageId.value]
                else old(service.topicMessageIds)
    {
      this.service := service;
      this.topicIdMetaKey := topicIdMetaKey;
      this.payloadInput := new PayloadInputStream();
      this.lastMetricTimeMillis := 0;
      new;
      if messageId.Some? {
        service.PutMarker(topicIdMetaKey.key, messageId.value);
      }
    }

    /**
     * processMetrics. `source` answers the fetch request; the buffer must have room for what it
     * delivers, since insertion would block otherwise.
     */
    method ProcessMetrics(source: FetchRequest -> FetchResult, now: int, storeOk: bool, saveOk: bool)
      returns (sleep: int)
      requires Valid()
      requires |service.records| + |Decoded(source(Request()).messages)| <= service.queueSize
      modifies this, service, payloadInput
      ensures Valid()
      ensures var r := Step(old(service.Cfg()), old(service.State()), topicIdMetaKey.key, old(lastMetricTimeMillis),
                            source(old(Request())), now, storeOk, saveOk);
              service.State() == r.state && lastMetricTimeMillis == r.lastMetricTime && sleep == r.sleep
    {
      var key := topicIdMetaKey.key;
      var start := if key in service.topicMessageIds then StartMessage(service.topicMessageIds[key], false)
                   else StartTime(0);
      var fetch := source(FetchRequest(topicIdMetaKey.topicId, start, service.fetcherLimit));
      var currentMessageId := BufferFetched(fetch.messages);
      if fetch.failed {
        return service.metricsProcessIntervalMillis;
      }
      if currentMessageId.Some? {
        service.PutMarker(key, currentMessageId.value);
      }
      sleep := PersistBuffered(now, storeOk, saveOk);
    }

    /** The fetch loop: buffer every message that decodes, remembering the last one's id and time. */
    method BufferFetched(msgs: seq<Fetched>) returns (currentMessageId: Option<Bytes>)
      requires Valid()
      requires |service.records| + |Decoded(msgs)| <= service.queueSize
      modifies this`lastMetricTimeMillis, service`records, payloadInput
      ensures Valid()
      ensures service.records == old(service.records) + Decoded(msgs)
      ensures currentMessageId == LastDecodedId(msgs)
      ensures lastMetricTimeMillis == LastMetricTime(msgs, old(lastMetricTimeMillis))
    {
      currentMessageId := None;
      var i := 0;
      while i < |msgs|
        invariant 0 <= i <= |msgs|
        invariant service.Valid() && payloadInput.Valid()
        invariant service.records == old(service.records) + Decoded(msgs[..i])
        invariant currentMessageId == LastDecodedId(msgs[..i])
        invariant lastMetricTimeMillis == LastMetricTime(msgs[..i], old(lastMetricTimeMillis))
      {
        var input := msgs[i];
        payloadInput.Reset(input.payload);
        DecodedStep(msgs, i, old(lastMetricTimeMillis));
        DecodedAppend(msgs[..i + 1], msgs[i + 1..]);
        assert msgs[..i + 1] + msgs[i + 1..] == msgs;
        match input.decoded {
          case Some(metricValues) =>
            service.Put(metricValues);
            lastMetricTimeMillis := ToSeconds(metricValues.timestamp);
            currentMessageId := Some(input.id);
          case None =>
            // the reader threw an IOException: the message is skipped
        }
        i := i + 1;
      }
      assert msgs[..i] == msgs;
    }

    /** The part of processMetrics after the marker is advanced (lines 344-382). */
    method PersistBuffered(now: int, storeOk: bool, saveOk: bool) returns (sleep: int)
      requires Valid()
      modifies service`records, service`persistingFlag, service`recordsProcessed, service`io
      ensures Valid()
      ensures var r := TryPersist(old(service.Cfg()), old(service.State()), lastMetricTimeMillis, now, storeOk, saveOk);
              service.State() == r.state && sleep == r.sleep
    {
      if service.records == [] {
        return service.metricsProcessIntervalMillis;
      }
      var acquired := service.TryAcquire();
      if !acquired {
        if now - lastMetricTimeMillis > service.maxDelayMillis {
          return 0;
        }
        return service.metricsProcessIntervalMillis;
      }
      var topicMessageIdsCopy := service.topicMessageIds;
      var recordsCopy := service.Drain(service.queueSize);
      var lastRecordTime := ToSeconds(recordsCopy[|recordsCopy| - 1].timestamp);
      var delay := now - lastRecordTime;
      // passed as (delay, lastRecordTime) to parameters declared (lastRecordTime, delay)
      var _ := service.PersistRecordsMessageIds(recordsCopy, delay, lastRecordTime, topicMessageIdsCopy,
                                                ToSeconds(now), None, storeOk, saveOk);
      sleep := if delay > service.maxDelayMillis then 0 else service.metricsProcessIntervalMillis;
      service.Release();
    }
  }
}
