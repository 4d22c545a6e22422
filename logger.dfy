/** Experiment logging (backend/src/logger.py): the logger's bounded event
    buffer and its flush into the events file, and the reader's queries and
    statistics over the events file. A file is the sequence of records
    written to it; JSON encoding is not modelled, so the reader reads back
    exactly the records the logger wrote. */
module Logger {
  import opened Wrappers
  import opened Numeric
  import opened Sorting
  import opened Protocol
  import opened Metrics

  /** One JSON object of the events file. A key that is absent is None.
      The logger writes a priority name for every `pri` it records, so a
      `pri` present as null does not arise. */
  datatype LogEvent = LogEvent(
    etype: Option<string>,
    ts: int,
    sequence: Option<int>,
    pri: Option<string>,
    deadline: Option<int>,
    batch: Option<int>,
    latency: Option<int>,
    onTime: Option<bool>,
    reason: Option<string>,
    congested: Option<bool>,
    rate: Option<real>)

  const SENT: string := "sent"
  const RECV: string := "recv"
  const DROP: string := "drop"
  const UNKNOWN: string := "UNKNOWN"

  /** `log_packet_sent` */
  function SentEvent(p: Packet, now: int): LogEvent
  {
    LogEvent(Some(SENT), now, Some(p.header.sequence), Some(p.header.priority.Name()),
      Some(p.header.deadline), Some(p.header.batchId), None, None, None, None, None)
  }

  /** `log_packet_received` */
  function RecvEvent(p: Packet, now: int): LogEvent
  {
    LogEvent(Some(RECV), now, Some(p.header.sequence), Some(p.header.priority.Name()),
      None, None, LatencyMs(p), Some(IsOnTime(p)), None, None, None)
  }

  /** `log_packet_dropped` */
  function DropEvent(p: Packet, reason: string, now: int): LogEvent
  {
    LogEvent(Some(DROP), now, Some(p.header.sequence), Some(p.header.priority.Name()),
      None, None, None, None, Some(reason), None, None)
  }

  /** `log_congestion_event` */
  function CongestionEvent(congested: bool, rate: real, now: int): LogEvent
  {
    LogEvent(Some("congestion"), now, None, None, None, None, None, None, None, Some(congested), Some(rate))
  }

  /** `log_custom_event`, without its extra keyword fields. */
  function CustomEvent(eventType: string, now: int): LogEvent
  {
    LogEvent(Some(eventType), now, None, None, None, None, None, None, None, None, None)
  }

  class ExperimentLogger {
    const bufferSize: int
    var eventBuffer: seq<LogEvent>
    var eventCount: nat
    /** The records written to events.jsonl, in order. */
    var eventsFile: seq<LogEvent>

    /** Every logged event is in the file or, after it, in the buffer; the
        buffer is flushed before it reaches `buffer_size` (and at once
        when that is below 1). */
    ghost predicate Valid()
      reads this
    {
      eventCount == |eventsFile| + |eventBuffer| &&
      |eventBuffer| < MaxInt(bufferSize, 1)
    }

    constructor(bufferSize: int)
      ensures Valid()
      ensures this.bufferSize == bufferSize && eventBuffer == [] && eventCount == 0 && eventsFile == []
    {
      this.bufferSize := bufferSize;
      eventBuffer := [];
      eventCount := 0;
      eventsFile := [];
    }

    /** `_flush_events`: the buffered events are written out in order and
        the buffer is emptied; nothing happens when it is empty. */
    method FlushEvents()
      modifies this`eventBuffer, this`eventsFile
      ensures eventsFile == old(eventsFile) + old(eventBuffer) && eventBuffer == []
    {
      if eventBuffer == [] {
        return;
      }
      var pending := eventBuffer;
      for i := 0 to |pending|
        invariant eventsFile == old(eventsFile) + pending[..i]
      {
        eventsFile := eventsFile + [pending[i]];
      }
      assert pending[..|pending|] == pending;
      eventBuffer := [];
    }

    /** `_buffer_event`: one more event, logged after all earlier ones;
        a buffer that reaches `buffer_size` is flushed. */
    method BufferEvent(e: LogEvent)
      requires Valid()
      modifies this`eventBuffer, this`eventCount, this`eventsFile
      ensures Valid()
      ensures eventCount == old(eventCount) + 1
      ensures eventsFile + eventBuffer == old(eventsFile) + old(eventBuffer) + [e]
      ensures bufferSize >= 1 ==> |eventBuffer| < bufferSize
      ensures |old(eventBuffer)| + 1 >= bufferSize ==> eventBuffer == [] && eventsFile == old(eventsFile) + old(eventBuffer) + [e]
      ensures |old(eventBuffer)| + 1 < bufferSize ==> eventBuffer == old(eventBuffer) + [e] && eventsFile == old(eventsFile)
    {
      eventBuffer := eventBuffer + [e];
      eventCount := eventCount + 1;
      if |eventBuffer| >= bufferSize {
        FlushEvents();
      }
    }

    method LogPacketSent(p: Packet, now: int)
      requires Valid()
      modifies this`eventBuffer, this`eventCount, this`eventsFile
      ensures Valid() && eventCount == old(eventCount) + 1
      ensures eventsFile + eventBuffer == old(eventsFile) + old(eventBuffer) + [SentEvent(p, now)]
    {
      BufferEvent(SentEvent(p, now));
    }

    method LogPacketReceived(p: Packet, now: int)
      requires Valid()
      modifies this`eventBuffer, this`eventCount, this`eventsFile
      ensures Valid() && eventCount == old(eventCount) + 1
      ensures eventsFile + eventBuffer == old(eventsFile) + old(eventBuffer) + [RecvEvent(p, now)]
    {
      BufferEvent(RecvEvent(p, now));
    }

    method LogPacketDropped(p: Packet, reason: string, now: int)
      requires Valid()
      modifies this`eventBuffer, this`eventCount, this`eventsFile
      ensures Valid() && eventCount == old(eventCount) + 1
      ensures eventsFile + eventBuffer == old(eventsFile) + old(eventBuffer) + [DropEvent(p, reason, now)]
    {
      BufferEvent(DropEvent(p, reason, now));
    }

    method LogCongestionEvent(congested: bool, rate: real, now: int)
      requires Valid()
      modifies this`eventBuffer, this`eventCount, this`eventsFile
      ensures Valid() && eventCount == old(eventCount) + 1
      ensures eventsFile + eventBuffer == old(eventsFile) + old(eventBuffer) + [CongestionEvent(congested, rate, now)]
    {
      BufferEvent(CongestionEvent(congested, rate, now));
    }

    method LogCustomEvent(eventType: string, now: int)
      requires Valid()
      modifies this`eventBuffer, this`eventCount, this`eventsFile
      ensures Valid() && eventCount == old(eventCount) + 1
      ensures eventsFile + eventBuffer == old(eventsFile) + old(eventBuffer) + [CustomEvent(eventType, now)]
    {
      BufferEvent(CustomEvent(eventType, now));
    }

    /** `flush`: after it the file holds every event logged so far. */
    method Flush()
      requires Valid()
      modifies this`eventBuffer, this`eventsFile
      ensures Valid()
      ensures eventsFile == old(eventsFile) + old(eventBuffer) && eventBuffer == [] && |eventsFile| == eventCount
    {
      FlushEvents();
    }
  }

  /** `event.get('pri', 'UNKNOWN')` */
  function PriKey(e: LogEvent): string
  {
    if e.pri.Some? then e.pri.value else UNKNOWN
  }

  predicate IsType(e: LogEvent, t: string)
  {
    e.etype == Some(t)
  }

  /** `get_events_by_type`: the events of one type, in file order. */
  function EventsByType(events: seq<LogEvent>, t: string): (r: seq<LogEvent>)
    ensures |r| <= |events|
    ensures forall i :: 0 <= i < |r| ==> IsType(r[i], t)
  {
    if events == [] then []
    else
      var rest := EventsByType(events[..|events| - 1], t);
      if IsType(events[|events| - 1], t) then rest + [events[|events| - 1]] else rest
  }

  /** The filter keeps exactly the events of the type. */
  lemma {:induction false} EventsByTypeMembers(events: seq<LogEvent>, t: string, e: LogEvent)
    ensures e in EventsByType(events, t) <==> e in events && IsType(e, t)
  {
    if events != [] {
      var init := events[..|events| - 1];
      EventsByTypeMembers(init, t, e);
      assert events == init + [events[|events| - 1]];
    }
  }

  /** The filter preserves order: filtering a concatenation concatenates
      the filtered parts. */
  lemma {:induction false} EventsByTypeAppend(a: seq<LogEvent>, b: seq<LogEvent>, t: string)
    ensures EventsByType(a + b, t) == EventsByType(a, t) + EventsByType(b, t)
  {
    if b != [] {
      var init := b[..|b| - 1];
      EventsByTypeAppend(a, init, t);
      assert (a + b)[..|a + b| - 1] == a + init;
    } else {
      assert a + b == a;
    }
  }

  predicate HasLatency(e: LogEvent)
  {
    IsType(e, RECV) && e.latency.Some?
  }

  /** The recorded latencies of one priority key's `recv` events, in order. */
  function LatenciesOf(events: seq<LogEvent>, k: string): (r: seq<int>)
    ensures |r| <= |events|
  {
    if events == [] then []
    else
      var e := events[|events| - 1];
      var rest := LatenciesOf(events[..|events| - 1], k);
      if HasLatency(e) && PriKey(e) == k then rest + [e.latency.value] else rest
  }

  /** The keys `get_latencies_by_priority` creates. */
  function LatencyKeys(events: seq<LogEvent>): set<string>
  {
    if events == [] then {}
    else
      var e := events[|events| - 1];
      LatencyKeys(events[..|events| - 1]) + (if HasLatency(e) then {PriKey(e)} else {})
  }

  /** The latency lists preserve order: the lists of a concatenation are
      the concatenated lists. */
  lemma {:induction false} LatenciesOfAppend(a: seq<LogEvent>, b: seq<LogEvent>, k: string)
    ensures LatenciesOf(a + b, k) == LatenciesOf(a, k) + LatenciesOf(b, k)
  {
    if b != [] {
      var init := b[..|b| - 1];
      LatenciesOfAppend(a, init, k);
      assert (a + b)[..|a + b| - 1] == a + init;
    } else {
      assert a + b == a;
    }
  }

  /** A key gets a latency list exactly when one of its `recv` events
      carries a latency. */
  lemma {:induction false} LatencyKeysMeaning(events: seq<LogEvent>, k: string)
    ensures k in LatencyKeys(events) <==> LatenciesOf(events, k) != []
  {
    if events != [] {
      LatencyKeysMeaning(events[..|events| - 1], k);
    }
  }

  /** `dict.get(k, 0)` and `dict.get(k, [])` */
  function Get(m: map<string, nat>, k: string): nat
  {
    if k in m then m[k] else 0
  }

  function GetSeq(m: map<string, seq<int>>, k: string): seq<int>
  {
    if k in m then m[k] else []
  }

  /** `get_latencies_by_priority` */
  method GetLatenciesByPriority(events: seq<LogEvent>) returns (r: map<string, seq<int>>)
    ensures r.Keys == LatencyKeys(events)
    ensures forall k :: k in r ==> r[k] == LatenciesOf(events, k)
  {
    r := map[];
    for i := 0 to |events|
      invariant r.Keys == LatencyKeys(events[..i])
      invariant forall k :: GetSeq(r, k) == LatenciesOf(events[..i], k)
    {
      assert events[..i + 1][..i] == events[..i];
      var e := events[i];
      if HasLatency(e) {
        var k := PriKey(e);
        r := r[k := GetSeq(r, k) + [e.latency.value]];
      }
    }
    assert events[..|events|] == events;
    assert forall k :: k in r ==> r[k] == GetSeq(r, k);
  }

  /** How many events of a type the file holds for one priority key. */
  function CountFor(events: seq<LogEvent>, t: string, k: string): (n: nat)
    ensures n <= |events|
  {
    if events == [] then 0
    else
      var e := events[|events| - 1];
      CountFor(events[..|events| - 1], t, k) + (if IsType(e, t) && PriKey(e) == k then 1 else 0)
  }

  /** How many events of a type the file holds. */
  function CountType(events: seq<LogEvent>, t: string): (n: nat)
    ensures n <= |events|
  {
    if events == [] then 0
    else CountType(events[..|events| - 1], t) + (if IsType(events[|events| - 1], t) then 1 else 0)
  }

  /** `recv` events of a key whose `on_time` is true. */
  function OnTimeFor(events: seq<LogEvent>, k: string): (n: nat)
    ensures n <= CountFor(events, RECV, k)
  {
    if events == [] then 0
    else
      var e := events[|events| - 1];
      OnTimeFor(events[..|events| - 1], k) + (if IsType(e, RECV) && PriKey(e) == k && e.onTime == Some(true) then 1 else 0)
  }

  /** The keys `compute_statistics` reports: those of `sent` and `recv` events. */
  function ReportedKeys(events: seq<LogEvent>): set<string>
  {
    if events == [] then {}
    else
      var e := events[|events| - 1];
      ReportedKeys(events[..|events| - 1]) + (if IsType(e, SENT) || IsType(e, RECV) then {PriKey(e)} else {})
  }

  /** A priority key is reported exactly when it has a `sent` or a `recv`
      event: one that only has drops is left out. */
  lemma {:induction false} ReportedKeysMeaning(events: seq<LogEvent>, k: string)
    ensures k in ReportedKeys(events) <==> CountFor(events, SENT, k) > 0 || CountFor(events, RECV, k) > 0
  {
    if events != [] {
      ReportedKeysMeaning(events[..|events| - 1], k);
    }
  }

  datatype LatencyBlock = LatencyBlock(median: real, p50: int, p95: int, p99: int)

  datatype PriorityReport = PriorityReport(
    sent: nat,
    received: nat,
    dropped: nat,
    onTime: nat,
    deliveryRate: real,
    onTimeRate: real,
    latency: Option<LatencyBlock>)

  /** The latency block of a non-empty list: the median, the middle of the
      sorted list, and the sorted samples at the clamped 95th and 99th
      percentile indices. */
  function LatencyBlockOf(lats: seq<int>): LatencyBlock
    requires lats != []
  {
    var s := Sort(lats, IntLe);
    var n := |s|;
    LatencyBlock(Median(ToReals(lats)), s[n / 2], s[PercentileIndex(n, 95)], s[PercentileIndex(n, 99)])
  }

  /** p50 <= p95 <= p99, and each is one of the samples. */
  lemma LatencyBlockOrdered(lats: seq<int>)
    requires lats != []
    ensures var b := LatencyBlockOf(lats);
      b.p50 <= b.p95 <= b.p99 && b.p50 in lats && b.p95 in lats && b.p99 in lats
  {
    var s := Sort(lats, IntLe);
    var n := |s|;
    IntLeIsTotalPreorder();
    SortSorted(lats, IntLe);
    SortedElementIsMember(lats, IntLe, n / 2);
    SortedElementIsMember(lats, IntLe, PercentileIndex(n, 95));
    SortedElementIsMember(lats, IntLe, PercentileIndex(n, 99));
    assert n * 50 <= n * 95 <= n * 99;
    DivMonotone(n * 50, n * 95);
    DivMonotone(n * 95, n * 99);
    assert n / 2 == n * 50 / 100;
    var i, j, k := n / 2, PercentileIndex(n, 95), PercentileIndex(n, 99);
    if i < j {
      assert IntLe(s[i], s[j]);
    }
    if j < k {
      assert IntLe(s[j], s[k]);
    }
  }

  /** `num / den if den > 0 else 0` */
  function Rate(num: nat, den: nat): (r: real)
    ensures den == 0 ==> r == 0.0
    ensures den > 0 ==> r * den as real == num as real
  {
    if den > 0 then num as real / den as real else 0.0
  }

  /** One `by_priority` entry: the rates are 0 over a zero denominator. */
  function ReportOf(sent: nat, recv: nat, drop: nat, onTime: nat, lats: seq<int>): PriorityReport
  {
    PriorityReport(sent, recv, drop, onTime, Rate(recv, sent), Rate(onTime, recv),
      if lats != [] then Some(LatencyBlockOf(lats)) else None)
  }

  datatype Statistics = Statistics(byPriority: map<string, PriorityReport>, sent: nat, received: nat, dropped: nat)

  /** The counters `compute_statistics` keeps while it reads the events. */
  datatype Tally = Tally(
    sentBy: map<string, nat>,
    recvBy: map<string, nat>,
    dropBy: map<string, nat>,
    onTimeBy: map<string, nat>,
    latBy: map<string, seq<int>>,
    sent: nat,
    received: nat,
    dropped: nat)

  const NO_TALLY: Tally := Tally(map[], map[], map[], map[], map[], 0, 0, 0)

  /** `m[k] = m.get(k, 0) + 1` when `c` holds. */
  function Bump(m: map<string, nat>, k: string, c: bool): (r: map<string, nat>)
    ensures r.Keys == m.Keys + (if c then {k} else {})
  {
    if c then m[k := Get(m, k) + 1] else m
  }

  /** One event's effect on the counters. The three type tests exclude
      each other, so testing each of them is the `if`/`elif` chain. */
  function Count(t: Tally, e: LogEvent): Tally
  {
    var k := PriKey(e);
    Tally(
      Bump(t.sentBy, k, IsType(e, SENT)),
      Bump(t.recvBy, k, IsType(e, RECV)),
      Bump(t.dropBy, k, IsType(e, DROP)),
      Bump(t.onTimeBy, k, IsType(e, RECV) && e.onTime == Some(true)),
      if HasLatency(e) then t.latBy[k := GetSeq(t.latBy, k) + [e.latency.value]] else t.latBy,
      t.sent + (if IsType(e, SENT) then 1 else 0),
      t.received + (if IsType(e, RECV) then 1 else 0),
      t.dropped + (if IsType(e, DROP) then 1 else 0))
  }

  /** A per-key counter agrees with the events of one type read so far. */
  ghost predicate CountsType(m: map<string, nat>, es: seq<LogEvent>, ty: string)
  {
    forall k :: Get(m, k) == CountFor(es, ty, k)
  }

  ghost predicate CountsOnTime(m: map<string, nat>, es: seq<LogEvent>)
  {
    forall k :: Get(m, k) == OnTimeFor(es, k)
  }

  ghost predicate CollectsLatencies(m: map<string, seq<int>>, es: seq<LogEvent>)
  {
    forall k :: GetSeq(m, k) == LatenciesOf(es, k)
  }

  /** The counters agree with the events read so far. */
  ghost predicate Counts(t: Tally, es: seq<LogEvent>)
  {
    t.sent == CountType(es, SENT) && t.received == CountType(es, RECV) &&
    t.dropped == CountType(es, DROP) &&
    t.sentBy.Keys + t.recvBy.Keys == ReportedKeys(es) &&
    CountsType(t.sentBy, es, SENT) && CountsType(t.recvBy, es, RECV) && CountsType(t.dropBy, es, DROP) &&
    CountsOnTime(t.onTimeBy, es) && CollectsLatencies(t.latBy, es)
  }

  lemma NoTallyCountsNothing()
    ensures Counts(NO_TALLY, [])
  {
  }

  lemma CountsTypeExtends(m: map<string, nat>, es: seq<LogEvent>, e: LogEvent, ty: string)
    requires CountsType(m, es, ty)
    ensures CountsType(Bump(m, PriKey(e), IsType(e, ty)), es + [e], ty)
  {
    var es' := es + [e];
    var m' := Bump(m, PriKey(e), IsType(e, ty));
    forall k
      ensures Get(m', k) == CountFor(es', ty, k)
    {
      assert es'[..|es'| - 1] == es;
      assert Get(m, k) == CountFor(es, ty, k);
    }
  }

  lemma CountsOnTimeExtends(m: map<string, nat>, es: seq<LogEvent>, e: LogEvent)
    requires CountsOnTime(m, es)
    ensures CountsOnTime(Bump(m, PriKey(e), IsType(e, RECV) && e.onTime == Some(true)), es + [e])
  {
    var es' := es + [e];
    var m' := Bump(m, PriKey(e), IsType(e, RECV) && e.onTime == Some(true));
    forall k
      ensures Get(m', k) == OnTimeFor(es', k)
    {
      assert es'[..|es'| - 1] == es;
      assert Get(m, k) == OnTimeFor(es, k);
    }
  }

  lemma CollectsLatenciesExtends(m: map<string, seq<int>>, es: seq<LogEvent>, e: LogEvent)
    requires CollectsLatencies(m, es)
    ensures CollectsLatencies(if HasLatency(e) then m[PriKey(e) := GetSeq(m, PriKey(e)) + [e.latency.value]] else m, es + [e])
  {
    var es' := es + [e];
    var m' := if HasLatency(e) then m[PriKey(e) := GetSeq(m, PriKey(e)) + [e.latency.value]] else m;
    forall k
      ensures GetSeq(m', k) == LatenciesOf(es', k)
    {
      assert es'[..|es'| - 1] == es;
      assert GetSeq(m, k) == LatenciesOf(es, k);
    }
  }

  lemma CountTypeExtends(es: seq<LogEvent>, e: LogEvent, ty: string)
    ensures CountType(es + [e], ty) == CountType(es, ty) + (if IsType(e, ty) then 1 else 0)
  {
    var es' := es + [e];
    assert es'[..|es'| - 1] == es;
  }

  lemma ReportedKeysExtend(es: seq<LogEvent>, e: LogEvent)
    ensures ReportedKeys(es + [e]) == ReportedKeys(es) + (if IsType(e, SENT) || IsType(e, RECV) then {PriKey(e)} else {})
  {
    var es' := es + [e];
    assert es'[..|es'| - 1] == es;
  }

  /** Counting one more event keeps the counters in step with the events. */
  lemma CountExtends(t: Tally, es: seq<LogEvent>, e: LogEvent)
    requires Counts(t, es)
    ensures Counts(Count(t, e), es + [e])
  {
    CountTypeExtends(es, e, SENT);
    CountTypeExtends(es, e, RECV);
    CountTypeExtends(es, e, DROP);
    ReportedKeysExtend(es, e);
    CountsTypeExtends(t.sentBy, es, e, SENT);
    CountsTypeExtends(t.recvBy, es, e, RECV);
    CountsTypeExtends(t.dropBy, es, e, DROP);
    CountsOnTimeExtends(t.onTimeBy, es, e);
    CollectsLatenciesExtends(t.latBy, es, e);
  }

  /** The `by_priority` entry built from the counters. */
  function ReportFor(t: Tally, k: string): PriorityReport
  {
    ReportOf(Get(t.sentBy, k), Get(t.recvBy, k), Get(t.dropBy, k), Get(t.onTimeBy, k), GetSeq(t.latBy, k))
  }

  /** The `by_priority` entry of a key from the events themselves. */
  function ReportFrom(events: seq<LogEvent>, k: string): PriorityReport
  {
    ReportOf(CountFor(events, SENT, k), CountFor(events, RECV, k),
      CountFor(events, DROP, k), OnTimeFor(events, k), LatenciesOf(events, k))
  }

  lemma ReportForCounts(t: Tally, events: seq<LogEvent>, k: string)
    requires Counts(t, events)
    ensures ReportFor(t, k) == ReportFrom(events, k)
  {
    assert Get(t.sentBy, k) == CountFor(events, SENT, k);
    assert Get(t.recvBy, k) == CountFor(events, RECV, k);
    assert Get(t.dropBy, k) == CountFor(events, DROP, k);
    assert Get(t.onTimeBy, k) == OnTimeFor(events, k);
    assert GetSeq(t.latBy, k) == LatenciesOf(events, k);
  }

  /** The first pass of `compute_statistics`, over every event in order. */
  method TallyEvents(events: seq<LogEvent>) returns (t: Tally)
    ensures Counts(t, events)
  {
    t := NO_TALLY;
    NoTallyCountsNothing();
    for i := 0 to |events|
      invariant Counts(t, events[..i])
    {
      CountExtends(t, events[..i], events[i]);
      assert events[..i + 1] == events[..i] + [events[i]];
      t := Count(t, events[i]);
    }
    assert events[..|events|] == events;
  }

  /** The second pass of `compute_statistics`: one entry per key. */
  method ReportAll(t: Tally, keys: set<string>) returns (byPriority: map<string, PriorityReport>)
    ensures byPriority.Keys == keys
    ensures forall k :: k in byPriority ==> byPriority[k] == ReportFor(t, k)
  {
    var todo := keys;
    byPriority := map[];
    while todo != {}
      invariant todo <= keys && byPriority.Keys == keys - todo
      invariant forall k :: k in byPriority ==> byPriority[k] == ReportFor(t, k)
      decreases |todo|
    {
      var k :| k in todo;
      byPriority := byPriority[k := ReportFor(t, k)];
      todo := todo - {k};
    }
  }

  /** `compute_statistics`: the totals count the `sent`, `recv` and `drop`
      events; every priority key with a `sent` or `recv` event gets its
      counts, rates and, when it has latencies, a latency block. */
  method ComputeStatistics(events: seq<LogEvent>) returns (st: Statistics)
    ensures st.sent == CountType(events, SENT) && st.received == CountType(events, RECV)
    ensures st.dropped == CountType(events, DROP)
    ensures st.byPriority.Keys == ReportedKeys(events)
    ensures forall k :: k in st.byPriority ==> st.byPriority[k] == ReportFrom(events, k)
  {
    var t := TallyEvents(events);
    var byPriority := ReportAll(t, t.sentBy.Keys + t.recvBy.Keys);
    forall k | k in byPriority
      ensures byPriority[k] == ReportFrom(events, k)
    {
      ReportForCounts(t, events, k);
    }
    st := Statistics(byPriority, t.sent, t.received, t.dropped);
  }
}
