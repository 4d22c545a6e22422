/** Metrics bookkeeping (backend/src/metrics.py): per-priority counters and
    latencies with their derived rates and percentiles, and the collector
    that records sends, receptions and drops into them and into bounded
    buffers of recent packets, latency history and events. */
module Metrics {
  import opened Wrappers
  import opened Numeric
  import opened Sorting
  import opened Protocol

  /** The last `n` elements of `s` (all of them when there are fewer). */
  function Newest<T>(s: seq<T>, n: nat): (r: seq<T>)
    ensures |r| == MinInt(|s|, n)
    ensures r == s[|s| - |r|..]
  {
    if |s| <= n then s else s[|s| - n..]
  }

  /** `deque(maxlen=n).append(x)`: the element goes at the end and, when
      the deque is full, the oldest element falls off the front. */
  function BoundedAppend<T>(q: seq<T>, x: T, maxLen: nat): (r: seq<T>)
    requires |q| <= maxLen
    ensures |r| == MinInt(|q| + 1, maxLen)
    ensures maxLen > 0 ==> r[|r| - 1] == x
  {
    if |q| + 1 <= maxLen then q + [x] else (q + [x])[|q| + 1 - maxLen..]
  }

  lemma BoundedAppendIsNewest<T>(q: seq<T>, x: T, maxLen: nat)
    requires |q| <= maxLen
    ensures BoundedAppend(q, x, maxLen) == Newest(q + [x], maxLen)
  {
  }

  /** Trimming before appending more trims the same way as trimming after. */
  lemma NewestOfNewest<T>(s: seq<T>, t: seq<T>, n: nat)
    ensures Newest(Newest(s, n) + t, n) == Newest(s + t, n)
  {
    if |s| > n {
      var a := Newest(Newest(s, n) + t, n);
      var b := Newest(s + t, n);
      assert |a| == |b|;
      forall i | 0 <= i < |a|
        ensures a[i] == b[i]
      {
        if |t| >= n {
          assert a[i] == t[|t| - n + i];
          assert b[i] == t[|t| - n + i];
        } else {
          assert a[i] == (s[|s| - n..] + t)[|t| + i];
          assert b[i] == (s + t)[|s| + |t| - n + i];
        }
      }
    }
  }

  /** Appends one at a time keep the newest `maxLen` elements, in order. */
  lemma {:induction false} BoundedAppendKeepsNewest<T>(q: seq<T>, xs: seq<T>, maxLen: nat)
    requires |q| <= maxLen
    ensures BoundedAppendAll(q, xs, maxLen) == Newest(q + xs, maxLen)
    decreases |xs|
  {
    if xs == [] {
      assert q + xs == q;
    } else {
      var q' := BoundedAppend(q, xs[0], maxLen);
      var rest := xs[1..];
      calc {
        BoundedAppendAll(q, xs, maxLen);
        BoundedAppendAll(q', rest, maxLen);
        { BoundedAppendKeepsNewest(q', rest, maxLen); }
        Newest(q' + rest, maxLen);
        { BoundedAppendIsNewest(q, xs[0], maxLen); }
        Newest(Newest(q + [xs[0]], maxLen) + rest, maxLen);
        { NewestOfNewest(q + [xs[0]], rest, maxLen); }
        Newest((q + [xs[0]]) + rest, maxLen);
        { assert (q + [xs[0]]) + rest == q + xs; }
        Newest(q + xs, maxLen);
      }
    }
  }

  function BoundedAppendAll<T>(q: seq<T>, xs: seq<T>, maxLen: nat): (r: seq<T>)
    requires |q| <= maxLen
    ensures |r| <= maxLen
    decreases |xs|
  {
    if xs == [] then q else BoundedAppendAll(BoundedAppend(q, xs[0], maxLen), xs[1..], maxLen)
  }

  datatype PriorityStats = PriorityStats(
    priority: Priority,
    total: nat,
    received: nat,
    dropped: nat,
    onTime: nat,
    late: nat,
    latencies: seq<int>)

  function NewStats(p: Priority): PriorityStats
  {
    PriorityStats(p, 0, 0, 0, 0, 0, [])
  }

  /** What every record operation preserves: each reception is counted
      as on time or late, and at most one latency is kept per reception. */
  predicate Consistent(s: PriorityStats)
  {
    s.onTime + s.late == s.received && |s.latencies| <= s.received
  }

  /** `delivery_rate`: received over sent, 0 when nothing was sent. */
  function DeliveryRate(s: PriorityStats): (r: real)
    ensures s.total == 0 ==> r == 0.0
    ensures s.total > 0 ==> r * s.total as real == s.received as real
    ensures r >= 0.0 && (s.received <= s.total ==> r <= 1.0)
  {
    if s.total == 0 then 0.0 else s.received as real / s.total as real
  }

  /** `on_time_rate`: on time over received, 0 when nothing was received;
      never above 1 for consistent statistics. */
  function OnTimeRate(s: PriorityStats): (r: real)
    ensures s.received == 0 ==> r == 0.0
    ensures s.received > 0 ==> r * s.received as real == s.onTime as real
    ensures r >= 0.0 && (Consistent(s) ==> r <= 1.0)
  {
    if s.received == 0 then 0.0 else s.onTime as real / s.received as real
  }

  /** The sum of a list of latencies. */
  function SumOf(xs: seq<int>): int
  {
    if xs == [] then 0 else xs[0] + SumOf(xs[1..])
  }

  /** A sum of |xs| values between lo and hi lies between |xs| * lo and
      |xs| * hi. */
  lemma {:induction false} SumWithin(xs: seq<int>, lo: int, hi: int)
    requires forall i :: 0 <= i < |xs| ==> lo <= xs[i] <= hi
    ensures |xs| * lo <= SumOf(xs) <= |xs| * hi
  {
    if xs != [] {
      SumWithin(xs[1..], lo, hi);
      assert |xs| * lo == (|xs| - 1) * lo + lo;
      assert |xs| * hi == (|xs| - 1) * hi + hi;
    }
  }

  /** `avg_latency`: the mean of the latencies (`statistics.mean`, exact
      here), 0 with no latencies. */
  function AvgLatency(s: PriorityStats): (r: real)
    ensures s.latencies == [] ==> r == 0.0
    ensures s.latencies != [] ==> r * |s.latencies| as real == SumOf(s.latencies) as real
  {
    if s.latencies == [] then 0.0 else SumOf(s.latencies) as real / |s.latencies| as real
  }

  /** Python's `min` of a non-empty list. */
  function MinOf(s: seq<int>): (r: int)
    requires s != []
    ensures r in s && forall i :: 0 <= i < |s| ==> r <= s[i]
  {
    if |s| == 1 then s[0] else var m := MinOf(s[1..]); if s[0] <= m then s[0] else m
  }

  /** A mean of n values whose sum lies between n * lo and n * hi lies
      between lo and hi. */
  lemma MeanBetween(sum: int, n: int, lo: int, hi: int)
    requires n > 0 && n * lo <= sum <= n * hi
    ensures lo as real <= sum as real / n as real <= hi as real
  {
    var q := sum as real / n as real;
    assert q * n as real == sum as real;
    assert (n * lo) as real == n as real * lo as real;
    assert (n * hi) as real == n as real * hi as real;
    assert (q - lo as real) * n as real >= 0.0;
    assert (hi as real - q) * n as real >= 0.0;
  }

  /** The mean latency lies between the smallest and the largest latency. */
  lemma AvgLatencyWithin(s: PriorityStats)
    requires s.latencies != []
    ensures MinOf(s.latencies) as real <= AvgLatency(s) <= MaxOf(s.latencies) as real
  {
    SumWithin(s.latencies, MinOf(s.latencies), MaxOf(s.latencies));
    MeanBetween(SumOf(s.latencies), |s.latencies|, MinOf(s.latencies), MaxOf(s.latencies));
  }

  /** `median_latency`: 0 with no latencies. */
  function MedianLatency(s: PriorityStats): real
  {
    if s.latencies == [] then 0.0 else Median(ToReals(s.latencies))
  }

  /** Python's `max` of a non-empty list. */
  function MaxOf(s: seq<int>): (r: int)
    requires s != []
    ensures r in s && forall i :: 0 <= i < |s| ==> s[i] <= r
  {
    if |s| == 1 then s[0] else var m := MaxOf(s[1..]); if s[0] >= m then s[0] else m
  }

  /** `min(int(n * pct / 100), n - 1)`: always a valid index. */
  function PercentileIndex(n: nat, pct: nat): (i: int)
    requires n > 0
    ensures 0 <= i < n
  {
    MinInt(n * pct / 100, n - 1)
  }

  /** `p95_latency` (pct 95) and `p99_latency` (pct 99): with fewer than 20
      samples the maximum (0 with none); otherwise the sorted sample at the
      clamped percentile index. The result is always one of the samples. */
  function Percentile(latencies: seq<int>, pct: nat): (r: int)
    ensures latencies == [] ==> r == 0
    ensures latencies != [] ==> r in latencies
  {
    if |latencies| < 20 then (if latencies == [] then 0 else MaxOf(latencies))
    else
      var s := Sort(latencies, IntLe);
      var i := PercentileIndex(|s|, pct);
      SortedElementIsMember(latencies, IntLe, i);
      s[i]
  }

  /** Below 20 samples every percentile is the largest sample. */
  lemma SmallSamplePercentileIsMax(latencies: seq<int>, pct: nat)
    requires 0 < |latencies| < 20
    ensures forall i :: 0 <= i < |latencies| ==> latencies[i] <= Percentile(latencies, pct)
  {
  }

  lemma DivMonotone(a: nat, b: nat)
    requires a <= b
    ensures a / 100 <= b / 100
  {
  }

  lemma {:induction false} MulMonotone(n: nat, p: nat, q: nat)
    requires p <= q
    ensures n * p <= n * q
  {
    if n > 0 {
      MulMonotone(n - 1, p, q);
      assert n * p == (n - 1) * p + p;
      assert n * q == (n - 1) * q + q;
    }
  }

  /** A higher percentile is never smaller: p95 <= p99. */
  lemma PercentileMonotone(latencies: seq<int>, p: nat, q: nat)
    requires p <= q
    ensures Percentile(latencies, p) <= Percentile(latencies, q)
  {
    var n := |latencies|;
    if n >= 20 {
      var s := Sort(latencies, IntLe);
      IntLeIsTotalPreorder();
      SortSorted(latencies, IntLe);
      MulMonotone(n, p, q);
      DivMonotone(n * p, n * q);
      var i := PercentileIndex(n, p);
      var j := PercentileIndex(n, q);
      if i < j {
        assert IntLe(s[i], s[j]);
      }
    }
  }

  /** One record per received packet, for the recent-packets buffer. */
  datatype PacketMetric = PacketMetric(
    sequence: int,
    priority: Priority,
    sendTime: int,
    receiveTime: int,
    deadline: int,
    latency: int,
    onTime: bool,
    batchId: int,
    dropped: bool)

  datatype MetricsEvent =
    | ReceivedEvent(time: int, priority: Priority, sequence: int, latency: Option<int>, onTime: bool)
    | DroppedEvent(time: int, priority: Priority, sequence: int, reason: string)

  const RECENT_EVENTS: nat := 100
  const LATENCY_HISTORY: nat := 200

  /** The latency `record_received` keeps: a defined, non-negative one. */
  function KeptLatency(p: Packet): (r: Option<int>)
    ensures r.Some? <==> LatencyMs(p).Some? && LatencyMs(p).value >= 0
    ensures r.Some? ==> r.value == LatencyMs(p).value
  {
    var lat := LatencyMs(p);
    if lat.Some? && lat.value >= 0 then lat else None
  }

  /** The statistics update of `record_received` for a packet already
      marked as received. */
  function WithReception(s: PriorityStats, p: Packet): (r: PriorityStats)
    ensures r.received == s.received + 1
    ensures IsOnTime(p) ==> r.onTime == s.onTime + 1 && r.late == s.late
    ensures !IsOnTime(p) ==> r.late == s.late + 1 && r.onTime == s.onTime
    ensures KeptLatency(p).Some? ==> r.latencies == s.latencies + [KeptLatency(p).value]
    ensures KeptLatency(p).None? ==> r.latencies == s.latencies
    ensures r.priority == s.priority && r.total == s.total && r.dropped == s.dropped
  {
    var lat := KeptLatency(p);
    var onTime := IsOnTime(p);
    s.(received := s.received + 1,
       latencies := if lat.Some? then s.latencies + [lat.value] else s.latencies,
       onTime := if onTime then s.onTime + 1 else s.onTime,
       late := if onTime then s.late else s.late + 1)
  }

  /** Recording a reception keeps the statistics consistent. */
  lemma ReceptionKeepsConsistent(s: PriorityStats, p: Packet)
    requires Consistent(s)
    ensures Consistent(WithReception(s, p))
  {
  }

  /** How many of the receptions 1..n are sampled into the event log. */
  function SampledReceptions(n: nat): nat
  {
    if n == 0 then 0 else SampledReceptions(n - 1) + (if n % 10 == 1 then 1 else 0)
  }

  /** Sampling every reception whose count is 1 modulo 10 logs one event
      per started ten: ceil(n / 10) of n receptions. */
  lemma {:induction false} SampledReceptionsCount(n: nat)
    ensures SampledReceptions(n) == (n + 9) / 10
  {
    if n > 0 {
      SampledReceptionsCount(n - 1);
      var q := (n - 1) / 10;
      assert n - 1 == 10 * q + (n - 1) % 10;
      if n % 10 == 1 {
        assert (n - 1) % 10 == 0;
        assert (n + 9) / 10 == q + 1;
        assert (n + 8) / 10 == q;
      } else {
        assert (n - 1) % 10 != 0;
        assert (n + 9) / 10 == (n + 8) / 10;
      }
    }
  }

  function EmptyStats(): (m: map<Priority, PriorityStats>)
    ensures forall p :: p in m && m[p] == NewStats(p)
  {
    EveryPriorityListed();
    map p | p in ALL_PRIORITIES :: NewStats(p)
  }

  function EmptyHistory(): (m: map<Priority, seq<(int, int)>>)
    ensures forall p :: p in m && m[p] == []
    ensures HistoryOk(m)
  {
    EveryPriorityListed();
    map p | p in ALL_PRIORITIES :: []
  }

  /** A per-priority total: the sum over the four priorities. */
  function SumOver(stats: map<Priority, PriorityStats>, f: PriorityStats -> nat): nat
    requires forall p :: p in stats
  {
    f(stats[Critical]) + f(stats[High]) + f(stats[Medium]) + f(stats[Low])
  }

  function Sent(s: PriorityStats): nat { s.total }
  function Received(s: PriorityStats): nat { s.received }
  function OnTime(s: PriorityStats): nat { s.onTime }

  /** Changing one priority's statistics changes a total by exactly the
      change in that priority's count. */
  lemma SumOverUpdate(stats: map<Priority, PriorityStats>, f: PriorityStats -> nat, p: Priority, s: PriorityStats)
    requires forall q :: q in stats
    ensures SumOver(stats[p := s], f) + f(stats[p]) == SumOver(stats, f) + f(s)
  {
  }

  /** The overall on-time count never exceeds the overall received count. */
  lemma OnTimeWithinReceived(stats: map<Priority, PriorityStats>)
    requires forall p :: p in stats && Consistent(stats[p])
    ensures SumOver(stats, OnTime) <= SumOver(stats, Received)
  {
    assert Consistent(stats[Critical]) && Consistent(stats[High]);
    assert Consistent(stats[Medium]) && Consistent(stats[Low]);
  }

  /** The `total` block and the per-priority statistics of
      `get_current_stats`; both rates are percentages over `max(1, .)`. */
  datatype Snapshot = Snapshot(
    elapsedMs: int,
    sent: nat,
    received: nat,
    onTime: nat,
    deliveryRate: real,
    onTimeRate: real,
    byPriority: map<Priority, PriorityStats>)

  function MakeSnapshot(stats: map<Priority, PriorityStats>, elapsedMs: int): (r: Snapshot)
    requires forall p :: p in stats
    ensures r.sent == SumOver(stats, Sent) && r.received == SumOver(stats, Received) && r.onTime == SumOver(stats, OnTime)
    ensures r.deliveryRate * MaxInt(1, r.sent) as real == r.received as real * 100.0
    ensures r.onTimeRate * MaxInt(1, r.received) as real == r.onTime as real * 100.0
    ensures r.byPriority == stats && r.elapsedMs == elapsedMs
  {
    var sent := SumOver(stats, Sent);
    var received := SumOver(stats, Received);
    var onTime := SumOver(stats, OnTime);
    Snapshot(elapsedMs, sent, received, onTime,
      received as real / MaxInt(1, sent) as real * 100.0,
      onTime as real / MaxInt(1, received) as real * 100.0,
      stats)
  }

  lemma PercentAtMost100(a: real, d: real)
    requires 0.0 <= a <= d && d > 0.0
    ensures 0.0 <= a / d * 100.0 <= 100.0
  {
    assert a / d <= 1.0;
  }

  /** For consistent statistics the overall on-time rate is at most 100%. */
  lemma SnapshotOnTimeAtMost100(stats: map<Priority, PriorityStats>, elapsedMs: int)
    requires forall p :: p in stats && Consistent(stats[p])
    ensures 0.0 <= MakeSnapshot(stats, elapsedMs).onTimeRate <= 100.0
  {
    OnTimeWithinReceived(stats);
    var r := MakeSnapshot(stats, elapsedMs);
    PercentAtMost100(r.onTime as real, MaxInt(1, r.received) as real);
  }

  /** The packet as `record_received` sees it: marked received at `now`
      unless it already was. */
  function Marked(packet: Packet, now: int): (pk: Packet)
    ensures pk.receivedAt.Some? && pk.header == packet.header
  {
    if packet.receivedAt.None? then MarkReceived(packet, now) else packet
  }

  /** The recent-packets record of a received packet; an undefined
      latency is recorded as 0. */
  function MetricOf(pk: Packet): PacketMetric
    requires pk.receivedAt.Some?
  {
    var lat := LatencyMs(pk);
    PacketMetric(pk.header.sequence, pk.header.priority, pk.header.timestamp, pk.receivedAt.value,
      pk.header.deadline, if lat.Some? then lat.value else 0, IsOnTime(pk), pk.header.batchId, false)
  }

  /** Statistics for every priority, each consistent and labelled with
      its priority. */
  ghost predicate StatsOk(stats: map<Priority, PriorityStats>)
  {
    forall p :: p in stats && stats[p].priority == p && Consistent(stats[p])
  }

  /** A latency history for every priority, each within its bound. */
  ghost predicate HistoryOk(h: map<Priority, seq<(int, int)>>)
  {
    forall p :: p in h && |h[p]| <= LATENCY_HISTORY
  }

  lemma StatsOkUpdate(stats: map<Priority, PriorityStats>, p: Priority, s: PriorityStats)
    requires StatsOk(stats) && s.priority == p && Consistent(s)
    ensures StatsOk(stats[p := s])
  {
  }

  lemma HistoryOkUpdate(h: map<Priority, seq<(int, int)>>, p: Priority, xs: seq<(int, int)>)
    requires HistoryOk(h) && |xs| <= LATENCY_HISTORY
    ensures HistoryOk(h[p := xs])
  {
  }

  lemma EmptyStatsOk()
    ensures StatsOk(EmptyStats())
  {
    var stats := EmptyStats();
    forall p
      ensures p in stats && stats[p].priority == p && Consistent(stats[p])
    {
      assert stats[p] == NewStats(p);
    }
  }

  class MetricsCollector {
    const windowSize: nat
    var stats: map<Priority, PriorityStats>
    var recentPackets: seq<PacketMetric>
    var latencyHistory: map<Priority, seq<(int, int)>>
    var events: seq<MetricsEvent>
    var startTime: int

    /** Statistics and a latency history for every priority, each
        consistent and labelled with its priority, and every buffer within
        its bound. */
    ghost predicate Valid()
      reads this
    {
      StatsOk(stats) && HistoryOk(latencyHistory) &&
      |recentPackets| <= windowSize && |events| <= RECENT_EVENTS
    }

    constructor(windowSize: nat, now: int)
      ensures Valid()
      ensures this.windowSize == windowSize && stats == EmptyStats() && latencyHistory == EmptyHistory()
      ensures recentPackets == [] && events == [] && startTime == now
    {
      this.windowSize := windowSize;
      EmptyStatsOk();
      stats := EmptyStats();
      recentPackets := [];
      latencyHistory := EmptyHistory();
      events := [];
      startTime := now;
    }

    /** `record_sent`: one more packet sent at the packet's priority only. */
    method RecordSent(packet: Packet)
      requires Valid()
      modifies this`stats
      ensures Valid()
      ensures var p := packet.header.priority;
        stats == old(stats)[p := old(stats)[p].(total := old(stats)[p].total + 1)]
      ensures SumOver(stats, Sent) == SumOver(old(stats), Sent) + 1
    {
      var p := packet.header.priority;
      var s := stats[p];
      SumOverUpdate(stats, Sent, p, s.(total := s.total + 1));
      StatsOkUpdate(stats, p, s.(total := s.total + 1));
      stats := stats[p := s.(total := s.total + 1)];
    }

    /** `record_received`: the packet is marked received at `now` unless it
        already was; its priority's statistics take the reception; a metric
        joins the recent packets; a kept latency joins that priority's
        history; every reception whose count is 1 modulo 10 is logged. */
    method RecordReceived(packet: Packet, now: int)
      requires Valid()
      modifies this`stats, this`recentPackets, this`latencyHistory, this`events
      ensures Valid()
      ensures var pk := Marked(packet, now);
        var pr := pk.header.priority;
        var elapsed := now - startTime;
        stats == old(stats)[pr := WithReception(old(stats)[pr], pk)] &&
        recentPackets == BoundedAppend(old(recentPackets), MetricOf(pk), windowSize) &&
        latencyHistory == (if KeptLatency(pk).Some?
          then old(latencyHistory)[pr := BoundedAppend(old(latencyHistory)[pr], (elapsed, KeptLatency(pk).value), LATENCY_HISTORY)]
          else old(latencyHistory)) &&
        events == (if stats[pr].received % 10 == 1
          then BoundedAppend(old(events), ReceivedEvent(elapsed, pr, pk.header.sequence, LatencyMs(pk), IsOnTime(pk)), RECENT_EVENTS)
          else old(events))
    {
      var pk := Marked(packet, now);
      var pr := pk.header.priority;
      ReceptionKeepsConsistent(stats[pr], pk);
      var s := WithReception(stats[pr], pk);
      StatsOkUpdate(stats, pr, s);
      stats := stats[pr := s];
      recentPackets := BoundedAppend(recentPackets, MetricOf(pk), windowSize);
      var elapsed := now - startTime;
      var kept := KeptLatency(pk);
      if kept.Some? {
        var h := BoundedAppend(latencyHistory[pr], (elapsed, kept.value), LATENCY_HISTORY);
        HistoryOkUpdate(latencyHistory, pr, h);
        latencyHistory := latencyHistory[pr := h];
      }
      if s.received % 10 == 1 {
        events := BoundedAppend(events, ReceivedEvent(elapsed, pr, pk.header.sequence, LatencyMs(pk), IsOnTime(pk)), RECENT_EVENTS);
      }
    }

    /** `record_dropped`: one more drop at the packet's priority only, and
        a logged event. */
    method RecordDropped(packet: Packet, reason: string, now: int)
      requires Valid()
      modifies this`stats, this`events
      ensures Valid()
      ensures var p := packet.header.priority;
        stats == old(stats)[p := old(stats)[p].(dropped := old(stats)[p].dropped + 1)] &&
        events == BoundedAppend(old(events), DroppedEvent(now - startTime, p, packet.header.sequence, reason), RECENT_EVENTS)
    {
      var p := packet.header.priority;
      var s := stats[p];
      StatsOkUpdate(stats, p, s.(dropped := s.dropped + 1));
      stats := stats[p := s.(dropped := s.dropped + 1)];
      events := BoundedAppend(events, DroppedEvent(now - startTime, p, packet.header.sequence, reason), RECENT_EVENTS);
    }

    /** `get_current_stats` */
    function CurrentStats(now: int): (r: Snapshot)
      reads this
      requires Valid()
      ensures r == MakeSnapshot(stats, now - startTime)
      ensures 0.0 <= r.onTimeRate <= 100.0
    {
      SnapshotOnTimeAtMost100(stats, now - startTime);
      MakeSnapshot(stats, now - startTime)
    }

    /** `reset`: fresh statistics, empty buffers, a new start time. */
    method Reset(now: int)
      modifies this`stats, this`recentPackets, this`latencyHistory, this`events, this`startTime
      ensures Valid()
      ensures stats == EmptyStats() && latencyHistory == EmptyHistory()
      ensures recentPackets == [] && events == [] && startTime == now
    {
      EmptyStatsOk();
      stats := EmptyStats();
      recentPackets := [];
      latencyHistory := EmptyHistory();
      events := [];
      startTime := now;
    }
  }
}
