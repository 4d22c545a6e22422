/** Clock synchronisation by a three-way timestamp exchange
    (backend/src/clock_sync.py): the 25-byte sync packet, the offset and
    round-trip formulas, the validation of a round, the median aggregation
    over rounds, the server's reply, and the adjustment of remote times.
    Sockets are not modelled: what a round sends and receives, and the
    clock readings around it, are arguments. */
module ClockSync {
  import opened Wrappers
  import opened Numeric
  import opened Bytes
  import opened Sorting

  const SYNC_REQ: byte := 0x01
  const SYNC_RESP: byte := 0x02
  const SYNC_ACK: byte := 0x03
  const SYNC_PACKET_SIZE: nat := 25

  /** A sync packet, format '>B q q q': a type byte and three timestamps. */
  datatype SyncPacket = SyncPacket(ptype: byte, t1: int, t2: int, t3: int)

  predicate IsInt64(x: int)
  {
    INT64_MIN <= x <= INT64_MAX
  }

  /** `struct.pack` succeeds exactly when every timestamp fits 64 signed bits. */
  predicate SyncFits(p: SyncPacket)
  {
    IsInt64(p.t1) && IsInt64(p.t2) && IsInt64(p.t3)
  }

  function EncodeSync(p: SyncPacket): (r: Option<seq<byte>>)
    ensures r.Some? <==> SyncFits(p)
    ensures r.Some? ==> |r.value| == SYNC_PACKET_SIZE && r.value[0] == p.ptype
  {
    if SyncFits(p) then Some([p.ptype] + EncodeI64(p.t1) + EncodeI64(p.t2) + EncodeI64(p.t3))
    else None
  }

  /** `struct.unpack` accepts exactly 25 bytes. */
  function DecodeSync(data: seq<byte>): (r: Option<SyncPacket>)
    ensures r.Some? <==> |data| == SYNC_PACKET_SIZE
    ensures r.Some? ==> SyncFits(r.value) && r.value.ptype == data[0]
  {
    if |data| != SYNC_PACKET_SIZE then None
    else Some(SyncPacket(data[0], DecodeI64(data[1..9]), DecodeI64(data[9..17]), DecodeI64(data[17..25])))
  }

  /** Decoding an encoded packet gives the packet back. */
  lemma DecodeEncodeSync(p: SyncPacket)
    requires SyncFits(p)
    ensures DecodeSync(EncodeSync(p).value) == Some(p)
  {
    var e := EncodeSync(p).value;
    assert e[1..9] == EncodeI64(p.t1);
    assert e[9..17] == EncodeI64(p.t2);
    assert e[17..25] == EncodeI64(p.t3);
    DecodeEncodeI64(p.t1);
    DecodeEncodeI64(p.t2);
    DecodeEncodeI64(p.t3);
  }

  /** Every 25-byte string is the encoding of what it decodes to. */
  lemma EncodeDecodeSync(data: seq<byte>)
    requires |data| == SYNC_PACKET_SIZE
    ensures EncodeSync(DecodeSync(data).value) == Some(data)
  {
    EncodeDecodeI64(data[1..9]);
    EncodeDecodeI64(data[9..17]);
    EncodeDecodeI64(data[17..25]);
    assert data == [data[0]] + data[1..9] + data[9..17] + data[17..25];
  }

  /** The clock offset estimate `((t2 - t1) + (t3 - t4)) / 2`. */
  function Offset(t1: int, t2: int, t3: int, t4: int): real
  {
    ((t2 - t1) + (t3 - t4)) as real / 2.0
  }

  /** The round trip without the server's processing time, `(t4 - t1) - (t3 - t2)`. */
  function Rtt(t1: int, t2: int, t3: int, t4: int): int
  {
    (t4 - t1) - (t3 - t2)
  }

  /** With t1 = 100, t2 = 150, t3 = 152 and t4 = 204 the offset is -1 and
      the round trip 102. */
  lemma OffsetRttExample()
    ensures Offset(100, 150, 152, 204) == -1.0 && Rtt(100, 150, 152, 204) == 102
  {
  }

  /** What the formulas measure: if the server clock runs `theta` ahead of
      the client's, and the request and the reply spend `up` and `down`
      milliseconds in flight, the round trip is `up + down` and the offset
      is `theta` off by half the asymmetry; so with non-negative delays the
      offset is within half the round trip of `theta`, and symmetric delays
      give `theta` exactly. */
  lemma OffsetMeasuresSkew(t1: int, t3: int, theta: int, up: int, down: int)
    ensures var t2 := t1 + theta + up;
      var t4 := t3 - theta + down;
      Rtt(t1, t2, t3, t4) == up + down &&
      Offset(t1, t2, t3, t4) == theta as real + (up - down) as real / 2.0 &&
      (up >= 0 && down >= 0 ==>
        theta as real - Rtt(t1, t2, t3, t4) as real / 2.0 <= Offset(t1, t2, t3, t4) <= theta as real + Rtt(t1, t2, t3, t4) as real / 2.0) &&
      (up == down ==> Offset(t1, t2, t3, t4) == theta as real)
  {
  }

  /** The request a round sends at client time t1: `(SYNC_REQ, t1, 0, 0)`. */
  function Request(t1: int): (r: Option<seq<byte>>)
    ensures r.Some? <==> IsInt64(t1)
    ensures r.Some? ==> DecodeSync(r.value) == Some(SyncPacket(SYNC_REQ, t1, 0, 0))
  {
    var r := EncodeSync(SyncPacket(SYNC_REQ, t1, 0, 0));
    if r.Some? then DecodeEncodeSync(SyncPacket(SYNC_REQ, t1, 0, 0)); r else r
  }

  /** What one round observes: the clock before sending, the reply (None
      when the receive timed out), and the clock after receiving. The reply
      is the bytes `recvfrom(25)` returned, so it is never longer than 25
      bytes: a longer datagram has already been cut to its first 25. */
  datatype Observation = Observation(t1: int, reply: Option<seq<byte>>, t4: int)

  /** `_sync_round`: fails when the request cannot be packed, on a timeout,
      on a reply that is not 25 bytes, on a reply that is not SYNC_RESP and
      on a reply that does not echo t1; otherwise gives the offset and the
      round trip. */
  function Round(o: Observation): (r: Option<(real, real)>)
    ensures r.Some? <==>
      IsInt64(o.t1) && o.reply.Some? && DecodeSync(o.reply.value).Some? &&
      DecodeSync(o.reply.value).value.ptype == SYNC_RESP && DecodeSync(o.reply.value).value.t1 == o.t1
    ensures r.Some? ==> var p := DecodeSync(o.reply.value).value;
      r.value == (Offset(o.t1, p.t2, p.t3, o.t4), Rtt(o.t1, p.t2, p.t3, o.t4) as real)
  {
    if Request(o.t1).None? || o.reply.None? then None
    else
      var p := DecodeSync(o.reply.value);
      if p.None? then None
      else if p.value.ptype != SYNC_RESP || p.value.t1 != o.t1 then None
      else Some((Offset(o.t1, p.value.t2, p.value.t3, o.t4), Rtt(o.t1, p.value.t2, p.value.t3, o.t4) as real))
  }

  /** The server's reply to one datagram received at t2 and answered at
      t3: only a SYNC_REQ is answered, with `(SYNC_RESP, t1, t2, t3)`. */
  function ServerReply(data: seq<byte>, t2: int, t3: int): (r: Option<seq<byte>>)
    ensures r.Some? <==> DecodeSync(data).Some? && DecodeSync(data).value.ptype == SYNC_REQ && IsInt64(t2) && IsInt64(t3)
    ensures r.Some? ==> DecodeSync(r.value) == Some(SyncPacket(SYNC_RESP, DecodeSync(data).value.t1, t2, t3))
  {
    var p := DecodeSync(data);
    if p.None? || p.value.ptype != SYNC_REQ then None
    else
      var reply := SyncPacket(SYNC_RESP, p.value.t1, t2, t3);
      var r := EncodeSync(reply);
      if r.Some? then DecodeEncodeSync(reply); r else r
  }

  /** A request answered by the server is accepted by the client, and the
      round yields the offset and round trip of those four timestamps. */
  lemma ExchangeIsAccepted(t1: int, t2: int, t3: int, t4: int)
    requires IsInt64(t1) && IsInt64(t2) && IsInt64(t3)
    ensures var reply := ServerReply(Request(t1).value, t2, t3);
      reply.Some? &&
      Round(Observation(t1, reply, t4)) == Some((Offset(t1, t2, t3, t4), Rtt(t1, t2, t3, t4) as real))
  {
  }

  class ClockSyncServer {
    var requestsHandled: nat

    constructor()
      ensures requestsHandled == 0
    {
      requestsHandled := 0;
    }

    /** One pass of the serve loop: the reply, and a count of the requests
        answered. */
    method Handle(data: seq<byte>, t2: int, t3: int) returns (reply: Option<seq<byte>>)
      modifies this
      ensures reply == ServerReply(data, t2, t3)
      ensures requestsHandled == old(requestsHandled) + (if reply.Some? then 1 else 0)
    {
      reply := ServerReply(data, t2, t3);
      if reply.Some? {
        requestsHandled := requestsHandled + 1;
      }
    }
  }

  datatype ClockSyncResult = ClockSyncResult(offsetMs: real, rttMs: real, accuracyMs: real, samples: nat)

  /** `adjust_timestamp`: remote time to local time, truncated. */
  function AdjustTimestamp(r: ClockSyncResult, remoteTs: int): int
  {
    Trunc(remoteTs as real + r.offsetMs)
  }

  /** `adjust_latency`: the offset taken out of a latency, truncated. */
  function AdjustLatency(r: ClockSyncResult, latencyMs: int): int
  {
    Trunc(latencyMs as real - r.offsetMs)
  }

  /** Each adjustment is within one millisecond of the exact shift; with
      a whole-millisecond offset the shift is exact and the two undo each
      other. */
  lemma AdjustBounds(r: ClockSyncResult, t: int)
    ensures -1.0 < AdjustTimestamp(r, t) as real - (t as real + r.offsetMs) < 1.0
    ensures -1.0 < AdjustLatency(r, t) as real - (t as real - r.offsetMs) < 1.0
    ensures r.offsetMs == r.offsetMs.Floor as real ==>
      AdjustTimestamp(r, t) == t + r.offsetMs.Floor &&
      AdjustLatency(r, t) == t - r.offsetMs.Floor &&
      AdjustLatency(r, AdjustTimestamp(r, t)) == t
  {
    if r.offsetMs == r.offsetMs.Floor as real {
      TruncOfInt(t + r.offsetMs.Floor);
      TruncOfInt(t - r.offsetMs.Floor);
    }
  }

  /** The offsets and round trips of the rounds that succeeded, in order. */
  function Accepted(obs: seq<Observation>): (r: seq<(real, real)>)
    ensures |r| <= |obs|
  {
    if obs == [] then []
    else
      var rest := Accepted(obs[..|obs| - 1]);
      var last := Round(obs[|obs| - 1]);
      if last.Some? then rest + [last.value] else rest
  }

  function Firsts(s: seq<(real, real)>): (r: seq<real>)
    ensures |r| == |s| && forall i :: 0 <= i < |s| ==> r[i] == s[i].0
  {
    seq(|s|, i requires 0 <= i < |s| => s[i].0)
  }

  function Seconds(s: seq<(real, real)>): (r: seq<real>)
    ensures |r| == |s| && forall i :: 0 <= i < |s| ==> r[i] == s[i].1
  {
    seq(|s|, i requires 0 <= i < |s| => s[i].1)
  }

  class ClockSyncClient {
    var result: Option<ClockSyncResult>

    constructor()
      ensures result.None?
    {
      result := None;
    }

    /** `offset_ms`: the last result's offset, 0 before any. */
    function OffsetMs(): (o: real)
      reads this
    {
      if result.Some? then result.value.offsetMs else 0.0
    }

    /** `sync`: one round per observation (there are `num_samples` of
        them); None when no round succeeds; otherwise the medians of the
        successful rounds' offsets and round trips, half the round trip as
        the accuracy, and the number of successful rounds. The result is
        kept only on success. */
    method Sync(numSamples: int, obs: seq<Observation>) returns (r: Option<ClockSyncResult>)
      requires |obs| == MaxInt(numSamples, 0)
      modifies this
      ensures var acc := Accepted(obs);
        (r.None? <==> acc == []) &&
        (r.Some? ==>
          r.value.offsetMs == Median(Firsts(acc)) && r.value.rttMs == Median(Seconds(acc)) &&
          r.value.accuracyMs == r.value.rttMs / 2.0 &&
          r.value.samples == |acc| && 0 < r.value.samples <= numSamples)
      ensures result == (if r.Some? then r else old(result))
    {
      var offsets: seq<real> := [];
      var rtts: seq<real> := [];
      for i := 0 to |obs|
        invariant offsets == Firsts(Accepted(obs[..i])) && rtts == Seconds(Accepted(obs[..i]))
      {
        assert obs[..i + 1][..i] == obs[..i];
        var round := Round(obs[i]);
        if round.Some? {
          offsets := offsets + [round.value.0];
          rtts := rtts + [round.value.1];
        }
      }
      assert obs[..|obs|] == obs;
      if offsets == [] {
        return None;
      }
      var medianRtt := Median(rtts);
      r := Some(ClockSyncResult(Median(offsets), medianRtt, medianRtt / 2.0, |offsets|));
      result := r;
    }
  }

  /** The module-level offset used by `adjust_remote_timestamp`. */
  class GlobalClock {
    var offsetMs: real

    constructor()
      ensures offsetMs == 0.0
    {
      offsetMs := 0.0;
    }

    method SetOffset(offset: real)
      modifies this
      ensures offsetMs == offset
    {
      offsetMs := offset;
    }

    /** `adjust_remote_timestamp` */
    function AdjustRemoteTimestamp(remoteTs: int): int
      reads this
    {
      Trunc(remoteTs as real + offsetMs)
    }

    /** `sync_with_server`: a fresh client syncs; the global offset is
        replaced only when the sync produced a result. */
    method SyncWithServer(samples: int, obs: seq<Observation>) returns (r: Option<ClockSyncResult>)
      requires |obs| == MaxInt(samples, 0)
      modifies this
      ensures (r.None? <==> Accepted(obs) == [])
      ensures r.Some? ==> offsetMs == r.value.offsetMs && r.value.offsetMs == Median(Firsts(Accepted(obs)))
      ensures r.None? ==> offsetMs == old(offsetMs)
    {
      var client := new ClockSyncClient();
      r := client.Sync(samples, obs);
      if r.Some? {
        SetOffset(r.value.offsetMs);
      }
    }
  }
}
