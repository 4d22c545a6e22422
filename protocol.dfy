/** The DTP wire format (backend/src/protocol.py): priorities and packet
    types, the 24-byte header codec, packets with payloads, and the
    deadline arithmetic. Every read of the monotonic clock is a `now`
    argument. */
module Protocol {
  import opened Wrappers
  import opened Bytes
  import opened Numeric

  const DTP_VERSION: int := 1
  const DTP_HEADER_SIZE: nat := 24
  const DTP_DEFAULT_PORT: int := 4433
  const DTP_MAGIC: nat := 0xDEAD

  /** Rank 0 is the most urgent. */
  datatype Priority = Critical | High | Medium | Low
  {
    function Value(): (v: nat)
      ensures v <= 3
    {
      match this
      case Critical => 0
      case High => 1
      case Medium => 2
      case Low => 3
    }

    function Name(): string
    {
      match this
      case Critical => "CRITICAL"
      case High => "HIGH"
      case Medium => "MEDIUM"
      case Low => "LOW"
    }
  }

  /** Iteration order of `for p in Priority`: by value. */
  const ALL_PRIORITIES: seq<Priority> := [Critical, High, Medium, Low]

  lemma AllPrioritiesByValue(p: Priority)
    ensures |ALL_PRIORITIES| == 4 && ALL_PRIORITIES[p.Value()] == p
    ensures p in ALL_PRIORITIES
  {
  }

  lemma EveryPriorityListed()
    ensures forall p :: p in ALL_PRIORITIES
  {
    forall p: Priority
      ensures p in ALL_PRIORITIES
    {
      AllPrioritiesByValue(p);
    }
  }

  /** A map with the four priorities as keys is keyed by every priority. */
  lemma KeyedByEveryPriority<V>(m: map<Priority, V>)
    requires Critical in m && High in m && Medium in m && Low in m
    ensures forall p :: p in m
  {
    forall p
      ensures p in m
    {
      match p
      case Critical =>
      case High =>
      case Medium =>
      case Low =>
    }
  }

  /** `Priority(v)`: the enumeration member with value v, if any. */
  function PriorityOf(v: int): (r: Option<Priority>)
    ensures r.Some? <==> 0 <= v <= 3
    ensures r.Some? ==> r.value.Value() == v
  {
    if v == 0 then Some(Critical)
    else if v == 1 then Some(High)
    else if v == 2 then Some(Medium)
    else if v == 3 then Some(Low)
    else None
  }

  /** The default deadline table, in milliseconds. */
  function DefaultDeadlineMs(p: Priority): (r: int)
    ensures r > 0
  {
    match p
    case Critical => 500
    case High => 1500
    case Medium => 3000
    case Low => 6000
  }

  /** Less urgent ranks get strictly longer default deadlines. */
  lemma DefaultDeadlineIncreasing(p: Priority, q: Priority)
    requires p.Value() < q.Value()
    ensures DefaultDeadlineMs(p) < DefaultDeadlineMs(q)
  {
  }

  datatype PacketType = Data | Ack | Nack | Congestion | Keepalive
  {
    function Value(): (v: nat)
      ensures v <= 4
    {
      match this
      case Data => 0
      case Ack => 1
      case Nack => 2
      case Congestion => 3
      case Keepalive => 4
    }
  }

  /** `PacketType(v)`: the enumeration member with value v, if any. */
  function PacketTypeOf(v: int): (r: Option<PacketType>)
    ensures r.Some? <==> 0 <= v <= 4
    ensures r.Some? ==> r.value.Value() == v
  {
    if v == 0 then Some(Data)
    else if v == 1 then Some(Ack)
    else if v == 2 then Some(Nack)
    else if v == 3 then Some(Congestion)
    else if v == 4 then Some(Keepalive)
    else None
  }

  /** The flags of the header's flags byte, each a single bit: RELIABLE 0x01,
      DROPPABLE 0x02, BATCHED 0x04, COMPRESSED 0x08, ENCRYPTED 0x10. */
  datatype Flag = Reliable | Droppable | Batched | Compressed | Encrypted
  {
    function Bit(): (k: nat)
      ensures k < 5
    {
      match this
      case Reliable => 0
      case Droppable => 1
      case Batched => 2
      case Compressed => 3
      case Encrypted => 4
    }

    /** The flag's value in the flags byte. */
    function Mask(): (m: byte)
      ensures m == Pow2(Bit())
    {
      match this
      case Reliable => 0x01
      case Droppable => 0x02
      case Batched => 0x04
      case Compressed => 0x08
      case Encrypted => 0x10
    }
  }

  /** `Flags.NONE`: no bit set. */
  const FLAG_NONE: byte := 0x00

  /** `flags & flag != 0`. */
  predicate HasFlag(flags: byte, f: Flag)
  {
    TestBit(flags, f.Bit())
  }

  /** `flags | flag`: the flag is set afterwards, every other flag is as it
      was, and the byte changes only when the flag was clear, by the flag's
      value. */
  function WithFlag(flags: byte, f: Flag): (r: byte)
    ensures HasFlag(r, f)
    ensures forall g :: g != f ==> (HasFlag(r, g) <==> HasFlag(flags, g))
    ensures r == (if HasFlag(flags, f) then flags else flags + f.Mask())
  {
    SetBitSets(flags, f.Bit());
    SetBitKeepsAll(flags, f.Bit());
    SetBitValue(flags, f.Bit());
    SetBitBound(flags, f.Bit(), 8);
    assert Pow2(8) == 256;
    SetBit(flags, f.Bit())
  }

  /** No flag is set in `Flags.NONE`. */
  lemma NoFlagInNone(f: Flag)
    ensures !HasFlag(FLAG_NONE, f)
  {
  }

  datatype Header = Header(
    version: int,
    packetType: PacketType,
    priority: Priority,
    flags: byte,
    sequence: int,
    timestamp: int,
    deadline: int,
    payloadLength: int,
    batchId: int)

  /** The dataclass defaults. */
  const DEFAULT_HEADER: Header :=
    Header(DTP_VERSION, Data, Medium, FLAG_NONE, 0, 0, 3000, 0, 0)

  /** Every integer field is in the range of its struct format
      ('>HBBBBHIQHH'); otherwise `struct.pack` raises. */
  predicate Fits(h: Header)
  {
    0 <= h.version < 256 &&
    0 <= h.sequence < UINT16_LIMIT &&
    0 <= h.timestamp < UINT32_LIMIT &&
    0 <= h.deadline < UINT64_LIMIT &&
    0 <= h.payloadLength < UINT16_LIMIT &&
    0 <= h.batchId < UINT16_LIMIT
  }

  /** The ten big-endian fields ('>HBBBBHIQHH'): magic, version, type,
      priority and flags (bytes 0-5), sequence, timestamp and deadline
      (bytes 6-19), payload length and batch id (bytes 20-23). */
  function Layout(h: Header): (r: seq<byte>)
    requires Fits(h)
    ensures |r| == DTP_HEADER_SIZE
  {
    LayoutFront(h) + LayoutMiddle(h) + LayoutBack(h)
  }

  function LayoutFront(h: Header): (r: seq<byte>)
    requires Fits(h)
    ensures |r| == 6
  {
    EncodeBE(DTP_MAGIC, 2) + [h.version, h.packetType.Value(), h.priority.Value(), h.flags]
  }

  function LayoutMiddle(h: Header): (r: seq<byte>)
    requires Fits(h)
    ensures |r| == 14
  {
    EncodeBE(h.sequence, 2) + EncodeBE(h.timestamp, 4) + EncodeBE(h.deadline, 8)
  }

  function LayoutBack(h: Header): (r: seq<byte>)
    requires Fits(h)
    ensures |r| == 4
  {
    EncodeBE(h.payloadLength, 2) + EncodeBE(h.batchId, 2)
  }

  /** `DTPHeader.pack`: None where struct.pack would raise. */
  function Pack(h: Header): (r: Option<seq<byte>>)
    ensures r.Some? <==> Fits(h)
    ensures r.Some? ==> |r.value| == DTP_HEADER_SIZE && r.value[0] == 0xDE && r.value[1] == 0xAD
  {
    if Fits(h) then Some(Layout(h)) else None
  }

  lemma MagicBytes()
    ensures EncodeBE(DTP_MAGIC, 2) == [0xDE, 0xAD]
  {
  }

  /** The magic check is a check of the first two bytes. */
  lemma MagicIsFirstTwoBytes(data: seq<byte>)
    requires |data| >= 2
    ensures DecodeBE(data[0..2]) == DTP_MAGIC <==> data[0] == 0xDE && data[1] == 0xAD
  {
    var s := data[0..2];
    assert s[..1][..0] == [];
    assert DecodeBE(s) == (s[0] as int) * 256 + (s[1] as int);
  }

  datatype DecodeError = TooShort | BadMagic | BadPacketType | BadPriority

  /** `DTPHeader.unpack`: the checks in the order `unpack` makes them
      (length, magic, then the `PacketType` and `Priority` conversions);
      bytes after the first 24 are not looked at. */
  function Unpack(data: seq<byte>): (r: Result<Header, DecodeError>)
    ensures r.Failure? ==> (r.error == TooShort <==> |data| < DTP_HEADER_SIZE)
    ensures |data| >= DTP_HEADER_SIZE ==>
      (r.Success? <==> data[0] == 0xDE && data[1] == 0xAD && data[3] <= 4 && data[4] <= 3)
    ensures r.Success? ==> Fits(r.value)
  {
    if |data| < DTP_HEADER_SIZE then Failure(TooShort)
    else
      MagicIsFirstTwoBytes(data);
      var magic := DecodeBE(data[0..2]);
      if magic != DTP_MAGIC then Failure(BadMagic)
      else
        var ptype := PacketTypeOf(data[3]);
        if ptype.None? then Failure(BadPacketType)
        else
          var priority := PriorityOf(data[4]);
          if priority.None? then Failure(BadPriority)
          else Success(ReadHeader(data, ptype.value, priority.value))
  }

  /** The header fields `unpack` reads from their offsets, given the two
      already converted enumerations. */
  function ReadHeader(data: seq<byte>, t: PacketType, p: Priority): (h: Header)
    requires |data| >= DTP_HEADER_SIZE
    ensures Fits(h) && h.packetType == t && h.priority == p
  {
    Pow256Limits();
    Header(
      data[2], t, p, data[5], DecodeBE(data[6..8]),
      DecodeBE(data[8..12]), DecodeBE(data[12..20]), DecodeBE(data[20..22]),
      DecodeBE(data[22..24]))
  }

  /** The slices `Unpack` reads out of a packed header are the encodings
      `Layout` wrote there. */
  lemma LayoutSlices(h: Header, rest: seq<byte>)
    requires Fits(h)
    ensures var d := Layout(h) + rest;
      d[0..2] == EncodeBE(DTP_MAGIC, 2) && d[2] == h.version &&
      d[3] == h.packetType.Value() && d[4] == h.priority.Value() &&
      d[5] == h.flags && d[6..8] == EncodeBE(h.sequence, 2) &&
      d[8..12] == EncodeBE(h.timestamp, 4) && d[12..20] == EncodeBE(h.deadline, 8) &&
      d[20..22] == EncodeBE(h.payloadLength, 2) && d[22..24] == EncodeBE(h.batchId, 2)
  {
    var d := Layout(h) + rest;
    var f, m, b := LayoutFront(h), LayoutMiddle(h), LayoutBack(h);
    assert d[..6] == f && d[6..20] == m && d[20..24] == b;
    assert d[0..2] == f[0..2];
    assert d[6..8] == m[0..2] && d[8..12] == m[2..6] && d[12..20] == m[6..14];
    assert d[20..22] == b[0..2] && d[22..24] == b[2..4];
  }

  /** Reading back a packed header gives every field back. */
  lemma ReadLayout(h: Header, rest: seq<byte>)
    requires Fits(h)
    ensures ReadHeader(Layout(h) + rest, h.packetType, h.priority) == h
  {
    Pow256Limits();
    LayoutSlices(h, rest);
    DecodeEncode(h.sequence, 2);
    DecodeEncode(h.timestamp, 4);
    DecodeEncode(h.deadline, 8);
    DecodeEncode(h.payloadLength, 2);
    DecodeEncode(h.batchId, 2);
  }

  /** Round trip: unpacking a packed header gives the header back, whatever
      bytes follow it. */
  lemma UnpackPack(h: Header, rest: seq<byte>)
    requires Fits(h)
    ensures Pack(h).Some? && Unpack(Pack(h).value + rest) == Success(h)
  {
    var d := Layout(h) + rest;
    LayoutSlices(h, rest);
    ReadLayout(h, rest);
    assert PacketTypeOf(d[3]) == Some(h.packetType);
    assert PriorityOf(d[4]) == Some(h.priority);
  }

  /** The 24 header bytes are the concatenation of the slices `Unpack`
      reads. */
  lemma SplitHeaderBytes(data: seq<byte>)
    requires |data| >= DTP_HEADER_SIZE
    ensures data[..6] == data[0..2] + [data[2], data[3], data[4], data[5]]
    ensures data[6..20] == data[6..8] + data[8..12] + data[12..20]
    ensures data[20..24] == data[20..22] + data[22..24]
    ensures data[..DTP_HEADER_SIZE] == data[..6] + data[6..20] + data[20..24]
  {
  }

  lemma ReadFront(data: seq<byte>, h: Header)
    requires |data| >= DTP_HEADER_SIZE && Fits(h)
    requires data[0] == 0xDE && data[1] == 0xAD
    requires h.version == data[2] && h.packetType.Value() == data[3]
    requires h.priority.Value() == data[4] && h.flags == data[5]
    ensures LayoutFront(h) == data[..6]
  {
    MagicBytes();
    assert data[..6] == [data[0], data[1], data[2], data[3], data[4], data[5]];
  }

  lemma ReadMiddle(data: seq<byte>, t: PacketType, p: Priority)
    requires |data| >= DTP_HEADER_SIZE
    ensures LayoutMiddle(ReadHeader(data, t, p)) == data[6..20]
  {
    SplitHeaderBytes(data);
    EncodeDecode(data[6..8]);
    EncodeDecode(data[8..12]);
    EncodeDecode(data[12..20]);
  }

  lemma ReadBack(data: seq<byte>, t: PacketType, p: Priority)
    requires |data| >= DTP_HEADER_SIZE
    ensures LayoutBack(ReadHeader(data, t, p)) == data[20..24]
  {
    SplitHeaderBytes(data);
    EncodeDecode(data[20..22]);
    EncodeDecode(data[22..24]);
  }

  /** A successful `Unpack` is `ReadHeader` of the converted type and
      priority bytes. */
  lemma UnpackIsRead(data: seq<byte>)
    requires Unpack(data).Success?
    ensures data[0] == 0xDE && data[1] == 0xAD && data[3] <= 4 && data[4] <= 3
    ensures Unpack(data) == Success(ReadHeader(data, PacketTypeOf(data[3]).value, PriorityOf(data[4]).value))
  {
  }

  /** The other direction: a header that unpacks packs back to exactly the
      first 24 bytes it came from. */
  lemma PackUnpack(data: seq<byte>)
    requires Unpack(data).Success?
    ensures Pack(Unpack(data).value) == Some(data[..DTP_HEADER_SIZE])
  {
    UnpackIsRead(data);
    var h := ReadHeader(data, PacketTypeOf(data[3]).value, PriorityOf(data[4]).value);
    LayoutOfRead(data, h);
  }

  lemma LayoutOfRead(data: seq<byte>, h: Header)
    requires |data| >= DTP_HEADER_SIZE
    requires data[0] == 0xDE && data[1] == 0xAD && data[3] <= 4 && data[4] <= 3
    requires h == ReadHeader(data, PacketTypeOf(data[3]).value, PriorityOf(data[4]).value)
    ensures Fits(h) && Layout(h) == data[..DTP_HEADER_SIZE]
  {
    var t, p := h.packetType, h.priority;
    assert h.flags == data[5];
    assert h.version == data[2] && t.Value() == data[3] && p.Value() == data[4];
    ReadFront(data, h);
    ReadMiddle(data, t, p);
    ReadBack(data, t, p);
    SplitHeaderBytes(data);
    var f, m, b := LayoutFront(h), LayoutMiddle(h), LayoutBack(h);
    assert Layout(h) == f + m + b;
  }

  /** `unpack` reads only the first 24 bytes. */
  lemma UnpackIgnoresTrailing(data: seq<byte>)
    requires |data| >= DTP_HEADER_SIZE
    ensures Unpack(data) == Unpack(data[..DTP_HEADER_SIZE])
  {
    var d := data[..DTP_HEADER_SIZE];
    assert d[0..2] == data[0..2] && d[6..8] == data[6..8] && d[8..12] == data[8..12];
    assert d[12..20] == data[12..20] && d[20..22] == data[20..22] && d[22..24] == data[22..24];
  }

  /** `is_expired`: a header without a timestamp never expires; otherwise it
      has expired once more than `deadline` ms have elapsed. */
  predicate IsExpired(h: Header, now: int)
  {
    h.timestamp != 0 && now - h.timestamp > h.deadline
  }

  /** `time_to_deadline`: the remaining slack, never below zero. */
  function TimeToDeadline(h: Header, now: int): (r: int)
    ensures h.timestamp == 0 ==> r == h.deadline
    ensures h.timestamp != 0 ==> r >= 0
    ensures h.timestamp != 0 && now - h.timestamp <= h.deadline ==> r == h.timestamp + h.deadline - now
    ensures IsExpired(h, now) ==> r == 0
  {
    if h.timestamp == 0 then h.deadline else MaxInt(0, h.deadline - (now - h.timestamp))
  }

  /** Slack only shrinks as time passes. */
  lemma TimeToDeadlineNonIncreasing(h: Header, now: int, later: int)
    requires now <= later
    ensures TimeToDeadline(h, later) <= TimeToDeadline(h, now)
  {
  }

  /** Once expired, a header stays expired. */
  lemma ExpiryIsPermanent(h: Header, now: int, later: int)
    requires now <= later && IsExpired(h, now)
    ensures IsExpired(h, later)
  {
  }

  /** A packet is a header, a payload and the time it was marked received. */
  datatype Packet = Packet(header: Header, payload: seq<byte>, receivedAt: Option<int>)

  /** `DTPPacket.create_data`: a DATA header stamped with `now`, the given or
      default deadline, and the payload's true length. */
  function CreateData(payload: seq<byte>, priority: Priority, sequence: int, deadlineMs: Option<int>, now: int): (p: Packet)
    ensures p.header.packetType == Data && p.header.priority == priority
    ensures p.header.sequence == sequence && p.header.timestamp == now
    ensures p.header.deadline == (if deadlineMs.Some? then deadlineMs.value else DefaultDeadlineMs(priority))
    ensures p.header.payloadLength == |payload| && p.payload == payload
    ensures p.header.flags == FLAG_NONE && p.header.batchId == 0 && p.header.version == DTP_VERSION
    ensures p.receivedAt.None?
  {
    var deadline := if deadlineMs.Some? then deadlineMs.value else DefaultDeadlineMs(priority);
    Packet(Header(DTP_VERSION, Data, priority, FLAG_NONE, sequence, now, deadline, |payload|, 0), payload, None)
  }

  /** `serialize`: the packed header followed by the payload. */
  function Serialize(p: Packet): (r: Option<seq<byte>>)
    ensures r.Some? <==> Fits(p.header)
    ensures r.Some? ==> |r.value| == DTP_HEADER_SIZE + |p.payload|
  {
    match Pack(p.header)
    case None => None
    case Some(h) => Some(h + p.payload)
  }

  /** `deserialize`: the header, then up to `payload_length` bytes after it
      (Python's slice stops at the end of the data). */
  function Deserialize(data: seq<byte>): (r: Result<Packet, DecodeError>)
    ensures r.Success? <==> Unpack(data).Success?
    ensures r.Failure? ==> r.error == Unpack(data).error
    ensures r.Success? ==>
      && r.value.header == Unpack(data).value
      && |r.value.payload| == MinInt(r.value.header.payloadLength, |data| - DTP_HEADER_SIZE)
      && r.value.receivedAt.None?
  {
    match Unpack(data)
    case Failure(e) => Failure(e)
    case Success(h) =>
      var stop := MinInt(DTP_HEADER_SIZE + h.payloadLength, |data|);
      Success(Packet(h, data[DTP_HEADER_SIZE..stop], None))
  }

  /** Round trip for packets: the payload comes back cut to the declared
      length, which is the whole payload when the two agree. */
  lemma DeserializeSerialize(p: Packet)
    requires Fits(p.header)
    ensures Serialize(p).Some?
    ensures var r := Deserialize(Serialize(p).value);
      r.Success? && r.value.header == p.header && r.value.receivedAt.None? &&
      r.value.payload == p.payload[..MinInt(p.header.payloadLength, |p.payload|)]
  {
    UnpackPack(p.header, p.payload);
    var d := Serialize(p).value;
    assert d[DTP_HEADER_SIZE..] == p.payload;
  }

  /** A freshly created data packet whose header fits survives the wire
      unchanged. */
  lemma CreateDataRoundTrip(payload: seq<byte>, priority: Priority, sequence: int, deadlineMs: Option<int>, now: int)
    requires Fits(CreateData(payload, priority, sequence, deadlineMs, now).header)
    ensures var p := CreateData(payload, priority, sequence, deadlineMs, now);
      Serialize(p).Some? && Deserialize(Serialize(p).value) == Success(p)
  {
    var p := CreateData(payload, priority, sequence, deadlineMs, now);
    DeserializeSerialize(p);
    assert p.payload[..MinInt(p.header.payloadLength, |p.payload|)] == p.payload;
  }

  /** `mark_received`. */
  function MarkReceived(p: Packet, now: int): (r: Packet)
    ensures r.header == p.header && r.payload == p.payload && r.receivedAt == Some(now)
  {
    p.(receivedAt := Some(now))
  }

  /** `latency_ms`: defined once received and timestamped. */
  function LatencyMs(p: Packet): (r: Option<int>)
    ensures r.None? <==> p.receivedAt.None? || p.header.timestamp == 0
    ensures r.Some? ==> r.value == p.receivedAt.value - p.header.timestamp
  {
    if p.receivedAt.None? || p.header.timestamp == 0 then None
    else Some(p.receivedAt.value - p.header.timestamp)
  }

  /** `is_on_time`: an unmeasurable latency counts as on time. */
  predicate IsOnTime(p: Packet)
  {
    var lat := LatencyMs(p);
    lat.None? || lat.value <= p.header.deadline
  }

  /** A packet received at the instant of its absolute deadline is on time;
      one received later, and not on time, had expired by then. */
  lemma OnTimeIffNotExpiredAtReceipt(p: Packet)
    requires p.receivedAt.Some? && p.header.timestamp != 0
    ensures IsOnTime(p) <==> !IsExpired(p.header, p.receivedAt.value)
  {
  }
}
