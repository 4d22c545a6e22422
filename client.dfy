/** The traffic-generating client (backend/src/client.py): its traffic
    profile, the generation schedule and the pass of the simulation loop
    that releases due packets into the scheduler, the 16-bit sequence
    counter, progress, and the handling of the server's responses. */
module Client {
  import opened Wrappers
  import opened Numeric
  import opened Bytes
  import opened Sorting
  import opened Protocol
  import opened Scheduler
  import HeapQueue
  import opened Metrics

  const SEQUENCE_MODULUS: nat := 65536
  const SIMULATION_DURATION_MS: real := 2000.0

  /** The traffic mix to generate. */
  datatype TrafficProfile = TrafficProfile(
    criticalCount: int,
    highCount: int,
    mediumCount: int,
    lowCount: int,
    burstSize: int,
    burstIntervalMs: int)

  function DefaultProfile(): TrafficProfile
  {
    TrafficProfile(50, 200, 500, 1000, 20, 100)
  }

  /** The profile's count for one priority. */
  function CountOf(tp: TrafficProfile, p: Priority): int
  {
    match p
    case Critical => tp.criticalCount
    case High => tp.highCount
    case Medium => tp.mediumCount
    case Low => tp.lowCount
  }

  /** `total_packets` */
  function TotalPackets(tp: TrafficProfile): (n: int)
    ensures n == CountOf(tp, Critical) + CountOf(tp, High) + CountOf(tp, Medium) + CountOf(tp, Low)
  {
    tp.criticalCount + tp.highCount + tp.mediumCount + tp.lowCount
  }

  /** `get_counts`: every priority, mapped to its own count. */
  function GetCounts(tp: TrafficProfile): (m: map<Priority, int>)
    ensures forall p :: p in m && m[p] == CountOf(tp, p)
  {
    EveryPriorityListed();
    map p | p in ALL_PRIORITIES :: CountOf(tp, p)
  }

  /** How many values `range(n)` yields. */
  function RangeLength(n: int): nat
  {
    if n < 0 then 0 else n
  }

  function Repeat(p: Priority, n: nat): (r: seq<Priority>)
    ensures |r| == n && forall i :: 0 <= i < n ==> r[i] == p
  {
    if n == 0 then [] else Repeat(p, n - 1) + [p]
  }

  lemma {:induction false} RepeatCounts(p: Priority, n: nat, q: Priority)
    ensures multiset(Repeat(p, n))[q] == if p == q then n else 0
  {
    if n > 0 {
      RepeatCounts(p, n - 1, q);
    }
  }

  /** The priorities the nested `for priority, count in counts.items():
      for i in range(count)` visits, in order; a negative count visits
      nothing. */
  function Expand(ps: seq<Priority>, counts: map<Priority, int>): seq<Priority>
    requires forall p :: p in counts
  {
    if ps == [] then []
    else Expand(ps[..|ps| - 1], counts) + Repeat(ps[|ps| - 1], RangeLength(counts[ps[|ps| - 1]]))
  }

  /** The packets of a profile in generation order: its priorities in
      dictionary order, each repeated by its count. */
  function ProfileOrder(tp: TrafficProfile): seq<Priority>
  {
    Expand(ALL_PRIORITIES, GetCounts(tp))
  }

  lemma ProfileOrderParts(tp: TrafficProfile)
    ensures ProfileOrder(tp) ==
      Repeat(Critical, RangeLength(tp.criticalCount)) + Repeat(High, RangeLength(tp.highCount)) +
      Repeat(Medium, RangeLength(tp.mediumCount)) + Repeat(Low, RangeLength(tp.lowCount))
  {
    var c := GetCounts(tp);
    var ps := ALL_PRIORITIES;
    assert ps[..4] == ps;
    assert ps[..4][..3] == ps[..3] && ps[..3][..2] == ps[..2] && ps[..2][..1] == ps[..1] && ps[..1][..0] == [];
    assert Expand(ps[..1], c) == Repeat(Critical, RangeLength(tp.criticalCount));
    assert Expand(ps[..2], c) == Expand(ps[..1], c) + Repeat(High, RangeLength(tp.highCount));
    assert Expand(ps[..3], c) == Expand(ps[..2], c) + Repeat(Medium, RangeLength(tp.mediumCount));
    assert Expand(ps[..4], c) == Expand(ps[..3], c) + Repeat(Low, RangeLength(tp.lowCount));
  }

  /** Each priority occurs in the generation order as often as the profile
      says, and never for a negative count. */
  lemma ProfileOrderCounts(tp: TrafficProfile, p: Priority)
    ensures multiset(ProfileOrder(tp))[p] == RangeLength(CountOf(tp, p))
  {
    ProfileOrderParts(tp);
    RepeatCounts(Critical, RangeLength(tp.criticalCount), p);
    RepeatCounts(High, RangeLength(tp.highCount), p);
    RepeatCounts(Medium, RangeLength(tp.mediumCount), p);
    RepeatCounts(Low, RangeLength(tp.lowCount), p);
  }

  /** A profile of non-negative counts generates exactly `total_packets`
      packets. */
  lemma ProfileOrderLength(tp: TrafficProfile)
    requires tp.criticalCount >= 0 && tp.highCount >= 0 && tp.mediumCount >= 0 && tp.lowCount >= 0
    ensures |ProfileOrder(tp)| == TotalPackets(tp)
  {
    ProfileOrderParts(tp);
  }

  /** The key of `generation_schedule.sort(key=lambda x: x[0])`. */
  function TimeLe(a: (real, Priority), b: (real, Priority)): bool
  {
    a.0 <= b.0
  }

  lemma TimeLeIsTotalPreorder()
    ensures TotalPreorder(TimeLe)
  {
  }

  /** The generation schedule: a time offset for every packet of the
      generation order, sorted by time. The offsets are the draws of
      `random.uniform(0, 2000)`, given here. */
  function GenerationSchedule(tp: TrafficProfile, offsets: seq<real>): seq<(real, Priority)>
    requires |offsets| == |ProfileOrder(tp)|
  {
    var order := ProfileOrder(tp);
    Sort(seq(|order|, i requires 0 <= i < |order| => (offsets[i], order[i])), TimeLe)
  }

  /** The schedule is sorted by time and holds exactly the drawn pairs. */
  lemma GenerationScheduleSorted(tp: TrafficProfile, offsets: seq<real>)
    requires |offsets| == |ProfileOrder(tp)|
    ensures var order := ProfileOrder(tp);
      var s := GenerationSchedule(tp, offsets);
      SortedBy(s, TimeLe) && |s| == |order| &&
      multiset(s) == multiset(seq(|order|, i requires 0 <= i < |order| => (offsets[i], order[i])))
  {
    var order := ProfileOrder(tp);
    var pairs := seq(|order|, i requires 0 <= i < |order| => (offsets[i], order[i]));
    TimeLeIsTotalPreorder();
    SortSorted(pairs, TimeLe);
    SortPermutes(pairs, TimeLe);
  }

  /** The decimal digits of a natural number. */
  function Digits(n: nat): (r: string)
    ensures |r| >= 1
  {
    if n < 10 then [(48 + n) as char] else Digits(n / 10) + [(48 + n % 10) as char]
  }

  predicate IsDigits(s: string)
  {
    forall i :: 0 <= i < |s| ==> '0' <= s[i] <= '9'
  }

  lemma {:induction false} DigitsAreDigits(n: nat)
    ensures IsDigits(Digits(n))
  {
    if n >= 10 {
      DigitsAreDigits(n / 10);
    }
  }

  function DigitsValue(s: string): int
  {
    if s == [] then 0 else 10 * DigitsValue(s[..|s| - 1]) + (s[|s| - 1] as int - 48)
  }

  /** Reading the digits back gives the number. */
  lemma {:induction false} DigitsRoundTrip(n: nat)
    ensures DigitsValue(Digits(n)) == n
  {
    var d := Digits(n);
    assert d[..|d| - 1] == (if n < 10 then [] else Digits(n / 10));
    if n >= 10 {
      DigitsRoundTrip(n / 10);
    }
  }

  /** `str(n)` */
  function IntText(n: int): (r: string)
    ensures |r| >= 1
  {
    if n < 0 then "-" + Digits(-n) else Digits(n)
  }

  /** `str(n)` is a sign and digits, and its digits read back as `|n|`. */
  lemma IntTextMeaning(n: int)
    ensures var r := IntText(n);
      (n < 0 <==> r[0] == '-') &&
      IsDigits(if n < 0 then r[1..] else r) &&
      DigitsValue(if n < 0 then r[1..] else r) == (if n < 0 then -n else n)
  {
    var r := IntText(n);
    if n < 0 {
      assert r[1..] == Digits(-n);
      DigitsAreDigits(-n);
      DigitsRoundTrip(-n);
    } else {
      DigitsAreDigits(n);
      DigitsRoundTrip(n);
      assert '0' <= r[0] <= '9';
    }
  }

  predicate IsAscii(s: string)
  {
    forall i :: 0 <= i < |s| ==> s[i] as int < 128
  }

  /** One byte per character, the low eight bits of its code. */
  function AsciiBytes(s: string): (r: seq<byte>)
    ensures |r| == |s|
  {
    if s == [] then [] else AsciiBytes(s[..|s| - 1]) + [(s[|s| - 1] as int % 256) as byte]
  }

  /** On ASCII text that is `str.encode()`: each byte is its character's
      code. */
  lemma {:induction false} AsciiBytesEncode(s: string)
    requires IsAscii(s)
    ensures forall i :: 0 <= i < |s| ==> AsciiBytes(s)[i] == s[i] as int
  {
    if s != [] {
      AsciiBytesEncode(s[..|s| - 1]);
    }
  }

  /** `f"DTP-{priority.name}-{seq}"` */
  function PayloadText(p: Priority, sequence: int): string
  {
    "DTP-" + p.Name() + "-" + IntText(sequence)
  }

  /** The payload text is ASCII, so its bytes are its `encode()`. */
  lemma PayloadIsAscii(p: Priority, sequence: int)
    ensures IsAscii(PayloadText(p, sequence))
    ensures forall i :: 0 <= i < |PayloadText(p, sequence)| ==>
      AsciiBytes(PayloadText(p, sequence))[i] == PayloadText(p, sequence)[i] as int
  {
    var t := IntText(sequence);
    if sequence < 0 {
      assert t[1..] == Digits(-sequence);
      DigitsAreDigits(-sequence);
      assert IsAscii(t);
    } else {
      DigitsAreDigits(sequence);
    }
    AsciiBytesEncode(PayloadText(p, sequence));
  }

  /** The flags of a generated packet: `flags |= Flags.DROPPABLE` on the
      empty flags of `create_data` for a LOW packet, nothing otherwise. */
  function GeneratedFlags(p: Priority): (flags: byte)
    ensures HasFlag(flags, Droppable) <==> p == Low
    ensures forall f :: f != Droppable ==> !HasFlag(flags, f)
  {
    NoFlagInNone(Reliable);
    NoFlagInNone(Droppable);
    NoFlagInNone(Batched);
    NoFlagInNone(Compressed);
    NoFlagInNone(Encrypted);
    if p == Low then WithFlag(FLAG_NONE, Droppable) else FLAG_NONE
  }

  /** A generated packet: a DATA packet built by `create_data` with the
      priority's default deadline, marked DROPPABLE when it is LOW. */
  function GeneratedPacket(p: Priority, sequence: int, now: int): (pk: Packet)
    ensures pk.header.priority == p && pk.header.sequence == sequence
    ensures pk.header.flags == GeneratedFlags(p)
  {
    var packet := CreateData(AsciiBytes(PayloadText(p, sequence)), p, sequence, Some(DefaultDeadlineMs(p)), now);
    if p == Low then packet.(header := packet.header.(flags := WithFlag(packet.header.flags, Droppable)))
    else packet
  }

  /** The other fields of a generated packet. */
  lemma GeneratedPacketFields(p: Priority, sequence: int, now: int)
    ensures var pk := GeneratedPacket(p, sequence, now);
      pk.header.packetType == Data && pk.header.timestamp == now &&
      pk.header.deadline == DefaultDeadlineMs(p) && pk.header.batchId == 0 &&
      pk.payload == AsciiBytes(PayloadText(p, sequence)) && pk.header.payloadLength == |pk.payload| &&
      pk.receivedAt.None?
  {
  }

  /** `(s + 1) % 65536` from a value already reduced. */
  lemma ModSucc(a: int)
    ensures (a % SEQUENCE_MODULUS + 1) % SEQUENCE_MODULUS == (a + 1) % SEQUENCE_MODULUS
  {
    var q := a / SEQUENCE_MODULUS;
    assert a == SEQUENCE_MODULUS * q + a % SEQUENCE_MODULUS;
    if a % SEQUENCE_MODULUS + 1 == SEQUENCE_MODULUS {
      assert a + 1 == SEQUENCE_MODULUS * (q + 1);
    } else {
      assert a + 1 == SEQUENCE_MODULUS * q + (a % SEQUENCE_MODULUS + 1);
    }
  }

  /** The counter after `k` calls of `_next_sequence`, each of which
      advances it by one modulo 65536. */
  function Advanced(counter: int, k: nat): int
  {
    if k == 0 then counter else (Advanced(counter, k - 1) + 1) % SEQUENCE_MODULUS
  }

  /** From a counter in range, `k` advances reach `(counter + k) % 65536`. */
  lemma {:induction false} AdvancedIsModular(counter: int, k: nat)
    requires 0 <= counter < SEQUENCE_MODULUS
    ensures Advanced(counter, k) == (counter + k) % SEQUENCE_MODULUS
  {
    if k > 0 {
      AdvancedIsModular(counter, k - 1);
      ModSucc(counter + k - 1);
    }
  }

  /** A counter in range stays in range. */
  lemma AdvancedInRange(counter: int, k: nat)
    requires 0 <= counter < SEQUENCE_MODULUS
    ensures 0 <= Advanced(counter, k) < SEQUENCE_MODULUS
  {
    AdvancedIsModular(counter, k);
  }

  /** Advancing `a` times and then `b` times is advancing `a + b` times. */
  lemma {:induction false} AdvancedAdds(counter: int, a: nat, b: nat)
    ensures Advanced(Advanced(counter, a), b) == Advanced(counter, a + b)
  {
    if b > 0 {
      AdvancedAdds(counter, a, b - 1);
    }
  }

  /** `create_data` and the DROPPABLE mark, as a function of the
      priority and the sequence number. */
  function Maker(now: int): (Priority, int) -> Packet
  {
    (p: Priority, sequence: int) => GeneratedPacket(p, sequence, now)
  }

  /** What `_generate_traffic` builds from a run of priorities: the j-th
      item made with the counter advanced j times. */
  function Numbered<T>(order: seq<Priority>, counter: int, make: (Priority, int) -> T): (r: seq<T>)
    ensures |r| == |order|
  {
    if order == [] then []
    else
      Numbered(order[..|order| - 1], counter, make) +
      [make(order[|order| - 1], Advanced(counter, |order| - 1))]
  }

  lemma NumberedSnoc<T>(order: seq<Priority>, q: Priority, counter: int, make: (Priority, int) -> T)
    ensures Numbered(order + [q], counter, make) == Numbered(order, counter, make) + [make(q, Advanced(counter, |order|))]
  {
    assert (order + [q])[..|order|] == order;
  }

  lemma {:induction false} NumberedAppend<T>(a: seq<Priority>, b: seq<Priority>, counter: int, make: (Priority, int) -> T)
    ensures Numbered(a + b, counter, make) == Numbered(a, counter, make) + Numbered(b, Advanced(counter, |a|), make)
  {
    if b == [] {
      assert a + b == a;
    } else {
      var b' := b[..|b| - 1];
      var ab := a + b;
      var mid := Advanced(counter, |a|);
      var x := make(b[|b| - 1], Advanced(counter, |a| + |b| - 1));
      assert ab[..|ab| - 1] == a + b';
      assert ab[|ab| - 1] == b[|b| - 1];
      AdvancedAdds(counter, |a|, |b| - 1);
      calc {
        Numbered(ab, counter, make);
        Numbered(a + b', counter, make) + [x];
        { NumberedAppend(a, b', counter, make); }
        Numbered(a, counter, make) + Numbered(b', mid, make) + [x];
        Numbered(a, counter, make) + (Numbered(b', mid, make) + [x]);
        Numbered(a, counter, make) + Numbered(b, mid, make);
      }
    }
  }

  /** The j-th item is made from the j-th priority and the counter
      advanced j times. */
  lemma {:induction false} NumberedElement<T>(order: seq<Priority>, counter: int, make: (Priority, int) -> T, j: nat)
    requires j < |order|
    ensures Numbered(order, counter, make)[j] == make(order[j], Advanced(counter, j))
  {
    if j < |order| - 1 {
      NumberedElement(order[..|order| - 1], counter, make, j);
    }
  }

  /** The packets generated from a run of priorities carry those
      priorities in order and consecutive sequence numbers modulo 65536. */
  lemma GeneratedNumbering(order: seq<Priority>, counter: int, now: int)
    requires 0 <= counter < SEQUENCE_MODULUS
    ensures var r := Numbered(order, counter, Maker(now));
      forall j :: 0 <= j < |r| ==>
        r[j].header.priority == order[j] &&
        r[j].header.sequence == (counter + j) % SEQUENCE_MODULUS &&
        0 <= r[j].header.sequence < SEQUENCE_MODULUS
  {
    var r := Numbered(order, counter, Maker(now));
    forall j | 0 <= j < |r|
      ensures r[j].header.priority == order[j]
      ensures r[j].header.sequence == (counter + j) % SEQUENCE_MODULUS
    {
      NumberedElement(order, counter, Maker(now), j);
      AdvancedIsModular(counter, j);
    }
  }

  /** One step of the inner loop of `_generate_traffic`: the next item is
      made with the counter's value. */
  lemma GeneratedRunStep<T>(p: Priority, i: nat, counter: int, make: (Priority, int) -> T, run: seq<T>)
    requires run == Numbered(Repeat(p, i), counter, make)
    ensures run + [make(p, Advanced(counter, i))] == Numbered(Repeat(p, i + 1), counter, make)
  {
    assert Repeat(p, i + 1) == Repeat(p, i) + [p];
    NumberedSnoc(Repeat(p, i), p, counter, make);
  }

  /** One step of the outer loop of `_generate_traffic`: the run of the
      next priority extends the items of the priorities before it. */
  lemma GeneratedTrafficStep<T>(ps: seq<Priority>, counts: map<Priority, int>, pi: nat, counter: int,
                                make: (Priority, int) -> T, items: seq<T>, run: seq<T>)
    requires forall p :: p in counts
    requires pi < |ps|
    requires items == Numbered(Expand(ps[..pi], counts), counter, make)
    requires run == Numbered(Repeat(ps[pi], RangeLength(counts[ps[pi]])), Advanced(counter, |items|), make)
    ensures items + run == Numbered(Expand(ps[..pi + 1], counts), counter, make)
  {
    assert ps[..pi + 1][..pi] == ps[..pi];
    NumberedAppend(Expand(ps[..pi], counts), Repeat(ps[pi], RangeLength(counts[ps[pi]])), counter, make);
  }

  /** What a release pass builds from schedule entries: the j-th item made
      with sequence number `start + j`. */
  function Released<T>(entries: seq<(real, Priority)>, start: int, make: (Priority, int) -> T): (r: seq<T>)
    ensures |r| == |entries|
  {
    if entries == [] then []
    else
      Released(entries[..|entries| - 1], start, make) +
      [make(entries[|entries| - 1].1, start + |entries| - 1)]
  }

  lemma {:induction false} ReleasedElement<T>(entries: seq<(real, Priority)>, start: int, make: (Priority, int) -> T, j: nat)
    requires j < |entries|
    ensures Released(entries, start, make)[j] == make(entries[j].1, start + j)
  {
    if j < |entries| - 1 {
      ReleasedElement(entries[..|entries| - 1], start, make, j);
    }
  }

  /** One step of the release pass. */
  lemma ReleasedStep<T>(schedule: seq<(real, Priority)>, index: nat, k: nat, start: int, make: (Priority, int) -> T, released: seq<T>)
    requires index <= k < |schedule| && released == Released(schedule[index..k], start, make)
    ensures released + [make(schedule[k].1, start + (k - index))] == Released(schedule[index..k + 1], start, make)
  {
    assert schedule[index..k + 1][..k - index] == schedule[index..k];
  }

  /** The inner loop of `_generate_traffic`: `n` items of one priority,
      each made with the counter's value, which then advances as
      `_next_sequence` advances it. */
  method GenerateRun<T>(p: Priority, n: nat, make: (Priority, int) -> T, counter: int)
    returns (run: seq<T>, next: int)
    ensures run == Numbered(Repeat(p, n), counter, make)
    ensures next == Advanced(counter, n)
  {
    run, next := [], counter;
    for i := 0 to n
      invariant run == Numbered(Repeat(p, i), counter, make)
      invariant next == Advanced(counter, i)
    {
      var s := next;
      next := (next + 1) % SEQUENCE_MODULUS;
      GeneratedRunStep(p, i, counter, make, run);
      run := run + [make(p, s)];
    }
  }

  /** The loops of `_generate_traffic`: for every priority of `ps` in
      order, a run of its count. */
  method GenerateAll<T>(ps: seq<Priority>, counts: map<Priority, int>, counter: int, make: (Priority, int) -> T)
    returns (items: seq<T>, next: int)
    requires forall p :: p in counts
    ensures items == Numbered(Expand(ps, counts), counter, make)
    ensures next == Advanced(counter, |items|)
  {
    items, next := [], counter;
    for pi := 0 to |ps|
      invariant items == Numbered(Expand(ps[..pi], counts), counter, make)
      invariant next == Advanced(counter, |items|)
    {
      var run, n := GenerateRun(ps[pi], RangeLength(counts[ps[pi]]), make, next);
      GeneratedTrafficStep(ps, counts, pi, counter, make, items, run);
      AdvancedAdds(counter, |items|, |run|);
      items, next := items + run, n;
    }
    assert ps[..|ps|] == ps;
  }

  /** The entries of a release pass: from `index` on, while the entry's
      time is at most `currentTime`, an item made with the next number. */
  method CollectDue<T>(schedule: seq<(real, Priority)>, index: nat, nextSeq: int, currentTime: real,
                       make: (Priority, int) -> T)
    returns (index': nat, nextSeq': int, released: seq<T>)
    requires index <= |schedule|
    ensures index <= index' <= |schedule| && nextSeq' == nextSeq + (index' - index)
    ensures forall j :: index <= j < index' ==> schedule[j].0 <= currentTime
    ensures index' < |schedule| ==> schedule[index'].0 > currentTime
    ensures released == Released(schedule[index..index'], nextSeq, make)
  {
    index', nextSeq', released := index, nextSeq, [];
    while index' < |schedule|
      invariant index <= index' <= |schedule| && nextSeq' == nextSeq + (index' - index)
      invariant forall j :: index <= j < index' ==> schedule[j].0 <= currentTime
      invariant released == Released(schedule[index..index'], nextSeq, make)
      decreases |schedule| - index'
    {
      var (scheduledTime, priority) := schedule[index'];
      if scheduledTime > currentTime {
        break;
      }
      ReleasedStep(schedule, index, index', nextSeq, make, released);
      released := released + [make(priority, nextSeq')];
      nextSeq' := nextSeq' + 1;
      index' := index' + 1;
    }
  }

  /** How many of the packets have priority `p`. */
  function CountAt(packets: seq<Packet>, p: Priority): (n: nat)
    ensures n <= |packets|
  {
    if packets == [] then 0
    else CountAt(packets[..|packets| - 1], p) + (if packets[|packets| - 1].header.priority == p then 1 else 0)
  }

  /** The statistics after `record_sent(packet)`: the packet's priority
      has one more packet sent. */
  function SentOne(stats: map<Priority, PriorityStats>, packet: Packet): (r: map<Priority, PriorityStats>)
    requires forall p :: p in stats
    ensures forall p :: p in r
    ensures var p := packet.header.priority;
      r[p].total == stats[p].total + 1 && forall q :: q != p ==> r[q] == stats[q]
  {
    var p := packet.header.priority;
    stats[p := stats[p].(total := stats[p].total + 1)]
  }

  /** The statistics after `record_sent` of each packet in turn. */
  function SentAll(stats: map<Priority, PriorityStats>, packets: seq<Packet>): (r: map<Priority, PriorityStats>)
    requires forall p :: p in stats
    ensures forall p :: p in r
  {
    if packets == [] then stats
    else SentOne(SentAll(stats, packets[..|packets| - 1]), packets[|packets| - 1])
  }

  /** One `record_sent` extends `SentAll` by the next packet. */
  lemma SentAllStep(stats: map<Priority, PriorityStats>, packets: seq<Packet>, i: nat, m: map<Priority, PriorityStats>)
    requires forall p :: p in stats
    requires i < |packets| && m == SentAll(stats, packets[..i])
    ensures SentAll(stats, packets[..i + 1]) == SentOne(m, packets[i])
  {
    assert packets[..i + 1][..i] == packets[..i];
  }

  /** Recording the packets raises each priority's sent total by the number
      of packets of that priority. */
  lemma {:induction false} SentAllCounts(stats: map<Priority, PriorityStats>, packets: seq<Packet>)
    requires forall p :: p in stats
    ensures forall p :: SentAll(stats, packets)[p].total == stats[p].total + CountAt(packets, p)
  {
    if packets != [] {
      SentAllCounts(stats, packets[..|packets| - 1]);
    }
  }

  /** ... and the sum of the sent totals by the number of packets. */
  lemma {:induction false} SentAllSum(stats: map<Priority, PriorityStats>, packets: seq<Packet>)
    requires forall p :: p in stats
    ensures SumOver(SentAll(stats, packets), Sent) == SumOver(stats, Sent) + |packets|
  {
    if packets != [] {
      var front := packets[..|packets| - 1];
      SentAllSum(stats, front);
      var m := SentAll(stats, front);
      var p := packets[|packets| - 1].header.priority;
      SumOverUpdate(m, Sent, p, m[p].(total := m[p].total + 1));
    }
  }

  datatype ClientMode = Dtp | UdpRaw

  /** The client. Both schedulers are kept; the mode says which one is in
      use, as `set_mode` replaces the single scheduler of the Python client. */
  class DTPClient {
    var mode: ClientMode
    var dtp: DTPScheduler
    var simple: SimpleScheduler
    const metrics: MetricsCollector
    var sequence: int
    var profile: TrafficProfile
    var packetsSent: int
    var packetsToSend: int
    var running: bool

    ghost predicate Valid()
      reads this, dtp, simple, metrics
    {
      dtp.Valid() && simple.Valid() && metrics.Valid() && 0 <= sequence < SEQUENCE_MODULUS
    }

    constructor(mode: ClientMode, metrics: MetricsCollector)
      requires metrics.Valid()
      ensures Valid() && fresh(dtp) && fresh(simple)
      ensures this.mode == mode && this.metrics == metrics
      ensures dtp.queue == [] && dtp.maxSize == 1000 && dtp.batchSize == 10 && dtp.batchTimeoutMs == 50
      ensures simple.queue == [] && simple.maxSize == 1000
      ensures sequence == 0 && profile == DefaultProfile() && packetsSent == 0 && packetsToSend == 0 && !running
    {
      this.mode := mode;
      dtp := new DTPScheduler(1000, 10, 50);
      simple := new SimpleScheduler(1000);
      this.metrics := metrics;
      sequence := 0;
      profile := DefaultProfile();
      packetsSent := 0;
      packetsToSend := 0;
      running := false;
    }

    /** `set_mode`: a fresh scheduler for the new mode. */
    method SetMode(m: ClientMode)
      requires Valid()
      modifies this`mode, this`dtp, this`simple
      ensures Valid() && mode == m
      ensures m == Dtp ==> fresh(dtp) && dtp.queue == [] && dtp.maxSize == 1000 && simple == old(simple)
      ensures m == UdpRaw ==> fresh(simple) && simple.queue == [] && simple.maxSize == 1000 && dtp == old(dtp)
    {
      mode := m;
      if m == Dtp {
        dtp := new DTPScheduler(1000, 10, 50);
      } else {
        simple := new SimpleScheduler(1000);
      }
    }

    /** `run_simulation` without its send thread: the profile to send and
        the counters of the run. */
    method RunSimulation(p: Option<TrafficProfile>)
      modifies this`profile, this`packetsToSend, this`packetsSent
      ensures profile == (if p.Some? then p.value else old(profile))
      ensures packetsToSend == TotalPackets(profile) && packetsSent == 0
    {
      if p.Some? {
        profile := p.value;
      }
      packetsToSend := TotalPackets(profile);
      packetsSent := 0;
    }

    /** `_next_sequence`: the current value, then the counter advances
        modulo 65536. */
    method NextSequence() returns (s: int)
      requires 0 <= sequence < SEQUENCE_MODULUS
      modifies this`sequence
      ensures s == old(sequence) && 0 <= s < SEQUENCE_MODULUS
      ensures sequence == (old(sequence) + 1) % SEQUENCE_MODULUS == Advanced(old(sequence), 1)
      ensures 0 <= sequence < SEQUENCE_MODULUS
    {
      s := sequence;
      sequence := (sequence + 1) % SEQUENCE_MODULUS;
    }

    /** `_generate_traffic` before its shuffle: the profile's packets in
        generation order, numbered consecutively modulo 65536 from the
        counter, which ends advanced by their number. */
    method GenerateTraffic(now: int) returns (packets: seq<Packet>)
      requires Valid()
      modifies this`sequence
      ensures Valid()
      ensures packets == Numbered(ProfileOrder(profile), old(sequence), Maker(now))
      ensures sequence == Advanced(old(sequence), |packets|)
    {
      var next;
      packets, next := GenerateAll(ALL_PRIORITIES, GetCounts(profile), sequence, Maker(now));
      AdvancedInRange(sequence, |packets|);
      sequence := next;
    }

    /** `progress`: sent over total, 0 when nothing is to be sent. */
    function Progress(): (r: real)
      reads this
      ensures packetsToSend == 0 ==> r == 0.0
      ensures packetsToSend != 0 ==> r * packetsToSend as real == packetsSent as real
      ensures 0 <= packetsSent <= packetsToSend ==> 0.0 <= r <= 1.0
    {
      if packetsToSend == 0 then 0.0 else packetsSent as real / packetsToSend as real
    }

    /** `self._scheduler.enqueue(packet)` on the scheduler of the mode; the
        other scheduler is left alone. */
    method Offer(packet: Packet, now: int) returns (accepted: bool)
      requires Valid()
      modifies dtp`queue, dtp`droppedFull, dtp`enqueueOrder, dtp`enqueued, simple`queue, simple`enqueued, simple`dropped
      ensures Valid()
      ensures mode == Dtp ==>
        SimpleUnchanged(old(simple.queue), old(simple.enqueued), old(simple.dropped)) &&
        (accepted <==>
          !(|old(dtp.queue)| >= dtp.maxSize && packet.header.priority == Low && HasFlag(packet.header.flags, Droppable))) &&
        (!accepted ==>
          dtp.queue == old(dtp.queue) && dtp.droppedFull == old(dtp.droppedFull) + 1 &&
          dtp.enqueued == old(dtp.enqueued) && dtp.enqueueOrder == old(dtp.enqueueOrder)) &&
        (accepted ==>
          var evict := |old(dtp.queue)| >= dtp.maxSize && old(dtp.queue) != [];
          var kept := if evict then multiset(old(dtp.queue)) - multiset{old(dtp.queue)[FirstLowest(old(dtp.queue))]}
            else multiset(old(dtp.queue));
          multiset(dtp.queue) == kept + multiset{NewEntry(packet, old(dtp.enqueueOrder), now)} &&
          dtp.droppedFull == old(dtp.droppedFull) + (if evict then 1 else 0) &&
          dtp.enqueued == old(dtp.enqueued) + 1 && dtp.enqueueOrder == old(dtp.enqueueOrder) + 1)
      ensures mode == UdpRaw ==>
        DtpUnchanged(old(dtp.queue), old(dtp.enqueued), old(dtp.droppedFull), old(dtp.enqueueOrder)) &&
        (accepted <==> |old(simple.queue)| < simple.maxSize) &&
        (accepted ==>
          simple.queue == old(simple.queue) + [packet] && simple.enqueued == old(simple.enqueued) + 1 &&
          simple.dropped == old(simple.dropped)) &&
        (!accepted ==>
          simple.queue == old(simple.queue) && simple.enqueued == old(simple.enqueued) &&
          simple.dropped == old(simple.dropped) + 1)
    {
      if mode == Dtp {
        accepted := dtp.Enqueue(packet, now);
      } else {
        accepted := simple.Enqueue(packet);
      }
    }

    /** The heap's outcome of `enqueue(packet)` from the queue `queue` and
        the counters `enqueueOrder`, `droppedFull` and `enqueued`. A LOW,
        DROPPABLE packet that meets a full queue is refused and counted.
        Otherwise a full queue loses its first lowest entry, and the
        packet's entry is added. */
    ghost predicate DtpEnqueueOutcome(packet: Packet, now: int, queue: seq<HeapQueue.QueueEntry>,
                                      enqueueOrder: nat, droppedFull: nat, enqueued: nat)
      reads this, dtp
    {
      var rejected := |queue| >= dtp.maxSize && packet.header.priority == Low && HasFlag(packet.header.flags, Droppable);
      (rejected ==>
        dtp.queue == queue && dtp.droppedFull == droppedFull + 1 && dtp.enqueued == enqueued) &&
      (!rejected ==>
        var evict := |queue| >= dtp.maxSize && queue != [];
        var kept := if evict then multiset(queue) - multiset{queue[FirstLowest(queue)]} else multiset(queue);
        multiset(dtp.queue) == kept + multiset{NewEntry(packet, enqueueOrder, now)} &&
        dtp.droppedFull == droppedFull + (if evict then 1 else 0) && dtp.enqueued == enqueued + 1)
    }

    /** The FIFO scheduler holds the given queue and counters. */
    ghost predicate SimpleUnchanged(queue: seq<Packet>, enqueued: nat, dropped: nat)
      reads this, simple
    {
      simple.queue == queue && simple.enqueued == enqueued && simple.dropped == dropped
    }

    /** The deadline-aware scheduler holds the given queue and counters. */
    ghost predicate DtpUnchanged(queue: seq<HeapQueue.QueueEntry>, enqueued: nat, droppedFull: nat, enqueueOrder: nat)
      reads this, dtp
    {
      dtp.queue == queue && dtp.enqueued == enqueued && dtp.droppedFull == droppedFull && dtp.enqueueOrder == enqueueOrder
    }

    /** One pass of the release loop of `_simulation_loop`: from `index`
        on, every schedule entry whose time is at most `currentTime` is
        turned into a packet with the next sequence number, offered to the
        scheduler of the mode and recorded as sent; the pass stops at the
        first entry still in the future. The packets of the pass are built
        first and then offered and recorded in order. */
    method ReleaseDue(schedule: seq<(real, Priority)>, index: nat, nextSeq: int, currentTime: real, now: int)
      returns (index': nat, nextSeq': int, released: seq<Packet>)
      requires Valid() && index <= |schedule|
      modifies dtp`queue, dtp`droppedFull, dtp`enqueueOrder, dtp`enqueued, simple`queue, simple`enqueued, simple`dropped, metrics`stats
      ensures Valid()
      ensures index <= index' <= |schedule| && nextSeq' == nextSeq + (index' - index)
      ensures forall j :: index <= j < index' ==> schedule[j].0 <= currentTime
      ensures index' < |schedule| ==> schedule[index'].0 > currentTime
      ensures released == Released(schedule[index..index'], nextSeq, Maker(now))
      ensures SumOver(metrics.stats, Sent) == old(SumOver(metrics.stats, Sent)) + |released|
      ensures forall p :: metrics.stats[p].total == old(metrics.stats[p].total) + CountAt(released, p)
      ensures mode == Dtp ==>
        SimpleUnchanged(old(simple.queue), old(simple.enqueued), old(simple.dropped)) &&
        dtp.enqueued + dtp.droppedFull >= old(dtp.enqueued + dtp.droppedFull) + |released| &&
        dtp.enqueueOrder - old(dtp.enqueueOrder) == dtp.enqueued - old(dtp.enqueued)
      ensures mode == UdpRaw ==>
        DtpUnchanged(old(dtp.queue), old(dtp.enqueued), old(dtp.droppedFull), old(dtp.enqueueOrder)) &&
        var taken := MinInt(|released|, MaxInt(simple.maxSize - |old(simple.queue)|, 0));
        simple.queue == old(simple.queue) + released[..taken] &&
        simple.enqueued == old(simple.enqueued) + taken &&
        simple.dropped == old(simple.dropped) + (|released| - taken)
    {
      index', nextSeq', released := CollectDue(schedule, index, nextSeq, currentTime, Maker(now));
      ReleaseAll(released, now);
    }

    /** The packets of one pass, offered and recorded in order. The FIFO
        scheduler takes packets while it has room and drops the rest. */
    method ReleaseAll(packets: seq<Packet>, now: int)
      requires Valid()
      modifies dtp`queue, dtp`droppedFull, dtp`enqueueOrder, dtp`enqueued, simple`queue, simple`enqueued, simple`dropped, metrics`stats
      ensures Valid()
      ensures SumOver(metrics.stats, Sent) == old(SumOver(metrics.stats, Sent)) + |packets|
      ensures forall p :: metrics.stats[p].total == old(metrics.stats[p].total) + CountAt(packets, p)
      ensures mode == Dtp ==>
        SimpleUnchanged(old(simple.queue), old(simple.enqueued), old(simple.dropped)) &&
        dtp.enqueued + dtp.droppedFull >= old(dtp.enqueued + dtp.droppedFull) + |packets| &&
        dtp.enqueueOrder - old(dtp.enqueueOrder) == dtp.enqueued - old(dtp.enqueued)
      ensures mode == UdpRaw ==>
        DtpUnchanged(old(dtp.queue), old(dtp.enqueued), old(dtp.droppedFull), old(dtp.enqueueOrder)) &&
        var taken := MinInt(|packets|, MaxInt(simple.maxSize - |old(simple.queue)|, 0));
        simple.queue == old(simple.queue) + packets[..taken] &&
        simple.enqueued == old(simple.enqueued) + taken &&
        simple.dropped == old(simple.dropped) + (|packets| - taken)
    {
      SentAllCounts(metrics.stats, packets);
      SentAllSum(metrics.stats, packets);
      if mode == Dtp {
        ReleaseAllDtp(packets, now);
      } else {
        FifoQueueTakesPrefix(simple.queue, packets, simple.maxSize);
        ReleaseAllFifo(packets, now);
      }
    }

    /** `ReleaseAll` with the deadline-aware scheduler in use. */
    method ReleaseAllDtp(packets: seq<Packet>, now: int)
      requires Valid() && mode == Dtp
      modifies dtp`queue, dtp`droppedFull, dtp`enqueueOrder, dtp`enqueued, simple`queue, simple`enqueued, simple`dropped, metrics`stats
      ensures Valid()
      ensures metrics.stats == SentAll(old(metrics.stats), packets)
      ensures SimpleUnchanged(old(simple.queue), old(simple.enqueued), old(simple.dropped))
      ensures dtp.enqueued + dtp.droppedFull >= old(dtp.enqueued + dtp.droppedFull) + |packets|
      ensures dtp.enqueueOrder - old(dtp.enqueueOrder) == dtp.enqueued - old(dtp.enqueued)
    {
      ghost var stats0 := metrics.stats;
      for i := 0 to |packets|
        invariant Valid()
        invariant metrics.stats == SentAll(stats0, packets[..i])
        invariant SimpleUnchanged(old(simple.queue), old(simple.enqueued), old(simple.dropped))
        invariant dtp.enqueued + dtp.droppedFull >= old(dtp.enqueued + dtp.droppedFull) + i
        invariant dtp.enqueueOrder - old(dtp.enqueueOrder) == dtp.enqueued - old(dtp.enqueued)
      {
        SentAllStep(stats0, packets, i, metrics.stats);
        ReleaseDtp(packets[i], now);
      }
      assert packets[..|packets|] == packets;
    }

    /** `ReleaseAll` with the FIFO scheduler in use. */
    method ReleaseAllFifo(packets: seq<Packet>, now: int)
      requires Valid() && mode == UdpRaw
      modifies dtp`queue, dtp`droppedFull, dtp`enqueueOrder, dtp`enqueued, simple`queue, simple`enqueued, simple`dropped, metrics`stats
      ensures Valid()
      ensures metrics.stats == SentAll(old(metrics.stats), packets)
      ensures DtpUnchanged(old(dtp.queue), old(dtp.enqueued), old(dtp.droppedFull), old(dtp.enqueueOrder))
      ensures simple.queue == FifoQueue(old(simple.queue), packets, simple.maxSize)
      ensures simple.enqueued + |old(simple.queue)| == old(simple.enqueued) + |simple.queue|
      ensures simple.dropped + |simple.queue| == old(simple.dropped) + |old(simple.queue)| + |packets|
    {
      ghost var stats0 := metrics.stats;
      for i := 0 to |packets|
        invariant Valid()
        invariant metrics.stats == SentAll(stats0, packets[..i])
        invariant DtpUnchanged(old(dtp.queue), old(dtp.enqueued), old(dtp.droppedFull), old(dtp.enqueueOrder))
        invariant simple.queue == FifoQueue(old(simple.queue), packets[..i], simple.maxSize)
        invariant simple.enqueued + |old(simple.queue)| == old(simple.enqueued) + |simple.queue|
        invariant simple.dropped + |simple.queue| == old(simple.dropped) + |old(simple.queue)| + i
      {
        SentAllStep(stats0, packets, i, metrics.stats);
        FifoQueueStep(old(simple.queue), packets, i, simple.maxSize);
        ReleaseFifo(packets[i], now);
      }
      assert packets[..|packets|] == packets;
    }

    /** One released packet: offered to the scheduler of the mode and
        recorded as sent. */
    method Release(packet: Packet, now: int)
      requires Valid()
      modifies dtp`queue, dtp`droppedFull, dtp`enqueueOrder, dtp`enqueued, simple`queue, simple`enqueued, simple`dropped, metrics`stats
      ensures Valid()
      ensures mode == Dtp ==>
        SimpleUnchanged(old(simple.queue), old(simple.enqueued), old(simple.dropped)) &&
        dtp.enqueued + dtp.droppedFull > old(dtp.enqueued + dtp.droppedFull) &&
        dtp.enqueueOrder - old(dtp.enqueueOrder) == dtp.enqueued - old(dtp.enqueued)
      ensures mode == UdpRaw ==>
        DtpUnchanged(old(dtp.queue), old(dtp.enqueued), old(dtp.droppedFull), old(dtp.enqueueOrder)) &&
        (|old(simple.queue)| < simple.maxSize ==>
          simple.queue == old(simple.queue) + [packet] && simple.enqueued == old(simple.enqueued) + 1 &&
          simple.dropped == old(simple.dropped)) &&
        (|old(simple.queue)| >= simple.maxSize ==>
          simple.queue == old(simple.queue) && simple.enqueued == old(simple.enqueued) &&
          simple.dropped == old(simple.dropped) + 1)
      ensures mode == Dtp ==>
        DtpEnqueueOutcome(packet, now, old(dtp.queue), old(dtp.enqueueOrder), old(dtp.droppedFull), old(dtp.enqueued))
      ensures SumOver(metrics.stats, Sent) == old(SumOver(metrics.stats, Sent)) + 1
      ensures var p := packet.header.priority;
        metrics.stats == old(metrics.stats)[p := old(metrics.stats)[p].(total := old(metrics.stats)[p].total + 1)]
    {
      if mode == Dtp {
        ReleaseDtp(packet, now);
      } else {
        ReleaseFifo(packet, now);
      }
    }

    /** `Release` with the deadline-aware scheduler in use. */
    method ReleaseDtp(packet: Packet, now: int)
      requires Valid() && mode == Dtp
      modifies dtp`queue, dtp`droppedFull, dtp`enqueueOrder, dtp`enqueued, simple`queue, simple`enqueued, simple`dropped, metrics`stats
      ensures Valid()
      ensures SimpleUnchanged(old(simple.queue), old(simple.enqueued), old(simple.dropped))
      ensures dtp.enqueued + dtp.droppedFull > old(dtp.enqueued + dtp.droppedFull)
      ensures dtp.enqueueOrder - old(dtp.enqueueOrder) == dtp.enqueued - old(dtp.enqueued)
      ensures DtpEnqueueOutcome(packet, now, old(dtp.queue), old(dtp.enqueueOrder), old(dtp.droppedFull), old(dtp.enqueued))
      ensures metrics.stats == SentOne(old(metrics.stats), packet)
      ensures SumOver(metrics.stats, Sent) == old(SumOver(metrics.stats, Sent)) + 1
    {
      var _ := dtp.Enqueue(packet, now);
      metrics.RecordSent(packet);
    }

    /** `Release` with the FIFO scheduler in use. */
    method ReleaseFifo(packet: Packet, now: int)
      requires Valid() && mode == UdpRaw
      modifies dtp`queue, dtp`droppedFull, dtp`enqueueOrder, dtp`enqueued, simple`queue, simple`enqueued, simple`dropped, metrics`stats
      ensures Valid()
      ensures DtpUnchanged(old(dtp.queue), old(dtp.enqueued), old(dtp.droppedFull), old(dtp.enqueueOrder))
      ensures |old(simple.queue)| < simple.maxSize ==>
        simple.queue == old(simple.queue) + [packet] && simple.enqueued == old(simple.enqueued) + 1 &&
        simple.dropped == old(simple.dropped)
      ensures |old(simple.queue)| >= simple.maxSize ==>
        simple.queue == old(simple.queue) && simple.enqueued == old(simple.enqueued) &&
        simple.dropped == old(simple.dropped) + 1
      ensures metrics.stats == SentOne(old(metrics.stats), packet)
      ensures SumOver(metrics.stats, Sent) == old(SumOver(metrics.stats, Sent)) + 1
    {
      var _ := simple.Enqueue(packet);
      metrics.RecordSent(packet);
    }

    /** `_handle_response`: a CONGESTION packet makes the scheduler of
        the mode congested; an ACK, any other packet and undecodable data
        change nothing. */
    method HandleResponse(data: seq<byte>)
      requires Valid()
      modifies dtp`congested, dtp`sendRate, simple`congested, simple`sendRate
      ensures Valid()
      ensures var r := Deserialize(data);
        var congestion := r.Success? && r.value.header.packetType == Congestion;
        (congestion && mode == Dtp ==>
          dtp.congested && dtp.sendRate == NextSendRate(old(dtp.sendRate), true)) &&
        (congestion && mode == UdpRaw ==>
          simple.congested && simple.sendRate == NextSendRate(old(simple.sendRate), true)) &&
        (!congestion || mode == UdpRaw ==> dtp.congested == old(dtp.congested) && dtp.sendRate == old(dtp.sendRate)) &&
        (!congestion || mode == Dtp ==> simple.congested == old(simple.congested) && simple.sendRate == old(simple.sendRate))
    {
      var r := Deserialize(data);
      if r.Success? && r.value.header.packetType == Congestion {
        if mode == Dtp {
          dtp.SetCongested(true);
        } else {
          simple.SetCongested(true);
        }
      }
    }

    /** `_clear_congestion`: the scheduler of the mode is no longer
        congested. */
    method ClearCongestion()
      requires Valid()
      modifies dtp`congested, dtp`sendRate, simple`congested, simple`sendRate
      ensures Valid()
      ensures mode == Dtp ==>
        !dtp.congested && dtp.sendRate == NextSendRate(old(dtp.sendRate), false) &&
        simple.congested == old(simple.congested) && simple.sendRate == old(simple.sendRate)
      ensures mode == UdpRaw ==>
        !simple.congested && simple.sendRate == NextSendRate(old(simple.sendRate), false) &&
        dtp.congested == old(dtp.congested) && dtp.sendRate == old(dtp.sendRate)
    {
      if mode == Dtp {
        dtp.SetCongested(false);
      } else {
        simple.SetCongested(false);
      }
    }

    /** `stop` without its threads and socket: not running, and the
        scheduler of the mode cleared. */
    method Stop()
      requires Valid()
      modifies this`running, dtp`queue, dtp`currentBatch, dtp`batchStartTime, simple`queue
      ensures Valid() && !running
      ensures mode == Dtp ==> dtp.queue == [] && dtp.currentBatch == [] && simple.queue == old(simple.queue)
      ensures mode == UdpRaw ==> simple.queue == [] && dtp.queue == old(dtp.queue) && dtp.currentBatch == old(dtp.currentBatch)
    {
      running := false;
      if mode == Dtp {
        dtp.Clear();
      } else {
        simple.Clear();
      }
    }
  }

  /** The FIFO queue after `enqueue` of each packet in turn: a packet is
      appended while the queue is below `maxSize` and dropped otherwise. */
  function FifoQueue(q0: seq<Packet>, packets: seq<Packet>, maxSize: int): (q: seq<Packet>)
    ensures |q0| <= |q| <= |q0| + |packets|
  {
    if packets == [] then q0
    else
      var q := FifoQueue(q0, packets[..|packets| - 1], maxSize);
      if |q| < maxSize then q + [packets[|packets| - 1]] else q
  }

  /** One `enqueue` extends `FifoQueue` by the next packet. */
  lemma FifoQueueStep(q0: seq<Packet>, packets: seq<Packet>, i: nat, maxSize: int)
    requires i < |packets|
    ensures var q := FifoQueue(q0, packets[..i], maxSize);
      FifoQueue(q0, packets[..i + 1], maxSize) == if |q| < maxSize then q + [packets[i]] else q
  {
    assert packets[..i + 1][..i] == packets[..i];
  }

  /** Starting with `room` free places, the FIFO queue takes the first
      `MinInt(|packets|, room)` packets and drops the others. */
  lemma {:induction false} FifoQueueTakesPrefix(q0: seq<Packet>, packets: seq<Packet>, maxSize: int)
    requires |q0| <= MaxInt(maxSize, 0)
    ensures var room := MaxInt(maxSize - |q0|, 0);
      FifoQueue(q0, packets, maxSize) == q0 + packets[..MinInt(|packets|, room)]
  {
    if packets != [] {
      var n := |packets| - 1;
      var room := MaxInt(maxSize - |q0|, 0);
      FifoQueueTakesPrefix(q0, packets[..n], maxSize);
      assert packets[..n][..MinInt(n, room)] == packets[..MinInt(n, room)];
      if n < room {
        assert packets[..n + 1] == packets[..n] + [packets[n]];
      }
    }
  }

  /** Since the schedule is sorted, a pass that stops at the first future
      entry leaves no due entry behind it. */
  lemma NothingDueAfterPass(schedule: seq<(real, Priority)>, stop: nat, currentTime: real)
    requires SortedBy(schedule, TimeLe) && stop <= |schedule|
    requires stop < |schedule| ==> schedule[stop].0 > currentTime
    ensures forall j :: stop <= j < |schedule| ==> schedule[j].0 > currentTime
  {
    forall j | stop <= j < |schedule|
      ensures schedule[j].0 > currentTime
    {
      if stop < j {
        assert TimeLe(schedule[stop], schedule[j]);
      }
    }
  }
}
