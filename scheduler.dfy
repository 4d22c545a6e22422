/** The packet schedulers (backend/src/scheduler.py): the deadline-aware
    `DTPScheduler`, a bounded binary heap with eviction, expiry at dequeue,
    a batch buffer and a congestion-driven send rate, and the FIFO
    `SimpleScheduler` it is compared against. */
module Scheduler {
  import opened Wrappers
  import opened Numeric
  import opened Protocol
  import opened HeapQueue

  /** The priority value the eviction scan reads from an entry's packet. */
  function PriorityValue(e: QueueEntry): nat
  {
    e.packet.header.priority.Value()
  }

  /** The index `_drop_lowest_priority`'s scan settles on: the first entry,
      in array order, whose priority value is maximal. */
  function FirstLowest(q: seq<QueueEntry>): (i: nat)
    requires |q| > 0
    ensures i < |q|
    ensures forall j :: 0 <= j < |q| ==> PriorityValue(q[j]) <= PriorityValue(q[i])
    ensures forall j :: 0 <= j < i ==> PriorityValue(q[j]) < PriorityValue(q[i])
  {
    if |q| == 1 then 0
    else
      var i := FirstLowest(q[..|q| - 1]);
      if PriorityValue(q[|q| - 1]) > PriorityValue(q[i]) then |q| - 1 else i
  }

  /** The entry `enqueue` builds: key `(priority, -ttd, order)` with the
      time to deadline taken at `now`. */
  function NewEntry(packet: Packet, order: int, now: int): (e: QueueEntry)
    ensures e.packet == packet && e.enqueueTime == now
    ensures e.sortKey.priority == PriorityValue(e) && e.sortKey.order == order
    ensures e.sortKey.negSlack <= 0 || packet.header.timestamp == 0
  {
    var ttd := TimeToDeadline(packet.header, now);
    QueueEntry(SortKey(packet.header.priority.Value(), -ttd, order), packet, now)
  }

  /** Two MEDIUM packets created at the same instant, the first with a
      1000 ms and the second with a 50 ms deadline: the long-deadline one
      gets the smaller key and so is dequeued first. */
  lemma LongDeadlineDequeuedFirst(now: int)
    requires now > 0
    ensures var long := CreateData([], Medium, 1, Some(1000), now);
      var short := CreateData([], Medium, 2, Some(50), now);
      EntryLt(NewEntry(long, 0, now), NewEntry(short, 1, now))
  {
  }

  /** `set_congested`'s new send rate. */
  function NextSendRate(rate: real, congested: bool): (r: real)
    ensures 50.0 <= rate <= 1000.0 ==> 50.0 <= r <= 1000.0
    ensures congested ==> r >= 50.0 && (rate >= 50.0 ==> r <= rate)
    ensures !congested ==> r <= 1000.0 && (0.0 <= rate <= 1000.0 ==> r >= rate)
  {
    if congested then MaxReal(50.0, rate * 0.5) else MinReal(1000.0, rate * 1.2)
  }

  /** Halving from any rate of at least 100 is exact, and so is the 1.2
      growth from any rate of at most 1000 / 1.2. */
  lemma NextSendRateAwayFromBounds(rate: real)
    ensures rate >= 100.0 ==> NextSendRate(rate, true) == rate / 2.0
    ensures rate * 1.2 <= 1000.0 ==> NextSendRate(rate, false) == rate * 1.2
  {
  }

  /** `_flush_batch`'s stamp: the BATCHED flag and the batch id. */
  function Stamped(p: Packet, id: int): (r: Packet)
    ensures HasFlag(r.header.flags, Batched) && r.header.batchId == id
    ensures forall f :: f != Batched ==> (HasFlag(r.header.flags, f) <==> HasFlag(p.header.flags, f))
    ensures r.header.(flags := p.header.flags, batchId := p.header.batchId) == p.header
    ensures r.payload == p.payload && r.receivedAt == p.receivedAt
  {
    p.(header := p.header.(flags := WithFlag(p.header.flags, Batched), batchId := id))
  }

  /** Every entry's key carries its packet's priority value. */
  predicate WellKeyed(q: seq<QueueEntry>)
  {
    forall i :: 0 <= i < |q| ==> q[i].sortKey.priority == PriorityValue(q[i])
  }

  lemma WellKeyedSub(q: seq<QueueEntry>, sub: seq<QueueEntry>)
    requires WellKeyed(q) && multiset(sub) <= multiset(q)
    ensures WellKeyed(sub)
  {
    forall i | 0 <= i < |sub|
      ensures sub[i].sortKey.priority == PriorityValue(sub[i])
    {
      assert sub[i] in multiset(q);
      var j :| 0 <= j < |q| && q[j] == sub[i];
    }
  }

  /** The scan loop of `_drop_lowest_priority`: -1 for an empty queue,
      otherwise the first index of maximal priority value. */
  method ScanLowest(q: seq<QueueEntry>) returns (lowestIdx: int)
    ensures q == [] ==> lowestIdx == -1
    ensures q != [] ==> lowestIdx == FirstLowest(q)
  {
    lowestIdx := -1;
    var lowestPri: int := -1;
    var i := 0;
    while i < |q|
      invariant 0 <= i <= |q|
      invariant i == 0 ==> lowestIdx == -1 && lowestPri == -1
      invariant i > 0 ==> lowestIdx == FirstLowest(q[..i]) && lowestPri == PriorityValue(q[lowestIdx])
    {
      assert q[..i + 1][..i] == q[..i];
      var pri := PriorityValue(q[i]);
      if pri > lowestPri {
        lowestPri := pri;
        lowestIdx := i;
      }
      i := i + 1;
    }
    assert q[..|q|] == q;
  }

  /** `del q[i]` removes exactly one occurrence of `q[i]`. */
  lemma RemoveAt(q: seq<QueueEntry>, i: nat)
    requires i < |q|
    ensures multiset(q[..i] + q[i + 1..]) == multiset(q) - multiset{q[i]}
  {
    assert q == q[..i] + [q[i]] + q[i + 1..];
  }

  class DTPScheduler {
    var queue: seq<QueueEntry>
    const maxSize: int
    const batchSize: int
    const batchTimeoutMs: int
    var currentBatch: seq<Packet>
    var batchStartTime: Option<int>
    var batchId: nat
    var sendRate: real
    var congested: bool
    var enqueued: nat
    var dequeued: nat
    var droppedFull: nat
    var droppedExpired: nat
    var batchesSent: nat
    var enqueueOrder: nat

    /** The queue is a heap of well-keyed entries that never grows past
        `maxSize` (or past one entry when `maxSize < 1`); the send rate stays
        within [50, 1000]; a batch start time is recorded exactly while the
        batch buffer is non-empty. */
    ghost predicate Valid()
      reads this
    {
      IsHeap(queue) && WellKeyed(queue) &&
      |queue| <= MaxInt(maxSize, 1) &&
      50.0 <= sendRate <= 1000.0 &&
      (batchStartTime.None? <==> currentBatch == [])
    }

    constructor(queueSize: int, batchSize: int, batchTimeoutMs: int)
      ensures Valid()
      ensures queue == [] && maxSize == queueSize
      ensures this.batchSize == batchSize && this.batchTimeoutMs == batchTimeoutMs
      ensures currentBatch == [] && batchStartTime.None? && batchId == 0
      ensures sendRate == 500.0 && !congested
      ensures enqueued == 0 && dequeued == 0 && droppedFull == 0 && droppedExpired == 0
      ensures batchesSent == 0 && enqueueOrder == 0
    {
      queue := [];
      maxSize := queueSize;
      this.batchSize := batchSize;
      this.batchTimeoutMs := batchTimeoutMs;
      currentBatch := [];
      batchStartTime := None;
      batchId := 0;
      sendRate := 500.0;
      congested := false;
      enqueued, dequeued, droppedFull, droppedExpired, batchesSent := 0, 0, 0, 0, 0;
      enqueueOrder := 0;
    }

    /** `enqueue`: when the queue is full, a LOW packet marked DROPPABLE is
        refused; any other packet first evicts the entry the eviction scan
        selects. The packet then goes into the heap under a fresh key. */
    method Enqueue(packet: Packet, now: int) returns (accepted: bool)
      requires Valid()
      modifies this`queue, this`droppedFull, this`enqueueOrder, this`enqueued
      ensures Valid()
      ensures var full := |old(queue)| >= maxSize;
        accepted <==> !(full && packet.header.priority == Low && HasFlag(packet.header.flags, Droppable))
      ensures !accepted ==>
        queue == old(queue) && droppedFull == old(droppedFull) + 1 &&
        enqueueOrder == old(enqueueOrder) && enqueued == old(enqueued)
      ensures accepted ==>
        var evict := |old(queue)| >= maxSize && old(queue) != [];
        var kept := if evict then multiset(old(queue)) - multiset{old(queue)[FirstLowest(old(queue))]}
          else multiset(old(queue));
        multiset(queue) == kept + multiset{NewEntry(packet, old(enqueueOrder), now)} &&
        droppedFull == old(droppedFull) + (if evict then 1 else 0) &&
        enqueueOrder == old(enqueueOrder) + 1 && enqueued == old(enqueued) + 1
      ensures dequeued == old(dequeued) && droppedExpired == old(droppedExpired)
      ensures batchesSent == old(batchesSent) && batchId == old(batchId)
      ensures currentBatch == old(currentBatch) && batchStartTime == old(batchStartTime)
      ensures sendRate == old(sendRate) && congested == old(congested)
    {
      if |queue| >= maxSize {
        if packet.header.priority == Low && HasFlag(packet.header.flags, Droppable) {
          droppedFull := droppedFull + 1;
          return false;
        }
        DropLowestPriority();
      }
      var entry := NewEntry(packet, enqueueOrder, now);
      var before := queue;
      queue := HeapPush(queue, entry);
      WellKeyedPush(before, entry, queue);
      enqueueOrder := enqueueOrder + 1;
      enqueued := enqueued + 1;
      return true;
    }

    lemma WellKeyedPush(before: seq<QueueEntry>, entry: QueueEntry, after: seq<QueueEntry>)
      requires WellKeyed(before) && entry.sortKey.priority == PriorityValue(entry)
      requires multiset(after) == multiset(before) + multiset{entry}
      ensures WellKeyed(after)
    {
      forall i | 0 <= i < |after|
        ensures after[i].sortKey.priority == PriorityValue(after[i])
      {
        assert after[i] in multiset(after);
        if after[i] != entry {
          assert after[i] in multiset(before);
          var j :| 0 <= j < |before| && before[j] == after[i];
        }
      }
    }

    /** `_drop_lowest_priority`: scans for the first entry of maximal
        priority value, deletes it and re-heapifies. Nothing happens on an
        empty queue. */
    method DropLowestPriority()
      requires Valid()
      modifies this`queue, this`droppedFull
      ensures IsHeap(queue) && WellKeyed(queue)
      ensures old(queue) == [] ==> queue == [] && droppedFull == old(droppedFull)
      ensures old(queue) != [] ==>
        multiset(queue) == multiset(old(queue)) - multiset{old(queue)[FirstLowest(old(queue))]} &&
        |queue| == |old(queue)| - 1 &&
        droppedFull == old(droppedFull) + 1
    {
      if queue == [] {
        return;
      }
      var lowestIdx := ScanLowest(queue);
      if lowestIdx >= 0 {
        var rest := queue[..lowestIdx] + queue[lowestIdx + 1..];
        RemoveAt(queue, lowestIdx);
        WellKeyedSub(queue, rest);
        var heap := Heapify(rest);
        WellKeyedSub(rest, heap);
        queue := heap;
        droppedFull := droppedFull + 1;
      }
    }

    /** `dequeue`: pops least entries, discarding (and counting) the expired
        ones, until one is live; that one's packet is returned. The result
        is None only once every entry has been popped and found expired.
        `served` and `discarded` name the entries involved. */
    method Dequeue(now: int) returns (r: Option<Packet>, ghost served: Option<QueueEntry>, ghost discarded: multiset<QueueEntry>)
      requires Valid()
      modifies this`queue, this`dequeued, this`droppedExpired
      ensures Valid()
      ensures r == (if served.Some? then Some(served.value.packet) else None)
      ensures served.None? ==> queue == [] && dequeued == old(dequeued)
      ensures served.Some? ==>
        !IsExpired(served.value.packet.header, now) &&
        multiset(old(queue)) == multiset(queue) + discarded + multiset{served.value} &&
        (forall x :: x in multiset(queue) ==> EntryLe(served.value, x)) &&
        (forall x :: x in discarded ==> EntryLe(x, served.value)) &&
        dequeued == old(dequeued) + 1
      ensures served.None? ==> multiset(old(queue)) == discarded
      ensures forall x :: x in discarded ==> IsExpired(x.packet.header, now)
      ensures droppedExpired == old(droppedExpired) + |discarded|
    {
      discarded := multiset{};
      while |queue| > 0
        invariant IsHeap(queue) && WellKeyed(queue)
        invariant multiset(old(queue)) == multiset(queue) + discarded
        invariant forall x :: x in discarded ==> IsExpired(x.packet.header, now)
        invariant forall x, y :: x in discarded && y in multiset(queue) ==> EntryLe(x, y)
        invariant droppedExpired == old(droppedExpired) + |discarded|
        invariant dequeued == old(dequeued)
        decreases |queue|
      {
        var before := queue;
        var entry, rest := HeapPop(queue);
        queue := rest;
        WellKeyedSub(before, rest);
        PopStep(before, entry, rest, discarded);
        if IsExpired(entry.packet.header, now) {
          droppedExpired := droppedExpired + 1;
          discarded := discarded + multiset{entry};
        } else {
          dequeued := dequeued + 1;
          served := Some(entry);
          r := Some(entry.packet);
          return;
        }
      }
      served := None;
      r := None;
    }

    /** What one pop in `dequeue`'s loop preserves: the popped entry and
        everything discarded before it are no greater than what remains. */
    lemma PopStep(before: seq<QueueEntry>, entry: QueueEntry, rest: seq<QueueEntry>, discarded: multiset<QueueEntry>)
      requires multiset(before) == multiset(rest) + multiset{entry}
      requires forall x :: x in multiset(rest) ==> EntryLe(entry, x)
      requires forall x, y :: x in discarded && y in multiset(before) ==> EntryLe(x, y)
      ensures multiset(before) + discarded == multiset(rest) + (discarded + multiset{entry})
      ensures forall x, y :: x in discarded + multiset{entry} && y in multiset(rest) ==> EntryLe(x, y)
      ensures forall x :: x in discarded ==> EntryLe(x, entry)
    {
      assert entry in multiset(before);
      forall x, y | x in discarded + multiset{entry} && y in multiset(rest)
        ensures EntryLe(x, y)
      {
        assert y in multiset(before);
      }
    }

    /** `add_to_batch`: the packet joins the batch buffer (which records its
        start time on the first packet); the buffer is flushed and returned
        once it holds `batch_size` packets or is `batch_timeout_ms` old. */
    method AddToBatch(packet: Packet, now: int) returns (batch: Option<seq<Packet>>)
      requires Valid()
      modifies this`currentBatch, this`batchStartTime, this`batchId, this`batchesSent
      ensures Valid()
      ensures var start := if old(batchStartTime).Some? then old(batchStartTime).value else now;
        var pending := old(currentBatch) + [packet];
        var ready := |pending| >= batchSize || now - start >= batchTimeoutMs;
        (ready ==>
          batch.Some? && |batch.value| == |pending| &&
          (forall i :: 0 <= i < |pending| ==> batch.value[i] == Stamped(pending[i], old(batchId) + 1)) &&
          currentBatch == [] && batchStartTime.None? &&
          batchId == old(batchId) + 1 && batchesSent == old(batchesSent) + 1) &&
        (!ready ==>
          batch.None? && currentBatch == pending && batchStartTime == Some(start) &&
          batchId == old(batchId) && batchesSent == old(batchesSent))
    {
      if batchStartTime.None? {
        batchStartTime := Some(now);
      }
      currentBatch := currentBatch + [packet];
      var ready := |currentBatch| >= batchSize || now - batchStartTime.value >= batchTimeoutMs;
      if ready {
        var flushed := FlushBatch();
        return Some(flushed);
      }
      return None;
    }

    /** `_flush_batch`: an empty buffer gives [] and changes nothing;
        otherwise the batch id advances, every buffered packet is stamped
        with it, and the buffer is emptied. */
    method FlushBatch() returns (batch: seq<Packet>)
      modifies this`currentBatch, this`batchStartTime, this`batchId, this`batchesSent
      ensures old(currentBatch) == [] ==>
        batch == [] && currentBatch == [] && batchStartTime == old(batchStartTime) &&
        batchId == old(batchId) && batchesSent == old(batchesSent)
      ensures old(currentBatch) != [] ==>
        batchId == old(batchId) + 1 && |batch| == |old(currentBatch)| &&
        (forall i :: 0 <= i < |batch| ==> batch[i] == Stamped(old(currentBatch)[i], batchId)) &&
        currentBatch == [] && batchStartTime.None? && batchesSent == old(batchesSent) + 1
    {
      if currentBatch == [] {
        return [];
      }
      batchId := batchId + 1;
      batch := [];
      for i := 0 to |currentBatch|
        invariant |batch| == i
        invariant forall k :: 0 <= k < i ==> batch[k] == Stamped(currentBatch[k], batchId)
      {
        batch := batch + [Stamped(currentBatch[i], batchId)];
      }
      currentBatch := [];
      batchStartTime := None;
      batchesSent := batchesSent + 1;
    }

    /** `flush_all`. */
    method FlushAll() returns (batch: seq<Packet>)
      requires Valid()
      modifies this`currentBatch, this`batchStartTime, this`batchId, this`batchesSent
      ensures Valid()
      ensures currentBatch == [] && batchStartTime.None? && |batch| == |old(currentBatch)|
      ensures forall i :: 0 <= i < |batch| ==> batch[i] == Stamped(old(currentBatch)[i], batchId)
      ensures batchId == old(batchId) + (if old(currentBatch) == [] then 0 else 1)
      ensures batchesSent == old(batchesSent) + (if old(currentBatch) == [] then 0 else 1)
    {
      batch := FlushBatch();
    }

    /** `set_congested`: records the flag and moves the send rate; the rate
        stays within [50, 1000]. */
    method SetCongested(c: bool)
      requires Valid()
      modifies this`congested, this`sendRate
      ensures Valid()
      ensures congested == c && sendRate == NextSendRate(old(sendRate), c)
      ensures c ==> sendRate <= old(sendRate)
      ensures !c ==> sendRate >= old(sendRate)
    {
      congested := c;
      sendRate := NextSendRate(sendRate, c);
    }

    /** `clear`: empties the queue and the batch buffer; counters, batch id
        and rate are kept. */
    method Clear()
      requires Valid()
      modifies this`queue, this`currentBatch, this`batchStartTime
      ensures Valid()
      ensures queue == [] && currentBatch == [] && batchStartTime.None?
    {
      queue := [];
      currentBatch := [];
      batchStartTime := None;
    }
  }

  class SimpleScheduler {
    var queue: seq<Packet>
    const maxSize: int
    var sendRate: real
    var congested: bool
    var enqueued: nat
    var dequeued: nat
    var dropped: nat

    ghost predicate Valid()
      reads this
    {
      |queue| <= MaxInt(maxSize, 0) && 50.0 <= sendRate <= 1000.0
    }

    constructor(queueSize: int)
      ensures Valid()
      ensures queue == [] && maxSize == queueSize && sendRate == 500.0 && !congested
      ensures enqueued == 0 && dequeued == 0 && dropped == 0
    {
      queue := [];
      maxSize := queueSize;
      sendRate := 500.0;
      congested := false;
      enqueued, dequeued, dropped := 0, 0, 0;
    }

    /** `enqueue`: appends, unless the queue is full. */
    method Enqueue(packet: Packet) returns (accepted: bool)
      requires Valid()
      modifies this`queue, this`enqueued, this`dropped
      ensures Valid()
      ensures accepted <==> |old(queue)| < maxSize
      ensures accepted ==> queue == old(queue) + [packet] && enqueued == old(enqueued) + 1 && dropped == old(dropped)
      ensures !accepted ==> queue == old(queue) && enqueued == old(enqueued) && dropped == old(dropped) + 1
    {
      if |queue| >= maxSize {
        dropped := dropped + 1;
        return false;
      }
      queue := queue + [packet];
      enqueued := enqueued + 1;
      return true;
    }

    /** `dequeue`: the oldest packet, regardless of priority or deadline. */
    method Dequeue() returns (r: Option<Packet>)
      requires Valid()
      modifies this`queue, this`dequeued
      ensures Valid()
      ensures old(queue) == [] ==> r.None? && queue == [] && dequeued == old(dequeued)
      ensures old(queue) != [] ==> r == Some(old(queue)[0]) && queue == old(queue)[1..] && dequeued == old(dequeued) + 1
    {
      if queue != [] {
        dequeued := dequeued + 1;
        r := Some(queue[0]);
        queue := queue[1..];
      } else {
        r := None;
      }
    }

    /** `set_congested`: the same rate rule as the deadline-aware
        scheduler. */
    method SetCongested(c: bool)
      requires Valid()
      modifies this`congested, this`sendRate
      ensures Valid()
      ensures congested == c && sendRate == NextSendRate(old(sendRate), c)
    {
      congested := c;
      sendRate := NextSendRate(sendRate, c);
    }

    method Clear()
      requires Valid()
      modifies this`queue
      ensures Valid() && queue == []
    {
      queue := [];
    }
  }

  /** FIFO order: packets enqueued into an empty simple scheduler with room
      for both come out in the order they went in. */
  method SimpleSchedulerIsFifo(first: Packet, second: Packet) returns (out1: Option<Packet>, out2: Option<Packet>)
    ensures out1 == Some(first) && out2 == Some(second)
  {
    var s := new SimpleScheduler(1000);
    var ok1 := s.Enqueue(first);
    var ok2 := s.Enqueue(second);
    out1 := s.Dequeue();
    out2 := s.Dequeue();
  }
}
