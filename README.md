# DTP-Transport core, modelled in Dafny

DTP (Deadline-aware Transport Protocol) carries prioritised, deadline-stamped
packets over UDP. This project models the sequential core of its Python
backend. Every read of the monotonic millisecond clock (`now_ms()`) becomes a
`now` parameter, and every method call is treated as atomic.

- **Protocol** (`protocol.dfy`) models the wire format:
  - the four priorities, the five packet types and the five flags;
  - the 24-byte big-endian header codec `'>HBBBBHIQHH'`, which starts with the magic number `0xDEAD`;
  - packet serialization;
  - the expiry, time-to-deadline, latency and on-time arithmetic.
- **Bytes** (`bytes.dfy`) holds the big-endian and signed 64-bit encodings and the bit operations that `struct` and `|` supply in Python.
- **HeapQueue** (`heap_queue.dfy`) models CPython's `heapq` algorithms over a sequence of queue entries (`heappush`, `heappop`, `heapify`), with the heap invariant and permutation proved.
- **Scheduler** (`scheduler.dfy`) models two classes:
  - `DTPScheduler`, a bounded heap keyed by `(priority, -time_to_deadline, enqueue_order)`. It evicts when full, discards expired entries at dequeue, keeps a batch buffer and adjusts its send rate when congested;
  - `SimpleScheduler`, the FIFO it is compared against.
- **RateControl** (`rate_control.dfy`) models:
  - the lazily refilled `TokenBucket`;
  - the per-priority `AdmissionController`;
  - the windowed AIMD (additive-increase, multiplicative-decrease) `CongestionController`;
  - the `Pacer`.
- **ClockSync** (`clock_sync.dfy`) models:
  - the 25-byte `'>B q q q'` sync packet;
  - the offset and round-trip formulas, round validation and median aggregation;
  - the server's reply;
  - timestamp adjustment and the global offset.
- **Metrics** (`metrics.dfy`) models:
  - the per-priority counters and their ratios and percentiles;
  - the bounded deques of recent packets, latency history and events;
  - the snapshot totals of `MetricsCollector`.
- **Logger** (`logger.dfy`) models:
  - the experiment logger's event buffer, with the events file as a sequence of records;
  - the log reader's filters;
  - `compute_statistics`, as a loop proved against a fold over the event sequence.
- **Client** (`client.dfy`) models:
  - the traffic profile, the generation schedule and `_generate_traffic` before its shuffle;
  - the 16-bit sequence counter;
  - the release pass of the simulation loop;
  - progress and the dispatch of server responses.
- **Sorting**, **Numeric** and **Wrappers** hold `sorted` and `median`, truncation towards zero, and `Option`/`Result`.

Rates, token counts and time offsets are `real`. Header fields and counters
are unbounded integers. The widths of the wire fields appear only where the
codec checks them (`Fits`, `SyncFits`).

## Code, docstrings and tests

Where a docstring or the test file `backend/tests/test_protocol.py` disagrees
with the code, the model follows the code:

- **Header.** The header is 24 bytes (`DTP_HEADER_SIZE`, `backend/src/protocol.py:10`), starts with the magic number `0xDEAD` and carries a 64-bit deadline.
- **Default deadlines.** They are 500/1500/3000/6000 ms (`backend/src/protocol.py:39-46`). The test at `backend/tests/test_protocol.py:55-60` expects 50/100/250/1000.
- **Expiry.** `is_expired` is false when the timestamp is 0. Otherwise a packet is expired once strictly more than `deadline` ms have elapsed.
- **Scheduling key.**
  - The scheduler's key holds the negated time to deadline taken at enqueue. Within a priority, the packet with the most remaining time is served first (`Scheduler.LongDeadlineDequeuedFirst`).
  - The class docstring at `backend/src/scheduler.py:26` says "urgent packets first". The test at `backend/tests/test_protocol.py:141-154` expects the opposite order.
- **Dequeue and enqueue.**
  - `dequeue` applies no per-priority expiry tolerance and no congestion gate.
  - `enqueue` performs no expiry check.
  - Eviction removes the first entry of maximal priority value, whether or not it is expired.
  - The congestion flag only changes the send rate.
- **Batching.** It is a separate buffer that `add_to_batch` returns to its caller. It is not a path into the heap.
- **Stale test file.** `backend/tests/test_protocol.py` was written against an older interface: an `allow_batch` argument, `header.serialize`, other deadlines and rejection at enqueue. The model follows it only where it agrees with the code, as in `Scheduler.SimpleSchedulerIsFifo` and `Protocol.CreateDataRoundTrip`.

## Model

| member | source | states |
|---|---|---|
| Protocol.Priority.Value | backend/src/protocol.py:33-37 | the wire value of a priority is 0..3 |
| Protocol.Priority.Name | backend/src/protocol.py:33-37 | the enum member names CRITICAL, HIGH, MEDIUM, LOW used by `priority.name` (defined here) |
| Protocol.PriorityOf | backend/src/protocol.py:119 | `Priority(v)` succeeds exactly for 0..3 and yields the priority whose value is v |
| Protocol.PacketTypeOf | backend/src/protocol.py:118 | `PacketType(v)` succeeds exactly for 0..4 and yields the type whose value is v |
| Protocol.DefaultDeadlineMs | backend/src/protocol.py:39-46 | every default deadline is positive |
| Protocol.DefaultDeadlineIncreasing | backend/src/protocol.py:39-46 | a less urgent priority gets a strictly longer default deadline |
| Protocol.Flag.Mask | backend/src/protocol.py:57-63 | each flag is the single bit 2^k |
| Protocol.WithFlag | backend/src/scheduler.py:143 | `flags \| flag` sets that flag and leaves every other flag as it was |
| Protocol.NoFlagInNone | backend/src/protocol.py:58 | the empty flag set holds no flag |
| Protocol.HasFlag | backend/src/protocol.py:57-63 | `flags & flag != 0`, the test of one flag bit (defined here; `WithFlag` states its behaviour) |
| Protocol.Pack | backend/src/protocol.py:89-102 | packing succeeds iff every field fits its width; the result is 24 bytes starting 0xDE 0xAD |
| Protocol.Fits | backend/src/protocol.py:89-102 | every field within its `'>HBBBBHIQHH'` width, the condition under which `struct.pack` does not raise (defined here) |
| Protocol.LayoutSlices | backend/src/protocol.py:89-102 | the byte positions of magic, version, type, priority, flags, sequence, timestamp, deadline, length and batch id |
| Protocol.MagicIsFirstTwoBytes | backend/src/protocol.py:113-114 | the magic check equals "first two bytes are 0xDE 0xAD" |
| Protocol.Unpack | backend/src/protocol.py:105-126 | rejects short input (TooShort iff under 24 bytes); on 24 or more bytes succeeds iff magic, type 0..4 and priority 0..3; a decoded header fits its widths |
| Protocol.UnpackPack | backend/src/protocol.py:89-126 | unpacking a packed header, with any trailing bytes, returns the header |
| Protocol.PackUnpack | backend/src/protocol.py:89-126 | repacking a decoded header reproduces the first 24 bytes of the input |
| Protocol.UnpackIgnoresTrailing | backend/src/protocol.py:109-111 | bytes beyond the 24th do not affect unpacking |
| Protocol.TimeToDeadline | backend/src/protocol.py:134-138 | the deadline when the timestamp is 0; otherwise never negative, the remaining slack while not expired, and 0 once expired |
| Protocol.IsExpired | backend/src/protocol.py:128-132 | `is_expired`: never with timestamp 0, otherwise once more than `deadline` ms have elapsed (defined here; `ExpiryIsPermanent` states its monotonicity) |
| Protocol.TimeToDeadlineNonIncreasing | backend/src/protocol.py:134-138 | the remaining time never grows as the clock advances |
| Protocol.ExpiryIsPermanent | backend/src/protocol.py:128-132 | once expired, a header stays expired at every later time |
| Protocol.CreateData | backend/src/protocol.py:150-163 | a DATA packet with the given priority and sequence, stamped `now`, the given or default deadline, no flags, and the payload's true length |
| Protocol.Serialize | backend/src/protocol.py:187-188 | succeeds iff the header fits; the result is 24 bytes plus the payload |
| Protocol.Deserialize | backend/src/protocol.py:190-194 | fails exactly when unpacking fails, with the same error; otherwise the payload is the next `payload_length` bytes, as far as they exist |
| Protocol.DeserializeSerialize | backend/src/protocol.py:187-194 | deserializing a serialized packet restores its header and the payload truncated to `payload_length` |
| Protocol.CreateDataRoundTrip | backend/src/protocol.py:150-194 | a packet from `create_data` survives serialize and deserialize unchanged |
| Protocol.MarkReceived | backend/src/protocol.py:196-197 | records the receive time and changes nothing else |
| Protocol.LatencyMs | backend/src/protocol.py:204-208 | None iff not received or timestamp 0; otherwise receive time minus timestamp |
| Protocol.IsOnTime | backend/src/protocol.py:210-214 | `is_on_time`: an unmeasured latency counts as on time, otherwise latency ≤ deadline (defined here; see `OnTimeIffNotExpiredAtReceipt`) |
| Protocol.OnTimeIffNotExpiredAtReceipt | backend/src/protocol.py:210-214 | a received packet is on time iff its header was not expired at the receive time |
| Bytes.Pow256Limits | backend/src/protocol.py:91 | the ranges of the 8-, 16-, 32- and 64-bit unsigned fields |
| Bytes.EncodeBE | backend/src/protocol.py:90-102 | the `struct` big-endian unsigned encoding: n bytes whose big-endian value is the input |
| Bytes.DecodeBE | backend/src/protocol.py:109-111 | the big-endian value of n bytes, below 256^n |
| Bytes.EncodeI64 | backend/src/clock_sync.py:17 | the `q` field: 8 bytes holding the two's-complement value |
| Bytes.DecodeI64 | backend/src/clock_sync.py:17 | the `q` field read back as a signed value in the int64 range |
| Bytes.DecodeEncode | backend/src/protocol.py:90-111 | big-endian decoding inverts encoding for a value that fits |
| Bytes.EncodeDecode | backend/src/protocol.py:90-111 | big-endian encoding inverts decoding |
| Bytes.DecodeEncodeI64 | backend/src/clock_sync.py:17 | a signed 64-bit `q` field decodes to the value encoded |
| Bytes.EncodeDecodeI64 | backend/src/clock_sync.py:17 | encoding a decoded 8-byte `q` field restores the bytes |
| Bytes.SetBitSets | backend/src/scheduler.py:143 | `x \| (1 << k)` has bit k set |
| Bytes.SetBitKeeps | backend/src/scheduler.py:143 | `x \| (1 << k)` leaves every other bit unchanged |
| Bytes.SetBitValue | backend/src/scheduler.py:143 | setting a bit adds 2^k when it was clear and nothing when it was set |
| Bytes.SetBitBound | backend/src/scheduler.py:143 | setting a bit below n keeps the value below 2^n |
| Numeric.Trunc | backend/src/clock_sync.py:30 | `int()` truncates towards zero |
| Sorting.SortPermutes | backend/src/metrics.py:74 | `sorted` returns a permutation of its input |
| Sorting.SortSorted | backend/src/metrics.py:74 | `sorted` returns an ordered sequence for a total preorder |
| Sorting.Sort | backend/src/metrics.py:74 | `sorted` as insertion sort; the length is kept (its order and permutation are `SortSorted` and `SortPermutes`) |
| Sorting.Median | backend/src/clock_sync.py:65-66 | `statistics.median`: the middle sorted element, or the mean of the two middle ones for an even count (defined here; `MedianSplits` states its meaning) |
| Sorting.MedianSplits | backend/src/clock_sync.py:65-66 | at most half the samples lie strictly below the median, and at most half strictly above |
| Sorting.MedianOfConstant | backend/src/clock_sync.py:65-66 | the median of equal samples is that sample |
| HeapQueue.LowerPriorityFirst | backend/src/scheduler.py:63-67 | a lower priority value always sorts first |
| HeapQueue.KeyLt | backend/src/scheduler.py:12-17 | Python's lexicographic comparison of the `(priority, -ttd, order)` tuple (defined here) |
| HeapQueue.EntryLt | backend/src/scheduler.py:12-17 | `QueueEntry` ordered by its sort key alone, packet and enqueue time being `compare=False` (defined here) |
| HeapQueue.EqualUrgencyIsFifo | backend/src/scheduler.py:63-67 | with equal priority and time to deadline, the earlier enqueue order sorts first |
| HeapQueue.MoreSlackFirst | backend/src/scheduler.py:62-67 | within a priority, the entry with more time to deadline sorts first |
| HeapQueue.SiftDown | backend/src/scheduler.py:75 | `heapq._siftdown`: a permutation that restores the heap from `startpos` and leaves the prefix alone |
| HeapQueue.SiftUp | backend/src/scheduler.py:85 | `heapq._siftup`: a permutation that restores the heap below `pos` and leaves the prefix alone |
| HeapQueue.HeapPush | backend/src/scheduler.py:75 | `heappush` keeps the heap invariant and adds exactly the item |
| HeapQueue.RootIsLeast | backend/src/scheduler.py:85 | the root of a heap is no greater than any entry |
| HeapQueue.HeapPop | backend/src/scheduler.py:85 | `heappop` removes one least entry and keeps the heap invariant |
| HeapQueue.Heapify | backend/src/scheduler.py:113 | `heapify` permutes its input into a heap |
| Scheduler.FirstLowest | backend/src/scheduler.py:102-109 | the first index whose priority value is maximal |
| Scheduler.ScanLowest | backend/src/scheduler.py:102-109 | the scan loop returns -1 on an empty queue, else the first index of maximal priority value |
| Scheduler.NewEntry | backend/src/scheduler.py:62-73 | the entry's key is (priority, -ttd at `now`, order) around the packet and the enqueue time |
| Scheduler.LongDeadlineDequeuedFirst | backend/src/scheduler.py:62-67 | of two MEDIUM packets created together, the 1000 ms one sorts before the 50 ms one |
| Scheduler.NextSendRate | backend/src/scheduler.py:157-163 | the rate stays in [50, 1000]; congestion never raises it and its end never lowers it |
| Scheduler.NextSendRateAwayFromBounds | backend/src/scheduler.py:157-163 | away from the bounds, congestion halves the rate and its end multiplies it by 1.2 |
| Scheduler.Stamped | backend/src/scheduler.py:142-144 | the batch stamp sets BATCHED and the batch id and changes nothing else |
| Scheduler.DTPScheduler.constructor | backend/src/scheduler.py:30-51 | empty queue and batch, rate 500, not congested, all counters 0 |
| Scheduler.DTPScheduler.Enqueue | backend/src/scheduler.py:53-79 | when full, a LOW DROPPABLE packet is refused (only `dropped_full` grows); otherwise at most the first lowest entry is evicted and the new entry added; the other state is unchanged |
| Scheduler.DTPScheduler.DropLowestPriority | backend/src/scheduler.py:97-114 | on a non-empty queue removes exactly the first entry of maximal priority value, re-heapifies and counts the drop; no-op when empty |
| Scheduler.DTPScheduler.Dequeue | backend/src/scheduler.py:81-95 | pops expired entries (counted in `dropped_expired`) until a live one, which is no greater than any remaining entry; None only once the heap is empty |
| Scheduler.DTPScheduler.AddToBatch | backend/src/scheduler.py:116-132 | returns the stamped batch iff it reached `batch_size` or `batch_timeout_ms`, else keeps the packet buffered |
| Scheduler.DTPScheduler.FlushBatch | backend/src/scheduler.py:134-150 | no change on an empty buffer; otherwise one new batch id stamped on every member, buffer emptied, `batches_sent` + 1 |
| Scheduler.DTPScheduler.FlushAll | backend/src/scheduler.py:134-155 | flushes the batch buffer: every member stamped with one new batch id, buffer emptied, and `batch_id` and `batches_sent` each + 1 exactly when the buffer was non-empty |
| Scheduler.DTPScheduler.SetCongested | backend/src/scheduler.py:157-163 | sets the flag and moves the rate by the AIMD rule |
| Scheduler.DTPScheduler.Clear | backend/src/scheduler.py:165-170 | empties queue and batch buffer |
| Scheduler.SimpleScheduler.constructor | backend/src/scheduler.py:198-209 | empty queue, rate 500, counters 0 |
| Scheduler.SimpleScheduler.Enqueue | backend/src/scheduler.py:211-220 | appends iff not full, else counts a drop |
| Scheduler.SimpleScheduler.Dequeue | backend/src/scheduler.py:222-228 | removes and returns the oldest packet, None when empty |
| Scheduler.SimpleScheduler.SetCongested | backend/src/scheduler.py:230-235 | the same rate rule as the deadline-aware scheduler |
| Scheduler.SimpleScheduler.Clear | backend/src/scheduler.py:240-242 | empties the queue |
| Scheduler.SimpleSchedulerIsFifo | backend/src/scheduler.py:211-228 | two packets come out in the order they went in |
| RateControl.ConsumeStep | backend/src/rate_control.py:78-97 | succeeds iff the refilled tokens cover n; success subtracts n and counts it consumed, failure keeps the tokens and counts n rejected |
| RateControl.RefilledTokens | backend/src/rate_control.py:67-76 | the tokens `_refill` leaves: elapsed/1000 · rate added and capped at the burst, only when time advanced (defined here; `RefillBounds` and `RefillComposes` state its properties) |
| RateControl.RefilledAt | backend/src/rate_control.py:67-76 | the last-update time after `_refill`: `now` when time advanced, else unchanged (defined here) |
| RateControl.EarnedAdds | backend/src/rate_control.py:74 | tokens earned over adjacent intervals add up |
| RateControl.RefillBounds | backend/src/rate_control.py:67-76 | a refill never exceeds the burst or the tokens earned at the rate, and does nothing unless time has passed |
| RateControl.RefillComposes | backend/src/rate_control.py:67-76 | refilling in two steps equals refilling once |
| RateControl.ConsumeEarnsAtMostRate | backend/src/rate_control.py:67-97 | one call never hands out more tokens than were held plus earned |
| RateControl.ConsumeRunBound | backend/src/rate_control.py:78-97 | over any sequence of calls, tokens consumed never exceed the start plus rate times elapsed time |
| RateControl.ConsumeKeepsNonNegative | backend/src/rate_control.py:91-92 | tokens never go negative from a non-negative start |
| RateControl.TokenBucket.constructor | backend/src/rate_control.py:50-65 | initial tokens (burst by default), stamped `now`, counters 0 |
| RateControl.TokenBucket.Refill | backend/src/rate_control.py:67-76 | the lazy refill |
| RateControl.TokenBucket.Consume | backend/src/rate_control.py:78-97 | the state change of the consumption step |
| RateControl.TokenBucket.AvailableTokens | backend/src/rate_control.py:124-129 | refills and reports the tokens |
| RateControl.TokenBucket.Reset | backend/src/rate_control.py:143-147 | full bucket stamped `now` |
| RateControl.DefaultLimits | backend/src/rate_control.py:165-170 | every priority has a default limit |
| RateControl.EffectiveLimits | backend/src/rate_control.py:180 | the given limits unless empty, else the defaults |
| RateControl.ZeroStats | backend/src/rate_control.py:193 | zero admitted and rejected for every priority |
| RateControl.Increased | backend/src/rate_control.py:365-368 | `min(max_rate, rate + additive_increase)` (defined here; `AimdStaysInBand` states its band) |
| RateControl.Decreased | backend/src/rate_control.py:385-388 | `max(min_rate, rate * (1 - factor))` (defined here; `AimdStaysInBand` states its band) |
| RateControl.PacingBurst | backend/src/rate_control.py:406 | `max(10, int(rate / 10))` (defined here; `PacingBurstBounds` states its bounds) |
| RateControl.AdmissionController.constructor | backend/src/rate_control.py:172-194 | one fresh bucket per configured priority with its rate, burst and initial tokens; zero stats |
| RateControl.AdmissionController.Admit | backend/src/rate_control.py:196-224 | CRITICAL with the limit off is admitted and counted without touching its bucket; no bucket means admitted with no stats change; otherwise the bucket decides and exactly one counter grows |
| RateControl.AdmissionController.Reset | backend/src/rate_control.py:239-244 | every bucket full again at `now` with its consumed and rejected totals kept; stats zero |
| RateControl.AimdStaysInBand | backend/src/rate_control.py:362-391 | additive increase and multiplicative decrease keep a rate inside [min_rate, max_rate] and move it the right way |
| RateControl.PacingBurstBounds | backend/src/rate_control.py:402-407 | the pacing burst is at least 10 and at least `int(rate/10)`, equal to the latter from rate 100 |
| RateControl.CongestionController.constructor | backend/src/rate_control.py:263-294 | parameters stored, rate = initial, fresh pacing bucket with burst `int(rate/10)`, window at `now` |
| RateControl.CongestionController.CanSend | backend/src/rate_control.py:296-303 | one token from the pacing bucket |
| RateControl.CongestionController.OnPacketSent | backend/src/rate_control.py:317-320 | counts the packet |
| RateControl.CongestionController.UpdateBucket | backend/src/rate_control.py:402-407 | installs a fresh bucket at the current rate with burst `max(10, int(rate/10))` |
| RateControl.CongestionController.IncreaseRate | backend/src/rate_control.py:362-369 | no change while congested, else additive increase capped at max_rate |
| RateControl.CongestionController.OnAckReceived | backend/src/rate_control.py:322-335 | counts ACKs; at 10 or more, increases the rate and zeroes the count |
| RateControl.CongestionController.CheckAndDecrease | backend/src/rate_control.py:371-400 | acts only on a window of 1000 ms or more: decrease past the loss threshold and cooldown, clear congestion otherwise, reset the window |
| RateControl.CongestionController.OnLossDetected | backend/src/rate_control.py:337-400 | counts the losses, then the window check of `_check_and_decrease` on the new loss count: within the window nothing else changes; after it the counters and window restart, with a decrease (new bucket, `last_decrease_time`) past the threshold and cooldown, congestion cleared on an acceptable window, and the flag kept otherwise |
| RateControl.CongestionController.OnTimeout | backend/src/rate_control.py:348-360 | after the cooldown, decrease by 1.5 times the factor and mark congested; otherwise nothing |
| RateControl.CongestionController.Reset | backend/src/rate_control.py:432-443 | initial rate, fresh bucket, counters and flag cleared |
| RateControl.Pacer.constructor | backend/src/rate_control.py:454-462 | rate stored, interval 1000/rate |
| RateControl.Pacer.SetRate | backend/src/rate_control.py:484-488 | the rate is stored; a non-zero rate sets the interval to 1000/rate, while a zero rate raises after the store and keeps the old interval |
| RateControl.Pacer.WaitForNextSlot | backend/src/rate_control.py:464-482 | the positive wait left in the interval, or 0 with the slot taken at `now` |
| ClockSync.EncodeSync | backend/src/clock_sync.py:17-18 | succeeds iff the times fit 64 bits; 25 bytes led by the type byte |
| ClockSync.DecodeSync | backend/src/clock_sync.py:95 | succeeds exactly on 25 bytes |
| ClockSync.DecodeEncodeSync | backend/src/clock_sync.py:88-95 | decoding an encoded sync packet returns it |
| ClockSync.EncodeDecodeSync | backend/src/clock_sync.py:88-95 | encoding a decoded sync packet restores the bytes |
| ClockSync.OffsetRttExample | backend/src/clock_sync.py:100-101 | t1=100, t2=150, t3=152, t4=204 give offset -1 and RTT 102 |
| ClockSync.Offset | backend/src/clock_sync.py:100 | `((t2 - t1) + (t3 - t4)) / 2` (defined here; `OffsetMeasuresSkew` states its meaning) |
| ClockSync.Rtt | backend/src/clock_sync.py:101 | `(t4 - t1) - (t3 - t2)` (defined here; `OffsetMeasuresSkew` states its meaning) |
| ClockSync.OffsetMeasuresSkew | backend/src/clock_sync.py:100-101 | with symmetric delays the offset is the clock skew and the RTT is the total delay |
| ClockSync.Request | backend/src/clock_sync.py:86-88 | the request encodes (SYNC_REQ, t1, 0, 0) |
| ClockSync.Round | backend/src/clock_sync.py:84-108 | a round yields (offset, rtt) iff a 25-byte SYNC_RESP reply echoes t1 |
| ClockSync.ServerReply | backend/src/clock_sync.py:157-162 | replies only to SYNC_REQ, with (SYNC_RESP, t1 unchanged, t2, t3) |
| ClockSync.AdjustTimestamp | backend/src/clock_sync.py:29-30 | `int(remote_ts + offset_ms)` (defined here; `AdjustBounds` bounds it) |
| ClockSync.AdjustLatency | backend/src/clock_sync.py:32-33 | `int(latency_ms - offset_ms)` (defined here; `AdjustBounds` bounds it) |
| ClockSync.ExchangeIsAccepted | backend/src/clock_sync.py:84-163 | a request answered by the server is accepted with the formula values |
| ClockSync.ClockSyncServer.constructor | backend/src/clock_sync.py:122-127 | no requests handled |
| ClockSync.ClockSyncServer.Handle | backend/src/clock_sync.py:150-165 | the server reply, counted when sent |
| ClockSync.AdjustBounds | backend/src/clock_sync.py:29-33 | adjusted values lie within 1 ms of the exact sum and difference, and are exact for an integral offset |
| ClockSync.Accepted | backend/src/clock_sync.py:54-59 | never more successful rounds than attempts |
| ClockSync.ClockSyncClient.constructor | backend/src/clock_sync.py:39-44 | no result yet |
| ClockSync.ClockSyncClient.OffsetMs | backend/src/clock_sync.py:114-116 | the last result's offset, 0.0 before any (defined here) |
| ClockSync.ClockSyncClient.Sync | backend/src/clock_sync.py:46-82 | None iff no round succeeds; otherwise the medians of offsets and RTTs, accuracy RTT/2, samples the number of successful rounds ≤ num_samples; the result is stored only when present |
| ClockSync.GlobalClock.constructor | backend/src/clock_sync.py:177 | offset 0 |
| ClockSync.GlobalClock.SetOffset | backend/src/clock_sync.py:181-184 | stores the offset |
| ClockSync.GlobalClock.AdjustRemoteTimestamp | backend/src/clock_sync.py:192-193 | `int(remote_ts + _global_clock_offset)` on the stored offset (defined here) |
| ClockSync.GlobalClock.SyncWithServer | backend/src/clock_sync.py:196-203 | the global offset becomes the result's offset, and changes only when there is a result |
| Metrics.Newest | backend/src/metrics.py:122 | the newest n elements (all when fewer), the contents a `deque(maxlen=n)` keeps |
| Metrics.BoundedAppend | backend/src/metrics.py:179 | a `deque(maxlen)` append keeps at most maxlen with x last |
| Metrics.BoundedAppendIsNewest | backend/src/metrics.py:122-179 | a bounded append keeps the newest maxlen entries |
| Metrics.NewestOfNewest | backend/src/metrics.py:122-179 | trimming early loses nothing the final trim would keep |
| Metrics.BoundedAppendKeepsNewest | backend/src/metrics.py:122-179 | any number of bounded appends keeps the newest maxlen of everything appended |
| Metrics.BoundedAppendAll | backend/src/metrics.py:122 | never more than maxlen entries |
| Metrics.DeliveryRate | backend/src/metrics.py:46-50 | received/total, 0 when total is 0, at most 1 |
| Metrics.OnTimeRate | backend/src/metrics.py:52-56 | on_time/received, 0 when received is 0, at most 1 on consistent stats |
| Metrics.AvgLatency | backend/src/metrics.py:58-62 | `avg_latency`: 0 with no latencies, otherwise the value whose product with the count is the latencies' sum (the exact mean) |
| Metrics.MinOf | backend/src/metrics.py:58-62 | a member of the list no larger than any element |
| Metrics.SumWithin | backend/src/metrics.py:58-62 | a sum of n values in [lo, hi] lies in [n·lo, n·hi] |
| Metrics.MeanBetween | backend/src/metrics.py:58-62 | such a sum divided by n lies in [lo, hi] |
| Metrics.AvgLatencyWithin | backend/src/metrics.py:58-62 | the mean latency lies between the smallest and the largest latency |
| Metrics.MedianLatency | backend/src/metrics.py:64-68 | `median_latency`: 0 with no latencies, otherwise `statistics.median` of them (defined here, characterised by `Sorting.MedianSplits`) |
| Metrics.MaxOf | backend/src/metrics.py:73 | a member no smaller than any element |
| Metrics.PercentileIndex | backend/src/metrics.py:75-77 | the clamped index is always in range |
| Metrics.Percentile | backend/src/metrics.py:70-88 | 0 for no samples, otherwise a member of the list |
| Metrics.SmallSamplePercentileIsMax | backend/src/metrics.py:72-73 | under 20 samples the percentile is the maximum |
| Metrics.PercentileMonotone | backend/src/metrics.py:70-88 | p95 never exceeds p99 |
| Metrics.KeptLatency | backend/src/metrics.py:159 | a latency is kept iff defined and non-negative |
| Metrics.WithReception | backend/src/metrics.py:153-166 | received + 1, exactly one of on-time or late + 1, the latency appended iff kept |
| Metrics.ReceptionKeepsConsistent | backend/src/metrics.py:156-166 | on_time + late == received and latencies ≤ received are preserved |
| Metrics.SampledReceptionsCount | backend/src/metrics.py:191 | of n receptions, (n + 9) / 10 satisfy `received % 10 == 1` |
| Metrics.EmptyStats | backend/src/metrics.py:117-119 | fresh stats for every priority |
| Metrics.EmptyHistory | backend/src/metrics.py:130-132 | an empty latency history for every priority |
| Metrics.SumOverUpdate | backend/src/metrics.py:247-249 | updating one priority changes the total by that priority's change |
| Metrics.OnTimeWithinReceived | backend/src/metrics.py:247-249 | total on time never exceeds total received |
| Metrics.MakeSnapshot | backend/src/metrics.py:243-264 | totals are sums over the four priorities; overall rates divide by `max(1, ·)` |
| Metrics.SnapshotOnTimeAtMost100 | backend/src/metrics.py:259 | the overall on-time rate lies in [0, 100] |
| Metrics.Marked | backend/src/metrics.py:149-150 | a packet without a receive time is marked at `now` |
| Metrics.MetricOf | backend/src/metrics.py:168-177 | the recent-packet record of a received packet: its header fields, receive time, on-time verdict, and latency with `None` recorded as 0 (defined here) |
| Metrics.MetricsCollector.constructor | backend/src/metrics.py:112-139 | fresh stats, empty buffers, started at `now` |
| Metrics.MetricsCollector.RecordSent | backend/src/metrics.py:141-144 | only the packet's priority's total grows, by 1 |
| Metrics.MetricsCollector.RecordReceived | backend/src/metrics.py:146-199 | the reception for that priority only, the recent packet, the latency history and the event every tenth reception, each bounded |
| Metrics.MetricsCollector.RecordDropped | backend/src/metrics.py:201-215 | only that priority's dropped count grows; the drop event is appended, bounded |
| Metrics.MetricsCollector.CurrentStats | backend/src/metrics.py:243-264 | the snapshot of the current stats, with on-time rate in [0, 100] |
| Metrics.MetricsCollector.Reset | backend/src/metrics.py:314-324 | fresh stats, empty buffers, restarted at `now` |
| Logger.ExperimentLogger.constructor | backend/src/logger.py:62-84 | empty buffer and events file, count 0 |
| Logger.SentEvent | backend/src/logger.py:102-111 | the 'sent' record: seq, pri name, deadline, batch (defined here) |
| Logger.RecvEvent | backend/src/logger.py:113-122 | the 'recv' record: seq, pri name, latency, on_time (defined here) |
| Logger.DropEvent | backend/src/logger.py:124-132 | the 'drop' record: seq, pri name, reason (defined here) |
| Logger.CongestionEvent | backend/src/logger.py:134-141 | the 'congestion' record: flag and rate (defined here) |
| Logger.CustomEvent | backend/src/logger.py:143-149 | a record of the given type (defined here) |
| Logger.ExperimentLogger.FlushEvents | backend/src/logger.py:178-186 | appends the buffer to the file in order and empties it |
| Logger.ExperimentLogger.BufferEvent | backend/src/logger.py:170-176 | count + 1; the event follows everything logged before; flushes when the buffer reaches its size, so it stays below `buffer_size` |
| Logger.ExperimentLogger.LogPacketSent | backend/src/logger.py:102-111 | logs the 'sent' event |
| Logger.ExperimentLogger.LogPacketReceived | backend/src/logger.py:113-122 | logs the 'recv' event |
| Logger.ExperimentLogger.LogPacketDropped | backend/src/logger.py:124-132 | logs the 'drop' event |
| Logger.ExperimentLogger.LogCongestionEvent | backend/src/logger.py:134-141 | logs the 'congestion' event |
| Logger.ExperimentLogger.LogCustomEvent | backend/src/logger.py:143-149 | logs the custom event |
| Logger.ExperimentLogger.Flush | backend/src/logger.py:192-194 | everything logged is in the file, in order |
| Logger.EventsByType | backend/src/logger.py:270-271 | only events of the type |
| Logger.EventsByTypeMembers | backend/src/logger.py:270-271 | an event is kept iff it is in the log and has the type |
| Logger.EventsByTypeAppend | backend/src/logger.py:270-271 | the filter preserves order |
| Logger.PriKey | backend/src/logger.py:278 | `event.get('pri', 'UNKNOWN')` (defined here) |
| Logger.LatenciesOf | backend/src/logger.py:276-281 | at most one latency per event |
| Logger.LatenciesOfAppend | backend/src/logger.py:276-281 | latencies are gathered in event order |
| Logger.LatencyKeysMeaning | backend/src/logger.py:273-283 | a priority key appears iff it has a latency |
| Logger.GetLatenciesByPriority | backend/src/logger.py:273-283 | keys are the priorities with a latency, each holding its latencies in order |
| Logger.CountFor | backend/src/logger.py:299-319 | bounded by the number of events |
| Logger.CountType | backend/src/logger.py:299-319 | bounded by the number of events |
| Logger.OnTimeFor | backend/src/logger.py:315-316 | on-time receptions never exceed receptions |
| Logger.ReportedKeysMeaning | backend/src/logger.py:321 | a priority is reported iff it has a 'sent' or 'recv' event |
| Logger.LatencyBlockOrdered | backend/src/logger.py:337-345 | p50 ≤ p95 ≤ p99, each a member of the latencies |
| Logger.Rate | backend/src/logger.py:333-334 | num/den, 0 when den is 0 |
| Logger.LatencyBlockOf | backend/src/logger.py:336-345 | median, p50, p95 and p99 of a non-empty latency list (defined here; `LatencyBlockOrdered` states its order) |
| Logger.ReportOf | backend/src/logger.py:321-349 | one `by_priority` entry from its counts and latencies, with rates 0 over a zero denominator (defined here) |
| Logger.Count | backend/src/logger.py:299-319 | one event's effect on the counters of the loop (defined here; `CountExtends` and `TallyEvents` state its meaning) |
| Logger.Bump | backend/src/logger.py:304 | the counter map gains the key only when it counts |
| Logger.CountExtends | backend/src/logger.py:299-319 | one loop step extends the tally to one more event |
| Logger.ReportForCounts | backend/src/logger.py:321-349 | a report from the tally equals the report from the events |
| Logger.TallyEvents | backend/src/logger.py:299-319 | the counting loop tallies every event |
| Logger.ReportAll | backend/src/logger.py:321-349 | one report per key, from the tally |
| Logger.ComputeStatistics | backend/src/logger.py:285-351 | totals are the counts of 'sent'/'recv'/'drop'; keys are exactly the priorities with a 'sent' or 'recv' event; each report is the one computed from the events |
| Client.TotalPackets | backend/src/client.py:40-43 | the sum of the four counts |
| Client.GetCounts | backend/src/client.py:45-51 | each priority maps to its own count |
| Client.ProfileOrder | backend/src/client.py:142-146 | the priorities in dictionary order, each repeated by its count (defined here; `ProfileOrderParts`, `ProfileOrderCounts` and `ProfileOrderLength` state it) |
| Client.Repeat | backend/src/client.py:144 | n copies of the priority |
| Client.RepeatCounts | backend/src/client.py:144 | n copies of p and none of any other priority |
| Client.ProfileOrderParts | backend/src/client.py:142-146 | the priorities in dictionary order, each repeated by its count |
| Client.ProfileOrderCounts | backend/src/client.py:142-146 | each priority appears its count times, none for a non-positive count |
| Client.ProfileOrderLength | backend/src/client.py:142-146 | the schedule has `total_packets` entries for non-negative counts |
| Client.TimeLeIsTotalPreorder | backend/src/client.py:148 | the sort key is a total preorder |
| Client.GenerationSchedule | backend/src/client.py:142-148 | the drawn `(offset, priority)` pairs sorted by time (defined here; `GenerationScheduleSorted` states it) |
| Client.GenerationScheduleSorted | backend/src/client.py:142-148 | the schedule is sorted by time and holds exactly the profile's entries |
| Client.DigitsAreDigits | backend/src/client.py:191 | decimal formatting yields digits |
| Client.DigitsRoundTrip | backend/src/client.py:191 | the digits denote the number |
| Client.IntText | backend/src/client.py:191 | `str(n)`: a minus sign for negatives, then the digits of abs(n) |
| Client.IntTextMeaning | backend/src/client.py:191 | `str(n)` has a '-' iff n is negative, followed by the digits of abs(n) |
| Client.AsciiBytesEncode | backend/src/client.py:191 | encoding ASCII text gives each character's code |
| Client.PayloadIsAscii | backend/src/client.py:191 | the payload 'DTP-<name>-<seq>' is ASCII and encodes character by character |
| Client.PayloadText | backend/src/client.py:191 | `f"DTP-{priority.name}-{seq}"` (defined here; `PayloadIsAscii` states its encoding) |
| Client.GeneratedFlags | backend/src/client.py:199-200 | DROPPABLE iff LOW, and no other flag |
| Client.GeneratedPacket | backend/src/client.py:191-200 | the priority, sequence and flags of a generated packet |
| Client.GeneratedPacketFields | backend/src/client.py:191-200 | DATA, stamped `now`, the default deadline, the payload text and its length |
| Client.AdvancedIsModular | backend/src/client.py:284-288 | k steps of the counter from a value in range is (c + k) mod 65536 |
| Client.AdvancedInRange | backend/src/client.py:284-288 | the counter stays in [0, 65535] |
| Client.AdvancedAdds | backend/src/client.py:284-288 | a steps and then b steps is a + b steps |
| Client.Advanced | backend/src/client.py:284-288 | the counter after k calls of `_next_sequence` (defined here; `AdvancedIsModular` gives its closed form) |
| Client.Numbered | backend/src/client.py:220-235 | one packet per scheduled priority |
| Client.NumberedSnoc | backend/src/client.py:220-235 | one more priority adds one packet numbered after the others |
| Client.NumberedAppend | backend/src/client.py:220-235 | numbering a concatenation continues the counter across the parts |
| Client.NumberedElement | backend/src/client.py:220-235 | the j-th packet has the j-th priority and the counter advanced j times |
| Client.GeneratedNumbering | backend/src/client.py:216-235 | the j-th packet has the j-th priority and sequence (c + j) mod 65536 in [0, 65535] |
| Client.GeneratedRunStep | backend/src/client.py:221-235 | one inner iteration extends the run |
| Client.GeneratedTrafficStep | backend/src/client.py:220-235 | one outer iteration extends the packets by that priority's run |
| Client.Released | backend/src/client.py:185-206 | one packet per released entry |
| Client.ReleasedElement | backend/src/client.py:185-206 | the j-th released packet has the j-th entry's priority and sequence start + j |
| Client.ReleasedStep | backend/src/client.py:185-206 | one iteration of the release loop extends the released packets |
| Client.GenerateRun | backend/src/client.py:221-235 | the inner loop: a run of n packets numbered from the counter, and the advanced counter |
| Client.GenerateAll | backend/src/client.py:220-235 | the outer loop: the packets of the whole profile in order, and the advanced counter |
| Client.CollectDue | backend/src/client.py:185-206 | releases exactly the entries due at `current_time` from `packet_index`, stopping at the first future one, numbered consecutively |
| Client.NothingDueAfterPass | backend/src/client.py:182-189 | on a sorted schedule nothing after the stopping entry is due |
| Client.DTPClient.constructor | backend/src/client.py:57-86 | fresh schedulers, counter 0, default profile, nothing to send |
| Client.DTPClient.SetMode | backend/src/client.py:88-93 | a fresh scheduler for the new mode |
| Client.DTPClient.RunSimulation | backend/src/client.py:128-136 | the given profile if any; `packets_to_send` is its total, `packets_sent` 0 |
| Client.DTPClient.NextSequence | backend/src/client.py:284-288 | returns the counter and advances it modulo 65536; everything is in [0, 65535] |
| Client.DTPClient.GenerateTraffic | backend/src/client.py:216-238 | the profile's packets in generation order, numbered consecutively modulo 65536 from the counter, which ends advanced by their number |
| Client.DTPClient.Progress | backend/src/client.py:296-300 | 0 when nothing is to be sent, else sent/total, within [0, 1] while sent ≤ total |
| Client.DTPClient.Offer | backend/src/client.py:202 | `enqueue` on the scheduler of the mode with that scheduler's full outcome (acceptance condition, queue contents, eviction, counters and enqueue order); the frame names only the queue and counter fields of the two schedulers, and the other scheduler's queue and counters are stated unchanged |
| Client.DTPClient.Release | backend/src/client.py:202-203 | the packet is offered and counted as sent at its priority only; in Dtp mode the heap's full `enqueue` outcome (refusal, first-lowest eviction, new multiset, counters); in UdpRaw mode the FIFO appends it iff it has room, else counts a drop; the other scheduler's queue and counters are unchanged; of the metrics only `stats` may change |
| Client.DTPClient.ReleaseDue | backend/src/client.py:185-206 | one release pass: the due entries, consecutively numbered, each offered to the scheduler of the mode and counted as sent at its priority; in UdpRaw mode the FIFO queue gains exactly the first packets that fit and counts the rest as dropped; the other scheduler's queue and counters are unchanged; field frames leave every other field alone |
| Client.DTPClient.ReleaseAll | backend/src/client.py:202-203 | offers and records each packet in order: per-priority sent totals grow by the packets of that priority; in UdpRaw mode the queue becomes the old queue plus the first `min(n, room)` packets, with exact enqueued and dropped counts; in Dtp mode every packet is enqueued or dropped; the other scheduler's queue and counters are unchanged |
| Client.SentAll | backend/src/metrics.py:141-144 | the statistics after `record_sent` of each packet in turn; every priority keeps an entry |
| Client.SentAllCounts | backend/src/metrics.py:141-144 | recording the packets raises each priority's sent total by exactly the number of packets of that priority |
| Client.DTPClient.ReleaseDtp | backend/src/client.py:202-203 | one packet with the deadline-aware scheduler: the heap's full `enqueue` outcome (`DtpEnqueueOutcome`: refusal, first-lowest eviction, new multiset, counters), enqueue order tracking `enqueued`, the FIFO scheduler unchanged, and the stats `SentOne` of the packet |
| Client.DTPClient.ReleaseFifo | backend/src/client.py:202-203 | one packet with the FIFO scheduler: appended iff below `max_size`, else a counted drop; the heap's queue, counters and enqueue order unchanged; the stats `SentOne` of the packet |
| Client.SentOne | backend/src/metrics.py:141-144 | `record_sent`: the packet's priority has one more packet sent, and every other priority is unchanged |
| Client.DTPClient.ReleaseAllDtp | backend/src/client.py:202-203 | the pass with the deadline-aware scheduler: the stats become `SentAll` of the packets, each packet is enqueued or dropped, and the FIFO scheduler's queue and counters are unchanged |
| Client.DTPClient.ReleaseAllFifo | backend/src/client.py:202-203 | the pass with the FIFO scheduler: the stats become `SentAll` of the packets, the queue becomes `FifoQueue` of the packets with the enqueued and dropped counts matching, and the heap's queue, counters and enqueue order are unchanged |
| Client.FifoQueue | backend/src/scheduler.py:211-220 | the FIFO queue after `enqueue` of each packet in turn, appending below `max_size` and dropping otherwise; it grows by at most one place per packet |
| Client.FifoQueueStep | backend/src/scheduler.py:211-220 | one `enqueue` extends the fold by the next packet |
| Client.FifoQueueTakesPrefix | backend/src/scheduler.py:211-220 | with `room` free places, the fold is the old queue followed by the first `min(n, room)` packets |
| Client.SentAllStep | backend/src/metrics.py:141-144 | one `record_sent` extends the fold `SentAll` by the next packet |
| Client.SentAllSum | backend/src/metrics.py:141-144 | recording the packets raises the sum of the sent totals by the number of packets |
| Client.DTPClient.HandleResponse | backend/src/client.py:261-277 | CONGESTION sets the scheduler congested; any other decoded packet or undecodable data changes nothing |
| Client.DTPClient.ClearCongestion | backend/src/client.py:279-282 | clears congestion on the scheduler of the mode |
| Client.DTPClient.Stop | backend/src/client.py:116-126 | stops and clears the scheduler of the mode |

## Left out

- **Concurrency.** Locks and threads are not modelled: the client's sender and receive loops, the server's serve loop and the congestion `Timer`.
- **Sockets.** Socket I/O, timeouts and `sleep` are not modelled. A sync round's observed reply and `t4` are parameters (`Observation`). `Pacer.WaitForNextSlot` takes the wake-up time as a parameter.
- **Waiting loops.** `TokenBucket.try_consume_or_wait` and `CongestionController.wait_for_token` poll with sleeps, so they are left out.
- **Randomness.**
  - The generation schedule's time offsets from `random.uniform` are a parameter.
  - The final `random.shuffle` of `_generate_traffic` is left out: `GenerateTraffic` returns the packets in generation order.
- **Floating point.**
  - Rates, tokens and offsets are `real`, without IEEE rounding.
  - `int(n*0.95)` is `n*95/100`.
  - The `'>f'` congestion payload of `create_congestion` is not modelled.
  - `mean` and `stdev` are omitted from the latency blocks of `compute_statistics` (`backend/src/logger.py:340`, `:346-347`). `PriorityStats.avg_latency` is modelled as the exact mean (`Metrics.AvgLatency`), without float rounding.
- **Serialisation and files.** JSON encoding and decoding and file handles are not modelled. The events file is a sequence of records.
- **Logger output not modelled.** `log_config`, `log_parameters`, `log_summary`, `log_priority_stats`, `read_config` and `read_summary` are left out. So are the extra keyword fields of `log_custom_event`.
- **Stats dictionaries.** The `get_stats` and `to_dict` dictionaries, `MetricsCollector.record_event`, `_update_throughput` with the throughput history, and the chart getters are left out. The model keeps the counters those read.
- **No-ops and simple accessors.**
  - `SimpleScheduler.flush_all` is `pass` in the code, so there is nothing to model.
  - `create_ack`, `get_priority_emoji`, `receive_time` and `reset_reference_time` are left out. The last writes a global that no clock read uses.
  - `set_profile`, `pause`, `resume`, `is_running`, `is_sending` and the simple property getters are left out.
- **Client scheduler.** The client holds both schedulers and uses the one its mode names. The code keeps only the current one.
- **Aliasing.** Packets are values. `_flush_batch` and `mark_received` stamp the packet objects in place; the model returns stamped copies, so aliasing between the batch and the packets the caller still holds is not captured.
- **Release loop order.**
  - The simulation loop's local `seq` is not reduced modulo 65536 in the code. `CollectDue` numbers released packets `start + j` without wrapping, as the code does.
  - `ReleaseDue` first collects the due packets, then offers and records each in order. The code interleaves the two per packet. The objects touched are independent, so the resulting state is the same.
  - One `now` stands for the whole pass. The code reads the clock again for every packet, in `create_data` and in `enqueue` (`backend/src/client.py:192-202`, `backend/src/scheduler.py:62-72`), so within a pass the packets' timestamps and the heap's deadline keys may differ by the time the pass takes.
- Client.DTPClient.ReleaseAll: in Dtp mode the heap's contents after a pass are not given, only that every packet was either enqueued or dropped, and that the enqueue order advanced with each accepted packet. `Offer` gives the heap's exact multiset for one packet. In UdpRaw mode the FIFO queue's contents are exact.
- Client.DTPClient.ReleaseDue: in Dtp mode the heap's contents after a pass are not given, for the same reason as `ReleaseAll`, which it calls. Each push may evict the first lowest entry, and which entry that is depends on the heap's array layout after the earlier pushes. The contract states only the multiset outcome of each push.
- Client.DTPClient.ReleaseAllDtp: the same gap as `ReleaseAll` in Dtp mode. It states that every packet was either enqueued or dropped, and that the enqueue order advanced with each accepted packet, but not the heap's contents. The evictions of a pass depend on the array layout, which the contract does not fix.
- Client.DTPClient.GenerateTraffic: advances the counter once by the number of packets, rather than calling `NextSequence` per packet. The numbering is the same, because `NextSequence` advances the counter by exactly one step (`Advanced(sequence, 1)`).
- Client.AsciiBytes: takes each character's low 8 bits. This equals `str.encode()` on ASCII text, and `PayloadIsAscii` shows the payload is ASCII.
- RateControl.Pacer.constructor: requires a non-zero rate. `Pacer(0)` raises `ZeroDivisionError` in `__init__`, so no pacer exists to model.
- Scheduler.DTPScheduler.Dequeue: names the served and discarded entries through ghost out-parameters. The packet returned is stated through them.
