/** Rate limiting and congestion control (backend/src/rate_control.py): a
    lazily refilled token bucket, per-priority admission control over
    token buckets, an AIMD congestion controller with a pacing bucket, and
    a fixed-interval pacer. Rates and token counts are reals; every clock
    read is a `now` argument. */
module RateControl {
  import opened Wrappers
  import opened Numeric
  import opened Protocol

  /** A bucket's mutable state: tokens, the time of the last refill, and
      the consumed and rejected totals. */
  datatype BucketState = BucketState(tokens: real, lastUpdate: int, consumed: int, rejected: int)

  /** The token count `_refill` leaves at time `now`: `elapsed / 1000 * rate`
      tokens are added, capped at `burst`, but only when the clock has
      advanced since the last refill. */
  function RefilledTokens(tokens: real, rate: real, burst: int, last: int, now: int): real
  {
    if now - last > 0 then MinReal(burst as real, tokens + (now - last) as real / 1000.0 * rate)
    else tokens
  }

  /** The last-update time after `_refill` at `now`. */
  function RefilledAt(last: int, now: int): int
  {
    if now - last > 0 then now else last
  }

  /** `consume(n)` at time `now`: refill, then take n tokens if that many
      are available, counting them as consumed or as rejected. */
  function ConsumeStep(s: BucketState, rate: real, burst: int, n: int, now: int): (r: (bool, BucketState))
    ensures var avail := RefilledTokens(s.tokens, rate, burst, s.lastUpdate, now);
      (r.0 <==> avail >= n as real) &&
      r.1.lastUpdate == RefilledAt(s.lastUpdate, now) &&
      (r.0 ==> r.1.tokens == avail - n as real && r.1.consumed == s.consumed + n && r.1.rejected == s.rejected) &&
      (!r.0 ==> r.1.tokens == avail && r.1.consumed == s.consumed && r.1.rejected == s.rejected + n)
  {
    var avail := RefilledTokens(s.tokens, rate, burst, s.lastUpdate, now);
    var last := RefilledAt(s.lastUpdate, now);
    if avail >= n as real then (true, BucketState(avail - n as real, last, s.consumed + n, s.rejected))
    else (false, BucketState(avail, last, s.consumed, s.rejected + n))
  }

  /** The tokens `rate` earns between two clock readings. */
  function Earned(rate: real, from: int, to: int): real
  {
    (to - from) as real / 1000.0 * rate
  }

  lemma EarnedAdds(rate: real, a: int, b: int, c: int)
    ensures Earned(rate, a, c) == Earned(rate, a, b) + Earned(rate, b, c)
  {
    assert (c - a) as real == (b - a) as real + (c - b) as real;
  }

  /** With a non-negative rate, a refill never loses tokens below the
      smaller of the current count and the burst, never goes past the burst
      once it has added anything, and adds at most `elapsed / 1000 * rate`. */
  lemma RefillBounds(tokens: real, rate: real, burst: int, last: int, now: int)
    requires rate >= 0.0
    ensures var r := RefilledTokens(tokens, rate, burst, last, now);
      r >= MinReal(tokens, burst as real) &&
      (tokens <= burst as real ==> tokens <= r <= burst as real) &&
      (now > last ==> r <= burst as real && r <= tokens + (now - last) as real / 1000.0 * rate) &&
      (now <= last ==> r == tokens)
  {
  }

  /** Refilling is path independent: refilling at `mid` and then at `now`
      gives the same tokens as one refill at `now`. */
  lemma RefillComposes(tokens: real, rate: real, burst: int, last: int, mid: int, now: int)
    requires rate >= 0.0 && last <= mid <= now
    ensures RefilledAt(last, mid) == mid
    ensures RefilledTokens(RefilledTokens(tokens, rate, burst, last, mid), rate, burst, mid, now) ==
            RefilledTokens(tokens, rate, burst, last, now)
  {
    if last < mid < now {
      var a := (mid - last) as real / 1000.0 * rate;
      var b := (now - mid) as real / 1000.0 * rate;
      assert (now - last) as real / 1000.0 * rate == a + b;
      assert b >= 0.0;
    }
  }

  /** One `consume`: the tokens left plus the tokens handed out never
      exceed the tokens held before plus what the elapsed time earns. */
  lemma ConsumeEarnsAtMostRate(s: BucketState, rate: real, burst: int, n: int, now: int)
    requires rate >= 0.0
    ensures var r := ConsumeStep(s, rate, burst, n, now).1;
      r.lastUpdate >= s.lastUpdate &&
      r.tokens + (r.consumed - s.consumed) as real <= s.tokens + Earned(rate, s.lastUpdate, r.lastUpdate)
  {
    RefillBounds(s.tokens, rate, burst, s.lastUpdate, now);
  }

  /** A run of `consume(n)` calls at the given times, in order. */
  function ConsumeRun(s: BucketState, rate: real, burst: int, calls: seq<(int, int)>): (r: BucketState)
    decreases |calls|
  {
    if calls == [] then s
    else ConsumeRun(ConsumeStep(s, rate, burst, calls[0].0, calls[0].1).1, rate, burst, calls[1..])
  }

  /** The long-run bound a token bucket exists for: over any run of calls,
      the tokens handed out are at most the tokens held at the start plus
      `rate` tokens per second of elapsed time (measured from the first to
      the last refill). Starting from at most `burst` tokens, no run gets
      more than `burst + rate * elapsed / 1000`. */
  lemma {:induction false} ConsumeRunBound(s: BucketState, rate: real, burst: int, calls: seq<(int, int)>)
    requires rate >= 0.0
    ensures var r := ConsumeRun(s, rate, burst, calls);
      r.lastUpdate >= s.lastUpdate &&
      r.tokens + (r.consumed - s.consumed) as real <= s.tokens + Earned(rate, s.lastUpdate, r.lastUpdate)
    decreases |calls|
  {
    if calls != [] {
      var m := ConsumeStep(s, rate, burst, calls[0].0, calls[0].1).1;
      ConsumeEarnsAtMostRate(s, rate, burst, calls[0].0, calls[0].1);
      ConsumeRunBound(m, rate, burst, calls[1..]);
      var r := ConsumeRun(m, rate, burst, calls[1..]);
      assert r == ConsumeRun(s, rate, burst, calls);
      EarnedAdds(rate, s.lastUpdate, m.lastUpdate, r.lastUpdate);
    }
  }

  /** With a non-negative rate and burst, `consume` never drives a
      non-negative token count negative, whatever it is asked for. */
  lemma ConsumeKeepsNonNegative(s: BucketState, rate: real, burst: int, n: int, now: int)
    requires rate >= 0.0 && burst >= 0 && s.tokens >= 0.0
    ensures ConsumeStep(s, rate, burst, n, now).1.tokens >= 0.0
  {
    RefillBounds(s.tokens, rate, burst, s.lastUpdate, now);
  }

  class TokenBucket {
    const rate: real
    const burst: int
    var tokens: real
    var lastUpdate: int
    var totalConsumed: int
    var totalRejected: int

    function State(): BucketState
      reads this
    {
      BucketState(tokens, lastUpdate, totalConsumed, totalRejected)
    }

    /** `TokenBucket(rate, burst, initial)`: the bucket starts with
        `initial` tokens, or `burst` when none is given. */
    constructor(rate: real, burst: int, initial: Option<int>, now: int)
      ensures this.rate == rate && this.burst == burst
      ensures State() == BucketState((if initial.Some? then initial.value else burst) as real, now, 0, 0)
    {
      this.rate := rate;
      this.burst := burst;
      tokens := (if initial.Some? then initial.value else burst) as real;
      lastUpdate := now;
      totalConsumed := 0;
      totalRejected := 0;
    }

    /** `_refill` */
    method Refill(now: int)
      modifies this`tokens, this`lastUpdate
      ensures tokens == RefilledTokens(old(tokens), rate, burst, old(lastUpdate), now)
      ensures lastUpdate == RefilledAt(old(lastUpdate), now)
    {
      var elapsed := now - lastUpdate;
      if elapsed > 0 {
        var added := elapsed as real / 1000.0 * rate;
        tokens := MinReal(burst as real, tokens + added);
        lastUpdate := now;
      }
    }

    /** `consume(n)` */
    method Consume(n: int, now: int) returns (ok: bool)
      modifies this`tokens, this`lastUpdate, this`totalConsumed, this`totalRejected
      ensures (ok, State()) == ConsumeStep(old(State()), rate, burst, n, now)
    {
      Refill(now);
      if tokens >= n as real {
        tokens := tokens - n as real;
        totalConsumed := totalConsumed + n;
        return true;
      } else {
        totalRejected := totalRejected + n;
        return false;
      }
    }

    /** `available_tokens`: the token count after a refill. */
    method AvailableTokens(now: int) returns (t: real)
      modifies this`tokens, this`lastUpdate
      ensures t == tokens == RefilledTokens(old(tokens), rate, burst, old(lastUpdate), now)
      ensures lastUpdate == RefilledAt(old(lastUpdate), now)
    {
      Refill(now);
      t := tokens;
    }

    /** `reset`: the bucket is full again; the totals are kept. */
    method Reset(now: int)
      modifies this`tokens, this`lastUpdate
      ensures tokens == burst as real && lastUpdate == now
    {
      tokens := burst as real;
      lastUpdate := now;
    }
  }

  /** `TokenBucketConfig` */
  datatype BucketConfig = BucketConfig(rate: real, burst: int, initial: Option<int>)

  /** CRITICAL 50/s burst 20, HIGH 200/s burst 50, MEDIUM 500/s burst 100,
      LOW 1000/s burst 200. */
  function DefaultLimits(): (m: map<Priority, BucketConfig>)
    ensures forall p :: p in m
  {
    var m := map[Critical := BucketConfig(50.0, 20, None),
                 High := BucketConfig(200.0, 50, None),
                 Medium := BucketConfig(500.0, 100, None),
                 Low := BucketConfig(1000.0, 200, None)];
    KeyedByEveryPriority(m);
    m
  }

  /** `limits or DEFAULT_LIMITS`: an empty mapping counts as none. */
  function EffectiveLimits(limits: map<Priority, BucketConfig>): (m: map<Priority, BucketConfig>)
    ensures limits != map[] ==> m == limits
    ensures limits == map[] ==> forall p :: p in m && m[p] == DefaultLimits()[p]
  {
    if limits == map[] then DefaultLimits() else limits
  }

  datatype AdmissionStats = AdmissionStats(admitted: nat, rejected: nat)

  function ZeroStats(): (m: map<Priority, AdmissionStats>)
    ensures forall p :: p in m && m[p] == AdmissionStats(0, 0)
  {
    var z := AdmissionStats(0, 0);
    var m := map[Critical := z, High := z, Medium := z, Low := z];
    KeyedByEveryPriority(m);
    m
  }

  class AdmissionController {
    const limits: map<Priority, BucketConfig>
    const enableCriticalLimit: bool
    const buckets: map<Priority, TokenBucket>
    var stats: map<Priority, AdmissionStats>

    /** One bucket per configured priority, no two priorities sharing a
        bucket, and statistics for every priority. */
    ghost predicate Valid()
      reads this
    {
      buckets.Keys == limits.Keys &&
      (forall p, q :: p in buckets && q in buckets && p != q ==> buckets[p] != buckets[q]) &&
      (forall p :: p in stats)
    }

    constructor(limits: map<Priority, BucketConfig>, enableCriticalLimit: bool, now: int)
      ensures Valid()
      ensures this.limits == EffectiveLimits(limits) && this.enableCriticalLimit == enableCriticalLimit
      ensures forall p :: p in buckets ==>
        fresh(buckets[p]) && buckets[p].rate == this.limits[p].rate && buckets[p].burst == this.limits[p].burst &&
        buckets[p].State() == BucketState(
          (if this.limits[p].initial.Some? then this.limits[p].initial.value else this.limits[p].burst) as real, now, 0, 0)
      ensures stats == ZeroStats()
    {
      var lim := EffectiveLimits(limits);
      var bs: map<Priority, TokenBucket> := map[];
      for i := 0 to 4
        invariant bs.Keys == set j | 0 <= j < i && ALL_PRIORITIES[j] in lim :: ALL_PRIORITIES[j]
        invariant forall p, q :: p in bs && q in bs && p != q ==> bs[p] != bs[q]
        invariant forall p :: p in bs ==>
          fresh(bs[p]) && bs[p].rate == lim[p].rate && bs[p].burst == lim[p].burst &&
          bs[p].State() == BucketState((if lim[p].initial.Some? then lim[p].initial.value else lim[p].burst) as real, now, 0, 0)
      {
        var p := ALL_PRIORITIES[i];
        if p in lim {
          var b := new TokenBucket(lim[p].rate, lim[p].burst, lim[p].initial, now);
          bs := bs[p := b];
        }
      }
      forall p | p in lim ensures p in bs {
        AllPrioritiesByValue(p);
        assert ALL_PRIORITIES[p.Value()] == p;
      }
      this.limits := lim;
      this.enableCriticalLimit := enableCriticalLimit;
      buckets := bs;
      stats := ZeroStats();
    }

    /** `admit`: CRITICAL passes uncounted by a bucket when its limit is
        disabled; a priority without a bucket passes and is not counted;
        otherwise the answer is one `consume()` of that priority's bucket,
        counted as admitted or as rejected. */
    method Admit(priority: Priority, now: int) returns (ok: bool)
      requires Valid()
      modifies this`stats, if priority in buckets then {buckets[priority]} else {}
      ensures Valid()
      ensures var s := old(stats)[priority];
        if priority == Critical && !enableCriticalLimit then
          ok && stats == old(stats)[priority := s.(admitted := s.admitted + 1)] &&
          (priority in buckets ==> buckets[priority].State() == old(buckets[priority].State()))
        else if priority !in buckets then
          ok && stats == old(stats)
        else
          var b := buckets[priority];
          (ok, b.State()) == ConsumeStep(old(b.State()), b.rate, b.burst, 1, now) &&
          stats == old(stats)[priority := if ok then s.(admitted := s.admitted + 1) else s.(rejected := s.rejected + 1)]
    {
      var s := stats[priority];
      if priority == Critical && !enableCriticalLimit {
        stats := stats[priority := s.(admitted := s.admitted + 1)];
        return true;
      }
      if priority !in buckets {
        return true;
      }
      ok := buckets[priority].Consume(1, now);
      if ok {
        stats := stats[priority := s.(admitted := s.admitted + 1)];
      } else {
        stats := stats[priority := s.(rejected := s.rejected + 1)];
      }
    }

    /** `reset`: every bucket is full again and every count is zero. */
    method Reset(now: int)
      requires Valid()
      modifies this`stats, buckets.Values
      ensures Valid()
      ensures forall p :: p in buckets ==> buckets[p].tokens == buckets[p].burst as real && buckets[p].lastUpdate == now
      ensures forall p :: p in buckets ==>
        buckets[p].totalConsumed == old(buckets[p].totalConsumed) && buckets[p].totalRejected == old(buckets[p].totalRejected)
      ensures stats == ZeroStats()
    {
      for i := 0 to 4
        invariant forall p :: p in buckets ==>
          buckets[p].totalConsumed == old(buckets[p].totalConsumed) && buckets[p].totalRejected == old(buckets[p].totalRejected)
        invariant forall j :: 0 <= j < i && ALL_PRIORITIES[j] in buckets ==>
          buckets[ALL_PRIORITIES[j]].tokens == buckets[ALL_PRIORITIES[j]].burst as real &&
          buckets[ALL_PRIORITIES[j]].lastUpdate == now
      {
        var p := ALL_PRIORITIES[i];
        if p in buckets {
          buckets[p].Reset(now);
        }
      }
      forall p | p in buckets
        ensures buckets[p].tokens == buckets[p].burst as real && buckets[p].lastUpdate == now
      {
        AllPrioritiesByValue(p);
      }
      stats := ZeroStats();
    }
  }

  const ACK_WINDOW: int := 10
  const WINDOW_SIZE_MS: int := 1000
  const DECREASE_COOLDOWN_MS: int := 500

  /** Additive increase, capped at the maximum rate. */
  function Increased(rate: real, step: real, maxRate: real): real
  {
    MinReal(maxRate, rate + step)
  }

  /** Multiplicative decrease by `factor`, floored at the minimum rate. */
  function Decreased(rate: real, factor: real, minRate: real): real
  {
    MaxReal(minRate, rate * (1.0 - factor))
  }

  /** The pacing bucket's burst after a rate change: `max(10, int(rate/10))`. */
  function PacingBurst(rate: real): int
  {
    MaxInt(10, Trunc(rate / 10.0))
  }

  /** From a rate inside [minRate, maxRate], an increase by a non-negative
      step and a decrease by a non-negative factor stay inside, the increase
      never lowers the rate and the decrease never raises it. */
  lemma AimdStaysInBand(rate: real, minRate: real, maxRate: real, step: real, factor: real)
    requires 0.0 <= minRate <= rate <= maxRate && step >= 0.0 && factor >= 0.0
    ensures rate <= Increased(rate, step, maxRate) && minRate <= Increased(rate, step, maxRate) <= maxRate
    ensures Decreased(rate, factor, minRate) <= rate && minRate <= Decreased(rate, factor, minRate) <= maxRate
  {
    assert rate * (1.0 - factor) == rate - rate * factor;
    assert rate * factor >= 0.0;
  }

  /** The pacing burst is at least 10 and at least the truncated tenth of
      the rate; for rates of 100 or more it is exactly that tenth. */
  lemma PacingBurstBounds(rate: real)
    ensures PacingBurst(rate) >= 10 && PacingBurst(rate) >= Trunc(rate / 10.0)
    ensures rate >= 100.0 ==> PacingBurst(rate) == Trunc(rate / 10.0)
  {
  }

  /** A freshly made pacing bucket for `rate` and `burst`, full at `now`. */
  ghost predicate FreshPacing(b: TokenBucket, rate: real, burst: int, now: int)
    reads b
  {
    b.rate == rate && b.burst == burst && b.State() == BucketState(burst as real, now, 0, 0)
  }

  class CongestionController {
    const initialRate: real
    const minRate: real
    const maxRate: real
    const additiveIncrease: real
    const multiplicativeDecrease: real
    const lossThreshold: real
    var currentRate: real
    var pacingBucket: TokenBucket
    var sentCount: nat
    var ackCount: int
    var lossCount: int
    var windowStart: int
    var congested: bool
    var lastDecreaseTime: int

    /** The rate lies in [minRate, maxRate], and the AIMD parameters move
        it only toward those bounds. */
    predicate InBand()
      reads this
    {
      0.0 <= minRate <= currentRate <= maxRate && additiveIncrease >= 0.0 && multiplicativeDecrease >= 0.0
    }

    constructor(initialRate: real, minRate: real, maxRate: real, additiveIncrease: real,
                multiplicativeDecrease: real, lossThreshold: real, now: int)
      ensures this.initialRate == initialRate && this.minRate == minRate && this.maxRate == maxRate
      ensures this.additiveIncrease == additiveIncrease && this.multiplicativeDecrease == multiplicativeDecrease
      ensures this.lossThreshold == lossThreshold
      ensures currentRate == initialRate && fresh(pacingBucket)
      ensures FreshPacing(pacingBucket, initialRate, Trunc(initialRate / 10.0), now)
      ensures sentCount == 0 && ackCount == 0 && lossCount == 0 && windowStart == now
      ensures !congested && lastDecreaseTime == 0
    {
      this.initialRate := initialRate;
      this.minRate := minRate;
      this.maxRate := maxRate;
      this.additiveIncrease := additiveIncrease;
      this.multiplicativeDecrease := multiplicativeDecrease;
      this.lossThreshold := lossThreshold;
      currentRate := initialRate;
      pacingBucket := new TokenBucket(initialRate, Trunc(initialRate / 10.0), None, now);
      sentCount, ackCount, lossCount := 0, 0, 0;
      windowStart := now;
      congested := false;
      lastDecreaseTime := 0;
    }

    /** `can_send`: one `consume()` of the pacing bucket. */
    method CanSend(now: int) returns (ok: bool)
      modifies pacingBucket
      ensures (ok, pacingBucket.State()) == ConsumeStep(old(pacingBucket.State()), pacingBucket.rate, pacingBucket.burst, 1, now)
    {
      ok := pacingBucket.Consume(1, now);
    }

    /** `on_packet_sent` */
    method OnPacketSent()
      modifies this`sentCount
      ensures sentCount == old(sentCount) + 1
    {
      sentCount := sentCount + 1;
    }

    /** `_update_bucket`: a new full pacing bucket for the current rate. */
    method UpdateBucket(now: int)
      modifies this`pacingBucket
      ensures fresh(pacingBucket) && FreshPacing(pacingBucket, currentRate, PacingBurst(currentRate), now)
    {
      pacingBucket := new TokenBucket(currentRate, PacingBurst(currentRate), None, now);
    }

    /** `_increase_rate`: additive increase, only while not congested. */
    method IncreaseRate(now: int)
      modifies this`currentRate, this`pacingBucket
      ensures old(InBand()) ==> InBand()
      ensures congested ==> currentRate == old(currentRate) && pacingBucket == old(pacingBucket)
      ensures !congested ==>
        currentRate == Increased(old(currentRate), additiveIncrease, maxRate) &&
        fresh(pacingBucket) && FreshPacing(pacingBucket, currentRate, PacingBurst(currentRate), now)
    {
      if !congested {
        if InBand() {
          AimdStaysInBand(currentRate, minRate, maxRate, additiveIncrease, multiplicativeDecrease);
        }
        currentRate := Increased(currentRate, additiveIncrease, maxRate);
        UpdateBucket(now);
      }
    }

    /** `on_ack_received(count)`: once ten acknowledgements have gathered,
        the rate is increased and the count starts over. */
    method OnAckReceived(count: int, now: int)
      modifies this`ackCount, this`currentRate, this`pacingBucket
      ensures old(InBand()) ==> InBand()
      ensures var acks := old(ackCount) + count;
        (acks < ACK_WINDOW ==>
          ackCount == acks && currentRate == old(currentRate) && pacingBucket == old(pacingBucket)) &&
        (acks >= ACK_WINDOW ==> (ackCount == 0 &&
          (congested ==> currentRate == old(currentRate) && pacingBucket == old(pacingBucket)) &&
          (!congested ==> (currentRate == Increased(old(currentRate), additiveIncrease, maxRate) &&
            fresh(pacingBucket) && FreshPacing(pacingBucket, currentRate, PacingBurst(currentRate), now)))))
    {
      ackCount := ackCount + count;
      if ackCount >= ACK_WINDOW {
        IncreaseRate(now);
        ackCount := 0;
      }
    }

    /** `_check_and_decrease`: once the 1000 ms window has elapsed, a loss
        ratio above the threshold halves the rate (by the decrease factor)
        unless a decrease happened within the cooldown, a window with sends
        and no excess loss clears congestion, and the window starts over. */
    method CheckAndDecrease(now: int)
      modifies this`currentRate, this`pacingBucket, this`congested, this`lastDecreaseTime
      modifies this`sentCount, this`ackCount, this`lossCount, this`windowStart
      ensures old(InBand()) ==> InBand()
      ensures now - old(windowStart) < WINDOW_SIZE_MS ==>
        currentRate == old(currentRate) && pacingBucket == old(pacingBucket) && congested == old(congested) &&
        lastDecreaseTime == old(lastDecreaseTime) && sentCount == old(sentCount) && ackCount == old(ackCount) &&
        lossCount == old(lossCount) && windowStart == old(windowStart)
      ensures now - old(windowStart) >= WINDOW_SIZE_MS ==>
        var total := old(sentCount);
        var lossy := total > 0 && old(lossCount) as real / total as real > lossThreshold;
        var cooled := now - old(lastDecreaseTime) > DECREASE_COOLDOWN_MS;
        sentCount == 0 && ackCount == 0 && lossCount == 0 && windowStart == now &&
        (lossy && cooled ==>
          currentRate == Decreased(old(currentRate), multiplicativeDecrease, minRate) && congested &&
          lastDecreaseTime == now && fresh(pacingBucket) &&
          FreshPacing(pacingBucket, currentRate, PacingBurst(currentRate), now)) &&
        (!(lossy && cooled) ==>
          currentRate == old(currentRate) && pacingBucket == old(pacingBucket) &&
          lastDecreaseTime == old(lastDecreaseTime)) &&
        (lossy && !cooled ==> congested == old(congested)) &&
        (total > 0 && !lossy ==> !congested) &&
        (total == 0 ==> congested == old(congested))
    {
      if now - windowStart >= WINDOW_SIZE_MS {
        var total := sentCount;
        if total > 0 {
          var lossRate := lossCount as real / total as real;
          if lossRate > lossThreshold {
            if now - lastDecreaseTime > DECREASE_COOLDOWN_MS {
              if InBand() {
                AimdStaysInBand(currentRate, minRate, maxRate, additiveIncrease, multiplicativeDecrease);
              }
              currentRate := Decreased(currentRate, multiplicativeDecrease, minRate);
              UpdateBucket(now);
              congested := true;
              lastDecreaseTime := now;
            }
          } else {
            congested := false;
          }
        }
        sentCount := 0;
        ackCount := 0;
        lossCount := 0;
        windowStart := now;
      }
    }

    /** `on_loss_detected(count)`: the losses are counted, then the window
        is checked. */
    method OnLossDetected(count: int, now: int)
      modifies this`currentRate, this`pacingBucket, this`congested, this`lastDecreaseTime
      modifies this`sentCount, this`ackCount, this`lossCount, this`windowStart
      ensures old(InBand()) ==> InBand()
      ensures now - old(windowStart) < WINDOW_SIZE_MS ==>
        lossCount == old(lossCount) + count &&
        currentRate == old(currentRate) && pacingBucket == old(pacingBucket) && congested == old(congested) &&
        lastDecreaseTime == old(lastDecreaseTime) && sentCount == old(sentCount) && ackCount == old(ackCount) &&
        windowStart == old(windowStart)
      ensures now - old(windowStart) >= WINDOW_SIZE_MS ==>
        var total := old(sentCount);
        var lossy := total > 0 && (old(lossCount) + count) as real / total as real > lossThreshold;
        var cooled := now - old(lastDecreaseTime) > DECREASE_COOLDOWN_MS;
        sentCount == 0 && ackCount == 0 && lossCount == 0 && windowStart == now &&
        (lossy && cooled ==>
          currentRate == Decreased(old(currentRate), multiplicativeDecrease, minRate) && congested &&
          lastDecreaseTime == now && fresh(pacingBucket) &&
          FreshPacing(pacingBucket, currentRate, PacingBurst(currentRate), now)) &&
        (!(lossy && cooled) ==>
          currentRate == old(currentRate) && pacingBucket == old(pacingBucket) &&
          lastDecreaseTime == old(lastDecreaseTime)) &&
        (lossy && !cooled ==> congested == old(congested)) &&
        (total > 0 && !lossy ==> !congested) &&
        (total == 0 ==> congested == old(congested))
    {
      lossCount := lossCount + count;
      CheckAndDecrease(now);
    }

    /** `on_timeout`: outside the cooldown, a decrease by one and a half
        times the factor, and the controller is marked congested. */
    method OnTimeout(now: int)
      modifies this`currentRate, this`pacingBucket, this`congested, this`lastDecreaseTime
      ensures old(InBand()) ==> InBand()
      ensures now - old(lastDecreaseTime) > DECREASE_COOLDOWN_MS ==>
        currentRate == Decreased(old(currentRate), multiplicativeDecrease * 1.5, minRate) &&
        congested && lastDecreaseTime == now && fresh(pacingBucket) &&
        FreshPacing(pacingBucket, currentRate, PacingBurst(currentRate), now)
      ensures now - old(lastDecreaseTime) <= DECREASE_COOLDOWN_MS ==>
        currentRate == old(currentRate) && pacingBucket == old(pacingBucket) &&
        congested == old(congested) && lastDecreaseTime == old(lastDecreaseTime)
    {
      if now - lastDecreaseTime > DECREASE_COOLDOWN_MS {
        if InBand() {
          AimdStaysInBand(currentRate, minRate, maxRate, additiveIncrease, multiplicativeDecrease * 1.5);
        }
        currentRate := Decreased(currentRate, multiplicativeDecrease * 1.5, minRate);
        UpdateBucket(now);
        congested := true;
        lastDecreaseTime := now;
      }
    }

    /** `reset`: the initial rate with a pacing bucket of burst
        `int(initial_rate / 10)` (without the floor of 10 that
        `_update_bucket` applies), zero counters, not congested. The window
        start and the time of the last decrease are kept. */
    method Reset(now: int)
      modifies this`currentRate, this`pacingBucket, this`congested
      modifies this`sentCount, this`ackCount, this`lossCount
      ensures currentRate == initialRate && !congested
      ensures fresh(pacingBucket) && FreshPacing(pacingBucket, initialRate, Trunc(initialRate / 10.0), now)
      ensures sentCount == 0 && ackCount == 0 && lossCount == 0
    {
      currentRate := initialRate;
      pacingBucket := new TokenBucket(initialRate, Trunc(initialRate / 10.0), None, now);
      sentCount, ackCount, lossCount := 0, 0, 0;
      congested := false;
    }
  }

  class Pacer {
    var rate: real
    var intervalMs: real
    var lastSendTime: int

    /** `Pacer(packets_per_second)`: one slot every 1000 / rate ms. */
    constructor(packetsPerSecond: real)
      requires packetsPerSecond != 0.0
      ensures rate == packetsPerSecond && intervalMs * packetsPerSecond == 1000.0 && lastSendTime == 0
    {
      rate := packetsPerSecond;
      intervalMs := 1000.0 / packetsPerSecond;
      lastSendTime := 0;
    }

    /** `set_rate`: the new rate is stored first, then the interval is
        derived from it; a zero rate raises `ZeroDivisionError` (`ok` is
        false) after the rate was stored, so the old interval remains. */
    method SetRate(packetsPerSecond: real) returns (ok: bool)
      modifies this`rate, this`intervalMs
      ensures rate == packetsPerSecond
      ensures ok <==> packetsPerSecond != 0.0
      ensures ok ==> intervalMs * packetsPerSecond == 1000.0
      ensures !ok ==> intervalMs == old(intervalMs)
    {
      rate := packetsPerSecond;
      if packetsPerSecond == 0.0 {
        return false;
      }
      intervalMs := 1000.0 / packetsPerSecond;
      ok := true;
    }

    /** `wait_for_next_slot`: inside the interval since the last send the
        caller waits out the rest of it (the sleep is not modelled; `woke`
        is the clock read after it); otherwise there is no wait. */
    method WaitForNextSlot(now: int, woke: int) returns (waitMs: real)
      modifies this`lastSendTime
      ensures var since := (now - old(lastSendTime)) as real;
        (since < intervalMs ==> waitMs == intervalMs - since && waitMs > 0.0 && lastSendTime == woke) &&
        (since >= intervalMs ==> waitMs == 0.0 && lastSendTime == now)
    {
      var since := (now - lastSendTime) as real;
      if since < intervalMs {
        waitMs := intervalMs - since;
        lastSendTime := woke;
      } else {
        lastSendTime := now;
        waitMs := 0.0;
      }
    }
  }
}
