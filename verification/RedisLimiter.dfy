/**
 The shared limiter: the same buckets kept in Redis by an atomic script, stamped by Redis's own
 microsecond clock, in keys that Redis may drop once their time to live has passed.
 */
module RedisLimiter {
  import opened TokenBucket
  import MemoryLimiter

  datatype Entry = Entry(bucket: Bucket, expires: int)

  type Keys = map<string, Entry>

  /** One call, and the keys Redis dropped since the previous one. */
  datatype Arrival = Arrival(call: Call, gone: set<string>)

  const NANOS_PER_MICRO: int := 1000
  const NANOS_PER_MILLI: int := 1000000
  const MICROS_PER_MILLI: int := 1000

  function WindowMicros(window: int): int
    requires window > 0
  {
    if window / NANOS_PER_MICRO <= 0 then 1 else window / NANOS_PER_MICRO
  }

  function TtlMillis(window: int): int
    requires window > 0
  {
    if window % NANOS_PER_MILLI != 0 then window / NANOS_PER_MILLI + 1 else window / NANOS_PER_MILLI
  }

  /** The limits the script enforces, per microsecond tick. */
  function LimitsFor(limit: int, window: int): Limits {
    Limits(limit, if window > 0 then limit as real / WindowMicros(window) as real else 0.0)
  }

  function BucketsOf(keys: Keys): Buckets {
    map t | t in keys :: keys[t].bucket
  }

  /** One call: dropped keys are gone, the rest is the bucket step, and the called key lives on for a time to live. */
  function RedisStep(limit: int, window: int, keys: Keys, arr: Arrival): (Keys, Answer) {
    var kept, c := keys - arr.gone, arr.call;
    if c.amount <= 0 || limit <= 0 then (kept, Decided(true))
    else if window <= 0 then (kept, Unavailable)
    else
      var (bs, a) := Step(LimitsFor(limit, window), BucketsOf(kept), c);
      if c.tenant in bs then
        (kept[c.tenant := Entry(bs[c.tenant], c.now + TtlMillis(window) * MICROS_PER_MILLI)], a)
      else (kept, a)
  }

  function RedisRun(limit: int, window: int, keys: Keys, arrivals: seq<Arrival>): (r: (Keys, seq<Answer>))
    ensures |r.1| == |arrivals|
    decreases |arrivals|
  {
    if arrivals == [] then (keys, [])
    else
      var (keys1, a) := RedisStep(limit, window, keys, arrivals[0]);
      var (keys2, answers) := RedisRun(limit, window, keys1, arrivals[1..]);
      (keys2, [a] + answers)
  }

  function CallsOf(arrivals: seq<Arrival>): (calls: seq<Call>)
    ensures |calls| == |arrivals|
  {
    if arrivals == [] then [] else [arrivals[0].call] + CallsOf(arrivals[1..])
  }

  /** Redis drops a key no earlier than its expiry. */
  predicate Expired(keys: Keys, arr: Arrival) {
    forall t :: t in arr.gone && t in keys ==> keys[t].expires <= arr.call.now
  }

  predicate Lawful(limit: int, window: int, keys: Keys, arrivals: seq<Arrival>)
    decreases |arrivals|
  {
    arrivals == [] ||
    (Expired(keys, arrivals[0]) && Lawful(limit, window, RedisStep(limit, window, keys, arrivals[0]).0, arrivals[1..]))
  }

  class Redis {
    const limit: int
    const window: int
    var keys: Keys

    constructor (limit: int, window: int)
      ensures this.limit == limit && this.window == window && keys == map[]
    {
      this.limit, this.window, this.keys := limit, window, map[];
    }

    method AllowN(tenant: string, amount: int, now: int, gone: set<string>) returns (a: Answer)
      modifies this
      ensures (keys, a) == RedisStep(limit, window, old(keys), Arrival(Call(tenant, amount, now), gone))
    {
      keys := keys - gone;
      if amount <= 0 {
        return Decided(true);
      }
      if limit <= 0 {
        return Decided(true);
      }
      if window <= 0 {
        return Unavailable;
      }
      var windowMicros := window / NANOS_PER_MICRO;
      if windowMicros <= 0 {
        windowMicros := 1;
      }
      var ttl := window / NANOS_PER_MILLI;
      if window % NANOS_PER_MILLI != 0 {
        ttl := ttl + 1;
      }
      if ttl < 1 {
        ttl := 1;
      }
      var refillRate := limit as real / windowMicros as real;
      var allowed := Script(tenant, limit, refillRate, ttl, amount, now);
      return Decided(allowed == 1);
    }

    /** The token bucket script: read the key, refill, decide, store, and renew the expiry. */
    method Script(key: string, capacity: int, refillRate: real, ttl: int, amount: int, now: int) returns (allowed: int)
      requires capacity > 0 && refillRate > 0.0 && amount > 0
      modifies this
      ensures
        var (bs, a) := Step(Limits(capacity, refillRate), BucketsOf(old(keys)), Call(key, amount, now));
        && allowed == (if a == Decided(true) then 1 else 0)
        && key in bs && keys == old(keys)[key := Entry(bs[key], now + ttl * MICROS_PER_MILLI)]
    {
      var tokens: real, timestamp: int;
      if key !in keys {
        tokens := capacity as real;
        timestamp := now;
      } else {
        tokens, timestamp := keys[key].bucket.tokens, keys[key].bucket.timestamp;
        var elapsed := now - timestamp;
        if elapsed > 0 {
          GainIsProduct(refillRate, elapsed);
          tokens := Min(capacity as real, tokens + elapsed as real * refillRate);
          timestamp := now;
        }
      }
      allowed := 0;
      if tokens >= amount as real {
        tokens := tokens - amount as real;
        allowed := 1;
      }
      keys := keys[key := Entry(Bucket(tokens, timestamp), now + ttl * MICROS_PER_MILLI)];
    }
  }

  /**
   The window as the script sees it is its whole microseconds, at least one; the time to live is the
   least number of whole milliseconds that covers the window.
   */
  lemma {:induction false} RoundingIsTight(window: int)
    requires window > 0
    ensures
      var micros, millis := WindowMicros(window), TtlMillis(window);
      && (if window < 1000 then micros == 1 else 1000 * micros <= window < 1000 * micros + 1000)
      && 1_000_000 * (millis - 1) < window <= 1_000_000 * millis
  {
  }

  /** After every call that consults a bucket, its key lives on for the window, rounded up to whole milliseconds. */
  lemma {:induction false} KeyLivesForTheWindow(limit: int, window: int, keys: Keys, arr: Arrival)
    requires limit > 0 && window > 0 && arr.call.amount > 0
    ensures
      var keys1, c := RedisStep(limit, window, keys, arr).0, arr.call;
      && c.tenant in keys1
      && window <= 1000 * (keys1[c.tenant].expires - c.now) < window + 1_000_000
      && keys1.Keys == keys.Keys - arr.gone + {c.tenant}
      && (forall t :: t in keys1 && t != c.tenant ==> keys1[t] == keys[t])
  {
    RoundingIsTight(window);
    ActiveLimits(limit, window);
    StepStamp(LimitsFor(limit, window), BucketsOf(keys - arr.gone), arr.call, arr.call.tenant);
  }

  // ---------------------------------------------------------------- expiry is invisible

  /** The time to live covers a full refill. */
  lemma {:induction false} TtlCoversRefill(limit: int, window: int)
    requires limit > 0 && window > 0
    ensures WindowMicros(window) <= TtlMillis(window) * MICROS_PER_MILLI
    ensures Gain(LimitsFor(limit, window).rate, WindowMicros(window)) == limit as real
  {
    GainIsProduct(LimitsFor(limit, window).rate, WindowMicros(window));
  }

  lemma {:induction false} GainGrows(rate: real, a: int, b: int)
    requires rate > 0.0 && a <= b
    ensures Gain(rate, a) <= Gain(rate, b)
    decreases b - a
  {
    if a < b {
      GainGrows(rate, a, b - 1);
    }
  }

  /** Every key is kept at least until its bucket is full again. */
  ghost predicate KeptUntilFull(window: int, keys: Keys)
    requires window > 0
  {
    forall t :: t in keys ==> keys[t].bucket.timestamp + WindowMicros(window) <= keys[t].expires
  }

  lemma {:induction false} DroppingIsAlike(limit: int, window: int, keys: Keys, arr: Arrival, forever: Buckets)
    requires limit > 0 && window > 0
    requires Active(LimitsFor(limit, window))
    requires KeptUntilFull(window, keys) && Expired(keys, arr)
    requires Alike(LimitsFor(limit, window), BucketsOf(keys), forever, arr.call.now)
    ensures Alike(LimitsFor(limit, window), BucketsOf(keys - arr.gone), forever, arr.call.now)
  {
    var cfg, now := LimitsFor(limit, window), arr.call.now;
    var before, after := BucketsOf(keys), BucketsOf(keys - arr.gone);
    assert forall t :: t in after ==> t in before && after[t] == before[t];
    forall t ensures Level(cfg, after, t, now) == Level(cfg, forever, t, now) {
      assert Level(cfg, before, t, now) == Level(cfg, forever, t, now);
      if t in keys && t in arr.gone {
        var b := keys[t].bucket;
        TtlCoversRefill(limit, window);
        GainGrows(cfg.rate, WindowMicros(window), now - b.timestamp);
        assert before[t] == b;
      } else {
        assert t in after <==> t in before;
      }
    }
  }

  lemma {:induction false} ActiveLimits(limit: int, window: int)
    requires limit > 0 && window > 0
    ensures Active(LimitsFor(limit, window))
  {
  }

  lemma {:induction false} RedisStepAlike(limit: int, window: int, keys: Keys, arr: Arrival, forever: Buckets)
    requires limit > 0 && window > 0
    requires Active(LimitsFor(limit, window))
    requires KeptUntilFull(window, keys) && Expired(keys, arr)
    requires Alike(LimitsFor(limit, window), BucketsOf(keys), forever, arr.call.now)
    ensures
      var cfg := LimitsFor(limit, window);
      var (keys1, a) := RedisStep(limit, window, keys, arr);
      && a == Step(cfg, forever, arr.call).1
      && KeptUntilFull(window, keys1)
      && Alike(cfg, BucketsOf(keys1), Step(cfg, forever, arr.call).0, arr.call.now)
  {
    var cfg, c := LimitsFor(limit, window), arr.call;
    var kept := keys - arr.gone;
    DroppingIsAlike(limit, window, keys, arr, forever);
    StepAlike(cfg, BucketsOf(kept), forever, c);
    StepStamp(cfg, BucketsOf(kept), c, c.tenant);
    TtlCoversRefill(limit, window);
    var (keys1, a) := RedisStep(limit, window, keys, arr);
    assert BucketsOf(keys1) == Step(cfg, BucketsOf(kept), c).0;
  }

  lemma {:induction false} RedisRunAlike(
    limit: int, window: int, keys: Keys, forever: Buckets, clock: int, arrivals: seq<Arrival>)
    requires limit > 0 && window > 0
    requires Active(LimitsFor(limit, window))
    requires KeptUntilFull(window, keys) && Lawful(limit, window, keys, arrivals)
    requires Alike(LimitsFor(limit, window), BucketsOf(keys), forever, clock) && Monotone(CallsOf(arrivals), clock)
    ensures RedisRun(limit, window, keys, arrivals).1 == Run(LimitsFor(limit, window), forever, CallsOf(arrivals)).1
    decreases |arrivals|
  {
    if arrivals != [] {
      var cfg, arr, calls := LimitsFor(limit, window), arrivals[0], CallsOf(arrivals);
      assert calls[1..] == CallsOf(arrivals[1..]);
      AlikeLater(cfg, BucketsOf(keys), forever, clock, arr.call.now);
      RedisStepAlike(limit, window, keys, arr, forever);
      RunCons(cfg, forever, calls);
      RedisRunAlike(limit, window, RedisStep(limit, window, keys, arr).0, Step(cfg, forever, arr.call).0,
                    arr.call.now, arrivals[1..]);
    }
  }

  lemma {:induction false} IdleRun(limit: int, window: int, keys: Keys, bs: Buckets, arrivals: seq<Arrival>)
    requires limit <= 0 || window <= 0
    ensures RedisRun(limit, window, keys, arrivals).1 == Run(LimitsFor(limit, window), bs, CallsOf(arrivals)).1
    decreases |arrivals|
  {
    if arrivals != [] {
      assert CallsOf(arrivals)[1..] == CallsOf(arrivals[1..]);
      IdleRun(limit, window, RedisStep(limit, window, keys, arrivals[0]).0, bs, arrivals[1..]);
    }
  }

  /** With a monotone clock, the expiring limiter answers every call as one that never forgets. */
  lemma {:induction false} ExpiryIsInvisible(limit: int, window: int, clock: int, arrivals: seq<Arrival>)
    requires Lawful(limit, window, map[], arrivals) && Monotone(CallsOf(arrivals), clock)
    ensures RedisRun(limit, window, map[], arrivals).1 == Run(LimitsFor(limit, window), map[], CallsOf(arrivals)).1
  {
    if limit <= 0 || window <= 0 {
      IdleRun(limit, window, map[], map[], arrivals);
    } else {
      ActiveLimits(limit, window);
      assert BucketsOf(map[]) == map[];
      RedisRunAlike(limit, window, map[], map[], clock, arrivals);
    }
  }

  // ---------------------------------------------------------------- agreement with the in-process limiter

  /** The same calls read on the nanosecond clock. */
  function InNanos(calls: seq<Call>): (fine: seq<Call>)
    ensures |fine| == |calls|
  {
    if calls == [] then [] else [calls[0].(now := calls[0].now * NANOS_PER_MICRO)] + InNanos(calls[1..])
  }

  ghost predicate Rescaled(coarse: Buckets, fine: Buckets) {
    && coarse.Keys == fine.Keys
    && forall t :: t in coarse ==> fine[t] == Bucket(coarse[t].tokens, coarse[t].timestamp * NANOS_PER_MICRO)
  }

  lemma {:induction false} GainRescaled(rate: real, d: nat)
    ensures Gain(rate * NANOS_PER_MICRO as real, d) == Gain(rate, d * NANOS_PER_MICRO)
  {
    GainIsProduct(rate * NANOS_PER_MICRO as real, d);
    GainIsProduct(rate, d * NANOS_PER_MICRO);
  }

  lemma {:induction false} StepRescaled(limit: int, rate: real, coarse: Buckets, fine: Buckets, c: Call)
    requires Rescaled(coarse, fine)
    ensures
      var (coarse1, a) := Step(Limits(limit, rate * NANOS_PER_MICRO as real), coarse, c);
      var (fine1, b) := Step(Limits(limit, rate), fine, c.(now := c.now * NANOS_PER_MICRO));
      a == b && Rescaled(coarse1, fine1)
  {
    if c.tenant in coarse && c.now > coarse[c.tenant].timestamp {
      GainRescaled(rate, c.now - coarse[c.tenant].timestamp);
    }
  }

  lemma {:induction false} RunRescaled(limit: int, rate: real, coarse: Buckets, fine: Buckets, calls: seq<Call>)
    requires Rescaled(coarse, fine)
    ensures Run(Limits(limit, rate * NANOS_PER_MICRO as real), coarse, calls).1
         == Run(Limits(limit, rate), fine, InNanos(calls)).1
    decreases |calls|
  {
    if calls != [] {
      var micro, nano := Limits(limit, rate * NANOS_PER_MICRO as real), Limits(limit, rate);
      StepRescaled(limit, rate, coarse, fine, calls[0]);
      assert InNanos(calls)[1..] == InNanos(calls[1..]);
      RunCons(micro, coarse, calls);
      RunCons(nano, fine, InNanos(calls));
      RunRescaled(limit, rate, Step(micro, coarse, calls[0]).0, Step(nano, fine, InNanos(calls)[0]).0, calls[1..]);
    }
  }

  lemma {:induction false} RatesAgree(limit: int, micros: int)
    ensures LimitsFor(limit, micros * NANOS_PER_MICRO)
         == Limits(limit, MemoryLimiter.LimitsFor(limit, micros * NANOS_PER_MICRO).rate * NANOS_PER_MICRO as real)
  {
    if micros > 0 {
      var window := micros * NANOS_PER_MICRO;
      assert WindowMicros(window) == micros;
      var s := MemoryLimiter.Seconds(window);
      assert s == micros as real / 1000000.0;
      var r := limit as real / s;
      assert r * s == limit as real;
      assert (r / 1000000.0) * micros as real == limit as real;
    }
  }

  /** For whole-microsecond windows and readings, the expiring Redis limiter answers exactly as the in-process one. */
  lemma {:induction false} RedisAgreesWithMemory(limit: int, micros: int, clock: int, arrivals: seq<Arrival>)
    requires Lawful(limit, micros * NANOS_PER_MICRO, map[], arrivals) && Monotone(CallsOf(arrivals), clock)
    ensures RedisRun(limit, micros * NANOS_PER_MICRO, map[], arrivals).1
         == Run(MemoryLimiter.LimitsFor(limit, micros * NANOS_PER_MICRO), map[], InNanos(CallsOf(arrivals))).1
  {
    var window := micros * NANOS_PER_MICRO;
    ExpiryIsInvisible(limit, window, clock, arrivals);
    RatesAgree(limit, micros);
    RunRescaled(limit, MemoryLimiter.LimitsFor(limit, window).rate, map[], map[], CallsOf(arrivals));
  }
}
