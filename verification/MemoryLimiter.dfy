/** The in-process limiter: token buckets in memory, stamped by a nanosecond clock. */
module MemoryLimiter {
  import opened TokenBucket

  const NANOS_PER_SECOND: real := 1000000000.0

  function Seconds(nanos: int): real {
    nanos as real / NANOS_PER_SECOND
  }

  /** Tokens per second, as the constructor computes it. */
  function RateFor(limit: int, window: int): real {
    if window > 0 then limit as real / Seconds(window) else 0.0
  }

  /** The limits a limiter enforces, per nanosecond tick. */
  function LimitsFor(limit: int, window: int): Limits {
    Limits(limit, RateFor(limit, window) / NANOS_PER_SECOND)
  }

  class Memory {
    const limit: int
    const rate: real
    var items: Buckets

    constructor (limit: int, window: int)
      ensures this.limit == limit && this.rate == RateFor(limit, window) && items == map[]
    {
      this.limit := limit;
      if window > 0 {
        this.rate := limit as real / Seconds(window);
      } else {
        this.rate := 0.0;
      }
      this.items := map[];
    }

    method AllowN(tenant: string, amount: int, now: int) returns (a: Answer)
      modifies this
      ensures (items, a) == Step(Limits(limit, rate / NANOS_PER_SECOND), old(items), Call(tenant, amount, now))
    {
      if amount <= 0 {
        return Decided(true);
      }
      if limit <= 0 {
        return Decided(true);
      }
      if rate <= 0.0 {
        return Unavailable;
      }
      var b: Bucket;
      if tenant !in items {
        b := Bucket(limit as real, now);
      } else {
        b := items[tenant];
        if now > b.timestamp {
          RefillIsGain(rate, now - b.timestamp);
          b := Bucket(Min(limit as real, b.tokens + Seconds(now - b.timestamp) * rate), now);
        }
      }
      if b.tokens < amount as real {
        items := items[tenant := b];
        return Decided(false);
      }
      b := b.(tokens := b.tokens - amount as real);
      items := items[tenant := b];
      return Decided(true);
    }
  }

  lemma {:induction false} RefillIsGain(rate: real, elapsed: nat)
    ensures Seconds(elapsed) * rate == Gain(rate / NANOS_PER_SECOND, elapsed)
  {
    GainIsProduct(rate / NANOS_PER_SECOND, elapsed);
  }
}
