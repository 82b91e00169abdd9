/** One delivery through the dispatcher: validation, breaker, bulkhead, and the bounded retry loop. */
module Dispatcher {
  import opened CircuitBreakers
  import Lease = LeaseProtocol

  /** How one send went, and the wait drawn after it; a cancelled wait is charged in full. */
  datatype Reply = Reply(ok: bool, took: nat, at: int, jitter: nat, cancelled: bool)

  datatype Outcome = Delivered | Rejected | Cancelled | Exhausted

  datatype Loop = Loop(breaker: Breaker, outcome: Outcome, sends: nat, elapsed: nat)

  const BREAKER: Settings := Settings(3, 60 * Lease.SECOND)

  predicate Plausible(cfg: Lease.Schedule, replies: seq<Reply>)
    requires Lease.WellFormed(cfg)
  {
    && |replies| == cfg.maxRetries + 1
    && (forall i :: 0 <= i <= cfg.maxRetries ==> replies[i].took <= cfg.sendTimeout)
    && forall i :: 0 <= i < cfg.maxRetries ==> replies[i].jitter < cfg.backoff[i] / 5
  }

  /** The retry loop from the given attempt on: one report per send, until success, cancellation or the last attempt. */
  function Attempts(cfg: Lease.Schedule, b: Breaker, replies: seq<Reply>, attempt: nat): Loop
    requires Lease.WellFormed(cfg) && Plausible(cfg, replies) && attempt <= cfg.maxRetries
    decreases cfg.maxRetries - attempt
  {
    var r := replies[attempt];
    if r.ok then Loop(SuccessStep(b), Delivered, 1, r.took)
    else
      var b1 := FailureStep(BREAKER, b, r.at);
      if attempt == cfg.maxRetries then Loop(b1, Exhausted, 1, r.took)
      else
        var wait := cfg.backoff[attempt] + r.jitter;
        if r.cancelled then Loop(b1, Cancelled, 1, r.took + wait)
        else
          var rest := Attempts(cfg, b1, replies, attempt + 1);
          Loop(rest.breaker, rest.outcome, rest.sends + 1, r.took + wait + rest.elapsed)
  }

  /** However the sends go, the loop fits the schedule the lease is sized for. */
  lemma {:induction false} AttemptsFitSchedule(cfg: Lease.Schedule, b: Breaker, replies: seq<Reply>, attempt: nat)
    requires Lease.WellFormed(cfg) && Plausible(cfg, replies) && attempt <= cfg.maxRetries
    ensures
      var loop := Attempts(cfg, b, replies, attempt);
      && loop.elapsed <= cfg.sendTimeout + Lease.Remaining(cfg, attempt)
      && 1 <= loop.sends <= cfg.maxRetries + 1 - attempt
    decreases cfg.maxRetries - attempt
  {
    if attempt < cfg.maxRetries && !replies[attempt].ok {
      Lease.WaitFits(cfg, attempt, replies[attempt].jitter);
      AttemptsFitSchedule(cfg, FailureStep(BREAKER, b, replies[attempt].at), replies, attempt + 1);
    }
  }

  /** Delivered exactly when some send succeeds and no earlier one was the last before a cancellation. */
  lemma {:induction false} DeliveredIff(cfg: Lease.Schedule, b: Breaker, replies: seq<Reply>, attempt: nat)
    requires Lease.WellFormed(cfg) && Plausible(cfg, replies) && attempt <= cfg.maxRetries
    ensures Attempts(cfg, b, replies, attempt).outcome == Delivered <==>
      exists i :: attempt <= i <= cfg.maxRetries && replies[i].ok &&
        forall j :: attempt <= j < i ==> !replies[j].ok && !replies[j].cancelled
    ensures Attempts(cfg, b, replies, attempt).outcome == Delivered ==>
      Attempts(cfg, b, replies, attempt).breaker.state == Closed
    decreases cfg.maxRetries - attempt
  {
    var r := replies[attempt];
    if !r.ok && attempt < cfg.maxRetries && !r.cancelled {
      var b1 := FailureStep(BREAKER, b, r.at);
      DeliveredIff(cfg, b1, replies, attempt + 1);
      if Attempts(cfg, b1, replies, attempt + 1).outcome == Delivered {
        var i :| attempt + 1 <= i <= cfg.maxRetries && replies[i].ok &&
          forall j :: attempt + 1 <= j < i ==> !replies[j].ok && !replies[j].cancelled;
        assert forall j :: attempt <= j < i ==> !replies[j].ok && !replies[j].cancelled;
      }
    }
  }

  /** The attempt that ends the loop: the first that succeeds, is cancelled in its wait, or is the last. */
  predicate Ends(cfg: Lease.Schedule, replies: seq<Reply>, i: nat)
    requires Lease.WellFormed(cfg) && Plausible(cfg, replies) && i <= cfg.maxRetries
  {
    replies[i].ok || replies[i].cancelled || i == cfg.maxRetries
  }

  /** The loop sends up to the first attempt that ends it, and that attempt tells how. */
  lemma {:induction false} LoopEndsAt(cfg: Lease.Schedule, b: Breaker, replies: seq<Reply>, attempt: nat, end: nat)
    requires Lease.WellFormed(cfg) && Plausible(cfg, replies) && attempt <= end <= cfg.maxRetries
    requires Ends(cfg, replies, end) && forall i :: attempt <= i < end ==> !Ends(cfg, replies, i)
    ensures
      var loop := Attempts(cfg, b, replies, attempt);
      && loop.sends == end - attempt + 1
      && loop.outcome == (if replies[end].ok then Delivered else if end == cfg.maxRetries then Exhausted else Cancelled)
    decreases end - attempt
  {
    if attempt < end {
      assert !Ends(cfg, replies, attempt);
      LoopEndsAt(cfg, FailureStep(BREAKER, b, replies[attempt].at), replies, attempt + 1, end);
    }
  }

  /** A loop that does not deliver adds its sends to the failures, and opens the breaker at the last of them once there are three. */
  lemma {:induction false} UndeliveredStrikes(cfg: Lease.Schedule, b: Breaker, replies: seq<Reply>, attempt: nat)
    requires Lease.WellFormed(cfg) && Plausible(cfg, replies) && attempt <= cfg.maxRetries
    requires Attempts(cfg, b, replies, attempt).outcome != Delivered
    ensures
      var loop := Attempts(cfg, b, replies, attempt);
      && loop.sends >= 1 && attempt + loop.sends - 1 <= cfg.maxRetries
      && loop.breaker.failures == b.failures + loop.sends && !loop.breaker.probeInFlight
      && (if b.failures + loop.sends >= 3 then
            loop.breaker.state == Open && loop.breaker.openedAt == replies[attempt + loop.sends - 1].at
          else loop.breaker.state == b.state)
    decreases cfg.maxRetries - attempt
  {
    var r := replies[attempt];
    if attempt < cfg.maxRetries && !r.cancelled {
      UndeliveredStrikes(cfg, FailureStep(BREAKER, b, r.at), replies, attempt + 1);
    }
  }

  /**
   When the next delivery to an endpoint that was fresh is let through: always, after a delivery that
   got through or failed fewer than three times; else exactly from one minute after the last failure on.
   */
  lemma {:induction false} NextDelivery(cfg: Lease.Schedule, replies: seq<Reply>, now: int)
    requires Lease.WellFormed(cfg) && Plausible(cfg, replies)
    ensures
      var loop := Attempts(cfg, FRESH, replies, 0);
      var granted := AllowStep(BREAKER, loop.breaker, now).1;
      if loop.outcome == Delivered || loop.sends < 3 then granted
      else loop.sends - 1 <= cfg.maxRetries && (granted <==> now - replies[loop.sends - 1].at >= 60_000_000_000)
  {
    var loop := Attempts(cfg, FRESH, replies, 0);
    if loop.outcome == Delivered {
      DeliveredIff(cfg, FRESH, replies, 0);
    } else {
      UndeliveredStrikes(cfg, FRESH, replies, 0);
    }
  }

  /** Over every history of an endpoint: a call is let through below three strikes, or as a lone probe a minute after the last failure. */
  lemma {:induction false} EndpointRule(ops: seq<Op>, now: int)
    ensures
      var (b, h) := Observe(BREAKER, ops);
      AllowStep(BREAKER, b, now).1 <==>
        || Strikes(h) < 3
        || (Strikes(h) > 0 && !GrantOutstanding(h) && now - LatestFailure(h) >= 60_000_000_000)
  {
    BreakerEqualsTrace(BREAKER, ops);
  }

  class EndpointDispatcher {
    const cfg: Lease.Schedule
    var breakers: map<string, Breaker>
    var slots: map<string, nat>
    const limit: nat

    ghost predicate Valid()
      reads this
    {
      && Lease.WellFormed(cfg) && limit >= 1
      && forall e :: e in slots ==> slots[e] <= limit
    }

    constructor (concurrency: int, cfg: Lease.Schedule)
      requires Lease.WellFormed(cfg)
      ensures Valid() && this.cfg == cfg && breakers == map[] && slots == map[]
      ensures limit == if concurrency < 1 then 1 else concurrency
    {
      this.cfg, this.breakers, this.slots := cfg, map[], map[];
      this.limit := if concurrency < 1 then 1 else concurrency;
    }

    ghost function BreakerOf(endpoint: string): Breaker
      reads this
    {
      if endpoint in breakers then breakers[endpoint] else FRESH
    }

    ghost function SlotsOf(endpoint: string): nat
      reads this
    {
      if endpoint in slots then slots[endpoint] else 0
    }

    method Ask(endpoint: string, now: int) returns (granted: bool)
      modifies this`breakers
      ensures endpoint in breakers && breakers == old(breakers)[endpoint := breakers[endpoint]]
      ensures (breakers[endpoint], granted) == AllowStep(BREAKER, old(BreakerOf(endpoint)), now)
    {
      if endpoint !in breakers {
        breakers := breakers[endpoint := FRESH];
      }
      var (asked, answer) := AllowStep(BREAKER, breakers[endpoint], now);
      breakers := breakers[endpoint := asked];
      return answer;
    }

    /** Takes a slot if one is free and the caller is not cancelled first. */
    method Acquire(endpoint: string, acquirable: bool) returns (ok: bool)
      requires Valid()
      modifies this`slots
      ensures Valid()
      ensures ok == (acquirable && old(SlotsOf(endpoint)) < limit)
      ensures slots == old(slots)[endpoint := old(SlotsOf(endpoint)) + if ok then 1 else 0]
    {
      if endpoint !in slots {
        slots := slots[endpoint := 0];
      }
      ok := acquirable && slots[endpoint] < limit;
      if ok {
        slots := slots[endpoint := slots[endpoint] + 1];
      }
    }

    method Release(endpoint: string)
      requires Valid() && endpoint in slots && slots[endpoint] >= 1
      modifies this`slots
      ensures Valid() && slots == old(slots)[endpoint := old(slots)[endpoint] - 1]
    {
      slots := slots[endpoint := slots[endpoint] - 1];
    }

    /** The retry loop: send, report to the breaker, and wait with jitter between attempts. */
    method SendWithRetries(endpoint: string, replies: seq<Reply>) returns (outcome: Outcome, sends: nat, elapsed: nat)
      requires Valid() && Plausible(cfg, replies) && endpoint in breakers
      modifies this`breakers
      ensures endpoint in breakers && breakers == old(breakers)[endpoint := breakers[endpoint]]
      ensures Loop(breakers[endpoint], outcome, sends, elapsed) == Attempts(cfg, old(breakers)[endpoint], replies, 0)
    {
      var attempt := 0;
      outcome, sends, elapsed := Exhausted, 0, 0;
      while attempt <= cfg.maxRetries
        invariant 0 <= attempt <= cfg.maxRetries && outcome == Exhausted
        invariant endpoint in breakers && breakers == old(breakers)[endpoint := breakers[endpoint]]
        invariant
          var rest := Attempts(cfg, breakers[endpoint], replies, attempt);
          Attempts(cfg, old(breakers)[endpoint], replies, 0)
          == Loop(rest.breaker, rest.outcome, sends + rest.sends, elapsed + rest.elapsed)
        decreases cfg.maxRetries - attempt
      {
        var r := replies[attempt];
        sends, elapsed := sends + 1, elapsed + r.took;
        if r.ok {
          breakers := breakers[endpoint := SuccessStep(breakers[endpoint])];
          return Delivered, sends, elapsed;
        }
        breakers := breakers[endpoint := FailureStep(BREAKER, breakers[endpoint], r.at)];
        if attempt == cfg.maxRetries {
          break;
        }
        var wait := cfg.backoff[attempt];
        wait := wait + r.jitter;
        elapsed := elapsed + wait;
        if r.cancelled {
          return Cancelled, sends, elapsed;
        }
        attempt := attempt + 1;
      }
    }

    /**
     One delivery running alone.  Every granted delivery that reaches the loop leaves the breaker as
     the loop's reports leave it and the bulkhead as it found it; other endpoints are untouched.
     */
    method Deliver(endpoint: string, allowed: bool, now: int, acquirable: bool, encodable: bool, replies: seq<Reply>)
      returns (outcome: Outcome, sends: nat, elapsed: nat)
      requires Valid() && Plausible(cfg, replies)
      modifies this
      ensures Valid()
      ensures forall e :: e != endpoint ==> BreakerOf(e) == old(BreakerOf(e))
      ensures forall e :: SlotsOf(e) == old(SlotsOf(e))
      ensures !allowed ==> outcome == Rejected && sends == 0 && BreakerOf(endpoint) == old(BreakerOf(endpoint))
      ensures allowed ==>
        var (asked, granted) := AllowStep(BREAKER, old(BreakerOf(endpoint)), now);
        if granted && acquirable && old(SlotsOf(endpoint)) < limit && encodable then
          Loop(BreakerOf(endpoint), outcome, sends, elapsed) == Attempts(cfg, asked, replies, 0)
        else outcome == Rejected && sends == 0 && BreakerOf(endpoint) == asked
      ensures elapsed <= cfg.sendTimeout + Lease.Remaining(cfg, 0)
    {
      if !allowed {
        return Rejected, 0, 0;
      }
      var granted := Ask(endpoint, now);
      if !granted {
        return Rejected, 0, 0;
      }
      var acquired := Acquire(endpoint, acquirable);
      if !acquired {
        return Rejected, 0, 0;
      }
      if !encodable {
        Release(endpoint);
        assert slots == old(slots)[endpoint := old(SlotsOf(endpoint))];
        return Rejected, 0, 0;
      }
      AttemptsFitSchedule(cfg, breakers[endpoint], replies, 0);
      outcome, sends, elapsed := SendWithRetries(endpoint, replies);
      Release(endpoint);
      assert slots == old(slots)[endpoint := old(SlotsOf(endpoint))];
      assert forall e :: e != endpoint ==> BreakerOf(e) == old(BreakerOf(e));
    }
  }
}
