/** The dispatcher's code, step by step, as a run of the machine of concurrent deliveries. */
module DispatcherRuns {
  import opened CircuitBreakers
  import opened ConcurrentDeliveries
  import opened Dispatcher
  import Lease = LeaseProtocol

  /** The machine with the dispatcher's settings. */
  predicate Matches(cfg: Lease.Schedule, conc: Config) {
    conc.breaker == BREAKER && conc.maxRetries == cfg.maxRetries && conc.limit >= 1
  }

  lemma {:induction false} Prepend(conc: Config, s: State, step: Step, rest: seq<Step>)
    requires Enabled(conc, s, step) && ValidFrom(conc, Next(conc, s, step), rest)
    ensures ValidFrom(conc, s, [step] + rest)
    ensures After(conc, s, [step] + rest) == After(conc, Next(conc, s, step), rest)
  {
    assert ([step] + rest)[1..] == rest;
  }

  /** A delivery has gone, leaving the given breaker and one slot more, with the given number of reports made. */
  predicate Gone(s: State, s1: State, id: nat, e: string, b: Breaker, reports: nat) {
    && s1.flights == s.flights - {id} && BreakerOf(s1, e) == b
    && Count(s1.slots, e) == Count(s.slots, e) - 1 && Count(s1.reported, e) == Count(s.reported, e) + reports
  }

  /** A failed send with retries left, and the next one. */
  lemma {:induction false} FailThenSend(conc: Config, s: State, id: nat, at: int)
    requires id in s.flights && s.flights[id].stage.Sending? && s.flights[id].stage.attempt != conc.maxRetries
    ensures
      var e, a := s.flights[id].endpoint, s.flights[id].stage.attempt;
      && Enabled(conc, s, SendFails(id, at)) && Enabled(conc, Next(conc, s, SendFails(id, at)), Send(id))
      && var s2 := Next(conc, Next(conc, s, SendFails(id, at)), Send(id));
      && s2.flights == s.flights[id := Flight(e, Sending(a + 1))] && BreakerOf(s2, e) == FailureStep(conc.breaker, BreakerOf(s, e), at)
      && Count(s2.slots, e) == Count(s.slots, e) && Count(s2.reported, e) == Count(s.reported, e) + 1
  {
  }

  /** A last failed send, or one whose wait is cancelled. */
  lemma {:induction false} FailAndLeave(conc: Config, s: State, id: nat, at: int) returns (steps: seq<Step>)
    requires id in s.flights && s.flights[id].stage.Sending? && Count(s.slots, s.flights[id].endpoint) >= 1
    ensures ValidFrom(conc, s, steps)
    ensures
      var e := s.flights[id].endpoint;
      Gone(s, After(conc, s, steps), id, e, FailureStep(conc.breaker, BreakerOf(s, e), at), 1)
  {
    var s1 := Next(conc, s, SendFails(id, at));
    if s.flights[id].stage.attempt == conc.maxRetries {
      steps := [];
    } else {
      Prepend(conc, s1, WaitCancelled(id), []);
      steps := [WaitCancelled(id)] + [];
    }
    Prepend(conc, s, SendFails(id, at), steps);
    steps := [SendFails(id, at)] + steps;
  }

  /** The retry loop from any attempt on: the same breaker, one report per send, and the slot given back. */
  lemma {:induction false} AttemptsAreARun(cfg: Lease.Schedule, conc: Config, s: State, id: nat, replies: seq<Reply>, attempt: nat)
    returns (steps: seq<Step>)
    requires Lease.WellFormed(cfg) && Plausible(cfg, replies) && attempt <= cfg.maxRetries && Matches(cfg, conc)
    requires id in s.flights && s.flights[id].stage == Sending(attempt) && Count(s.slots, s.flights[id].endpoint) >= 1
    ensures ValidFrom(conc, s, steps)
    ensures
      var e := s.flights[id].endpoint;
      var loop := Attempts(cfg, BreakerOf(s, e), replies, attempt);
      Gone(s, After(conc, s, steps), id, e, loop.breaker, loop.sends)
    decreases cfg.maxRetries - attempt
  {
    var r := replies[attempt];
    if r.ok {
      Prepend(conc, s, SendSucceeds(id), []);
      steps := [SendSucceeds(id)] + [];
    } else if attempt == cfg.maxRetries || r.cancelled {
      steps := FailAndLeave(conc, s, id, r.at);
    } else {
      FailThenSend(conc, s, id, r.at);
      var s1 := Next(conc, s, SendFails(id, r.at));
      var s2 := Next(conc, s1, Send(id));
      var rest := AttemptsAreARun(cfg, conc, s2, id, replies, attempt + 1);
      Prepend(conc, s1, Send(id), rest);
      Prepend(conc, s, SendFails(id, r.at), [Send(id)] + rest);
      steps := [SendFails(id, r.at)] + ([Send(id)] + rest);
      assert s2.flights - {id} == s.flights - {id};
    }
  }

  /** The part of a delivery that runs once the breaker has let it through. */
  lemma {:induction false} GrantedIsARun(
    cfg: Lease.Schedule, conc: Config, s: State, id: nat, acquirable: bool, encodable: bool, replies: seq<Reply>)
    returns (steps: seq<Step>)
    requires Lease.WellFormed(cfg) && Plausible(cfg, replies) && Matches(cfg, conc)
    requires id in s.flights && s.flights[id].stage == Queued && Count(s.slots, s.flights[id].endpoint) < conc.limit
    ensures ValidFrom(conc, s, steps)
    ensures
      var s1, e := After(conc, s, steps), s.flights[id].endpoint;
      && s1.flights == s.flights - {id} && Count(s1.slots, e) == Count(s.slots, e)
      && BreakerOf(s1, e)
         == if acquirable && encodable then Attempts(cfg, BreakerOf(s, e), replies, 0).breaker else BreakerOf(s, e)
  {
    if !acquirable {
      Prepend(conc, s, AcquireFails(id), []);
      steps := [AcquireFails(id)] + [];
    } else {
      var s1 := Next(conc, s, Acquire(id));
      if !encodable {
        Prepend(conc, s1, EncodeFails(id), []);
        steps := [EncodeFails(id)] + [];
      } else {
        var s2 := Next(conc, s1, Send(id));
        var rest := AttemptsAreARun(cfg, conc, s2, id, replies, 0);
        Prepend(conc, s1, Send(id), rest);
        steps := [Send(id)] + rest;
        assert s2.flights - {id} == s.flights - {id};
      }
      Prepend(conc, s, Acquire(id), steps);
      steps := [Acquire(id)] + steps;
    }
  }

  /** A delivery whose endpoint is allowed and has a free slot leaves the machine where `EndpointDispatcher.Deliver` leaves its maps. */
  lemma {:induction false} DeliverIsARun(
    cfg: Lease.Schedule, conc: Config, s: State, e: string, now: int, acquirable: bool, encodable: bool, replies: seq<Reply>)
    returns (steps: seq<Step>)
    requires Lease.WellFormed(cfg) && Plausible(cfg, replies) && Matches(cfg, conc)
    requires Numbered(s) && Count(s.slots, e) < conc.limit
    ensures ValidFrom(conc, s, steps)
    ensures
      var s1 := After(conc, s, steps);
      var (asked, granted) := AllowStep(BREAKER, BreakerOf(s, e), now);
      && s1.flights == s.flights && Count(s1.slots, e) == Count(s.slots, e)
      && BreakerOf(s1, e)
         == if granted && acquirable && encodable then Attempts(cfg, asked, replies, 0).breaker else asked
  {
    var s1 := Next(conc, s, Start(e, now));
    steps := [];
    if AllowStep(BREAKER, BreakerOf(s, e), now).1 {
      steps := GrantedIsARun(cfg, conc, s1, s.next, acquirable, encodable, replies);
      assert s.flights[s.next := Flight(e, Queued)] - {s.next} == s.flights;
    }
    Prepend(conc, s, Start(e, now), steps);
    steps := [Start(e, now)] + steps;
  }
}
