/** The handler's and the dispatcher's code, for one worker at a time, as a run of the lease protocol. */
module HandlerRuns {
  import opened Events
  import opened ClaimStore
  import opened LeaseProtocol
  import Dispatcher
  import Breakers = CircuitBreakers
  import Handling = WebhookHandling

  // ---------------------------------------------------------------- runs from one state to another

  /** Where the steps lead, if every one of them is enabled where it is taken. */
  function Along(cfg: Schedule, s: State, steps: seq<Step>): Option<State>
    requires WellFormed(cfg)
    decreases |steps|
  {
    if steps == [] then Some(s)
    else if Enabled(cfg, s, steps[0]) then Along(cfg, Next(cfg, s, steps[0]), steps[1..])
    else None
  }

  ghost predicate Leads(cfg: Schedule, s: State, s1: State)
    requires WellFormed(cfg)
  {
    exists steps :: Along(cfg, s, steps) == Some(s1)
  }

  lemma {:induction false} AlongConcat(cfg: Schedule, s: State, a: seq<Step>, b: seq<Step>)
    requires WellFormed(cfg) && Along(cfg, s, a).Some?
    ensures Along(cfg, s, a + b) == Along(cfg, Along(cfg, s, a).value, b)
    decreases |a|
  {
    if a == [] {
      assert a + b == b;
    } else {
      assert (a + b)[0] == a[0] && (a + b)[1..] == a[1..] + b;
      AlongConcat(cfg, Next(cfg, s, a[0]), a[1..], b);
    }
  }

  lemma {:induction false} Stay(cfg: Schedule, s: State)
    requires WellFormed(cfg)
    ensures Leads(cfg, s, s)
  {
    assert Along(cfg, s, []) == Some(s);
  }

  lemma {:induction false} One(cfg: Schedule, s: State, step: Step)
    requires WellFormed(cfg) && Enabled(cfg, s, step)
    ensures Leads(cfg, s, Next(cfg, s, step))
  {
    assert [step][1..] == [];
    assert Along(cfg, s, [step]) == Along(cfg, Next(cfg, s, step), []);
  }

  lemma {:induction false} Then(cfg: Schedule, s: State, s1: State, s2: State)
    requires WellFormed(cfg) && Leads(cfg, s, s1) && Leads(cfg, s1, s2)
    ensures Leads(cfg, s, s2)
  {
    var a :| Along(cfg, s, a) == Some(s1);
    var b :| Along(cfg, s1, b) == Some(s2);
    AlongConcat(cfg, s, a, b);
  }

  /** What a reachable state leads to is reachable. */
  lemma {:induction false} LeadsReaches(cfg: Schedule, past: seq<Step>, s1: State) returns (steps: seq<Step>)
    requires WellFormed(cfg) && Valid(cfg, past) && Leads(cfg, After(cfg, past), s1)
    ensures Valid(cfg, steps) && After(cfg, steps) == s1
  {
    var more :| Along(cfg, After(cfg, past), more) == Some(s1);
    steps := AlongReaches(cfg, past, more, s1);
  }

  lemma {:induction false} AlongReaches(cfg: Schedule, past: seq<Step>, more: seq<Step>, s1: State) returns (steps: seq<Step>)
    requires WellFormed(cfg) && Valid(cfg, past) && Along(cfg, After(cfg, past), more) == Some(s1)
    ensures Valid(cfg, steps) && After(cfg, steps) == s1
    decreases |more|
  {
    if more == [] {
      steps := past;
    } else {
      Extend(cfg, past, more[0]);
      steps := AlongReaches(cfg, past + [more[0]], more[1..], s1);
    }
  }

  // ---------------------------------------------------------------- the retry loop

  /** Only worker `w` is busy, with the given job, at the given time. */
  function Busy(s: State, w: nat, job: Job, now: nat): State {
    s.(jobs := map[w := job], now := now)
  }

  function Until(job: Job, stage: Stage, deadline: nat): Job {
    job.(stage := stage, deadline := deadline)
  }

  lemma {:induction false} Passes(cfg: Schedule, s: State, w: nat, job: Job, now: nat, d: nat)
    requires WellFormed(cfg) && now + d <= job.deadline
    ensures Leads(cfg, Busy(s, w, job, now), Busy(s, w, job, now + d))
  {
    One(cfg, Busy(s, w, job, now), Tick(d));
  }

  lemma {:induction false} Moves(cfg: Schedule, s: State, w: nat, job: Job, now: nat, step: Step, stage: Stage, length: nat)
    requires WellFormed(cfg) && Enabled(cfg, Busy(s, w, job, now), step)
    requires Next(cfg, Busy(s, w, job, now), step) == Advance(Busy(s, w, job, now), w, stage, length, 0)
    ensures Leads(cfg, Busy(s, w, job, now), Busy(s, w, Until(job, stage, now + length), now))
  {
    One(cfg, Busy(s, w, job, now), step);
    assert Advance(Busy(s, w, job, now), w, stage, length, 0) == Busy(s, w, Until(job, stage, now + length), now);
  }

  /** The books after a delivery of `k`, successful or not. */
  function Booked(s: State, k: Claim, delivered: bool): State {
    if delivered then s.(successes := s.successes[k := Count(s.successes, k) + 1]) else s
  }

  function Ending(delivered: bool): Stage {
    if delivered then Succeeded else Failing
  }

  /** A send that succeeds, or is the last. */
  lemma {:induction false} SendEnds(cfg: Schedule, s: State, w: nat, job: Job, now: nat, a: nat, took: nat, ok: bool)
    requires WellFormed(cfg) && (ok || a == cfg.maxRetries) && job.stage == Sending(a) && now + took <= job.deadline
    ensures Leads(cfg, Busy(s, w, job, now), Busy(Booked(s, job.k, ok), w, Until(job, Ending(ok), now + took), now + took))
  {
    var sent := Busy(s, w, job, now + took);
    Passes(cfg, s, w, job, now, took);
    if ok {
      One(cfg, sent, SendSucceeds(w, 0));
      assert Next(cfg, sent, SendSucceeds(w, 0)) == Busy(Booked(s, job.k, true), w, Until(job, Succeeded, now + took), now + took);
    } else {
      Moves(cfg, s, w, job, now + took, SendFails(w, 0, 0), Failing, 0);
    }
    Then(cfg, Busy(s, w, job, now), sent, Busy(Booked(s, job.k, ok), w, Until(job, Ending(ok), now + took), now + took));
  }

  /** A send that fails with retries left, and the wait after it. */
  lemma {:induction false} FailAndWait(cfg: Schedule, s: State, w: nat, job: Job, now: nat, a: nat, took: nat, jitter: nat)
    requires WellFormed(cfg) && a < cfg.maxRetries && jitter < cfg.backoff[a] / 5
    requires job.stage == Sending(a) && now + took <= job.deadline
    ensures
      var end := now + took + cfg.backoff[a] + jitter;
      Leads(cfg, Busy(s, w, job, now), Busy(s, w, Until(job, Waiting(a, end), end), end))
  {
    var wait := cfg.backoff[a] + jitter;
    var end := now + took + wait;
    var waiting := Until(job, Waiting(a, end), end);
    Passes(cfg, s, w, job, now, took);
    Moves(cfg, s, w, job, now + took, SendFails(w, jitter, 0), Waiting(a, end), wait);
    Passes(cfg, s, w, waiting, now + took, wait);
    Then(cfg, Busy(s, w, job, now), Busy(s, w, job, now + took), Busy(s, w, waiting, now + took));
    Then(cfg, Busy(s, w, job, now), Busy(s, w, waiting, now + took), Busy(s, w, waiting, end));
  }

  /** A wait that is cancelled. */
  lemma {:induction false} GiveUp(cfg: Schedule, s: State, w: nat, job: Job, now: nat, a: nat)
    requires WellFormed(cfg) && job.stage == Waiting(a, now)
    ensures Leads(cfg, Busy(s, w, job, now), Busy(s, w, Until(job, Failing, now), now))
  {
    Moves(cfg, s, w, job, now, CancelWait(w, 0), Failing, 0);
  }

  /** A wait that ends in the next send. */
  lemma {:induction false} TryAgain(cfg: Schedule, s: State, w: nat, job: Job, now: nat, a: nat)
    requires WellFormed(cfg) && job.stage == Waiting(a, now)
    ensures Leads(cfg, Busy(s, w, job, now), Busy(s, w, Until(job, Sending(a + 1), now + cfg.sendTimeout), now))
  {
    Moves(cfg, s, w, job, now, Wake(w, 0), Sending(a + 1), cfg.sendTimeout);
  }

  /** The retry loop from any attempt on takes the time it says and ends as it says. */
  lemma {:induction false} AttemptsAreARun(
    cfg: Schedule, s: State, w: nat, job: Job, now: nat, b: Breakers.Breaker, replies: seq<Dispatcher.Reply>, attempt: nat)
    requires WellFormed(cfg) && Dispatcher.Plausible(cfg, replies) && attempt <= cfg.maxRetries
    requires job.stage == Sending(attempt) && job.deadline == now + cfg.sendTimeout
    ensures
      var loop := Dispatcher.Attempts(cfg, b, replies, attempt);
      var end, delivered := now + loop.elapsed, loop.outcome == Dispatcher.Delivered;
      Leads(cfg, Busy(s, w, job, now), Busy(Booked(s, job.k, delivered), w, Until(job, Ending(delivered), end), end))
    decreases cfg.maxRetries - attempt
  {
    var r := replies[attempt];
    if r.ok || attempt == cfg.maxRetries {
      SendEnds(cfg, s, w, job, now, attempt, r.took, r.ok);
    } else {
      var end := now + r.took + cfg.backoff[attempt] + r.jitter;
      var waiting := Until(job, Waiting(attempt, end), end);
      FailAndWait(cfg, s, w, job, now, attempt, r.took, r.jitter);
      if r.cancelled {
        GiveUp(cfg, s, w, waiting, end, attempt);
        Then(cfg, Busy(s, w, job, now), Busy(s, w, waiting, end), Busy(s, w, Until(job, Failing, end), end));
      } else {
        var again := Until(job, Sending(attempt + 1), end + cfg.sendTimeout);
        TryAgain(cfg, s, w, waiting, end, attempt);
        Then(cfg, Busy(s, w, job, now), Busy(s, w, waiting, end), Busy(s, w, again, end));
        var b1 := Breakers.FailureStep(Dispatcher.BREAKER, b, r.at);
        AttemptsAreARun(cfg, s, w, again, end, b1, replies, attempt + 1);
        var rest := Dispatcher.Attempts(cfg, b1, replies, attempt + 1);
        var delivered, done := rest.outcome == Dispatcher.Delivered, end + rest.elapsed;
        Then(cfg, Busy(s, w, job, now), Busy(s, w, again, end),
             Busy(Booked(s, job.k, delivered), w, Until(job, Ending(delivered), done), done));
      }
    }
  }

  // ---------------------------------------------------------------- one delivery

  /** What the dispatcher does with one delivery: rejects it before sending, or works through its replies. */
  datatype Work = Work(breaker: Breakers.Breaker, replies: Option<seq<Dispatcher.Reply>>)

  predicate Feasible(cfg: Schedule, work: Work)
    requires WellFormed(cfg)
  {
    work.replies.Some? ==> Dispatcher.Plausible(cfg, work.replies.value)
  }

  function Took(cfg: Schedule, work: Work): nat
    requires WellFormed(cfg) && Feasible(cfg, work)
  {
    if work.replies == None then 0 else Dispatcher.Attempts(cfg, work.breaker, work.replies.value, 0).elapsed
  }

  predicate Delivers(cfg: Schedule, work: Work)
    requires WellFormed(cfg) && Feasible(cfg, work)
  {
    work.replies.Some? && Dispatcher.Attempts(cfg, work.breaker, work.replies.value, 0).outcome == Dispatcher.Delivered
  }

  lemma {:induction false} WorkIsARun(cfg: Schedule, s: State, w: nat, job: Job, now: nat, work: Work)
    requires WellFormed(cfg) && Feasible(cfg, work) && job.stage == Preparing
    ensures
      var end, delivered := now + Took(cfg, work), Delivers(cfg, work);
      Leads(cfg, Busy(s, w, job, now), Busy(Booked(s, job.k, delivered), w, Until(job, Ending(delivered), end), end))
  {
    if work.replies == None {
      Moves(cfg, s, w, job, now, Abandon(w, 0), Failing, 0);
    } else {
      var sending := Until(job, Sending(0), now + cfg.sendTimeout);
      Moves(cfg, s, w, job, now, StartSend(w, 0), Sending(0), cfg.sendTimeout);
      AttemptsAreARun(cfg, s, w, sending, now, work.breaker, work.replies.value, 0);
      var end, delivered := now + Took(cfg, work), Delivers(cfg, work);
      Then(cfg, Busy(s, w, job, now), Busy(s, w, sending, now),
           Busy(Booked(s, job.k, delivered), w, Until(job, Ending(delivered), end), end));
    }
  }

  // ---------------------------------------------------------------- the handler

  /** The reply of the outside world to a visit agrees with what the dispatcher does in it. */
  predicate Agrees(cfg: Schedule, r: Handling.Reply, work: Work)
    requires WellFormed(cfg)
  {
    Feasible(cfg, work) && r.delivered == Delivers(cfg, work) && r.endedAt == r.claimedAt + Took(cfg, work)
  }

  /** When a visit is over. */
  function EndOf(d: Handling.Desk, k: Claim, r: Handling.Reply): nat {
    if r.claimFails || Refuses(d.claims, k, r.claimedAt) then r.claimedAt else r.endedAt
  }

  /** All workers are idle at the given time, and the claims are the desk's. */
  predicate Resting(s: State, d: Handling.Desk, now: nat) {
    s.jobs == map[] && s.now == now && s.claims == d.claims
  }

  /** The end of a visit that was granted its claim: complete or release. */
  lemma {:induction false} EndIsARun(cfg: Schedule, s: State, w: nat, job: Job, now: nat, r: Handling.Reply) returns (s1: State)
    requires WellFormed(cfg) && job.stage == Ending(r.delivered)
    ensures Leads(cfg, Busy(s, w, job, now), s1)
    ensures
      var ended := if r.delivered then CompleteStep(s.claims, job.k, now) else ReleaseStep(s.claims, job.k, now);
      s1.jobs == map[] && s1.now == now && s1.claims == if r.endFails && !r.endApplied then s.claims else ended
  {
    var busy := Busy(s, w, job, now);
    var step := if r.delivered then Complete(w, !r.endFails, r.endApplied) else Release(w, !r.endFails, r.endApplied);
    One(cfg, busy, step);
    s1 := Next(cfg, busy, step);
    assert busy.jobs - {w} == map[];
  }

  lemma {:induction false} GrantedIsARun(cfg: Schedule, s: State, w: nat, k: Claim, r: Handling.Reply, work: Work) returns (s1: State)
    requires WellFormed(cfg) && s.jobs == map[] && s.now == r.claimedAt && Agrees(cfg, r, work) && !Refuses(s.claims, k, s.now)
    ensures Leads(cfg, s, s1)
    ensures
      var claimed := ClaimStep(s.claims, k, r.claimedAt, cfg.lease).0;
      var ended := if r.delivered then CompleteStep(claimed, k, r.endedAt) else ReleaseStep(claimed, k, r.endedAt);
      s1.jobs == map[] && s1.now == r.endedAt && s1.claims == if r.endFails && !r.endApplied then claimed else ended
  {
    var now, job := s.now, Job(k, s.now, Preparing, s.now, cfg.overhead);
    var claimed := s.(claims := ClaimStep(s.claims, k, now, cfg.lease).0);
    var end, delivered := r.endedAt, r.delivered;
    One(cfg, s, TryClaim(w, k, 0));
    assert Next(cfg, s, TryClaim(w, k, 0)) == Busy(claimed, w, job, now);
    WorkIsARun(cfg, claimed, w, job, now, work);
    var worked := Busy(Booked(claimed, k, delivered), w, Until(job, Ending(delivered), end), end);
    Then(cfg, s, Busy(claimed, w, job, now), worked);
    s1 := EndIsARun(cfg, Booked(claimed, k, delivered), w, Until(job, Ending(delivered), end), end, r);
    Then(cfg, s, worked, s1);
  }

  /** One subscription's visit by the handler is a run of the lease protocol on the same claims. */
  lemma {:induction false} VisitIsARun(
    cfg: Schedule, s: State, w: nat, d: Handling.Desk, e: Event, sub: Handling.Subscription, oracle: Handling.Oracle, work: Work)
    returns (s1: State)
    requires WellFormed(cfg) && cfg.lease == DELIVERY_LEASE && Resting(s, d, s.now)
    requires s.now <= oracle(d.visits).claimedAt && Agrees(cfg, oracle(d.visits), work)
    ensures Leads(cfg, s, s1)
    ensures Resting(s1, Handling.Visit(d, e, sub, oracle).0, EndOf(d, Handling.ClaimOf(e, sub), oracle(d.visits)))
  {
    var k, r := Handling.ClaimOf(e, sub), oracle(d.visits);
    var later := Next(cfg, s, Tick(r.claimedAt - s.now));
    One(cfg, s, Tick(r.claimedAt - s.now));
    if r.claimFails {
      One(cfg, later, ClaimFails(w, k, r.claimApplied));
      s1 := Next(cfg, later, ClaimFails(w, k, r.claimApplied));
    } else if Refuses(d.claims, k, r.claimedAt) {
      One(cfg, later, TryClaim(w, k, 0));
      s1 := Next(cfg, later, TryClaim(w, k, 0));
    } else {
      s1 := GrantedIsARun(cfg, later, w, k, r, work);
    }
    Then(cfg, s, later, s1);
  }

  /** The readings of a whole handling follow one clock, and each visit agrees with what the dispatcher does in it. */
  predicate Timely(cfg: Schedule, now: nat, d: Handling.Desk, e: Event, subs: seq<Handling.Subscription>, oracle: Handling.Oracle, works: nat -> Work)
    requires WellFormed(cfg)
    decreases |subs|
  {
    subs == [] ||
    (var r := oracle(d.visits);
     && now <= r.claimedAt && Agrees(cfg, r, works(d.visits))
     && Timely(cfg, EndOf(d, Handling.ClaimOf(e, subs[0]), r), Handling.Visit(d, e, subs[0], oracle).0, e, subs[1..], oracle, works))
  }

  lemma {:induction false} DeliverAllLeads(
    cfg: Schedule, s: State, w: nat, d: Handling.Desk, e: Event, subs: seq<Handling.Subscription>, failing: bool,
    oracle: Handling.Oracle, works: nat -> Work) returns (s1: State)
    requires WellFormed(cfg) && cfg.lease == DELIVERY_LEASE && Resting(s, d, s.now)
    requires Timely(cfg, s.now, d, e, subs, oracle, works)
    ensures Leads(cfg, s, s1)
    ensures s1.jobs == map[] && s1.claims == Handling.DeliverAll(d, e, subs, failing, oracle).0.claims
    decreases |subs|
  {
    if subs == [] {
      Stay(cfg, s);
      s1 := s;
    } else {
      var (d1, v) := Handling.Visit(d, e, subs[0], oracle);
      s1 := VisitIsARun(cfg, s, w, d, e, subs[0], oracle, works(d.visits));
      if v != Handling.Error {
        var visited := s1;
        s1 := DeliverAllLeads(cfg, visited, w, d1, e, subs[1..], failing || v == Handling.DeadLetter, oracle, works);
        Then(cfg, s, visited, s1);
      }
    }
  }

  /**
   Handling an event, as `WebhookHandler.Deliver` does with the dispatcher's retry loop inside, is a run
   of the lease protocol that ends with the same claims: what is proved of every run holds of it.
   */
  lemma {:induction false} HandlingIsARun(
    cfg: Schedule, past: seq<Step>, w: nat, d: Handling.Desk, e: Event, subs: seq<Handling.Subscription>, oracle: Handling.Oracle,
    works: nat -> Work) returns (steps: seq<Step>)
    requires WellFormed(cfg) && cfg.lease == DELIVERY_LEASE && Valid(cfg, past)
    requires Resting(After(cfg, past), d, After(cfg, past).now)
    requires Timely(cfg, After(cfg, past).now, d, e, subs, oracle, works)
    ensures Valid(cfg, steps) && After(cfg, steps).jobs == map[]
    ensures After(cfg, steps).claims == Handling.DeliverAll(d, e, subs, false, oracle).0.claims
  {
    var s1 := DeliverAllLeads(cfg, After(cfg, past), w, d, e, subs, false, oracle, works);
    steps := LeadsReaches(cfg, past, s1);
  }
}
