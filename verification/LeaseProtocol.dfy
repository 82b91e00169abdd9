/**
 Any number of webhook workers sharing one claim store that has no fencing tokens.

 A worker that wins a claim works through the dispatcher's retry schedule and then completes or
 releases the claim.  Time passes only as far as every busy worker's current stage allows: a send
 ends within the client timeout, a wait within its backoff and jitter, and all other work (name
 lookup, store round trips, queueing) draws on one overhead budget per claim.  Workers crash at any
 point, and every store call may fail with or without having taken effect.
 */
module LeaseProtocol {
  import opened ClaimStore

  datatype Schedule = Schedule(sendTimeout: nat, backoff: seq<nat>, maxRetries: nat, overhead: nat, lease: nat)

  /** What the retry loop needs: a backoff for every retry, wide enough to draw jitter from. */
  predicate WellFormed(cfg: Schedule) {
    cfg.maxRetries <= |cfg.backoff| && forall i :: 0 <= i < |cfg.backoff| ==> cfg.backoff[i] >= 5
  }

  /** The longest wait after a failed attempt: jitter stays below a fifth of the backoff. */
  function MaxWait(cfg: Schedule, attempt: nat): nat
    requires WellFormed(cfg) && attempt < cfg.maxRetries
  {
    cfg.backoff[attempt] + cfg.backoff[attempt] / 5 - 1
  }

  /** The longest schedule still ahead once the given attempt has ended. */
  function Remaining(cfg: Schedule, attempt: nat): nat
    requires WellFormed(cfg) && attempt <= cfg.maxRetries
    decreases cfg.maxRetries - attempt
  {
    if attempt == cfg.maxRetries then 0
    else MaxWait(cfg, attempt) + cfg.sendTimeout + Remaining(cfg, attempt + 1)
  }

  /** The longest a worker can hold a claim. */
  function Total(cfg: Schedule): nat
    requires WellFormed(cfg)
  {
    cfg.overhead + cfg.sendTimeout + Remaining(cfg, 0)
  }

  const SECOND: nat := 1_000_000_000

  /** The production settings, leaving 946.8 s for everything but sending and waiting. */
  const PRODUCTION: Schedule :=
    Schedule(15 * SECOND, [SECOND, 5 * SECOND, 30 * SECOND, 300 * SECOND, 1800 * SECOND], 5, 946_800_000_000, DELIVERY_LEASE)

  // ---------------------------------------------------------------- the state machine

  datatype Stage = Preparing | Sending(attempt: nat) | Waiting(attempt: nat, wakeAt: nat) | Failing | Succeeded

  /** A worker between a granted claim and its completion or release. */
  datatype Job = Job(k: Claim, claimedAt: nat, stage: Stage, deadline: nat, slack: nat)

  datatype State = State(now: nat, claims: Claims, jobs: map<nat, Job>, successes: map<Claim, nat>, losses: map<Claim, nat>)

  datatype Step =
    | Tick(d: nat)
    | TryClaim(w: nat, k: Claim, extra: nat)
    | ClaimFails(w: nat, k: Claim, applied: bool)
    | StartSend(w: nat, extra: nat)
    | Abandon(w: nat, extra: nat)
    | SendSucceeds(w: nat, extra: nat)
    | SendFails(w: nat, jitter: nat, extra: nat)
    | Wake(w: nat, extra: nat)
    | CancelWait(w: nat, extra: nat)
    | Complete(w: nat, ok: bool, applied: bool)
    | Release(w: nat, ok: bool, applied: bool)
    | Crash(w: nat)

  const INITIAL: State := State(0, map[], map[], map[], map[])

  function Count(m: map<Claim, nat>, k: Claim): nat {
    if k in m then m[k] else 0
  }

  predicate At(s: State, w: nat, extra: nat) {
    w in s.jobs && extra <= s.jobs[w].slack
  }

  predicate Enabled(cfg: Schedule, s: State, step: Step)
    requires WellFormed(cfg)
  {
    match step
    case Tick(d) => forall w :: w in s.jobs ==> s.now + d <= s.jobs[w].deadline
    case TryClaim(w, _, extra) => w !in s.jobs && extra <= cfg.overhead
    case ClaimFails(w, _, _) => w !in s.jobs
    case StartSend(w, extra) => At(s, w, extra) && s.jobs[w].stage.Preparing?
    case Abandon(w, extra) => At(s, w, extra) && s.jobs[w].stage.Preparing?
    case SendSucceeds(w, extra) => At(s, w, extra) && s.jobs[w].stage.Sending?
    case SendFails(w, jitter, extra) =>
      && At(s, w, extra) && s.jobs[w].stage.Sending?
      && (s.jobs[w].stage.attempt < cfg.maxRetries ==> jitter < cfg.backoff[s.jobs[w].stage.attempt] / 5)
    case Wake(w, extra) => At(s, w, extra) && s.jobs[w].stage.Waiting? && s.jobs[w].stage.wakeAt <= s.now
    case CancelWait(w, extra) => At(s, w, extra) && s.jobs[w].stage.Waiting?
    case Complete(w, _, _) => w in s.jobs && s.jobs[w].stage.Succeeded?
    case Release(w, _, _) => w in s.jobs && s.jobs[w].stage.Failing?
    case Crash(w) => w in s.jobs
  }

  /** Moves a worker to its next stage, which must end `length` from now plus whatever overhead it draws. */
  function Advance(s: State, w: nat, stage: Stage, length: nat, extra: nat): State
    requires At(s, w, extra)
  {
    var job := s.jobs[w];
    s.(jobs := s.jobs[w := Job(job.k, job.claimedAt, stage, s.now + length + extra, job.slack - extra)])
  }

  function Next(cfg: Schedule, s: State, step: Step): State
    requires WellFormed(cfg) && Enabled(cfg, s, step)
  {
    match step
    case Tick(d) => s.(now := s.now + d)
    case TryClaim(w, k, extra) =>
      var (claims, granted) := ClaimStep(s.claims, k, s.now, cfg.lease);
      if granted then
        s.(claims := claims, jobs := s.jobs[w := Job(k, s.now, Preparing, s.now + extra, cfg.overhead - extra)])
      else s
    case ClaimFails(w, k, applied) =>
      if applied then s.(claims := ClaimStep(s.claims, k, s.now, cfg.lease).0) else s
    case StartSend(w, extra) => Advance(s, w, Sending(0), cfg.sendTimeout, extra)
    case Abandon(w, extra) => Advance(s, w, Failing, 0, extra)
    case SendSucceeds(w, extra) =>
      var k := s.jobs[w].k;
      Advance(s, w, Succeeded, 0, extra).(successes := s.successes[k := Count(s.successes, k) + 1])
    case SendFails(w, jitter, extra) =>
      var a := s.jobs[w].stage.attempt;
      if a < cfg.maxRetries then
        var wait := cfg.backoff[a] + jitter;
        Advance(s, w, Waiting(a, s.now + wait), wait, extra)
      else Advance(s, w, Failing, 0, extra)
    case Wake(w, extra) => Advance(s, w, Sending(s.jobs[w].stage.attempt + 1), cfg.sendTimeout, extra)
    case CancelWait(w, extra) => Advance(s, w, Failing, 0, extra)
    case Complete(w, ok, applied) =>
      var k := s.jobs[w].k;
      State(s.now,
            if ok || applied then CompleteStep(s.claims, k, s.now) else s.claims,
            s.jobs - {w}, s.successes,
            if ok then s.losses else s.losses[k := Count(s.losses, k) + 1])
    case Release(w, ok, applied) =>
      s.(claims := if ok || applied then ReleaseStep(s.claims, s.jobs[w].k, s.now) else s.claims, jobs := s.jobs - {w})
    case Crash(w) =>
      var k := s.jobs[w].k;
      s.(jobs := s.jobs - {w},
         losses := if s.jobs[w].stage.Succeeded? then s.losses[k := Count(s.losses, k) + 1] else s.losses)
  }

  /** Runs from the initial state: every step enabled where it is taken. */
  predicate Valid(cfg: Schedule, steps: seq<Step>)
    requires WellFormed(cfg)
    decreases |steps|, 0
  {
    steps == [] ||
    (Valid(cfg, steps[..|steps| - 1]) && Enabled(cfg, After(cfg, steps[..|steps| - 1]), steps[|steps| - 1]))
  }

  function After(cfg: Schedule, steps: seq<Step>): State
    requires WellFormed(cfg) && Valid(cfg, steps)
    decreases |steps|, 1
  {
    if steps == [] then INITIAL else Next(cfg, After(cfg, steps[..|steps| - 1]), steps[|steps| - 1])
  }

  // ---------------------------------------------------------------- what every state satisfies

  /** The longest schedule ahead of a stage once its own deadline has come. */
  function Ahead(cfg: Schedule, stage: Stage): nat
    requires WellFormed(cfg)
  {
    match stage
    case Preparing => cfg.sendTimeout + Remaining(cfg, 0)
    case Sending(a) => if a <= cfg.maxRetries then Remaining(cfg, a) else 0
    case Waiting(a, _) => if a < cfg.maxRetries then cfg.sendTimeout + Remaining(cfg, a + 1) else 0
    case Failing => 0
    case Succeeded => 0
  }

  /** A job never outlasts the schedule. */
  predicate OnSchedule(cfg: Schedule, now: nat, job: Job)
    requires WellFormed(cfg)
  {
    && (job.stage.Sending? ==> job.stage.attempt <= cfg.maxRetries)
    && (job.stage.Waiting? ==> job.stage.attempt < cfg.maxRetries)
    && now <= job.deadline
    && job.deadline + Ahead(cfg, job.stage) + job.slack <= job.claimedAt + Total(cfg)
  }

  /** No two busy workers hold the same delivery. */
  predicate Exclusive(s: State) {
    forall v, w :: v in s.jobs && w in s.jobs && s.jobs[v].k == s.jobs[w].k ==> v == w
  }

  predicate Held(cfg: Schedule, s: State, w: nat)
    requires w in s.jobs
  {
    var job := s.jobs[w];
    job.k in s.claims && s.claims[job.k] == Entry(Processing, job.claimedAt + cfg.lease)
  }

  ghost predicate DeliveredBy(s: State, w: nat, k: Claim) {
    w in s.jobs && s.jobs[w].k == k && s.jobs[w].stage.Succeeded?
  }

  predicate IsCompleted(s: State, k: Claim) {
    k in s.claims && s.claims[k].status == Completed
  }

  /** A success that is recorded, or about to be. */
  ghost predicate Credited(s: State, k: Claim) {
    IsCompleted(s, k) || exists w :: DeliveredBy(s, w, k)
  }

  ghost predicate Counted(s: State) {
    forall k :: Count(s.successes, k) <= Count(s.losses, k) + (if Credited(s, k) then 1 else 0)
  }

  ghost predicate Inv(cfg: Schedule, s: State)
    requires WellFormed(cfg)
  {
    && (forall w :: w in s.jobs ==> OnSchedule(cfg, s.now, s.jobs[w]) && Held(cfg, s, w))
    && Exclusive(s)
    && Counted(s)
  }

  /** While a claim is held its lease is running, so nobody else can take it. */
  lemma {:induction false} HeldIsRefused(cfg: Schedule, s: State, w: nat)
    requires WellFormed(cfg) && Total(cfg) < cfg.lease && w in s.jobs
    requires OnSchedule(cfg, s.now, s.jobs[w]) && Held(cfg, s, w)
    ensures Refuses(s.claims, s.jobs[w].k, s.now)
    ensures s.claims[s.jobs[w].k].leaseUntil > s.now
  {
  }

  lemma {:induction false} AdvanceKeepsInv(cfg: Schedule, s: State, w: nat, stage: Stage, length: nat, extra: nat)
    requires WellFormed(cfg) && Inv(cfg, s) && At(s, w, extra)
    requires stage.Sending? ==> stage.attempt <= cfg.maxRetries
    requires stage.Waiting? ==> stage.attempt < cfg.maxRetries
    requires length + Ahead(cfg, stage) <= Ahead(cfg, s.jobs[w].stage)
    requires !s.jobs[w].stage.Succeeded?
    ensures
      var s1 := Advance(s, w, stage, length, extra);
      Inv(cfg, s1) && forall k :: Credited(s, k) ==> Credited(s1, k)
  {
    var s1 := Advance(s, w, stage, length, extra);
    forall v | v in s1.jobs ensures OnSchedule(cfg, s1.now, s1.jobs[v]) && Held(cfg, s1, v) {
      assert Held(cfg, s, v);
    }
    forall k | Credited(s, k) ensures Credited(s1, k) {
      if !IsCompleted(s, k) {
        var v :| DeliveredBy(s, v, k);
        assert DeliveredBy(s1, v, k);
      }
    }
  }

  lemma {:induction false} TickKeepsInv(cfg: Schedule, s: State, d: nat)
    requires WellFormed(cfg) && Inv(cfg, s) && Enabled(cfg, s, Tick(d))
    ensures Inv(cfg, Next(cfg, s, Tick(d)))
  {
    var s1 := Next(cfg, s, Tick(d));
    forall w | w in s1.jobs ensures OnSchedule(cfg, s1.now, s1.jobs[w]) && Held(cfg, s1, w) {
      assert Held(cfg, s, w);
    }
    forall k ensures Credited(s, k) == Credited(s1, k) {
      assert forall w :: DeliveredBy(s, w, k) == DeliveredBy(s1, w, k);
    }
  }

  /** A claim the store grants is held by nobody, so a new entry for it disturbs no job. */
  lemma {:induction false} ClaimKeepsInv(cfg: Schedule, s: State, k: Claim)
    requires WellFormed(cfg) && Total(cfg) < cfg.lease && Inv(cfg, s)
    ensures Inv(cfg, s.(claims := ClaimStep(s.claims, k, s.now, cfg.lease).0))
    ensures !Refuses(s.claims, k, s.now) ==> forall w :: w in s.jobs ==> s.jobs[w].k != k
  {
    var s1 := s.(claims := ClaimStep(s.claims, k, s.now, cfg.lease).0);
    if !Refuses(s.claims, k, s.now) {
      forall w | w in s.jobs ensures s.jobs[w].k != k {
        HeldIsRefused(cfg, s, w);
      }
      forall w | w in s1.jobs ensures OnSchedule(cfg, s1.now, s1.jobs[w]) && Held(cfg, s1, w) {
        assert Held(cfg, s, w);
      }
      forall k' ensures Credited(s, k') == Credited(s1, k') {
        assert forall w :: DeliveredBy(s, w, k') == DeliveredBy(s1, w, k');
      }
    }
  }

  lemma {:induction false} TryClaimKeepsInv(cfg: Schedule, s: State, step: Step)
    requires WellFormed(cfg) && Total(cfg) < cfg.lease && Inv(cfg, s)
    requires step.TryClaim? && Enabled(cfg, s, step)
    ensures Inv(cfg, Next(cfg, s, step))
  {
    ClaimKeepsInv(cfg, s, step.k);
    if !Refuses(s.claims, step.k, s.now) {
      var s0 := s.(claims := ClaimStep(s.claims, step.k, s.now, cfg.lease).0);
      var s1 := Next(cfg, s, step);
      forall w | w in s1.jobs ensures OnSchedule(cfg, s1.now, s1.jobs[w]) && Held(cfg, s1, w) {
        assert w in s0.jobs ==> Held(cfg, s0, w);
      }
      forall k ensures Credited(s0, k) == Credited(s1, k) {
        assert forall w :: DeliveredBy(s0, w, k) == DeliveredBy(s1, w, k);
      }
    }
  }

  lemma {:induction false} SendSucceedsKeepsInv(cfg: Schedule, s: State, step: Step)
    requires WellFormed(cfg) && Inv(cfg, s) && step.SendSucceeds? && Enabled(cfg, s, step)
    ensures Inv(cfg, Next(cfg, s, step))
  {
    var k, s1 := s.jobs[step.w].k, Next(cfg, s, step);
    var s0 := Advance(s, step.w, Succeeded, 0, step.extra);
    AdvanceKeepsInv(cfg, s, step.w, Succeeded, 0, step.extra);
    forall w | w in s1.jobs ensures OnSchedule(cfg, s1.now, s1.jobs[w]) && Held(cfg, s1, w) {
      assert Held(cfg, s0, w);
    }
    assert !Credited(s, k) by {
      assert Held(cfg, s, step.w);
      assert forall w :: !DeliveredBy(s, w, k);
    }
    assert DeliveredBy(s1, step.w, k);
    forall k' ensures Credited(s0, k') ==> Credited(s1, k') {
      assert forall w :: DeliveredBy(s0, w, k') == DeliveredBy(s1, w, k');
    }
  }

  lemma {:induction false} WaitFits(cfg: Schedule, a: nat, jitter: nat)
    requires WellFormed(cfg) && a < cfg.maxRetries && jitter < cfg.backoff[a] / 5
    ensures cfg.backoff[a] + jitter + cfg.sendTimeout + Remaining(cfg, a + 1) <= Remaining(cfg, a)
  {
  }

  lemma {:induction false} SendFailsKeepsInv(cfg: Schedule, s: State, step: Step)
    requires WellFormed(cfg) && Inv(cfg, s) && step.SendFails? && Enabled(cfg, s, step)
    ensures Inv(cfg, Next(cfg, s, step))
  {
    var w, extra := step.w, step.extra;
    var a := s.jobs[w].stage.attempt;
    assert a <= cfg.maxRetries && s.jobs[w].stage == Sending(a) by {
      assert OnSchedule(cfg, s.now, s.jobs[w]);
    }
    if a == cfg.maxRetries {
      assert Next(cfg, s, step) == Advance(s, w, Failing, 0, extra);
      AdvanceKeepsInv(cfg, s, w, Failing, 0, extra);
    } else {
      var wait := cfg.backoff[a] + step.jitter;
      WaitFits(cfg, a, step.jitter);
      assert Next(cfg, s, step) == Advance(s, w, Waiting(a, s.now + wait), wait, extra);
      AdvanceKeepsInv(cfg, s, w, Waiting(a, s.now + wait), wait, extra);
    }
  }

  lemma {:induction false} StageKeepsInv(cfg: Schedule, s: State, step: Step)
    requires WellFormed(cfg) && Inv(cfg, s) && Enabled(cfg, s, step)
    requires step.StartSend? || step.Abandon? || step.Wake? || step.CancelWait?
    ensures Inv(cfg, Next(cfg, s, step))
  {
    var w := step.w;
    match step
    case StartSend(_, extra) => AdvanceKeepsInv(cfg, s, w, Sending(0), cfg.sendTimeout, extra);
    case Abandon(_, extra) => AdvanceKeepsInv(cfg, s, w, Failing, 0, extra);
    case Wake(_, extra) => AdvanceKeepsInv(cfg, s, w, Sending(s.jobs[w].stage.attempt + 1), cfg.sendTimeout, extra);
    case CancelWait(_, extra) => AdvanceKeepsInv(cfg, s, w, Failing, 0, extra);
  }

  /** Only the holder can have delivered what it holds. */
  lemma {:induction false} CreditIsTheHolders(cfg: Schedule, s: State, w: nat)
    requires WellFormed(cfg) && Inv(cfg, s) && w in s.jobs
    ensures Credited(s, s.jobs[w].k) ==> s.jobs[w].stage.Succeeded?
  {
    assert Held(cfg, s, w);
  }

  /**
   A job may end by any change to its own claim, provided that a success is either recorded as
   completed or written down as lost.
   */
  lemma {:induction false} EndingKeepsInv(cfg: Schedule, s: State, w: nat, claims: Claims, losses: map<Claim, nat>)
    requires WellFormed(cfg) && Inv(cfg, s) && w in s.jobs
    requires forall k :: k != s.jobs[w].k && k in s.claims ==> k in claims && claims[k] == s.claims[k]
    requires forall k :: Count(losses, k) >= Count(s.losses, k)
    requires
      var k := s.jobs[w].k;
      s.jobs[w].stage.Succeeded? ==> (k in claims && claims[k].status == Completed) || Count(losses, k) > Count(s.losses, k)
    ensures Inv(cfg, State(s.now, claims, s.jobs - {w}, s.successes, losses))
  {
    var s1 := State(s.now, claims, s.jobs - {w}, s.successes, losses);
    CreditIsTheHolders(cfg, s, w);
    forall v | v in s1.jobs ensures OnSchedule(cfg, s1.now, s1.jobs[v]) && Held(cfg, s1, v) {
      assert Held(cfg, s, v);
    }
    forall k ensures Count(s1.successes, k) <= Count(s1.losses, k) + (if Credited(s1, k) then 1 else 0) {
      assert Count(losses, k) >= Count(s.losses, k);
      if k != s.jobs[w].k {
        assert forall v :: DeliveredBy(s, v, k) == DeliveredBy(s1, v, k);
        assert IsCompleted(s, k) ==> IsCompleted(s1, k);
      }
    }
  }

  lemma {:induction false} StepKeepsInv(cfg: Schedule, s: State, step: Step)
    requires WellFormed(cfg) && Total(cfg) < cfg.lease && Inv(cfg, s) && Enabled(cfg, s, step)
    ensures Inv(cfg, Next(cfg, s, step))
  {
    match step
    case Tick(d) => TickKeepsInv(cfg, s, d);
    case TryClaim(_, _, _) => TryClaimKeepsInv(cfg, s, step);
    case ClaimFails(_, k, _) => ClaimKeepsInv(cfg, s, k);
    case SendSucceeds(_, _) => SendSucceedsKeepsInv(cfg, s, step);
    case StartSend(_, _) => StageKeepsInv(cfg, s, step);
    case Abandon(_, _) => StageKeepsInv(cfg, s, step);
    case SendFails(_, _, _) => SendFailsKeepsInv(cfg, s, step);
    case Wake(_, _) => StageKeepsInv(cfg, s, step);
    case CancelWait(_, _) => StageKeepsInv(cfg, s, step);
    case Complete(w, _, _) =>
      HeldIsRefused(cfg, s, w);
      EndingKeepsInv(cfg, s, w, Next(cfg, s, step).claims, Next(cfg, s, step).losses);
    case Release(w, _, _) => EndingKeepsInv(cfg, s, w, Next(cfg, s, step).claims, s.losses);
    case Crash(w) => EndingKeepsInv(cfg, s, w, s.claims, Next(cfg, s, step).losses);
  }

  lemma {:induction false} RunsKeepInv(cfg: Schedule, steps: seq<Step>)
    requires WellFormed(cfg) && Total(cfg) < cfg.lease && Valid(cfg, steps)
    ensures Inv(cfg, After(cfg, steps))
  {
    if steps != [] {
      var before := steps[..|steps| - 1];
      RunsKeepInv(cfg, before);
      StepKeepsInv(cfg, After(cfg, before), steps[|steps| - 1]);
    }
  }

  // ---------------------------------------------------------------- main results

  /** A busy worker's completion or release is never silently ignored by the store. */
  lemma {:induction false} EndingsTakeEffect(cfg: Schedule, steps: seq<Step>, w: nat)
    requires WellFormed(cfg) && Total(cfg) < cfg.lease && Valid(cfg, steps)
    requires w in After(cfg, steps).jobs
    ensures
      var s := After(cfg, steps);
      var k := s.jobs[w].k;
      && Refuses(s.claims, k, s.now)
      && CompleteStep(s.claims, k, s.now) == s.claims[k := Entry(Completed, ZERO_TIME)]
      && ReleaseStep(s.claims, k, s.now) == s.claims[k := Entry(Pending, ZERO_TIME)]
  {
    RunsKeepInv(cfg, steps);
    var s := After(cfg, steps);
    assert Held(cfg, s, w);
    HeldIsRefused(cfg, s, w);
  }

  /** Successful deliveries never exceed one plus the crashes and failed completions that followed a success. */
  lemma {:induction false} DeliveriesAreCounted(cfg: Schedule, steps: seq<Step>, k: Claim)
    requires WellFormed(cfg) && Total(cfg) < cfg.lease && Valid(cfg, steps)
    ensures
      var s := After(cfg, steps);
      Count(s.successes, k) <= 1 + Count(s.losses, k)
  {
    RunsKeepInv(cfg, steps);
  }

  lemma {:induction false} StepKeepsCompleted(cfg: Schedule, s: State, step: Step, k: Claim)
    requires WellFormed(cfg) && Enabled(cfg, s, step) && IsCompleted(s, k)
    ensures IsCompleted(Next(cfg, s, step), k)
  {
  }

  lemma {:induction false} ValidPrefix(cfg: Schedule, steps: seq<Step>, n: nat)
    requires WellFormed(cfg) && Valid(cfg, steps) && n <= |steps|
    ensures Valid(cfg, steps[..n])
  {
    if n == |steps| {
      assert steps[..n] == steps;
    } else {
      var before := steps[..|steps| - 1];
      assert before[..n] == steps[..n];
      ValidPrefix(cfg, before, n);
    }
  }

  /** The state a run is in after its first `n` steps. */
  function AfterFirst(cfg: Schedule, steps: seq<Step>, n: nat): State
    requires WellFormed(cfg) && Valid(cfg, steps) && n <= |steps|
  {
    ValidPrefix(cfg, steps, n);
    After(cfg, steps[..n])
  }

  /** Completed is absorbing, on any schedule. */
  lemma {:induction false} CompletedIsForever(cfg: Schedule, steps: seq<Step>, n: nat, k: Claim)
    requires WellFormed(cfg) && Valid(cfg, steps) && n <= |steps|
    requires IsCompleted(AfterFirst(cfg, steps, n), k)
    ensures IsCompleted(After(cfg, steps), k)
  {
    if n == |steps| {
      assert steps[..n] == steps;
    } else {
      var before := steps[..|steps| - 1];
      assert before[..n] == steps[..n];
      CompletedIsForever(cfg, before, n, k);
      StepKeepsCompleted(cfg, After(cfg, before), steps[|steps| - 1], k);
    }
  }

  /**
   The production schedule fits its lease, with five nanoseconds to spare; what is left of it after
   each attempt, waits of 1, 5, 30, 300 and 1800 seconds with up to a fifth more and sends of 15.
   */
  lemma {:induction false} ProductionFits()
    ensures WellFormed(PRODUCTION) && PRODUCTION.maxRetries == 5
    ensures Remaining(PRODUCTION, 5) == 0
    ensures Remaining(PRODUCTION, 4) == 2175_000_000_000 - 1
    ensures Remaining(PRODUCTION, 3) == 2550_000_000_000 - 2
    ensures Remaining(PRODUCTION, 2) == 2601_000_000_000 - 3
    ensures Remaining(PRODUCTION, 1) == 2622_000_000_000 - 4
    ensures Remaining(PRODUCTION, 0) == 2638_200_000_000 - 5
    ensures Total(PRODUCTION) == 3599_999_999_995 < 3600_000_000_000 == PRODUCTION.lease
  {
    assert Remaining(PRODUCTION, 5) == 0;
    assert Remaining(PRODUCTION, 4) == 1800 * SECOND + 360 * SECOND - 1 + 15 * SECOND;
    assert Remaining(PRODUCTION, 3) == 300 * SECOND + 60 * SECOND - 1 + 15 * SECOND + Remaining(PRODUCTION, 4);
    assert Remaining(PRODUCTION, 2) == 30 * SECOND + 6 * SECOND - 1 + 15 * SECOND + Remaining(PRODUCTION, 3);
    assert Remaining(PRODUCTION, 1) == 5 * SECOND + SECOND - 1 + 15 * SECOND + Remaining(PRODUCTION, 2);
    assert Remaining(PRODUCTION, 0) == SECOND + SECOND / 5 - 1 + 15 * SECOND + Remaining(PRODUCTION, 1);
  }

  // ---------------------------------------------------------------- the schedule bound is exact

  lemma {:induction false} Extend(cfg: Schedule, steps: seq<Step>, step: Step)
    requires WellFormed(cfg) && Valid(cfg, steps) && Enabled(cfg, After(cfg, steps), step)
    ensures Valid(cfg, steps + [step])
    ensures After(cfg, steps + [step]) == Next(cfg, After(cfg, steps), step)
  {
    assert (steps + [step])[..|steps|] == steps;
  }

  /** Worker 0 alone, `elapsed` after its claim of `k`, in the given stage with all of its overhead unspent. */
  function Alone(cfg: Schedule, k: Claim, elapsed: nat, stage: Stage, length: nat): State {
    State(elapsed, map[k := Entry(Processing, cfg.lease)], map[0 := Job(k, 0, stage, elapsed + length, cfg.overhead)],
          map[], map[])
  }

  /** When the given attempt starts if every earlier send and wait takes as long as it may. */
  function SlowestStart(cfg: Schedule, attempt: nat): nat
    requires WellFormed(cfg) && attempt <= cfg.maxRetries
  {
    if attempt == 0 then 0 else SlowestStart(cfg, attempt - 1) + cfg.sendTimeout + MaxWait(cfg, attempt - 1)
  }

  lemma {:induction false} SlowestIsTotal(cfg: Schedule, attempt: nat)
    requires WellFormed(cfg) && attempt <= cfg.maxRetries
    ensures SlowestStart(cfg, attempt) + cfg.sendTimeout + Remaining(cfg, attempt) + cfg.overhead == Total(cfg)
  {
    if attempt > 0 {
      SlowestIsTotal(cfg, attempt - 1);
    }
  }

  lemma {:induction false} AloneMoves(cfg: Schedule, k: Claim, elapsed: nat, stage: Stage, length: nat, stage1: Stage, length1: nat)
    requires WellFormed(cfg)
    ensures
      var s := Alone(cfg, k, elapsed, stage, length);
      && Enabled(cfg, s, Tick(length))
      && Next(cfg, s, Tick(length)) == Alone(cfg, k, elapsed + length, stage, 0)
      && Advance(s, 0, stage1, length1, 0) == Alone(cfg, k, elapsed, stage1, length1)
  {
  }

  lemma {:induction false} FirstSend(cfg: Schedule, k: Claim) returns (steps: seq<Step>)
    requires WellFormed(cfg)
    ensures Valid(cfg, steps) && After(cfg, steps) == Alone(cfg, k, 0, Sending(0), cfg.sendTimeout)
  {
    Extend(cfg, [], TryClaim(0, k, 0));
    steps := [] + [TryClaim(0, k, 0)];
    assert After(cfg, steps) == Alone(cfg, k, 0, Preparing, 0);
    AloneMoves(cfg, k, 0, Preparing, 0, Sending(0), cfg.sendTimeout);
    Extend(cfg, steps, StartSend(0, 0));
    steps := steps + [StartSend(0, 0)];
  }

  /** A send that takes its full time and fails, drawing the longest wait. */
  lemma {:induction false} SlowSend(cfg: Schedule, k: Claim, steps0: seq<Step>, start: nat, a: nat) returns (steps: seq<Step>)
    requires WellFormed(cfg) && a < cfg.maxRetries && Valid(cfg, steps0)
    requires After(cfg, steps0) == Alone(cfg, k, start, Sending(a), cfg.sendTimeout)
    ensures Valid(cfg, steps)
    ensures
      var end, wait := start + cfg.sendTimeout, MaxWait(cfg, a);
      After(cfg, steps) == Alone(cfg, k, end, Waiting(a, end + wait), wait)
  {
    var end, wait := start + cfg.sendTimeout, MaxWait(cfg, a);
    var failure := SendFails(0, cfg.backoff[a] / 5 - 1, 0);
    AloneMoves(cfg, k, start, Sending(a), cfg.sendTimeout, Failing, 0);
    Extend(cfg, steps0, Tick(cfg.sendTimeout));
    AloneMoves(cfg, k, end, Sending(a), 0, Waiting(a, end + wait), wait);
    Extend(cfg, steps0 + [Tick(cfg.sendTimeout)], failure);
    steps := steps0 + [Tick(cfg.sendTimeout)] + [failure];
  }

  /** A wait of full length, and the next send. */
  lemma {:induction false} SlowWait(cfg: Schedule, k: Claim, steps0: seq<Step>, end: nat, a: nat) returns (steps: seq<Step>)
    requires WellFormed(cfg) && a < cfg.maxRetries && Valid(cfg, steps0)
    requires After(cfg, steps0) == Alone(cfg, k, end, Waiting(a, end + MaxWait(cfg, a)), MaxWait(cfg, a))
    ensures Valid(cfg, steps)
    ensures After(cfg, steps) == Alone(cfg, k, end + MaxWait(cfg, a), Sending(a + 1), cfg.sendTimeout)
  {
    var wait := MaxWait(cfg, a);
    AloneMoves(cfg, k, end, Waiting(a, end + wait), wait, Failing, 0);
    Extend(cfg, steps0, Tick(wait));
    AloneMoves(cfg, k, end + wait, Waiting(a, end + wait), 0, Sending(a + 1), cfg.sendTimeout);
    Extend(cfg, steps0 + [Tick(wait)], Wake(0, 0));
    steps := steps0 + [Tick(wait)] + [Wake(0, 0)];
  }

  lemma {:induction false} SlowRetry(cfg: Schedule, k: Claim, steps0: seq<Step>, start: nat, a: nat) returns (steps: seq<Step>)
    requires WellFormed(cfg) && a < cfg.maxRetries && Valid(cfg, steps0)
    requires After(cfg, steps0) == Alone(cfg, k, start, Sending(a), cfg.sendTimeout)
    ensures Valid(cfg, steps)
    ensures After(cfg, steps) == Alone(cfg, k, start + cfg.sendTimeout + MaxWait(cfg, a), Sending(a + 1), cfg.sendTimeout)
  {
    var sent := SlowSend(cfg, k, steps0, start, a);
    steps := SlowWait(cfg, k, sent, start + cfg.sendTimeout, a);
  }

  lemma {:induction false} SlowestRun(cfg: Schedule, k: Claim, attempt: nat) returns (steps: seq<Step>)
    requires WellFormed(cfg) && attempt <= cfg.maxRetries
    ensures Valid(cfg, steps)
    ensures After(cfg, steps) == Alone(cfg, k, SlowestStart(cfg, attempt), Sending(attempt), cfg.sendTimeout)
  {
    if attempt == 0 {
      steps := FirstSend(cfg, k);
    } else {
      var a := attempt - 1;
      var earlier := SlowestRun(cfg, k, a);
      var start := SlowestStart(cfg, a);
      assert SlowestStart(cfg, attempt) == start + cfg.sendTimeout + MaxWait(cfg, a);
      steps := SlowRetry(cfg, k, earlier, start, a);
    }
  }

  /** When the schedule outlasts the lease, some run lets a second worker take a claim that is still held. */
  lemma {:induction false} LongScheduleBreaksExclusion(cfg: Schedule, k: Claim) returns (steps: seq<Step>)
    requires WellFormed(cfg) && Total(cfg) >= cfg.lease
    ensures Valid(cfg, steps) && !Exclusive(After(cfg, steps))
  {
    var last := cfg.maxRetries;
    steps := SlowestRun(cfg, k, last);
    SlowestIsTotal(cfg, last);
    Extend(cfg, steps, Tick(cfg.sendTimeout));
    steps := steps + [Tick(cfg.sendTimeout)];
    Extend(cfg, steps, SendFails(0, 0, cfg.overhead));
    steps := steps + [SendFails(0, 0, cfg.overhead)];
    Extend(cfg, steps, Tick(cfg.overhead));
    steps := steps + [Tick(cfg.overhead)];
    Extend(cfg, steps, TryClaim(1, k, 0));
    steps := steps + [TryClaim(1, k, 0)];
    var s := After(cfg, steps);
    assert s.jobs[0].k == s.jobs[1].k == k;
  }

  /** Exclusion holds in every reachable state exactly when the whole retry schedule fits inside the lease. */
  lemma {:induction false} ExclusionIffScheduleFits(cfg: Schedule)
    requires WellFormed(cfg)
    ensures Total(cfg) < cfg.lease <==> forall steps :: Valid(cfg, steps) ==> Exclusive(After(cfg, steps))
  {
    if Total(cfg) < cfg.lease {
      forall steps | Valid(cfg, steps) ensures Exclusive(After(cfg, steps)) {
        RunsKeepInv(cfg, steps);
      }
    } else {
      var steps := LongScheduleBreaksExclusion(cfg, Claim("", "", ""));
    }
  }
}
