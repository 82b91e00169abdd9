/**
 Any number of deliveries in flight at once through one dispatcher.

 Each delivery has a number of its own and moves through the stages of the delivery code; the steps
 interleave freely.  `probe` remembers which delivery an endpoint's half-open breaker let through
 last, until something reports; `aborted` those that were let through and gave up before sending.
 */
module ConcurrentDeliveries {
  import opened Events
  import opened CircuitBreakers

  datatype Config = Config(breaker: Settings, limit: nat, maxRetries: nat)

  predicate WellFormed(cfg: Config) {
    cfg.breaker.threshold >= 1 && cfg.limit >= 1
  }

  datatype Stage = Queued | Holding | Sending(attempt: nat) | Waiting(attempt: nat)

  datatype Flight = Flight(endpoint: string, stage: Stage)

  datatype State = State(
    next: nat,
    flights: map<nat, Flight>,
    breakers: map<string, Breaker>,
    slots: map<string, nat>,
    sent: map<string, nat>,
    reported: map<string, nat>,
    probe: map<string, nat>,
    aborted: set<nat>)

  const INITIAL: State := State(0, map[], map[], map[], map[], map[], map[], {})

  datatype Step =
    | Start(endpoint: string, now: int)
    | Acquire(id: nat)
    | AcquireFails(id: nat)
    | EncodeFails(id: nat)
    | Send(id: nat)
    | SendSucceeds(id: nat)
    | SendFails(id: nat, now: int)
    | WaitCancelled(id: nat)

  function BreakerOf(s: State, e: string): Breaker {
    if e in s.breakers then s.breakers[e] else FRESH
  }

  function Count(m: map<string, nat>, e: string): nat {
    if e in m then m[e] else 0
  }

  predicate Enabled(cfg: Config, s: State, step: Step) {
    match step
    case Start(_, _) => true
    case Acquire(id) => id in s.flights && s.flights[id].stage == Queued && Count(s.slots, s.flights[id].endpoint) < cfg.limit
    case AcquireFails(id) => id in s.flights && s.flights[id].stage == Queued
    case EncodeFails(id) => id in s.flights && s.flights[id].stage == Holding
    case Send(id) => id in s.flights && (s.flights[id].stage == Holding || s.flights[id].stage.Waiting?)
    case SendSucceeds(id) => id in s.flights && s.flights[id].stage.Sending?
    case SendFails(id, _) => id in s.flights && s.flights[id].stage.Sending?
    case WaitCancelled(id) => id in s.flights && s.flights[id].stage.Waiting?
  }

  /** Frees the slot; a plain subtraction would be undefined on an empty bulkhead. */
  function Freed(s: State, e: string): map<string, nat> {
    s.slots[e := if Count(s.slots, e) > 0 then Count(s.slots, e) - 1 else 0]
  }

  /** Reports to the endpoint's breaker, which settles any probe. */
  function Report(s: State, e: string, b: Breaker): State {
    s.(breakers := s.breakers[e := b], reported := s.reported[e := Count(s.reported, e) + 1], probe := s.probe - {e})
  }

  function Next(cfg: Config, s: State, step: Step): State
    requires Enabled(cfg, s, step)
  {
    match step
    case Start(e, now) =>
      var (b, granted) := AllowStep(cfg.breaker, BreakerOf(s, e), now);
      var s1 := s.(breakers := s.breakers[e := b]);
      if !granted then s1
      else s1.(next := s.next + 1, flights := s.flights[s.next := Flight(e, Queued)],
               probe := if b.state == HalfOpen then s.probe[e := s.next] else s.probe)
    case Acquire(id) =>
      var e := s.flights[id].endpoint;
      s.(slots := s.slots[e := Count(s.slots, e) + 1], flights := s.flights[id := Flight(e, Holding)])
    case AcquireFails(id) => s.(flights := s.flights - {id}, aborted := s.aborted + {id})
    case EncodeFails(id) =>
      s.(slots := Freed(s, s.flights[id].endpoint), flights := s.flights - {id}, aborted := s.aborted + {id})
    case Send(id) =>
      var f := s.flights[id];
      var attempt := if f.stage == Holding then 0 else f.stage.attempt + 1;
      s.(flights := s.flights[id := Flight(f.endpoint, Sending(attempt))],
         sent := s.sent[f.endpoint := Count(s.sent, f.endpoint) + 1])
    case SendSucceeds(id) =>
      var e := s.flights[id].endpoint;
      Report(s, e, SuccessStep(BreakerOf(s, e))).(slots := Freed(s, e), flights := s.flights - {id})
    case SendFails(id, now) =>
      var f := s.flights[id];
      var s1 := Report(s, f.endpoint, FailureStep(cfg.breaker, BreakerOf(s, f.endpoint), now));
      if f.stage.attempt == cfg.maxRetries then s1.(slots := Freed(s, f.endpoint), flights := s.flights - {id})
      else s1.(flights := s.flights[id := Flight(f.endpoint, Waiting(f.stage.attempt))])
    case WaitCancelled(id) => s.(slots := Freed(s, s.flights[id].endpoint), flights := s.flights - {id})
  }

  predicate ValidFrom(cfg: Config, s: State, steps: seq<Step>)
    decreases |steps|
  {
    steps == [] || (Enabled(cfg, s, steps[0]) && ValidFrom(cfg, Next(cfg, s, steps[0]), steps[1..]))
  }

  function After(cfg: Config, s: State, steps: seq<Step>): State
    requires ValidFrom(cfg, s, steps)
    decreases |steps|
  {
    if steps == [] then s else After(cfg, Next(cfg, s, steps[0]), steps[1..])
  }

  // ---------------------------------------------------------------- what every state satisfies

  /** Deliveries on an endpoint that hold a bulkhead slot. */
  function Holders(fs: map<nat, Flight>, e: string): set<nat> {
    set id | id in fs && fs[id].endpoint == e && fs[id].stage != Queued
  }

  /** Sends now under way on an endpoint. */
  function InSend(fs: map<nat, Flight>, e: string): set<nat> {
    set id | id in fs && fs[id].endpoint == e && fs[id].stage.Sending?
  }

  predicate Idle(s: State, e: string) {
    forall id :: id in s.flights ==> s.flights[id].endpoint != e
  }

  predicate Sound(cfg: Config, b: Breaker) {
    && (b.state == Closed <==> b.failures < cfg.breaker.threshold)
    && (b.probeInFlight <==> b.state == HalfOpen)
  }

  /** The probe of a half-open breaker has not reported: it is on its way to its first report, or has given up. */
  predicate ProbeUnreported(s: State, e: string) {
    e in s.probe ==>
      && s.probe[e] < s.next
      && (if s.probe[e] in s.flights then
            var f := s.flights[s.probe[e]];
            f.endpoint == e && (f.stage == Queued || f.stage == Holding || f.stage == Sending(0))
          else s.probe[e] in s.aborted)
  }

  ghost predicate InvAt(cfg: Config, s: State, e: string) {
    && Sound(cfg, BreakerOf(s, e))
    && Count(s.slots, e) == |Holders(s.flights, e)| <= cfg.limit
    && Count(s.sent, e) == Count(s.reported, e) + |InSend(s.flights, e)|
    && (BreakerOf(s, e).state == HalfOpen <==> e in s.probe)
    && ProbeUnreported(s, e)
  }

  ghost predicate Numbered(s: State) {
    forall id :: id in s.flights ==> id < s.next
  }

  ghost predicate Inv(cfg: Config, s: State) {
    && Numbered(s)
    && forall e :: InvAt(cfg, s, e)
  }

  lemma {:induction false} InitialInv(cfg: Config)
    requires WellFormed(cfg)
    ensures Inv(cfg, INITIAL)
  {
    forall e ensures InvAt(cfg, INITIAL, e) {
      assert Holders(INITIAL.flights, e) == {} && InSend(INITIAL.flights, e) == {};
    }
  }

  /** The endpoint a step acts on. */
  function EndpointOf(cfg: Config, s: State, step: Step): string
    requires Enabled(cfg, s, step)
  {
    if step.Start? then step.endpoint else s.flights[step.id].endpoint
  }

  function One(b: bool): int {
    if b then 1 else 0
  }

  /** Changing one delivery changes the counts by that delivery alone. */
  lemma {:induction false} Recount(fs: map<nat, Flight>, fs1: map<nat, Flight>, id: nat, e: string)
    requires forall j :: j != id ==> (j in fs <==> j in fs1) && (j in fs ==> fs[j] == fs1[j])
    ensures |Holders(fs1, e)| - One(id in Holders(fs1, e)) == |Holders(fs, e)| - One(id in Holders(fs, e))
    ensures |InSend(fs1, e)| - One(id in InSend(fs1, e)) == |InSend(fs, e)| - One(id in InSend(fs, e))
  {
    SameButOne(Holders(fs, e), Holders(fs1, e), id);
    SameButOne(InSend(fs, e), InSend(fs1, e), id);
  }

  lemma {:induction false} SameButOne(a: set<nat>, b: set<nat>, id: nat)
    requires forall j :: j != id ==> (j in a <==> j in b)
    ensures |a| - One(id in a) == |b| - One(id in b)
  {
    assert a - {id} == b - {id};
    assert id !in a ==> a - {id} == a;
    assert id !in b ==> b - {id} == b;
  }

  /** The delivery a step moves. */
  function Mover(s: State, step: Step): nat {
    if step.Start? then s.next else step.id
  }

  lemma {:induction false} StepRecounts(cfg: Config, s: State, step: Step, e: string)
    requires Numbered(s) && Enabled(cfg, s, step)
    ensures
      var fs, fs1, id := s.flights, Next(cfg, s, step).flights, Mover(s, step);
      && |Holders(fs1, e)| - One(id in Holders(fs1, e)) == |Holders(fs, e)| - One(id in Holders(fs, e))
      && |InSend(fs1, e)| - One(id in InSend(fs1, e)) == |InSend(fs, e)| - One(id in InSend(fs, e))
  {
    var id := Mover(s, step);
    Recount(s.flights, Next(cfg, s, step).flights, id, e);
  }

  /** Two states that look the same from one endpoint: its breaker, slots, counters and probe. */
  ghost predicate SameBooks(s: State, s1: State, e: string) {
    && BreakerOf(s1, e) == BreakerOf(s, e)
    && Count(s1.slots, e) == Count(s.slots, e)
    && Count(s1.sent, e) == Count(s.sent, e) && Count(s1.reported, e) == Count(s.reported, e)
    && (e in s1.probe <==> e in s.probe) && (e in s.probe ==> s1.probe[e] == s.probe[e])
    && s.next <= s1.next && s.aborted <= s1.aborted
  }

  /** ... and its deliveries. */
  ghost predicate SameFlights(s: State, s1: State, e: string) {
    && (forall id :: id in s.flights && s.flights[id].endpoint == e ==> id in s1.flights && s1.flights[id] == s.flights[id])
    && (forall id :: id in s1.flights && s1.flights[id].endpoint == e ==> id in s.flights && s1.flights[id] == s.flights[id])
  }

  lemma {:induction false} OthersFlights(cfg: Config, s: State, step: Step, e: string)
    requires Numbered(s) && Enabled(cfg, s, step) && e != EndpointOf(cfg, s, step)
    ensures SameFlights(s, Next(cfg, s, step), e)
  {
  }

  /** A step leaves every other endpoint's breaker, slots, counters, probe and deliveries alone. */
  lemma {:induction false} OthersUntouched(cfg: Config, s: State, step: Step, e: string)
    requires Numbered(s) && Enabled(cfg, s, step) && e != EndpointOf(cfg, s, step)
    ensures SameBooks(s, Next(cfg, s, step), e) && SameFlights(s, Next(cfg, s, step), e)
  {
    OthersFlights(cfg, s, step, e);
  }

  lemma {:induction false} SameKeepsInv(cfg: Config, s: State, s1: State, e: string)
    requires InvAt(cfg, s, e) && SameBooks(s, s1, e) && SameFlights(s, s1, e)
    requires e in s.probe && s.probe[e] !in s.flights ==> s.probe[e] !in s1.flights
    ensures InvAt(cfg, s1, e)
  {
    assert Holders(s1.flights, e) == Holders(s.flights, e);
    assert InSend(s1.flights, e) == InSend(s.flights, e);
  }

  lemma {:induction false} StartKeeps(cfg: Config, s: State, step: Step)
    requires WellFormed(cfg) && Numbered(s) && step.Start? && InvAt(cfg, s, step.endpoint)
    ensures InvAt(cfg, Next(cfg, s, step), step.endpoint)
  {
    StepRecounts(cfg, s, step, step.endpoint);
  }

  lemma {:induction false} ProgressKeeps(cfg: Config, s: State, step: Step)
    requires Numbered(s) && Enabled(cfg, s, step) && (step.Acquire? || step.Send?)
    requires InvAt(cfg, s, s.flights[step.id].endpoint)
    ensures InvAt(cfg, Next(cfg, s, step), s.flights[step.id].endpoint)
  {
    StepRecounts(cfg, s, step, s.flights[step.id].endpoint);
  }

  lemma {:induction false} GiveUpKeeps(cfg: Config, s: State, step: Step)
    requires Numbered(s) && Enabled(cfg, s, step) && (step.AcquireFails? || step.EncodeFails? || step.WaitCancelled?)
    requires InvAt(cfg, s, s.flights[step.id].endpoint)
    ensures InvAt(cfg, Next(cfg, s, step), s.flights[step.id].endpoint)
  {
    StepRecounts(cfg, s, step, s.flights[step.id].endpoint);
  }

  lemma {:induction false} ReportKeeps(cfg: Config, s: State, step: Step)
    requires WellFormed(cfg) && Numbered(s) && Enabled(cfg, s, step) && (step.SendSucceeds? || step.SendFails?)
    requires InvAt(cfg, s, s.flights[step.id].endpoint)
    ensures InvAt(cfg, Next(cfg, s, step), s.flights[step.id].endpoint)
  {
    StepRecounts(cfg, s, step, s.flights[step.id].endpoint);
  }

  lemma {:induction false} OwnEndpointKept(cfg: Config, s: State, step: Step)
    requires WellFormed(cfg) && Numbered(s) && Enabled(cfg, s, step)
    requires InvAt(cfg, s, EndpointOf(cfg, s, step))
    ensures InvAt(cfg, Next(cfg, s, step), EndpointOf(cfg, s, step))
  {
    match step
    case Start(_, _) => StartKeeps(cfg, s, step);
    case Acquire(_) => ProgressKeeps(cfg, s, step);
    case Send(_) => ProgressKeeps(cfg, s, step);
    case AcquireFails(_) => GiveUpKeeps(cfg, s, step);
    case EncodeFails(_) => GiveUpKeeps(cfg, s, step);
    case WaitCancelled(_) => GiveUpKeeps(cfg, s, step);
    case SendSucceeds(_) => ReportKeeps(cfg, s, step);
    case SendFails(_, _) => ReportKeeps(cfg, s, step);
  }

  lemma {:induction false} StepKeepsInv(cfg: Config, s: State, step: Step)
    requires WellFormed(cfg) && Inv(cfg, s) && Enabled(cfg, s, step)
    ensures Inv(cfg, Next(cfg, s, step))
  {
    var s1 := Next(cfg, s, step);
    forall e ensures InvAt(cfg, s1, e) {
      assert InvAt(cfg, s, e);
      if e != EndpointOf(cfg, s, step) {
        OthersUntouched(cfg, s, step, e);
        SameKeepsInv(cfg, s, s1, e);
      } else {
        OwnEndpointKept(cfg, s, step);
      }
    }
  }

  lemma {:induction false} RunKeepsInv(cfg: Config, s: State, steps: seq<Step>)
    requires WellFormed(cfg) && Inv(cfg, s) && ValidFrom(cfg, s, steps)
    ensures Inv(cfg, After(cfg, s, steps))
    decreases |steps|
  {
    if steps != [] {
      StepKeepsInv(cfg, s, steps[0]);
      RunKeepsInv(cfg, Next(cfg, s, steps[0]), steps[1..]);
    }
  }

  // ---------------------------------------------------------------- main results

  /**
   In every reachable state: sends under way on an endpoint never exceed its bulkhead limit, a
   delivery that must free a slot finds one taken, and all sends but those under way have made
   exactly one breaker report each.
   */
  lemma {:induction false} BulkheadAndReports(cfg: Config, steps: seq<Step>, e: string)
    requires WellFormed(cfg) && ValidFrom(cfg, INITIAL, steps)
    ensures
      var s := After(cfg, INITIAL, steps);
      && |InSend(s.flights, e)| <= cfg.limit
      && Count(s.slots, e) <= cfg.limit
      && (forall id :: id in s.flights && s.flights[id].endpoint == e && s.flights[id].stage != Queued ==> Count(s.slots, e) >= 1)
      && Count(s.sent, e) == Count(s.reported, e) + |InSend(s.flights, e)|
  {
    InitialInv(cfg);
    RunKeepsInv(cfg, INITIAL, steps);
    var s := After(cfg, INITIAL, steps);
    assert InvAt(cfg, s, e);
    SubsetSize(InSend(s.flights, e), Holders(s.flights, e));
    forall id | id in s.flights && s.flights[id].endpoint == e && s.flights[id].stage != Queued
      ensures Count(s.slots, e) >= 1
    {
      SubsetSize({id}, Holders(s.flights, e));
    }
  }
}
