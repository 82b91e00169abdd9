/**
 Breakers that never let a delivery through again: which runs lead there, and that only those do.

 A delivery that a half-open breaker let through is the only one that can still report to it, unless
 older deliveries are under way.  If it gives up before sending, nothing is left to report.
 */
module WedgedBreakers {
  import opened CircuitBreakers
  import opened ConcurrentDeliveries

  // ---------------------------------------------------------------- runs, step by step

  lemma {:induction false} SplitRun(cfg: Config, s: State, a: seq<Step>, b: seq<Step>)
    ensures ValidFrom(cfg, s, a + b) <==> ValidFrom(cfg, s, a) && ValidFrom(cfg, After(cfg, s, a), b)
    ensures ValidFrom(cfg, s, a + b) ==> After(cfg, s, a + b) == After(cfg, After(cfg, s, a), b)
    decreases |a|
  {
    if a == [] {
      assert a + b == b;
    } else {
      assert (a + b)[0] == a[0] && (a + b)[1..] == a[1..] + b;
      if Enabled(cfg, s, a[0]) {
        SplitRun(cfg, Next(cfg, s, a[0]), a[1..], b);
      }
    }
  }

  lemma {:induction false} PrefixRuns(cfg: Config, steps: seq<Step>, n: nat)
    requires ValidFrom(cfg, INITIAL, steps) && n <= |steps|
    ensures ValidFrom(cfg, INITIAL, steps[..n])
  {
    assert steps == steps[..n] + steps[n..];
    SplitRun(cfg, INITIAL, steps[..n], steps[n..]);
  }

  /** The state a run is in after its first `n` steps. */
  function StateAt(cfg: Config, steps: seq<Step>, n: nat): State
    requires ValidFrom(cfg, INITIAL, steps) && n <= |steps|
  {
    PrefixRuns(cfg, steps, n);
    After(cfg, INITIAL, steps[..n])
  }

  lemma {:induction false} StateAfterStep(cfg: Config, steps: seq<Step>, n: nat)
    requires ValidFrom(cfg, INITIAL, steps) && n < |steps|
    ensures Enabled(cfg, StateAt(cfg, steps, n), steps[n])
    ensures StateAt(cfg, steps, n + 1) == Next(cfg, StateAt(cfg, steps, n), steps[n])
  {
    PrefixRuns(cfg, steps, n + 1);
    assert steps[..n + 1] == steps[..n] + [steps[n]];
    SplitRun(cfg, INITIAL, steps[..n], [steps[n]]);
    assert [steps[n]][1..] == [];
  }

  lemma {:induction false} StateInv(cfg: Config, steps: seq<Step>, n: nat)
    requires WellFormed(cfg) && ValidFrom(cfg, INITIAL, steps) && n <= |steps|
    ensures Inv(cfg, StateAt(cfg, steps, n))
  {
    PrefixRuns(cfg, steps, n);
    InitialInv(cfg);
    RunKeepsInv(cfg, INITIAL, steps[..n]);
  }

  // ---------------------------------------------------------------- events of a run

  /** The step asks the endpoint's breaker, which is half-open by then, and is let through. */
  predicate StartsProbe(cfg: Config, s: State, step: Step, e: string) {
    && step.Start? && step.endpoint == e
    && var (b, granted) := AllowStep(cfg.breaker, BreakerOf(s, e), step.now); granted && b.state == HalfOpen
  }

  /** The step is the outcome of a send to the endpoint. */
  predicate Reports(s: State, step: Step, e: string) {
    (step.SendSucceeds? || step.SendFails?) && step.id in s.flights && s.flights[step.id].endpoint == e
  }

  predicate GivesUp(step: Step) {
    step.AcquireFails? || step.EncodeFails?
  }

  lemma {:induction false} ProbeAfter(cfg: Config, s: State, step: Step, e: string)
    requires Enabled(cfg, s, step)
    ensures
      var s1 := Next(cfg, s, step);
      && (e in s1.probe <==> StartsProbe(cfg, s, step, e) || (e in s.probe && !Reports(s, step, e)))
      && (e in s1.probe ==> s1.probe[e] == if StartsProbe(cfg, s, step, e) then s.next else s.probe[e])
  {
  }

  lemma {:induction false} NumbersAfter(cfg: Config, s: State, step: Step)
    requires Enabled(cfg, s, step)
    ensures Next(cfg, s, step).aborted == s.aborted + if GivesUp(step) then {step.id} else {}
    ensures s.next <= Next(cfg, s, step).next
  {
  }

  predicate ProbeStarts(cfg: Config, steps: seq<Step>, i: nat, e: string)
    requires ValidFrom(cfg, INITIAL, steps) && i < |steps|
  {
    StartsProbe(cfg, StateAt(cfg, steps, i), steps[i], e)
  }

  predicate ReportsAt(cfg: Config, steps: seq<Step>, k: nat, e: string)
    requires ValidFrom(cfg, INITIAL, steps) && k < |steps|
  {
    Reports(StateAt(cfg, steps, k), steps[k], e)
  }

  /** A probe that starts at step `i` is not followed by any outcome of a send to the endpoint before step `n`. */
  ghost predicate ProbeWithoutReport(cfg: Config, steps: seq<Step>, i: nat, n: nat, e: string)
    requires ValidFrom(cfg, INITIAL, steps) && i < n <= |steps|
  {
    ProbeStarts(cfg, steps, i, e) && forall k :: i < k < n ==> !ReportsAt(cfg, steps, k, e)
  }

  /** A probe on record was started by some step and has not been reported since. */
  lemma {:induction false} ProbeTraced(cfg: Config, steps: seq<Step>, n: nat, e: string) returns (i: nat)
    requires ValidFrom(cfg, INITIAL, steps) && n <= |steps| && e in StateAt(cfg, steps, n).probe
    ensures i < n && ProbeWithoutReport(cfg, steps, i, n, e)
    ensures StateAt(cfg, steps, i).next == StateAt(cfg, steps, n).probe[e]
  {
    StateAfterStep(cfg, steps, n - 1);
    ProbeAfter(cfg, StateAt(cfg, steps, n - 1), steps[n - 1], e);
    if ProbeStarts(cfg, steps, n - 1, e) {
      i := n - 1;
    } else {
      i := ProbeTraced(cfg, steps, n - 1, e);
      assert !ReportsAt(cfg, steps, n - 1, e);
    }
  }

  /** ... and conversely. */
  lemma {:induction false} ProbeStays(cfg: Config, steps: seq<Step>, i: nat, n: nat, e: string)
    requires WellFormed(cfg) && ValidFrom(cfg, INITIAL, steps) && i < n <= |steps|
    requires ProbeWithoutReport(cfg, steps, i, n, e)
    ensures e in StateAt(cfg, steps, n).probe
    decreases n
  {
    StateAfterStep(cfg, steps, n - 1);
    ProbeAfter(cfg, StateAt(cfg, steps, n - 1), steps[n - 1], e);
    if i < n - 1 {
      ProbeStays(cfg, steps, i, n - 1, e);
      assert !ReportsAt(cfg, steps, n - 1, e);
    } else {
      assert ProbeStarts(cfg, steps, i, e);
    }
  }

  lemma {:induction false} AbortTraced(cfg: Config, steps: seq<Step>, n: nat, id: nat) returns (j: nat)
    requires ValidFrom(cfg, INITIAL, steps) && n <= |steps| && id in StateAt(cfg, steps, n).aborted
    ensures j < n && GivesUp(steps[j]) && steps[j].id == id
  {
    StateAfterStep(cfg, steps, n - 1);
    NumbersAfter(cfg, StateAt(cfg, steps, n - 1), steps[n - 1]);
    if GivesUp(steps[n - 1]) && steps[n - 1].id == id {
      j := n - 1;
    } else {
      j := AbortTraced(cfg, steps, n - 1, id);
    }
  }

  lemma {:induction false} NumbersGrow(cfg: Config, steps: seq<Step>, i: nat, j: nat)
    requires ValidFrom(cfg, INITIAL, steps) && i <= j <= |steps|
    ensures StateAt(cfg, steps, i).next <= StateAt(cfg, steps, j).next
    decreases j
  {
    if i < j {
      NumbersGrow(cfg, steps, i, j - 1);
      StateAfterStep(cfg, steps, j - 1);
      NumbersAfter(cfg, StateAt(cfg, steps, j - 1), steps[j - 1]);
    }
  }

  lemma {:induction false} WholeRun(cfg: Config, steps: seq<Step>)
    requires ValidFrom(cfg, INITIAL, steps)
    ensures StateAt(cfg, steps, |steps|) == After(cfg, INITIAL, steps)
  {
    assert steps[..|steps|] == steps;
  }

  // ---------------------------------------------------------------- main results

  /** A breaker is half-open exactly when a probe has started and no send to the endpoint has ended since. */
  lemma {:induction false} HalfOpenIff(cfg: Config, steps: seq<Step>, e: string)
    requires WellFormed(cfg) && ValidFrom(cfg, INITIAL, steps)
    ensures BreakerOf(After(cfg, INITIAL, steps), e).state == HalfOpen
       <==> exists i: nat :: i < |steps| && ProbeWithoutReport(cfg, steps, i, |steps|, e)
  {
    var n := |steps|;
    WholeRun(cfg, steps);
    StateInv(cfg, steps, n);
    assert InvAt(cfg, StateAt(cfg, steps, n), e);
    if e in StateAt(cfg, steps, n).probe {
      var i := ProbeTraced(cfg, steps, n, e);
    } else {
      forall i: nat | i < n ensures !ProbeWithoutReport(cfg, steps, i, n, e) {
        if ProbeWithoutReport(cfg, steps, i, n, e) {
          ProbeStays(cfg, steps, i, n, e);
        }
      }
    }
  }

  /** Step `j` is a probe of step `i` giving up before it sends. */
  predicate ProbeGivesUp(cfg: Config, steps: seq<Step>, i: nat, j: nat)
    requires ValidFrom(cfg, INITIAL, steps) && i < j < |steps|
  {
    GivesUp(steps[j]) && steps[j].id == StateAt(cfg, steps, i).next
  }

  /**
   An endpoint without deliveries is half-open exactly when, somewhere in the run, a probe started, that
   very delivery later failed to get a slot or to encode its event, and no send to the endpoint has
   ended since the probe started.
   */
  lemma {:induction false} IdleHalfOpenIff(cfg: Config, steps: seq<Step>, e: string)
    requires WellFormed(cfg) && ValidFrom(cfg, INITIAL, steps)
    requires Idle(After(cfg, INITIAL, steps), e)
    ensures BreakerOf(After(cfg, INITIAL, steps), e).state == HalfOpen
       <==> exists i: nat, j: nat :: i < j < |steps| && ProbeGivesUp(cfg, steps, i, j)
              && ProbeWithoutReport(cfg, steps, i, |steps|, e)
  {
    var n, s := |steps|, After(cfg, INITIAL, steps);
    HalfOpenIff(cfg, steps, e);
    if BreakerOf(s, e).state == HalfOpen {
      WholeRun(cfg, steps);
      StateInv(cfg, steps, n);
      assert InvAt(cfg, s, e);
      var i := ProbeTraced(cfg, steps, n, e);
      var j := AbortTraced(cfg, steps, n, s.probe[e]);
      StateAfterStep(cfg, steps, j);
      StateInv(cfg, steps, j);
      if j <= i {
        NumbersGrow(cfg, steps, j, i);
        assert false;
      }
      assert ProbeGivesUp(cfg, steps, i, j);
    }
  }

  /** When no delivery that was let through gives up before sending, an idle endpoint is never half-open. */
  lemma {:induction false} IdleNeverHalfOpen(cfg: Config, steps: seq<Step>, e: string)
    requires WellFormed(cfg) && ValidFrom(cfg, INITIAL, steps)
    requires forall i :: 0 <= i < |steps| ==> !GivesUp(steps[i])
    requires Idle(After(cfg, INITIAL, steps), e)
    ensures BreakerOf(After(cfg, INITIAL, steps), e).state != HalfOpen
  {
    IdleHalfOpenIff(cfg, steps, e);
  }

  lemma {:induction false} Append(cfg: Config, s: State, steps: seq<Step>, step: Step)
    requires ValidFrom(cfg, s, steps) && Enabled(cfg, After(cfg, s, steps), step)
    ensures ValidFrom(cfg, s, steps + [step])
    ensures After(cfg, s, steps + [step]) == Next(cfg, After(cfg, s, steps), step)
  {
    SplitRun(cfg, s, steps, [step]);
    assert [step][1..] == [];
  }

  /** From any state with an open breaker past its cooldown, a probe that gives up leaves the idle endpoint half-open. */
  lemma {:induction false} AbortedProbeWedges(cfg: Config, s: State, e: string, now: int)
    requires WellFormed(cfg) && Inv(cfg, s) && Idle(s, e)
    requires BreakerOf(s, e).state == Open && now - BreakerOf(s, e).openedAt >= cfg.breaker.cooldown
    ensures
      var steps := [Start(e, now), AcquireFails(s.next)];
      && ValidFrom(cfg, s, steps)
      && Idle(After(cfg, s, steps), e)
      && BreakerOf(After(cfg, s, steps), e).state == HalfOpen
  {
    assert InvAt(cfg, s, e);
    var s1 := Next(cfg, s, Start(e, now));
    var s2 := Next(cfg, s1, AcquireFails(s.next));
    var steps := [Start(e, now), AcquireFails(s.next)];
    assert steps[1..] == [AcquireFails(s.next)];
    assert After(cfg, s1, steps[1..]) == s2;
    assert s2.flights == s.flights;
  }

  /** Such an endpoint stays wedged: whatever happens next, it never again lets a delivery through. */
  lemma {:induction false} WedgedForever(cfg: Config, s: State, steps: seq<Step>, e: string)
    requires WellFormed(cfg) && Inv(cfg, s) && ValidFrom(cfg, s, steps)
    requires Idle(s, e) && BreakerOf(s, e).state == HalfOpen
    ensures Idle(After(cfg, s, steps), e) && BreakerOf(After(cfg, s, steps), e).state == HalfOpen
    decreases |steps|
  {
    if steps != [] {
      assert InvAt(cfg, s, e);
      StepKeepsInv(cfg, s, steps[0]);
      WedgedForever(cfg, Next(cfg, s, steps[0]), steps[1..], e);
    }
  }

  // ---------------------------------------------------------------- only those endpoints are wedged

  /** Some run from here ends where the endpoint's breaker would let a delivery through. */
  ghost predicate CanRecover(cfg: Config, s: State, e: string) {
    exists steps, now :: LetsThrough(cfg, s, steps, e, now)
  }

  ghost predicate LetsThrough(cfg: Config, s: State, steps: seq<Step>, e: string, now: int) {
    ValidFrom(cfg, s, steps) && AllowStep(cfg.breaker, BreakerOf(After(cfg, s, steps), e), now).1
  }

  /** A delivery that holds a slot can send, succeed, and so close the breaker. */
  lemma {:induction false} HolderCloses(cfg: Config, s: State, id: nat, e: string)
    requires id in s.flights && s.flights[id].endpoint == e && s.flights[id].stage != Queued
    ensures CanRecover(cfg, s, e)
  {
    var steps: seq<Step> := [];
    if !s.flights[id].stage.Sending? {
      Append(cfg, s, steps, Send(id));
      steps := steps + [Send(id)];
    }
    Append(cfg, s, steps, SendSucceeds(id));
    steps := steps + [SendSucceeds(id)];
    assert BreakerOf(After(cfg, s, steps), e).state == Closed;
    assert LetsThrough(cfg, s, steps, e, 0);
  }

  lemma {:induction false} SomeHolder(cfg: Config, s: State, e: string) returns (id: nat)
    requires WellFormed(cfg) && InvAt(cfg, s, e) && Count(s.slots, e) >= cfg.limit
    ensures id in s.flights && s.flights[id].endpoint == e && s.flights[id].stage != Queued
  {
    assert Holders(s.flights, e) != {};
    id :| id in Holders(s.flights, e);
  }

  lemma {:induction false} BusyRecovers(cfg: Config, s: State, id: nat, e: string)
    requires WellFormed(cfg) && Inv(cfg, s) && id in s.flights && s.flights[id].endpoint == e
    ensures CanRecover(cfg, s, e)
  {
    assert InvAt(cfg, s, e);
    if s.flights[id].stage != Queued {
      HolderCloses(cfg, s, id, e);
    } else if Count(s.slots, e) >= cfg.limit {
      var holder := SomeHolder(cfg, s, e);
      HolderCloses(cfg, s, holder, e);
    } else {
      var s1 := Next(cfg, s, Acquire(id));
      HolderCloses(cfg, s1, id, e);
      var steps, now :| LetsThrough(cfg, s1, steps, e, now);
      assert ([Acquire(id)] + steps)[1..] == steps;
      assert LetsThrough(cfg, s, [Acquire(id)] + steps, e, now);
    }
  }

  /** No future of the system lets another delivery to the endpoint through exactly when it is idle and half-open. */
  lemma {:induction false} WedgedIff(cfg: Config, s: State, e: string)
    requires WellFormed(cfg) && Inv(cfg, s)
    ensures !CanRecover(cfg, s, e) <==> Idle(s, e) && BreakerOf(s, e).state == HalfOpen
  {
    assert InvAt(cfg, s, e);
    var b := BreakerOf(s, e);
    if Idle(s, e) && b.state == HalfOpen {
      forall steps, now ensures !LetsThrough(cfg, s, steps, e, now) {
        if ValidFrom(cfg, s, steps) {
          WedgedForever(cfg, s, steps, e);
          RunKeepsInv(cfg, s, steps);
          assert InvAt(cfg, After(cfg, s, steps), e);
        }
      }
    } else if b.state != HalfOpen {
      assert LetsThrough(cfg, s, [], e, b.openedAt + cfg.breaker.cooldown);
    } else {
      var id :| id in s.flights && s.flights[id].endpoint == e;
      BusyRecovers(cfg, s, id, e);
    }
  }

  // ---------------------------------------------------------------- a wedged run from the start

  /** After `n` failed deliveries one after the other, all at clock reading 0. */
  predicate FailedTimes(cfg: Config, s: State, e: string, n: nat) {
    && Idle(s, e)
    && BreakerOf(s, e) == Breaker(if n < cfg.breaker.threshold then Closed else Open, n, 0, false)
  }

  lemma {:induction false} FirstSend(cfg: Config, s: State, e: string) returns (steps: seq<Step>)
    requires WellFormed(cfg) && Inv(cfg, s) && Idle(s, e) && BreakerOf(s, e).state == Closed
    ensures ValidFrom(cfg, s, steps)
    ensures After(cfg, s, steps).flights == s.flights[s.next := Flight(e, Sending(0))]
    ensures BreakerOf(After(cfg, s, steps), e) == BreakerOf(s, e)
  {
    var id := s.next;
    assert InvAt(cfg, s, e) && Holders(s.flights, e) == {};
    steps := [];
    Append(cfg, s, steps, Start(e, 0));
    steps := steps + [Start(e, 0)];
    Append(cfg, s, steps, Acquire(id));
    steps := steps + [Acquire(id)];
    Append(cfg, s, steps, Send(id));
    steps := steps + [Send(id)];
  }

  lemma {:induction false} FailAndLeave(cfg: Config, s: State, e: string, id: nat) returns (steps: seq<Step>)
    requires id in s.flights && s.flights[id] == Flight(e, Sending(0))
    ensures ValidFrom(cfg, s, steps) && After(cfg, s, steps).flights == s.flights - {id}
    ensures BreakerOf(After(cfg, s, steps), e) == FailureStep(cfg.breaker, BreakerOf(s, e), 0)
  {
    Append(cfg, s, [], SendFails(id, 0));
    steps := [] + [SendFails(id, 0)];
    if cfg.maxRetries > 0 {
      Append(cfg, s, steps, WaitCancelled(id));
      steps := steps + [WaitCancelled(id)];
    }
  }

  lemma {:induction false} OneFailedDelivery(cfg: Config, s: State, e: string, n: nat) returns (steps: seq<Step>)
    requires WellFormed(cfg) && Inv(cfg, s) && FailedTimes(cfg, s, e, n) && n < cfg.breaker.threshold
    ensures ValidFrom(cfg, s, steps) && FailedTimes(cfg, After(cfg, s, steps), e, n + 1)
  {
    var first := FirstSend(cfg, s, e);
    var last := FailAndLeave(cfg, After(cfg, s, first), e, s.next);
    SplitRun(cfg, s, first, last);
    steps := first + last;
    assert s.flights[s.next := Flight(e, Sending(0))] - {s.next} == s.flights;
  }

  lemma {:induction false} FailedDeliveries(cfg: Config, e: string, n: nat) returns (steps: seq<Step>)
    requires WellFormed(cfg) && n <= cfg.breaker.threshold
    ensures ValidFrom(cfg, INITIAL, steps) && FailedTimes(cfg, After(cfg, INITIAL, steps), e, n)
  {
    if n == 0 {
      steps := [];
    } else {
      var before := FailedDeliveries(cfg, e, n - 1);
      InitialInv(cfg);
      RunKeepsInv(cfg, INITIAL, before);
      var last := OneFailedDelivery(cfg, After(cfg, INITIAL, before), e, n - 1);
      SplitRun(cfg, INITIAL, before, last);
      steps := before + last;
    }
  }

  /** Every endpoint can be wedged, under any settings, by a run from the start. */
  lemma {:induction false} WedgedFromTheStart(cfg: Config, e: string) returns (steps: seq<Step>)
    requires WellFormed(cfg)
    ensures ValidFrom(cfg, INITIAL, steps) && !CanRecover(cfg, After(cfg, INITIAL, steps), e)
  {
    var before := FailedDeliveries(cfg, e, cfg.breaker.threshold);
    var s := After(cfg, INITIAL, before);
    InitialInv(cfg);
    RunKeepsInv(cfg, INITIAL, before);
    AbortedProbeWedges(cfg, s, e, cfg.breaker.cooldown);
    var last := [Start(e, cfg.breaker.cooldown), AcquireFails(s.next)];
    SplitRun(cfg, INITIAL, before, last);
    steps := before + last;
    RunKeepsInv(cfg, INITIAL, steps);
    WedgedIff(cfg, After(cfg, INITIAL, steps), e);
  }
}
