/** The per-endpoint circuit breaker, and what its history alone says about it. */
module CircuitBreakers {

  datatype Circuit = Closed | Open | HalfOpen

  datatype Breaker = Breaker(state: Circuit, failures: nat, openedAt: int, probeInFlight: bool)

  datatype Settings = Settings(threshold: int, cooldown: int)

  const FRESH: Breaker := Breaker(Closed, 0, 0, false)

  function AllowStep(cfg: Settings, b: Breaker, now: int): (Breaker, bool) {
    var b1 := if b.state == Open && now - b.openedAt >= cfg.cooldown then b.(state := HalfOpen) else b;
    if b1.state == HalfOpen then
      if b1.probeInFlight then (b1, false) else (b1.(probeInFlight := true), true)
    else (b1, b1.state != Open)
  }

  function SuccessStep(b: Breaker): Breaker {
    b.(state := Closed, failures := 0, probeInFlight := false)
  }

  function FailureStep(cfg: Settings, b: Breaker, now: int): Breaker {
    if b.failures + 1 >= cfg.threshold then Breaker(Open, b.failures + 1, now, false)
    else b.(failures := b.failures + 1, probeInFlight := false)
  }

  class CircuitBreaker {
    var state: Circuit
    var failures: nat
    const threshold: int
    var openedAt: int
    const cooldown: int
    var probeInFlight: bool

    ghost function Value(): Breaker
      reads this
    {
      Breaker(state, failures, openedAt, probeInFlight)
    }

    ghost function Config(): Settings {
      Settings(threshold, cooldown)
    }

    constructor (threshold: int, cooldown: int)
      ensures Config() == Settings(if threshold < 1 then 3 else threshold, cooldown)
      ensures Value() == Breaker(Closed, 0, 0, false)
    {
      var t := threshold;
      if t < 1 {
        t := 3;
      }
      this.state, this.failures, this.probeInFlight, this.openedAt := Closed, 0, false, 0;
      this.threshold, this.cooldown := t, cooldown;
    }

    method Allow(now: int) returns (granted: bool)
      modifies this
      ensures (Value(), granted) == AllowStep(Config(), old(Value()), now)
    {
      if state == Open && now - openedAt >= cooldown {
        state := HalfOpen;
      }
      if state == HalfOpen {
        if probeInFlight {
          return false;
        }
        probeInFlight := true;
        return true;
      }
      return state != Open;
    }

    method Success()
      modifies this
      ensures Value() == SuccessStep(old(Value()))
    {
      state, failures, probeInFlight := Closed, 0, false;
    }

    method Failure(now: int)
      modifies this
      ensures Value() == FailureStep(Config(), old(Value()), now)
    {
      failures := failures + 1;
      if failures >= threshold {
        state, openedAt := Open, now;
      }
      probeInFlight := false;
    }
  }

  // ---------------------------------------------------------------- histories

  datatype Op = Allow(now: int) | Success | Failure(now: int)

  /** What an observer of the breaker sees. */
  datatype Entry = Asked(now: int, granted: bool) | Succeeded | Failed(now: int)

  type History = seq<Entry>

  function OpStep(cfg: Settings, b: Breaker, op: Op): (Breaker, Entry) {
    match op
    case Allow(now) => var (b1, granted) := AllowStep(cfg, b, now); (b1, Asked(now, granted))
    case Success => (SuccessStep(b), Succeeded)
    case Failure(now) => (FailureStep(cfg, b, now), Failed(now))
  }

  /** The breaker after a sequence of operations on a fresh one, and the history it shows. */
  function Observe(cfg: Settings, ops: seq<Op>): (r: (Breaker, History))
    ensures |r.1| == |ops|
  {
    if ops == [] then (FRESH, [])
    else
      var (b, h) := Observe(cfg, ops[..|ops| - 1]);
      var (b1, e) := OpStep(cfg, b, ops[|ops| - 1]);
      (b1, h + [e])
  }

  /** Failures reported since the last success. */
  function Strikes(h: History): nat {
    if h == [] then 0
    else match h[|h| - 1]
      case Succeeded => 0
      case Failed(_) => Strikes(h[..|h| - 1]) + 1
      case Asked(_, _) => Strikes(h[..|h| - 1])
  }

  /** When the latest failure was reported. */
  function LatestFailure(h: History): int
    requires Strikes(h) > 0
  {
    match h[|h| - 1]
    case Failed(now) => now
    case Asked(_, _) => LatestFailure(h[..|h| - 1])
  }

  /** Some call has been let through since the last report. */
  predicate GrantOutstanding(h: History) {
    h != [] && (match h[|h| - 1]
                case Asked(_, granted) => granted || GrantOutstanding(h[..|h| - 1])
                case _ => false)
  }

  /** The rule a call is let through by, in terms of the history alone. */
  predicate Admits(cfg: Settings, h: History, now: int) {
    Strikes(h) < cfg.threshold ||
    (Strikes(h) > 0 && !GrantOutstanding(h) && now - LatestFailure(h) >= cfg.cooldown)
  }

  /** The breaker is a function of its history: state, counters, and the answer to the next call. */
  lemma {:induction false} BreakerEqualsTrace(cfg: Settings, ops: seq<Op>)
    requires cfg.threshold >= 1
    ensures
      var (b, h) := Observe(cfg, ops);
      && b.failures == Strikes(h)
      && (b.state == Closed <==> Strikes(h) < cfg.threshold)
      && (b.state == HalfOpen <==> Strikes(h) >= cfg.threshold && GrantOutstanding(h))
      && (b.probeInFlight <==> b.state == HalfOpen)
      && (b.state != Closed ==> b.openedAt == LatestFailure(h))
      && forall now :: AllowStep(cfg, b, now).1 <==> Admits(cfg, h, now)
  {
    if ops != [] {
      var n := |ops| - 1;
      BreakerEqualsTrace(cfg, ops[..n]);
      var (b0, h0) := Observe(cfg, ops[..n]);
      var (b, h) := Observe(cfg, ops);
      assert h[..n] == h0;
      assert b0.state != Closed ==> Strikes(h0) > 0;
      if ops[n].Allow? {
        assert AllowStep(cfg, b0, ops[n].now).1 <==> Admits(cfg, h0, ops[n].now);
      }
    }
  }

  lemma {:induction false} ObservePrefix(cfg: Settings, ops: seq<Op>, n: nat)
    requires n <= |ops|
    ensures Observe(cfg, ops).1[..n] == Observe(cfg, ops[..n]).1
  {
    if n == |ops| {
      assert ops[..n] == ops;
    } else {
      ObservePrefix(cfg, ops[..|ops| - 1], n);
      assert ops[..|ops| - 1][..n] == ops[..n];
    }
  }

  /** Every answer in a history is the one the rule gives on what came before. */
  lemma {:induction false} AnswersFollowTheRule(cfg: Settings, ops: seq<Op>, i: nat)
    requires cfg.threshold >= 1 && i < |ops| && ops[i].Allow?
    ensures Observe(cfg, ops).1[i] == Asked(ops[i].now, Admits(cfg, Observe(cfg, ops).1[..i], ops[i].now))
  {
    ObservePrefix(cfg, ops, i);
    ObservePrefix(cfg, ops, i + 1);
    assert ops[..i + 1][..i] == ops[..i];
    BreakerEqualsTrace(cfg, ops[..i]);
    assert Observe(cfg, ops).1[..i + 1][i] == Observe(cfg, ops).1[i];
  }

  lemma {:induction false} QuietStretch(h: History, i: nat, j: nat)
    requires i <= j <= |h| && forall k :: i <= k < j ==> h[k].Asked?
    ensures Strikes(h[..j]) == Strikes(h[..i])
    ensures GrantOutstanding(h[..j]) <==> GrantOutstanding(h[..i]) || exists k :: i <= k < j && h[k].granted
    decreases j - i
  {
    if i < j {
      QuietStretch(h, i, j - 1);
      assert h[..j][..j - 1] == h[..j - 1] && h[..j][j - 1] == h[j - 1];
    }
  }

  /** Once tripped, at most one call is let through between two reports. */
  lemma {:induction false} OneProbePerReport(cfg: Settings, ops: seq<Op>, i: nat, j: nat)
    requires cfg.threshold >= 1 && i < j < |ops|
    requires forall k :: i <= k <= j ==> ops[k].Allow?
    requires Strikes(Observe(cfg, ops).1[..i]) >= cfg.threshold
    requires Observe(cfg, ops).1[i] == Asked(ops[i].now, true)
    ensures Observe(cfg, ops).1[j] == Asked(ops[j].now, false)
  {
    var h := Observe(cfg, ops).1;
    forall k | i <= k < j ensures h[k].Asked? {
      AnswersFollowTheRule(cfg, ops, k);
    }
    QuietStretch(h, i, j);
    assert h[i].granted;
    AnswersFollowTheRule(cfg, ops, j);
  }
}
