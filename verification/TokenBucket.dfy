/**
 Per-tenant token buckets in exact arithmetic.

 A limiter admits `limit` tokens per `window` clock ticks.  `Step` is one call and `Run` a whole
 run.  `Level` is what a call at time `t` would find in a tenant's bucket: every theorem here is an
 argument about levels, because two limiters that show the same levels answer alike.
 */
module TokenBucket {

  datatype Bucket = Bucket(tokens: real, timestamp: int)

  type Buckets = map<string, Bucket>

  /** Capacity, and tokens gained per clock tick. */
  datatype Limits = Limits(limit: int, rate: real)

  datatype Call = Call(tenant: string, amount: int, now: int)

  datatype Answer = Decided(allowed: bool) | Unavailable

  function Min(a: real, b: real): (m: real)
    ensures m <= a && m <= b && (m == a || m == b)
  {
    if a < b then a else b
  }

  /**
   Tokens gained in `d` ticks, one tick at a time.  `GainIsProduct` equates it with the product the
   source computes; the recursive form keeps the proofs' arithmetic linear.
   */
  function Gain(rate: real, d: int): real
    decreases d
  {
    if d <= 0 then 0.0 else Gain(rate, d - 1) + rate
  }

  /** The limiter decides calls, rather than waving them through or refusing to decide. */
  predicate Active(cfg: Limits) {
    cfg.limit > 0 && cfg.rate > 0.0
  }

  function Level(cfg: Limits, bs: Buckets, tenant: string, t: int): real
    requires Active(cfg)
  {
    if tenant !in bs then cfg.limit as real
    else if t > bs[tenant].timestamp then
      Min(cfg.limit as real, bs[tenant].tokens + Gain(cfg.rate, t - bs[tenant].timestamp))
    else bs[tenant].tokens
  }

  function Step(cfg: Limits, bs: Buckets, c: Call): (Buckets, Answer) {
    if c.amount <= 0 || cfg.limit <= 0 then (bs, Decided(true))
    else if cfg.rate <= 0.0 then (bs, Unavailable)
    else
      var level := Level(cfg, bs, c.tenant, c.now);
      var stamp := if c.tenant !in bs || c.now > bs[c.tenant].timestamp then c.now else bs[c.tenant].timestamp;
      if level < c.amount as real then
        (bs[c.tenant := Bucket(level, stamp)], Decided(false))
      else
        (bs[c.tenant := Bucket(level - c.amount as real, stamp)], Decided(true))
  }

  /** The state after a run and the answer to each of its calls. */
  function Run(cfg: Limits, bs: Buckets, calls: seq<Call>): (r: (Buckets, seq<Answer>))
    ensures |r.1| == |calls|
    decreases |calls|
  {
    if calls == [] then (bs, [])
    else
      var (bs1, a) := Step(cfg, bs, calls[0]);
      var (bs2, answers) := Run(cfg, bs1, calls[1..]);
      (bs2, [a] + answers)
  }

  lemma {:induction false} RunCons(cfg: Limits, bs: Buckets, calls: seq<Call>)
    requires calls != []
    ensures
      var (bs1, a) := Step(cfg, bs, calls[0]);
      Run(cfg, bs, calls) == (Run(cfg, bs1, calls[1..]).0, [a] + Run(cfg, bs1, calls[1..]).1)
  {
  }

  lemma {:induction false} RunSplit(cfg: Limits, bs: Buckets, xs: seq<Call>, ys: seq<Call>)
    ensures Run(cfg, bs, xs + ys).0 == Run(cfg, Run(cfg, bs, xs).0, ys).0
    ensures Run(cfg, bs, xs + ys).1 == Run(cfg, bs, xs).1 + Run(cfg, Run(cfg, bs, xs).0, ys).1
    decreases |xs|
  {
    if xs == [] {
      assert xs + ys == ys;
    } else {
      assert (xs + ys)[1..] == xs[1..] + ys;
      RunSplit(cfg, Step(cfg, bs, xs[0]).0, xs[1..], ys);
    }
  }

  /** A stretch of a run is the run of that stretch from where its prefix ends. */
  lemma {:induction false} RunSlice(cfg: Limits, calls: seq<Call>, first: nat, last: nat)
    requires first <= last <= |calls|
    ensures
      var bs := Run(cfg, map[], calls[..first]).0;
      && Run(cfg, bs, calls[first..last]).0 == Run(cfg, map[], calls[..last]).0
      && Run(cfg, bs, calls[first..last]).1 == Run(cfg, map[], calls).1[first..last]
  {
    assert calls[..last] == calls[..first] + calls[first..last];
    RunSplit(cfg, map[], calls[..first], calls[first..last]);
    assert calls == calls[..last] + calls[last..];
    RunSplit(cfg, map[], calls[..last], calls[last..]);
  }

  lemma {:induction false} GainIsProduct(rate: real, d: nat)
    ensures Gain(rate, d) == d as real * rate
  {
    if d > 0 {
      GainIsProduct(rate, d - 1);
      assert d as real * rate == (d - 1) as real * rate + rate;
    }
  }

  lemma {:induction false} GainOver(rate: real, a: int, b: int)
    requires a <= b
    ensures Gain(rate, b - a) == (b - a) as real * rate
  {
    var d: nat := b - a;
    GainIsProduct(rate, d);
    assert d as real == (b - a) as real;
    assert d as real * rate == (b - a) as real * rate;
  }

  lemma {:induction false} GainAdds(rate: real, a: nat, b: nat)
    ensures Gain(rate, a + b) == Gain(rate, a) + Gain(rate, b)
  {
    if b > 0 {
      GainAdds(rate, a, b - 1);
    }
  }

  lemma {:induction false} GainNotNegative(rate: real, d: int)
    requires rate > 0.0
    ensures Gain(rate, d) >= 0.0
    decreases d
  {
    if d > 0 {
      GainNotNegative(rate, d - 1);
    }
  }

  // ---------------------------------------------------------------- range

  ghost predicate InRange(cfg: Limits, bs: Buckets)
    requires Active(cfg)
  {
    forall t :: t in bs ==> 0.0 <= bs[t].tokens <= cfg.limit as real
  }

  lemma {:induction false} LevelInRange(cfg: Limits, bs: Buckets, tenant: string, t: int)
    requires Active(cfg) && InRange(cfg, bs)
    ensures 0.0 <= Level(cfg, bs, tenant, t) <= cfg.limit as real
  {
    if tenant in bs {
      GainNotNegative(cfg.rate, t - bs[tenant].timestamp);
    }
  }

  /** Tokens stay within [0, limit] through every run, whatever the clock does. */
  lemma {:induction false} RunInRange(cfg: Limits, bs: Buckets, calls: seq<Call>)
    requires Active(cfg) && InRange(cfg, bs)
    ensures InRange(cfg, Run(cfg, bs, calls).0)
    ensures forall i :: 0 <= i < |calls| && calls[i].amount > cfg.limit ==> Run(cfg, bs, calls).1[i] == Decided(false)
    decreases |calls|
  {
    if calls != [] {
      LevelInRange(cfg, bs, calls[0].tenant, calls[0].now);
      RunInRange(cfg, Step(cfg, bs, calls[0]).0, calls[1..]);
      forall i | 0 <= i < |calls| && calls[i].amount > cfg.limit
        ensures Run(cfg, bs, calls).1[i] == Decided(false)
      {
        if i > 0 {
          assert calls[1..][i - 1] == calls[i];
        }
      }
    }
  }

  // ---------------------------------------------------------------- window bound

  /** Calls that consult the tenant's bucket. */
  predicate Charges(c: Call, tenant: string) {
    c.tenant == tenant && c.amount > 0
  }

  /** Total amount admitted to a tenant. */
  function Admitted(calls: seq<Call>, answers: seq<Answer>, tenant: string): real
    requires |calls| == |answers|
  {
    if calls == [] then 0.0
    else Paid(calls[0], answers[0], tenant) + Admitted(calls[1..], answers[1..], tenant)
  }

  function Paid(c: Call, a: Answer, tenant: string): real {
    if Charges(c, tenant) && a == Decided(true) then c.amount as real else 0.0
  }

  /** `m` is the latest clock reading among the tenant's charging calls. */
  ghost predicate IsPeak(calls: seq<Call>, tenant: string, m: int) {
    && (exists i :: 0 <= i < |calls| && Charges(calls[i], tenant) && calls[i].now == m)
    && (forall i :: 0 <= i < |calls| && Charges(calls[i], tenant) ==> calls[i].now <= m)
  }

  lemma {:induction false} StepStamp(cfg: Limits, bs: Buckets, c: Call, tenant: string)
    requires Active(cfg)
    ensures
      var bs1 := Step(cfg, bs, c).0;
      && (tenant in bs1 <==> tenant in bs || Charges(c, tenant))
      && (tenant in bs1 ==>
            bs1[tenant].timestamp ==
            if Charges(c, tenant) && (tenant !in bs || c.now > bs[tenant].timestamp) then c.now
            else bs[tenant].timestamp)
  {
  }

  /** A bucket exists once a call has charged it, and its stamp is the running maximum of the clock. */
  lemma {:induction false} StampIsPeak(cfg: Limits, calls: seq<Call>, tenant: string)
    requires Active(cfg)
    ensures
      var bs := Run(cfg, map[], calls).0;
      if tenant in bs then IsPeak(calls, tenant, bs[tenant].timestamp)
      else forall i :: 0 <= i < |calls| ==> !Charges(calls[i], tenant)
  {
    if calls != [] {
      var n := |calls| - 1;
      var before, c := Run(cfg, map[], calls[..n]).0, calls[n];
      StampIsPeak(cfg, calls[..n], tenant);
      RunSlice(cfg, calls, n, n + 1);
      RunCons(cfg, before, [c]);
      assert calls[n..] == [c] && calls[..n + 1] == calls;
      StepStamp(cfg, before, c, tenant);
      var after := Step(cfg, before, c).0;
      assert forall i :: 0 <= i < n ==> calls[..n][i] == calls[i];
      if tenant in before && after[tenant].timestamp == before[tenant].timestamp {
        var i :| 0 <= i < n && Charges(calls[..n][i], tenant) && calls[..n][i].now == before[tenant].timestamp;
        assert Charges(calls[i], tenant) && calls[i].now == after[tenant].timestamp;
      }
    }
  }

  lemma {:induction false} PeakIsStamp(cfg: Limits, calls: seq<Call>, tenant: string, m: int)
    requires Active(cfg) && IsPeak(calls, tenant, m)
    ensures var bs := Run(cfg, map[], calls).0; tenant in bs && bs[tenant].timestamp == m
  {
    StampIsPeak(cfg, calls, tenant);
  }

  /** One call pays for what it admits out of the bucket and its refill. */
  lemma {:induction false} StepPays(cfg: Limits, bs: Buckets, c: Call, tenant: string)
    requires Active(cfg) && InRange(cfg, bs) && tenant in bs
    ensures
      var (bs1, a) := Step(cfg, bs, c);
      && tenant in bs1 && InRange(cfg, bs1) && bs[tenant].timestamp <= bs1[tenant].timestamp
      && bs1[tenant].tokens + Paid(c, a, tenant)
         <= bs[tenant].tokens + Gain(cfg.rate, bs1[tenant].timestamp - bs[tenant].timestamp)
  {
    LevelInRange(cfg, bs, c.tenant, c.now);
  }

  lemma {:induction false} RunPays(cfg: Limits, bs: Buckets, calls: seq<Call>, tenant: string)
    requires Active(cfg) && InRange(cfg, bs) && tenant in bs
    ensures
      var (end, answers) := Run(cfg, bs, calls);
      && tenant in end && bs[tenant].timestamp <= end[tenant].timestamp
      && Admitted(calls, answers, tenant)
         <= bs[tenant].tokens + Gain(cfg.rate, end[tenant].timestamp - bs[tenant].timestamp)
    decreases |calls|
  {
    if calls != [] {
      var (bs1, a) := Step(cfg, bs, calls[0]);
      StepPays(cfg, bs, calls[0], tenant);
      RunPays(cfg, bs1, calls[1..], tenant);
      var (end, answers) := Run(cfg, bs1, calls[1..]);
      RunCons(cfg, bs, calls);
      AdmittedCons(calls, a, answers, tenant);
      GainAdds(cfg.rate, end[tenant].timestamp - bs1[tenant].timestamp, bs1[tenant].timestamp - bs[tenant].timestamp);
    }
  }

  /** A charging call finds at most the limit in the bucket. */
  lemma {:induction false} FirstPays(cfg: Limits, bs: Buckets, c: Call, tenant: string)
    requires Active(cfg) && InRange(cfg, bs) && Charges(c, tenant)
    ensures
      var (bs1, a) := Step(cfg, bs, c);
      tenant in bs1 && InRange(cfg, bs1) && bs1[tenant].tokens + Paid(c, a, tenant) <= cfg.limit as real
  {
    LevelInRange(cfg, bs, tenant, c.now);
  }

  lemma {:induction false} AdmittedCons(calls: seq<Call>, a: Answer, answers: seq<Answer>, tenant: string)
    requires calls != [] && |answers| == |calls| - 1
    ensures Admitted(calls, [a] + answers, tenant) == Paid(calls[0], a, tenant) + Admitted(calls[1..], answers, tenant)
  {
    assert ([a] + answers)[1..] == answers;
  }

  lemma {:induction false} StretchPays(cfg: Limits, bs: Buckets, calls: seq<Call>, tenant: string)
    requires Active(cfg) && InRange(cfg, bs)
    requires calls != [] && Charges(calls[0], tenant)
    ensures
      var bs1 := Step(cfg, bs, calls[0]).0;
      var (end, answers) := Run(cfg, bs, calls);
      && tenant in bs1 && tenant in end && bs1[tenant].timestamp <= end[tenant].timestamp
      && Admitted(calls, answers, tenant)
         <= cfg.limit as real + Gain(cfg.rate, end[tenant].timestamp - bs1[tenant].timestamp)
  {
    var (bs1, a) := Step(cfg, bs, calls[0]);
    FirstPays(cfg, bs, calls[0], tenant);
    RunPays(cfg, bs1, calls[1..], tenant);
    RunCons(cfg, bs, calls);
    AdmittedCons(calls, a, Run(cfg, bs1, calls[1..]).1, tenant);
  }

  lemma {:induction false} StretchOfRunPays(cfg: Limits, calls: seq<Call>, first: nat, last: nat, tenant: string)
    requires Active(cfg)
    requires first < last <= |calls| && Charges(calls[first], tenant)
    ensures
      var bs0, bs1 := Run(cfg, map[], calls[..first + 1]).0, Run(cfg, map[], calls[..last]).0;
      && tenant in bs0 && tenant in bs1 && bs0[tenant].timestamp <= bs1[tenant].timestamp
      && Admitted(calls[first..last], Run(cfg, map[], calls).1[first..last], tenant)
         <= cfg.limit as real + Gain(cfg.rate, bs1[tenant].timestamp - bs0[tenant].timestamp)
  {
    var bs := Run(cfg, map[], calls[..first]).0;
    RunSlice(cfg, calls, first, first + 1);
    RunSlice(cfg, calls, first, last);
    RunCons(cfg, bs, calls[first..first + 1]);
    RunInRange(cfg, map[], calls[..first]);
    StretchPays(cfg, bs, calls[first..last], tenant);
  }

  lemma {:induction false} WindowGain(cfg: Limits, calls: seq<Call>, first: nat, last: nat, tenant: string, peak0: int, peak1: int)
    requires Active(cfg)
    requires first < last <= |calls| && Charges(calls[first], tenant)
    requires IsPeak(calls[..first + 1], tenant, peak0) && IsPeak(calls[..last], tenant, peak1)
    ensures peak0 <= peak1
    ensures Admitted(calls[first..last], Run(cfg, map[], calls).1[first..last], tenant)
         <= cfg.limit as real + Gain(cfg.rate, peak1 - peak0)
  {
    StretchOfRunPays(cfg, calls, first, last, tenant);
    PeakIsStamp(cfg, calls[..first + 1], tenant, peak0);
    PeakIsStamp(cfg, calls[..last], tenant, peak1);
  }

  /**
   The window bound: over any contiguous stretch of a run that opens with a charging call of the
   tenant, the admitted amounts total at most the limit plus the rate times the advance of the
   tenant's running maximum of clock readings, even when the clock goes backwards.
   */
  lemma {:induction false} WindowBound(cfg: Limits, calls: seq<Call>, first: nat, last: nat, tenant: string, peak0: int, peak1: int)
    requires Active(cfg)
    requires first < last <= |calls| && Charges(calls[first], tenant)
    requires IsPeak(calls[..first + 1], tenant, peak0) && IsPeak(calls[..last], tenant, peak1)
    ensures Admitted(calls[first..last], Run(cfg, map[], calls).1[first..last], tenant)
         <= cfg.limit as real + (peak1 - peak0) as real * cfg.rate
  {
    WindowGain(cfg, calls, first, last, tenant, peak0, peak1);
    GainOver(cfg.rate, peak0, peak1);
  }

  /** Calls that no bucket decides: amounts that are not positive and limits that are not pass, an unset rate decides nothing. */
  lemma {:induction false} UndecidedCalls(cfg: Limits, bs: Buckets, c: Call)
    ensures c.amount <= 0 || cfg.limit <= 0 ==> Step(cfg, bs, c) == (bs, Decided(true))
    ensures c.amount > 0 && cfg.limit > 0 && cfg.rate <= 0.0 ==> Step(cfg, bs, c) == (bs, Unavailable)
  {
  }

  // ---------------------------------------------------------------- tenant isolation

  function Lookup(bs: Buckets, tenant: string): (b: seq<Bucket>) {
    if tenant in bs then [bs[tenant]] else []
  }

  /** The tenant's own calls, in order. */
  function Only(calls: seq<Call>, tenant: string): seq<Call> {
    if calls == [] then []
    else (if calls[0].tenant == tenant then [calls[0]] else []) + Only(calls[1..], tenant)
  }

  /** The answers that went to the tenant, in order. */
  function OnlyAnswers(calls: seq<Call>, answers: seq<Answer>, tenant: string): seq<Answer>
    requires |calls| == |answers|
  {
    if calls == [] then []
    else (if calls[0].tenant == tenant then [answers[0]] else []) + OnlyAnswers(calls[1..], answers[1..], tenant)
  }

  /** A call reads and writes its own tenant's bucket only. */
  lemma {:induction false} StepLocal(cfg: Limits, bs: Buckets, alone: Buckets, c: Call, tenant: string)
    requires Lookup(bs, tenant) == Lookup(alone, tenant)
    ensures c.tenant != tenant ==> Lookup(Step(cfg, bs, c).0, tenant) == Lookup(alone, tenant)
    ensures c.tenant == tenant ==>
      && Lookup(Step(cfg, bs, c).0, tenant) == Lookup(Step(cfg, alone, c).0, tenant)
      && Step(cfg, bs, c).1 == Step(cfg, alone, c).1
  {
    assert tenant in bs <==> Lookup(bs, tenant) != [];
    assert tenant in bs ==> bs[tenant] == Lookup(bs, tenant)[0] == alone[tenant];
  }

  /** A tenant sees the same answers and the same bucket as if it were alone. */
  lemma {:induction false} Isolation(cfg: Limits, bs: Buckets, alone: Buckets, calls: seq<Call>, tenant: string)
    requires Lookup(bs, tenant) == Lookup(alone, tenant)
    ensures
      var (end, answers) := Run(cfg, bs, calls);
      var (end', answers') := Run(cfg, alone, Only(calls, tenant));
      Lookup(end, tenant) == Lookup(end', tenant) && OnlyAnswers(calls, answers, tenant) == answers'
    decreases |calls|
  {
    if calls != [] {
      var c, rest := calls[0], calls[1..];
      var (bs1, a) := Step(cfg, bs, c);
      StepLocal(cfg, bs, alone, c, tenant);
      RunCons(cfg, bs, calls);
      assert Run(cfg, bs, calls).1[1..] == Run(cfg, bs1, rest).1;
      if c.tenant == tenant {
        var own := Only(calls, tenant);
        assert own[1..] == Only(rest, tenant);
        RunCons(cfg, alone, own);
        Isolation(cfg, bs1, Step(cfg, alone, c).0, rest, tenant);
      } else {
        assert Only(calls, tenant) == Only(rest, tenant);
        Isolation(cfg, bs1, alone, rest, tenant);
      }
    }
  }

  // ---------------------------------------------------------------- equal levels, equal answers

  ghost predicate StampedBy(bs: Buckets, clock: int) {
    forall t :: t in bs ==> bs[t].timestamp <= clock
  }

  /** Two limiters that no call from `clock` on can tell apart. */
  ghost predicate Alike(cfg: Limits, a: Buckets, b: Buckets, clock: int)
    requires Active(cfg)
  {
    && InRange(cfg, a) && InRange(cfg, b) && StampedBy(a, clock) && StampedBy(b, clock)
    && forall t :: Level(cfg, a, t, clock) == Level(cfg, b, t, clock)
  }

  predicate Monotone(calls: seq<Call>, clock: int) {
    calls == [] || (clock <= calls[0].now && Monotone(calls[1..], calls[0].now))
  }

  /** Refill-and-cap composes over a split interval. */
  lemma {:induction false} LevelLater(cfg: Limits, bs: Buckets, tenant: string, t: int, u: int)
    requires Active(cfg) && InRange(cfg, bs)
    requires (tenant in bs ==> bs[tenant].timestamp <= t) && t <= u
    ensures Level(cfg, bs, tenant, u)
         == Min(cfg.limit as real, Level(cfg, bs, tenant, t) + Gain(cfg.rate, u - t))
  {
    GainNotNegative(cfg.rate, u - t);
    if tenant in bs {
      GainAdds(cfg.rate, t - bs[tenant].timestamp, u - t);
    }
  }

  lemma {:induction false} AlikeLater(cfg: Limits, a: Buckets, b: Buckets, t: int, u: int)
    requires Active(cfg) && Alike(cfg, a, b, t) && t <= u
    ensures Alike(cfg, a, b, u)
  {
    forall x ensures Level(cfg, a, x, u) == Level(cfg, b, x, u) {
      LevelLater(cfg, a, x, t, u);
      LevelLater(cfg, b, x, t, u);
    }
  }

  /** A call lowers its own tenant's level by what it admits, and changes no other level. */
  lemma {:induction false} StepLevels(cfg: Limits, bs: Buckets, c: Call, x: string)
    requires Active(cfg) && InRange(cfg, bs) && StampedBy(bs, c.now)
    ensures
      var (bs1, a) := Step(cfg, bs, c);
      && InRange(cfg, bs1) && StampedBy(bs1, c.now)
      && a == Decided(c.amount <= 0 || c.amount as real <= Level(cfg, bs, c.tenant, c.now))
      && Level(cfg, bs1, x, c.now) == Level(cfg, bs, x, c.now) - Paid(c, a, x)
  {
    LevelInRange(cfg, bs, c.tenant, c.now);
  }

  lemma {:induction false} StepAlike(cfg: Limits, a: Buckets, b: Buckets, c: Call)
    requires Active(cfg) && Alike(cfg, a, b, c.now)
    ensures Step(cfg, a, c).1 == Step(cfg, b, c).1
    ensures Alike(cfg, Step(cfg, a, c).0, Step(cfg, b, c).0, c.now)
  {
    var a1, b1 := Step(cfg, a, c).0, Step(cfg, b, c).0;
    assert Level(cfg, a, c.tenant, c.now) == Level(cfg, b, c.tenant, c.now);
    StepLevels(cfg, a, c, c.tenant);
    StepLevels(cfg, b, c, c.tenant);
    forall x ensures Level(cfg, a1, x, c.now) == Level(cfg, b1, x, c.now) {
      StepLevels(cfg, a, c, x);
      StepLevels(cfg, b, c, x);
    }
  }

  lemma {:induction false} RunAlike(cfg: Limits, a: Buckets, b: Buckets, clock: int, calls: seq<Call>)
    requires Active(cfg) && Alike(cfg, a, b, clock) && Monotone(calls, clock)
    ensures Run(cfg, a, calls).1 == Run(cfg, b, calls).1
    decreases |calls|
  {
    if calls != [] {
      AlikeLater(cfg, a, b, clock, calls[0].now);
      StepAlike(cfg, a, b, calls[0]);
      RunAlike(cfg, Step(cfg, a, calls[0]).0, Step(cfg, b, calls[0]).0, calls[0].now, calls[1..]);
    }
  }

  // ---------------------------------------------------------------- refused calls

  lemma {:induction false} AnswerByLevel(cfg: Limits, bs: Buckets, c: Call)
    requires Active(cfg)
    ensures Step(cfg, bs, c).1 == Decided(c.amount <= 0 || c.amount <= Level(cfg, bs, c.tenant, c.now).Floor)
  {
    var level := Level(cfg, bs, c.tenant, c.now);
    assert c.amount as real <= level <==> c.amount <= level.Floor;
  }

  /** From a refused call's reading on no level is changed; before it, readings find the level the call found. */
  lemma {:induction false} RefusedLevel(cfg: Limits, bs: Buckets, c: Call, u: int)
    requires Active(cfg) && InRange(cfg, bs) && Step(cfg, bs, c).1 == Decided(false)
    ensures Level(cfg, Step(cfg, bs, c).0, c.tenant, u)
         == Level(cfg, bs, c.tenant, if u >= c.now then u else c.now)
  {
    LevelInRange(cfg, bs, c.tenant, c.now);
    if u >= c.now && (c.tenant in bs ==> bs[c.tenant].timestamp <= c.now) {
      LevelLater(cfg, bs, c.tenant, c.now, u);
    }
  }

  lemma {:induction false} LevelGrows(cfg: Limits, bs: Buckets, tenant: string, t: int, u: int)
    requires Active(cfg) && InRange(cfg, bs) && t <= u
    ensures Level(cfg, bs, tenant, t) <= Level(cfg, bs, tenant, u)
  {
    if tenant in bs {
      LevelInRange(cfg, bs, tenant, u);
      if bs[tenant].timestamp <= t {
        LevelLater(cfg, bs, tenant, t, u);
        GainNotNegative(cfg.rate, u - t);
        LevelInRange(cfg, bs, tenant, t);
      } else {
        GainNotNegative(cfg.rate, u - bs[tenant].timestamp);
      }
    }
  }

  /** Every amount asked for at reading `u` is answered alike. */
  ghost predicate AnsweredAlike(cfg: Limits, a: Buckets, b: Buckets, tenant: string, u: int) {
    forall n: int :: Step(cfg, a, Call(tenant, n, u)).1 == Step(cfg, b, Call(tenant, n, u)).1
  }

  /** Answers depend on whole tokens only, and show all of them. */
  lemma {:induction false} AnsweredAlikeIff(cfg: Limits, a: Buckets, b: Buckets, tenant: string, u: int)
    requires Active(cfg) && InRange(cfg, a) && InRange(cfg, b)
    ensures AnsweredAlike(cfg, a, b, tenant, u) <==> Level(cfg, a, tenant, u).Floor == Level(cfg, b, tenant, u).Floor
  {
    var m, n := Level(cfg, a, tenant, u).Floor, Level(cfg, b, tenant, u).Floor;
    forall k: int
      ensures Step(cfg, a, Call(tenant, k, u)).1 == Decided(k <= 0 || k <= m)
      ensures Step(cfg, b, Call(tenant, k, u)).1 == Decided(k <= 0 || k <= n)
    {
      AnswerByLevel(cfg, a, Call(tenant, k, u));
      AnswerByLevel(cfg, b, Call(tenant, k, u));
    }
    if m != n {
      LevelInRange(cfg, a, tenant, u);
      LevelInRange(cfg, b, tenant, u);
      var k := if m < n then n else m;
      assert Step(cfg, a, Call(tenant, k, u)).1 != Step(cfg, b, Call(tenant, k, u)).1;
    }
  }

  /**
   Exactly when a refused call shows: to a call of its tenant at reading `u`, if and only if `u` is
   before its own reading and the refill between the two readings completes a whole token.
   */
  lemma {:induction false} RefusedCallShowsIff(cfg: Limits, bs: Buckets, c: Call, u: int)
    requires Active(cfg) && InRange(cfg, bs) && Step(cfg, bs, c).1 == Decided(false)
    ensures !AnsweredAlike(cfg, Step(cfg, bs, c).0, bs, c.tenant, u)
       <==> u < c.now && Level(cfg, bs, c.tenant, u).Floor < Level(cfg, bs, c.tenant, c.now).Floor
  {
    RefusedLevel(cfg, bs, c, u);
    LevelInRange(cfg, bs, c.tenant, c.now);
    AnsweredAlikeIff(cfg, Step(cfg, bs, c).0, bs, c.tenant, u);
    if u < c.now {
      LevelGrows(cfg, bs, c.tenant, u, c.now);
      FloorGrows(Level(cfg, bs, c.tenant, u), Level(cfg, bs, c.tenant, c.now));
    }
  }

  lemma {:induction false} FloorGrows(a: real, b: real)
    requires a <= b
    ensures a.Floor <= b.Floor
  {
  }

  /** The tenant's next charging call, if any, reads the clock at `t` or later. */
  predicate NextReadsFrom(calls: seq<Call>, tenant: string, t: int) {
    calls == [] || (if Charges(calls[0], tenant) then t <= calls[0].now else NextReadsFrom(calls[1..], tenant, t))
  }

  lemma {:induction false} MonotoneReadsFrom(calls: seq<Call>, clock: int, tenant: string, t: int)
    requires Monotone(calls, clock) && t <= clock
    ensures NextReadsFrom(calls, tenant, t)
    decreases |calls|
  {
    if calls != [] {
      MonotoneReadsFrom(calls[1..], calls[0].now, tenant, t);
    }
  }

  /** `a` is `b`, or `b` with the tenant's bucket refilled to a reading `t` ahead of its stamp. */
  ghost predicate Ahead(cfg: Limits, a: Buckets, b: Buckets, tenant: string, t: int)
    requires Active(cfg)
  {
    a == b || ((tenant in b ==> b[tenant].timestamp < t) && a == b[tenant := Bucket(Level(cfg, b, tenant, t), t)])
  }

  lemma {:induction false} RefusalIsAhead(cfg: Limits, bs: Buckets, c: Call)
    requires Active(cfg) && Step(cfg, bs, c).1 == Decided(false)
    ensures Ahead(cfg, Step(cfg, bs, c).0, bs, c.tenant, c.now)
  {
    if c.tenant in bs && c.now <= bs[c.tenant].timestamp {
      assert Step(cfg, bs, c).0 == bs;
    }
  }

  lemma {:induction false} OthersKeepAhead(cfg: Limits, a: Buckets, b: Buckets, tenant: string, t: int, c: Call)
    requires Active(cfg) && Ahead(cfg, a, b, tenant, t) && !Charges(c, tenant)
    ensures Step(cfg, a, c).1 == Step(cfg, b, c).1
    ensures Ahead(cfg, Step(cfg, a, c).0, Step(cfg, b, c).0, tenant, t)
  {
    if c.amount > 0 {
      StepLocal(cfg, a, b, c, c.tenant);
      StepLocal(cfg, b, b, c, tenant);
      assert Lookup(a, c.tenant) == Lookup(b, c.tenant);
      var a1, b1 := Step(cfg, a, c).0, Step(cfg, b, c).0;
      assert a1 == a[c.tenant := b1[c.tenant]];
      assert b1 == b[c.tenant := b1[c.tenant]];
      if a != b {
        assert Level(cfg, b1, tenant, t) == Level(cfg, b, tenant, t);
        assert a1 == b1[tenant := Bucket(Level(cfg, b1, tenant, t), t)];
      }
    }
  }

  /** A charging call of the tenant at `t` or later brings the two together. */
  lemma {:induction false} ChargeMeets(cfg: Limits, a: Buckets, b: Buckets, t: int, c: Call)
    requires Active(cfg) && InRange(cfg, b) && Ahead(cfg, a, b, c.tenant, t) && c.amount > 0 && t <= c.now
    ensures Step(cfg, a, c) == Step(cfg, b, c)
  {
    if a != b {
      LevelLater(cfg, b, c.tenant, t, c.now);
      LevelInRange(cfg, b, c.tenant, t);
      assert Level(cfg, a, c.tenant, c.now) == Level(cfg, b, c.tenant, c.now);
      var bucket := Step(cfg, b, c).0[c.tenant];
      assert Step(cfg, a, c).0 == a[c.tenant := bucket] == b[c.tenant := bucket];
    }
  }

  lemma {:induction false} RunFromAhead(cfg: Limits, a: Buckets, b: Buckets, tenant: string, t: int, calls: seq<Call>)
    requires Active(cfg) && InRange(cfg, b) && Ahead(cfg, a, b, tenant, t) && NextReadsFrom(calls, tenant, t)
    ensures Run(cfg, a, calls).1 == Run(cfg, b, calls).1
    decreases |calls|
  {
    if calls != [] {
      RunCons(cfg, a, calls);
      RunCons(cfg, b, calls);
      if Charges(calls[0], tenant) {
        ChargeMeets(cfg, a, b, t, calls[0]);
      } else {
        OthersKeepAhead(cfg, a, b, tenant, t, calls[0]);
        LevelInRange(cfg, b, calls[0].tenant, calls[0].now);
        RunFromAhead(cfg, Step(cfg, a, calls[0]).0, Step(cfg, b, calls[0]).0, tenant, t, calls[1..]);
      }
    }
  }

  /**
   Deleting any refused call from a run changes no other answer of any tenant, provided that its
   tenant's next charging call reads the clock no earlier; all other readings are free.
   */
  lemma {:induction false} RefusedCallsAreInvisible(cfg: Limits, bs: Buckets, calls: seq<Call>, k: nat)
    requires Active(cfg) && InRange(cfg, bs)
    requires k < |calls| && Run(cfg, bs, calls).1[k] == Decided(false)
    requires NextReadsFrom(calls[k + 1..], calls[k].tenant, calls[k].now)
    ensures
      var answers := Run(cfg, bs, calls).1;
      Run(cfg, bs, calls[..k] + calls[k + 1..]).1 == answers[..k] + answers[k + 1..]
  {
    var before, c, rest := calls[..k], calls[k], calls[k + 1..];
    var bs0 := Run(cfg, bs, before).0;
    RunSplit(cfg, bs, before, [c] + rest);
    RunSplit(cfg, bs, before, rest);
    assert calls == before + ([c] + rest);
    assert ([c] + rest)[1..] == rest;
    RunCons(cfg, bs0, [c] + rest);
    RefusalIsAhead(cfg, bs0, c);
    RunInRange(cfg, bs, before);
    RunFromAhead(cfg, Step(cfg, bs0, c).0, bs0, c.tenant, c.now, rest);
  }

  /** The proviso is needed: a refused call stamped in the future lends its refill to an earlier reading. */
  lemma {:induction false} RefusedCallVisibleWhenClockGoesBack()
    ensures
      var cfg := Limits(2, 0.2);
      var calls := [Call("t", 2, 0), Call("t", 2, 5), Call("t", 1, 0)];
      && Run(cfg, map[], calls).1 == [Decided(true), Decided(false), Decided(true)]
      && Run(cfg, map[], [calls[0], calls[2]]).1 == [Decided(true), Decided(false)]
  {
    var cfg := Limits(2, 0.2);
    var calls := [Call("t", 2, 0), Call("t", 2, 5), Call("t", 1, 0)];
    var bs1 := Step(cfg, map[], calls[0]).0;
    assert bs1["t"] == Bucket(0.0, 0);
    var bs2 := Step(cfg, bs1, calls[1]).0;
    assert bs2["t"] == Bucket(1.0, 5);
    assert Run(cfg, bs2, calls[2..]).1 == [Decided(true)];
    assert calls[1..][1..] == calls[2..];
    assert Run(cfg, bs1, calls[1..]).1 == [Decided(false), Decided(true)];
    assert Run(cfg, bs1, calls[2..]).1 == [Decided(false)];
    assert [calls[0], calls[2]][1..] == calls[2..];
  }

  // ---------------------------------------------------------------- nothing is refused without need

  /** Readings do not go back, and none is past `u`. */
  predicate Ascending(calls: seq<Call>, u: int) {
    && (forall i :: 0 <= i < |calls| ==> calls[i].now <= u)
    && (forall i, j :: 0 <= i < j < |calls| ==> calls[i].now <= calls[j].now)
  }

  /** What the window bound leaves to admit at `u` over the stretch that opens with call `i`. */
  ghost function Room(cfg: Limits, calls: seq<Call>, i: nat, tenant: string, u: int): real
    requires i < |calls|
  {
    cfg.limit as real + Gain(cfg.rate, u - calls[i].now) - Admitted(calls[i..], Run(cfg, map[], calls).1[i..], tenant)
  }

  /** The level is the least of the limit and the rooms of all stretches. */
  ghost predicate IsTightest(cfg: Limits, calls: seq<Call>, tenant: string, u: int, level: real) {
    && level <= cfg.limit as real
    && (forall i :: 0 <= i < |calls| && Charges(calls[i], tenant) ==> level <= Room(cfg, calls, i, tenant, u))
    && (level == cfg.limit as real || exists i :: 0 <= i < |calls| && Charges(calls[i], tenant) && level == Room(cfg, calls, i, tenant, u))
  }

  lemma {:induction false} AdmittedSnoc(calls: seq<Call>, answers: seq<Answer>, c: Call, a: Answer, tenant: string)
    requires |calls| == |answers|
    ensures Admitted(calls + [c], answers + [a], tenant) == Admitted(calls, answers, tenant) + Paid(c, a, tenant)
    decreases |calls|
  {
    if calls == [] {
      assert [c][1..] == [] && [a][1..] == [];
      assert Admitted([c], [a], tenant) == Paid(c, a, tenant) + Admitted([], [], tenant);
      assert calls + [c] == [c] && answers + [a] == [a];
    } else {
      assert (calls + [c])[1..] == calls[1..] + [c] && (answers + [a])[1..] == answers[1..] + [a];
      AdmittedSnoc(calls[1..], answers[1..], c, a, tenant);
    }
  }

  lemma {:induction false} RunSnoc(cfg: Limits, bs: Buckets, calls: seq<Call>, c: Call)
    ensures
      var (bs0, answers) := Run(cfg, bs, calls);
      var (bs1, a) := Step(cfg, bs0, c);
      Run(cfg, bs, calls + [c]) == (bs1, answers + [a])
  {
    var bs0 := Run(cfg, bs, calls).0;
    RunSplit(cfg, bs, calls, [c]);
    RunCons(cfg, bs0, [c]);
    assert [c][1..] == [];
    var (bs1, a) := Step(cfg, bs0, c);
    assert Run(cfg, bs1, []) == (bs1, []) && [a] + [] == [a];
  }

  lemma {:induction false} RunStamped(cfg: Limits, calls: seq<Call>, u: int)
    requires Active(cfg) && Ascending(calls, u)
    ensures StampedBy(Run(cfg, map[], calls).0, u)
  {
    var bs := Run(cfg, map[], calls).0;
    forall t | t in bs ensures bs[t].timestamp <= u {
      StampIsPeak(cfg, calls, t);
    }
  }

  /** One more call takes from every earlier room what it was paid, and time gives to it. */
  lemma {:induction false} RoomAfter(cfg: Limits, calls: seq<Call>, c: Call, i: nat, tenant: string, u: int)
    requires i < |calls| && Ascending(calls, c.now) && c.now <= u
    ensures
      var a := Step(cfg, Run(cfg, map[], calls).0, c).1;
      Room(cfg, calls + [c], i, tenant, u)
      == Room(cfg, calls, i, tenant, c.now) + Gain(cfg.rate, u - c.now) - Paid(c, a, tenant)
  {
    var (bs, answers) := Run(cfg, map[], calls);
    var a := Step(cfg, bs, c).1;
    RunSnoc(cfg, map[], calls, c);
    assert (calls + [c])[i..] == calls[i..] + [c] && (answers + [a])[i..] == answers[i..] + [a];
    AdmittedSnoc(calls[i..], answers[i..], c, a, tenant);
    GainAdds(cfg.rate, c.now - calls[i].now, u - c.now);
  }

  lemma {:induction false} OwnRoom(cfg: Limits, calls: seq<Call>, c: Call, tenant: string, u: int)
    ensures
      var a := Step(cfg, Run(cfg, map[], calls).0, c).1;
      Room(cfg, calls + [c], |calls|, tenant, u) == cfg.limit as real + Gain(cfg.rate, u - c.now) - Paid(c, a, tenant)
  {
    var (bs, answers) := Run(cfg, map[], calls);
    var a := Step(cfg, bs, c).1;
    RunSnoc(cfg, map[], calls, c);
    assert (calls + [c])[|calls|..] == [] + [c] && (answers + [a])[|calls|..] == [] + [a];
    AdmittedSnoc([], [], c, a, tenant);
  }

  /** One more call keeps the level the tightest bound. */
  lemma {:induction false} TightestAfter(cfg: Limits, calls: seq<Call>, c: Call, tenant: string, u: int, level: real, after: real)
    requires Active(cfg) && Ascending(calls, c.now) && c.now <= u && IsTightest(cfg, calls, tenant, c.now, level)
    requires
      var a := Step(cfg, Run(cfg, map[], calls).0, c).1;
      after == Min(cfg.limit as real, level - Paid(c, a, tenant) + Gain(cfg.rate, u - c.now))
    ensures IsTightest(cfg, calls + [c], tenant, u, after)
  {
    var all, n := calls + [c], |calls|;
    var a := Step(cfg, Run(cfg, map[], calls).0, c).1;
    GainNotNegative(cfg.rate, u - c.now);
    OwnRoom(cfg, calls, c, tenant, u);
    forall i | 0 <= i < n
      ensures all[i] == calls[i]
      ensures Room(cfg, all, i, tenant, u) == Room(cfg, calls, i, tenant, c.now) + Gain(cfg.rate, u - c.now) - Paid(c, a, tenant)
    {
      RoomAfter(cfg, calls, c, i, tenant, u);
    }
    assert all[n] == c;
    if after != cfg.limit as real {
      if level == cfg.limit as real {
        assert Charges(all[n], tenant) && after == Room(cfg, all, n, tenant, u);
      } else {
        var i :| 0 <= i < n && Charges(calls[i], tenant) && level == Room(cfg, calls, i, tenant, c.now);
        assert Charges(all[i], tenant) && after == Room(cfg, all, i, tenant, u);
      }
    }
  }

  lemma {:induction false} LevelIsTightest(cfg: Limits, calls: seq<Call>, tenant: string, u: int)
    requires Active(cfg) && Ascending(calls, u)
    ensures IsTightest(cfg, calls, tenant, u, Level(cfg, Run(cfg, map[], calls).0, tenant, u))
  {
    if calls != [] {
      var n := |calls| - 1;
      var before, c := calls[..n], calls[n];
      assert calls == before + [c];
      var bs := Run(cfg, map[], before).0;
      var (bs1, a) := Step(cfg, bs, c);
      LevelIsTightest(cfg, before, tenant, c.now);
      RunInRange(cfg, map[], before);
      RunStamped(cfg, before, c.now);
      StepLevels(cfg, bs, c, tenant);
      RunSnoc(cfg, map[], before, c);
      LevelLater(cfg, bs1, tenant, c.now, u);
      TightestAfter(cfg, before, c, tenant, u, Level(cfg, bs, tenant, c.now), Level(cfg, bs1, tenant, u));
    }
  }

  /** Admitting the amount at `u` keeps the window bound over the stretch that opens with call `i`. */
  ghost predicate BoundAllows(cfg: Limits, calls: seq<Call>, i: nat, tenant: string, u: int, amount: int)
    requires i < |calls|
  {
    Admitted(calls[i..], Run(cfg, map[], calls).1[i..], tenant) + amount as real
    <= cfg.limit as real + (u - calls[i].now) as real * cfg.rate
  }

  lemma {:induction false} BoundIsRoom(cfg: Limits, calls: seq<Call>, i: nat, tenant: string, u: int, amount: int)
    requires i < |calls| && calls[i].now <= u
    ensures BoundAllows(cfg, calls, i, tenant, u, amount) <==> amount as real <= Room(cfg, calls, i, tenant, u)
  {
    GainOver(cfg.rate, calls[i].now, u);
  }

  lemma {:induction false} AdmittedKeepsBound(cfg: Limits, calls: seq<Call>, c: Call, i: nat)
    requires Active(cfg) && Ascending(calls, c.now) && c.amount > 0 && i < |calls| && Charges(calls[i], c.tenant)
    requires Step(cfg, Run(cfg, map[], calls).0, c).1 == Decided(true)
    ensures BoundAllows(cfg, calls, i, c.tenant, c.now, c.amount)
  {
    LevelIsTightest(cfg, calls, c.tenant, c.now);
    BoundIsRoom(cfg, calls, i, c.tenant, c.now, c.amount);
  }

  lemma {:induction false} RefusedBreaksBound(cfg: Limits, calls: seq<Call>, c: Call) returns (i: nat)
    requires Active(cfg) && Ascending(calls, c.now) && 0 < c.amount <= cfg.limit
    requires Step(cfg, Run(cfg, map[], calls).0, c).1 != Decided(true)
    ensures i < |calls| && Charges(calls[i], c.tenant) && !BoundAllows(cfg, calls, i, c.tenant, c.now, c.amount)
  {
    var level := Level(cfg, Run(cfg, map[], calls).0, c.tenant, c.now);
    LevelIsTightest(cfg, calls, c.tenant, c.now);
    i :| 0 <= i < |calls| && Charges(calls[i], c.tenant) && level == Room(cfg, calls, i, c.tenant, c.now);
    BoundIsRoom(cfg, calls, i, c.tenant, c.now, c.amount);
  }

  /**
   Nothing is refused without need: with a clock that does not go back, a call is admitted exactly when
   admitting it exceeds neither the limit nor the window bound over any stretch of its tenant's calls.
   */
  lemma {:induction false} AdmittedIffBoundAllows(cfg: Limits, calls: seq<Call>, c: Call)
    requires Active(cfg) && Ascending(calls, c.now) && c.amount > 0
    ensures Step(cfg, Run(cfg, map[], calls).0, c).1 == Decided(true) <==>
      && c.amount <= cfg.limit
      && forall i :: 0 <= i < |calls| && Charges(calls[i], c.tenant) ==> BoundAllows(cfg, calls, i, c.tenant, c.now, c.amount)
  {
    if Step(cfg, Run(cfg, map[], calls).0, c).1 == Decided(true) {
      LevelIsTightest(cfg, calls, c.tenant, c.now);
      forall i | 0 <= i < |calls| && Charges(calls[i], c.tenant) ensures BoundAllows(cfg, calls, i, c.tenant, c.now, c.amount) {
        AdmittedKeepsBound(cfg, calls, c, i);
      }
    } else if c.amount <= cfg.limit {
      var i := RefusedBreaksBound(cfg, calls, c);
    }
  }
}
