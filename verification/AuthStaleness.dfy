/**
 The auth cache under concurrent calls, interleaved at lock granularity.

 An authentication reads the clock once, looks the key up under the read lock, deletes an expired
 entry, asks the inner store, and inserts the answer: other calls and rotations may run between any
 two of these.  A rotation changes the inner store first and purges the cache later.
 */
module AuthStaleness {
  import opened AuthCache

  datatype Stage = Looking | Deleting | Asking | Inserting(tenant: Tenant)

  datatype Call = Call(h: Digest, start: int, stage: Stage)

  /** The inner store accepted a key. */
  datatype Acceptance = Acceptance(h: Digest, tenant: Tenant, at: int)

  /** An authentication that ran from `start` to `end` succeeded. */
  datatype Success = Success(h: Digest, tenant: Tenant, start: int, end: int)

  datatype State = State(
    now: int,
    tenants: Tenants,
    items: Items,
    calls: map<nat, Call>,
    accepted: set<Acceptance>,
    successes: seq<Success>,
    issued: set<Digest>,
    revoked: map<Digest, int>)

  datatype Step =
    | Tick(d: nat)
    | CreateTenant(tenant: Tenant)
    | RotateInner(id: string, h: Digest)
    | PurgeTenant(id: string)
    | Begin(c: nat, h: Digest)
    | LookUp(c: nat)
    | DeleteExpired(c: nat)
    | Ask(c: nat, id: string)
    | AskRefused(c: nat)
    | Finish(c: nat, victim: Digest)

  function Initial(now: int): State {
    State(now, map[], map[], map[], {}, [], {}, map[])
  }

  predicate In(s: State, c: nat, stage: Stage) {
    c in s.calls && s.calls[c].stage == stage
  }

  predicate Enabled(s: State, step: Step) {
    match step
    case Tick(_) => true
    case CreateTenant(t) => t.id !in s.tenants && t.keyHash !in s.issued
    case RotateInner(id, h) => id in s.tenants && h !in s.issued
    case PurgeTenant(_) => true
    case Begin(c, _) => c !in s.calls
    case LookUp(c) => In(s, c, Looking)
    case DeleteExpired(c) => In(s, c, Deleting)
    case Ask(c, id) => In(s, c, Asking) && id in s.tenants && Matches(s.tenants[id], s.calls[c].h)
    case AskRefused(c) => In(s, c, Asking)
    case Finish(c, _) => c in s.calls && s.calls[c].stage.Inserting?
  }

  ghost function Next(ttl: int, s: State, step: Step): State
    requires Enabled(s, step)
  {
    match step
    case Tick(d) => s.(now := s.now + d)
    case CreateTenant(t) => s.(tenants := s.tenants[t.id := t], issued := s.issued + {t.keyHash})
    case RotateInner(id, h) =>
      s.(tenants := s.tenants[id := s.tenants[id].(keyHash := h, updatedAt := s.now)], issued := s.issued + {h},
         revoked := s.revoked[s.tenants[id].keyHash := s.now])
    case PurgeTenant(id) => s.(items := Purge(s.items, id))
    case Begin(c, h) => s.(calls := s.calls[c := Call(h, s.now, Looking)])
    case LookUp(c) =>
      var call := s.calls[c];
      if call.h in s.items && call.start < s.items[call.h].expires then
        s.(calls := s.calls - {c}, successes := s.successes + [Success(call.h, s.items[call.h].tenant, call.start, s.now)])
      else s.(calls := s.calls[c := call.(stage := if call.h in s.items then Deleting else Asking)])
    case DeleteExpired(c) =>
      s.(items := s.items - {s.calls[c].h}, calls := s.calls[c := s.calls[c].(stage := Asking)])
    case Ask(c, id) =>
      var t := s.tenants[id];
      s.(accepted := s.accepted + {Acceptance(s.calls[c].h, t, s.now)},
         calls := s.calls[c := s.calls[c].(stage := Inserting(t))])
    case AskRefused(c) => s.(calls := s.calls - {c})
    case Finish(c, victim) =>
      var call := s.calls[c];
      s.(items := Insert(s.items, call.h, call.stage.tenant, call.start, ttl, victim),
         calls := s.calls - {c},
         successes := s.successes + [Success(call.h, call.stage.tenant, call.start, s.now)])
  }

  ghost predicate ValidFrom(ttl: int, s: State, steps: seq<Step>)
    decreases |steps|
  {
    steps == [] || (Enabled(s, steps[0]) && ValidFrom(ttl, Next(ttl, s, steps[0]), steps[1..]))
  }

  ghost function After(ttl: int, s: State, steps: seq<Step>): State
    requires ValidFrom(ttl, s, steps)
    decreases |steps|
  {
    if steps == [] then s else After(ttl, Next(ttl, s, steps[0]), steps[1..])
  }

  // ---------------------------------------------------------------- what every state satisfies

  /** The inner store accepted this key for this tenant no earlier than `since`. */
  ghost predicate Backed(accepted: set<Acceptance>, h: Digest, t: Tenant, since: int) {
    exists a :: a in accepted && a.h == h && a.tenant == t && a.at >= since
  }

  /** The inner store accepted the key less than `ttl` before the call started, or while it ran. */
  ghost predicate Justified(ttl: int, accepted: set<Acceptance>, x: Success) {
    exists a :: a in accepted && a.h == x.h && a.tenant == x.tenant && x.start - ttl < a.at <= x.end
  }

  ghost predicate ItemsBacked(ttl: int, accepted: set<Acceptance>, items: Items) {
    && |items| <= MAX_CACHED_KEYS
    && forall h :: h in items ==> Backed(accepted, h, items[h].tenant, items[h].expires - ttl)
  }

  ghost predicate CallsBacked(s: State) {
    && (forall c :: c in s.calls ==> s.calls[c].start <= s.now)
    && (forall c :: c in s.calls && s.calls[c].stage.Inserting? ==>
          Backed(s.accepted, s.calls[c].h, s.calls[c].stage.tenant, s.calls[c].start))
  }

  ghost predicate Inv(ttl: int, s: State) {
    && ItemsBacked(ttl, s.accepted, s.items)
    && CallsBacked(s)
    && (forall a :: a in s.accepted ==> a.at <= s.now)
    && (forall x :: x in s.successes ==> Justified(ttl, s.accepted, x))
  }

  /** Keys handed out are never handed out again, so a revoked key is accepted no more. */
  ghost predicate KeysOk(s: State) {
    && (forall id :: id in s.tenants ==> s.tenants[id].keyHash in s.issued && s.tenants[id].keyHash !in s.revoked)
    && (forall i, j :: i in s.tenants && j in s.tenants && s.tenants[i].keyHash == s.tenants[j].keyHash ==> i == j)
    && (forall h :: h in s.revoked ==> h in s.issued && s.revoked[h] <= s.now)
    && (forall a :: a in s.accepted && a.h in s.revoked ==> a.at <= s.revoked[a.h])
  }

  lemma {:induction false} BackedSince(accepted: set<Acceptance>, accepted1: set<Acceptance>, h: Digest, t: Tenant, since: int, since1: int)
    requires Backed(accepted, h, t, since) && accepted <= accepted1 && since1 <= since
    ensures Backed(accepted1, h, t, since1)
  {
    var a :| a in accepted && a.h == h && a.tenant == t && a.at >= since;
    assert a in accepted1;
  }

  lemma {:induction false} SuccessJustified(ttl: int, accepted: set<Acceptance>, x: Success, since: int)
    requires Backed(accepted, x.h, x.tenant, since) && since > x.start - ttl
    requires forall a :: a in accepted ==> a.at <= x.end
    ensures Justified(ttl, accepted, x)
  {
    var a :| a in accepted && a.h == x.h && a.tenant == x.tenant && a.at >= since;
  }

  ghost predicate SubItems(a: Items, b: Items) {
    forall k :: k in a ==> k in b && a[k] == b[k]
  }

  lemma {:induction false} RoomIsMade(items: Items, now: int, victim: Digest)
    requires |items| <= MAX_CACHED_KEYS
    ensures SubItems(MakeRoom(DropExpired(items, now), victim), items)
    ensures |MakeRoom(DropExpired(items, now), victim)| < MAX_CACHED_KEYS
  {
    var kept := DropExpired(items, now);
    DropShrinks(items, now);
    if |kept| >= MAX_CACHED_KEYS {
      var room := MakeRoom(kept, victim);
      var k :| k in kept && room == kept - {k};
      RemovalShrinks(kept, k);
    }
  }

  /** An insert keeps some of the entries, with room for one more, and adds its own. */
  lemma {:induction false} InsertIntoRoom(items: Items, h: Digest, t: Tenant, now: int, ttl: int, victim: Digest) returns (room: Items)
    requires |items| <= MAX_CACHED_KEYS
    ensures Insert(items, h, t, now, ttl, victim) == room[h := Cached(t, now + ttl)]
    ensures SubItems(room, items) && |room[h := Cached(t, now + ttl)]| <= MAX_CACHED_KEYS
  {
    room := MakeRoom(DropExpired(items, now), victim);
    RoomIsMade(items, now, victim);
    InsertGrows(room, h, Cached(t, now + ttl));
  }

  lemma {:induction false} InsertKeepsBacked(ttl: int, accepted: set<Acceptance>, items: Items, h: Digest, t: Tenant, now: int, victim: Digest)
    requires ItemsBacked(ttl, accepted, items) && Backed(accepted, h, t, now)
    ensures ItemsBacked(ttl, accepted, Insert(items, h, t, now, ttl, victim))
  {
    var room := InsertIntoRoom(items, h, t, now, ttl, victim);
  }

  lemma {:induction false} FinishKeeps(ttl: int, s: State, step: Step)
    requires ttl > 0 && Inv(ttl, s) && step.Finish? && Enabled(s, step)
    ensures Inv(ttl, Next(ttl, s, step))
  {
    var call, s1 := s.calls[step.c], Next(ttl, s, step);
    var t := call.stage.tenant;
    InsertKeepsBacked(ttl, s.accepted, s.items, call.h, t, call.start, step.victim);
    assert CallsBacked(s1);
    SuccessJustified(ttl, s.accepted, Success(call.h, t, call.start, s.now), call.start);
  }

  lemma {:induction false} LookUpKeeps(ttl: int, s: State, step: Step)
    requires ttl > 0 && Inv(ttl, s) && step.LookUp? && Enabled(s, step)
    ensures Inv(ttl, Next(ttl, s, step))
  {
    var call := s.calls[step.c];
    if call.h in s.items && call.start < s.items[call.h].expires {
      var item := s.items[call.h];
      SuccessJustified(ttl, s.accepted, Success(call.h, item.tenant, call.start, s.now), item.expires - ttl);
    }
  }

  lemma {:induction false} AskKeeps(ttl: int, s: State, step: Step)
    requires Inv(ttl, s) && step.Ask? && Enabled(s, step)
    ensures Inv(ttl, Next(ttl, s, step))
  {
    var s1 := Next(ttl, s, step);
    forall h | h in s1.items ensures Backed(s1.accepted, h, s1.items[h].tenant, s1.items[h].expires - ttl) {
      BackedSince(s.accepted, s1.accepted, h, s.items[h].tenant, s.items[h].expires - ttl, s.items[h].expires - ttl);
    }
    forall c | c in s1.calls && s1.calls[c].stage.Inserting?
      ensures Backed(s1.accepted, s1.calls[c].h, s1.calls[c].stage.tenant, s1.calls[c].start)
    {
      if c == step.c {
        assert Acceptance(s.calls[c].h, s.tenants[step.id], s.now) in s1.accepted;
      } else {
        BackedSince(s.accepted, s1.accepted, s.calls[c].h, s.calls[c].stage.tenant, s.calls[c].start, s.calls[c].start);
      }
    }
    forall x | x in s1.successes ensures Justified(ttl, s1.accepted, x) {
      assert Justified(ttl, s.accepted, x);
    }
  }

  lemma {:induction false} StepKeeps(ttl: int, s: State, step: Step)
    requires ttl > 0 && Inv(ttl, s) && Enabled(s, step)
    ensures Inv(ttl, Next(ttl, s, step))
  {
    match step
    case Finish(_, _) => FinishKeeps(ttl, s, step);
    case LookUp(_) => LookUpKeeps(ttl, s, step);
    case Ask(_, _) => AskKeeps(ttl, s, step);
    case PurgeTenant(id) => PurgeShrinks(s.items, id);
    case DeleteExpired(c) => RemovalShrinks(s.items, s.calls[c].h);
    case _ =>
  }

  lemma {:induction false} StepKeepsKeys(ttl: int, s: State, step: Step)
    requires KeysOk(s) && (forall a :: a in s.accepted ==> a.at <= s.now) && Enabled(s, step)
    ensures KeysOk(Next(ttl, s, step))
  {
  }

  lemma {:induction false} RunKeeps(ttl: int, s: State, steps: seq<Step>)
    requires ttl > 0 && Inv(ttl, s) && KeysOk(s) && ValidFrom(ttl, s, steps)
    ensures Inv(ttl, After(ttl, s, steps)) && KeysOk(After(ttl, s, steps))
    decreases |steps|
  {
    if steps != [] {
      StepKeepsKeys(ttl, s, steps[0]);
      StepKeeps(ttl, s, steps[0]);
      RunKeeps(ttl, Next(ttl, s, steps[0]), steps[1..]);
    }
  }

  // ---------------------------------------------------------------- main results

  /**
   Bounded staleness: under any interleaving, every success of a call is backed by an acceptance of
   that key for that tenant by the inner store, less than `ttl` before the call started or while it
   ran, and the cache never exceeds its size.
   */
  lemma {:induction false} StalenessIsBounded(ttl: int, start: int, steps: seq<Step>)
    requires ttl > 0 && ValidFrom(ttl, Initial(start), steps)
    ensures
      var s := After(ttl, Initial(start), steps);
      && |s.items| <= 4096
      && forall x :: x in s.successes ==> exists a :: a in s.accepted && a.h == x.h && a.tenant == x.tenant && x.start - ttl < a.at <= x.end
  {
    RunKeeps(ttl, Initial(start), steps);
    var s := After(ttl, Initial(start), steps);
    assert forall x :: x in s.successes ==> Justified(ttl, s.accepted, x);
  }

  /** A rotated key is dead within `ttl`: no call that starts that long after its rotation succeeds with it. */
  lemma {:induction false} RotatedKeyDies(ttl: int, start: int, steps: seq<Step>, x: Success)
    requires ttl > 0 && ValidFrom(ttl, Initial(start), steps)
    requires x in After(ttl, Initial(start), steps).successes && x.h in After(ttl, Initial(start), steps).revoked
    ensures x.start < After(ttl, Initial(start), steps).revoked[x.h] + ttl
  {
    RunKeeps(ttl, Initial(start), steps);
    var s := After(ttl, Initial(start), steps);
    assert Justified(ttl, s.accepted, x);
  }

  // ---------------------------------------------------------------- exactly when a revoked key lives on

  /** The key is cached past `t0`, or an answer for it that would be is about to be inserted. */
  ghost predicate Revivable(ttl: int, s: State, h: Digest, t0: int) {
    || (h in s.items && t0 < s.items[h].expires)
    || exists c :: PendingPast(ttl, s, c, h, t0)
  }

  predicate PendingPast(ttl: int, s: State, c: nat, h: Digest, t0: int) {
    c in s.calls && s.calls[c].h == h && s.calls[c].stage.Inserting? && t0 < s.calls[c].start + ttl
  }

  /** Among the successes after the first `n` is one with the key, by a call that started at `t0` or later. */
  ghost predicate SucceedsFrom(s: State, n: nat, h: Digest, t0: int) {
    exists i :: n <= i < |s.successes| && s.successes[i].h == h && s.successes[i].start >= t0
  }

  /** The steps make a call that starts at `t0` or later succeed with the key. */
  ghost predicate LetsIn(ttl: int, s: State, steps: seq<Step>, h: Digest, t0: int) {
    ValidFrom(ttl, s, steps) && SucceedsFrom(After(ttl, s, steps), |s.successes|, h, t0)
  }

  ghost predicate Dead(ttl: int, s: State, n: nat, h: Digest, t0: int) {
    && Inv(ttl, s) && KeysOk(s) && h in s.revoked
    && !Revivable(ttl, s, h, t0) && !SucceedsFrom(s, n, h, t0)
  }

  lemma {:induction false} DeadItems(ttl: int, s: State, step: Step, n: nat, h: Digest, t0: int)
    requires ttl > 0 && Dead(ttl, s, n, h, t0) && Enabled(s, step)
    ensures h in Next(ttl, s, step).items ==> Next(ttl, s, step).items[h].expires <= t0
  {
    if step.Finish? {
      var call := s.calls[step.c];
      assert !PendingPast(ttl, s, step.c, h, t0);
      var room := InsertIntoRoom(s.items, call.h, call.stage.tenant, call.start, ttl, step.victim);
    }
  }

  lemma {:induction false} DeadPending(ttl: int, s: State, step: Step, n: nat, h: Digest, t0: int, c: nat)
    requires Dead(ttl, s, n, h, t0) && Enabled(s, step)
    ensures !PendingPast(ttl, Next(ttl, s, step), c, h, t0)
  {
    assert !PendingPast(ttl, s, c, h, t0);
  }

  lemma {:induction false} DeadSuccesses(ttl: int, s: State, step: Step, n: nat, h: Digest, t0: int)
    requires ttl > 0 && Dead(ttl, s, n, h, t0) && Enabled(s, step)
    ensures !SucceedsFrom(Next(ttl, s, step), n, h, t0)
  {
    if step.Finish? {
      assert !PendingPast(ttl, s, step.c, h, t0);
    }
  }

  lemma {:induction false} DeadForever(ttl: int, s: State, steps: seq<Step>, n: nat, h: Digest, t0: int)
    requires ttl > 0 && Dead(ttl, s, n, h, t0) && ValidFrom(ttl, s, steps)
    ensures !SucceedsFrom(After(ttl, s, steps), n, h, t0)
    decreases |steps|
  {
    if steps != [] {
      var s1 := Next(ttl, s, steps[0]);
      StepKeepsKeys(ttl, s, steps[0]);
      StepKeeps(ttl, s, steps[0]);
      DeadItems(ttl, s, steps[0], n, h, t0);
      forall c ensures !PendingPast(ttl, s1, c, h, t0) {
        DeadPending(ttl, s, steps[0], n, h, t0, c);
      }
      DeadSuccesses(ttl, s, steps[0], n, h, t0);
      assert h in s1.revoked;
      DeadForever(ttl, s1, steps[1..], n, h, t0);
    }
  }

  lemma {:induction false} Prepend(ttl: int, s: State, step: Step, rest: seq<Step>)
    requires Enabled(s, step) && ValidFrom(ttl, Next(ttl, s, step), rest)
    ensures ValidFrom(ttl, s, [step] + rest)
    ensures After(ttl, s, [step] + rest) == After(ttl, Next(ttl, s, step), rest)
  {
    assert ([step] + rest)[1..] == rest;
  }

  /** A call that finds an unexpired entry succeeds with it. */
  lemma {:induction false} HitSucceeds(ttl: int, s: State, d: nat, h: Digest)
    requires d !in s.calls && h in s.items && s.now < s.items[h].expires
    ensures
      var steps := [Begin(d, h), LookUp(d)];
      && ValidFrom(ttl, s, steps)
      && After(ttl, s, steps).revoked == s.revoked
      && After(ttl, s, steps).successes == s.successes + [Success(h, s.items[h].tenant, s.now, s.now)]
  {
    var s1 := Next(ttl, s, Begin(d, h));
    Prepend(ttl, s1, LookUp(d), []);
    Prepend(ttl, s, Begin(d, h), [LookUp(d)]);
    assert [LookUp(d)] + [] == [LookUp(d)] && [Begin(d, h)] + [LookUp(d)] == [Begin(d, h), LookUp(d)];
  }

  /** An answer about to be inserted gives the next call a hit, as long as it does not arrive expired. */
  lemma {:induction false} InsertThenHit(ttl: int, s: State, c: nat, d: nat, victim: Digest)
    requires c in s.calls && s.calls[c].stage.Inserting? && s.now < s.calls[c].start + ttl && d !in s.calls
    ensures
      var call := s.calls[c];
      var steps := [Finish(c, victim), Begin(d, call.h), LookUp(d)];
      && ValidFrom(ttl, s, steps)
      && After(ttl, s, steps).revoked == s.revoked
      && After(ttl, s, steps).successes
         == s.successes + [Success(call.h, call.stage.tenant, call.start, s.now), Success(call.h, call.stage.tenant, s.now, s.now)]
  {
    var h, s1 := s.calls[c].h, Next(ttl, s, Finish(c, victim));
    HitSucceeds(ttl, s1, d, h);
    Prepend(ttl, s, Finish(c, victim), [Begin(d, h), LookUp(d)]);
    assert [Finish(c, victim)] + [Begin(d, h), LookUp(d)] == [Finish(c, victim), Begin(d, h), LookUp(d)];
  }

  lemma {:induction false} UnusedNumber(calls: map<nat, Call>, n: nat) returns (d: nat)
    ensures d !in calls && d >= n
    decreases |set c | c in calls && c >= n|
  {
    if n in calls {
      var left, rest := set c | c in calls && c >= n, set c | c in calls && c >= n + 1;
      assert left == rest + {n};
      d := UnusedNumber(calls, n + 1);
    } else {
      d := n;
    }
  }

  lemma {:induction false} RevivableRevives(ttl: int, s: State, h: Digest, t0: int) returns (steps: seq<Step>)
    requires Revivable(ttl, s, h, t0) && t0 >= s.now
    ensures LetsIn(ttl, s, steps, h, t0)
  {
    var later := Next(ttl, s, Tick(t0 - s.now));
    var d := UnusedNumber(s.calls, 0);
    if h in s.items && t0 < s.items[h].expires {
      HitSucceeds(ttl, later, d, h);
      steps := [Begin(d, h), LookUp(d)];
      assert After(ttl, later, steps).successes[|s.successes|].start == t0;
    } else {
      var c :| PendingPast(ttl, s, c, h, t0);
      InsertThenHit(ttl, later, c, d, h);
      steps := [Finish(c, h), Begin(d, h), LookUp(d)];
      assert After(ttl, later, steps).successes[|s.successes| + 1].start == t0;
    }
    Prepend(ttl, s, Tick(t0 - s.now), steps);
    steps := [Tick(t0 - s.now)] + steps;
  }

  /**
   In every reachable state, some call that starts at `t0` or later can still succeed with a revoked
   key exactly when the key is cached past `t0` or an answer for it that would be is about to be
   inserted.
   */
  lemma {:induction false} RevokedKeyLivesIff(ttl: int, start: int, past: seq<Step>, h: Digest, t0: int)
    requires ttl > 0 && ValidFrom(ttl, Initial(start), past)
    requires h in After(ttl, Initial(start), past).revoked && t0 >= After(ttl, Initial(start), past).now
    ensures
      var s := After(ttl, Initial(start), past);
      Revivable(ttl, s, h, t0)
      <==> exists steps :: LetsIn(ttl, s, steps, h, t0)
  {
    var s := After(ttl, Initial(start), past);
    if Revivable(ttl, s, h, t0) {
      var steps := RevivableRevives(ttl, s, h, t0);
      assert LetsIn(ttl, s, steps, h, t0);
    } else {
      RunKeeps(ttl, Initial(start), past);
      forall steps | ValidFrom(ttl, s, steps) ensures !LetsIn(ttl, s, steps, h, t0) {
        DeadForever(ttl, s, steps, |s.successes|, h, t0);
      }
    }
  }

  /**
   A purge does not settle it: from any state in which a call is about to insert an answer that has
   not expired, a rotation that completes first, purge included, does not stop a later call
   from succeeding with the revoked key.
   */
  lemma {:induction false} StaleInsertOutlivesPurge(ttl: int, s: State, c: nat, d: nat, h: Digest, victim: Digest)
    requires c in s.calls && s.calls[c].stage.Inserting? && s.now < s.calls[c].start + ttl && d !in s.calls && h !in s.issued
    requires s.calls[c].stage.tenant.id in s.tenants && s.tenants[s.calls[c].stage.tenant.id].keyHash == s.calls[c].h
    ensures
      var t, stale := s.calls[c].stage.tenant, s.calls[c].h;
      var steps := [RotateInner(t.id, h)] + ([PurgeTenant(t.id)] + [Finish(c, victim), Begin(d, stale), LookUp(d)]);
      && ValidFrom(ttl, s, steps)
      && stale in After(ttl, s, steps).revoked
      && Success(stale, t, s.now, s.now) in After(ttl, s, steps).successes
  {
    var t, stale := s.calls[c].stage.tenant, s.calls[c].h;
    var s1 := Next(ttl, s, RotateInner(t.id, h));
    var s2 := Next(ttl, s1, PurgeTenant(t.id));
    var last := [Finish(c, victim), Begin(d, stale), LookUp(d)];
    InsertThenHit(ttl, s2, c, d, victim);
    Prepend(ttl, s1, PurgeTenant(t.id), last);
    Prepend(ttl, s, RotateInner(t.id, h), [PurgeTenant(t.id)] + last);
    assert After(ttl, s2, last).successes[|s.successes| + 1] == Success(stale, t, s.now, s.now);
  }

  /** Such a state is reached by the first call for any active tenant, so the whole run starts from nothing. */
  lemma {:induction false} StaleInsertFromTheStart(ttl: int, start: int, t: Tenant, h: Digest, victim: Digest)
    requires ttl > 0 && t.active && h != t.keyHash
    ensures
      var first := [CreateTenant(t)] + ([Begin(0, t.keyHash)] + ([LookUp(0)] + [Ask(0, t.id)]));
      var steps := first + ([RotateInner(t.id, h)] + ([PurgeTenant(t.id)] + [Finish(0, victim), Begin(1, t.keyHash), LookUp(1)]));
      && ValidFrom(ttl, Initial(start), steps)
      && t.keyHash in After(ttl, Initial(start), steps).revoked
      && Success(t.keyHash, t, start, start) in After(ttl, Initial(start), steps).successes
  {
    var s0 := Initial(start);
    var s1 := Next(ttl, s0, CreateTenant(t));
    var s2 := Next(ttl, s1, Begin(0, t.keyHash));
    var s3 := Next(ttl, s2, LookUp(0));
    var s4 := Next(ttl, s3, Ask(0, t.id));
    assert s4.calls == map[0 := Call(t.keyHash, start, Inserting(t))];
    Prepend(ttl, s3, Ask(0, t.id), []);
    assert [Ask(0, t.id)] + [] == [Ask(0, t.id)];
    Prepend(ttl, s2, LookUp(0), [Ask(0, t.id)]);
    Prepend(ttl, s1, Begin(0, t.keyHash), [LookUp(0)] + [Ask(0, t.id)]);
    Prepend(ttl, s0, CreateTenant(t), [Begin(0, t.keyHash)] + ([LookUp(0)] + [Ask(0, t.id)]));
    var first := [CreateTenant(t)] + ([Begin(0, t.keyHash)] + ([LookUp(0)] + [Ask(0, t.id)]));
    var second := [RotateInner(t.id, h)] + ([PurgeTenant(t.id)] + [Finish(0, victim), Begin(1, t.keyHash), LookUp(1)]);
    StaleInsertOutlivesPurge(ttl, s4, 0, 1, h, victim);
    AfterConcat(ttl, s0, first, second);
  }

  lemma {:induction false} AfterConcat(ttl: int, s: State, a: seq<Step>, b: seq<Step>)
    requires ValidFrom(ttl, s, a) && ValidFrom(ttl, After(ttl, s, a), b)
    ensures ValidFrom(ttl, s, a + b) && After(ttl, s, a + b) == After(ttl, After(ttl, s, a), b)
    decreases |a|
  {
    if a == [] {
      assert a + b == b;
    } else {
      assert (a + b)[1..] == a[1..] + b;
      AfterConcat(ttl, Next(ttl, s, a[0]), a[1..], b);
    }
  }

  // ---------------------------------------------------------------- the methods are runs of this machine

  /** One authentication of the cached store, run without interruption, is a run of the machine. */
  lemma {:induction false} AuthenticateIsARun(ttl: int, s: State, c: nat, h: Digest, victim: Digest) returns (steps: seq<Step>)
    requires c !in s.calls
    ensures ValidFrom(ttl, s, steps)
    ensures
      var s1 := After(ttl, s, steps);
      var (items, r) := CachedAuth(s.tenants, s.items, h, s.now, ttl, victim);
      && s1.tenants == s.tenants && s1.items == items && s1.calls == s.calls && s1.now == s.now
      && s1.successes == s.successes + if r.Found? then [Success(h, r.tenant, s.now, s.now)] else []
  {
    var s1 := Next(ttl, s, Begin(c, h));
    var s2 := Next(ttl, s1, LookUp(c));
    if h in s.items && s.now < s.items[h].expires {
      steps := [LookUp(c)];
      Prepend(ttl, s1, LookUp(c), []);
      assert [LookUp(c)] + [] == [LookUp(c)];
    } else {
      var s3 := if h in s.items then Next(ttl, s2, DeleteExpired(c)) else s2;
      assert s3.items == s.items - {h} && s3.calls == s.calls[c := Call(h, s.now, Asking)];
      steps := AskIsARun(ttl, s3, c, victim);
      assert s3.calls - {c} == s.calls;
      if h in s.items {
        Prepend(ttl, s2, DeleteExpired(c), steps);
        steps := [DeleteExpired(c)] + steps;
      }
      Prepend(ttl, s1, LookUp(c), steps);
      steps := [LookUp(c)] + steps;
    }
    Prepend(ttl, s, Begin(c, h), steps);
    steps := [Begin(c, h)] + steps;
  }

  lemma {:induction false} AskIsARun(ttl: int, s: State, c: nat, victim: Digest) returns (steps: seq<Step>)
    requires In(s, c, Asking)
    ensures ValidFrom(ttl, s, steps)
    ensures
      var s1, call, r := After(ttl, s, steps), s.calls[c], AuthStep(s.tenants, s.calls[c].h);
      && s1.tenants == s.tenants && s1.calls == s.calls - {c} && s1.now == s.now
      && s1.items == (if r.Found? then Insert(s.items, call.h, r.tenant, call.start, ttl, victim) else s.items)
      && s1.successes == s.successes + if r.Found? then [Success(call.h, r.tenant, call.start, s.now)] else []
  {
    var r := AuthStep(s.tenants, s.calls[c].h);
    if r.Found? {
      var id :| id in s.tenants && s.tenants[id] == r.tenant && Matches(s.tenants[id], s.calls[c].h);
      var s1 := Next(ttl, s, Ask(c, id));
      Prepend(ttl, s1, Finish(c, victim), []);
      Prepend(ttl, s, Ask(c, id), [Finish(c, victim)] + []);
      steps := [Ask(c, id)] + ([Finish(c, victim)] + []);
    } else {
      Prepend(ttl, s, AskRefused(c), []);
      steps := [AskRefused(c)] + [];
    }
  }

  /** One rotation through the cached store, run without interruption, is a run of the machine. */
  lemma {:induction false} RotateIsARun(ttl: int, s: State, id: string, key: string)
    requires id in s.tenants && Digest(key) !in s.issued
    ensures
      var steps := [RotateInner(id, Digest(key))] + ([PurgeTenant(id)] + []);
      && ValidFrom(ttl, s, steps)
      && CachedStep(s.tenants, s.items, ttl, Rotate(id, key, s.now))
         == (After(ttl, s, steps).tenants, After(ttl, s, steps).items, Rotated(key))
  {
    var s1 := Next(ttl, s, RotateInner(id, Digest(key)));
    Prepend(ttl, s1, PurgeTenant(id), []);
    Prepend(ttl, s, RotateInner(id, Digest(key)), [PurgeTenant(id)] + []);
  }
}
