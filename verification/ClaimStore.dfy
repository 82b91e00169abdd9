/** Delivery claims with leases: the in-memory store, the SQL statements, and their agreement. */
module ClaimStore {
  import opened Events

  /** What is claimed: the delivery of one event to one subscription. */
  datatype Claim = Claim(tenant: string, event: string, subscription: string)

  datatype Status = Pending | Processing | Completed

  /** Instants are nanoseconds since the zero time, which is also the "no lease" value. */
  datatype Entry = Entry(status: Status, leaseUntil: nat)

  type Claims = map<Claim, Entry>

  const ZERO_TIME: nat := 0
  const DELIVERY_LEASE: nat := 3600_000_000_000

  predicate Refuses(cs: Claims, k: Claim, now: nat) {
    k in cs && (cs[k].status == Completed || (cs[k].status == Processing && cs[k].leaseUntil > now))
  }

  function ClaimStep(cs: Claims, k: Claim, now: nat, lease: nat): (Claims, bool) {
    if Refuses(cs, k, now) then (cs, false) else (cs[k := Entry(Processing, now + lease)], true)
  }

  function CompleteStep(cs: Claims, k: Claim, now: nat): Claims {
    if k !in cs || cs[k].status == Completed || cs[k].leaseUntil <= now then cs
    else cs[k := Entry(Completed, ZERO_TIME)]
  }

  function ReleaseStep(cs: Claims, k: Claim, now: nat): Claims {
    if k !in cs || cs[k].status != Processing || cs[k].leaseUntil <= now then cs
    else cs[k := Entry(Pending, ZERO_TIME)]
  }

  class MemoryStore {
    var claims: Claims

    constructor ()
      ensures claims == map[]
    {
      claims := map[];
    }

    method ClaimDelivery(k: Claim, now: nat) returns (claimed: bool)
      modifies this
      ensures (claims, claimed) == ClaimStep(old(claims), k, now, DELIVERY_LEASE)
    {
      if k in claims {
        var state := claims[k];
        if state.status == Completed || (state.status == Processing && state.leaseUntil > now) {
          return false;
        }
      }
      claims := claims[k := Entry(Processing, now + DELIVERY_LEASE)];
      return true;
    }

    method CompleteDelivery(k: Claim, now: nat)
      modifies this
      ensures claims == CompleteStep(old(claims), k, now)
    {
      if k !in claims {
        return;
      }
      var state := claims[k];
      if state.status == Completed || !(state.leaseUntil > now) {
        return;
      }
      state := state.(status := Completed);
      state := state.(leaseUntil := ZERO_TIME);
      claims := claims[k := state];
    }

    method ReleaseDelivery(k: Claim, now: nat)
      modifies this
      ensures claims == ReleaseStep(old(claims), k, now)
    {
      if k !in claims {
        return;
      }
      var state := claims[k];
      if state.status != Processing || !(state.leaseUntil > now) {
        return;
      }
      state := state.(status := Pending);
      state := state.(leaseUntil := ZERO_TIME);
      claims := claims[k := state];
    }
  }

  // ---------------------------------------------------------------- the SQL statements

  datatype Row = Row(status: Status, claimedAt: nat, leaseUntil: Option<nat>, completedAt: Option<nat>)

  type Table = map<Claim, Row>

  /** INSERT ... ON CONFLICT DO UPDATE ... WHERE not completed and without a running lease ... RETURNING 1. */
  function SqlClaim(rows: Table, k: Claim, now: nat, lease: nat): (Table, bool) {
    if k in rows && !(rows[k].status != Completed && (rows[k].leaseUntil == None || rows[k].leaseUntil.value <= now))
    then (rows, false)
    else (rows[k := Row(Processing, now, Some(now + lease), None)], true)
  }

  predicate Leased(rows: Table, k: Claim, now: nat) {
    k in rows && rows[k].status == Processing && rows[k].leaseUntil.Some? && rows[k].leaseUntil.value > now
  }

  /** UPDATE ... SET completed WHERE processing and the lease is running. */
  function SqlComplete(rows: Table, k: Claim, now: nat): Table {
    if Leased(rows, k, now) then rows[k := Row(Completed, rows[k].claimedAt, None, Some(now))] else rows
  }

  /** UPDATE ... SET pending WHERE processing and the lease is running. */
  function SqlRelease(rows: Table, k: Claim, now: nat): Table {
    if Leased(rows, k, now) then rows[k := rows[k].(status := Pending, leaseUntil := None)] else rows
  }

  // ---------------------------------------------------------------- runs of either store

  datatype Op = ClaimOp(k: Claim, now: nat) | CompleteOp(k: Claim, now: nat) | ReleaseOp(k: Claim, now: nat)

  /** The claims after a run and, per operation, whether it was a granted claim. */
  function MemoryRun(cs: Claims, ops: seq<Op>, lease: nat): (Claims, seq<bool>)
    decreases |ops|
  {
    if ops == [] then (cs, [])
    else
      var (cs1, a) := match ops[0]
        case ClaimOp(k, now) => ClaimStep(cs, k, now, lease)
        case CompleteOp(k, now) => (CompleteStep(cs, k, now), false)
        case ReleaseOp(k, now) => (ReleaseStep(cs, k, now), false);
      var (cs2, answers) := MemoryRun(cs1, ops[1..], lease);
      (cs2, [a] + answers)
  }

  function SqlRun(rows: Table, ops: seq<Op>, lease: nat): (Table, seq<bool>)
    decreases |ops|
  {
    if ops == [] then (rows, [])
    else
      var (rows1, a) := match ops[0]
        case ClaimOp(k, now) => SqlClaim(rows, k, now, lease)
        case CompleteOp(k, now) => (SqlComplete(rows, k, now), false)
        case ReleaseOp(k, now) => (SqlRelease(rows, k, now), false);
      var (rows2, answers) := SqlRun(rows1, ops[1..], lease);
      (rows2, [a] + answers)
  }

  /** Only entries being processed carry a lease: the fact that makes both stores decide alike. */
  ghost predicate Related(cs: Claims, rows: Table) {
    && cs.Keys == rows.Keys
    && forall k :: k in cs ==>
        && cs[k].status == rows[k].status
        && (if cs[k].status == Processing then rows[k].leaseUntil == Some(cs[k].leaseUntil)
            else cs[k].leaseUntil == ZERO_TIME && rows[k].leaseUntil == None)
  }

  /** On every run, at any clock readings, both stores give the same answers and end in related states. */
  lemma {:induction false} StoresAgree(cs: Claims, rows: Table, ops: seq<Op>, lease: nat)
    requires Related(cs, rows)
    ensures MemoryRun(cs, ops, lease).1 == SqlRun(rows, ops, lease).1
    ensures Related(MemoryRun(cs, ops, lease).0, SqlRun(rows, ops, lease).0)
    decreases |ops|
  {
    if ops != [] {
      match ops[0]
      case ClaimOp(k, now) =>
        StoresAgree(ClaimStep(cs, k, now, lease).0, SqlClaim(rows, k, now, lease).0, ops[1..], lease);
      case CompleteOp(k, now) =>
        StoresAgree(CompleteStep(cs, k, now), SqlComplete(rows, k, now), ops[1..], lease);
      case ReleaseOp(k, now) =>
        StoresAgree(ReleaseStep(cs, k, now), SqlRelease(rows, k, now), ops[1..], lease);
    }
  }

  /** A row being processed was claimed one lease before its lease ends; exactly the completed rows have a completion time. */
  ghost predicate RowsOk(rows: Table, lease: nat) {
    forall k :: k in rows ==>
      && (rows[k].status == Processing ==> rows[k].leaseUntil == Some(rows[k].claimedAt + lease))
      && (rows[k].status == Completed <==> rows[k].completedAt.Some?)
  }

  lemma {:induction false} SqlRunKeepsRows(rows: Table, ops: seq<Op>, lease: nat)
    requires RowsOk(rows, lease)
    ensures RowsOk(SqlRun(rows, ops, lease).0, lease)
    decreases |ops|
  {
    if ops != [] {
      match ops[0]
      case ClaimOp(k, now) => SqlRunKeepsRows(SqlClaim(rows, k, now, lease).0, ops[1..], lease);
      case CompleteOp(k, now) => SqlRunKeepsRows(SqlComplete(rows, k, now), ops[1..], lease);
      case ReleaseOp(k, now) => SqlRunKeepsRows(SqlRelease(rows, k, now), ops[1..], lease);
    }
  }

  // ---------------------------------------------------------------- how long a claim lasts

  /** One hour, in nanoseconds. */
  function HourAfter(t: nat): nat {
    t + 60 * 60 * 1_000_000_000
  }

  /** The operations do not end the claim, and ask for it only before the given time. */
  predicate Undisturbed(ops: seq<Op>, k: Claim, until: nat) {
    forall i :: 0 <= i < |ops| && ops[i].k == k ==> ops[i].ClaimOp? && ops[i].now < until
  }

  lemma {:induction false} UndisturbedStays(cs: Claims, k: Claim, until: nat, ops: seq<Op>)
    requires k in cs && cs[k] == Entry(Processing, until) && Undisturbed(ops, k, until)
    ensures
      var cs1 := MemoryRun(cs, ops, DELIVERY_LEASE).0;
      k in cs1 && cs1[k] == Entry(Processing, until)
    decreases |ops|
  {
    if ops != [] {
      assert forall i :: 0 <= i < |ops| - 1 ==> ops[1..][i] == ops[i + 1];
      match ops[0]
      case ClaimOp(x, now) => UndisturbedStays(ClaimStep(cs, x, now, DELIVERY_LEASE).0, k, until, ops[1..]);
      case CompleteOp(x, now) => UndisturbedStays(CompleteStep(cs, x, now), k, until, ops[1..]);
      case ReleaseOp(x, now) => UndisturbedStays(ReleaseStep(cs, x, now), k, until, ops[1..]);
    }
  }

  /** A granted claim that nobody ends is refused to everybody for one hour, and granted again from then on. */
  lemma {:induction false} LeaseLastsAnHour(cs: Claims, k: Claim, t: nat, ops: seq<Op>, u: nat)
    requires ClaimStep(cs, k, t, DELIVERY_LEASE).1 && Undisturbed(ops, k, HourAfter(t))
    ensures
      var cs1 := MemoryRun(ClaimStep(cs, k, t, DELIVERY_LEASE).0, ops, DELIVERY_LEASE).0;
      ClaimStep(cs1, k, u, DELIVERY_LEASE).1 <==> u >= HourAfter(t)
  {
    UndisturbedStays(ClaimStep(cs, k, t, DELIVERY_LEASE).0, k, HourAfter(t), ops);
  }

  /** The SQL statements at their interval of one hour do the same. */
  lemma {:induction false} SqlLeaseLastsAnHour(cs: Claims, rows: Table, k: Claim, t: nat, ops: seq<Op>, u: nat)
    requires Related(cs, rows) && SqlClaim(rows, k, t, 3_600_000_000_000).1 && Undisturbed(ops, k, HourAfter(t))
    ensures
      var rows1 := SqlRun(SqlClaim(rows, k, t, 3_600_000_000_000).0, ops, 3_600_000_000_000).0;
      SqlClaim(rows1, k, u, 3_600_000_000_000).1 <==> u >= HourAfter(t)
  {
    var cs0, rows0 := ClaimStep(cs, k, t, DELIVERY_LEASE).0, SqlClaim(rows, k, t, DELIVERY_LEASE).0;
    LeaseLastsAnHour(cs, k, t, ops, u);
    StoresAgree(cs0, rows0, ops, DELIVERY_LEASE);
  }

  /** A completion within the hour is final; a release within the hour frees the claim; after it neither has any effect. */
  lemma {:induction false} EndingsDecide(cs: Claims, k: Claim, t: nat, end: nat, u: nat)
    requires ClaimStep(cs, k, t, DELIVERY_LEASE).1
    ensures
      var held := ClaimStep(cs, k, t, DELIVERY_LEASE).0;
      && (ClaimStep(CompleteStep(held, k, end), k, u, DELIVERY_LEASE).1 <==> end >= HourAfter(t) && u >= HourAfter(t))
      && (ClaimStep(ReleaseStep(held, k, end), k, u, DELIVERY_LEASE).1 <==> end < HourAfter(t) || u >= HourAfter(t))
  {
  }

  /** Whatever is done with a completed claim, it is never granted again. */
  lemma {:induction false} CompletedIsFinal(cs: Claims, k: Claim, ops: seq<Op>, lease: nat, u: nat)
    requires k in cs && cs[k].status == Completed
    ensures
      var cs1 := MemoryRun(cs, ops, lease).0;
      k in cs1 && cs1[k].status == Completed && !ClaimStep(cs1, k, u, lease).1
    decreases |ops|
  {
    if ops != [] {
      match ops[0]
      case ClaimOp(x, now) => CompletedIsFinal(ClaimStep(cs, x, now, lease).0, k, ops[1..], lease, u);
      case CompleteOp(x, now) => CompletedIsFinal(CompleteStep(cs, x, now), k, ops[1..], lease, u);
      case ReleaseOp(x, now) => CompletedIsFinal(ReleaseStep(cs, x, now), k, ops[1..], lease, u);
    }
  }
}
