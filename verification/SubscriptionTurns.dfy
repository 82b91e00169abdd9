/** What the calls of one handling tell: whose turn was taken, and when success means delivered. */
module SubscriptionTurns {
  import opened Events
  import opened ClaimStore
  import opened WebhookHandling

  // ---------------------------------------------------------------- every subscription has its turn

  /** The calls made since the desk was `d`. */
  function Since(d: Desk, d1: Desk): seq<Call>
    requires |d.calls| <= |d1.calls|
  {
    d1.calls[|d.calls|..]
  }

  lemma {:induction false} SinceSplits(d: Desk, d1: Desk, d2: Desk)
    requires d.calls <= d1.calls <= d2.calls
    ensures Since(d, d2) == Since(d, d1) + Since(d1, d2)
  {
    assert d2.calls[..|d1.calls|] == d1.calls;
  }

  /** The calls of one turn with a claim: refused, or granted, then a delivery, then a completion or else a release. */
  predicate TurnTaken(calls: seq<Call>, k: Claim, endpoint: string) {
    || Claimed(k, false) in calls
    || exists i :: 0 <= i < |calls| - 2 && GrantedTurn(calls[i], calls[i + 1], calls[i + 2], k, endpoint)
  }

  predicate GrantedTurn(a: Call, b: Call, c: Call, k: Claim, endpoint: string) {
    && a == Claimed(k, true)
    && (b == Sent(k, endpoint, true) || b == Sent(k, endpoint, false))
    && (c == Ended(k, b.delivered, true) || c == Ended(k, b.delivered, false))
  }

  lemma {:induction false} TurnStays(a: seq<Call>, b: seq<Call>, c: seq<Call>, k: Claim, endpoint: string)
    requires TurnTaken(b, k, endpoint)
    ensures TurnTaken(a + b + c, k, endpoint)
  {
    if Claimed(k, false) !in b {
      var i :| 0 <= i < |b| - 2 && GrantedTurn(b[i], b[i + 1], b[i + 2], k, endpoint);
      var all, n := a + b + c, |a|;
      assert all[n + i] == b[i] && all[n + i + 1] == b[i + 1] && all[n + i + 2] == b[i + 2];
      assert GrantedTurn(all[n + i], all[n + i + 1], all[n + i + 2], k, endpoint);
    }
  }

  /** One turn: a claim error, or a turn taken on the claim of this tenant, event and subscription. */
  lemma {:induction false} VisitTakesTurn(d: Desk, e: Event, sub: Subscription, oracle: Oracle)
    ensures
      var (d1, v) := Visit(d, e, sub, oracle);
      d.calls <= d1.calls && d1.visits == d.visits + 1 && OneTurn(Since(d, d1), v, Claim(e.tenant, e.id, sub.id), sub.endpoint)
  {
    var (d1, v) := Visit(d, e, sub, oracle);
    var k, r := Claim(e.tenant, e.id, sub.id), oracle(d.visits);
    if r.claimFails {
      assert Since(d, d1) == [ClaimError(k)];
    } else if Refuses(d.claims, k, r.claimedAt) {
      assert Since(d, d1) == [Claimed(k, false)];
    } else {
      var made := [Claimed(k, true), Sent(k, sub.endpoint, r.delivered), Ended(k, r.delivered, !r.endFails)];
      assert Since(d, d1) == made;
      assert GrantedTurn(made[0], made[1], made[2], k, sub.endpoint);
    }
  }

  ghost predicate OneTurn(made: seq<Call>, v: Verdict, k: Claim, endpoint: string) {
    if v == Error then made == [ClaimError(k)]
    else TurnTaken(made, k, endpoint) && forall c :: c in made ==> !c.ClaimError?
  }

  /**
   What a granted turn that ends within the hour, with its last call effective, does to the claim: after
   a delivery it is refused for ever, after a failure it is free at once.
   */
  lemma {:induction false} TurnDecidesClaim(d: Desk, e: Event, sub: Subscription, oracle: Oracle, u: nat)
    requires
      var k, r := Claim(e.tenant, e.id, sub.id), oracle(d.visits);
      && !r.claimFails && !Refuses(d.claims, k, r.claimedAt)
      && (!r.endFails || r.endApplied) && r.endedAt < HourAfter(r.claimedAt)
    ensures Refuses(Visit(d, e, sub, oracle).0.claims, Claim(e.tenant, e.id, sub.id), u) <==> oracle(d.visits).delivered
  {
    var r := oracle(d.visits);
    EndingsDecide(d.claims, Claim(e.tenant, e.id, sub.id), r.claimedAt, r.endedAt, u);
  }

  /** The number of subscriptions whose turn was taken, out of the visits made. */
  function Turns(visits: int, v: Verdict): int {
    visits - if v == Error then 1 else 0
  }

  /** Turns were taken in order up to the first claim error, or else by all. */
  ghost predicate AllTurns(made: seq<Call>, visits: int, v: Verdict, e: Event, subs: seq<Subscription>) {
    && 0 <= Turns(visits, v) <= |subs|
    && (forall j :: 0 <= j < Turns(visits, v) ==> TurnTaken(made, Claim(e.tenant, e.id, subs[j].id), subs[j].endpoint))
    && (v != Error ==> Turns(visits, v) == |subs| && forall c :: c in made ==> !c.ClaimError?)
    && (v == Error ==>
          && Turns(visits, v) < |subs| && made != []
          && made[|made| - 1] == ClaimError(Claim(e.tenant, e.id, subs[Turns(visits, v)].id)))
  }

  lemma {:induction false} FirstTurnThen(first: seq<Call>, made: seq<Call>, visits: int, v: Verdict, e: Event, subs: seq<Subscription>)
    requires subs != [] && AllTurns(made, visits, v, e, subs[1..])
    requires TurnTaken(first, Claim(e.tenant, e.id, subs[0].id), subs[0].endpoint) && forall c :: c in first ==> !c.ClaimError?
    ensures AllTurns(first + made, visits + 1, v, e, subs)
  {
    var rest := subs[1..];
    forall j | 0 <= j < Turns(visits + 1, v) ensures TurnTaken(first + made, Claim(e.tenant, e.id, subs[j].id), subs[j].endpoint) {
      if j == 0 {
        TurnStays([], first, made, Claim(e.tenant, e.id, subs[0].id), subs[0].endpoint);
        assert [] + first + made == first + made;
      } else {
        assert rest[j - 1] == subs[j];
        TurnStays(first, made, [], Claim(e.tenant, e.id, subs[j].id), subs[j].endpoint);
        assert first + made + [] == first + made;
      }
    }
    if v == Error {
      assert rest[Turns(visits, v)] == subs[Turns(visits + 1, v)];
    }
  }

  /**
   Whatever the outcome of earlier deliveries, every subscription has its turn, in order, up to the
   first claim error, and that alone ends the handling early.
   */
  lemma {:induction false} EveryTurnIsTaken(d: Desk, e: Event, subs: seq<Subscription>, failing: bool, oracle: Oracle)
    ensures
      var (d1, v) := DeliverAll(d, e, subs, failing, oracle);
      d.calls <= d1.calls && AllTurns(Since(d, d1), d1.visits - d.visits, v, e, subs)
    decreases |subs|
  {
    if subs != [] {
      var (d1, v1) := Visit(d, e, subs[0], oracle);
      VisitTakesTurn(d, e, subs[0], oracle);
      DeliverAllCons(d, e, subs, failing, oracle);
      if v1 == Error {
        ErrorTurn(Since(d, d1), e, subs);
      } else {
        EveryTurnIsTaken(d1, e, subs[1..], failing || v1 == DeadLetter, oracle);
        var (d2, v) := DeliverAll(d1, e, subs[1..], failing || v1 == DeadLetter, oracle);
        SinceSplits(d, d1, d2);
        FirstTurnThen(Since(d, d1), Since(d1, d2), d2.visits - d1.visits, v, e, subs);
      }
    }
  }

  lemma {:induction false} ErrorTurn(made: seq<Call>, e: Event, subs: seq<Subscription>)
    requires subs != [] && made == [ClaimError(Claim(e.tenant, e.id, subs[0].id))]
    ensures AllTurns(made, 1, Error, e, subs)
  {
  }

  lemma {:induction false} DeliverAllCons(d: Desk, e: Event, subs: seq<Subscription>, failing: bool, oracle: Oracle)
    requires subs != []
    ensures
      var (d1, v) := Visit(d, e, subs[0], oracle);
      DeliverAll(d, e, subs, failing, oracle)
      == if v == Error then (d1, Error) else DeliverAll(d1, e, subs[1..], failing || v == DeadLetter, oracle)
  {
  }

  /** A failed lookup ends the handling before any call; else the subscriptions of the event's tenant and type have their turns. */
  lemma {:induction false} HandlingFollowsLookup(d: Desk, e: Event, directory: Directory, oracle: Oracle)
    ensures
      var subs, (d1, v) := directory(e.tenant, e.kind), HandleEvent(d, e, directory, oracle);
      if subs == None then d1 == d && v == Error
      else d.calls <= d1.calls && AllTurns(Since(d, d1), d1.visits - d.visits, v, e, subs.value)
  {
    var subs := directory(e.tenant, e.kind);
    if subs.Some? {
      EveryTurnIsTaken(d, e, subs.value, false, oracle);
    }
  }

  /** An event with a failed delivery, completion or release is reported for dead-lettering, unless a claim error ended its handling. */
  lemma {:induction false} DeadLetterIffFailed(d: Desk, e: Event, subs: seq<Subscription>, failing: bool, oracle: Oracle)
    ensures
      var (d1, v) := DeliverAll(d, e, subs, failing, oracle);
      && d.calls <= d1.calls
      && (v == Error <==> exists c :: c in Since(d, d1) && c.ClaimError?)
      && (v == DeadLetter <==> v != Error && (failing || exists c :: c in Since(d, d1) && WentWrong(c)))
  {
    var (d1, v) := DeliverAll(d, e, subs, failing, oracle);
    EveryTurnIsTaken(d, e, subs, failing, oracle);
    FineIffAllWell(d, e, subs, failing, oracle);
    var made := Since(d, d1);
    if v == Error {
      assert made[|made| - 1] in made;
    }
    assert AllWell(d1.calls, |d.calls|) <==> forall c :: c in made ==> !WentWrong(c) by {
      forall i | |d.calls| <= i < |d1.calls| ensures d1.calls[i] in made {
        assert made[i - |d.calls|] == d1.calls[i];
      }
    }
  }

  // ---------------------------------------------------------------- when success means delivered

  /** Subscriptions are looked up by their primary key, so no two share it. */
  predicate DistinctIds(subs: seq<Subscription>) {
    forall i, j :: 0 <= i < j < |subs| ==> subs[i].id != subs[j].id
  }

  /** One visit only touches its own claim, names it in every call, and is refused exactly by a completed claim or a running lease. */
  lemma {:induction false} VisitIsLocal(d: Desk, e: Event, sub: Subscription, oracle: Oracle)
    ensures
      var (d1, v) := Visit(d, e, sub, oracle);
      var k, at := ClaimOf(e, sub), oracle(d.visits).claimedAt;
      && d.calls <= d1.calls && d1.visits == d.visits + 1
      && (forall c :: c in Since(d, d1) ==> c.k == k)
      && (forall x, t :: x != k ==> (Refuses(d1.claims, x, t) <==> Refuses(d.claims, x, t)))
      && (v == Fine ==>
            && (Claimed(k, false) in Since(d, d1) <==> Refuses(d.claims, k, at))
            && (Sent(k, sub.endpoint, true) in Since(d, d1) <==> !Refuses(d.claims, k, at)))
  {
    var (d1, v) := Visit(d, e, sub, oracle);
    var k, r := ClaimOf(e, sub), oracle(d.visits);
    if r.claimFails {
      assert Since(d, d1) == [ClaimError(k)];
    } else if Refuses(d.claims, k, r.claimedAt) {
      assert Since(d, d1) == [Claimed(k, false)];
    } else {
      var made := [Claimed(k, true), Sent(k, sub.endpoint, r.delivered), Ended(k, r.delivered, !r.endFails)];
      assert Since(d, d1) == made;
      assert made[1] in made;
    }
  }

  lemma {:induction false} VisitElsewhere(d: Desk, e: Event, sub: Subscription, oracle: Oracle, k: Claim, at: nat)
    requires k != ClaimOf(e, sub)
    ensures
      var d1 := Visit(d, e, sub, oracle).0;
      && d.calls <= d1.calls && d1.visits == d.visits + 1
      && (forall c :: c in Since(d, d1) ==> c.k != k)
      && (Refuses(d1.claims, k, at) <==> Refuses(d.claims, k, at))
  {
    VisitIsLocal(d, e, sub, oracle);
  }

  lemma {:induction false} CallsNameSubscriptions(d: Desk, e: Event, subs: seq<Subscription>, failing: bool, oracle: Oracle)
    ensures
      var d1 := DeliverAll(d, e, subs, failing, oracle).0;
      && d.calls <= d1.calls
      && forall c :: c in Since(d, d1) ==> exists j :: 0 <= j < |subs| && c.k == ClaimOf(e, subs[j])
    decreases |subs|
  {
    if subs != [] {
      var (d1, v) := Visit(d, e, subs[0], oracle);
      VisitIsLocal(d, e, subs[0], oracle);
      if v != Error {
        var rest := subs[1..];
        CallsNameSubscriptions(d1, e, rest, failing || v == DeadLetter, oracle);
        var d2 := DeliverAll(d1, e, rest, failing || v == DeadLetter, oracle).0;
        SinceSplits(d, d1, d2);
        forall c | c in Since(d1, d2) ensures exists j :: 0 <= j < |subs| && c.k == ClaimOf(e, subs[j]) {
          var j :| 0 <= j < |rest| && c.k == ClaimOf(e, rest[j]);
          assert rest[j] == subs[j + 1];
        }
      }
    }
  }

  /** What the claims said about subscription `j` when its turn came. */
  predicate WasTaken(d: Desk, e: Event, subs: seq<Subscription>, oracle: Oracle, j: nat)
    requires j < |subs|
  {
    Refuses(d.claims, ClaimOf(e, subs[j]), oracle(d.visits + j).claimedAt)
  }

  /** A successful handling is a successful first visit followed by a successful handling of the rest. */
  lemma {:induction false} SuccessSplits(d: Desk, e: Event, subs: seq<Subscription>, oracle: Oracle)
    requires subs != [] && DeliverAll(d, e, subs, false, oracle).1 == Fine
    ensures
      var (d1, v) := Visit(d, e, subs[0], oracle);
      var d2 := DeliverAll(d1, e, subs[1..], false, oracle).0;
      && v == Fine && DeliverAll(d, e, subs, false, oracle) == DeliverAll(d1, e, subs[1..], false, oracle)
      && d.calls <= d1.calls <= d2.calls && Since(d, d2) == Since(d, d1) + Since(d1, d2)
  {
    var (d1, v) := Visit(d, e, subs[0], oracle);
    VisitIsLocal(d, e, subs[0], oracle);
    FineIffAllWell(d1, e, subs[1..], v == DeadLetter, oracle);
    SinceSplits(d, d1, DeliverAll(d1, e, subs[1..], v == DeadLetter, oracle).0);
  }

  /** What the calls say of one claim: delivered to or refused, as `taken` tells. */
  predicate Told(calls: seq<Call>, k: Claim, endpoint: string, taken: bool) {
    (Claimed(k, false) in calls <==> taken) && (Sent(k, endpoint, true) in calls <==> !taken)
  }

  lemma {:induction false} ToldByOne(a: seq<Call>, b: seq<Call>, k: Claim, endpoint: string, taken: bool)
    requires (forall c :: c in b ==> c.k != k) && Told(a, k, endpoint, taken)
    ensures Told(a + b, k, endpoint, taken) && Told(b + a, k, endpoint, taken)
  {
    assert Claimed(k, false).k == k && Sent(k, endpoint, true).k == k;
  }

  lemma {:induction false} FirstTold(d: Desk, e: Event, subs: seq<Subscription>, oracle: Oracle)
    requires DistinctIds(subs) && subs != [] && DeliverAll(d, e, subs, false, oracle).1 == Fine
    ensures
      var d2 := DeliverAll(d, e, subs, false, oracle).0;
      && d.calls <= d2.calls
      && Told(Since(d, d2), ClaimOf(e, subs[0]), subs[0].endpoint, WasTaken(d, e, subs, oracle, 0))
  {
    var d1, rest, k := Visit(d, e, subs[0], oracle).0, subs[1..], ClaimOf(e, subs[0]);
    var d2 := DeliverAll(d1, e, rest, false, oracle).0;
    SuccessSplits(d, e, subs, oracle);
    VisitIsLocal(d, e, subs[0], oracle);
    CallsNameSubscriptions(d1, e, rest, false, oracle);
    assert forall i :: 0 <= i < |rest| ==> rest[i] == subs[i + 1] && ClaimOf(e, rest[i]) != k;
    ToldByOne(Since(d, d1), Since(d1, d2), k, subs[0].endpoint, WasTaken(d, e, subs, oracle, 0));
  }

  /** What is told of a later subscription by the rest is told by the whole. */
  lemma {:induction false} LaterTold(d: Desk, e: Event, subs: seq<Subscription>, oracle: Oracle, j: nat)
    requires DistinctIds(subs) && 0 < j < |subs| && DeliverAll(d, e, subs, false, oracle).1 == Fine
    requires
      var d1 := Visit(d, e, subs[0], oracle).0;
      var d2 := DeliverAll(d1, e, subs[1..], false, oracle).0;
      && d1.calls <= d2.calls
      && Told(Since(d1, d2), ClaimOf(e, subs[j]), subs[j].endpoint, WasTaken(d1, e, subs[1..], oracle, j - 1))
    ensures
      var d2 := DeliverAll(d, e, subs, false, oracle).0;
      && d.calls <= d2.calls
      && Told(Since(d, d2), ClaimOf(e, subs[j]), subs[j].endpoint, WasTaken(d, e, subs, oracle, j))
  {
    var d1, k := Visit(d, e, subs[0], oracle).0, ClaimOf(e, subs[j]);
    var d2 := DeliverAll(d1, e, subs[1..], false, oracle).0;
    SuccessSplits(d, e, subs, oracle);
    assert subs[1..][j - 1] == subs[j] && k != ClaimOf(e, subs[0]);
    VisitElsewhere(d, e, subs[0], oracle, k, oracle(d.visits + j).claimedAt);
    assert WasTaken(d1, e, subs[1..], oracle, j - 1) <==> WasTaken(d, e, subs, oracle, j);
    ToldByOne(Since(d1, d2), Since(d, d1), k, subs[j].endpoint, WasTaken(d, e, subs, oracle, j));
  }

  /**
   When handling succeeds, each subscription was either delivered to now, or refused because its claim
   was completed or leased when its turn came; never both.
   */
  lemma {:induction false} DeliveredUnlessTaken(d: Desk, e: Event, subs: seq<Subscription>, oracle: Oracle, j: nat)
    requires DistinctIds(subs) && j < |subs| && DeliverAll(d, e, subs, false, oracle).1 == Fine
    ensures
      var d1 := DeliverAll(d, e, subs, false, oracle).0;
      && d.calls <= d1.calls
      && Told(Since(d, d1), ClaimOf(e, subs[j]), subs[j].endpoint, WasTaken(d, e, subs, oracle, j))
    decreases |subs|
  {
    if j == 0 {
      FirstTold(d, e, subs, oracle);
    } else {
      SuccessSplits(d, e, subs, oracle);
      assert subs[1..][j - 1] == subs[j] && DistinctIds(subs[1..]);
      DeliveredUnlessTaken(Visit(d, e, subs[0], oracle).0, e, subs[1..], oracle, j - 1);
      LaterTold(d, e, subs, oracle, j);
    }
  }

  /** Every subscription has a successful delivery among the calls made. */
  ghost predicate AllDelivered(d: Desk, d1: Desk, e: Event, subs: seq<Subscription>)
    requires |d.calls| <= |d1.calls|
  {
    forall j :: 0 <= j < |subs| ==> Sent(ClaimOf(e, subs[j]), subs[j].endpoint, true) in Since(d, d1)
  }

  /**
   Success means delivered exactly when no claim was refused, which is exactly when no subscription's
   claim was completed or leased before the call at the reading of its turn.
   */
  lemma {:induction false} SuccessMeansDeliveredIff(d: Desk, e: Event, subs: seq<Subscription>, oracle: Oracle)
    requires DistinctIds(subs) && DeliverAll(d, e, subs, false, oracle).1 == Fine
    ensures
      var d1 := DeliverAll(d, e, subs, false, oracle).0;
      && d.calls <= d1.calls
      && (AllDelivered(d, d1, e, subs) <==> forall j :: 0 <= j < |subs| ==> !WasTaken(d, e, subs, oracle, j))
      && (AllDelivered(d, d1, e, subs) <==> forall k :: Claimed(k, false) !in Since(d, d1))
  {
    var d1 := DeliverAll(d, e, subs, false, oracle).0;
    CallsNameSubscriptions(d, e, subs, false, oracle);
    forall j | 0 <= j < |subs|
      ensures Claimed(ClaimOf(e, subs[j]), false) in Since(d, d1) <==> WasTaken(d, e, subs, oracle, j)
      ensures Sent(ClaimOf(e, subs[j]), subs[j].endpoint, true) in Since(d, d1) <==> !WasTaken(d, e, subs, oracle, j)
    {
      DeliveredUnlessTaken(d, e, subs, oracle, j);
    }
    forall k | Claimed(k, false) in Since(d, d1) ensures exists j :: 0 <= j < |subs| && WasTaken(d, e, subs, oracle, j) {
      assert Claimed(k, false).k == k;
    }
  }

  /**
   Success does not mean delivered: when a delivery fails and its release fails too, handling the
   event again while the lease runs succeeds without having delivered anything.
   */
  lemma {:induction false} RetryAfterFailedReleaseSucceeds(d: Desk, e: Event, sub: Subscription, oracle: Oracle)
    requires
      var k, first, second := ClaimOf(e, sub), oracle(d.visits), oracle(d.visits + 1);
      && !Refuses(d.claims, k, first.claimedAt)
      && !first.claimFails && !first.delivered && first.endFails && !first.endApplied
      && !second.claimFails && second.claimedAt < first.claimedAt + DELIVERY_LEASE
    ensures
      var (d1, v1) := DeliverAll(d, e, [sub], false, oracle);
      var (d2, v2) := DeliverAll(d1, e, [sub], false, oracle);
      && v1 == DeadLetter && v2 == Fine
      && forall i :: |d.calls| <= i < |d2.calls| && d2.calls[i].Sent? ==> !d2.calls[i].delivered
  {
    assert [sub][1..] == [];
    var d1 := Visit(d, e, sub, oracle).0;
    var d2 := Visit(d1, e, sub, oracle).0;
    assert DeliverAll(d, e, [sub], false, oracle) == (d1, DeadLetter);
    assert DeliverAll(d1, e, [sub], false, oracle) == (d2, Fine);
  }
}
