/**
 The webhook worker's handlers over the claim store and the dispatcher.

 The outside world answers through an oracle, one reply per subscription visited; lookups are a fixed
 function of tenant and event type that may fail.  Every store and dispatcher call is recorded.
 */
module WebhookHandling {
  import opened Events
  import opened ClaimStore

  datatype Subscription = Subscription(id: string, endpoint: string)

  /** How the calls for one subscription fare: the claim, the delivery, and the completion or release after it. */
  datatype Reply = Reply(
    claimedAt: nat, claimFails: bool, claimApplied: bool,
    delivered: bool,
    endedAt: nat, endFails: bool, endApplied: bool)

  datatype Call =
    | Claimed(k: Claim, granted: bool)
    | ClaimError(k: Claim)
    | Sent(k: Claim, endpoint: string, delivered: bool)
    | Ended(k: Claim, completing: bool, ok: bool)

  datatype Desk = Desk(claims: Claims, visits: nat, calls: seq<Call>)

  /** What handling one event returns: nothing wrong, a dead-letter error, or another error. */
  datatype Verdict = Fine | DeadLetter | Error

  datatype BatchVerdict = BatchFine | BatchDeadLetter(failed: seq<Event>) | BatchError

  type Oracle = nat -> Reply

  type Directory = (string, string) -> Option<seq<Subscription>>

  function ClaimOf(e: Event, sub: Subscription): Claim {
    Claim(e.tenant, e.id, sub.id)
  }

  /** One subscription: claim, deliver, and complete or release.  Tells whether it went wrong. */
  function Visit(d: Desk, e: Event, sub: Subscription, oracle: Oracle): (Desk, Verdict) {
    var k, r := ClaimOf(e, sub), oracle(d.visits);
    var (claimed, granted) := ClaimStep(d.claims, k, r.claimedAt, DELIVERY_LEASE);
    if r.claimFails then
      (Desk(if r.claimApplied then claimed else d.claims, d.visits + 1, d.calls + [ClaimError(k)]), Error)
    else if !granted then (Desk(d.claims, d.visits + 1, d.calls + [Claimed(k, false)]), Fine)
    else
      var ended := if r.delivered then CompleteStep(claimed, k, r.endedAt) else ReleaseStep(claimed, k, r.endedAt);
      (Desk(if r.endFails && !r.endApplied then claimed else ended, d.visits + 1,
            d.calls + [Claimed(k, true), Sent(k, sub.endpoint, r.delivered), Ended(k, r.delivered, !r.endFails)]),
       if r.delivered && !r.endFails then Fine else DeadLetter)
  }

  /** The event's subscriptions in order; a claim error stops, any other failure is collected. */
  function DeliverAll(d: Desk, e: Event, subs: seq<Subscription>, failing: bool, oracle: Oracle): (Desk, Verdict)
    decreases |subs|
  {
    if subs == [] then (d, if failing then DeadLetter else Fine)
    else
      var (d1, v) := Visit(d, e, subs[0], oracle);
      if v == Error then (d1, Error) else DeliverAll(d1, e, subs[1..], failing || v == DeadLetter, oracle)
  }

  function HandleEvent(d: Desk, e: Event, directory: Directory, oracle: Oracle): (Desk, Verdict) {
    var subs := directory(e.tenant, e.kind);
    if subs == None then (d, Error) else DeliverAll(d, e, subs.value, false, oracle)
  }

  /** Handling a batch one event at a time: stop at an error, collect the events to dead-letter. */
  function OneByOne(d: Desk, batch: seq<Event>, failed: seq<Event>, directory: Directory, oracle: Oracle): (Desk, BatchVerdict)
    decreases |batch|
  {
    if batch == [] then (d, if failed == [] then BatchFine else BatchDeadLetter(failed))
    else
      var (d1, v) := HandleEvent(d, batch[0], directory, oracle);
      if v == Error then (d1, BatchError)
      else OneByOne(d1, batch[1..], if v == DeadLetter then failed + [batch[0]] else failed, directory, oracle)
  }

  type Memo = map<string, seq<Subscription>>

  /** The same with lookups memoised under a composite string key. */
  function Memoised(d: Desk, batch: seq<Event>, failed: seq<Event>, memo: Memo, directory: Directory, oracle: Oracle): (Desk, BatchVerdict)
    decreases |batch|
  {
    if batch == [] then (d, if failed == [] then BatchFine else BatchDeadLetter(failed))
    else
      var e := batch[0];
      var key := LookupKey(e);
      var subs := if key in memo then Some(memo[key]) else directory(e.tenant, e.kind);
      if subs == None then (d, BatchError)
      else
        var (d1, v) := DeliverAll(d, e, subs.value, false, oracle);
        if v == Error then (d1, BatchError)
        else Memoised(d1, batch[1..], if v == DeadLetter then failed + [e] else failed, memo[key := subs.value], directory, oracle)
  }

  class WebhookHandler {
    const directory: Directory
    const oracle: Oracle
    var desk: Desk

    constructor (directory: Directory, oracle: Oracle, claims: Claims)
      ensures this.directory == directory && this.oracle == oracle && desk == Desk(claims, 0, [])
    {
      this.directory, this.oracle, this.desk := directory, oracle, Desk(claims, 0, []);
    }

    method Deliver(e: Event, subs: seq<Subscription>) returns (v: Verdict)
      modifies this
      ensures (desk, v) == DeliverAll(old(desk), e, subs, false, oracle)
    {
      var failures := 0;
      var i := 0;
      while i < |subs|
        invariant 0 <= i <= |subs| && failures >= 0
        invariant DeliverAll(old(desk), e, subs, false, oracle) == DeliverAll(desk, e, subs[i..], failures > 0, oracle)
      {
        var sub := subs[i];
        assert subs[i..][0] == sub && subs[i..][1..] == subs[i + 1..];
        var k, r := ClaimOf(e, sub), oracle(desk.visits);
        ghost var before := desk;
        var (claims, claimed) := ClaimStep(desk.claims, k, r.claimedAt, DELIVERY_LEASE);
        if r.claimFails {
          desk := Desk(if r.claimApplied then claims else desk.claims, desk.visits + 1, desk.calls + [ClaimError(k)]);
          return Error;
        }
        desk := Desk(claims, desk.visits + 1, desk.calls + [Claimed(k, claimed)]);
        i := i + 1;
        if !claimed {
          continue;
        }
        desk := desk.(calls := desk.calls + [Sent(k, sub.endpoint, r.delivered)]);
        if !r.delivered {
          if !r.endFails || r.endApplied {
            desk := desk.(claims := ReleaseStep(desk.claims, k, r.endedAt));
          }
          desk := desk.(calls := desk.calls + [Ended(k, false, !r.endFails)]);
          failures := failures + 1;
        } else {
          if !r.endFails || r.endApplied {
            desk := desk.(claims := CompleteStep(desk.claims, k, r.endedAt));
          }
          desk := desk.(calls := desk.calls + [Ended(k, true, !r.endFails)]);
          if r.endFails {
            failures := failures + 1;
          }
        }
        assert desk.calls == before.calls + [Claimed(k, true), Sent(k, sub.endpoint, r.delivered), Ended(k, r.delivered, !r.endFails)];
      }
      assert subs[i..] == [];
      return if failures > 0 then DeadLetter else Fine;
    }

    method Handle(e: Event) returns (v: Verdict)
      modifies this
      ensures (desk, v) == HandleEvent(old(desk), e, directory, oracle)
    {
      var subs := directory(e.tenant, e.kind);
      if subs == None {
        return Error;
      }
      v := Deliver(e, subs.value);
    }

    /**
     When no two events of the batch are confused by their lookup keys, the batch handler makes the
     same claims and deliveries as handling each event in order, stops at the same error, and lists
     exactly the events to dead-letter.
     */
    method HandleBatch(batch: seq<Event>) returns (v: BatchVerdict)
      modifies this
      ensures (desk, v) == Memoised(old(desk), batch, [], map[], directory, oracle)
      ensures Unambiguous(batch) ==> (desk, v) == OneByOne(old(desk), batch, [], directory, oracle)
    {
      var subscriptions: Memo := map[];
      if Unambiguous(batch) {
        MemoAgrees(desk, batch, [], map[], directory, oracle);
      }
      var failedEvents: seq<Event> := [];
      var i := 0;
      while i < |batch|
        invariant 0 <= i <= |batch|
        invariant Memoised(old(desk), batch, [], map[], directory, oracle)
               == Memoised(desk, batch[i..], failedEvents, subscriptions, directory, oracle)
      {
        var event := batch[i];
        assert batch[i..][0] == event && batch[i..][1..] == batch[i + 1..];
        var key := LookupKey(event);
        var subs: seq<Subscription>;
        if key !in subscriptions {
          var found := directory(event.tenant, event.kind);
          if found == None {
            return BatchError;
          }
          subs := found.value;
          subscriptions := subscriptions[key := subs];
        } else {
          subs := subscriptions[key];
          assert subscriptions[key := subs] == subscriptions;
        }
        var verdict := Deliver(event, subs);
        if verdict == Error {
          return BatchError;
        }
        if verdict == DeadLetter {
          failedEvents := failedEvents + [event];
        }
        i := i + 1;
      }
      assert batch[i..] == [];
      if |failedEvents| > 0 {
        return BatchDeadLetter(failedEvents);
      }
      return BatchFine;
    }
  }

  // ---------------------------------------------------------------- when memoised lookups are right

  predicate SameLookup(a: Event, b: Event) {
    a.tenant == b.tenant && a.kind == b.kind
  }

  function LookupKey(e: Event): string {
    Joined(e.tenant, e.kind)
  }

  /** Events of the batch that share a lookup key share tenant and type. */
  predicate Unambiguous(batch: seq<Event>) {
    forall i, j :: 0 <= i < |batch| && 0 <= j < |batch| && LookupKey(batch[i]) == LookupKey(batch[j]) ==> SameLookup(batch[i], batch[j])
  }

  /** Tenant identifiers without a NUL, as the generated ones are, leave no room for confusion. */
  lemma {:induction false} CleanTenantsUnambiguous(batch: seq<Event>)
    requires forall i :: 0 <= i < |batch| ==> NulFree(batch[i].tenant)
    ensures Unambiguous(batch)
  {
    forall i, j | 0 <= i < |batch| && 0 <= j < |batch| && LookupKey(batch[i]) == LookupKey(batch[j])
      ensures SameLookup(batch[i], batch[j])
    {
      JoinedInjective(batch[i].tenant, batch[i].kind, batch[j].tenant, batch[j].kind);
    }
  }

  /** What is remembered is what looking up again would find, for every event still to come. */
  ghost predicate MemoRight(memo: Memo, batch: seq<Event>, directory: Directory) {
    forall i :: 0 <= i < |batch| && LookupKey(batch[i]) in memo ==>
      directory(batch[i].tenant, batch[i].kind) == Some(memo[LookupKey(batch[i])])
  }

  lemma {:induction false} MemoAgrees(d: Desk, batch: seq<Event>, failed: seq<Event>, memo: Memo, directory: Directory, oracle: Oracle)
    requires Unambiguous(batch) && MemoRight(memo, batch, directory)
    ensures Memoised(d, batch, failed, memo, directory, oracle) == OneByOne(d, batch, failed, directory, oracle)
    decreases |batch|
  {
    if batch != [] {
      var e, rest := batch[0], batch[1..];
      var key := LookupKey(e);
      assert key in memo ==> directory(e.tenant, e.kind) == Some(memo[key]);
      var subs := directory(e.tenant, e.kind);
      if subs.Some? {
        var memo1 := memo[key := subs.value];
        forall i | 0 <= i < |rest| && LookupKey(rest[i]) in memo1
          ensures directory(rest[i].tenant, rest[i].kind) == Some(memo1[LookupKey(rest[i])])
        {
          assert rest[i] == batch[i + 1];
          if LookupKey(rest[i]) == key {
            assert SameLookup(batch[0], batch[i + 1]);
          }
        }
        assert Unambiguous(rest);
        var (d1, v) := DeliverAll(d, e, subs.value, false, oracle);
        MemoAgrees(d1, rest, if v == DeadLetter then failed + [e] else failed, memo1, directory, oracle);
      }
    }
  }

  /** A directory without subscriptions whose lookups fail for one tenant and type only. */
  function FailingFor(bad: Event): Directory {
    (tenant, kind) => if tenant == bad.tenant && kind == bad.kind then None else Some([])
  }

  /** One by one, the failing lookup is met. */
  lemma {:induction false} OneByOneMeets(d: Desk, batch: seq<Event>, bad: Event, oracle: Oracle, j: nat)
    requires j < |batch| && SameLookup(batch[j], bad)
    ensures OneByOne(d, batch, [], FailingFor(bad), oracle).1 == BatchError
    decreases |batch|
  {
    if !SameLookup(batch[0], bad) {
      assert batch[1..][j - 1] == batch[j];
      OneByOneMeets(d, batch[1..], bad, oracle, j - 1);
    }
  }

  /** Memoised, it is not: the key is remembered from another tenant and type. */
  lemma {:induction false} MemoMisses(d: Desk, batch: seq<Event>, memo: Memo, bad: Event, oracle: Oracle)
    requires forall k :: k in memo ==> memo[k] == []
    requires LookupKey(bad) in memo
    ensures Memoised(d, batch, [], memo, FailingFor(bad), oracle).1 == BatchFine
    decreases |batch|
  {
    if batch != [] {
      var key := LookupKey(batch[0]);
      assert DeliverAll(d, batch[0], [], false, oracle) == (d, Fine);
      MemoMisses(d, batch[1..], memo[key := []], bad, oracle);
    }
  }

  lemma {:induction false} MemoForgetsFailure(d: Desk, batch: seq<Event>, memo: Memo, bad: Event, oracle: Oracle, i: nat)
    requires forall k :: k in memo ==> memo[k] == []
    requires i < |batch| && LookupKey(batch[i]) == LookupKey(bad) && !SameLookup(batch[i], bad)
    requires forall h :: 0 <= h < i ==> LookupKey(batch[h]) != LookupKey(bad)
    ensures Memoised(d, batch, [], memo, FailingFor(bad), oracle).1 == BatchFine
    decreases |batch|
  {
    if LookupKey(bad) in memo {
      MemoMisses(d, batch, memo, bad, oracle);
    } else {
      var e, rest := batch[0], batch[1..];
      assert !SameLookup(e, bad);
      assert DeliverAll(d, e, [], false, oracle) == (d, Fine);
      if i == 0 {
        MemoMisses(d, rest, memo[LookupKey(e) := []], bad, oracle);
      } else {
        assert rest[i - 1] == batch[i] && forall h :: 0 <= h < i - 1 ==> rest[h] == batch[h + 1];
        MemoForgetsFailure(d, rest, memo[LookupKey(e) := []], bad, oracle, i - 1);
      }
    }
  }

  /** The first event of the batch with a given lookup key. */
  lemma {:induction false} FirstWithKey(batch: seq<Event>, j: nat) returns (i: nat)
    requires j < |batch|
    ensures i <= j && LookupKey(batch[i]) == LookupKey(batch[j])
    ensures forall h :: 0 <= h < i ==> LookupKey(batch[h]) != LookupKey(batch[j])
  {
    if h :| 0 <= h < j && LookupKey(batch[h]) == LookupKey(batch[j]) {
      i := FirstWithKey(batch, h);
    } else {
      i := j;
    }
  }

  /** Batch handling equals one-by-one handling in all circumstances exactly for the unambiguous batches. */
  lemma {:induction false} BatchEqualsOneByOneIff(batch: seq<Event>)
    ensures Unambiguous(batch) <==>
      forall d: Desk, directory: Directory, oracle: Oracle ::
        Memoised(d, batch, [], map[], directory, oracle) == OneByOne(d, batch, [], directory, oracle)
  {
    if Unambiguous(batch) {
      forall d: Desk, directory: Directory, oracle: Oracle
        ensures Memoised(d, batch, [], map[], directory, oracle) == OneByOne(d, batch, [], directory, oracle)
      {
        MemoAgrees(d, batch, [], map[], directory, oracle);
      }
    } else {
      var i, j :| 0 <= i < |batch| && 0 <= j < |batch| && LookupKey(batch[i]) == LookupKey(batch[j]) && !SameLookup(batch[i], batch[j]);
      var first := FirstWithKey(batch, j);
      var bad := if SameLookup(batch[first], batch[j]) then i else j;
      var d, oracle: Oracle := Desk(map[], 0, []), _ => Reply(0, false, false, true, 0, false, false);
      OneByOneMeets(d, batch, batch[bad], oracle, bad);
      MemoForgetsFailure(d, batch, map[], batch[bad], oracle, first);
    }
  }

  // ---------------------------------------------------------------- what a verdict tells about the calls made

  predicate WentWrong(c: Call) {
    c.ClaimError? || (c.Sent? && !c.delivered) || (c.Ended? && !c.ok)
  }

  predicate AllWell(calls: seq<Call>, from: nat) {
    forall i :: from <= i < |calls| ==> !WentWrong(calls[i])
  }

  lemma {:induction false} VisitTells(d: Desk, e: Event, sub: Subscription, oracle: Oracle)
    ensures
      var (d1, v) := Visit(d, e, sub, oracle);
      && d.calls < d1.calls
      && (v == Fine <==> AllWell(d1.calls, |d.calls|))
      && (v == Error <==> d1.calls == d.calls + [ClaimError(ClaimOf(e, sub))])
  {
    var (d1, v) := Visit(d, e, sub, oracle);
    var n := |d.calls|;
    if v == DeadLetter {
      assert WentWrong(d1.calls[n + 1]) || WentWrong(d1.calls[n + 2]);
      assert d1.calls[n] == Claimed(ClaimOf(e, sub), true);
    } else if v == Error {
      assert WentWrong(d1.calls[n]);
    } else {
      assert d1.calls[n].Claimed?;
    }
  }

  /** Handling succeeds exactly when none of the calls it made went wrong; a refused claim counts as success. */
  lemma {:induction false} FineIffAllWell(d: Desk, e: Event, subs: seq<Subscription>, failing: bool, oracle: Oracle)
    ensures
      var (d1, v) := DeliverAll(d, e, subs, failing, oracle);
      && d.calls <= d1.calls
      && (v == Fine <==> !failing && AllWell(d1.calls, |d.calls|))
    decreases |subs|
  {
    if subs != [] {
      var (d1, v) := Visit(d, e, subs[0], oracle);
      VisitTells(d, e, subs[0], oracle);
      if v != Error {
        FineIffAllWell(d1, e, subs[1..], failing || v == DeadLetter, oracle);
        var d2 := DeliverAll(d1, e, subs[1..], failing || v == DeadLetter, oracle).0;
        assert d1.calls == d2.calls[..|d1.calls|];
        assert AllWell(d2.calls, |d.calls|) <==> AllWell(d1.calls, |d.calls|) && AllWell(d2.calls, |d1.calls|) by {
          assert forall i :: |d.calls| <= i < |d1.calls| ==> d2.calls[i] == d1.calls[i];
        }
      } else {
        assert WentWrong(d1.calls[|d.calls|]);
      }
    }
  }
}
