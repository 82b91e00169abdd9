/** Which events a batch reports for dead-lettering, by what handling each of them at its turn returns. */
module BatchReports {
  import opened Events
  import opened WebhookHandling

  /** The desk when event `i` of the batch has its turn, if every event before it had one. */
  function DeskAt(d: Desk, batch: seq<Event>, i: nat, directory: Directory, oracle: Oracle): Desk
    requires i <= |batch|
  {
    if i == 0 then d else HandleEvent(DeskAt(d, batch, i - 1, directory, oracle), batch[i - 1], directory, oracle).0
  }

  /** What handling event `i` at its turn returns. */
  function VerdictAt(d: Desk, batch: seq<Event>, i: nat, directory: Directory, oracle: Oracle): Verdict
    requires i < |batch|
  {
    HandleEvent(DeskAt(d, batch, i, directory, oracle), batch[i], directory, oracle).1
  }

  /** The events among the first `n` whose handling asks for dead-lettering, in order. */
  function Reported(d: Desk, batch: seq<Event>, n: nat, directory: Directory, oracle: Oracle): seq<Event>
    requires n <= |batch|
  {
    if n == 0 then []
    else Reported(d, batch, n - 1, directory, oracle)
         + if VerdictAt(d, batch, n - 1, directory, oracle) == DeadLetter then [batch[n - 1]] else []
  }

  lemma {:induction false} OneByOneFrom(d: Desk, batch: seq<Event>, n: nat, directory: Directory, oracle: Oracle)
    requires n <= |batch| && forall i :: 0 <= i < n ==> VerdictAt(d, batch, i, directory, oracle) != Error
    ensures OneByOne(d, batch, [], directory, oracle)
         == OneByOne(DeskAt(d, batch, n, directory, oracle), batch[n..], Reported(d, batch, n, directory, oracle), directory, oracle)
  {
    if n > 0 {
      OneByOneFrom(d, batch, n - 1, directory, oracle);
      assert batch[n - 1..][0] == batch[n - 1] && batch[n - 1..][1..] == batch[n..];
      var failed := Reported(d, batch, n - 1, directory, oracle);
      assert VerdictAt(d, batch, n - 1, directory, oracle) != Error && failed + [] == failed;
    } else {
      assert batch[0..] == batch;
    }
  }

  /** A batch whose event `n` is the first to meet an error stops there; one without an error reports exactly the events that asked for it. */
  lemma {:induction false} BatchReports(d: Desk, batch: seq<Event>, n: nat, directory: Directory, oracle: Oracle)
    requires n <= |batch| && forall i :: 0 <= i < n ==> VerdictAt(d, batch, i, directory, oracle) != Error
    ensures n < |batch| && VerdictAt(d, batch, n, directory, oracle) == Error ==>
      OneByOne(d, batch, [], directory, oracle) == (DeskAt(d, batch, n + 1, directory, oracle), BatchError)
    ensures n == |batch| ==>
      var failed := Reported(d, batch, n, directory, oracle);
      OneByOne(d, batch, [], directory, oracle)
      == (DeskAt(d, batch, n, directory, oracle), if failed == [] then BatchFine else BatchDeadLetter(failed))
  {
    OneByOneFrom(d, batch, n, directory, oracle);
    if n < |batch| {
      assert batch[n..][0] == batch[n];
    } else {
      assert batch[n..] == [];
    }
  }
}
