/**
 The one-message consumer.  Unlike the batch consumer it does not return to a message whose
 processing failed: after a wait it fetches the next one, and committing that one covers both.
 */
module SingleConsumer {
  import opened Events
  import opened BatchConsumer
  import opened OffsetCoverage

  /** `acked` are the messages named in a commit; `moved` those the loop gave up on. */
  datatype Ledger = Ledger(
    cursor: seq<nat>,
    committed: seq<nat>,
    dlq: set<Message>,
    handled: set<Message>,
    acked: set<Message>,
    moved: set<Message>)

  datatype Stage = Polling | Refusing(m: Message) | Applying(m: Message) | Diverting(m: Message) | Acking(m: Message) | Pausing | Halted

  datatype Progress = Progress(ledger: Ledger, stage: Stage, backoff: nat)

  /** Processing a message failed: the loop waits and moves on. */
  function MoveOn(l: Ledger, m: Message, backoff: nat): Progress {
    Progress(l.(moved := l.moved + {m}), Pausing, backoff)
  }

  function Begin(cfg: Config, l: Ledger, m: Message, backoff: nat): Progress {
    if !Bad(m) then Progress(l, Applying(m), backoff)
    else if cfg.hasDlq then Progress(l, Refusing(m), backoff)
    else MoveOn(l, m, backoff)
  }

  function Bury(l: Ledger, m: Message): Ledger {
    l.(dlq := l.dlq + {m})
  }

  function Ack(l: Ledger, m: Message): Ledger {
    l.(committed := Commit(l.committed, [m]), acked := l.acked + {m})
  }

  function Move(cfg: Config, s: Progress, r: Reply): Progress {
    var l := s.ledger;
    match s.stage
    case Polling =>
      if r.ok && Available(cfg, l.cursor, r.partition) then
        Begin(cfg, l.(cursor := l.cursor[r.partition := l.cursor[r.partition] + 1]), NextMessage(cfg, l.cursor, r.partition), s.backoff)
      else s.(stage := if r.cancelled then Halted else Pausing)
    case Pausing => if r.cancelled then s.(stage := Halted) else Progress(l, Polling, NextBackoff(s.backoff))
    case Refusing(m) =>
      if r.ok then Progress(Bury(l, m), Acking(m), s.backoff)
      else MoveOn(if r.applied then Bury(l, m) else l, m, s.backoff)
    case Applying(m) =>
      if r.ok then Progress(l.(handled := l.handled + {m}), Acking(m), s.backoff)
      else if cfg.hasDlq && r.failed.Some? then Progress(l, Diverting(m), s.backoff)
      else MoveOn(l, m, s.backoff)
    case Diverting(m) =>
      if r.ok then Progress(Bury(l, m), Acking(m), s.backoff)
      else MoveOn(if r.applied then Bury(l, m) else l, m, s.backoff)
    case Acking(m) =>
      if r.ok then Progress(Ack(l, m), Polling, 1)
      else MoveOn(if r.applied then Ack(l, m) else l, m, s.backoff)
    case Halted => s
  }

  function Play(cfg: Config, s: Progress, tape: seq<Reply>): Progress
    decreases |tape|
  {
    if tape == [] then s else Play(cfg, Move(cfg, s, tape[0]), tape[1..])
  }

  class Consumer {
    const cfg: Config
    var ledger: Ledger
    var tape: seq<Reply>

    constructor (cfg: Config, ledger: Ledger, tape: seq<Reply>)
      ensures this.cfg == cfg && this.ledger == ledger && this.tape == tape
    {
      this.cfg, this.ledger, this.tape := cfg, ledger, tape;
    }

    ghost function Outcome(stage: Stage, backoff: nat): Progress
      reads this
    {
      Play(cfg, Progress(ledger, stage, backoff), tape)
    }

    method Take() returns (r: Reply)
      requires tape != []
      modifies this`tape
      ensures r == old(tape)[0] && tape == old(tape)[1..]
    {
      r := tape[0];
      tape := tape[1..];
    }

    /** Handles or dead-letters one message and commits it; `ended` if the consumer dies on the way. */
    method ProcessMessage(m: Message, backoff: nat) returns (failed: bool, ended: bool)
      modifies this
      ensures |tape| <= |old(tape)|
      ensures ended ==> old(Play(cfg, Begin(cfg, ledger, m, backoff), tape)).ledger == ledger
      ensures !ended ==>
        old(Play(cfg, Begin(cfg, ledger, m, backoff), tape)) == if failed then Play(cfg, MoveOn(ledger, m, backoff), tape) else Outcome(Polling, 1)
    {
      var terminal := true;
      if !Bad(m) {
        if tape == [] {
          return false, true;
        }
        var r := Take();
        if r.ok {
          ledger := ledger.(handled := ledger.handled + {m});
          terminal := false;
        } else if !cfg.hasDlq || r.failed == None {
          return true, false;
        }
      } else if !cfg.hasDlq {
        return true, false;
      }
      if terminal {
        assert old(Play(cfg, Begin(cfg, ledger, m, backoff), tape)) == Outcome(if Bad(m) then Refusing(m) else Diverting(m), backoff);
        if tape == [] {
          return false, true;
        }
        var r := Take();
        if r.ok || r.applied {
          ledger := Bury(ledger, m);
        }
        if !r.ok {
          return true, false;
        }
      }
      assert old(Play(cfg, Begin(cfg, ledger, m, backoff), tape)) == Outcome(Acking(m), backoff);
      if tape == [] {
        return false, true;
      }
      var r := Take();
      if r.ok || r.applied {
        ledger := Ack(ledger, m);
      }
      return !r.ok, false;
    }

    method RunSingle()
      modifies this
      ensures ledger == Play(cfg, Progress(old(ledger), Polling, 1), old(tape)).ledger
    {
      var backoff := 1;
      while true
        invariant old(Outcome(Polling, 1)) == Outcome(Polling, backoff)
        decreases |tape|
      {
        if tape == [] {
          return;
        }
        var r := Take();
        if r.ok && Available(cfg, ledger.cursor, r.partition) {
          var m := NextMessage(cfg, ledger.cursor, r.partition);
          ledger := ledger.(cursor := ledger.cursor[r.partition := ledger.cursor[r.partition] + 1]);
          var failed, ended := ProcessMessage(m, backoff);
          if ended {
            return;
          }
          if !failed {
            backoff := 1;
            continue;
          }
          ledger := ledger.(moved := ledger.moved + {m});
        } else if r.cancelled {
          HaltedStays(cfg, Progress(ledger, Halted, backoff), tape);
          return;
        }
        assert old(Outcome(Polling, 1)) == Outcome(Pausing, backoff);
        if tape == [] {
          return;
        }
        r := Take();
        if r.cancelled {
          HaltedStays(cfg, Progress(ledger, Halted, backoff), tape);
          return;
        }
        backoff := NextBackoff(backoff);
      }
    }
  }

  lemma {:induction false} HaltedStays(cfg: Config, s: Progress, tape: seq<Reply>)
    requires s.stage == Halted
    ensures Play(cfg, s, tape) == s
    decreases |tape|
  {
    if tape != [] {
      HaltedStays(cfg, s, tape[1..]);
    }
  }

  // ---------------------------------------------------------------- what the loop does keep

  predicate Processed(l: Ledger, m: Message) {
    m in l.handled || m in l.dlq
  }

  function InHand(stage: Stage): set<Message> {
    match stage
    case Refusing(m) => {m}
    case Applying(m) => {m}
    case Diverting(m) => {m}
    case Acking(m) => {m}
    case _ => {}
  }

  predicate Settled(l: Ledger, m: Message) {
    Processed(l, m) || m in l.moved
  }

  ghost predicate LedgerOk(cfg: Config, l: Ledger) {
    && |l.cursor| == |l.committed| == |cfg.log|
    && (forall p :: 0 <= p < |cfg.log| ==> l.committed[p] <= l.cursor[p] <= |cfg.log[p]|)
    && (forall m :: m in l.acked ==> Processed(l, m))
    && (forall p: nat, o: nat :: InLog(cfg, p, o) && o < l.committed[p] ==> Settled(l, At(cfg, p, o)))
  }

  /** All fetched messages are settled or in hand. */
  ghost predicate Tracked(cfg: Config, l: Ledger, hand: set<Message>)
    requires LedgerOk(cfg, l)
  {
    forall p: nat, o: nat :: InLog(cfg, p, o) && o < l.cursor[p] ==> Settled(l, At(cfg, p, o)) || At(cfg, p, o) in hand
  }

  ghost predicate Kept(cfg: Config, s: Progress) {
    && LedgerOk(cfg, s.ledger)
    && (forall m :: m in InHand(s.stage) ==> InLog(cfg, m.partition, m.offset) && m.offset < s.ledger.cursor[m.partition])
    && (s.stage.Acking? ==> Processed(s.ledger, s.stage.m))
    && (s.stage.Halted? || Tracked(cfg, s.ledger, InHand(s.stage)))
  }

  /** Recording what happened to the message in hand keeps the books, and settling it empties the hand. */
  lemma {:induction false} RecordKeeps(cfg: Config, l: Ledger, l1: Ledger, hand: set<Message>)
    requires LedgerOk(cfg, l)
    requires l1.cursor == l.cursor && l1.committed == l.committed && l1.acked == l.acked
    requires l.dlq <= l1.dlq && l.handled <= l1.handled && l.moved <= l1.moved
    ensures LedgerOk(cfg, l1)
    ensures Tracked(cfg, l, hand) ==> Tracked(cfg, l1, hand)
    ensures Tracked(cfg, l, hand) && (forall m :: m in hand ==> Settled(l1, m)) ==> Tracked(cfg, l1, {})
  {
    assert forall m :: Settled(l, m) ==> Settled(l1, m);
  }

  lemma {:induction false} PollKeeps(cfg: Config, s: Progress, r: Reply)
    requires Kept(cfg, s) && s.stage.Polling? && Available(cfg, s.ledger.cursor, r.partition)
    ensures
      var l1 := s.ledger.(cursor := s.ledger.cursor[r.partition := s.ledger.cursor[r.partition] + 1]);
      LedgerOk(cfg, l1) && Tracked(cfg, l1, {NextMessage(cfg, s.ledger.cursor, r.partition)})
  {
    var l := s.ledger;
    var l1 := l.(cursor := l.cursor[r.partition := l.cursor[r.partition] + 1]);
    assert forall m :: Settled(l, m) ==> Settled(l1, m);
  }

  lemma {:induction false} CommitOne(committed: seq<nat>, m: Message)
    ensures Commit(committed, [m]) == Raise(committed, m)
  {
    assert [m][1..] == [];
    assert Commit(Raise(committed, m), []) == Raise(committed, m);
  }

  lemma {:induction false} AckKeeps(cfg: Config, l: Ledger, m: Message)
    requires LedgerOk(cfg, l) && Tracked(cfg, l, {m}) && Processed(l, m)
    requires InLog(cfg, m.partition, m.offset) && m.offset < l.cursor[m.partition]
    ensures LedgerOk(cfg, Ack(l, m)) && Tracked(cfg, Ack(l, m), {})
  {
    CommitOne(l.committed, m);
    assert forall x :: Settled(l, x) ==> Settled(Ack(l, m), x);
    assert Settled(Ack(l, m), m);
  }

  lemma {:induction false} FetchStepKeeps(cfg: Config, s: Progress, r: Reply)
    requires Kept(cfg, s) && s.stage.Polling? && r.ok && Available(cfg, s.ledger.cursor, r.partition)
    ensures Kept(cfg, Move(cfg, s, r))
  {
    var l, m := s.ledger, NextMessage(cfg, s.ledger.cursor, r.partition);
    var fetched := l.(cursor := l.cursor[r.partition := l.cursor[r.partition] + 1]);
    assert LedgerOk(cfg, fetched) && Tracked(cfg, fetched, {m}) && m.offset < fetched.cursor[m.partition] by {
      PollKeeps(cfg, s, r);
    }
    assert Move(cfg, s, r) == Begin(cfg, fetched, m, s.backoff);
    BeginKeeps(cfg, fetched, m, s.backoff);
  }

  lemma {:induction false} BeginKeeps(cfg: Config, l: Ledger, m: Message, backoff: nat)
    requires LedgerOk(cfg, l) && Tracked(cfg, l, {m})
    requires InLog(cfg, m.partition, m.offset) && m.offset < l.cursor[m.partition]
    ensures Kept(cfg, Begin(cfg, l, m, backoff))
  {
    RecordKeeps(cfg, l, Begin(cfg, l, m, backoff).ledger, {m});
  }

  lemma {:induction false} ProcessStepKeeps(cfg: Config, s: Progress, r: Reply)
    requires Kept(cfg, s) && (s.stage.Refusing? || s.stage.Applying? || s.stage.Diverting?)
    ensures Kept(cfg, Move(cfg, s, r))
  {
    RecordKeeps(cfg, s.ledger, Move(cfg, s, r).ledger, {s.stage.m});
  }

  lemma {:induction false} AckStepKeeps(cfg: Config, s: Progress, r: Reply)
    requires Kept(cfg, s) && s.stage.Acking?
    ensures Kept(cfg, Move(cfg, s, r))
  {
    var m := s.stage.m;
    AckKeeps(cfg, s.ledger, m);
    var l := if r.ok || r.applied then Ack(s.ledger, m) else s.ledger;
    RecordKeeps(cfg, l, l.(moved := l.moved + {m}), if r.ok || r.applied then {} else {m});
  }

  lemma {:induction false} StepKeeps(cfg: Config, s: Progress, r: Reply)
    requires Kept(cfg, s)
    ensures Kept(cfg, Move(cfg, s, r))
  {
    match s.stage
    case Polling =>
      if r.ok && Available(cfg, s.ledger.cursor, r.partition) {
        FetchStepKeeps(cfg, s, r);
      }
    case Acking(m) => AckStepKeeps(cfg, s, r);
    case Refusing(m) => ProcessStepKeeps(cfg, s, r);
    case Applying(m) => ProcessStepKeeps(cfg, s, r);
    case Diverting(m) => ProcessStepKeeps(cfg, s, r);
    case Pausing =>
    case Halted =>
  }

  lemma {:induction false} PlayKeeps(cfg: Config, s: Progress, tape: seq<Reply>)
    requires Kept(cfg, s)
    ensures Kept(cfg, Play(cfg, s, tape))
    decreases |tape|
  {
    if tape != [] {
      StepKeeps(cfg, s, tape[0]);
      PlayKeeps(cfg, Move(cfg, s, tape[0]), tape[1..]);
    }
  }

  /** A restarted consumer fetches again from the committed offsets. */
  function Resume(l: Ledger): Progress {
    Progress(l.(cursor := l.committed), Polling, 1)
  }

  /** The ledger after any number of consumer lives, each ended by cancellation or a crash. */
  function Lives(cfg: Config, l: Ledger, tapes: seq<seq<Reply>>): Ledger
    decreases |tapes|
  {
    if tapes == [] then l else Lives(cfg, Play(cfg, Resume(l), tapes[0]).ledger, tapes[1..])
  }

  function Blank(cfg: Config): Ledger {
    Ledger(Zeros(|cfg.log|), Zeros(|cfg.log|), {}, {}, {}, {})
  }

  lemma {:induction false} ResumeKeeps(cfg: Config, l: Ledger)
    requires LedgerOk(cfg, l)
    ensures Kept(cfg, Resume(l))
  {
    assert forall m :: Settled(l, m) ==> Settled(Resume(l).ledger, m);
  }

  lemma {:induction false} LivesKeep(cfg: Config, l: Ledger, tapes: seq<seq<Reply>>)
    requires LedgerOk(cfg, l)
    ensures LedgerOk(cfg, Lives(cfg, l, tapes))
    decreases |tapes|
  {
    if tapes != [] {
      ResumeKeeps(cfg, l);
      PlayKeeps(cfg, Resume(l), tapes[0]);
      LivesKeep(cfg, Play(cfg, Resume(l), tapes[0]).ledger, tapes[1..]);
    }
  }

  /** Every message named in a commit was handled or dead-lettered; every offset the commits cover was, or was moved past. */
  lemma {:induction false} AckedWereProcessed(cfg: Config, tapes: seq<seq<Reply>>)
    ensures
      var l := Lives(cfg, Blank(cfg), tapes);
      && |l.committed| == |cfg.log|
      && (forall m :: m in l.acked ==> Processed(l, m))
      && (forall p: nat, o: nat :: InLog(cfg, p, o) && o < l.committed[p] ==>
            Processed(l, At(cfg, p, o)) || At(cfg, p, o) in l.moved)
  {
    LivesKeep(cfg, Blank(cfg), tapes);
    var l := Lives(cfg, Blank(cfg), tapes);
    forall p: nat, o: nat | InLog(cfg, p, o) && o < l.committed[p]
      ensures Processed(l, At(cfg, p, o)) || At(cfg, p, o) in l.moved
    {
      assert Settled(l, At(cfg, p, o));
    }
  }

  // ---------------------------------------------------------------- terminal errors, cancellation, backoff

  /** A terminal handler error: the message is dead-lettered and committed, or moved past if there is no dead-letter topic. */
  lemma {:induction false} TerminalErrorIsDeadLettered(cfg: Config, s: Progress, m: Message, failed: seq<Event>, p: nat)
    requires s.stage == Applying(m)
    ensures cfg.hasDlq ==>
      var end := Play(cfg, s, [Reply(false, false, 0, false, false, {}, Some(failed))] + ([Good(p)] + [Good(p)]));
      && end.stage == Polling && end.ledger.dlq == s.ledger.dlq + {m} && m in end.ledger.acked
      && end.ledger.committed == Raise(s.ledger.committed, m) && end.ledger.handled == s.ledger.handled
    ensures !cfg.hasDlq ==>
      var end := Play(cfg, s, [Reply(false, false, 0, false, false, {}, Some(failed))] + []);
      end.stage == Pausing && end.ledger == s.ledger.(moved := s.ledger.moved + {m})
  {
    var terminal, good := Reply(false, false, 0, false, false, {}, Some(failed)), Good(p);
    var s1 := Move(cfg, s, terminal);
    OnePlay(cfg, s, terminal, []);
    OnePlay(cfg, s, terminal, [good] + [good]);
    OnePlay(cfg, s1, good, [good]);
    OnePlay(cfg, Move(cfg, s1, good), good, []);
    assert [good] + [] == [good];
    CommitOne(s.ledger.committed, m);
  }

  /** The call at hand returns because the consumer was cancelled: a wait, or a fetch that brings nothing. */
  predicate Interrupted(cfg: Config, s: Progress, r: Reply) {
    r.cancelled && (s.stage.Pausing? || (s.stage.Polling? && !(r.ok && Available(cfg, s.ledger.cursor, r.partition))))
  }

  /** The consumer stops exactly when a wait or an empty-handed fetch is cancelled. */
  lemma {:induction false} StopsIffInterrupted(cfg: Config, s: Progress, r: Reply)
    ensures Move(cfg, s, r).stage.Halted? <==> s.stage.Halted? || Interrupted(cfg, s, r)
  {
  }

  /** Once cancelled, the consumer leaves everything as it is. */
  lemma {:induction false} CancellationStops(cfg: Config, s: Progress, r: Reply, tape: seq<Reply>)
    requires Interrupted(cfg, s, r)
    ensures Play(cfg, s, [r] + tape).ledger == s.ledger
  {
    StopsIffInterrupted(cfg, s, r);
    OnePlay(cfg, s, r, tape);
    HaltedStays(cfg, Move(cfg, s, r), tape);
  }

  /** A wait that runs out doubles the backoff below thirty seconds, a commit resets it, and nothing else changes it. */
  lemma {:induction false} BackoffChanges(cfg: Config, s: Progress, r: Reply)
    ensures Move(cfg, s, r).backoff ==
      if s.stage.Acking? && r.ok then 1
      else if s.stage.Pausing? && !r.cancelled && s.backoff < 30 then s.backoff + s.backoff
      else s.backoff
  {
  }

  // ---------------------------------------------------------------- exactly when nothing is skipped

  /** A message the consumer can handle or dead-letter at all. */
  predicate Processable(cfg: Config, m: Message) {
    !Bad(m) || cfg.hasDlq
  }

  lemma {:induction false} PlayConcat(cfg: Config, s: Progress, a: seq<Reply>, b: seq<Reply>)
    ensures Play(cfg, s, a + b) == Play(cfg, Play(cfg, s, a), b)
    decreases |a|
  {
    if a == [] {
      assert a + b == b;
    } else {
      assert (a + b)[1..] == a[1..] + b;
      PlayConcat(cfg, Move(cfg, s, a[0]), a[1..], b);
    }
  }

  const FAILS: Reply := Reply(false, false, 0, false, false, {}, None)

  function Good(p: nat): Reply {
    Reply(true, false, p, false, false, {}, None)
  }

  /** A processable message at the cursor, all of whose calls go well, is committed. */
  lemma {:induction false} SmoothMessage(cfg: Config, s: Progress, p: nat)
    requires s.stage == Polling && Available(cfg, s.ledger.cursor, p)
    requires Processable(cfg, NextMessage(cfg, s.ledger.cursor, p))
    ensures
      var m, end := NextMessage(cfg, s.ledger.cursor, p), Play(cfg, s, [Good(p), Good(p), Good(p)]).ledger;
      && end.committed == Commit(s.ledger.committed, [m])
      && end.handled <= s.ledger.handled + {m} && end.dlq <= s.ledger.dlq + {m}
  {
    var good := Good(p);
    var s1 := Move(cfg, s, good);
    var s2 := Move(cfg, s1, good);
    assert s2.stage == Acking(NextMessage(cfg, s.ledger.cursor, p));
    OnePlay(cfg, s, good, [good, good]);
    OnePlay(cfg, s1, good, [good]);
    OnePlay(cfg, s2, good, []);
    assert [good, good, good] == [good] + [good, good] && [good, good] == [good] + [good] && [good] == [good] + [];
  }

  /** A message whose processing fails, by an error of the handler, the dead-letter write or the commit, is moved past. */
  lemma {:induction false} FailedMessage(cfg: Config, s: Progress, m: Message, p: nat)
    requires s.stage == Refusing(m) || s.stage == Applying(m) || s.stage == Diverting(m) || s.stage == Acking(m)
    ensures
      var s1 := Play(cfg, s, [FAILS, Good(p)]);
      s1.stage == Polling && s1.ledger == s.ledger.(moved := s.ledger.moved + {m})
  {
    OnePlay(cfg, s, FAILS, [Good(p)]);
    OnePlay(cfg, Move(cfg, s, FAILS), Good(p), []);
    assert [FAILS, Good(p)] == [FAILS] + [Good(p)] && [Good(p)] == [Good(p)] + [];
  }

  /**
   The gap: from any point where a message is being processed and the next offset of its partition is
   processable, a failure of the handler or the dead-letter write followed by a smooth next message
   commits both offsets, although the first message was neither handled nor dead-lettered.
   */
  lemma {:induction false} FailedMessageIsCovered(cfg: Config, s: Progress, m: Message)
    requires Kept(cfg, s) && (s.stage == Refusing(m) || s.stage == Applying(m) || s.stage == Diverting(m))
    requires s.ledger.cursor[m.partition] == m.offset + 1 < |cfg.log[m.partition]|
    requires Processable(cfg, At(cfg, m.partition, m.offset + 1)) && !Processed(s.ledger, m)
    ensures
      var good := Good(m.partition);
      var end := Play(cfg, s, [FAILS, good] + [good, good, good]).ledger;
      && m.partition < |end.committed| && end.committed[m.partition] > m.offset
      && !Processed(end, m)
  {
    var good := Good(m.partition);
    PlayConcat(cfg, s, [FAILS, good], [good, good, good]);
    FailedMessage(cfg, s, m, m.partition);
    var s1 := Play(cfg, s, [FAILS, good]);
    SmoothMessage(cfg, s1, m.partition);
    CommitOne(s1.ledger.committed, NextMessage(cfg, s1.ledger.cursor, m.partition));
  }

  /** Nothing has been committed, handled or dead-lettered, and the cursor stands at `k` in partition `p`. */
  predicate MovedTo(cfg: Config, s: Progress, p: nat, k: nat) {
    && s.stage == Polling && p < |cfg.log| == |s.ledger.cursor| && s.ledger.cursor[p] == k
    && s.ledger.committed == Zeros(|cfg.log|) && s.ledger.handled == {} && s.ledger.dlq == {}
  }

  lemma {:induction false} MoveToNext(cfg: Config, s: Progress, p: nat, k: nat) returns (tape: seq<Reply>)
    requires MovedTo(cfg, s, p, k) && k < |cfg.log[p]|
    ensures MovedTo(cfg, Play(cfg, s, tape), p, k + 1)
  {
    var good, m := Good(p), NextMessage(cfg, s.ledger.cursor, p);
    var s1 := Move(cfg, s, good);
    if Processable(cfg, m) {
      tape := [good] + [FAILS, good];
      OnePlay(cfg, s, good, [FAILS, good]);
      FailedMessage(cfg, s1, m, p);
    } else {
      tape := [good] + [good];
      OnePlay(cfg, s, good, [good]);
      OnePlay(cfg, s1, good, []);
      assert [good] == [good] + [];
    }
  }

  /** A fresh consumer can move past any number of messages. */
  lemma {:induction false} MoveToOffset(cfg: Config, p: nat, k: nat) returns (tape: seq<Reply>)
    requires p < |cfg.log| && k <= |cfg.log[p]|
    ensures MovedTo(cfg, Play(cfg, Resume(Blank(cfg)), tape), p, k)
  {
    if k == 0 {
      tape := [];
    } else {
      var before := MoveToOffset(cfg, p, k - 1);
      var next := MoveToNext(cfg, Play(cfg, Resume(Blank(cfg)), before), p, k - 1);
      tape := before + next;
      PlayConcat(cfg, Resume(Blank(cfg)), before, next);
    }
  }

  /** Wherever a processable message stands behind another, some run of a fresh consumer commits it and has processed nothing before it. */
  lemma {:induction false} GapFromTheStart(cfg: Config, p: nat, o: nat) returns (tapes: seq<seq<Reply>>)
    requires InLog(cfg, p, o) && o > 0 && Processable(cfg, At(cfg, p, o))
    ensures
      var end := Lives(cfg, Blank(cfg), tapes);
      && p < |end.committed| && end.committed[p] == o + 1
      && forall k :: 0 <= k < o ==> !Processed(end, At(cfg, p, k))
  {
    var before := MoveToOffset(cfg, p, o);
    var tape := before + [Good(p), Good(p), Good(p)];
    var s0, s1 := Resume(Blank(cfg)), Play(cfg, Resume(Blank(cfg)), before);
    PlayConcat(cfg, s0, before, [Good(p), Good(p), Good(p)]);
    SmoothMessage(cfg, s1, p);
    CommitOne(s1.ledger.committed, NextMessage(cfg, s1.ledger.cursor, p));
    tapes := [tape];
    assert tapes[1..] == [];
    assert Lives(cfg, Blank(cfg), tapes) == Play(cfg, s0, tape).ledger;
  }

  /** The last committed offset of each partition was named in a commit, and only what can be processed is. */
  ghost predicate Marked(cfg: Config, l: Ledger) {
    && (forall p: nat :: p < |cfg.log| && p < |l.committed| && l.committed[p] > 0 ==>
          InLog(cfg, p, l.committed[p] - 1) && At(cfg, p, l.committed[p] - 1) in l.acked)
    && (forall m :: m in l.handled || m in l.dlq ==> Processable(cfg, m))
  }

  ghost predicate MarkedInHand(cfg: Config, s: Progress) {
    && Marked(cfg, s.ledger)
    && forall m :: m in InHand(s.stage) ==> Processable(cfg, m) && InLog(cfg, m.partition, m.offset) && m == At(cfg, m.partition, m.offset)
  }

  lemma {:induction false} StepMarks(cfg: Config, s: Progress, r: Reply)
    requires MarkedInHand(cfg, s)
    ensures MarkedInHand(cfg, Move(cfg, s, r))
  {
    match s.stage
    case Acking(m) =>
      AckMarks(cfg, s.ledger, m);
      if !r.ok {
        var l := if r.applied then Ack(s.ledger, m) else s.ledger;
        RecordMarks(cfg, l, l.(moved := l.moved + {m}), {});
      }
    case Polling =>
      if r.ok && Available(cfg, s.ledger.cursor, r.partition) {
        var m := NextMessage(cfg, s.ledger.cursor, r.partition);
        assert m == At(cfg, m.partition, m.offset);
        RecordMarks(cfg, s.ledger, Move(cfg, s, r).ledger, {});
      }
    case Refusing(m) => RecordMarks(cfg, s.ledger, Move(cfg, s, r).ledger, {m});
    case Applying(m) => RecordMarks(cfg, s.ledger, Move(cfg, s, r).ledger, {m});
    case Diverting(m) => RecordMarks(cfg, s.ledger, Move(cfg, s, r).ledger, {m});
    case Pausing =>
    case Halted =>
  }

  lemma {:induction false} RecordMarks(cfg: Config, l: Ledger, l1: Ledger, recorded: set<Message>)
    requires Marked(cfg, l) && forall m :: m in recorded ==> Processable(cfg, m)
    requires l1.committed == l.committed && l1.acked == l.acked
    requires l1.handled <= l.handled + recorded && l1.dlq <= l.dlq + recorded
    ensures Marked(cfg, l1)
  {
  }

  lemma {:induction false} AckMarks(cfg: Config, l: Ledger, m: Message)
    requires Marked(cfg, l) && InLog(cfg, m.partition, m.offset) && m == At(cfg, m.partition, m.offset)
    ensures Marked(cfg, Ack(l, m))
  {
    CommitOne(l.committed, m);
  }

  lemma {:induction false} PlayMarks(cfg: Config, s: Progress, tape: seq<Reply>)
    requires MarkedInHand(cfg, s)
    ensures MarkedInHand(cfg, Play(cfg, s, tape))
    decreases |tape|
  {
    if tape != [] {
      StepMarks(cfg, s, tape[0]);
      PlayMarks(cfg, Move(cfg, s, tape[0]), tape[1..]);
    }
  }

  lemma {:induction false} LivesMark(cfg: Config, l: Ledger, tapes: seq<seq<Reply>>)
    requires Marked(cfg, l)
    ensures Marked(cfg, Lives(cfg, l, tapes))
    decreases |tapes|
  {
    if tapes != [] {
      PlayMarks(cfg, Resume(l), tapes[0]);
      LivesMark(cfg, Play(cfg, Resume(l), tapes[0]).ledger, tapes[1..]);
    }
  }

  /** Every offset below a committed one was handled or dead-lettered. */
  ghost predicate Covered(cfg: Config, l: Ledger) {
    forall p: nat, o: nat :: InLog(cfg, p, o) && p < |l.committed| && o < l.committed[p] ==> Processed(l, At(cfg, p, o))
  }

  /** Only the first message of a partition can ever be processed. */
  ghost predicate OnlyFirstsProcessable(cfg: Config) {
    forall p: nat, o: nat :: InLog(cfg, p, o) && o > 0 ==> !Processable(cfg, At(cfg, p, o))
  }

  lemma {:induction false} CoveredWhenOnlyFirsts(cfg: Config, tapes: seq<seq<Reply>>)
    requires OnlyFirstsProcessable(cfg)
    ensures Covered(cfg, Lives(cfg, Blank(cfg), tapes))
  {
    AckedWereProcessed(cfg, tapes);
    LivesMark(cfg, Blank(cfg), tapes);
    var l := Lives(cfg, Blank(cfg), tapes);
    forall p: nat, o: nat | InLog(cfg, p, o) && p < |l.committed| && o < l.committed[p] ensures Processed(l, At(cfg, p, o)) {
      var last := l.committed[p] - 1;
      assert At(cfg, p, last) in l.acked;
      assert Processed(l, At(cfg, p, last));
    }
  }

  /**
   The one-message consumer covers every committed offset in every run exactly on the logs where
   nothing behind the first message of a partition can be processed at all.
   */
  lemma {:induction false} CoverageIff(cfg: Config)
    ensures (forall tapes :: Covered(cfg, Lives(cfg, Blank(cfg), tapes))) <==> OnlyFirstsProcessable(cfg)
  {
    if OnlyFirstsProcessable(cfg) {
      forall tapes ensures Covered(cfg, Lives(cfg, Blank(cfg), tapes)) {
        CoveredWhenOnlyFirsts(cfg, tapes);
      }
    } else {
      var p: nat, o: nat :| InLog(cfg, p, o) && o > 0 && Processable(cfg, At(cfg, p, o));
      var tapes := GapFromTheStart(cfg, p, o);
      var end := Lives(cfg, Blank(cfg), tapes);
      assert InLog(cfg, p, 0) && 0 < end.committed[p] && !Processed(end, At(cfg, p, 0));
      assert !Covered(cfg, end);
    }
  }

  lemma {:induction false} OnePlay(cfg: Config, s: Progress, r: Reply, tape: seq<Reply>)
    ensures Play(cfg, s, [r] + tape) == Play(cfg, Move(cfg, s, r), tape)
  {
    assert ([r] + tape)[1..] == tape;
  }
}
