/**
 Which logs a batch consumer can lose a message of.

 The condition is about the log and the batch size alone: some valid message and a confused one can
 meet in a batch, and no invalid record with the message's own identity comes before them, which would
 have put that identity into the dead-letter topic.
 */
module LossyLogs {
  import opened Events
  import opened BatchConsumer
  import opened DeadLettering
  import opened ConfusedKeys
  import opened OffsetCoverage
  import opened CoverageExactness

  /** Dead-lettering the record puts the identity of `m` into the dead-letter topic. */
  predicate Twin(x: Message, m: Message) {
    x.record.Invalid? && Decodable(m) && KeyOf(x.record.event) == KeyOf(m.record.event)
  }

  predicate NoTwinBelow(cfg: Config, p: nat, o: nat, m: Message)
    requires p < |cfg.log| && o <= |cfg.log[p]|
  {
    forall k :: 0 <= k < o ==> !Twin(At(cfg, p, k), m)
  }

  /** The message at `(p, o)` can be passed over for the one at `(q, r)`. */
  predicate Lossy(cfg: Config, q: nat, r: nat, p: nat, o: nat) {
    && InLog(cfg, q, r) && InLog(cfg, p, o)
    && !Bad(At(cfg, p, o)) && Confused(At(cfg, q, r), At(cfg, p, o))
    && (q == p ==> r < o < r + cfg.batchSize)
    && NoTwinBelow(cfg, q, r, At(cfg, p, o)) && NoTwinBelow(cfg, p, o, At(cfg, p, o))
  }

  ghost predicate Lossless(cfg: Config) {
    cfg.hasDlq && cfg.batchSize >= 2 ==> forall q: nat, r: nat, p: nat, o: nat :: !Lossy(cfg, q, r, p, o)
  }

  // ---------------------------------------------------------------- batches of every reachable state

  /** Messages of a partition are in order and close together. */
  predicate Spaced(cfg: Config, w: World, msgs: seq<Message>) {
    && |msgs| <= (if cfg.batchSize < 1 then 1 else cfg.batchSize)
    && (forall i, j :: 0 <= i < j < |msgs| && msgs[i].partition == msgs[j].partition ==> msgs[i].offset < msgs[j].offset)
    && forall i :: 0 <= i < |msgs| && msgs[i].partition < |w.cursor| ==> w.cursor[msgs[i].partition] <= msgs[i].offset + |msgs| - i
  }

  ghost predicate BadTracked(cfg: Config, w: World, msgs: seq<Message>) {
    forall p: nat, o: nat :: InLog(cfg, p, o) && p < |w.cursor| && o < w.cursor[p] && Bad(At(cfg, p, o)) ==>
      At(cfg, p, o) in w.dlq || At(cfg, p, o) in msgs
  }

  ghost predicate BadCommitted(cfg: Config, w: World) {
    forall p: nat, o: nat :: InLog(cfg, p, o) && p < |w.committed| && o < w.committed[p] && Bad(At(cfg, p, o)) ==> At(cfg, p, o) in w.dlq
  }

  ghost predicate RejectsOk(w: World, phase: Phase) {
    match phase
    case Rejecting(msgs, i) => i < |msgs| && RejectedUpTo(w, msgs, i)
    case Handling(msgs) => RejectedUpTo(w, msgs, |msgs|)
    case HandleWait(msgs) => RejectedUpTo(w, msgs, |msgs|)
    case Burying(msgs, _, _) => RejectedUpTo(w, msgs, |msgs|)
    case Committing(msgs) => RejectedUpTo(w, msgs, |msgs|)
    case CommitWait(msgs) => RejectedUpTo(w, msgs, |msgs|)
    case _ => true
  }

  ghost predicate Tidy(cfg: Config, s: State) {
    && WellShaped(cfg, s) && BadCommitted(cfg, s.world) && RejectsOk(s.world, s.phase)
    && (s.phase.Stopped? || (BadTracked(cfg, s.world, InHand(s.phase)) && Spaced(cfg, s.world, InHand(s.phase))))
  }

  lemma {:induction false} DecodeRejects(cfg: Config, w: World, msgs: seq<Message>, i: nat)
    requires RejectedUpTo(w, msgs, i)
    ensures RejectsOk(w, Decode(cfg, msgs, i)) && InHand(Decode(cfg, msgs, i)) == msgs
    decreases |msgs| - i
  {
    if i < |msgs| && !Bad(msgs[i]) {
      DecodeRejects(cfg, w, msgs, i + 1);
    }
  }

  lemma {:induction false} EnterTidy(cfg: Config, w: World, msgs: seq<Message>, i: nat, backoff: nat)
    requires BadCommitted(cfg, w) && BadTracked(cfg, w, msgs) && Spaced(cfg, w, msgs) && RejectedUpTo(w, msgs, i)
    requires WellShaped(cfg, Enter(w, Decode(cfg, msgs, i), backoff))
    ensures Tidy(cfg, Enter(w, Decode(cfg, msgs, i), backoff))
  {
    var w1 := Settle(w, Decode(cfg, msgs, i));
    DecodeRejects(cfg, w, msgs, i);
    assert w1.dlq == w.dlq && w1.cursor == w.cursor && w1.committed == w.committed;
  }

  /** Dead letters only add up. */
  lemma {:induction false} MoreLetters(cfg: Config, w: World, w1: World, msgs: seq<Message>, i: nat)
    requires w.dlq <= w1.dlq && w1.cursor == w.cursor && w1.committed == w.committed
    ensures BadCommitted(cfg, w) ==> BadCommitted(cfg, w1)
    ensures BadTracked(cfg, w, msgs) ==> BadTracked(cfg, w1, msgs)
    ensures RejectedUpTo(w, msgs, i) ==> RejectedUpTo(w1, msgs, i)
    ensures Spaced(cfg, w, msgs) ==> Spaced(cfg, w1, msgs)
  {
    assert forall m :: m in w.dlq ==> m in w1.dlq;
  }

  lemma {:induction false} FetchTidy(cfg: Config, s: State, p: nat)
    requires Tidy(cfg, s) && Available(cfg, s.world.cursor, p) && (s.phase.Fetching? || s.phase.Collecting?)
    requires |InHand(s.phase)| == 0 || |InHand(s.phase)| < cfg.batchSize
    ensures
      var msgs := InHand(s.phase) + [NextMessage(cfg, s.world.cursor, p)];
      Tidy(cfg, Enter(Fetched(cfg, s.world, p), Gathered(cfg, msgs), s.backoff))
  {
    var w, w1 := s.world, Fetched(cfg, s.world, p);
    var hand, msgs := InHand(s.phase), InHand(s.phase) + [NextMessage(cfg, s.world.cursor, p)];
    FetchShaped(cfg, s, p);
    forall i | 0 <= i < |hand| ensures Genuine(cfg, w, hand[i]) {
      assert hand[i] in hand;
    }
    assert Spaced(cfg, w1, msgs);
    assert BadCommitted(cfg, w1) && BadTracked(cfg, w1, msgs);
    if |msgs| >= cfg.batchSize {
      EnterTidy(cfg, w1, msgs, 0, s.backoff);
    }
  }

  /** A phase that is left with a batch of fewer messages than it could have. */
  predicate Gathering(cfg: Config, phase: Phase) {
    phase.Collecting? ==> |phase.msgs| < cfg.batchSize
  }

  lemma {:induction false} CommitTidy(cfg: Config, s: State, r: Reply)
    requires Tidy(cfg, s) && s.phase.Committing?
    ensures Tidy(cfg, Step(cfg, s, r))
  {
    var w, msgs, w1 := s.world, s.phase.msgs, Step(cfg, s, r).world;
    StepShaped(cfg, s, r);
    CommitWithin(cfg, w, w.committed, msgs);
    forall p: nat, o: nat | InLog(cfg, p, o) && p < |w.cursor| && o < w.cursor[p] && Bad(At(cfg, p, o)) ensures At(cfg, p, o) in w.dlq {
      if At(cfg, p, o) in msgs {
        var j :| 0 <= j < |msgs| && msgs[j] == At(cfg, p, o);
      }
    }
  }

  lemma {:induction false} FirstTidy(cfg: Config, s: State, r: Reply)
    requires Tidy(cfg, s) && s.phase.Fetching?
    ensures Tidy(cfg, Step(cfg, s, r))
  {
    if r.ok && Available(cfg, s.world.cursor, r.partition) {
      FetchTidy(cfg, s, r.partition);
      assert [] + [NextMessage(cfg, s.world.cursor, r.partition)] == [NextMessage(cfg, s.world.cursor, r.partition)];
    }
  }

  lemma {:induction false} HandleTidy(cfg: Config, s: State, r: Reply)
    requires Tidy(cfg, s) && (s.phase.Handling? || s.phase.Burying?)
    ensures Tidy(cfg, Step(cfg, s, r))
  {
    StepShaped(cfg, s, r);
    MoreLetters(cfg, s.world, Step(cfg, s, r).world, s.phase.msgs, |s.phase.msgs|);
  }

  lemma {:induction false} WaitTidy(cfg: Config, s: State, r: Reply)
    requires Tidy(cfg, s)
    requires s.phase.FetchWait? || s.phase.HandleWait? || s.phase.CommitWait? || s.phase.Stopped? || s.phase.DecodeWait?
    ensures Tidy(cfg, Step(cfg, s, r))
  {
    StepShaped(cfg, s, r);
    if s.phase.DecodeWait? && !r.cancelled {
      EnterTidy(cfg, s.world, s.phase.msgs, 0, NextBackoff(s.backoff));
    }
  }

  lemma {:induction false} StepTidy(cfg: Config, s: State, r: Reply)
    requires Tidy(cfg, s) && Gathering(cfg, s.phase)
    ensures Tidy(cfg, Step(cfg, s, r)) && Gathering(cfg, Step(cfg, s, r).phase)
  {
    StepGathers(cfg, s, r);
    match s.phase
    case Fetching => FirstTidy(cfg, s, r);
    case Collecting(_) => CollectTidy(cfg, s, r);
    case Rejecting(_, _) => RejectTidy(cfg, s, r);
    case Handling(_) => HandleTidy(cfg, s, r);
    case Burying(_, _, _) => HandleTidy(cfg, s, r);
    case Committing(_) => CommitTidy(cfg, s, r);
    case _ => WaitTidy(cfg, s, r);
  }

  lemma {:induction false} CollectTidy(cfg: Config, s: State, r: Reply)
    requires Tidy(cfg, s) && Gathering(cfg, s.phase) && s.phase.Collecting?
    ensures Tidy(cfg, Step(cfg, s, r))
  {
    StepShaped(cfg, s, r);
    if !r.expired && r.ok && Available(cfg, s.world.cursor, r.partition) {
      FetchTidy(cfg, s, r.partition);
    } else if r.expired || !r.cancelled {
      EnterTidy(cfg, s.world, s.phase.msgs, 0, s.backoff);
    }
  }

  lemma {:induction false} RejectTidy(cfg: Config, s: State, r: Reply)
    requires Tidy(cfg, s) && s.phase.Rejecting?
    ensures Tidy(cfg, Step(cfg, s, r))
  {
    var w, msgs, i := s.world, s.phase.msgs, s.phase.index;
    var w1 := w.(dlq := w.dlq + [msgs[i]]);
    StepShaped(cfg, s, r);
    MoreLetters(cfg, w, w1, msgs, i);
    if r.ok {
      EnterTidy(cfg, w1, msgs, i + 1, s.backoff);
    }
  }

  lemma {:induction false} DecodeGathers(cfg: Config, msgs: seq<Message>, i: nat)
    requires i <= |msgs|
    ensures !Decode(cfg, msgs, i).Collecting?
    decreases |msgs| - i
  {
    if i < |msgs| {
      DecodeGathers(cfg, msgs, i + 1);
    }
  }

  lemma {:induction false} StepGathers(cfg: Config, s: State, r: Reply)
    requires Gathering(cfg, s.phase)
    ensures Gathering(cfg, Step(cfg, s, r).phase)
  {
    match s.phase
    case Fetching =>
      if r.ok && Available(cfg, s.world.cursor, r.partition) {
        DecodeGathers(cfg, [NextMessage(cfg, s.world.cursor, r.partition)], 0);
      }
    case Collecting(msgs) =>
      DecodeGathers(cfg, msgs, 0);
      if r.ok && Available(cfg, s.world.cursor, r.partition) {
        DecodeGathers(cfg, msgs + [NextMessage(cfg, s.world.cursor, r.partition)], 0);
      }
    case Rejecting(msgs, i) =>
      if i < |msgs| {
        DecodeGathers(cfg, msgs, i + 1);
      }
    case DecodeWait(msgs) => DecodeGathers(cfg, msgs, 0);
    case _ =>
  }

  lemma {:induction false} RunTidy(cfg: Config, s: State, tape: seq<Reply>)
    requires Tidy(cfg, s) && Gathering(cfg, s.phase)
    ensures Tidy(cfg, Run(cfg, s, tape))
    decreases |tape|
  {
    if tape != [] {
      StepTidy(cfg, s, tape[0]);
      RunTidy(cfg, Step(cfg, s, tape[0]), tape[1..]);
    }
  }

  lemma {:induction false} LivesTidy(cfg: Config, tapes: seq<seq<Reply>>)
    ensures Shaped(cfg, Lives(cfg, Fresh(cfg), tapes)) && BadCommitted(cfg, Lives(cfg, Fresh(cfg), tapes))
  {
    if tapes != [] {
      var before, tape := tapes[..|tapes| - 1], tapes[|tapes| - 1];
      LivesTidy(cfg, before);
      assert tapes == before + [tape];
      LivesSnoc(cfg, Fresh(cfg), before, tape);
      RunTidy(cfg, Restart(Lives(cfg, Fresh(cfg), before)), tape);
    }
  }

  lemma {:induction false} ReachTidy(cfg: Config, tapes: seq<seq<Reply>>, tape: seq<Reply>)
    ensures Tidy(cfg, Reach(cfg, tapes, tape))
  {
    LivesTidy(cfg, tapes);
    RunTidy(cfg, Restart(Lives(cfg, Fresh(cfg), tapes)), tape);
  }

  // ---------------------------------------------------------------- a message at risk makes the log lossy

  lemma {:induction false} TwinBuries(dlq: seq<Message>, x: Message, m: Message)
    requires x in dlq && Twin(x, m)
    ensures Buried(dlq, m)
  {
    var i :| 0 <= i < |dlq| && dlq[i] == x;
  }

  /** With the handler at work, every bad message fetched so far is in the dead-letter topic. */
  lemma {:induction false} FetchedBadIsBuried(cfg: Config, s: State, p: nat, k: nat)
    requires Tidy(cfg, s) && s.phase.Handling?
    requires InLog(cfg, p, k) && p < |s.world.cursor| && k < s.world.cursor[p] && Bad(At(cfg, p, k))
    ensures At(cfg, p, k) in s.world.dlq
  {
    var x, msgs := At(cfg, p, k), s.phase.msgs;
    if x in msgs {
      var j :| 0 <= j < |msgs| && msgs[j] == x;
    }
  }

  lemma {:induction false} NoTwinFetched(cfg: Config, s: State, m: Message, p: nat, o: nat)
    requires Tidy(cfg, s) && s.phase.Handling?
    requires InLog(cfg, p, o) && p < |s.world.cursor| && o <= s.world.cursor[p]
    ensures Buried(s.world.dlq, m) || NoTwinBelow(cfg, p, o, m)
  {
    if !NoTwinBelow(cfg, p, o, m) {
      var k :| 0 <= k < o && Twin(At(cfg, p, k), m);
      FetchedBadIsBuried(cfg, s, p, k);
      TwinBuries(s.world.dlq, At(cfg, p, k), m);
    }
  }

  lemma {:induction false} AtRiskIsLossy(cfg: Config, s: State, m: Message) returns (q: nat, r: nat)
    requires Tidy(cfg, s) && s.phase.Handling? && AtRisk(s.world, s.phase.msgs, m)
    ensures cfg.batchSize >= 2 && Lossy(cfg, q, r, m.partition, m.offset)
  {
    var w, msgs := s.world, s.phase.msgs;
    var i :| 0 <= i < |msgs| && FirstWithTag(msgs, i, m) && Confused(msgs[i], m);
    var j :| 0 <= j < |msgs| && msgs[j] == m;
    assert i < j;
    var f := msgs[i];
    assert f in InHand(s.phase) && m in InHand(s.phase);
    q, r := f.partition, f.offset;
    NoTwinFetched(cfg, s, m, q, r);
    NoTwinFetched(cfg, s, m, m.partition, m.offset);
  }

  // ---------------------------------------------------------------- a lossy log has a run with a message at risk

  function Pick(p: nat): Reply {
    Reply(true, false, p, false, false, {}, None)
  }

  /** Messages at offsets `a` up to `a + n` of a partition. */
  function Stretch(cfg: Config, p: nat, a: nat, n: nat): (msgs: seq<Message>)
    requires p < |cfg.log| && a + n <= |cfg.log[p]|
    ensures |msgs| == n
  {
    if n == 0 then [] else Stretch(cfg, p, a, n - 1) + [At(cfg, p, a + n - 1)]
  }

  lemma {:induction false} StretchAt(cfg: Config, p: nat, a: nat, n: nat, i: nat)
    requires p < |cfg.log| && a + n <= |cfg.log[p]| && i < n
    ensures Stretch(cfg, p, a, n)[i] == At(cfg, p, a + i)
  {
    if i < n - 1 {
      StretchAt(cfg, p, a, n - 1, i);
    }
  }

  lemma {:induction false} OneReply(cfg: Config, s: State, r: Reply)
    ensures Run(cfg, s, [r]) == Step(cfg, s, r)
  {
    assert [r][1..] == [];
    assert Run(cfg, Step(cfg, s, r), []) == Step(cfg, s, r);
  }

  lemma {:induction false} Snoc(cfg: Config, s: State, tape: seq<Reply>, r: Reply)
    ensures Run(cfg, s, tape + [r]) == Step(cfg, Run(cfg, s, tape), r)
  {
    RunConcat(cfg, s, tape, [r]);
    OneReply(cfg, Run(cfg, s, tape), r);
  }

  /** Fetches a stretch of one partition as a batch, or what may yet become one. */
  lemma {:induction false} FetchStretch(cfg: Config, w: World, p: nat, n: nat, backoff: nat) returns (tape: seq<Reply>)
    requires p < |cfg.log| && p < |w.cursor| && 1 <= n && w.cursor[p] + n <= |cfg.log[p]| && (n == 1 || n <= cfg.batchSize)
    ensures Run(cfg, State(w, Fetching, backoff), tape)
         == Enter(w.(cursor := w.cursor[p := w.cursor[p] + n]), Gathered(cfg, Stretch(cfg, p, w.cursor[p], n)), backoff)
  {
    var s, a := State(w, Fetching, backoff), w.cursor[p];
    if n == 1 {
      tape := [Pick(p)];
      OneReply(cfg, s, Pick(p));
      assert Stretch(cfg, p, a, 1) == [] + [NextMessage(cfg, w.cursor, p)] == [NextMessage(cfg, w.cursor, p)];
    } else {
      var before := FetchStretch(cfg, w, p, n - 1, backoff);
      var w1, msgs := w.(cursor := w.cursor[p := a + n - 1]), Stretch(cfg, p, a, n - 1);
      assert Run(cfg, s, before) == State(w1, Collecting(msgs), backoff);
      tape := before + [Pick(p)];
      Snoc(cfg, s, before, Pick(p));
      assert msgs + [NextMessage(cfg, w1.cursor, p)] == Stretch(cfg, p, a, n);
      assert Fetched(cfg, w1, p) == w.(cursor := w.cursor[p := a + n]);
    }
  }

  /** Fetches one message from each of two partitions as a batch, or what may yet become one. */
  lemma {:induction false} FetchPair(cfg: Config, w: World, q: nat, p: nat, backoff: nat)
    requires cfg.batchSize >= 2 && q != p && Available(cfg, w.cursor, q) && Available(cfg, w.cursor, p)
    ensures Run(cfg, State(w, Fetching, backoff), [Pick(q)] + [Pick(p)])
         == Enter(w.(cursor := w.cursor[q := w.cursor[q] + 1][p := w.cursor[p] + 1]),
                  Gathered(cfg, [NextMessage(cfg, w.cursor, q), NextMessage(cfg, w.cursor, p)]), backoff)
  {
    var s := State(w, Fetching, backoff);
    OneReply(cfg, s, Pick(q));
    Snoc(cfg, s, [Pick(q)], Pick(p));
    var f, m := NextMessage(cfg, w.cursor, q), NextMessage(cfg, w.cursor, p);
    assert [f] + [m] == [f, m];
  }

  lemma {:induction false} CloseBatch(cfg: Config, w: World, msgs: seq<Message>, backoff: nat) returns (tape: seq<Reply>)
    ensures Run(cfg, Enter(w, Gathered(cfg, msgs), backoff), tape) == Enter(w, Decode(cfg, msgs, 0), backoff)
  {
    if |msgs| < cfg.batchSize {
      tape := [SMOOTH];
      OneReply(cfg, Enter(w, Gathered(cfg, msgs), backoff), SMOOTH);
    } else {
      tape := [];
    }
  }

  /** The bad messages from `i` on. */
  function BadFrom(msgs: seq<Message>, i: nat): seq<Message>
    requires i <= |msgs|
    decreases |msgs| - i
  {
    if i == |msgs| then [] else (if Bad(msgs[i]) then [msgs[i]] else []) + BadFrom(msgs, i + 1)
  }

  lemma {:induction false} RejectOne(cfg: Config, w: World, msgs: seq<Message>, i: nat, backoff: nat)
    requires cfg.hasDlq && i < |msgs| && Bad(msgs[i])
    ensures Step(cfg, Enter(w, Decode(cfg, msgs, i), backoff), SMOOTH)
         == Enter(w.(dlq := w.dlq + [msgs[i]]), Decode(cfg, msgs, i + 1), backoff)
  {
    assert Decode(cfg, msgs, i) == Rejecting(msgs, i);
  }

  /** With all writes going well, decoding goes through and leaves the bad messages in the dead-letter topic. */
  lemma {:induction false} DecodeThrough(cfg: Config, w: World, msgs: seq<Message>, i: nat, backoff: nat) returns (tape: seq<Reply>)
    requires cfg.hasDlq && i <= |msgs|
    ensures Run(cfg, Enter(w, Decode(cfg, msgs, i), backoff), tape)
         == Enter(w.(dlq := w.dlq + BadFrom(msgs, i)), Decode(cfg, msgs, |msgs|), backoff)
    decreases |msgs| - i
  {
    if i == |msgs| {
      tape := [];
      assert w.dlq + [] == w.dlq;
    } else if Bad(msgs[i]) {
      var w1 := w.(dlq := w.dlq + [msgs[i]]);
      var rest := DecodeThrough(cfg, w1, msgs, i + 1, backoff);
      tape := [SMOOTH] + rest;
      RejectOne(cfg, w, msgs, i, backoff);
      OneStep(cfg, Enter(w, Decode(cfg, msgs, i), backoff), SMOOTH, rest);
      assert BadFrom(msgs, i) == [msgs[i]] + BadFrom(msgs, i + 1);
      assert w1.dlq + BadFrom(msgs, i + 1) == w.dlq + BadFrom(msgs, i);
    } else {
      tape := DecodeThrough(cfg, w, msgs, i + 1, backoff);
      assert BadFrom(msgs, i) == BadFrom(msgs, i + 1);
    }
  }

  /** Nothing has happened yet that would account for the message. */
  predicate Untouched(w: World, m: Message) {
    m !in w.handled && !Buried(w.dlq, m) && w.verdicts == []
  }

  ghost predicate NoTwinIn(msgs: seq<Message>, m: Message) {
    forall i :: 0 <= i < |msgs| ==> !Twin(msgs[i], m)
  }

  lemma {:induction false} BadFromWithin(msgs: seq<Message>, i: nat, x: Message)
    requires i <= |msgs| && x in BadFrom(msgs, i)
    ensures x in msgs && Bad(x)
    decreases |msgs| - i
  {
    if !(Bad(msgs[i]) && x == msgs[i]) {
      BadFromWithin(msgs, i + 1, x);
    }
  }

  lemma {:induction false} RejectsLeaveUntouched(dlq: seq<Message>, msgs: seq<Message>, m: Message)
    requires !Bad(m) && NoTwinIn(msgs, m) && !Buried(dlq, m)
    ensures !Buried(dlq + BadFrom(msgs, 0), m)
  {
    var more := BadFrom(msgs, 0);
    forall i | 0 <= i < |dlq + more| && Decodable((dlq + more)[i])
      ensures KeyOf((dlq + more)[i].record.event) != KeyOf(m.record.event)
    {
      if i < |dlq| {
        assert (dlq + more)[i] == dlq[i];
      } else {
        var x := more[i - |dlq|];
        BadFromWithin(msgs, 0, x);
        var j :| 0 <= j < |msgs| && msgs[j] == x;
      }
    }
  }

  /** A batch that was fetched reaches the end of decoding. */
  lemma {:induction false} BatchDecoded(cfg: Config, w: World, msgs: seq<Message>, backoff: nat, m: Message) returns (tape: seq<Reply>)
    requires cfg.hasDlq && !Bad(m) && NoTwinIn(msgs, m) && Untouched(w, m)
    ensures
      var s1 := Run(cfg, Enter(w, Gathered(cfg, msgs), backoff), tape);
      && s1.phase == (if EventsIn(msgs) == [] then Committing(msgs) else Handling(msgs))
      && s1.world.cursor == w.cursor && Untouched(s1.world, m)
  {
    var s := Enter(w, Gathered(cfg, msgs), backoff);
    var closed := CloseBatch(cfg, w, msgs, backoff);
    var decoded := DecodeThrough(cfg, w, msgs, 0, backoff);
    tape := closed + decoded;
    RunConcat(cfg, s, closed, decoded);
    RejectsLeaveUntouched(w.dlq, msgs, m);
  }

  /** A decoded batch that does not hold the message is handled and committed. */
  lemma {:induction false} BatchSettled(cfg: Config, s: State, msgs: seq<Message>, m: Message) returns (tape: seq<Reply>)
    requires s.phase == Handling(msgs) || s.phase == Committing(msgs)
    requires m !in msgs && Untouched(s.world, m)
    ensures
      var s1 := Run(cfg, s, tape);
      s1.phase == Fetching && s1.world.cursor == s.world.cursor && Untouched(s1.world, m)
  {
    if s.phase.Committing? {
      tape := [SMOOTH];
      OneReply(cfg, s, SMOOTH);
    } else {
      tape := [SMOOTH] + [SMOOTH];
      OneReply(cfg, s, SMOOTH);
      Snoc(cfg, s, [SMOOTH], SMOOTH);
    }
  }

  /** The consumer gets past one message that is neither `m` nor its twin. */
  lemma {:induction false} PassOne(cfg: Config, s: State, p: nat, m: Message) returns (tape: seq<Reply>)
    requires cfg.hasDlq && s.phase == Fetching && Available(cfg, s.world.cursor, p) && !Bad(m) && Untouched(s.world, m)
    requires var x := NextMessage(cfg, s.world.cursor, p); x != m && !Twin(x, m)
    ensures
      var s1 := Run(cfg, s, tape);
      s1.phase == Fetching && s1.world.cursor == s.world.cursor[p := s.world.cursor[p] + 1] && Untouched(s1.world, m)
  {
    var w, msgs := s.world, Stretch(cfg, p, s.world.cursor[p], 1);
    var w1 := w.(cursor := w.cursor[p := w.cursor[p] + 1]);
    var fetched := FetchStretch(cfg, w, p, 1, s.backoff);
    assert msgs == [] + [NextMessage(cfg, w.cursor, p)] == [NextMessage(cfg, w.cursor, p)];
    assert NoTwinIn(msgs, m) && Untouched(w1, m) && m !in msgs;
    var decoded := BatchDecoded(cfg, w1, msgs, s.backoff, m);
    var s1 := Run(cfg, Enter(w1, Gathered(cfg, msgs), s.backoff), decoded);
    var settled := BatchSettled(cfg, s1, msgs, m);
    tape := fetched + decoded + settled;
    RunConcat(cfg, s, fetched, decoded);
    RunConcat(cfg, s, fetched + decoded, settled);
  }

  /** ... and past any number of them. */
  lemma {:induction false} PassTo(cfg: Config, s: State, p: nat, k: nat, m: Message) returns (tape: seq<Reply>)
    requires cfg.hasDlq && s.phase == Fetching && !Bad(m) && Untouched(s.world, m)
    requires p < |cfg.log| && p < |s.world.cursor| && s.world.cursor[p] <= k <= |cfg.log[p]|
    requires NoTwinBelow(cfg, p, k, m) && (m.partition == p ==> k <= m.offset)
    ensures
      var s1 := Run(cfg, s, tape);
      s1.phase == Fetching && s1.world.cursor == s.world.cursor[p := k] && Untouched(s1.world, m)
    decreases k - s.world.cursor[p]
  {
    if s.world.cursor[p] == k {
      tape := [];
      assert s.world.cursor[p := k] == s.world.cursor;
    } else {
      assert !Twin(At(cfg, p, s.world.cursor[p]), m);
      var first := PassOne(cfg, s, p, m);
      var s1 := Run(cfg, s, first);
      var rest := PassTo(cfg, s1, p, k, m);
      tape := first + rest;
      RunConcat(cfg, s, first, rest);
      assert s1.world.cursor[p := k] == s.world.cursor[p := k];
    }
  }

  /** With the cursors at the two messages, the next batch puts the second at risk. */
  lemma {:induction false} BatchAtRisk(cfg: Config, s: State, q: nat, r: nat, p: nat, o: nat) returns (tape: seq<Reply>)
    requires cfg.hasDlq && cfg.batchSize >= 2 && Lossy(cfg, q, r, p, o) && Untouched(s.world, At(cfg, p, o))
    requires s.phase == Fetching && |s.world.cursor| == |cfg.log|
    requires s.world.cursor[q] == r && (q != p ==> s.world.cursor[p] == o)
    ensures
      var s1 := Run(cfg, s, tape);
      s1.phase.Handling? && AtRisk(s1.world, s1.phase.msgs, At(cfg, p, o))
  {
    var w, f, m := s.world, At(cfg, q, r), At(cfg, p, o);
    var fetched, msgs, w1;
    if q == p {
      var n := o - r + 1;
      fetched := FetchStretch(cfg, w, p, n, s.backoff);
      msgs, w1 := Stretch(cfg, p, r, n), w.(cursor := w.cursor[p := r + n]);
      forall i | 0 <= i < n ensures msgs[i] == At(cfg, p, r + i) && !Twin(msgs[i], m) {
        StretchAt(cfg, p, r, n, i);
      }
      assert msgs[n - 1] == m && msgs[0] == At(cfg, p, r + 0);
    } else {
      FetchPair(cfg, w, q, p, s.backoff);
      fetched := [Pick(q)] + [Pick(p)];
      msgs, w1 := [f, m], w.(cursor := w.cursor[q := r + 1][p := o + 1]);
      assert msgs[1] == m;
      assert NoTwinIn(msgs, m);
    }
    assert msgs[0] == f && m in msgs;
    assert FirstWithTag(msgs, 0, m) && Confused(msgs[0], m);
    if EventsIn(msgs) == [] {
      NoEventsAllBad(msgs, m);
    }
    var decoded := BatchDecoded(cfg, w1, msgs, s.backoff, m);
    tape := fetched + decoded;
    RunConcat(cfg, s, fetched, decoded);
  }

  lemma {:induction false} LossyIsUnsafe(cfg: Config, q: nat, r: nat, p: nat, o: nat)
    requires cfg.hasDlq && cfg.batchSize >= 2 && Lossy(cfg, q, r, p, o)
    ensures !SafeBatches(cfg)
  {
    var s0, m := Restart(Fresh(cfg)), At(cfg, p, o);
    var tape := PassTo(cfg, s0, q, r, m);
    if q != p {
      var more := PassTo(cfg, Run(cfg, s0, tape), p, o, m);
      RunConcat(cfg, s0, tape, more);
      tape := tape + more;
    }
    var last := BatchAtRisk(cfg, Run(cfg, s0, tape), q, r, p, o);
    RunConcat(cfg, s0, tape, last);
    assert Reach(cfg, [], tape + last) == Run(cfg, s0, tape + last);
    assert !Safe(cfg, Reach(cfg, [], tape + last));
  }

  /** A batch at risk occurs in some run exactly when the log is lossy. */
  lemma {:induction false} SafeIffLossless(cfg: Config)
    ensures SafeBatches(cfg) <==> Lossless(cfg)
  {
    if !Lossless(cfg) {
      var q: nat, r: nat, p: nat, o: nat :| Lossy(cfg, q, r, p, o);
      LossyIsUnsafe(cfg, q, r, p, o);
    } else if !SafeBatches(cfg) {
      var tapes, tape :| !Safe(cfg, Reach(cfg, tapes, tape));
      var s := Reach(cfg, tapes, tape);
      var m :| AtRisk(s.world, s.phase.msgs, m);
      ReachTidy(cfg, tapes, tape);
      var q, r := AtRiskIsLossy(cfg, s, m);
      assert false;
    }
  }

  /**
   The batch consumer accounts for every committed offset, in every run with any failures and crashes,
   exactly when its log is lossless.
   */
  lemma {:induction false} NothingSkippedIffLossless(cfg: Config)
    ensures (forall tapes :: CommitsCovered(cfg, Lives(cfg, Fresh(cfg), tapes))) <==> Lossless(cfg)
  {
    CoverageIff(cfg);
    SafeIffLossless(cfg);
  }
}
