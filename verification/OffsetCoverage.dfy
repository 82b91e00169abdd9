/** Nothing is skipped: what every offset below a committed one has been through. */
module OffsetCoverage {
  import opened Events
  import opened BatchConsumer
  import opened ConfusedKeys

  predicate InLog(cfg: Config, p: nat, o: nat) {
    p < |cfg.log| && o < |cfg.log[p]|
  }

  function At(cfg: Config, p: nat, o: nat): Message
    requires InLog(cfg, p, o)
  {
    Message(p, o, cfg.log[p][o])
  }

  /** The terminal error its batch was settled by left the message unlisted, or its identity was dead-lettered. */
  predicate Judged(w: World, m: Message) {
    exists i :: 0 <= i < |w.verdicts| && m in w.verdicts[i].messages && (Listed(w.verdicts[i].failed, m) ==> Buried(w.dlq, m))
  }

  /** What must have happened to a message before an offset above it may be committed. */
  predicate Accounted(w: World, m: Message) {
    (Bad(m) && m in w.dlq) || m in w.handled || Judged(w, m)
  }

  /** A valid message that the next write could pass over: shadowed, and with nothing to account for it so far. */
  predicate AtRisk(w: World, msgs: seq<Message>, m: Message) {
    m in msgs && !Bad(m) && Shadowed(msgs, m) && !Accounted(w, m) && !Buried(w.dlq, m)
  }

  ghost predicate NoneAtRisk(w: World, msgs: seq<Message>) {
    forall m :: !AtRisk(w, msgs, m)
  }

  /** No message of a batch that is with the handler is at risk. */
  ghost predicate Safe(cfg: Config, s: State) {
    cfg.hasDlq && s.phase.Handling? ==> NoneAtRisk(s.world, s.phase.msgs)
  }

  // ---------------------------------------------------------------- the invariant

  function InHand(phase: Phase): seq<Message> {
    match phase
    case Fetching => []
    case FetchWait => []
    case Stopped => []
    case Collecting(msgs) => msgs
    case Rejecting(msgs, _) => msgs
    case DecodeWait(msgs) => msgs
    case Handling(msgs) => msgs
    case Burying(msgs, _, _) => msgs
    case HandleWait(msgs) => msgs
    case Committing(msgs) => msgs
    case CommitWait(msgs) => msgs
  }

  predicate Shaped(cfg: Config, w: World) {
    && |w.cursor| == |w.committed| == |cfg.log|
    && forall p :: 0 <= p < |cfg.log| ==> w.committed[p] <= w.cursor[p] <= |cfg.log[p]|
  }

  predicate Genuine(cfg: Config, w: World, m: Message) {
    && InLog(cfg, m.partition, m.offset) && m == At(cfg, m.partition, m.offset)
    && m.partition < |w.cursor| && m.offset < w.cursor[m.partition]
  }

  ghost predicate CommitsCovered(cfg: Config, w: World) {
    forall p: nat, o: nat :: InLog(cfg, p, o) && p < |w.committed| && o < w.committed[p] ==> Accounted(w, At(cfg, p, o))
  }

  ghost predicate FetchesTracked(cfg: Config, w: World, msgs: seq<Message>) {
    forall p: nat, o: nat :: InLog(cfg, p, o) && p < |w.cursor| && o < w.cursor[p] ==> Accounted(w, At(cfg, p, o)) || At(cfg, p, o) in msgs
  }

  /** Every bad message before index `i` is in the dead-letter topic. */
  predicate RejectedUpTo(w: World, msgs: seq<Message>, i: nat) {
    i <= |msgs| && forall j :: 0 <= j < i && Bad(msgs[j]) ==> msgs[j] in w.dlq
  }

  ghost predicate PhaseOk(w: World, phase: Phase) {
    match phase
    case Rejecting(msgs, i) => i < |msgs| && RejectedUpTo(w, msgs, i)
    case Handling(msgs) => RejectedUpTo(w, msgs, |msgs|)
    case HandleWait(msgs) => RejectedUpTo(w, msgs, |msgs|)
    case Burying(msgs, failed, letters) =>
      RejectedUpTo(w, msgs, |msgs|) && DeadLetters(msgs, failed) == Some(letters) && NoneAtRisk(w, msgs)
    case Committing(msgs) => forall m :: m in msgs ==> Accounted(w, m)
    case CommitWait(msgs) => forall m :: m in msgs ==> Accounted(w, m)
    case _ => true
  }

  ghost predicate Inv(cfg: Config, s: State) {
    && Shaped(cfg, s.world)
    && CommitsCovered(cfg, s.world)
    && (forall m :: m in InHand(s.phase) ==> Genuine(cfg, s.world, m))
    && (s.phase.Stopped? || FetchesTracked(cfg, s.world, InHand(s.phase)))
    && PhaseOk(s.world, s.phase)
  }

  /** The record of what happened only grows. */
  ghost predicate Grows(w: World, w1: World) {
    w.dlq <= w1.dlq && w.handled <= w1.handled && w.verdicts <= w1.verdicts
  }

  lemma {:induction false} AccountedGrows(w: World, w1: World, m: Message)
    requires Grows(w, w1) && Accounted(w, m)
    ensures Accounted(w1, m)
  {
    assert forall i :: 0 <= i < |w.dlq| ==> w.dlq[i] == w1.dlq[i];
    if !(Bad(m) && m in w.dlq) && m !in w.handled {
      var i :| 0 <= i < |w.verdicts| && m in w.verdicts[i].messages && (Listed(w.verdicts[i].failed, m) ==> Buried(w.dlq, m));
      assert w1.verdicts[i] == w.verdicts[i];
    }
  }

  /** A world that differs in its record only keeps what is known of offsets. */
  lemma {:induction false} OffsetsKept(cfg: Config, w: World, w1: World, msgs: seq<Message>)
    requires Shaped(cfg, w) && CommitsCovered(cfg, w)
    requires Grows(w, w1) && w1.cursor == w.cursor && w1.committed == w.committed
    ensures Shaped(cfg, w1) && CommitsCovered(cfg, w1)
    ensures FetchesTracked(cfg, w, msgs) ==> FetchesTracked(cfg, w1, msgs)
    ensures forall m :: Genuine(cfg, w, m) ==> Genuine(cfg, w1, m)
  {
    forall p: nat, o: nat | InLog(cfg, p, o) && Accounted(w, At(cfg, p, o)) ensures Accounted(w1, At(cfg, p, o)) {
      AccountedGrows(w, w1, At(cfg, p, o));
    }
  }

  lemma {:induction false} NoEventsAllBad(msgs: seq<Message>, m: Message)
    requires EventsIn(msgs) == [] && m in msgs
    ensures Bad(m)
  {
    if m != msgs[0] {
      NoEventsAllBad(msgs[1..], m);
    }
  }

  lemma {:induction false} DecodeOk(cfg: Config, w: World, msgs: seq<Message>, i: nat)
    requires RejectedUpTo(w, msgs, i)
    ensures PhaseOk(Settle(w, Decode(cfg, msgs, i)), Decode(cfg, msgs, i))
    ensures InHand(Decode(cfg, msgs, i)) == msgs && !Decode(cfg, msgs, i).Stopped?
    decreases |msgs| - i
  {
    if i == |msgs| {
      if EventsIn(msgs) == [] {
        forall m | m in msgs ensures Accounted(Reached(w), m) {
          NoEventsAllBad(msgs, m);
          var j :| 0 <= j < |msgs| && msgs[j] == m;
        }
      }
    } else if !Bad(msgs[i]) {
      DecodeOk(cfg, w, msgs, i + 1);
    }
  }

  /** Entering a phase of decoding, with everything else unchanged. */
  lemma {:induction false} EnterKeeps(cfg: Config, w: World, msgs: seq<Message>, i: nat, backoff: nat)
    requires Shaped(cfg, w) && CommitsCovered(cfg, w) && FetchesTracked(cfg, w, msgs)
    requires forall m :: m in msgs ==> Genuine(cfg, w, m)
    requires RejectedUpTo(w, msgs, i)
    ensures Inv(cfg, Enter(w, Decode(cfg, msgs, i), backoff))
  {
    DecodeOk(cfg, w, msgs, i);
    OffsetsKept(cfg, w, Settle(w, Decode(cfg, msgs, i)), msgs);
  }

  lemma {:induction false} FetchTracked(cfg: Config, s: State, r: Reply)
    requires Inv(cfg, s) && (s.phase.Fetching? || s.phase.Collecting?) && Available(cfg, s.world.cursor, r.partition)
    ensures
      var w1 := Fetched(cfg, s.world, r.partition);
      var msgs := InHand(s.phase) + [NextMessage(cfg, s.world.cursor, r.partition)];
      && Shaped(cfg, w1) && CommitsCovered(cfg, w1) && FetchesTracked(cfg, w1, msgs)
      && forall m :: m in msgs ==> Genuine(cfg, w1, m)
  {
    var w, w1 := s.world, Fetched(cfg, s.world, r.partition);
    var msgs := InHand(s.phase) + [NextMessage(cfg, w.cursor, r.partition)];
    forall p: nat, o: nat | InLog(cfg, p, o) && Accounted(w, At(cfg, p, o)) ensures Accounted(w1, At(cfg, p, o)) {
      AccountedGrows(w, w1, At(cfg, p, o));
    }
    forall m | m in msgs ensures Genuine(cfg, w1, m) {
      assert m in InHand(s.phase) ==> Genuine(cfg, w, m);
    }
  }

  lemma {:induction false} FetchKeeps(cfg: Config, s: State, r: Reply)
    requires Inv(cfg, s) && (s.phase.Fetching? || s.phase.Collecting?) && Available(cfg, s.world.cursor, r.partition)
    ensures
      var msgs := InHand(s.phase) + [NextMessage(cfg, s.world.cursor, r.partition)];
      Inv(cfg, Enter(Fetched(cfg, s.world, r.partition), Gathered(cfg, msgs), s.backoff))
  {
    FetchTracked(cfg, s, r);
    EnterKeeps(cfg, Fetched(cfg, s.world, r.partition), InHand(s.phase) + [NextMessage(cfg, s.world.cursor, r.partition)], 0, s.backoff);
  }

  // ---------------------------------------------------------------- settling a batch

  lemma {:induction false} BuriedGrows(dlq: seq<Message>, letters: seq<Message>, m: Message)
    requires Buried(letters, m)
    ensures Buried(dlq + letters, m)
  {
    var i :| 0 <= i < |letters| && Decodable(letters[i]) && KeyOf(letters[i].record.event) == KeyOf(m.record.event);
    assert (dlq + letters)[|dlq| + i] == letters[i];
  }

  /** A successful write accounts for every message of a batch with none at risk. */
  lemma {:induction false} BuryingSettles(cfg: Config, s: State)
    requires Inv(cfg, s) && s.phase.Burying?
    ensures
      var Burying(msgs, failed, letters) := s.phase;
      var w1 := s.world.(dlq := s.world.dlq + letters, verdicts := s.world.verdicts + [Verdict(msgs, failed)]);
      forall m :: m in msgs ==> Accounted(w1, m)
  {
    var w := s.world;
    var Burying(msgs, failed, letters) := s.phase;
    var w1 := w.(dlq := w.dlq + letters, verdicts := w.verdicts + [Verdict(msgs, failed)]);
    forall m | m in msgs ensures Accounted(w1, m) {
      if Bad(m) {
        var j :| 0 <= j < |msgs| && msgs[j] == m;
        assert m in w.dlq;
      } else if Accounted(w, m) {
        AccountedGrows(w, w1, m);
      } else {
        assert !AtRisk(w, msgs, m);
        if Listed(failed, m) {
          if !Shadowed(msgs, m) {
            LettersCoverListed(msgs, failed, letters, m);
            BuriedGrows(w.dlq, letters, m);
          } else {
            BuriedStays(w.dlq, letters, m);
          }
        }
        assert w1.verdicts[|w.verdicts|] == Verdict(msgs, failed);
      }
    }
  }

  lemma {:induction false} BuriedStays(dlq: seq<Message>, letters: seq<Message>, m: Message)
    requires Buried(dlq, m)
    ensures Buried(dlq + letters, m)
  {
    var i :| 0 <= i < |dlq| && Decodable(dlq[i]) && KeyOf(dlq[i].record.event) == KeyOf(m.record.event);
    assert (dlq + letters)[i] == dlq[i];
  }

  /** A commit reaches no further than what has been fetched. */
  lemma {:induction false} CommitWithin(cfg: Config, w: World, committed: seq<nat>, msgs: seq<Message>)
    requires |committed| == |w.cursor| && forall p :: 0 <= p < |committed| ==> committed[p] <= w.cursor[p]
    requires forall m :: m in msgs ==> Genuine(cfg, w, m)
    ensures forall p :: 0 <= p < |committed| ==> committed[p] <= Commit(committed, msgs)[p] <= w.cursor[p]
    decreases |msgs|
  {
    if msgs != [] {
      var m := msgs[0];
      assert Genuine(cfg, w, m);
      CommitWithin(cfg, w, Raise(committed, m), msgs[1..]);
    }
  }

  lemma {:induction false} CommitKeeps(cfg: Config, w: World, msgs: seq<Message>)
    requires Shaped(cfg, w) && CommitsCovered(cfg, w) && FetchesTracked(cfg, w, msgs)
    requires forall m :: m in msgs ==> Genuine(cfg, w, m) && Accounted(w, m)
    ensures
      var w1 := w.(committed := Commit(w.committed, msgs));
      && Shaped(cfg, w1) && CommitsCovered(cfg, w1) && FetchesTracked(cfg, w1, [])
      && forall m :: m in msgs ==> Genuine(cfg, w1, m) && Accounted(w1, m)
  {
    var w1 := w.(committed := Commit(w.committed, msgs));
    CommitWithin(cfg, w, w.committed, msgs);
    forall p: nat, o: nat | InLog(cfg, p, o) && p < |w.cursor| && o < w.cursor[p] ensures Accounted(w1, At(cfg, p, o)) {
      AccountedGrows(w, w1, At(cfg, p, o));
    }
    forall m | m in msgs ensures Accounted(w1, m) {
      AccountedGrows(w, w1, m);
    }
  }

  // ---------------------------------------------------------------- steps and runs

  lemma {:induction false} HandlingKeeps(cfg: Config, s: State, r: Reply)
    requires Inv(cfg, s) && s.phase.Handling? && (r.failed.Some? ==> Safe(cfg, s))
    ensures Inv(cfg, Step(cfg, s, r))
  {
    var w, msgs, s1 := s.world, s.phase.msgs, Step(cfg, s, r);
    OffsetsKept(cfg, w, s1.world, msgs);
    if r.ok {
      forall m | m in msgs ensures Accounted(s1.world, m) {
        var j :| 0 <= j < |msgs| && msgs[j] == m;
      }
    }
    if s1.phase.Burying? {
      forall m ensures !AtRisk(s1.world, msgs, m) {
        assert !AtRisk(w, msgs, m);
        if Accounted(w, m) {
          AccountedGrows(w, s1.world, m);
        }
      }
    }
  }

  lemma {:induction false} RejectingKeeps(cfg: Config, s: State, r: Reply)
    requires Inv(cfg, s) && s.phase.Rejecting?
    ensures Inv(cfg, Step(cfg, s, r))
  {
    var w, msgs, i := s.world, s.phase.msgs, s.phase.index;
    var w1 := w.(dlq := w.dlq + [msgs[i]]);
    OffsetsKept(cfg, w, w1, msgs);
    EnterKeeps(cfg, w1, msgs, i + 1, s.backoff);
  }

  lemma {:induction false} BuryingKeeps(cfg: Config, s: State, r: Reply)
    requires Inv(cfg, s) && s.phase.Burying?
    ensures Inv(cfg, Step(cfg, s, r))
  {
    OffsetsKept(cfg, s.world, Step(cfg, s, r).world, s.phase.msgs);
    BuryingSettles(cfg, s);
  }

  lemma {:induction false} StepKeeps(cfg: Config, s: State, r: Reply)
    requires Inv(cfg, s) && (r.failed.Some? ==> Safe(cfg, s))
    ensures Inv(cfg, Step(cfg, s, r))
  {
    var w := s.world;
    match s.phase
    case Fetching =>
      if r.ok && Available(cfg, w.cursor, r.partition) {
        FetchKeeps(cfg, s, r);
        assert [] + [NextMessage(cfg, w.cursor, r.partition)] == [NextMessage(cfg, w.cursor, r.partition)];
      }
    case Collecting(msgs) =>
      if !r.expired && r.ok && Available(cfg, w.cursor, r.partition) {
        FetchKeeps(cfg, s, r);
      } else {
        EnterKeeps(cfg, w, msgs, 0, s.backoff);
      }
    case Rejecting(_, _) => RejectingKeeps(cfg, s, r);
    case DecodeWait(msgs) => EnterKeeps(cfg, w, msgs, 0, NextBackoff(s.backoff));
    case Handling(msgs) => HandlingKeeps(cfg, s, r);
    case Burying(_, _, _) => BuryingKeeps(cfg, s, r);
    case Committing(msgs) => CommitKeeps(cfg, w, msgs);
    case FetchWait =>
    case HandleWait(msgs) =>
    case CommitWait(msgs) =>
    case Stopped =>
  }

  lemma {:induction false} RunKeeps(cfg: Config, s: State, tape: seq<Reply>)
    requires Inv(cfg, s) && forall n :: 0 <= n < |tape| ==> Safe(cfg, Run(cfg, s, tape[..n]))
    ensures Inv(cfg, Run(cfg, s, tape))
    decreases |tape|
  {
    if tape != [] {
      var s1, rest := Step(cfg, s, tape[0]), tape[1..];
      assert Run(cfg, s, tape[..0]) == s;
      StepKeeps(cfg, s, tape[0]);
      forall n | 0 <= n < |rest| ensures Safe(cfg, Run(cfg, s1, rest[..n])) {
        assert tape[..n + 1][0] == tape[0] && tape[..n + 1][1..] == rest[..n];
        assert Run(cfg, s, tape[..n + 1]) == Run(cfg, s1, rest[..n]);
      }
      RunKeeps(cfg, s1, rest);
    }
  }

  // ---------------------------------------------------------------- lives

  /** The state a consumer is in after earlier lives and a stretch of its present one. */
  function Reach(cfg: Config, tapes: seq<seq<Reply>>, tape: seq<Reply>): State {
    Run(cfg, Restart(Lives(cfg, Fresh(cfg), tapes)), tape)
  }

  lemma {:induction false} LivesSnoc(cfg: Config, w: World, tapes: seq<seq<Reply>>, tape: seq<Reply>)
    ensures Lives(cfg, w, tapes + [tape]) == Run(cfg, Restart(Lives(cfg, w, tapes)), tape).world
    decreases |tapes|
  {
    if tapes == [] {
      assert ([] + [tape])[0] == tape && ([] + [tape])[1..] == [];
    } else {
      assert (tapes + [tape])[1..] == tapes[1..] + [tape];
      LivesSnoc(cfg, Run(cfg, Restart(w), tapes[0]).world, tapes[1..], tape);
    }
  }

  /** No batch that occurs in any run has a message at risk. */
  ghost predicate SafeBatches(cfg: Config) {
    forall tapes, tape :: Safe(cfg, Reach(cfg, tapes, tape))
  }

  lemma {:induction false} RestartKeeps(cfg: Config, w: World)
    requires Shaped(cfg, w) && CommitsCovered(cfg, w)
    ensures Inv(cfg, Restart(w))
  {
    var w1 := Restart(w).world;
    forall p: nat, o: nat | InLog(cfg, p, o) && p < |w1.committed| && o < w1.committed[p]
      ensures Accounted(w1, At(cfg, p, o))
    {
      AccountedGrows(w, w1, At(cfg, p, o));
    }
  }

  lemma {:induction false} LivesKeep(cfg: Config, tapes: seq<seq<Reply>>)
    requires SafeBatches(cfg)
    ensures Shaped(cfg, Lives(cfg, Fresh(cfg), tapes)) && CommitsCovered(cfg, Lives(cfg, Fresh(cfg), tapes))
  {
    if tapes != [] {
      var before, tape := tapes[..|tapes| - 1], tapes[|tapes| - 1];
      LivesKeep(cfg, before);
      assert tapes == before + [tape];
      LivesSnoc(cfg, Fresh(cfg), before, tape);
      RestartKeeps(cfg, Lives(cfg, Fresh(cfg), before));
      forall n | 0 <= n < |tape| ensures Safe(cfg, Run(cfg, Restart(Lives(cfg, Fresh(cfg), before)), tape[..n])) {
        assert Safe(cfg, Reach(cfg, before, tape[..n]));
      }
      RunKeeps(cfg, Restart(Lives(cfg, Fresh(cfg), before)), tape);
    }
  }

  /**
   No skipped offsets: after any number of consumer lives, under every pattern of failures,
   cancellations and crashes, each offset below a committed one was malformed or invalid and written
   to the dead-letter topic, or was in a batch whose handler call returned without error, or was in a
   batch settled by a terminal error that left it unlisted or whose dead letters hold its identity.
   */
  lemma {:induction false} NoSkippedOffsets(cfg: Config, tapes: seq<seq<Reply>>, p: nat, o: nat)
    requires SafeBatches(cfg)
    requires p < |Lives(cfg, Fresh(cfg), tapes).committed| && o < Lives(cfg, Fresh(cfg), tapes).committed[p]
    ensures InLog(cfg, p, o) && Accounted(Lives(cfg, Fresh(cfg), tapes), At(cfg, p, o))
  {
    LivesKeep(cfg, tapes);
  }
}
