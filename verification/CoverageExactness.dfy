/** Exactly when the batch consumer skips nothing. */
module CoverageExactness {
  import opened Events
  import opened BatchConsumer
  import opened DeadLettering
  import opened ConfusedKeys
  import opened OffsetCoverage

  // ---------------------------------------------------------------- what holds of every reachable state

  /** Offsets are in order and the messages in hand are from the log, whether or not anything was skipped. */
  ghost predicate WellShaped(cfg: Config, s: State) {
    Shaped(cfg, s.world) && forall m :: m in InHand(s.phase) ==> Genuine(cfg, s.world, m)
  }

  lemma {:induction false} DecodeInHand(cfg: Config, msgs: seq<Message>, i: nat)
    requires i <= |msgs|
    ensures InHand(Decode(cfg, msgs, i)) == msgs
    decreases |msgs| - i
  {
    if i < |msgs| {
      DecodeInHand(cfg, msgs, i + 1);
    }
  }

  lemma {:induction false} EnterShaped(cfg: Config, w: World, msgs: seq<Message>, i: nat, backoff: nat)
    requires Shaped(cfg, w) && i <= |msgs| && forall m :: m in msgs ==> Genuine(cfg, w, m)
    ensures WellShaped(cfg, Enter(w, Decode(cfg, msgs, i), backoff))
  {
    DecodeInHand(cfg, msgs, i);
    var w1 := Settle(w, Decode(cfg, msgs, i));
    forall m | m in msgs ensures Genuine(cfg, w1, m) {
      assert Genuine(cfg, w, m);
    }
  }

  lemma {:induction false} FetchShaped(cfg: Config, s: State, p: nat)
    requires WellShaped(cfg, s) && Available(cfg, s.world.cursor, p)
    ensures
      var msgs := InHand(s.phase) + [NextMessage(cfg, s.world.cursor, p)];
      WellShaped(cfg, Enter(Fetched(cfg, s.world, p), Gathered(cfg, msgs), s.backoff))
  {
    var w1, msgs := Fetched(cfg, s.world, p), InHand(s.phase) + [NextMessage(cfg, s.world.cursor, p)];
    forall m | m in msgs ensures Genuine(cfg, w1, m) {
      assert m in InHand(s.phase) ==> Genuine(cfg, s.world, m);
    }
    EnterShaped(cfg, w1, msgs, 0, s.backoff);
  }

  lemma {:induction false} RejectShaped(cfg: Config, s: State, r: Reply)
    requires WellShaped(cfg, s) && s.phase.Rejecting?
    ensures WellShaped(cfg, Step(cfg, s, r))
  {
    var msgs, i := s.phase.msgs, s.phase.index;
    if i < |msgs| {
      var w1 := s.world.(dlq := s.world.dlq + [msgs[i]]);
      forall m | m in msgs ensures Genuine(cfg, w1, m) {
        assert Genuine(cfg, s.world, m);
      }
      EnterShaped(cfg, w1, msgs, i + 1, s.backoff);
    }
  }

  lemma {:induction false} SameOffsetsShaped(cfg: Config, s: State, s1: State)
    requires WellShaped(cfg, s) && InHand(s1.phase) == InHand(s.phase)
    requires s1.world.cursor == s.world.cursor && s1.world.committed == s.world.committed
    ensures WellShaped(cfg, s1)
  {
    forall m | m in InHand(s1.phase) ensures Genuine(cfg, s1.world, m) {
      assert Genuine(cfg, s.world, m);
    }
  }

  lemma {:induction false} StepShaped(cfg: Config, s: State, r: Reply)
    requires WellShaped(cfg, s)
    ensures WellShaped(cfg, Step(cfg, s, r))
  {
    match s.phase
    case Fetching =>
      if r.ok && Available(cfg, s.world.cursor, r.partition) {
        FetchShaped(cfg, s, r.partition);
        assert [] + [NextMessage(cfg, s.world.cursor, r.partition)] == [NextMessage(cfg, s.world.cursor, r.partition)];
      }
    case Collecting(msgs) =>
      if !r.expired && r.ok && Available(cfg, s.world.cursor, r.partition) {
        FetchShaped(cfg, s, r.partition);
      } else {
        EnterShaped(cfg, s.world, msgs, 0, s.backoff);
      }
    case Rejecting(_, _) => RejectShaped(cfg, s, r);
    case DecodeWait(msgs) => EnterShaped(cfg, s.world, msgs, 0, NextBackoff(s.backoff));
    case Committing(msgs) => CommitWithin(cfg, s.world, s.world.committed, msgs);
    case Handling(_) => SameOffsetsShaped(cfg, s, Step(cfg, s, r));
    case Burying(_, _, _) => SameOffsetsShaped(cfg, s, Step(cfg, s, r));
    case FetchWait =>
    case HandleWait(_) =>
    case CommitWait(_) =>
    case Stopped =>
  }

  lemma {:induction false} RunShaped(cfg: Config, s: State, tape: seq<Reply>)
    requires WellShaped(cfg, s)
    ensures WellShaped(cfg, Run(cfg, s, tape))
    decreases |tape|
  {
    if tape != [] {
      StepShaped(cfg, s, tape[0]);
      RunShaped(cfg, Step(cfg, s, tape[0]), tape[1..]);
    }
  }

  lemma {:induction false} LivesShaped(cfg: Config, tapes: seq<seq<Reply>>)
    ensures Shaped(cfg, Lives(cfg, Fresh(cfg), tapes))
  {
    if tapes != [] {
      var before, tape := tapes[..|tapes| - 1], tapes[|tapes| - 1];
      LivesShaped(cfg, before);
      assert tapes == before + [tape];
      LivesSnoc(cfg, Fresh(cfg), before, tape);
      RunShaped(cfg, Restart(Lives(cfg, Fresh(cfg), before)), tape);
    }
  }

  lemma {:induction false} ReachShaped(cfg: Config, tapes: seq<seq<Reply>>, tape: seq<Reply>)
    ensures WellShaped(cfg, Reach(cfg, tapes, tape))
  {
    LivesShaped(cfg, tapes);
    RunShaped(cfg, Restart(Lives(cfg, Fresh(cfg), tapes)), tape);
  }

  // ---------------------------------------------------------------- logs without confusion

  /** No two messages of the log share a tag without sharing tenant and event. */
  ghost predicate Unambiguous(cfg: Config) {
    forall p: nat, o: nat, q: nat, r: nat :: InLog(cfg, p, o) && InLog(cfg, q, r) ==> !Confused(At(cfg, p, o), At(cfg, q, r))
  }

  /** Tenant identifiers without a NUL, as the generated ones are, leave no room for confusion. */
  lemma {:induction false} CleanTenantsUnambiguous(cfg: Config)
    requires forall p: nat, o: nat :: InLog(cfg, p, o) && Decodable(At(cfg, p, o)) ==> NulFree(At(cfg, p, o).record.event.tenant)
    ensures Unambiguous(cfg)
  {
    forall p: nat, o: nat, q: nat, r: nat | InLog(cfg, p, o) && InLog(cfg, q, r)
      ensures !Confused(At(cfg, p, o), At(cfg, q, r))
    {
      var a, b := At(cfg, p, o), At(cfg, q, r);
      if Confused(a, b) {
        JoinedInjective(a.record.event.tenant, a.record.event.id, b.record.event.tenant, b.record.event.id);
      }
    }
  }

  /** On a log without confused messages every batch that occurs is safe. */
  lemma {:induction false} UnambiguousIsSafe(cfg: Config)
    requires Unambiguous(cfg)
    ensures SafeBatches(cfg)
  {
    forall tapes, tape ensures Safe(cfg, Reach(cfg, tapes, tape)) {
      var s := Reach(cfg, tapes, tape);
      ReachShaped(cfg, tapes, tape);
      if s.phase.Handling? {
        var msgs := s.phase.msgs;
        forall a, b | a in msgs && b in msgs ensures !Confused(a, b) {
          assert a in InHand(s.phase) && b in InHand(s.phase);
          assert !Confused(At(cfg, a.partition, a.offset), At(cfg, b.partition, b.offset));
        }
        assert forall m :: m in msgs ==> !Shadowed(msgs, m);
      }
    }
  }

  // ---------------------------------------------------------------- skipping

  lemma {:induction false} RunConcat(cfg: Config, s: State, a: seq<Reply>, b: seq<Reply>)
    ensures Run(cfg, s, a + b) == Run(cfg, Run(cfg, s, a), b)
    decreases |a|
  {
    if a == [] {
      assert a + b == b;
    } else {
      assert (a + b)[1..] == a[1..] + b;
      RunConcat(cfg, Step(cfg, s, a[0]), a[1..], b);
    }
  }

  lemma {:induction false} ThreeSteps(cfg: Config, s: State, a: Reply, b: Reply, c: Reply)
    ensures Run(cfg, s, [a, b, c]) == Step(cfg, Step(cfg, Step(cfg, s, a), b), c)
  {
    assert [a, b, c][1..] == [b, c] && [b, c][1..] == [c] && [c][1..] == [];
    var s2 := Step(cfg, Step(cfg, s, a), b);
    assert Run(cfg, s2, [c]) == Run(cfg, Step(cfg, s2, c), []);
  }

  lemma {:induction false} CommitOnlyRaises(committed: seq<nat>, msgs: seq<Message>, p: nat)
    requires p < |committed|
    ensures committed[p] <= Commit(committed, msgs)[p]
    decreases |msgs|
  {
    if msgs != [] {
      CommitOnlyRaises(Raise(committed, msgs[0]), msgs[1..], p);
    }
  }

  lemma {:induction false} CommitReaches(committed: seq<nat>, msgs: seq<Message>, m: Message)
    requires m in msgs && m.partition < |committed|
    ensures m.offset < Commit(committed, msgs)[m.partition]
    decreases |msgs|
  {
    if m == msgs[0] {
      CommitOnlyRaises(Raise(committed, m), msgs[1..], m.partition);
    } else {
      CommitReaches(Raise(committed, msgs[0]), msgs[1..], m);
    }
  }

  /** The handler lists one event; the write and the commit that follow go well. */
  function Lists(m: Message): Reply
    requires Decodable(m)
  {
    Reply(false, false, 0, false, false, {}, Some([m.record.event]))
  }

  /** A message at risk whose write goes to another message stays unaccounted for. */
  lemma {:induction false} PassedOver(w: World, w1: World, msgs: seq<Message>, m: Message, other: Message)
    requires AtRisk(w, msgs, m) && Confused(other, m)
    requires w1.dlq == w.dlq + [other] && w1.handled == w.handled
    requires w1.verdicts == w.verdicts + [Verdict(msgs, [m.record.event])]
    ensures !Accounted(w1, m)
  {
    assert !Buried(w1.dlq, m) by {
      if i :| 0 <= i < |w1.dlq| && Decodable(w1.dlq[i]) && KeyOf(w1.dlq[i].record.event) == KeyOf(m.record.event) {
        assert i < |w.dlq| && w.dlq[i] == w1.dlq[i];
      }
    }
    forall i | 0 <= i < |w1.verdicts| && m in w1.verdicts[i].messages ensures Listed(w1.verdicts[i].failed, m) {
      if i < |w.verdicts| {
        assert w.verdicts[i] == w1.verdicts[i];
      } else {
        assert KeyOf(w1.verdicts[i].failed[0]) == KeyOf(m.record.event);
      }
    }
  }

  lemma {:induction false} SkipSteps(cfg: Config, s: State, m: Message)
    requires cfg.hasDlq && WellShaped(cfg, s) && s.phase.Handling? && AtRisk(s.world, s.phase.msgs, m)
    ensures
      var w := Run(cfg, s, [Lists(m), SMOOTH, SMOOTH]).world;
      w.committed == Commit(s.world.committed, s.phase.msgs) && !Accounted(w, m)
  {
    var msgs := s.phase.msgs;
    var i :| 0 <= i < |msgs| && FirstWithTag(msgs, i, m) && Confused(msgs[i], m);
    LetterForOne(msgs, m, i);
    ThreeSteps(cfg, s, Lists(m), SMOOTH, SMOOTH);
    var s1 := Step(cfg, s, Lists(m));
    assert s1 == s.(phase := Burying(msgs, [m.record.event], [msgs[i]]));
    var s2 := Step(cfg, s1, SMOOTH);
    assert s2.phase == Committing(msgs) && s2.world.committed == s.world.committed;
    var s3 := Step(cfg, s2, SMOOTH);
    PassedOver(s.world, s3.world, msgs, m, msgs[i]);
  }

  /**
   A skip: from any reachable batch with a message at risk, a handler error that lists it, followed by
   a smooth write and commit, commits past the message with nothing to account for it.
   */
  lemma {:induction false} ConfusedMessagesSkip(cfg: Config, tapes: seq<seq<Reply>>, tape: seq<Reply>, m: Message)
    requires cfg.hasDlq && Reach(cfg, tapes, tape).phase.Handling?
    requires AtRisk(Reach(cfg, tapes, tape).world, Reach(cfg, tapes, tape).phase.msgs, m)
    ensures
      var w := Lives(cfg, Fresh(cfg), tapes + [tape + [Lists(m), SMOOTH, SMOOTH]]);
      && InLog(cfg, m.partition, m.offset) && m == At(cfg, m.partition, m.offset)
      && m.partition < |w.committed| && m.offset < w.committed[m.partition]
      && !Accounted(w, m)
  {
    var s := Reach(cfg, tapes, tape);
    ReachShaped(cfg, tapes, tape);
    assert Genuine(cfg, s.world, m) by { assert m in InHand(s.phase); }
    CommitReaches(s.world.committed, s.phase.msgs, m);
    SkipSteps(cfg, s, m);
    var more := [Lists(m), SMOOTH, SMOOTH];
    RunConcat(cfg, Restart(Lives(cfg, Fresh(cfg), tapes)), tape, more);
    LivesSnoc(cfg, Fresh(cfg), tapes, tape + more);
  }

  /**
   The batch consumer accounts for every committed offset in every run exactly when no batch that
   occurs has a message at risk.
   */
  lemma {:induction false} CoverageIff(cfg: Config)
    ensures (forall tapes :: CommitsCovered(cfg, Lives(cfg, Fresh(cfg), tapes))) <==> SafeBatches(cfg)
  {
    if SafeBatches(cfg) {
      forall tapes ensures CommitsCovered(cfg, Lives(cfg, Fresh(cfg), tapes)) {
        LivesKeep(cfg, tapes);
      }
    } else {
      var tapes, tape :| !Safe(cfg, Reach(cfg, tapes, tape));
      var s := Reach(cfg, tapes, tape);
      var m :| AtRisk(s.world, s.phase.msgs, m);
      ConfusedMessagesSkip(cfg, tapes, tape, m);
      var all := tapes + [tape + [Lists(m), SMOOTH, SMOOTH]];
      assert !CommitsCovered(cfg, Lives(cfg, Fresh(cfg), all));
    }
  }

  lemma {:induction false} OneStep(cfg: Config, s: State, r: Reply, tape: seq<Reply>)
    ensures Run(cfg, s, [r] + tape) == Run(cfg, Step(cfg, s, r), tape)
  {
    assert ([r] + tape)[1..] == tape;
  }
}
