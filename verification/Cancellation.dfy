/** When the batch consumer stops, what it keeps in hand until then, and how long it waits. */
module Cancellation {
  import opened Events
  import opened BatchConsumer
  import opened OffsetCoverage
  import opened CoverageExactness
  import ConsumerLoop

  predicate IsWait(phase: Phase) {
    phase.FetchWait? || phase.DecodeWait? || phase.HandleWait? || phase.CommitWait?
  }

  /** The call at hand returns because the consumer was cancelled: any wait, or a fetch that brings nothing. */
  predicate Interrupted(cfg: Config, s: State, r: Reply) {
    r.cancelled &&
    ( || IsWait(s.phase)
      || (s.phase.Fetching? && !(r.ok && Available(cfg, s.world.cursor, r.partition)))
      || (s.phase.Collecting? && !r.expired && !(r.ok && Available(cfg, s.world.cursor, r.partition))))
  }

  lemma {:induction false} DecodeGoesOn(cfg: Config, msgs: seq<Message>, i: nat)
    requires i <= |msgs|
    ensures !Decode(cfg, msgs, i).Stopped?
    decreases |msgs| - i
  {
    if i < |msgs| {
      DecodeGoesOn(cfg, msgs, i + 1);
    }
  }

  /** The consumer stops exactly when a wait or an empty-handed fetch is cancelled. */
  lemma {:induction false} StopsIffInterrupted(cfg: Config, s: State, r: Reply)
    ensures Step(cfg, s, r).phase.Stopped? <==> s.phase.Stopped? || Interrupted(cfg, s, r)
  {
    match s.phase
    case Fetching =>
      if r.ok && Available(cfg, s.world.cursor, r.partition) {
        DecodeGoesOn(cfg, [NextMessage(cfg, s.world.cursor, r.partition)], 0);
      }
    case Collecting(msgs) =>
      DecodeGoesOn(cfg, msgs, 0);
      if r.ok && Available(cfg, s.world.cursor, r.partition) {
        DecodeGoesOn(cfg, msgs + [NextMessage(cfg, s.world.cursor, r.partition)], 0);
      }
    case Rejecting(msgs, i) =>
      if i < |msgs| {
        DecodeGoesOn(cfg, msgs, i + 1);
      }
    case DecodeWait(msgs) => DecodeGoesOn(cfg, msgs, 0);
    case _ =>
  }

  /** Once cancelled, the consumer leaves the world as it is, whatever the calls it no longer makes would have answered. */
  lemma {:induction false} CancellationStops(cfg: Config, s: State, r: Reply, tape: seq<Reply>)
    requires Interrupted(cfg, s, r)
    ensures Run(cfg, s, [r] + tape).world == s.world
  {
    StopsIffInterrupted(cfg, s, r);
    assert ([r] + tape)[1..] == tape;
    ConsumerLoop.StoppedStays(cfg, Step(cfg, s, r), tape);
  }

  /** A batch that was collected stays in hand, message for message, until it is committed or the consumer is cancelled. */
  lemma {:induction false} BatchIsKept(cfg: Config, s: State, r: Reply)
    requires InHand(s.phase) != [] && !s.phase.Collecting? && !Interrupted(cfg, s, r)
    ensures
      var s1 := Step(cfg, s, r);
      if s.phase.Committing? && r.ok then
        s1.phase == Fetching && s1.world.committed == Commit(s.world.committed, InHand(s.phase))
      else InHand(s1.phase) == InHand(s.phase)
  {
    match s.phase
    case Rejecting(msgs, i) =>
      if i < |msgs| {
        DecodeInHand(cfg, msgs, i + 1);
      }
    case DecodeWait(msgs) => DecodeInHand(cfg, msgs, 0);
    case _ =>
  }

  /** The call failed for good and took no effect, with no terminal error and no cancellation. */
  predicate PlainFailure(r: Reply) {
    !r.ok && !r.cancelled && !r.applied && r.landed == {} && r.failed == None
  }

  lemma {:induction false} TwoReplies(cfg: Config, s: State, a: Reply, b: Reply)
    ensures Run(cfg, s, [a, b]) == Step(cfg, Step(cfg, s, a), b)
  {
    assert [a, b][1..] == [b] && [b][1..] == [];
    var s1 := Step(cfg, s, a);
    assert Run(cfg, s1, [b]) == Run(cfg, Step(cfg, s1, b), []);
  }

  lemma {:induction false} LandedNone(letters: seq<Message>)
    ensures Landed(letters, {}) == []
  {
    if letters != [] {
      LandedNone(letters[..|letters| - 1]);
    }
  }

  /**
   What is tried again after a failed call and a wait, with the world as it was: a fetch, the decoding of
   the whole batch, the handler (also when the dead letters could not be written), or the commit.
   */
  lemma {:induction false} FailureIsRetried(cfg: Config, s: State, fail: Reply, tick: Reply)
    requires PlainFailure(fail) && !tick.cancelled
    ensures
      var s2 := Run(cfg, s, [fail, tick]);
      match s.phase
      case Fetching => s2.world == s.world && s2.phase == Fetching
      case Rejecting(msgs, i) => i < |msgs| ==> s2 == Enter(s.world, Decode(cfg, msgs, 0), s2.backoff)
      case Handling(msgs) => s2.world == s.world && s2.phase == Handling(msgs)
      case Burying(msgs, _, _) => s2.world == s.world && s2.phase == Handling(msgs)
      case Committing(msgs) => s2.world == s.world && s2.phase == Committing(msgs)
      case _ => true
  {
    TwoReplies(cfg, s, fail, tick);
    if s.phase.Burying? {
      LandedNone(s.phase.letters);
      assert s.world.dlq + [] == s.world.dlq;
    }
  }

  /** A fetch that fails while a batch is being collected, or the end of the window, goes on with what was collected. */
  lemma {:induction false} CollectionCloses(cfg: Config, s: State, r: Reply)
    requires s.phase.Collecting? && (r.expired || (PlainFailure(r) && !r.cancelled))
    ensures Step(cfg, s, r) == Enter(s.world, Decode(cfg, s.phase.msgs, 0), s.backoff)
  {
  }

  // ---------------------------------------------------------------- backoff

  /** A wait that runs out doubles the backoff below thirty seconds, a commit resets it, and nothing else changes it. */
  lemma {:induction false} BackoffChanges(cfg: Config, s: State, r: Reply)
    ensures Step(cfg, s, r).backoff ==
      if s.phase.Committing? && r.ok then 1
      else if IsWait(s.phase) && !s.phase.CommitWait? && !r.cancelled && s.backoff < 30 then s.backoff + s.backoff
      else s.backoff
  {
  }

  ghost predicate Sensible(backoff: nat) {
    backoff == 1 || backoff == 2 || backoff == 4 || backoff == 8 || backoff == 16 || backoff == 32
  }

  /** Waits last 1, 2, 4, 8, 16 or 32 seconds in every run. */
  lemma {:induction false} BackoffStaysSensible(cfg: Config, s: State, tape: seq<Reply>)
    requires Sensible(s.backoff)
    ensures Sensible(Run(cfg, s, tape).backoff)
    decreases |tape|
  {
    if tape != [] {
      BackoffChanges(cfg, s, tape[0]);
      BackoffStaysSensible(cfg, Step(cfg, s, tape[0]), tape[1..]);
    }
  }
}
