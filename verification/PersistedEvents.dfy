/** What the events table holds after any number of persistence-worker lives. */
module PersistedEvents {
  import opened Events
  import opened EventTable
  import opened BatchConsumer
  import opened OffsetCoverage

  /** Offsets `a` up to `b` of a partition, as messages. */
  function Slice(cfg: Config, p: nat, a: nat, b: nat): seq<Message>
    requires p < |cfg.log| && a <= b <= |cfg.log[p]|
  {
    seq(b - a, i requires 0 <= i < b - a => Message(p, a + i, cfg.log[p][a + i]))
  }

  function OfPartition(msgs: seq<Message>, p: nat): seq<Message> {
    if msgs == [] then []
    else (if msgs[0].partition == p then [msgs[0]] else []) + OfPartition(msgs[1..], p)
  }

  /** Producers key messages by tenant, so a tenant's events live in one partition. */
  ghost predicate KeyedByTenant(cfg: Config, part: string -> nat) {
    forall p: nat, o: nat :: InLog(cfg, p, o) && !Bad(At(cfg, p, o)) ==> part(At(cfg, p, o).record.event.tenant) == p
  }

  /** The first valid event of an identity in the log, up to the frontier of its tenant's partition. */
  function Expected(cfg: Config, part: string -> nat, frontier: seq<nat>, k: Key): Option<Event> {
    var p := part(k.tenant);
    if p < |cfg.log| && p < |frontier| && frontier[p] <= |cfg.log[p]|
    then First(EventsIn(Slice(cfg, p, 0, frontier[p])), k)
    else None
  }

  /** Batch saves never give a terminal verdict: no error of the table carries one. */
  predicate NoVerdicts(tape: seq<Reply>) {
    forall i :: 0 <= i < |tape| ==> tape[i].failed == None
  }

  ghost predicate TableExact(cfg: Config, part: string -> nat, w: World) {
    forall k :: Lookup(w.table, k) == Expected(cfg, part, w.frontier, k)
  }

  predicate FrontierOk(cfg: Config, w: World) {
    && |w.frontier| == |cfg.log|
    && forall p :: 0 <= p < |cfg.log| ==> p < |w.committed| && w.committed[p] <= w.frontier[p] <= |cfg.log[p]|
  }

  /** The messages in hand are, per partition, the stretch of the log that ends at the cursor and starts no later than the frontier. */
  predicate HandIsStretch(cfg: Config, w: World, msgs: seq<Message>, p: nat)
    requires p < |cfg.log|
  {
    var mine := OfPartition(msgs, p);
    && p < |w.cursor| && p < |w.frontier|
    && |mine| <= w.cursor[p] <= |cfg.log[p]|
    && mine == Slice(cfg, p, w.cursor[p] - |mine|, w.cursor[p])
    && w.cursor[p] - |mine| <= w.frontier[p]
  }

  ghost predicate Exact(cfg: Config, part: string -> nat, s: State) {
    && Inv(cfg, s)
    && FrontierOk(cfg, s.world)
    && TableExact(cfg, part, s.world)
    && !s.phase.Burying?
    && (s.phase.Stopped? || forall p :: 0 <= p < |cfg.log| ==> HandIsStretch(cfg, s.world, InHand(s.phase), p))
    && (s.phase.Committing? || s.phase.CommitWait? ==>
          forall p :: 0 <= p < |cfg.log| ==> s.world.cursor[p] <= s.world.frontier[p])
  }

  // ---------------------------------------------------------------- lists of messages

  lemma {:induction false} EventsInConcat(a: seq<Message>, b: seq<Message>)
    ensures EventsIn(a + b) == EventsIn(a) + EventsIn(b)
  {
    if a == [] {
      assert a + b == b;
    } else {
      assert (a + b)[1..] == a[1..] + b;
      EventsInConcat(a[1..], b);
    }
  }

  lemma {:induction false} OfPartitionConcat(a: seq<Message>, b: seq<Message>, p: nat)
    ensures OfPartition(a + b, p) == OfPartition(a, p) + OfPartition(b, p)
  {
    if a == [] {
      assert a + b == b;
    } else {
      assert (a + b)[0] == a[0] && (a + b)[1..] == a[1..] + b;
      OfPartitionConcat(a[1..], b, p);
      var head := if a[0].partition == p then [a[0]] else [];
      assert OfPartition(a + b, p) == head + (OfPartition(a[1..], p) + OfPartition(b, p));
      assert OfPartition(a, p) == head + OfPartition(a[1..], p);
    }
  }

  lemma {:induction false} FirstOfMessages(m: Message, rest: seq<Message>, k: Key)
    ensures First(EventsIn([m] + rest), k)
         == if !Bad(m) && KeyOf(m.record.event) == k then Some(m.record.event) else First(EventsIn(rest), k)
  {
    assert ([m] + rest)[1..] == rest;
    if Bad(m) {
      assert EventsIn([m] + rest) == EventsIn(rest);
    } else {
      assert EventsIn([m] + rest) == [m.record.event] + EventsIn(rest);
      assert EventsIn([m] + rest)[1..] == EventsIn(rest);
    }
  }

  predicate InOwnPartition(part: string -> nat, m: Message) {
    !Bad(m) ==> part(m.record.event.tenant) == m.partition
  }

  /** A tenant's events in a batch are those of its own partition's messages. */
  lemma {:induction false} FirstIsOwn(part: string -> nat, msgs: seq<Message>, k: Key)
    requires forall m :: m in msgs ==> InOwnPartition(part, m)
    ensures First(EventsIn(msgs), k) == First(EventsIn(OfPartition(msgs, part(k.tenant))), k)
    decreases |msgs|
  {
    if msgs != [] {
      var m, rest := msgs[0], msgs[1..];
      var own := OfPartition(rest, part(k.tenant));
      assert InOwnPartition(part, m);
      FirstIsOwn(part, rest, k);
      assert msgs == [m] + rest;
      FirstOfMessages(m, rest, k);
      FirstOfMessages(m, own, k);
      assert OfPartition(msgs, part(k.tenant)) == if m.partition == part(k.tenant) then [m] + own else own;
    }
  }

  lemma {:induction false} NoneElsewhere(cfg: Config, part: string -> nat, w: World, msgs: seq<Message>, k: Key)
    requires forall m :: m in msgs ==> Genuine(cfg, w, m)
    requires part(k.tenant) >= |cfg.log|
    ensures OfPartition(msgs, part(k.tenant)) == []
    decreases |msgs|
  {
    if msgs != [] {
      assert Genuine(cfg, w, msgs[0]);
      NoneElsewhere(cfg, part, w, msgs[1..], k);
    }
  }

  lemma {:induction false} FirstOfSlices(cfg: Config, p: nat, a: nat, b: nat, c: nat, k: Key)
    requires p < |cfg.log| && a <= b <= c <= |cfg.log[p]|
    ensures First(EventsIn(Slice(cfg, p, a, c)), k)
         == OrElse(First(EventsIn(Slice(cfg, p, a, b)), k), First(EventsIn(Slice(cfg, p, b, c)), k))
  {
    assert Slice(cfg, p, a, c) == Slice(cfg, p, a, b) + Slice(cfg, p, b, c);
    EventsInConcat(Slice(cfg, p, a, b), Slice(cfg, p, b, c));
    FirstOfConcat(EventsIn(Slice(cfg, p, a, b)), EventsIn(Slice(cfg, p, b, c)), k);
  }

  // ---------------------------------------------------------------- the handler's effect

  /** Saving a stretch that overlaps what was saved before extends the prefix, or changes nothing. */
  lemma {:induction false} OverlapExtends(cfg: Config, p: nat, base: nat, frontier: nat, cursor: nat, k: Key)
    requires p < |cfg.log| && base <= frontier <= |cfg.log[p]| && base <= cursor <= |cfg.log[p]|
    ensures
      var reached := if frontier < cursor then cursor else frontier;
      First(EventsIn(Slice(cfg, p, 0, reached)), k)
      == OrElse(First(EventsIn(Slice(cfg, p, 0, frontier)), k), First(EventsIn(Slice(cfg, p, base, cursor)), k))
  {
    FirstOfSlices(cfg, p, 0, base, frontier, k);
    if frontier < cursor {
      FirstOfSlices(cfg, p, 0, frontier, cursor, k);
      FirstOfSlices(cfg, p, base, frontier, cursor, k);
    } else {
      FirstOfSlices(cfg, p, base, cursor, frontier, k);
    }
  }

  lemma {:induction false} EffectIsExact(cfg: Config, part: string -> nat, w: World, msgs: seq<Message>)
    requires KeyedByTenant(cfg, part) && Shaped(cfg, w) && FrontierOk(cfg, w) && TableExact(cfg, part, w)
    requires forall m :: m in msgs ==> Genuine(cfg, w, m)
    requires forall p :: 0 <= p < |cfg.log| ==> HandIsStretch(cfg, w, msgs, p)
    ensures
      var w1 := HandlerEffect(w, msgs);
      && FrontierOk(cfg, w1) && TableExact(cfg, part, w1)
      && (forall p :: 0 <= p < |cfg.log| ==> w1.cursor[p] <= w1.frontier[p] && w.frontier[p] <= w1.frontier[p])
  {
    var w1 := HandlerEffect(w, msgs);
    forall m | m in msgs ensures InOwnPartition(part, m) {
      assert Genuine(cfg, w, m) && m == At(cfg, m.partition, m.offset);
    }
    forall k ensures Lookup(w1.table, k) == Expected(cfg, part, w1.frontier, k) {
      var p := part(k.tenant);
      SaveAllKeepsFirst(w.table, EventsIn(msgs), k);
      FirstIsOwn(part, msgs, k);
      assert Lookup(w.table, k) == Expected(cfg, part, w.frontier, k);
      if p < |cfg.log| {
        assert HandIsStretch(cfg, w, msgs, p);
        OverlapExtends(cfg, p, w.cursor[p] - |OfPartition(msgs, p)|, w.frontier[p], w.cursor[p], k);
      } else {
        NoneElsewhere(cfg, part, w, msgs, k);
      }
    }
  }

  /** A batch without valid events needs no handler: reaching it changes no expectation. */
  lemma {:induction false} ReachedIsEffect(w: World, msgs: seq<Message>)
    requires EventsIn(msgs) == []
    ensures Reached(w) == HandlerEffect(w, msgs)
  {
  }

  lemma {:induction false} CommittingHasNoEvents(cfg: Config, msgs: seq<Message>, i: nat)
    requires i <= |msgs| && Decode(cfg, msgs, i).Committing?
    ensures EventsIn(msgs) == []
    decreases |msgs| - i
  {
    if i < |msgs| {
      CommittingHasNoEvents(cfg, msgs, i + 1);
    }
  }

  // ---------------------------------------------------------------- steps and runs

  lemma {:induction false} EnterExact(cfg: Config, part: string -> nat, w: World, msgs: seq<Message>, i: nat, backoff: nat)
    requires KeyedByTenant(cfg, part) && FrontierOk(cfg, w) && TableExact(cfg, part, w)
    requires Shaped(cfg, w) && CommitsCovered(cfg, w) && FetchesTracked(cfg, w, msgs) && RejectedUpTo(w, msgs, i)
    requires forall m :: m in msgs ==> Genuine(cfg, w, m)
    requires forall p :: 0 <= p < |cfg.log| ==> HandIsStretch(cfg, w, msgs, p)
    ensures Exact(cfg, part, Enter(w, Decode(cfg, msgs, i), backoff))
  {
    var phase := Decode(cfg, msgs, i);
    EnterKeeps(cfg, w, msgs, i, backoff);
    DecodeOk(cfg, w, msgs, i);
    DecodeNeverBuries(cfg, msgs, i);
    if phase.Committing? {
      CommittingHasNoEvents(cfg, msgs, i);
      ReachedIsEffect(w, msgs);
      EffectIsExact(cfg, part, w, msgs);
    }
    var w1 := Settle(w, phase);
    forall p | 0 <= p < |cfg.log| ensures HandIsStretch(cfg, w1, msgs, p) {
      assert HandIsStretch(cfg, w, msgs, p);
    }
  }

  lemma {:induction false} DecodeNeverBuries(cfg: Config, msgs: seq<Message>, i: nat)
    requires i <= |msgs|
    ensures !Decode(cfg, msgs, i).Burying? && !Decode(cfg, msgs, i).CommitWait?
    decreases |msgs| - i
  {
    if i < |msgs| {
      DecodeNeverBuries(cfg, msgs, i + 1);
    }
  }

  lemma {:induction false} FetchedStretch(cfg: Config, w: World, msgs: seq<Message>, p: nat, q: nat)
    requires p < |cfg.log| && Available(cfg, w.cursor, q) && HandIsStretch(cfg, w, msgs, p)
    ensures HandIsStretch(cfg, Fetched(cfg, w, q), msgs + [NextMessage(cfg, w.cursor, q)], p)
  {
    var m := NextMessage(cfg, w.cursor, q);
    OfPartitionConcat(msgs, [m], p);
    var mine := OfPartition(msgs, p);
    if p == q {
      assert OfPartition([m], p) == [m];
      assert mine + [m] == Slice(cfg, p, w.cursor[p] - |mine|, w.cursor[p] + 1);
    } else {
      assert OfPartition([m], p) == [];
      assert mine + [] == mine;
    }
  }

  lemma {:induction false} FetchExact(cfg: Config, part: string -> nat, s: State, r: Reply)
    requires KeyedByTenant(cfg, part) && Exact(cfg, part, s)
    requires (s.phase.Fetching? || s.phase.Collecting?) && Available(cfg, s.world.cursor, r.partition)
    ensures
      var msgs := InHand(s.phase) + [NextMessage(cfg, s.world.cursor, r.partition)];
      Exact(cfg, part, Enter(Fetched(cfg, s.world, r.partition), Gathered(cfg, msgs), s.backoff))
  {
    var w, w1 := s.world, Fetched(cfg, s.world, r.partition);
    var msgs := InHand(s.phase) + [NextMessage(cfg, w.cursor, r.partition)];
    FetchKeeps(cfg, s, r);
    FetchTracked(cfg, s, r);
    forall p | 0 <= p < |cfg.log| ensures HandIsStretch(cfg, w1, msgs, p) {
      FetchedStretch(cfg, w, InHand(s.phase), p, r.partition);
    }
    assert TableExact(cfg, part, w1);
    if |msgs| >= cfg.batchSize {
      EnterExact(cfg, part, w1, msgs, 0, s.backoff);
    }
  }

  lemma {:induction false} HandlingExact(cfg: Config, part: string -> nat, s: State, r: Reply)
    requires KeyedByTenant(cfg, part) && Exact(cfg, part, s) && s.phase.Handling? && r.failed == None
    ensures Exact(cfg, part, Step(cfg, s, r))
  {
    HandlingKeeps(cfg, s, r);
    EffectIsExact(cfg, part, s.world, s.phase.msgs);
    var w1 := Step(cfg, s, r).world;
    forall p | 0 <= p < |cfg.log| ensures HandIsStretch(cfg, w1, s.phase.msgs, p) {
      assert HandIsStretch(cfg, s.world, s.phase.msgs, p);
    }
  }

  lemma {:induction false} CommittingExact(cfg: Config, part: string -> nat, s: State, r: Reply)
    requires Exact(cfg, part, s) && s.phase.Committing?
    ensures Exact(cfg, part, Step(cfg, s, r))
  {
    var w, msgs, s1 := s.world, s.phase.msgs, Step(cfg, s, r);
    StepKeeps(cfg, s, r);
    CommitWithin(cfg, w, w.committed, msgs);
    assert TableExact(cfg, part, s1.world);
    forall p | 0 <= p < |cfg.log| ensures HandIsStretch(cfg, s1.world, InHand(s1.phase), p) {
      assert HandIsStretch(cfg, w, msgs, p);
    }
  }

  lemma {:induction false} RejectingExact(cfg: Config, part: string -> nat, s: State, r: Reply)
    requires KeyedByTenant(cfg, part) && Exact(cfg, part, s) && s.phase.Rejecting?
    ensures Exact(cfg, part, Step(cfg, s, r))
  {
    var w, msgs, i := s.world, s.phase.msgs, s.phase.index;
    var w1 := w.(dlq := w.dlq + [msgs[i]]);
    StepKeeps(cfg, s, r);
    OffsetsKept(cfg, w, w1, msgs);
    forall p | 0 <= p < |cfg.log| ensures HandIsStretch(cfg, w1, msgs, p) {
      assert HandIsStretch(cfg, w, msgs, p);
    }
    assert TableExact(cfg, part, w1);
    EnterExact(cfg, part, w1, msgs, i + 1, s.backoff);
  }

  lemma {:induction false} StepExact(cfg: Config, part: string -> nat, s: State, r: Reply)
    requires KeyedByTenant(cfg, part) && Exact(cfg, part, s) && r.failed == None
    ensures Exact(cfg, part, Step(cfg, s, r))
  {
    var w := s.world;
    StepKeeps(cfg, s, r);
    match s.phase
    case Fetching =>
      if r.ok && Available(cfg, w.cursor, r.partition) {
        FetchExact(cfg, part, s, r);
        assert [] + [NextMessage(cfg, w.cursor, r.partition)] == [NextMessage(cfg, w.cursor, r.partition)];
      }
    case Collecting(msgs) =>
      if !r.expired && r.ok && Available(cfg, w.cursor, r.partition) {
        FetchExact(cfg, part, s, r);
      } else {
        EnterExact(cfg, part, w, msgs, 0, s.backoff);
      }
    case Rejecting(msgs, i) => RejectingExact(cfg, part, s, r);
    case DecodeWait(msgs) => EnterExact(cfg, part, w, msgs, 0, NextBackoff(s.backoff));
    case Handling(msgs) => HandlingExact(cfg, part, s, r);
    case Committing(msgs) => CommittingExact(cfg, part, s, r);
    case FetchWait =>
    case HandleWait(msgs) =>
    case CommitWait(msgs) =>
    case Stopped =>
  }

  lemma {:induction false} RunExact(cfg: Config, part: string -> nat, s: State, tape: seq<Reply>)
    requires KeyedByTenant(cfg, part) && Exact(cfg, part, s) && NoVerdicts(tape)
    ensures Exact(cfg, part, Run(cfg, s, tape))
    decreases |tape|
  {
    if tape != [] {
      StepExact(cfg, part, s, tape[0]);
      RunExact(cfg, part, Step(cfg, s, tape[0]), tape[1..]);
    }
  }

  /** What survives from one consumer life to the next. */
  ghost predicate Durable(cfg: Config, part: string -> nat, w: World) {
    Shaped(cfg, w) && CommitsCovered(cfg, w) && FrontierOk(cfg, w) && TableExact(cfg, part, w)
  }

  lemma {:induction false} RestartExact(cfg: Config, part: string -> nat, w: World)
    requires Durable(cfg, part, w)
    ensures Exact(cfg, part, Restart(w))
  {
    var s := Restart(w);
    forall p: nat, o: nat | InLog(cfg, p, o) && p < |s.world.committed| && o < s.world.committed[p]
      ensures Accounted(s.world, At(cfg, p, o))
    {
      AccountedGrows(w, s.world, At(cfg, p, o));
    }
    assert TableExact(cfg, part, s.world);
  }

  lemma {:induction false} LivesExact(cfg: Config, part: string -> nat, w: World, tapes: seq<seq<Reply>>)
    requires KeyedByTenant(cfg, part) && Durable(cfg, part, w)
    requires forall i :: 0 <= i < |tapes| ==> NoVerdicts(tapes[i])
    ensures Durable(cfg, part, Lives(cfg, w, tapes))
    decreases |tapes|
  {
    if tapes != [] {
      RestartExact(cfg, part, w);
      RunExact(cfg, part, Restart(w), tapes[0]);
      LivesExact(cfg, part, Run(cfg, Restart(w), tapes[0]).world, tapes[1..]);
    }
  }

  /**
   Persistence through crashes and redelivery: each partition has a frontier at or above its
   committed offset, and the table holds for every identity exactly its first valid occurrence in the
   log below the frontier of its tenant's partition, and nothing else.
   */
  lemma {:induction false} TableIsFirstOccurrences(cfg: Config, part: string -> nat, tapes: seq<seq<Reply>>)
    requires KeyedByTenant(cfg, part)
    requires forall i :: 0 <= i < |tapes| ==> NoVerdicts(tapes[i])
    ensures
      var w := Lives(cfg, Fresh(cfg), tapes);
      && |w.frontier| == |w.committed| == |cfg.log|
      && (forall p :: 0 <= p < |cfg.log| ==> w.committed[p] <= w.frontier[p] <= |cfg.log[p]|)
      && (forall k :: Lookup(w.table, k) == Expected(cfg, part, w.frontier, k))
  {
    var w := Fresh(cfg);
    forall k ensures Lookup(w.table, k) == Expected(cfg, part, w.frontier, k) {
      if part(k.tenant) < |cfg.log| {
        assert Slice(cfg, part(k.tenant), 0, 0) == [];
      }
    }
    LivesExact(cfg, part, w, tapes);
  }
}
