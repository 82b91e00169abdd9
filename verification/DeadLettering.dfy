/** What a batch dead-letter write contains, and that a batch in hand reaches its commit. */
module DeadLettering {
  import opened Events
  import opened BatchConsumer

  predicate Carries(m: Message, wanted: set<string>) {
    Decodable(m) && TagOf(m.record.event) in wanted
  }

  /** Message `i` is the first decodable one with its tag, and its tag is wanted. */
  predicate IsFirst(msgs: seq<Message>, i: nat, wanted: set<string>)
    requires i < |msgs|
  {
    && Carries(msgs[i], wanted)
    && forall j :: 0 <= j < i && Decodable(msgs[j]) ==> TagOf(msgs[j].record.event) != TagOf(msgs[i].record.event)
  }

  /** The messages from `i` on that are first for a wanted tag, in batch order. */
  function Firsts(msgs: seq<Message>, wanted: set<string>, i: nat): seq<Message>
    requires i <= |msgs|
    decreases |msgs| - i
  {
    if i == |msgs| then []
    else (if IsFirst(msgs, i, wanted) then [msgs[i]] else []) + Firsts(msgs, wanted, i + 1)
  }

  /** The tags of the decodable messages before `n`. */
  function Seen(msgs: seq<Message>, n: nat): set<string>
    requires n <= |msgs|
  {
    set j | 0 <= j < n && Decodable(msgs[j]) :: TagOf(msgs[j].record.event)
  }

  lemma {:induction false} SelectionIsFirsts(msgs: seq<Message>, wanted: set<string>, i: nat)
    requires i <= |msgs|
    ensures SelectLetters(msgs[i..], wanted - Seen(msgs, i)) == (Firsts(msgs, wanted, i), wanted - Seen(msgs, |msgs|))
    decreases |msgs| - i
  {
    if i < |msgs| {
      var rest := wanted - Seen(msgs, i);
      assert msgs[i..][0] == msgs[i] && msgs[i..][1..] == msgs[i + 1..];
      assert Carries(msgs[i], rest) <==> IsFirst(msgs, i, wanted);
      SelectionIsFirsts(msgs, wanted, i + 1);
      assert !IsFirst(msgs, i, wanted) ==> Firsts(msgs, wanted, i) == Firsts(msgs, wanted, i + 1);
      if Decodable(msgs[i]) {
        assert Seen(msgs, i + 1) == Seen(msgs, i) + {TagOf(msgs[i].record.event)};
        assert wanted - Seen(msgs, i + 1) == rest - {TagOf(msgs[i].record.event)};
        if !Carries(msgs[i], rest) {
          assert rest - {TagOf(msgs[i].record.event)} == rest;
        }
      } else {
        assert Seen(msgs, i + 1) == Seen(msgs, i);
      }
    }
  }

  /**
   The write happens exactly when some event is listed and every listed tag is in the batch, and then
   it is, in batch order, the first decodable message of each listed tag.
   */
  lemma {:induction false} DeadLetterContract(msgs: seq<Message>, failed: seq<Event>)
    ensures DeadLetters(msgs, failed).Some? <==> failed != [] && Tags(failed) <= Seen(msgs, |msgs|)
    ensures DeadLetters(msgs, failed).Some? ==> DeadLetters(msgs, failed).value == Firsts(msgs, Tags(failed), 0)
  {
    assert msgs[0..] == msgs && Tags(failed) - Seen(msgs, 0) == Tags(failed);
    SelectionIsFirsts(msgs, Tags(failed), 0);
    assert failed != [] ==> TagOf(failed[0]) in Tags(failed);
    var missing := Tags(failed) - Seen(msgs, |msgs|);
    assert forall t :: t in missing <==> t in Tags(failed) && t !in Seen(msgs, |msgs|);
    if Tags(failed) <= Seen(msgs, |msgs|) {
      assert missing == {};
    }
  }

  function Carriers(msgs: seq<Message>, wanted: set<string>, i: nat): seq<Message>
    requires i <= |msgs|
    decreases |msgs| - i
  {
    if i == |msgs| then []
    else (if Carries(msgs[i], wanted) then [msgs[i]] else []) + Carriers(msgs, wanted, i + 1)
  }

  /** When no two decodable messages share a tag, the write is exactly the listed events' messages. */
  lemma {:induction false} DistinctBatchWritesListed(msgs: seq<Message>, wanted: set<string>, i: nat)
    requires i <= |msgs|
    requires forall j, k :: 0 <= j < k < |msgs| && Decodable(msgs[j]) && Decodable(msgs[k]) ==>
      TagOf(msgs[j].record.event) != TagOf(msgs[k].record.event)
    ensures Firsts(msgs, wanted, i) == Carriers(msgs, wanted, i)
    decreases |msgs| - i
  {
    if i < |msgs| {
      DistinctBatchWritesListed(msgs, wanted, i + 1);
      assert IsFirst(msgs, i, wanted) <==> Carries(msgs[i], wanted);
    }
  }

  /** A failed write leaves in the topic exactly the letters at the positions that landed. */
  lemma {:induction false} LandedIff(letters: seq<Message>, landed: set<nat>, m: Message)
    ensures m in Landed(letters, landed) <==> exists i: nat :: i in landed && i < |letters| && letters[i] == m
  {
    if letters != [] {
      var n := |letters| - 1;
      LandedIff(letters[..n], landed, m);
      if i: nat :| i in landed && i < |letters| && letters[i] == m {
        assert i < n ==> letters[..n][i] == m;
      }
    }
  }

  // ---------------------------------------------------------------- progress

  /** A reply with no failure, cancellation or verdict in it, at the end of the collecting window. */
  const SMOOTH: Reply := Reply(true, false, 0, true, false, {}, None)

  function Smooth(n: nat): seq<Reply> {
    seq(n, _ => SMOOTH)
  }

  lemma {:induction false} SmoothStep(cfg: Config, s: State, n: nat)
    requires n > 0
    ensures Run(cfg, s, Smooth(n)) == Run(cfg, Step(cfg, s, SMOOTH), Smooth(n - 1))
  {
    assert Smooth(n)[1..] == Smooth(n - 1);
  }

  predicate Sound(phase: Phase) {
    phase.Rejecting? ==> phase.index < |phase.msgs|
  }

  lemma {:induction false} DecodeIsSound(cfg: Config, msgs: seq<Message>, i: nat)
    requires i <= |msgs|
    ensures var phase := Decode(cfg, msgs, i);
      && Sound(phase)
      && (phase == Committing(msgs) || phase == Handling(msgs) || phase == DecodeWait(msgs)
          || (phase.Rejecting? && phase.msgs == msgs && phase.index >= i))
      && (cfg.hasDlq ==> !phase.DecodeWait?)
    decreases |msgs| - i
  {
    if i < |msgs| && !Bad(msgs[i]) {
      DecodeIsSound(cfg, msgs, i + 1);
    }
  }

  /** How many smooth calls take a phase with messages in hand to its commit. */
  function CallsLeft(phase: Phase): nat {
    match phase
    case Collecting(msgs) => |msgs| + 3
    case DecodeWait(msgs) => |msgs| + 3
    case Rejecting(msgs, i) => if i < |msgs| then |msgs| - i + 2 else 0
    case Handling(_) => 2
    case HandleWait(_) => 3
    case Burying(_, _, _) => 2
    case Committing(_) => 1
    case CommitWait(_) => 2
    case _ => 0
  }

  function BatchOf(phase: Phase): seq<Message>
    requires CallsLeft(phase) > 0
  {
    match phase
    case Collecting(msgs) => msgs
    case DecodeWait(msgs) => msgs
    case Rejecting(msgs, _) => msgs
    case Handling(msgs) => msgs
    case HandleWait(msgs) => msgs
    case Burying(msgs, _, _) => msgs
    case Committing(msgs) => msgs
    case CommitWait(msgs) => msgs
  }

  lemma {:induction false} DecodeAdvances(cfg: Config, msgs: seq<Message>, i: nat)
    requires cfg.hasDlq && i <= |msgs|
    ensures
      var phase := Decode(cfg, msgs, i);
      Sound(phase) && 0 < CallsLeft(phase) <= |msgs| - i + 2 && BatchOf(phase) == msgs
  {
    DecodeIsSound(cfg, msgs, i);
  }

  lemma {:induction false} SmoothStepAdvances(cfg: Config, s: State)
    requires cfg.hasDlq && Sound(s.phase) && CallsLeft(s.phase) > 0 && !s.phase.Committing?
    ensures
      var s1 := Step(cfg, s, SMOOTH);
      && s1.world.committed == s.world.committed
      && Sound(s1.phase) && 0 < CallsLeft(s1.phase) < CallsLeft(s.phase) && BatchOf(s1.phase) == BatchOf(s.phase)
  {
    match s.phase
    case Collecting(msgs) => DecodeAdvances(cfg, msgs, 0);
    case DecodeWait(msgs) => DecodeAdvances(cfg, msgs, 0);
    case Rejecting(msgs, i) => DecodeAdvances(cfg, msgs, i + 1);
    case Handling(_) =>
    case HandleWait(_) =>
    case Burying(_, _, _) =>
    case CommitWait(_) =>
  }

  /** Whatever failures came before, a batch in hand is committed as soon as enough calls in a row go well. */
  lemma {:induction false} BatchGetsCommitted(cfg: Config, s: State) returns (n: nat)
    requires cfg.hasDlq && Sound(s.phase) && CallsLeft(s.phase) > 0
    ensures n <= CallsLeft(s.phase)
    ensures
      var end := Run(cfg, s, Smooth(n));
      end.phase == Fetching && end.world.committed == Commit(s.world.committed, BatchOf(s.phase))
    decreases CallsLeft(s.phase)
  {
    if s.phase.Committing? {
      n := 1;
      SmoothStep(cfg, s, 1);
    } else {
      SmoothStepAdvances(cfg, s);
      n := BatchGetsCommitted(cfg, Step(cfg, s, SMOOTH));
      n := n + 1;
      SmoothStep(cfg, s, n);
    }
  }
}
