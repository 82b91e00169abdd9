/** The batch consumer's loops, proved to walk the machine of `BatchConsumer` reply by reply. */
module ConsumerLoop {
  import opened Events
  import opened EventTable
  import opened BatchConsumer

  /** How a helper left its caller: carry on, try again after a wait, or return. */
  datatype Flow = Go | Retry | Stop

  class Consumer {
    const cfg: Config
    var world: World
    var tape: seq<Reply>

    constructor (cfg: Config, world: World, tape: seq<Reply>)
      ensures this.cfg == cfg && this.world == world && this.tape == tape
    {
      this.cfg, this.world, this.tape := cfg, world, tape;
    }

    /** Where the machine ends up from the given phase on what is left of the tape. */
    ghost function Outcome(phase: Phase, backoff: nat): State
      reads this
    {
      Run(cfg, State(world, phase, backoff), tape)
    }

    method Take() returns (r: Reply)
      requires tape != []
      modifies this`tape
      ensures r == old(tape)[0] && tape == old(tape)[1..]
    {
      r := tape[0];
      tape := tape[1..];
    }

    /** The reader's fetch: the next message of whichever partition answers. */
    method FetchMessage(r: Reply) returns (m: Option<Message>)
      modifies this`world
      ensures
        if r.ok && Available(cfg, old(world).cursor, r.partition) then
          m == Some(NextMessage(cfg, old(world).cursor, r.partition)) && world == Fetched(cfg, old(world), r.partition)
        else m == None && world == old(world)
    {
      if r.ok && Available(cfg, world.cursor, r.partition) {
        m := Some(NextMessage(cfg, world.cursor, r.partition));
        world := Fetched(cfg, world, r.partition);
      } else {
        m := None;
      }
    }

    method FetchBatch(backoff: nat) returns (messages: seq<Message>, flow: Flow)
      modifies this
      ensures flow == Go ==> |tape| < |old(tape)| && old(Outcome(Fetching, backoff)) == Run(cfg, Enter(world, Decode(cfg, messages, 0), backoff), tape)
      ensures flow == Retry ==> |tape| < |old(tape)| && old(Outcome(Fetching, backoff)) == Outcome(FetchWait, backoff)
      ensures flow == Stop ==> old(Outcome(Fetching, backoff)).world == world
    {
      messages := [];
      if tape == [] {
        return [], Stop;
      }
      var r := Take();
      var first := FetchMessage(r);
      if first == None {
        if r.cancelled {
          StoppedStays(cfg, State(world, Stopped, backoff), tape);
          return [], Stop;
        }
        return [], Retry;
      }
      messages := [first.value];
      while |messages| < cfg.batchSize
        invariant |tape| < |old(tape)|
        invariant old(Outcome(Fetching, backoff)) == Run(cfg, Enter(world, Gathered(cfg, messages), backoff), tape)
        decreases |tape|
      {
        if tape == [] {
          return messages, Stop;
        }
        r := Take();
        if r.expired {
          return messages, Go;
        }
        var message := FetchMessage(r);
        if message == None {
          if r.cancelled {
            StoppedStays(cfg, State(world, Stopped, backoff), tape);
            return [], Stop;
          }
          return messages, Go;
        }
        messages := messages + [message.value];
      }
      return messages, Go;
    }

    /** Decodes a batch, dead-lettering what is bad; everything it returns is ready to be handled and committed. */
    method DecodeBatch(messages: seq<Message>, backoff: nat)
      returns (processed: seq<Message>, batch: seq<Event>, flow: Flow)
      modifies this
      ensures |tape| <= |old(tape)|
      ensures flow == Go ==> processed == messages && batch == EventsIn(messages)
      ensures flow == Go ==>
        old(Run(cfg, Enter(world, Decode(cfg, messages, 0), backoff), tape)) == Run(cfg, Enter(world, Decode(cfg, messages, |messages|), backoff), tape)
      ensures flow == Retry ==>
        old(Run(cfg, Enter(world, Decode(cfg, messages, 0), backoff), tape)) == Outcome(DecodeWait(messages), backoff)
      ensures flow == Stop ==> old(Run(cfg, Enter(world, Decode(cfg, messages, 0), backoff), tape)).world == world
    {
      processed, batch := [], [];
      var i := 0;
      while i < |messages|
        invariant 0 <= i <= |messages| && |tape| <= |old(tape)|
        invariant processed == messages[..i] && batch == EventsIn(messages[..i])
        invariant old(Run(cfg, Enter(world, Decode(cfg, messages, 0), backoff), tape)) == Run(cfg, Enter(world, Decode(cfg, messages, i), backoff), tape)
      {
        var message := messages[i];
        EventsInSnoc(messages, i);
        if Bad(message) {
          flow := WriteDeadLetter(messages, i, backoff);
          if flow != Go {
            return;
          }
          processed := processed + [message];
        } else {
          processed := processed + [message];
          batch := batch + [message.record.event];
        }
        i := i + 1;
      }
      assert messages[..i] == messages;
      flow := Go;
    }

    method WriteDeadLetter(messages: seq<Message>, i: nat, backoff: nat) returns (flow: Flow)
      requires i < |messages| && Bad(messages[i])
      modifies this
      ensures |tape| <= |old(tape)|
      ensures flow == Go ==>
        old(Run(cfg, Enter(world, Decode(cfg, messages, i), backoff), tape)) == Run(cfg, Enter(world, Decode(cfg, messages, i + 1), backoff), tape)
      ensures flow == Retry ==>
        old(Run(cfg, Enter(world, Decode(cfg, messages, i), backoff), tape)) == Outcome(DecodeWait(messages), backoff)
      ensures flow == Stop ==> old(Run(cfg, Enter(world, Decode(cfg, messages, i), backoff), tape)).world == world
    {
      if !cfg.hasDlq {
        return Retry;
      }
      if tape == [] {
        return Stop;
      }
      var r := Take();
      if r.ok || r.applied {
        world := world.(dlq := world.dlq + [messages[i]]);
      }
      return if r.ok then Go else Retry;
    }

    /** Waits out the backoff, unless the consumer is cancelled. */
    method Wait() returns (cancelled: bool, ended: bool)
      modifies this`tape
      ensures ended <==> old(tape) == []
      ensures ended ==> tape == old(tape)
      ensures !ended ==> tape == old(tape)[1..] && cancelled == old(tape)[0].cancelled
    {
      if tape == [] {
        return true, true;
      }
      var r := Take();
      return r.cancelled, false;
    }

    /** Dead-letters the listed events: one message for each, or nothing if one of them is not in the batch. */
    method DeadLetterBatch(messages: seq<Message>, failedEvents: seq<Event>) returns (letters: Option<seq<Message>>)
      ensures letters == DeadLetters(messages, failedEvents)
    {
      var failed: set<string> := {};
      var i := 0;
      while i < |failedEvents|
        invariant 0 <= i <= |failedEvents| && failed + Tags(failedEvents[i..]) == Tags(failedEvents)
      {
        failed := failed + {TagOf(failedEvents[i])};
        assert failedEvents[i..][1..] == failedEvents[i + 1..];
        i := i + 1;
      }
      assert failedEvents[i..] == [];
      if failed == {} {
        return None;
      }
      var dlqMessages: seq<Message> := [];
      i := 0;
      assert messages[i..] == messages;
      assert forall s: seq<Message> :: [] + s == s;
      while i < |messages|
        invariant 0 <= i <= |messages|
        invariant
          var (rest, missing) := SelectLetters(messages[i..], failed);
          SelectLetters(messages, Tags(failedEvents)) == (dlqMessages + rest, missing)
      {
        var message := messages[i];
        assert messages[i..][0] == message && messages[i..][1..] == messages[i + 1..];
        if Decodable(message) && TagOf(message.record.event) in failed {
          ghost var (rest, missing) := SelectLetters(messages[i + 1..], failed - {TagOf(message.record.event)});
          assert dlqMessages + ([message] + rest) == (dlqMessages + [message]) + rest;
          dlqMessages := dlqMessages + [message];
          failed := failed - {TagOf(message.record.event)};
        }
        i := i + 1;
      }
      assert dlqMessages + [] == dlqMessages;
      if failed != {} {
        return None;
      }
      return Some(dlqMessages);
    }

    /** One handler call, and the dead-lettering of what it lists if its error is terminal. */
    method TryHandle(messages: seq<Message>, batch: seq<Event>, backoff: nat) returns (flow: Flow)
      requires batch == EventsIn(messages)
      modifies this
      ensures |tape| <= |old(tape)|
      ensures flow == Go ==> old(Outcome(Handling(messages), backoff)) == Outcome(Committing(messages), backoff)
      ensures flow == Retry ==> old(Outcome(Handling(messages), backoff)) == Outcome(HandleWait(messages), backoff)
      ensures flow == Stop ==> old(Outcome(Handling(messages), backoff)).world == world
    {
      if tape == [] {
        return Stop;
      }
      var r := Take();
      if r.ok || r.applied {
        world := Reached(world.(table := SaveAll(world.table, batch)));
      }
      if r.ok {
        world := world.(handled := world.handled + (set m | m in messages && !Bad(m)));
        return Go;
      }
      if !cfg.hasDlq || r.failed == None {
        return Retry;
      }
      var letters := DeadLetterBatch(messages, r.failed.value);
      if letters == None {
        return Retry;
      }
      assert old(Outcome(Handling(messages), backoff)) == Outcome(Burying(messages, r.failed.value, letters.value), backoff);
      flow := WriteLetters(messages, r.failed.value, letters.value, backoff);
    }

    method WriteLetters(messages: seq<Message>, failed: seq<Event>, letters: seq<Message>, backoff: nat) returns (flow: Flow)
      modifies this
      ensures |tape| <= |old(tape)|
      ensures flow == Go ==> old(Outcome(Burying(messages, failed, letters), backoff)) == Outcome(Committing(messages), backoff)
      ensures flow == Retry ==> old(Outcome(Burying(messages, failed, letters), backoff)) == Outcome(HandleWait(messages), backoff)
      ensures flow == Stop ==> old(Outcome(Burying(messages, failed, letters), backoff)).world == world
    {
      if tape == [] {
        return Stop;
      }
      var r := Take();
      if !r.ok {
        world := world.(dlq := world.dlq + Landed(letters, r.landed));
        return Retry;
      }
      world := world.(dlq := world.dlq + letters, verdicts := world.verdicts + [Verdict(messages, failed)]);
      return Go;
    }

    /** The handler loop: retried on the same messages until it succeeds or its terminal verdict is dead-lettered. */
    method HandleBatch(messages: seq<Message>, batch: seq<Event>, backoff0: nat) returns (backoff: nat, flow: Flow)
      requires batch == EventsIn(messages)
      modifies this
      ensures |tape| <= |old(tape)|
      ensures flow == Go || flow == Stop
      ensures flow == Go ==> old(Outcome(Handling(messages), backoff0)) == Outcome(Committing(messages), backoff)
      ensures flow == Stop ==> old(Outcome(Handling(messages), backoff0)).world == world
    {
      backoff := backoff0;
      while true
        invariant |tape| <= |old(tape)|
        invariant old(Outcome(Handling(messages), backoff0)) == Outcome(Handling(messages), backoff)
        decreases |tape|
      {
        flow := TryHandle(messages, batch, backoff);
        if flow != Retry {
          return;
        }
        var cancelled, ended := Wait();
        if ended {
          return backoff, Stop;
        }
        if cancelled {
          StoppedStays(cfg, State(world, Stopped, backoff), tape);
          return backoff, Stop;
        }
        backoff := NextBackoff(backoff);
      }
    }

    method CommitMessages(messages: seq<Message>, backoff: nat) returns (flow: Flow)
      modifies this
      ensures |tape| <= |old(tape)|
      ensures flow == Go || flow == Stop
      ensures flow == Go ==> |tape| < |old(tape)| && old(Outcome(Committing(messages), backoff)) == Outcome(Fetching, 1)
      ensures flow == Stop ==> old(Outcome(Committing(messages), backoff)).world == world
    {
      while true
        invariant |tape| <= |old(tape)|
        invariant old(Outcome(Committing(messages), backoff)) == Outcome(Committing(messages), backoff)
        decreases |tape|
      {
        if tape == [] {
          return Stop;
        }
        var r := Take();
        if r.ok || r.applied {
          world := world.(committed := Commit(world.committed, messages));
        }
        if r.ok {
          return Go;
        }
        assert old(Outcome(Committing(messages), backoff)) == Outcome(CommitWait(messages), backoff);
        var cancelled, ended := Wait();
        if ended {
          return Stop;
        }
        if cancelled {
          StoppedStays(cfg, State(world, Stopped, backoff), tape);
          return Stop;
        }
      }
    }

    /** The consumer's main loop ends, on any tape, in exactly the world the machine predicts. */
    method RunBatch()
      modifies this
      ensures world == Run(cfg, State(old(world), Fetching, 1), old(tape)).world
    {
      var backoff := 1;
      while true
        invariant old(Outcome(Fetching, 1)) == Outcome(Fetching, backoff)
        decreases |tape|
      {
        var messages, flow := FetchBatch(backoff);
        if flow == Stop {
          return;
        }
        if flow == Retry {
          var cancelled, ended := Wait();
          if ended {
            return;
          }
          if cancelled {
            StoppedStays(cfg, State(world, Stopped, backoff), tape);
            return;
          }
          backoff := NextBackoff(backoff);
          continue;
        }
        var processed: seq<Message>, batch: seq<Event>;
        ghost var left := |tape|;
        while true
          invariant |tape| <= left
          invariant old(Outcome(Fetching, 1)) == Run(cfg, Enter(world, Decode(cfg, messages, 0), backoff), tape)
          decreases |tape|
        {
          processed, batch, flow := DecodeBatch(messages, backoff);
          if flow == Go {
            break;
          }
          if flow == Stop {
            return;
          }
          var cancelled, ended := Wait();
          if ended {
            return;
          }
          if cancelled {
            StoppedStays(cfg, State(world, Stopped, backoff), tape);
            return;
          }
          backoff := NextBackoff(backoff);
        }
        if |batch| == 0 {
          // Bookkeeping only: the batch held nothing for the handler.
          world := Reached(world);
        } else {
          backoff, flow := HandleBatch(messages, batch, backoff);
          if flow == Stop {
            return;
          }
        }
        flow := CommitMessages(processed, backoff);
        if flow == Stop {
          return;
        }
        backoff := 1;
      }
    }
  }

  lemma {:induction false} StoppedStays(cfg: Config, s: State, tape: seq<Reply>)
    requires s.phase == Stopped
    ensures Run(cfg, s, tape) == s
    decreases |tape|
  {
    if tape != [] {
      StoppedStays(cfg, s, tape[1..]);
    }
  }

  lemma {:induction false} EventsInSnoc(msgs: seq<Message>, i: nat)
    requires i < |msgs|
    ensures EventsIn(msgs[..i + 1]) == EventsIn(msgs[..i]) + (if Bad(msgs[i]) then [] else [msgs[i].record.event])
    decreases i
  {
    if i == 0 {
      assert msgs[..1] == [msgs[0]];
    } else {
      assert msgs[..i + 1][1..] == msgs[1..][..i] && msgs[..i][1..] == msgs[1..][..i - 1];
      EventsInSnoc(msgs[1..], i - 1);
    }
  }
}
