/**
 The batch consumer as a machine over its external calls.

 Every call the consumer makes (fetch, dead-letter write, handler, commit, wait) reads one reply.  A
 run is a list of replies of any content, so it ranges over every pattern of failures, cancellations
 and effects that landed although the call failed.  A run that ends mid-way is a crash at that call.
 */
module BatchConsumer {
  import opened Events
  import opened EventTable

  /** A log record as the consumer sees it: undecodable, decodable but invalid, or a valid event. */
  datatype Record = Garbage(raw: int) | Invalid(event: Event) | Valid(event: Event)

  datatype Message = Message(partition: nat, offset: nat, record: Record)

  type Log = seq<seq<Record>>

  datatype Config = Config(log: Log, batchSize: nat, hasDlq: bool)

  /** A terminal handler error that was dead-lettered: the batch it was about and the events it lists. */
  datatype Verdict = Verdict(messages: seq<Message>, failed: seq<Event>)

  /**
   The log positions, the dead-letter topic, what the handler did, and the events table.  `handled`,
   `verdicts` and `frontier` only record: no step of the consumer reads them.
   */
  datatype World = World(
    cursor: seq<nat>,
    committed: seq<nat>,
    dlq: seq<Message>,
    handled: set<Message>,
    verdicts: seq<Verdict>,
    table: Table,
    frontier: seq<nat>)

  /**
   What an external call answers; each call reads the fields it has a use for.  `applied` and
   `landed` tell what took effect although the call failed.
   */
  datatype Reply = Reply(
    ok: bool,
    cancelled: bool,
    partition: nat,
    expired: bool,
    applied: bool,
    landed: set<nat>,
    failed: Option<seq<Event>>)

  datatype Phase =
    | Fetching
    | FetchWait
    | Collecting(msgs: seq<Message>)
    | Rejecting(msgs: seq<Message>, index: nat)
    | DecodeWait(msgs: seq<Message>)
    | Handling(msgs: seq<Message>)
    | Burying(msgs: seq<Message>, failed: seq<Event>, letters: seq<Message>)
    | HandleWait(msgs: seq<Message>)
    | Committing(msgs: seq<Message>)
    | CommitWait(msgs: seq<Message>)
    | Stopped

  datatype State = State(world: World, phase: Phase, backoff: nat)

  predicate Decodable(m: Message) {
    !m.record.Garbage?
  }

  predicate Bad(m: Message) {
    !m.record.Valid?
  }

  /** The valid events of a list of messages, in order: what the handler is given. */
  function EventsIn(msgs: seq<Message>): seq<Event> {
    if msgs == [] then []
    else (if Bad(msgs[0]) then [] else [msgs[0].record.event]) + EventsIn(msgs[1..])
  }

  function NextBackoff(backoff: nat): nat {
    if backoff < 30 then backoff * 2 else backoff
  }

  // ---------------------------------------------------------------- the external calls' effects

  predicate Available(cfg: Config, cursor: seq<nat>, p: nat) {
    p < |cfg.log| && p < |cursor| && cursor[p] < |cfg.log[p]|
  }

  function NextMessage(cfg: Config, cursor: seq<nat>, p: nat): Message
    requires Available(cfg, cursor, p)
  {
    Message(p, cursor[p], cfg.log[p][cursor[p]])
  }

  function Fetched(cfg: Config, w: World, p: nat): World
    requires Available(cfg, w.cursor, p)
  {
    w.(cursor := w.cursor[p := w.cursor[p] + 1])
  }

  function Raise(committed: seq<nat>, m: Message): (r: seq<nat>)
    ensures |r| == |committed|
  {
    if m.partition < |committed| && committed[m.partition] < m.offset + 1 then committed[m.partition := m.offset + 1]
    else committed
  }

  /** Committing a message commits every lower offset of its partition. */
  function Commit(committed: seq<nat>, msgs: seq<Message>): (r: seq<nat>)
    ensures |r| == |committed|
    decreases |msgs|
  {
    if msgs == [] then committed
    else Commit(Raise(committed, msgs[0]), msgs[1..])
  }

  /** The messages of a failed write that reached the topic all the same. */
  function Landed(letters: seq<Message>, landed: set<nat>): seq<Message> {
    if letters == [] then []
    else Landed(letters[..|letters| - 1], landed) + (if |letters| - 1 in landed then [letters[|letters| - 1]] else [])
  }

  /** Everything fetched so far has been through the handler, or held nothing for it. */
  function Reached(w: World): World {
    w.(frontier := seq(|w.frontier|, p requires 0 <= p < |w.frontier| =>
      if p < |w.cursor| && w.frontier[p] < w.cursor[p] then w.cursor[p] else w.frontier[p]))
  }

  function HandlerEffect(w: World, msgs: seq<Message>): World {
    Reached(w.(table := SaveAll(w.table, EventsIn(msgs))))
  }

  // ---------------------------------------------------------------- batch dead-lettering

  function TagOf(e: Event): string {
    Joined(e.tenant, e.id)
  }

  function Tags(es: seq<Event>): set<string> {
    if es == [] then {} else {TagOf(es[0])} + Tags(es[1..])
  }

  /** Picks the first decodable message for each wanted tag, and tells which tags found none. */
  function SelectLetters(msgs: seq<Message>, wanted: set<string>): (seq<Message>, set<string>)
    decreases |msgs|
  {
    if msgs == [] then ([], wanted)
    else if Decodable(msgs[0]) && TagOf(msgs[0].record.event) in wanted then
      var (letters, missing) := SelectLetters(msgs[1..], wanted - {TagOf(msgs[0].record.event)});
      ([msgs[0]] + letters, missing)
    else SelectLetters(msgs[1..], wanted)
  }

  /** The one write that dead-letters a batch, unless no event is listed or a listed one is not in the batch. */
  function DeadLetters(msgs: seq<Message>, failed: seq<Event>): Option<seq<Message>> {
    var (letters, missing) := SelectLetters(msgs, Tags(failed));
    if Tags(failed) == {} || missing != {} then None else Some(letters)
  }

  // ---------------------------------------------------------------- the machine

  /** Decoding from the given message on stops at the next bad one, or has the whole batch. */
  function Decode(cfg: Config, msgs: seq<Message>, i: nat): Phase
    requires i <= |msgs|
    decreases |msgs| - i
  {
    if i == |msgs| then (if EventsIn(msgs) == [] then Committing(msgs) else Handling(msgs))
    else if Bad(msgs[i]) then (if cfg.hasDlq then Rejecting(msgs, i) else DecodeWait(msgs))
    else Decode(cfg, msgs, i + 1)
  }

  function Gathered(cfg: Config, msgs: seq<Message>): Phase {
    if |msgs| < cfg.batchSize then Collecting(msgs) else Decode(cfg, msgs, 0)
  }

  /** A batch without a valid event goes straight to commit. */
  function Settle(w: World, phase: Phase): World {
    if phase.Committing? then Reached(w) else w
  }

  function Enter(w: World, phase: Phase, backoff: nat): State {
    State(Settle(w, phase), phase, backoff)
  }

  function Step(cfg: Config, s: State, r: Reply): State {
    var w := s.world;
    match s.phase
    case Fetching =>
      if r.ok && Available(cfg, w.cursor, r.partition) then
        Enter(Fetched(cfg, w, r.partition), Gathered(cfg, [NextMessage(cfg, w.cursor, r.partition)]), s.backoff)
      else s.(phase := if r.cancelled then Stopped else FetchWait)
    case FetchWait =>
      if r.cancelled then s.(phase := Stopped) else State(w, Fetching, NextBackoff(s.backoff))
    case Collecting(msgs) =>
      if r.expired then Enter(w, Decode(cfg, msgs, 0), s.backoff)
      else if r.ok && Available(cfg, w.cursor, r.partition) then
        Enter(Fetched(cfg, w, r.partition), Gathered(cfg, msgs + [NextMessage(cfg, w.cursor, r.partition)]), s.backoff)
      else if r.cancelled then s.(phase := Stopped)
      else Enter(w, Decode(cfg, msgs, 0), s.backoff)
    case Rejecting(msgs, i) =>
      if i >= |msgs| then s
      else if r.ok then Enter(w.(dlq := w.dlq + [msgs[i]]), Decode(cfg, msgs, i + 1), s.backoff)
      else State(if r.applied then w.(dlq := w.dlq + [msgs[i]]) else w, DecodeWait(msgs), s.backoff)
    case DecodeWait(msgs) =>
      if r.cancelled then s.(phase := Stopped) else Enter(w, Decode(cfg, msgs, 0), NextBackoff(s.backoff))
    case Handling(msgs) =>
      if r.ok then
        State(HandlerEffect(w, msgs).(handled := w.handled + (set m | m in msgs && !Bad(m))), Committing(msgs), s.backoff)
      else
        var w1 := if r.applied then HandlerEffect(w, msgs) else w;
        if !cfg.hasDlq || r.failed == None then State(w1, HandleWait(msgs), s.backoff)
        else
          var letters := DeadLetters(msgs, r.failed.value);
          if letters.Some? then State(w1, Burying(msgs, r.failed.value, letters.value), s.backoff)
          else State(w1, HandleWait(msgs), s.backoff)
    case Burying(msgs, failed, letters) =>
      if r.ok then
        State(w.(dlq := w.dlq + letters, verdicts := w.verdicts + [Verdict(msgs, failed)]), Committing(msgs), s.backoff)
      else State(w.(dlq := w.dlq + Landed(letters, r.landed)), HandleWait(msgs), s.backoff)
    case HandleWait(msgs) =>
      if r.cancelled then s.(phase := Stopped) else State(w, Handling(msgs), NextBackoff(s.backoff))
    case Committing(msgs) =>
      if r.ok then State(w.(committed := Commit(w.committed, msgs)), Fetching, 1)
      else State(if r.applied then w.(committed := Commit(w.committed, msgs)) else w, CommitWait(msgs), s.backoff)
    case CommitWait(msgs) =>
      s.(phase := if r.cancelled then Stopped else Committing(msgs))
    case Stopped => s
  }

  function Run(cfg: Config, s: State, tape: seq<Reply>): State
    decreases |tape|
  {
    if tape == [] then s else Run(cfg, Step(cfg, s, tape[0]), tape[1..])
  }

  function Zeros(n: nat): seq<nat> {
    seq(n, _ => 0)
  }

  function Fresh(cfg: Config): World {
    World(Zeros(|cfg.log|), Zeros(|cfg.log|), [], {}, [], map[], Zeros(|cfg.log|))
  }

  /** A restarted consumer fetches again from the committed offsets. */
  function Restart(w: World): State {
    State(w.(cursor := w.committed), Fetching, 1)
  }

  /** The world after any number of consumer lives, each ended by cancellation or a crash. */
  function Lives(cfg: Config, w: World, tapes: seq<seq<Reply>>): World
    decreases |tapes|
  {
    if tapes == [] then w else Lives(cfg, Run(cfg, Restart(w), tapes[0]).world, tapes[1..])
  }
}
