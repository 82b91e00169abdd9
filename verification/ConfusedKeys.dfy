/**
 Composite keys that stand for two identities at once.

 Batch dead-lettering looks messages up by a string joined from tenant and event.  A message is
 shadowed when the first message with its string has another identity: a dead letter asked for on its
 behalf is then that other message.
 */
module ConfusedKeys {
  import opened Events
  import opened BatchConsumer
  import opened DeadLettering

  predicate SameTag(a: Message, b: Message) {
    Decodable(a) && Decodable(b) && TagOf(a.record.event) == TagOf(b.record.event)
  }

  /** Two messages that share the joined string and not the identity. */
  predicate Confused(a: Message, b: Message) {
    SameTag(a, b) && KeyOf(a.record.event) != KeyOf(b.record.event)
  }

  /** Message `i` is the first of the batch with the tag of `m`. */
  predicate FirstWithTag(msgs: seq<Message>, i: nat, m: Message)
    requires i < |msgs|
  {
    SameTag(msgs[i], m) && forall j :: 0 <= j < i ==> !SameTag(msgs[j], m)
  }

  predicate Shadowed(msgs: seq<Message>, m: Message) {
    exists i :: 0 <= i < |msgs| && FirstWithTag(msgs, i, m) && Confused(msgs[i], m)
  }

  predicate Listed(failed: seq<Event>, m: Message) {
    Decodable(m) && exists i :: 0 <= i < |failed| && KeyOf(failed[i]) == KeyOf(m.record.event)
  }

  /** The messages include one of the same tenant and event. */
  predicate Buried(dlq: seq<Message>, m: Message) {
    Decodable(m) && exists i :: 0 <= i < |dlq| && Decodable(dlq[i]) && KeyOf(dlq[i].record.event) == KeyOf(m.record.event)
  }

  lemma {:induction false} ListedIsTagged(failed: seq<Event>, i: nat)
    requires i < |failed|
    ensures TagOf(failed[i]) in Tags(failed)
  {
    if i > 0 {
      ListedIsTagged(failed[1..], i - 1);
    }
  }

  lemma {:induction false} FindFirst(msgs: seq<Message>, m: Message, k: nat) returns (i: nat)
    requires k < |msgs| && SameTag(msgs[k], m)
    ensures i <= k && FirstWithTag(msgs, i, m)
  {
    if j :| 0 <= j < k && SameTag(msgs[j], m) {
      i := FindFirst(msgs, m, j);
    } else {
      i := k;
    }
  }

  lemma {:induction false} FirstsInclude(msgs: seq<Message>, wanted: set<string>, from: nat, i: nat)
    requires from <= i < |msgs| && IsFirst(msgs, i, wanted)
    ensures msgs[i] in Firsts(msgs, wanted, from)
    decreases |msgs| - from
  {
    if from < i {
      FirstsInclude(msgs, wanted, from + 1, i);
    }
  }

  /** A listed message that is not shadowed gets a letter of its own identity. */
  lemma {:induction false} LettersCoverListed(msgs: seq<Message>, failed: seq<Event>, letters: seq<Message>, m: Message)
    requires DeadLetters(msgs, failed) == Some(letters) && m in msgs && Listed(failed, m) && !Shadowed(msgs, m)
    ensures Buried(letters, m)
  {
    var f :| 0 <= f < |failed| && KeyOf(failed[f]) == KeyOf(m.record.event);
    ListedIsTagged(failed, f);
    var k :| 0 <= k < |msgs| && msgs[k] == m;
    var i := FindFirst(msgs, m, k);
    assert !Confused(msgs[i], m);
    assert IsFirst(msgs, i, Tags(failed));
    FirstsInclude(msgs, Tags(failed), 0, i);
    DeadLetterContract(msgs, failed);
    var j :| 0 <= j < |letters| && letters[j] == msgs[i];
  }

  lemma {:induction false} OnlyFirst(msgs: seq<Message>, m: Message, i: nat, from: nat)
    requires i < |msgs| && FirstWithTag(msgs, i, m) && from <= |msgs|
    ensures Firsts(msgs, {TagOf(m.record.event)}, from) == if from <= i then [msgs[i]] else []
    decreases |msgs| - from
  {
    if from < |msgs| {
      OnlyFirst(msgs, m, i, from + 1);
      if from != i && SameTag(msgs[from], m) {
        assert from > i && SameTag(msgs[i], m);
        assert TagOf(msgs[i].record.event) == TagOf(msgs[from].record.event);
      }
      assert IsFirst(msgs, from, {TagOf(m.record.event)}) <==> from == i;
    }
  }

  /** Listing a message alone writes the first message with its tag. */
  lemma {:induction false} LetterForOne(msgs: seq<Message>, m: Message, i: nat)
    requires i < |msgs| && FirstWithTag(msgs, i, m)
    ensures DeadLetters(msgs, [m.record.event]) == Some([msgs[i]])
  {
    var failed, tag := [m.record.event], TagOf(m.record.event);
    assert failed[1..] == [] && Tags(failed) == {tag};
    assert tag in Seen(msgs, |msgs|);
    DeadLetterContract(msgs, failed);
    OnlyFirst(msgs, m, i, 0);
  }

  lemma {:induction false} ShadowedGetsNoLetter(msgs: seq<Message>, m: Message)
    requires m in msgs && Shadowed(msgs, m)
    ensures DeadLetters(msgs, [m.record.event]).Some? && Listed([m.record.event], m)
    ensures !Buried(DeadLetters(msgs, [m.record.event]).value, m)
  {
    var i :| 0 <= i < |msgs| && FirstWithTag(msgs, i, m) && Confused(msgs[i], m);
    LetterForOne(msgs, m, i);
    assert KeyOf([m.record.event][0]) == KeyOf(m.record.event);
  }

  ghost predicate Unconfused(msgs: seq<Message>) {
    forall i, j :: 0 <= i < |msgs| && 0 <= j < |msgs| ==> !Confused(msgs[i], msgs[j])
  }

  /** Some message of a batch is shadowed exactly when two of them are confused. */
  lemma {:induction false} ShadowedIffConfused(msgs: seq<Message>)
    ensures Unconfused(msgs) <==> forall m :: m in msgs ==> !Shadowed(msgs, m)
  {
    if !Unconfused(msgs) {
      var a, b :| 0 <= a < |msgs| && 0 <= b < |msgs| && Confused(msgs[a], msgs[b]);
      var i := FindFirst(msgs, msgs[a], a);
      var m := if Confused(msgs[i], msgs[a]) then msgs[a] else msgs[b];
      assert m in msgs && FirstWithTag(msgs, i, m) && Confused(msgs[i], m);
      assert Shadowed(msgs, m);
    }
  }

  /** Every write covers what it lists. */
  ghost predicate WritesCover(msgs: seq<Message>) {
    forall failed, m :: m in msgs && DeadLetters(msgs, failed).Some? && Listed(failed, m) ==> Buried(DeadLetters(msgs, failed).value, m)
  }

  /** Dead-lettering covers every listed message, whatever is listed, exactly on batches without confused messages. */
  lemma {:induction false} WritesCoverIff(msgs: seq<Message>)
    ensures WritesCover(msgs) <==> Unconfused(msgs)
  {
    ShadowedIffConfused(msgs);
    if Unconfused(msgs) {
      forall failed, m | m in msgs && DeadLetters(msgs, failed).Some? && Listed(failed, m)
        ensures Buried(DeadLetters(msgs, failed).value, m)
      {
        LettersCoverListed(msgs, failed, DeadLetters(msgs, failed).value, m);
      }
    } else {
      var m :| m in msgs && Shadowed(msgs, m);
      ShadowedGetsNoLetter(msgs, m);
      assert !WritesCover(msgs);
    }
  }
}
