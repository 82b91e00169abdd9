/** Events, their logical identity, and the string keys the source builds from two fields. */
module Events {

  datatype Option<+T> = None | Some(value: T)

  datatype Event = Event(tenant: string, id: string, kind: string, timestamp: int, payload: int)

  /** The logical identity of an event: unique per tenant. */
  datatype Key = Key(tenant: string, id: string)

  function KeyOf(e: Event): Key {
    Key(e.tenant, e.id)
  }

  const NUL: char := '\0'

  predicate NulFree(s: string) {
    NUL !in s
  }

  /** The source's composite map key: two fields separated by a NUL character. */
  function Joined(first: string, second: string): string {
    first + [NUL] + second
  }

  /** Composite keys determine both fields as long as the first one holds no NUL. */
  lemma {:induction false} JoinedInjective(a: string, b: string, c: string, d: string)
    requires NulFree(a) && NulFree(c)
    requires Joined(a, b) == Joined(c, d)
    ensures a == c && b == d
  {
    var s := Joined(a, b);
    assert s[|a|] == NUL && s[|c|] == NUL;
    assert forall i :: 0 <= i < |a| ==> s[i] == a[i] != NUL;
    assert forall i :: 0 <= i < |c| ==> s[i] == Joined(c, d)[i] == c[i] != NUL;
    assert |a| == |c|;
    assert a == s[..|a|] == c;
    assert b == s[|a| + 1..] == d;
  }

  /** Every first field holding a NUL shares its composite keys with a different pair. */
  lemma {:induction false} JoinedCollides(x: string, y: string, b: string)
    ensures Joined(x + [NUL] + y, b) == Joined(x, y + [NUL] + b)
    ensures x + [NUL] + y != x
  {
    assert |x + [NUL] + y| > |x|;
  }

  lemma {:induction false} SubsetSize<T>(a: set<T>, b: set<T>)
    requires a <= b
    ensures |a| <= |b|
  {
    if a != {} {
      var x :| x in a;
      SubsetSize(a - {x}, b - {x});
    }
  }
}
