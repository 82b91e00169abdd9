/** The events table with its unique (tenant, event) constraint, and the statements that fill it. */
module EventTable {
  import opened Events

  type Table = map<Key, Event>

  function Lookup(t: Table, k: Key): Option<Event> {
    if k in t then Some(t[k]) else None
  }

  /** INSERT of one row ... ON CONFLICT DO NOTHING. */
  function Save(t: Table, e: Event): Table {
    if KeyOf(e) in t then t else t[KeyOf(e) := e]
  }

  /** One save after another. */
  function SaveAll(t: Table, batch: seq<Event>): Table
    decreases |batch|
  {
    if batch == [] then t else SaveAll(Save(t, batch[0]), batch[1..])
  }

  /** The first event of a list with the given identity. */
  function First(es: seq<Event>, k: Key): Option<Event> {
    if es == [] then None
    else if es[0].tenant == k.tenant && es[0].id == k.id then Some(es[0])
    else First(es[1..], k)
  }

  function OrElse<T>(a: Option<T>, b: Option<T>): Option<T> {
    if a.Some? then a else b
  }

  lemma {:induction false} FirstOfConcat(a: seq<Event>, b: seq<Event>, k: Key)
    ensures First(a + b, k) == OrElse(First(a, k), First(b, k))
  {
    if a == [] {
      assert a + b == b;
    } else {
      assert (a + b)[1..] == a[1..] + b;
      FirstOfConcat(a[1..], b, k);
    }
  }

  /** The first occurrence of an identity wins: what the table holds already, else the batch's first. */
  lemma {:induction false} SaveAllKeepsFirst(t: Table, batch: seq<Event>, k: Key)
    ensures Lookup(SaveAll(t, batch), k) == OrElse(Lookup(t, k), First(batch, k))
    decreases |batch|
  {
    if batch != [] {
      SaveAllKeepsFirst(Save(t, batch[0]), batch[1..], k);
    }
  }

  // ---------------------------------------------------------------- bulk statements

  /** A row that COPY would insert twice, or that the table already has. */
  predicate Conflicts(t: Table, batch: seq<Event>)
    decreases |batch|
  {
    batch != [] && (KeyOf(batch[0]) in t || Conflicts(t[KeyOf(batch[0]) := batch[0]], batch[1..]))
  }

  predicate SameRow(a: Event, b: Event) {
    a.tenant == b.tenant && a.id == b.id
  }

  /** A copy conflicts exactly when the table has one of its rows or two of them share tenant and event. */
  lemma {:induction false} ConflictsIff(t: Table, batch: seq<Event>)
    ensures Conflicts(t, batch) <==>
      || (exists i :: 0 <= i < |batch| && Key(batch[i].tenant, batch[i].id) in t)
      || (exists i, j :: 0 <= i < j < |batch| && SameRow(batch[i], batch[j]))
    decreases |batch|
  {
    if batch != [] {
      var e, rest := batch[0], batch[1..];
      var t1 := t[KeyOf(e) := e];
      ConflictsIff(t1, rest);
      assert forall i :: 0 <= i < |rest| ==> rest[i] == batch[i + 1];
      if i :| 0 <= i < |rest| && Key(rest[i].tenant, rest[i].id) in t1 {
        assert Key(batch[i + 1].tenant, batch[i + 1].id) in t || SameRow(batch[0], batch[i + 1]);
      }
      if i, j :| 0 <= i < j < |rest| && SameRow(rest[i], rest[j]) {
        assert SameRow(batch[i + 1], batch[j + 1]);
      }
      if i :| 0 <= i < |batch| && Key(batch[i].tenant, batch[i].id) in t {
        assert i > 0 ==> Key(rest[i - 1].tenant, rest[i - 1].id) in t1;
      }
      if i, j :| 0 <= i < j < |batch| && SameRow(batch[i], batch[j]) {
        assert if i > 0 then SameRow(rest[i - 1], rest[j - 1]) else Key(rest[j - 1].tenant, rest[j - 1].id) in t1;
      }
    }
  }

  /** COPY: every row as it is. */
  function CopyRows(t: Table, batch: seq<Event>): Table
    decreases |batch|
  {
    if batch == [] then t else CopyRows(t[KeyOf(batch[0]) := batch[0]], batch[1..])
  }

  lemma {:induction false} CopyIsSaveAll(t: Table, batch: seq<Event>)
    requires !Conflicts(t, batch)
    ensures CopyRows(t, batch) == SaveAll(t, batch)
    decreases |batch|
  {
    if batch != [] {
      CopyIsSaveAll(t[KeyOf(batch[0]) := batch[0]], batch[1..]);
    }
  }

  datatype Cell = Text(text: string) | Instant(instant: int) | Json(json: int) | Unbound

  function Cells(e: Event): (row: seq<Cell>)
    ensures |row| == 5
  {
    [Text(e.tenant), Text(e.id), Text(e.kind), Instant(e.timestamp), Json(e.payload)]
  }

  /** The event a row of five cells stores; a row of the wrong shape stores none. */
  function Stored(row: seq<Cell>): Option<Event> {
    if |row| == 5 && row[0].Text? && row[1].Text? && row[2].Text? && row[3].Instant? && row[4].Json?
    then Some(Event(row[0].text, row[1].text, row[2].text, row[3].instant, row[4].json))
    else None
  }

  /** Placeholder `$n` stands for argument n, counted from one. */
  function Bind(row: seq<int>, args: seq<Cell>): seq<Cell> {
    seq(|row|, j requires 0 <= j < |row| => if 1 <= row[j] <= |args| then args[row[j] - 1] else Unbound)
  }

  /** INSERT of several rows ... ON CONFLICT DO NOTHING. */
  function InsertRows(t: Table, placeholders: seq<seq<int>>, args: seq<Cell>): Table
    decreases |placeholders|
  {
    if placeholders == [] then t
    else
      var row := Stored(Bind(placeholders[0], args));
      InsertRows(if row.Some? then Save(t, row.value) else t, placeholders[1..], args)
  }

  /** Every row binds to the cells of its own event. */
  ghost predicate LinedUp(placeholders: seq<seq<int>>, args: seq<Cell>, batch: seq<Event>) {
    |placeholders| == |batch| && forall i :: 0 <= i < |batch| ==> Bind(placeholders[i], args) == Cells(batch[i])
  }

  lemma {:induction false} InsertIsSaveAll(t: Table, placeholders: seq<seq<int>>, args: seq<Cell>, batch: seq<Event>)
    requires LinedUp(placeholders, args, batch)
    ensures InsertRows(t, placeholders, args) == SaveAll(t, batch)
    decreases |batch|
  {
    if batch != [] {
      assert Bind(placeholders[0], args) == Cells(batch[0]);
      assert LinedUp(placeholders[1..], args, batch[1..]);
      InsertIsSaveAll(Save(t, batch[0]), placeholders[1..], args, batch[1..]);
    }
  }

  /** How a statement fares apart from its constraints: it may be lost, before or after taking effect. */
  datatype Fault = NoFault | Lost(applied: bool)

  datatype Error = UniqueViolation | Other

  class Postgres {
    var events: Table

    constructor ()
      ensures events == map[]
    {
      events := map[];
    }

    method SaveEvent(e: Event, fault: Fault) returns (inserted: bool, err: Option<Error>)
      modifies this
      ensures err == None <==> fault == NoFault
      ensures events == if fault == Lost(false) then old(events) else Save(old(events), e)
      ensures inserted <==> err == None && KeyOf(e) !in old(events)
    {
      inserted := fault == NoFault && KeyOf(e) !in events;
      if fault != Lost(false) {
        events := Save(events, e);
      }
      err := if fault == NoFault then None else Some(Other);
    }

    /** COPY in one transaction: a unique violation undoes it all. */
    method CopyFrom(batch: seq<Event>, fault: Fault) returns (err: Option<Error>)
      modifies this
      ensures err == if fault != NoFault then Some(Other) else if Conflicts(old(events), batch) then Some(UniqueViolation) else None
      ensures events == if fault == Lost(false) || Conflicts(old(events), batch) then old(events) else CopyRows(old(events), batch)
    {
      err := None;
      if Conflicts(events, batch) {
        err := Some(UniqueViolation);
      } else if fault != Lost(false) {
        events := CopyRows(events, batch);
      }
      if fault != NoFault {
        err := Some(Other);
      }
    }

    /** Saves a batch: COPY first, and on a unique violation a multi-row insert that skips known rows. */
    method SaveEvents(batch: seq<Event>, copyFault: Fault, insertFault: Fault) returns (err: Option<Error>)
      modifies this
      ensures err == None ==> events == SaveAll(old(events), batch)
      ensures err != None ==> events == old(events) || events == SaveAll(old(events), batch)
      ensures err == None <==>
        batch == [] || (copyFault == NoFault && (!Conflicts(old(events), batch) || insertFault == NoFault))
    {
      if |batch| == 0 {
        return None;
      }
      if !Conflicts(events, batch) {
        CopyIsSaveAll(events, batch);
      }
      err := CopyFrom(batch, copyFault);
      if err == None {
        return None;
      }
      if err != Some(UniqueViolation) {
        return err;
      }
      err := SaveEventsInsert(batch, insertFault);
    }

    method SaveEventsInsert(batch: seq<Event>, fault: Fault) returns (err: Option<Error>)
      modifies this
      ensures err == None <==> fault == NoFault
      ensures events == if fault == Lost(false) then old(events) else SaveAll(old(events), batch)
    {
      var placeholders, args := BuildInsert(batch);
      InsertIsSaveAll(events, placeholders, args, batch);
      if fault != Lost(false) {
        events := InsertRows(events, placeholders, args);
      }
      err := if fault == NoFault then None else Some(Other);
    }
  }

  /** Numbers the placeholders so that every row binds to the cells of its own event, for any batch length. */
  method BuildInsert(batch: seq<Event>) returns (placeholders: seq<seq<int>>, args: seq<Cell>)
    ensures |args| == 5 * |batch| && |placeholders| == |batch|
    ensures forall i :: 0 <= i < |batch| ==> placeholders[i] == [5 * i + 1, 5 * i + 2, 5 * i + 3, 5 * i + 4, 5 * i + 5]
    ensures LinedUp(placeholders, args, batch)
  {
    placeholders, args := [], [];
    var i := 0;
    while i < |batch|
      invariant 0 <= i <= |batch| && |placeholders| == i && |args| == 5 * i
      invariant forall r :: 0 <= r < i ==> placeholders[r] == Numbers(r)
      invariant forall r :: 0 <= r < i ==> args[5 * r..5 * r + 5] == Cells(batch[r])
    {
      var base := i * 5 + 1;
      placeholders := placeholders + [[base, base + 1, base + 2, base + 3, base + 4]];
      ghost var before := args;
      args := args + Cells(batch[i]);
      assert forall r :: 0 <= r < i ==> args[5 * r..5 * r + 5] == before[5 * r..5 * r + 5];
      assert args[5 * i..5 * i + 5] == Cells(batch[i]);
      i := i + 1;
    }
    forall r | 0 <= r < |batch| ensures Bind(placeholders[r], args) == Cells(batch[r]) {
      assert Bind(placeholders[r], args) == args[5 * r..5 * r + 5];
    }
  }

  ghost function Numbers(r: nat): seq<int> {
    [5 * r + 1, 5 * r + 2, 5 * r + 3, 5 * r + 4, 5 * r + 5]
  }
}
