/** The tenant store and the cache in front of it, used one call at a time. */
module AuthCache {
  import opened Events

  /** Digests stand for SHA-256 sums, taken to be injective. */
  datatype Digest = Digest(key: string)

  datatype Tenant = Tenant(id: string, name: string, keyHash: Digest, active: bool, createdAt: int, updatedAt: int)

  type Tenants = map<string, Tenant>

  datatype Cached = Cached(tenant: Tenant, expires: int)

  type Items = map<Digest, Cached>

  const MAX_CACHED_KEYS: nat := 4096

  /** One call with the values it generates or reads: identifiers, keys, clock readings, and the key to evict if need be. */
  datatype Op =
    | Create(name: string, id: string, key: string, now: int)
    | Rotate(id: string, key: string, now: int)
    | Authenticate(key: string, now: int, victim: Digest)
    | Get(id: string)

  datatype Result = Created(tenant: Tenant, key: string) | Rotated(key: string) | Found(tenant: Tenant)
                  | NameRequired | NotFound | Unauthorized

  /** White space as name trimming understands it. */
  predicate IsSpace(c: char) {
    || c in " \t\n\r\U{0B}\U{0C}\U{85}\U{A0}\U{1680}\U{2028}\U{2029}\U{202F}\U{205F}\U{3000}"
    || '\U{2000}' <= c <= '\U{200A}'
  }

  /** ... which is what Unicode calls white space. */
  lemma {:induction false} SpacesAre(c: char)
    ensures IsSpace(c) <==>
      var n := c as int;
      || 9 <= n <= 13 || n == 32 || n == 0x85 || n == 0xA0 || n == 0x1680 || 0x2000 <= n <= 0x200A
      || n == 0x2028 || n == 0x2029 || n == 0x202F || n == 0x205F || n == 0x3000
  {
  }

  predicate Blank(name: string) {
    forall i :: 0 <= i < |name| ==> IsSpace(name[i])
  }

  predicate Matches(t: Tenant, h: Digest) {
    t.active && t.keyHash == h
  }

  // ---------------------------------------------------------------- the bare store

  function CreateStep(ts: Tenants, name: string, id: string, key: string, now: int): (Tenants, Result) {
    if Blank(name) then (ts, NameRequired)
    else
      var t := Tenant(id, name, Digest(key), true, now, now);
      (ts[id := t], Created(t, key))
  }

  function RotateStep(ts: Tenants, id: string, key: string, now: int): (Tenants, Result) {
    if id !in ts then (ts, NotFound)
    else (ts[id := ts[id].(keyHash := Digest(key), updatedAt := now)], Rotated(key))
  }

  /** The answers the store may give: some active tenant with that key hash, or none if there is none. */
  ghost predicate MayAnswer(ts: Tenants, h: Digest, r: Result) {
    if exists id :: id in ts && Matches(ts[id], h) then r.Found? && exists id :: id in ts && ts[id] == r.tenant && Matches(ts[id], h)
    else r == Unauthorized
  }

  ghost function AuthStep(ts: Tenants, h: Digest): (r: Result)
    ensures MayAnswer(ts, h, r)
  {
    if exists id :: id in ts && Matches(ts[id], h) then
      var id :| id in ts && Matches(ts[id], h);
      Found(ts[id])
    else Unauthorized
  }

  function GetStep(ts: Tenants, id: string): Result {
    if id in ts then Found(ts[id]) else NotFound
  }

  ghost function BareStep(ts: Tenants, op: Op): (Tenants, Result) {
    match op
    case Create(name, id, key, now) => CreateStep(ts, name, id, key, now)
    case Rotate(id, key, now) => RotateStep(ts, id, key, now)
    case Authenticate(key, _, _) => (ts, AuthStep(ts, Digest(key)))
    case Get(id) => (ts, GetStep(ts, id))
  }

  /** The answers for a key do not depend on which of the two tenant tables is asked. */
  ghost predicate AnsweredAlike(ts: Tenants, ts1: Tenants, key: string) {
    forall r :: MayAnswer(ts, Digest(key), r) <==> MayAnswer(ts1, Digest(key), r)
  }

  /**
   A tenant that was created can be found by its identifier and authenticated by the key handed out, as
   an active tenant of the given name; no other key or identifier is affected.  A blank name is an error.
   */
  lemma {:induction false} CreatedTenantWorks(ts: Tenants, name: string, id: string, key: string, now: int)
    requires id !in ts && Unused(ts, key)
    ensures Blank(name) ==> CreateStep(ts, name, id, key, now) == (ts, NameRequired)
    ensures !Blank(name) ==>
      var (ts1, r) := CreateStep(ts, name, id, key, now);
      && r.Created? && r.key == key && r.tenant.id == id && r.tenant.name == name && r.tenant.createdAt == r.tenant.updatedAt == now
      && AuthStep(ts1, Digest(key)) == Found(r.tenant)
      && GetStep(ts1, id) == Found(r.tenant)
      && (forall other :: other != key ==> AnsweredAlike(ts, ts1, other))
      && (forall other :: other != id ==> GetStep(ts1, other) == if other in ts then Found(ts[other]) else NotFound)
  {
    if !Blank(name) {
      var (ts1, r) := CreateStep(ts, name, id, key, now);
      assert Matches(ts1[id], Digest(key));
      forall other | other != key ensures AnsweredAlike(ts, ts1, other) {
        OthersAlike(ts, ts1, id, other);
      }
    }
  }

  lemma {:induction false} OthersAlike(ts: Tenants, ts1: Tenants, id: string, key: string)
    requires forall x :: x != id ==> (x in ts <==> x in ts1) && (x in ts ==> ts1[x] == ts[x])
    requires id in ts ==> !Matches(ts[id], Digest(key))
    requires id in ts1 ==> !Matches(ts1[id], Digest(key))
    ensures AnsweredAlike(ts, ts1, key)
  {
    assert forall x :: x in ts && Matches(ts[x], Digest(key)) ==> x in ts1 && ts1[x] == ts[x];
    assert forall x :: x in ts1 && Matches(ts1[x], Digest(key)) ==> x in ts && ts1[x] == ts[x];
  }

  /**
   After a rotation the new key authenticates the tenant, which is otherwise the same, and the old key
   nobody; no other key is affected.  An unknown tenant is an error.
   */
  lemma {:induction false} RotatedKeyWorks(ts: Tenants, id: string, former: string, key: string, now: int)
    requires Registered(ts) && Unused(ts, key)
    ensures id !in ts ==> RotateStep(ts, id, key, now) == (ts, NotFound)
    ensures id in ts && ts[id].keyHash == Digest(former) ==>
      var (ts1, r) := RotateStep(ts, id, key, now);
      && r == Rotated(key) && id in ts1
      && ts1[id].id == id && ts1[id].name == ts[id].name && ts1[id].active == ts[id].active
      && ts1[id].createdAt == ts[id].createdAt && ts1[id].updatedAt == now
      && AuthStep(ts1, Digest(key)) == (if ts[id].active then Found(ts1[id]) else Unauthorized)
      && AuthStep(ts1, Digest(former)) == Unauthorized
      && (forall other :: other != key && other != former ==> AnsweredAlike(ts, ts1, other))
  {
    if id in ts && ts[id].keyHash == Digest(former) {
      var (ts1, r) := RotateStep(ts, id, key, now);
      assert former != key;
      assert forall x :: x in ts1 && x != id ==> ts1[x].keyHash != Digest(key) && ts1[x].keyHash != Digest(former);
      assert ts[id].active ==> Matches(ts1[id], Digest(key));
      forall other | other != key && other != former ensures AnsweredAlike(ts, ts1, other) {
        OthersAlike(ts, ts1, id, other);
      }
    }
  }

  // ---------------------------------------------------------------- the cached store

  function Purge(items: Items, id: string): Items {
    map h | h in items && items[h].tenant.id != id :: items[h]
  }

  function DropExpired(items: Items, now: int): Items {
    map h | h in items && now < items[h].expires :: items[h]
  }

  /** Makes room for one more key by dropping one, whichever iteration meets first. */
  ghost function MakeRoom(items: Items, victim: Digest): Items {
    if |items| < MAX_CACHED_KEYS then items
    else if victim in items then items - {victim}
    else var h :| h in items; items - {h}
  }

  ghost function Insert(items: Items, h: Digest, t: Tenant, now: int, ttl: int, victim: Digest): Items {
    MakeRoom(DropExpired(items, now), victim)[h := Cached(t, now + ttl)]
  }

  ghost function CachedAuth(ts: Tenants, items: Items, h: Digest, now: int, ttl: int, victim: Digest): (Items, Result) {
    if h in items && now < items[h].expires then (items, Found(items[h].tenant))
    else
      var r := AuthStep(ts, h);
      if r.Found? then (Insert(items - {h}, h, r.tenant, now, ttl, victim), r) else (items - {h}, r)
  }

  ghost function CachedStep(ts: Tenants, items: Items, ttl: int, op: Op): (Tenants, Items, Result) {
    match op
    case Rotate(id, key, now) =>
      var (ts1, r) := RotateStep(ts, id, key, now);
      (ts1, if r.Rotated? then Purge(items, id) else items, r)
    case Authenticate(key, now, victim) =>
      var (items1, r) := CachedAuth(ts, items, Digest(key), now, ttl, victim);
      (ts, items1, r)
    case _ =>
      var (ts1, r) := BareStep(ts, op);
      (ts1, items, r)
  }

  /**
   An insert keeps every entry that has not expired as long as there are fewer than 4096 of them, drops
   exactly one of them otherwise, and adds its own until the time to live is over.
   */
  lemma {:induction false} InsertKeepsOthers(items: Items, h: Digest, t: Tenant, now: int, ttl: int, victim: Digest)
    ensures
      var live := set k | k in items && now < items[k].expires;
      var items1 := Insert(items, h, t, now, ttl, victim);
      && h in items1 && items1[h] == Cached(t, now + ttl)
      && (forall k :: k in items1 && k != h ==> k in live && items1[k] == items[k])
      && (|live| < 4096 ==> forall k :: k in live ==> k in items1)
      && (|live| >= 4096 ==> exists x :: x in live && items1.Keys == live - {x} + {h})
  {
    var live := set k | k in items && now < items[k].expires;
    var kept := DropExpired(items, now);
    assert kept.Keys == live && |kept| == |kept.Keys|;
    if |live| >= 4096 {
      var room := MakeRoom(kept, victim);
      var x :| x in kept && room == kept - {x};
      assert room.Keys == live - {x};
    }
  }

  // ---------------------------------------------------------------- agreement

  ghost function BareRun(ts: Tenants, ops: seq<Op>): seq<Result>
    decreases |ops|
  {
    if ops == [] then []
    else var (ts1, r) := BareStep(ts, ops[0]); [r] + BareRun(ts1, ops[1..])
  }

  ghost function CachedRun(ts: Tenants, items: Items, ttl: int, ops: seq<Op>): seq<Result>
    decreases |ops|
  {
    if ops == [] then []
    else var (ts1, items1, r) := CachedStep(ts, items, ttl, ops[0]); [r] + CachedRun(ts1, items1, ttl, ops[1..])
  }

  ghost predicate Unused(ts: Tenants, key: string) {
    forall id :: id in ts ==> ts[id].keyHash != Digest(key)
  }

  /** Generated identifiers and keys do not collide with those in use. */
  ghost predicate Fresh(ts: Tenants, op: Op) {
    match op
    case Create(_, id, key, _) => id !in ts && Unused(ts, key)
    case Rotate(_, key, _) => Unused(ts, key)
    case _ => true
  }

  ghost predicate FreshRun(ts: Tenants, ops: seq<Op>)
    decreases |ops|
  {
    ops == [] || (Fresh(ts, ops[0]) && FreshRun(BareStep(ts, ops[0]).0, ops[1..]))
  }

  ghost predicate Registered(ts: Tenants) {
    && (forall id :: id in ts ==> ts[id].id == id)
    && (forall i, j :: i in ts && j in ts && ts[i].keyHash == ts[j].keyHash ==> i == j)
  }

  /** Every cached tenant is the current one for its key. */
  ghost predicate Current(ts: Tenants, items: Items) {
    forall h :: h in items ==>
      var t := items[h].tenant;
      t.id in ts && ts[t.id] == t && Matches(t, h)
  }

  lemma {:induction false} AnswerIsUnique(ts: Tenants, h: Digest, id: string)
    requires Registered(ts) && id in ts && Matches(ts[id], h)
    ensures AuthStep(ts, h) == Found(ts[id])
  {
  }

  lemma {:induction false} AuthAgrees(ts: Tenants, items: Items, h: Digest, now: int, ttl: int, victim: Digest)
    requires Registered(ts) && Current(ts, items)
    ensures
      var (items1, r) := CachedAuth(ts, items, h, now, ttl, victim);
      r == AuthStep(ts, h) && Current(ts, items1)
  {
    if h in items && now < items[h].expires {
      AnswerIsUnique(ts, h, items[h].tenant.id);
    }
  }

  lemma {:induction false} RotateKeepsCurrent(ts: Tenants, items: Items, id: string, key: string, now: int)
    requires Registered(ts) && Current(ts, items) && Unused(ts, key)
    ensures
      var (ts1, r) := RotateStep(ts, id, key, now);
      Registered(ts1) && Current(ts1, if r.Rotated? then Purge(items, id) else items)
  {
  }

  lemma {:induction false} StepAgrees(ts: Tenants, items: Items, ttl: int, op: Op)
    requires Registered(ts) && Current(ts, items) && Fresh(ts, op)
    ensures
      var (ts1, items1, r) := CachedStep(ts, items, ttl, op);
      (ts1, r) == BareStep(ts, op) && Registered(ts1) && Current(ts1, items1)
  {
    match op
    case Create(name, id, key, now) =>
    case Rotate(id, key, now) => RotateKeepsCurrent(ts, items, id, key, now);
    case Authenticate(key, now, victim) => AuthAgrees(ts, items, Digest(key), now, ttl, victim);
    case Get(_) =>
  }

  /** Used one call at a time, the cached store answers every call exactly as the bare store, at any clock readings. */
  lemma {:induction false} CacheAgrees(ts: Tenants, items: Items, ttl: int, ops: seq<Op>)
    requires Registered(ts) && Current(ts, items) && FreshRun(ts, ops)
    ensures CachedRun(ts, items, ttl, ops) == BareRun(ts, ops)
    decreases |ops|
  {
    if ops != [] {
      StepAgrees(ts, items, ttl, ops[0]);
      var (ts1, items1, r) := CachedStep(ts, items, ttl, ops[0]);
      CacheAgrees(ts1, items1, ttl, ops[1..]);
    }
  }

  // ---------------------------------------------------------------- the classes

  class MemoryStore {
    var tenants: Tenants

    constructor ()
      ensures tenants == map[]
    {
      tenants := map[];
    }

    method Create(name: string, id: string, key: string, now: int) returns (r: Result)
      modifies this
      ensures (tenants, r) == CreateStep(old(tenants), name, id, key, now)
    {
      if Blank(name) {
        return NameRequired;
      }
      var t := Tenant(id, name, Digest(key), true, now, now);
      tenants := tenants[t.id := t];
      return Created(t, key);
    }

    method RotateKey(id: string, key: string, now: int) returns (r: Result)
      modifies this
      ensures (tenants, r) == RotateStep(old(tenants), id, key, now)
    {
      if id !in tenants {
        return NotFound;
      }
      var t := tenants[id];
      t := t.(keyHash := Digest(key), updatedAt := now);
      tenants := tenants[id := t];
      return Rotated(key);
    }

    /** Scans the tenants in any order. */
    method Authenticate(key: string) returns (r: Result)
      ensures MayAnswer(tenants, Digest(key), r)
    {
      var left := tenants.Keys;
      while left != {}
        invariant left <= tenants.Keys
        invariant forall id :: id in tenants && id !in left ==> !Matches(tenants[id], Digest(key))
        decreases left
      {
        var id :| id in left;
        if Matches(tenants[id], Digest(key)) {
          return Found(tenants[id]);
        }
        left := left - {id};
      }
      return Unauthorized;
    }

    method Get(id: string) returns (r: Result)
      ensures r == if id in tenants then Found(tenants[id]) else NotFound
    {
      if id in tenants {
        return Found(tenants[id]);
      }
      return NotFound;
    }
  }

  class CachedStore {
    const inner: MemoryStore
    const ttl: int
    var items: Items

    constructor (inner: MemoryStore, ttl: int)
      ensures this.inner == inner && this.ttl == ttl && items == map[]
    {
      this.inner, this.ttl, this.items := inner, ttl, map[];
    }

    ghost predicate Valid()
      reads this, inner
    {
      Registered(inner.tenants) && Current(inner.tenants, items) && |items| <= 4096
    }

    method RotateKey(id: string, key: string, now: int) returns (r: Result)
      requires Valid() && Unused(inner.tenants, key)
      modifies this, inner
      ensures Valid()
      ensures (inner.tenants, items, r)
           == CachedStep(old(inner.tenants), old(items), ttl, Rotate(id, key, now))
      ensures id !in old(inner.tenants) ==> r == NotFound && items == old(items)
      ensures id in old(inner.tenants) ==>
        && (forall h :: h in items <==> h in old(items) && old(items)[h].tenant.id != id)
        && (forall h :: h in items ==> items[h] == old(items)[h])
    {
      RotateKeepsCurrent(inner.tenants, items, id, key, now);
      r := inner.RotateKey(id, key, now);
      if r == NotFound {
        return;
      }
      PurgeShrinks(items, id);
      var left := items.Keys;
      ghost var before := items;
      while left != {}
        invariant left <= before.Keys && items.Keys <= before.Keys
        invariant inner.tenants == RotateStep(old(inner.tenants), id, key, now).0
        invariant forall h :: h in before ==> (h in items <==> h in left || before[h].tenant.id != id)
        invariant forall h :: h in items ==> items[h] == before[h]
        decreases left
      {
        var h :| h in left;
        if h in items && items[h].tenant.id == id {
          items := items - {h};
        }
        left := left - {h};
      }
      assert items == Purge(before, id);
    }

    /** A hit answers from the cache; a miss asks the store and makes room for its answer. */
    method Authenticate(key: string, now: int) returns (r: Result, ghost victim: Digest)
      requires Valid()
      modifies this`items
      ensures Valid()
      ensures (items, r) == CachedAuth(inner.tenants, old(items), Digest(key), now, ttl, victim)
      ensures r == AuthStep(inner.tenants, Digest(key))
    {
      var h := Digest(key);
      victim := h;
      AuthAgrees(inner.tenants, items, h, now, ttl, h);
      if h in items && now < items[h].expires {
        return Found(items[h].tenant), h;
      }
      ghost var before := items;
      items := items - {h};
      RemovalShrinks(before, h);
      r := inner.Authenticate(key);
      assert r == AuthStep(inner.tenants, h) by {
        if r.Found? {
          var id :| id in inner.tenants && inner.tenants[id] == r.tenant && Matches(inner.tenants[id], h);
          AnswerIsUnique(inner.tenants, h, id);
        }
      }
      if r == Unauthorized {
        return;
      }
      victim := StoreFresh(h, r.tenant, now);
      AuthAgrees(inner.tenants, before, h, now, ttl, victim);
    }

    /** Drops what has expired, makes room if the cache is full, and stores the new entry. */
    method StoreFresh(h: Digest, t: Tenant, now: int) returns (ghost victim: Digest)
      requires |items| <= MAX_CACHED_KEYS
      modifies this`items
      ensures items == Insert(old(items), h, t, now, ttl, victim)
      ensures |items| <= MAX_CACHED_KEYS
    {
      victim := h;
      DropShrinks(items, now);
      var left := items.Keys;
      while left != {}
        invariant left <= old(items).Keys && items.Keys <= old(items).Keys
        invariant forall k :: k in old(items) ==> (k in items <==> k in left || now < old(items)[k].expires)
        invariant forall k :: k in items ==> items[k] == old(items)[k]
        decreases left
      {
        var k :| k in left;
        if k in items && !(now < items[k].expires) {
          items := items - {k};
        }
        left := left - {k};
      }
      assert items == DropExpired(old(items), now);
      if |items| >= MAX_CACHED_KEYS {
        var k :| k in items;
        victim := k;
        RemovalShrinks(items, k);
        items := items - {k};
      }
      InsertGrows(items, h, Cached(t, now + ttl));
      items := items[h := Cached(t, now + ttl)];
    }
  }

  lemma {:induction false} RemovalShrinks(items: Items, h: Digest)
    ensures |items - {h}| == if h in items then |items| - 1 else |items|
  {
    assert (items - {h}).Keys == items.Keys - {h};
    assert |items| == |items.Keys| && |items - {h}| == |(items - {h}).Keys|;
  }

  lemma {:induction false} InsertGrows(items: Items, h: Digest, c: Cached)
    ensures |items[h := c]| <= |items| + 1
  {
    assert items[h := c].Keys == items.Keys + {h};
    assert |items| == |items.Keys| && |items[h := c]| == |items[h := c].Keys|;
  }

  lemma {:induction false} DropShrinks(items: Items, now: int)
    ensures |DropExpired(items, now)| <= |items|
  {
    SubsetSize(DropExpired(items, now).Keys, items.Keys);
    assert |items| == |items.Keys| && |DropExpired(items, now)| == |DropExpired(items, now).Keys|;
  }

  lemma {:induction false} PurgeShrinks(items: Items, id: string)
    ensures |Purge(items, id)| <= |items|
  {
    SubsetSize(Purge(items, id).Keys, items.Keys);
    assert |items| == |items.Keys| && |Purge(items, id)| == |Purge(items, id).Keys|;
  }
}
