/** The entry store: two buckets, one by id and one by type and id, changed together in transactions. */
module Stores {
  import opened Basics
  import opened ByteStrings
  import opened Cursors
  import opened Entities

  datatype Outcome = Done | NotFound | Failed

  // Reading back what was written is total: a bucket holds the envelopes themselves, as they read back.
  datatype Tables = Tables(entries: map<Bytes, Envelope>, index: map<Bytes, Bytes>)

  const NO_TABLES := Tables(map[], map[])

  function KeyOf(e: Envelope): Bytes {
    IndexKey(e.kind, e.id)
  }

  function Stamped(e: Envelope, id: Bytes, now: Time): Envelope {
    e.(id := id, createdAt := now, updatedAt := now)
  }

  function CreateIn(t: Tables, e: Envelope): Tables {
    Tables(t.entries[e.id := Persisted(e)], t.index[KeyOf(e) := e.id])
  }

  function Refreshed(stored: Envelope, e: Envelope, now: Time): Envelope {
    e.(createdAt := stored.createdAt, updatedAt := now)
  }

  function UpdateIn(t: Tables, e: Envelope, now: Time): Tables
    requires e.id in t.entries
  {
    var stored := t.entries[e.id];
    Tables(t.entries[e.id := Persisted(Refreshed(stored, e, now))],
           if stored.kind != e.kind then (t.index - {KeyOf(stored)})[KeyOf(e) := e.id] else t.index)
  }

  function DeleteIn(t: Tables, id: Bytes): Tables
    requires id in t.entries
  {
    Tables(t.entries - {id}, t.index - {KeyOf(t.entries[id])})
  }

  /** The type index mirrors the entries: each entry has its one key, and each key its one entry. */
  ghost predicate Indexed(t: Tables) {
    && (forall id :: id in t.entries ==>
          && t.entries[id].id == id
          && KeyOf(t.entries[id]) in t.index && t.index[KeyOf(t.entries[id])] == id)
    && (forall k :: k in t.index ==> t.index[k] in t.entries && k == KeyOf(t.entries[t.index[k]]))
  }

  // The envelopes of the given ids, in the given order.
  ghost function Rows(entries: map<Bytes, Envelope>, ids: seq<Bytes>): seq<Envelope>
    requires forall id :: id in ids ==> id in entries
  {
    if ids == [] then [] else [entries[ids[0]]] + Rows(entries, ids[1..])
  }

  /** All entries in id order, and the ones of a type in the same order. */
  ghost function Listing(entries: map<Bytes, Envelope>): seq<Envelope> {
    Rows(entries, Ordered(entries.Keys))
  }

  ghost function OfKind(rows: seq<Envelope>, kind: int): seq<Envelope> {
    if rows == [] then []
    else (if rows[0].kind == kind then [rows[0]] else []) + OfKind(rows[1..], kind)
  }

  // A caller's envelope, which the store fills in.
  class EnvelopeRef {
    var value: Envelope

    constructor (value: Envelope)
      ensures this.value == value
    {
      this.value := value;
    }
  }

  class BboltStore {
    var entries: map<Bytes, Envelope>
    var index: map<Bytes, Bytes>

    ghost function View(): Tables
      reads this
    {
      Tables(entries, index)
    }

    ghost predicate Valid()
      reads this
    {
      Indexed(View())
    }

    constructor ()
      ensures View() == NO_TABLES && Valid()
    {
      entries, index := map[], map[];
    }

    /** `id` is the new UUID, when one could be drawn; `commitFails` tells whether the transaction is lost. */
    method Create(envelope: EnvelopeRef, id: Option<Bytes>, now: Time, commitFails: bool) returns (out: Outcome)
      requires Valid()
      requires id.Some? ==> id.value !in entries
      modifies this, envelope
      ensures Valid()
      ensures out == if id.None? || commitFails then Failed else Done
      ensures envelope.value == if id.Some? then Stamped(old(envelope.value), id.value, now) else old(envelope.value)
      ensures View() == if out.Done? then CreateIn(old(View()), envelope.value) else old(View())
    {
      if id.None? {
        return Failed;
      }
      envelope.value := envelope.value.(id := id.value, createdAt := now, updatedAt := now);
      if commitFails {
        return Failed;
      }
      CreateKeepsIndex(View(), envelope.value);
      entries := entries[envelope.value.id := Persisted(envelope.value)];
      index := index[IndexKey(envelope.value.kind, envelope.value.id) := envelope.value.id];
      return Done;
    }

    method Update(envelope: EnvelopeRef, now: Time, commitFails: bool) returns (out: Outcome)
      requires Valid()
      modifies this, envelope
      ensures Valid()
      ensures out == if old(envelope.value).id !in old(entries) then NotFound else if commitFails then Failed else Done
      ensures out.NotFound? ==> envelope.value == old(envelope.value)
      ensures !out.NotFound? ==> envelope.value == Refreshed(old(entries)[old(envelope.value).id], old(envelope.value), now)
      ensures View() == if out.Done? then UpdateIn(old(View()), old(envelope.value), now) else old(View())
    {
      var id := envelope.value.id;
      if id !in entries {
        return NotFound;
      }
      var stored := entries[id];
      var index' := index;
      if stored.kind != envelope.value.kind {
        index' := index' - {IndexKey(stored.kind, stored.id)};
        index' := index'[IndexKey(envelope.value.kind, id) := id];
      }
      UpdateKeepsIndex(View(), envelope.value, now);
      envelope.value := envelope.value.(createdAt := stored.createdAt, updatedAt := now);
      if commitFails {
        return Failed;
      }
      entries := entries[id := Persisted(envelope.value)];
      index := index';
      return Done;
    }

    method GetById(id: Bytes) returns (r: Option<Envelope>)
      ensures r == if id in entries then Some(entries[id]) else None
    {
      if id !in entries {
        return None;
      }
      return Some(entries[id]);
    }

    /** All envelopes, or those of one type found by a prefix scan of the index. */
    method List(kind: int) returns (envelopes: seq<Envelope>)
      requires Valid()
      ensures envelopes == if kind == 0 then Listing(entries) else OfKind(Listing(entries), kind)
    {
      envelopes := [];
      if kind == UNSPECIFIED {
        var k := Seek(entries.Keys, []);
        StartOfAll(entries.Keys, k);
        while k.Some?
          invariant k.Some? ==> k.value in entries
          invariant envelopes == Rows(entries, Ordered(Behind(entries.Keys, k)))
          decreases Ahead(entries.Keys, k)
        {
          envelopes := envelopes + [entries[k.value]];
          var next := Next(entries.Keys, k.value);
          NextMovesOn(entries.Keys, k.value, next);
          RowsAppend(entries, Behind(entries.Keys, k), k.value);
          assert k.value in Ahead(entries.Keys, k);
          k := next;
        }
        assert Behind(entries.Keys, k) == entries.Keys;
        return;
      }
      var prefix := Decimal(kind) + [COLON];
      var k := Seek(index.Keys, prefix);
      StartOfBlock(View(), kind, k);
      while k.Some? && |prefix| <= |k.value| && k.value[..|prefix|] == prefix
        invariant k.Some? ==> k.value in index && AtMost(prefix, k.value)
        invariant envelopes == Rows(entries, Ordered(Passed(View(), kind, k)))
        decreases Ahead(index.Keys, k)
      {
        var id := index[k.value];
        if id in entries {
          envelopes := envelopes + [entries[id]];
        }
        var next := Next(index.Keys, k.value);
        NextMovesOn(index.Keys, k.value, next);
        PassOne(View(), kind, k.value, next);
        RowsAppend(entries, Passed(View(), kind, k), id);
        if next.Some? && k.value != prefix {
          AtMostTransitive(prefix, k.value, next.value);
        }
        assert k.value in Ahead(index.Keys, k);
        k := next;
      }
      EndOfBlock(View(), kind, k);
      KindRows(entries, kind);
    }

    method DeleteById(id: Bytes, commitFails: bool) returns (out: Outcome)
      requires Valid()
      modifies this
      ensures Valid()
      ensures out == if id !in old(entries) then NotFound else if commitFails then Failed else Done
      ensures View() == if out.Done? then DeleteIn(old(View()), id) else old(View())
    {
      if id !in entries {
        return NotFound;
      }
      if commitFails {
        return Failed;
      }
      DeleteKeepsIndex(View(), id);
      index := index - {IndexKey(entries[id].kind, entries[id].id)};
      entries := entries - {id};
      return Done;
    }
  }

  lemma CreateKeepsIndex(t: Tables, e: Envelope)
    requires Indexed(t) && e.id !in t.entries
    ensures Indexed(CreateIn(t, e))
  {
    var t' := CreateIn(t, e);
    forall id | id in t'.entries
      ensures t'.entries[id].id == id && KeyOf(t'.entries[id]) in t'.index && t'.index[KeyOf(t'.entries[id])] == id
    {
      if id != e.id && KeyOf(t.entries[id]) == KeyOf(e) {
        IndexKeyInjective(e.kind, e.id, t.entries[id].kind, id);
      }
    }
  }

  lemma UpdateKeepsIndex(t: Tables, e: Envelope, now: Time)
    requires Indexed(t) && e.id in t.entries
    ensures Indexed(UpdateIn(t, e, now))
  {
    var t' := UpdateIn(t, e, now);
    var stored := t.entries[e.id];
    forall id | id in t.entries && id != e.id
      ensures KeyOf(t.entries[id]) != KeyOf(stored) && KeyOf(t.entries[id]) != KeyOf(e)
    {
      if KeyOf(t.entries[id]) == KeyOf(stored) {
        IndexKeyInjective(t.entries[id].kind, id, stored.kind, stored.id);
      } else if KeyOf(t.entries[id]) == KeyOf(e) {
        IndexKeyInjective(t.entries[id].kind, id, e.kind, e.id);
      }
    }
    if stored.kind != e.kind && KeyOf(stored) == KeyOf(e) {
      IndexKeyInjective(stored.kind, stored.id, e.kind, e.id);
    }
  }

  lemma DeleteKeepsIndex(t: Tables, id: Bytes)
    requires Indexed(t) && id in t.entries
    ensures Indexed(DeleteIn(t, id))
  {
    forall other | other in t.entries && other != id ensures KeyOf(t.entries[other]) != KeyOf(t.entries[id]) {
      if KeyOf(t.entries[other]) == KeyOf(t.entries[id]) {
        IndexKeyInjective(t.entries[other].kind, other, t.entries[id].kind, id);
      }
    }
  }

  // ---- Listing by type ----

  ghost function IdsOfKind(entries: map<Bytes, Envelope>, kind: int): set<Bytes> {
    set id | id in entries && entries[id].kind == kind
  }

  // The ids of a type whose index keys the cursor has left behind.
  ghost function Passed(t: Tables, kind: int, k: Option<Bytes>): set<Bytes> {
    set id | id in IdsOfKind(t.entries, kind) && IndexKey(kind, id) in Behind(t.index.Keys, k)
  }

  lemma {:induction false} RowsConcat(entries: map<Bytes, Envelope>, ids: seq<Bytes>, id: Bytes)
    requires id in entries && forall x :: x in ids ==> x in entries
    ensures Rows(entries, ids + [id]) == Rows(entries, ids) + [entries[id]]
  {
    if ids != [] {
      assert (ids + [id])[1..] == ids[1..] + [id];
      RowsConcat(entries, ids[1..], id);
    }
  }

  lemma RowsAppend(entries: map<Bytes, Envelope>, ids: set<Bytes>, id: Bytes)
    requires ids <= entries.Keys && id in entries
    requires forall x :: x in ids ==> Less(x, id)
    ensures Rows(entries, Ordered(ids + {id})) == Rows(entries, Ordered(ids)) + [entries[id]]
  {
    OrderedAppend(ids, id);
    RowsConcat(entries, Ordered(ids), id);
  }

  lemma StartOfAll(keys: set<Bytes>, k: Option<Bytes>)
    requires k.None? ==> forall x :: x in keys ==> !AtMost([], x)
    requires k.Some? ==> forall x :: x in keys && AtMost([], x) ==> AtMost(k.value, x)
    ensures Behind(keys, k) == {}
  {
    assert forall x: Bytes :: AtMost([], x);
  }

  lemma AtMostTransitive(a: Bytes, b: Bytes, c: Bytes)
    requires AtMost(a, b) && AtMost(b, c)
    ensures AtMost(a, c)
  {
    if a != b && b != c {
      Transitive(a, b, c);
    }
  }

  // Seek lands at the start of the block: no key of the type lies before it.
  lemma StartOfBlock(t: Tables, kind: int, k: Option<Bytes>)
    requires k.None? ==> forall x :: x in t.index.Keys ==> !AtMost(Prefix(kind), x)
    requires k.Some? ==> forall x :: x in t.index.Keys && AtMost(Prefix(kind), x) ==> AtMost(k.value, x)
    ensures Passed(t, kind, k) == {}
  {
    forall id ensures AtMost(Prefix(kind), IndexKey(kind, id)) {
      PrefixComesFirst(Prefix(kind), id);
    }
  }

  // A key with the prefix of a type belongs to one id of that type; the ones passed before it are smaller.
  lemma PassOne(t: Tables, kind: int, k: Bytes, next: Option<Bytes>)
    requires Indexed(t) && k in t.index && Prefix(kind) <= k
    requires Behind(t.index.Keys, next) == Behind(t.index.Keys, Some(k)) + {k}
    requires forall x :: x in Behind(t.index.Keys, Some(k)) ==> Less(x, k)
    ensures var id := t.index[k];
            && id in t.entries && k == IndexKey(kind, id)
            && Passed(t, kind, next) == Passed(t, kind, Some(k)) + {id}
            && forall x :: x in Passed(t, kind, Some(k)) ==> Less(x, id)
  {
    var id := t.index[k];
    PrefixTellsKind(kind, t.entries[id].kind, id);
    forall x | x in IdsOfKind(t.entries, kind) ensures IndexKey(kind, x) == k <==> x == id {
      if IndexKey(kind, x) == k {
        IndexKeyInjective(kind, x, kind, id);
      }
    }
    forall x | x in Passed(t, kind, Some(k)) ensures Less(x, id) {
      PrefixKeepsOrder(Prefix(kind), x, id);
    }
  }

  // The loop stops at the end of the block: every key of the type has been passed.
  lemma EndOfBlock(t: Tables, kind: int, k: Option<Bytes>)
    requires Indexed(t)
    requires k.Some? ==> AtMost(Prefix(kind), k.value) && !(Prefix(kind) <= k.value)
    ensures Passed(t, kind, k) == IdsOfKind(t.entries, kind)
  {
    forall id | id in IdsOfKind(t.entries, kind) ensures IndexKey(kind, id) in Behind(t.index.Keys, k) {
      assert KeyOf(t.entries[id]) in t.index;
      if k.Some? && AtMost(k.value, IndexKey(kind, id)) {
        if Less(k.value, IndexKey(kind, id)) {
          PrefixBlock(Prefix(kind), k.value, id);
        }
      }
    }
  }

  function HasKind(entries: map<Bytes, Envelope>, kind: int): Bytes -> bool {
    id => id in entries && entries[id].kind == kind
  }

  lemma {:induction false} FilteredRows(entries: map<Bytes, Envelope>, kind: int, ids: seq<Bytes>)
    requires forall id :: id in ids ==> id in entries
    ensures forall id :: id in Filter(ids, HasKind(entries, kind)) ==> id in entries
    ensures OfKind(Rows(entries, ids), kind) == Rows(entries, Filter(ids, HasKind(entries, kind)))
  {
    FilterElements(ids, HasKind(entries, kind));
    if ids != [] {
      FilteredRows(entries, kind, ids[1..]);
      assert Rows(entries, ids)[1..] == Rows(entries, ids[1..]);
      if entries[ids[0]].kind == kind {
        assert Filter(ids, HasKind(entries, kind))[1..] == Filter(ids[1..], HasKind(entries, kind));
      } else {
        assert Filter(ids, HasKind(entries, kind)) == Filter(ids[1..], HasKind(entries, kind));
      }
    }
  }

  // Filtering the full listing by type gives the entries of the type in id order.
  lemma KindRows(entries: map<Bytes, Envelope>, kind: int)
    ensures OfKind(Listing(entries), kind) == Rows(entries, Ordered(IdsOfKind(entries, kind)))
  {
    var all, keep := Ordered(entries.Keys), HasKind(entries, kind);
    FilteredRows(entries, kind, all);
    FilterSorted(all, keep);
    FilterElements(all, keep);
    SortedUnique(Filter(all, keep), Ordered(IdsOfKind(entries, kind)));
  }
}
