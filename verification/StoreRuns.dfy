/** What holds of the store over any sequence of operations. */
module StoreRuns {
  import opened Basics
  import opened ByteStrings
  import opened Entities
  import opened Stores

  // `lost` tells whether the transaction fails to commit.
  datatype Op =
    | Create(e: Envelope, newId: Bytes, now: Time, lost: bool)
    | Update(e: Envelope, now: Time, lost: bool)
    | Delete(id: Bytes, lost: bool)
  {
    // The id that the operation is about.
    function About(): Bytes {
      match this
      case Create(_, newId, _, _) => newId
      case Update(e, _, _) => e.id
      case Delete(id, _) => id
    }

    function EndsAt(start: Time): Time {
      if Delete? then start else now
    }
  }

  function Do(t: Tables, op: Op): Tables {
    match op
    case Create(e, newId, now, lost) => if lost then t else CreateIn(t, Stamped(e, newId, now))
    case Update(e, now, lost) => if lost || e.id !in t.entries then t else UpdateIn(t, e, now)
    case Delete(id, lost) => if lost || id !in t.entries then t else DeleteIn(t, id)
  }

  function RunAll(t: Tables, ops: seq<Op>): Tables
    decreases |ops|
  {
    if ops == [] then t else RunAll(Do(t, ops[0]), ops[1..])
  }

  /** New ids have never been used, and the clock does not go back. */
  predicate Plausible(used: set<Bytes>, now: Time, ops: seq<Op>)
    decreases |ops|
  {
    ops != [] ==>
      && (ops[0].Create? ==> ops[0].newId !in used)
      && now <= ops[0].EndsAt(now)
      && Plausible(used + {ops[0].About()}, ops[0].EndsAt(now), ops[1..])
  }

  lemma DoKeepsIndex(t: Tables, op: Op)
    requires Indexed(t) && (op.Create? ==> op.newId !in t.entries)
    ensures Indexed(Do(t, op))
    ensures Do(t, op).entries.Keys <= t.entries.Keys + {op.About()}
  {
    match op
    case Create(e, newId, now, _) => CreateKeepsIndex(t, Stamped(e, newId, now));
    case Update(e, now, _) => if e.id in t.entries { UpdateKeepsIndex(t, e, now); }
    case Delete(id, _) => if id in t.entries { DeleteKeepsIndex(t, id); }
  }

  lemma {:induction false} RunKeepsIndex(t: Tables, used: set<Bytes>, now: Time, ops: seq<Op>)
    requires Indexed(t) && t.entries.Keys <= used && Plausible(used, now, ops)
    ensures Indexed(RunAll(t, ops))
    decreases |ops|
  {
    if ops != [] {
      DoKeepsIndex(t, ops[0]);
      RunKeepsIndex(Do(t, ops[0]), used + {ops[0].About()}, ops[0].EndsAt(now), ops[1..]);
    }
  }

  /** After any run, an index key exists exactly for each entry and its type, with the id as its value,
      and the two buckets have the same size. */
  lemma IndexMirrorsEntries(now: Time, ops: seq<Op>, kind: int, id: Bytes)
    requires Plausible({}, now, ops)
    ensures var t := RunAll(NO_TABLES, ops);
            && (IndexKey(kind, id) in t.index <==> id in t.entries && t.entries[id].kind == kind)
            && (IndexKey(kind, id) in t.index ==> t.index[IndexKey(kind, id)] == id)
            && |t.index| == |t.entries|
  {
    RunKeepsIndex(NO_TABLES, {}, now, ops);
    var t := RunAll(NO_TABLES, ops);
    if IndexKey(kind, id) in t.index {
      var owner := t.index[IndexKey(kind, id)];
      IndexKeyInjective(kind, id, t.entries[owner].kind, owner);
    }
    SameSize(t);
  }

  lemma {:induction false} SameSize(t: Tables)
    requires Indexed(t)
    ensures |t.index| == |t.entries|
    decreases |t.entries|
  {
    if t.entries == map[] {
      assert t.index == map[];
    } else {
      var id :| id in t.entries;
      DeleteKeepsIndex(t, id);
      var t' := DeleteIn(t, id);
      assert t.entries.Keys == t'.entries.Keys + {id};
      assert t.index.Keys == t'.index.Keys + {KeyOf(t.entries[id])};
      SameSize(t');
    }
  }

  function OnlyAbout(ops: seq<Op>, id: Bytes): seq<Op> {
    if ops == [] then [] else (if ops[0].About() == id then [ops[0]] else []) + OnlyAbout(ops[1..], id)
  }

  ghost predicate SameAt(m: map<Bytes, Envelope>, n: map<Bytes, Envelope>, id: Bytes) {
    (id in m <==> id in n) && (id in m ==> m[id] == n[id])
  }

  /** What an id holds depends only on the operations about that id. */
  lemma {:induction false} OtherIdsDoNotInterfere(t: Tables, t': Tables, ops: seq<Op>, id: Bytes)
    requires SameAt(t.entries, t'.entries, id)
    ensures SameAt(RunAll(t, ops).entries, RunAll(t', OnlyAbout(ops, id)).entries, id)
    decreases |ops|
  {
    if ops != [] {
      var only := OnlyAbout(ops, id);
      if ops[0].About() == id {
        assert only[0] == ops[0] && only[1..] == OnlyAbout(ops[1..], id);
        OtherIdsDoNotInterfere(Do(t, ops[0]), Do(t', ops[0]), ops[1..], id);
      } else {
        assert only == OnlyAbout(ops[1..], id);
        OtherIdsDoNotInterfere(Do(t, ops[0]), t', ops[1..], id);
      }
    }
  }

  function Get(t: Tables, id: Bytes): Option<Envelope> {
    if id in t.entries then Some(t.entries[id]) else None
  }

  lemma {:induction false} UntouchedByOthers(t: Tables, ops: seq<Op>, id: Bytes)
    requires forall i :: 0 <= i < |ops| ==> ops[i].About() != id
    ensures Get(RunAll(t, ops), id) == Get(t, id)
    decreases |ops|
  {
    if ops != [] {
      UntouchedByOthers(Do(t, ops[0]), ops[1..], id);
    }
  }

  /** Reading an id gives what the last committed operation about it wrote, whatever else has happened since: the
      name, type, payload and metadata as sent, with an empty map gone, under the creation instant; and nothing after
      a deletion, or after an update of an id that was not there. A lost operation leaves no trace. */
  lemma ReadsBackTheLastWrite(t: Tables, op: Op, later: seq<Op>)
    requires forall i :: 0 <= i < |later| ==> later[i].About() != op.About()
    ensures var got, was := Get(RunAll(t, [op] + later), op.About()), Get(t, op.About());
            && (op.lost ==> got == was)
            && (!op.lost ==>
                  match op
                  case Create(e, id, now, _) =>
                    got == Some(Envelope(id, e.name, e.kind, DropEmpty(e.meta), e.payload, now, now))
                  case Update(e, now, _) =>
                    got == if was.None? then None
                           else Some(Envelope(e.id, e.name, e.kind, DropEmpty(e.meta), e.payload, was.value.createdAt, now))
                  case Delete(_, _) => got.None?)
  {
    var all := [op] + later;
    assert all[1..] == later;
    UntouchedByOthers(Do(t, op), later, op.About());
  }

  ghost predicate Created(t: Tables, id: Bytes, at: Time, now: Time) {
    id in t.entries ==> t.entries[id].createdAt == at <= t.entries[id].updatedAt <= now
  }

  lemma {:induction false} CreationInstantKept(t: Tables, used: set<Bytes>, now: Time, ops: seq<Op>, id: Bytes, at: Time)
    requires id in used && Plausible(used, now, ops) && at <= now && Created(t, id, at, now)
    ensures var t' := RunAll(t, ops);
            id in t'.entries ==> t'.entries[id].createdAt == at <= t'.entries[id].updatedAt
    decreases |ops|
  {
    if ops != [] {
      CreationInstantKept(Do(t, ops[0]), used + {ops[0].About()}, ops[0].EndsAt(now), ops[1..], id, at);
    }
  }

  /** Whatever the callers send in any chain of operations after its creation, an entry keeps the instant of
      its creation as CreatedAt, and its UpdatedAt never precedes it. */
  lemma CreatedAtIsForEver(t: Tables, used: set<Bytes>, e: Envelope, id: Bytes, at: Time, ops: seq<Op>)
    requires Plausible(used, at, [Create(e, id, at, false)] + ops)
    ensures var t' := RunAll(t, [Create(e, id, at, false)] + ops);
            id in t'.entries ==> t'.entries[id].createdAt == at <= t'.entries[id].updatedAt
  {
    var all := [Create(e, id, at, false)] + ops;
    assert all[1..] == ops;
    CreationInstantKept(Do(t, all[0]), used + {id}, at, ops, id, at);
  }
}
