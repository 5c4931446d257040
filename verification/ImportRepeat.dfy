/** Importing the same export twice: the second run finds everything on the server. */
module ImportRepeats {
  import opened Basics
  import opened ByteStrings
  import opened Entities
  import opened Stores
  import opened Bitwarden
  import opened Imports
  import opened ImportPools

  /** What a client receives when it lists the whole store. */
  ghost function Received(rows: seq<Envelope>): seq<Envelope> {
    seq(|rows|, i requires 0 <= i < |rows| => Wired(rows[i]))
  }

  ghost function ListedKeys(t: Tables): set<Bytes> {
    KeysOf(Received(Listing(t.entries)))
  }

  ghost predicate HasKey(t: Tables, key: Bytes) {
    exists id :: id in t.entries && DedupKey(Wired(t.entries[id])) == key
  }

  lemma {:induction false} RowsAt(entries: map<Bytes, Envelope>, ids: seq<Bytes>)
    requires forall id :: id in ids ==> id in entries
    ensures |Rows(entries, ids)| == |ids|
    ensures forall i :: 0 <= i < |ids| ==> Rows(entries, ids)[i] == entries[ids[i]]
  {
    if ids != [] {
      RowsAt(entries, ids[1..]);
    }
  }

  lemma ReceivedAt(t: Tables)
    ensures var ids := Ordered(t.entries.Keys); var rows := Received(Listing(t.entries));
            && |rows| == |ids|
            && forall i :: 0 <= i < |ids| ==> ids[i] in t.entries && rows[i] == Wired(t.entries[ids[i]])
  {
    hide Wired;
    RowsAt(t.entries, Ordered(t.entries.Keys));
    var ids := Ordered(t.entries.Keys);
    assert forall i :: 0 <= i < |ids| ==> ids[i] in ids;
  }

  /** The client sees a key exactly when an entry with that key is stored. */
  lemma ListedKeysAreStoredKeys(t: Tables, key: Bytes)
    ensures key in ListedKeys(t) <==> HasKey(t, key)
  {
    hide DedupKey, Wired, Received, Listing;
    var ids := Ordered(t.entries.Keys);
    ReceivedAt(t);
    hide Ordered;
    var rows := Received(Listing(t.entries));
    if HasKey(t, key) {
      var id :| id in t.entries && DedupKey(Wired(t.entries[id])) == key;
      assert id in ids;
      var i :| 0 <= i < |ids| && ids[i] == id;
      assert DedupKey(rows[i]) == key;
    }
    if key in ListedKeys(t) {
      var i :| 0 <= i < |rows| && DedupKey(rows[i]) == key;
      assert ids[i] in t.entries;
    }
  }

  // Envelopes whose key survives storage and transport.
  ghost predicate Durable(queue: seq<Envelope>) {
    forall i :: 0 <= i < |queue| ==> !(queue[i].kind == LOGIN && queue[i].meta == Some(map[]))
  }

  // As long as no addition has failed, the keys of all envelopes given to AddEntry are stored.
  ghost predicate Kept(queue: seq<Envelope>, t0: Tables, s: Pool) {
    && (forall key :: HasKey(t0, key) ==> HasKey(s.tables, key))
    && (s.failed + Total(s.workers, AFailure) == 0 ==>
          forall i: nat :: i in s.given && i < |queue| ==> HasKey(s.tables, DedupKey(queue[i])))
  }

  lemma CreationKeepsKeys(t: Tables, e: Envelope, c: Creation)
    requires c.id !in t.entries
    ensures forall key :: HasKey(t, key) ==> HasKey(CreateIn(t, Sent(e, c)), key)
    ensures !(e.kind == LOGIN && e.meta == Some(map[])) ==> HasKey(CreateIn(t, Sent(e, c)), DedupKey(e))
  {
    var t' := CreateIn(t, Sent(e, c));
    KeySurvives(e, c.cipher, c.id, c.now);
    assert t'.entries[c.id] == AsStored(e, c.cipher, c.id, c.now);
    hide DedupKey, Wired;
    forall key | HasKey(t, key) ensures HasKey(t', key) {
      var id :| id in t.entries && DedupKey(Wired(t.entries[id])) == key;
      assert t'.entries[id] == t.entries[id];
    }
  }

  lemma StepKeepsKeys(queue: seq<Envelope>, t0: Tables, s: Pool, e: Event)
    requires Durable(queue) && Kept(queue, t0, s)
    ensures Kept(queue, t0, Step(queue, s, e))
  {
    hide Total, HasKey, DedupKey, CreateIn, Sent;
    if Enabled(queue, s, e) && !e.Cancel? {
      TotalAfterUpdate(s.workers, e.w, Moved(s, e), AFailure);
      if e.AddEntry? && e.created.Some? {
        CreationKeepsKeys(s.tables, queue[s.workers[e.w].item], e.created.value);
      }
    }
  }

  lemma {:induction false} RunKeepsKeys(queue: seq<Envelope>, t0: Tables, s: Pool, es: seq<Event>)
    requires Durable(queue) && Kept(queue, t0, s)
    ensures Kept(queue, t0, Run(queue, s, es))
    decreases |es|
  {
    hide Kept, Step;
    if es != [] {
      StepKeepsKeys(queue, t0, s, es[0]);
      RunKeepsKeys(queue, t0, Step(queue, s, es[0]), es[1..]);
    }
  }

  /** After a complete run in which every AddEntry succeeded, the key of every queued envelope is stored. */
  lemma AllQueuedAreStored(queue: seq<Envelope>, t0: Tables, es: seq<Event>, i: nat)
    requires Durable(queue) && i < |queue|
    requires var s := Run(queue, Start(queue, t0), es); AllExited(s) && !s.cancelled && Failures(queue, Start(queue, t0), es) == 0
    ensures HasKey(Run(queue, Start(queue, t0), es).tables, DedupKey(queue[i]))
  {
    var s := Run(queue, Start(queue, t0), es);
    ExactlyOnce(queue, t0, es, i);
    NothingOwed(Start(queue, t0).workers, AFailure);
    RunKeepsKeys(queue, t0, Start(queue, t0), es);
    NothingOwed(s.workers, AFailure);
  }

  lemma QueuedAreDurable(lib: Lib, items: seq<Item>, seen: set<Bytes>)
    ensures Durable(Queued(lib, items, seen))
  {
    var queue := Queued(lib, items, seen);
    forall i | 0 <= i < |queue| ensures !(queue[i].kind == LOGIN && queue[i].meta == Some(map[])) {
      QueuedAreMapped(lib, items, seen, i);
      var item :| item in items && MapItem(lib, item) == Some(queue[i]);
      MappedAreDurable(lib, item);
    }
  }

  lemma MappedAreDurable(lib: Lib, item: Item)
    requires MapItem(lib, item).Some?
    ensures var e := MapItem(lib, item).value; !(e.kind == LOGIN && e.meta == Some(map[]))
  {
    var e := MapItem(lib, item).value;
    assert e.meta.Some? ==> USERNAME in e.meta.value;
  }

  /** Importing an export again, after a complete run of the same export in which every AddEntry succeeded,
      queues nothing and counts every item that maps as a duplicate. The first run may have consulted the server
      (`seen` is what it listed) or not (`seen` is empty). */
  lemma SecondImportAddsNothing(lib: Lib, items: seq<Item>, t0: Tables, seen: set<Bytes>, es: seq<Event>)
    requires seen == {} || seen == ListedKeys(t0)
    requires var queue := Queued(lib, items, seen); var s := Run(queue, Start(queue, t0), es);
             AllExited(s) && !s.cancelled && Failures(queue, Start(queue, t0), es) == 0
    ensures var queue := Queued(lib, items, seen); var t := Run(queue, Start(queue, t0), es).tables;
            PlanOf(lib, items, ListedKeys(t))
            == Plan([], Count(lib, items, MappedItem), Count(lib, items, UnsupportedItem), Count(lib, items, InvalidItem))
  {
    hide Queued, Run, ListedKeys, MapItem, DedupKey, HasKey;
    var queue := Queued(lib, items, seen);
    var t := Run(queue, Start(queue, t0), es).tables;
    QueuedAreDurable(lib, items, seen);
    forall item | item in items && MapItem(lib, item).Some?
      ensures DedupKey(MapItem(lib, item).value) in ListedKeys(t)
    {
      var key := DedupKey(MapItem(lib, item).value);
      MappedAreCovered(lib, items, seen, item);
      if key in seen {
        KeysStay(queue, t0, es, key);
      } else {
        var i: nat :| i < |queue| && DedupKey(queue[i]) == key;
        AllQueuedAreStored(queue, t0, es, i);
      }
      ListedKeysAreStoredKeys(t, key);
    }
    NothingNew(lib, items, ListedKeys(t));
    EveryItemIsCounted(lib, items, ListedKeys(t));
  }

  lemma KeysStay(queue: seq<Envelope>, t0: Tables, es: seq<Event>, key: Bytes)
    requires Durable(queue) && key in ListedKeys(t0)
    ensures HasKey(Run(queue, Start(queue, t0), es).tables, key)
  {
    ListedKeysAreStoredKeys(t0, key);
    NothingOwed(Start(queue, t0).workers, AFailure);
    RunKeepsKeys(queue, t0, Start(queue, t0), es);
  }
}
