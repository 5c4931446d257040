/** What an import leaves on the server: every imported item can be read back, field by field. */
module ImportRecovery {
  import opened Basics
  import opened ByteStrings
  import opened Entities
  import opened Stores
  import opened Bitwarden
  import opened Imports
  import opened ImportPools
  import opened ImportRepeats

  // Every ciphertext of the schedule is an encryption of the payload it was made from.
  ghost predicate Encrypts(decrypt: Bytes -> Bytes, queue: seq<Envelope>, s: Pool, es: seq<Event>)
    decreases |es|
  {
    es != [] ==>
      && Genuine(decrypt, queue, s, es[0])
      && Encrypts(decrypt, queue, Step(queue, s, es[0]), es[1..])
  }

  ghost predicate Genuine(decrypt: Bytes -> Bytes, queue: seq<Envelope>, s: Pool, e: Event) {
    e.AddEntry? && Enabled(queue, s, e) && e.created.Some? ==>
      decrypt(e.created.value.cipher) == queue[s.workers[e.w].item].payload
  }

  // What a client lists is a copy of an envelope: the same name, type and metadata, and the payload encrypted.
  ghost predicate Copies(decrypt: Bytes -> Bytes, listed: Envelope, e: Envelope) {
    listed.name == e.name && listed.kind == e.kind && listed.meta == e.meta && decrypt(listed.payload) == e.payload
  }

  ghost predicate HoldsCopy(decrypt: Bytes -> Bytes, t: Tables, e: Envelope) {
    exists id :: id in t.entries && Copies(decrypt, Wired(t.entries[id]), e)
  }

  // As long as no addition has failed, a copy of every envelope given to AddEntry is stored.
  ghost predicate CopiesKept(decrypt: Bytes -> Bytes, queue: seq<Envelope>, s: Pool) {
    s.failed + Total(s.workers, AFailure) == 0 ==>
      forall i: nat :: i in s.given && i < |queue| ==> HoldsCopy(decrypt, s.tables, queue[i])
  }

  lemma CreationCopies(decrypt: Bytes -> Bytes, t: Tables, e: Envelope, c: Creation)
    requires c.id !in t.entries
    ensures forall other :: HoldsCopy(decrypt, t, other) ==> HoldsCopy(decrypt, CreateIn(t, Sent(e, c)), other)
    ensures e.meta != Some(map[]) && decrypt(c.cipher) == e.payload ==> HoldsCopy(decrypt, CreateIn(t, Sent(e, c)), e)
  {
    var t' := CreateIn(t, Sent(e, c));
    assert t'.entries[c.id] == Persisted(Sent(e, c));
    assert e.meta != Some(map[]) && decrypt(c.cipher) == e.payload ==> Copies(decrypt, Wired(t'.entries[c.id]), e);
    hide Copies, Wired;
    forall other | HoldsCopy(decrypt, t, other) ensures HoldsCopy(decrypt, t', other) {
      var id :| id in t.entries && Copies(decrypt, Wired(t.entries[id]), other);
      assert t'.entries[id] == t.entries[id];
    }
  }

  lemma StepKeepsCopies(decrypt: Bytes -> Bytes, queue: seq<Envelope>, s: Pool, e: Event)
    requires (forall i :: 0 <= i < |queue| ==> queue[i].meta != Some(map[]))
    requires CopiesKept(decrypt, queue, s) && Genuine(decrypt, queue, s, e)
    ensures CopiesKept(decrypt, queue, Step(queue, s, e))
  {
    hide Total, HoldsCopy, CreateIn, Sent;
    if Enabled(queue, s, e) && !e.Cancel? {
      TotalAfterUpdate(s.workers, e.w, Moved(s, e), AFailure);
      if e.AddEntry? && e.created.Some? {
        CreationCopies(decrypt, s.tables, queue[s.workers[e.w].item], e.created.value);
      }
    }
  }

  lemma {:induction false} RunKeepsCopies(decrypt: Bytes -> Bytes, queue: seq<Envelope>, s: Pool, es: seq<Event>)
    requires (forall i :: 0 <= i < |queue| ==> queue[i].meta != Some(map[]))
    requires CopiesKept(decrypt, queue, s) && Encrypts(decrypt, queue, s, es)
    ensures CopiesKept(decrypt, queue, Run(queue, s, es))
    decreases |es|
  {
    hide CopiesKept, Step, Genuine;
    if es != [] {
      StepKeepsCopies(decrypt, queue, s, es[0]);
      RunKeepsCopies(decrypt, queue, Step(queue, s, es[0]), es[1..]);
    }
  }

  lemma CopyIsListed(decrypt: Bytes -> Bytes, t: Tables, e: Envelope) returns (r: nat)
    requires HoldsCopy(decrypt, t, e)
    ensures r < |Received(Listing(t.entries))| && Copies(decrypt, Received(Listing(t.entries))[r], e)
  {
    hide Copies, Wired, Received, Listing;
    ReceivedAt(t);
    var ids := Ordered(t.entries.Keys);
    var id :| id in t.entries && Copies(decrypt, Wired(t.entries[id]), e);
    assert id in ids;
    r :| 0 <= r < |ids| && ids[r] == id;
  }

  /** After a complete import in which every AddEntry succeeded, a client that lists the entries and decrypts finds
      every item of the export that was new (the first of its key, and not on the server before): its name, and its
      site, username, password and notes, or its content. */
  lemma ImportedItemsAreFound(lib: Lib, items: seq<Item>, t0: Tables, seen: set<Bytes>, es: seq<Event>, decrypt: Bytes -> Bytes,
                              decodeLogin: Bytes -> (Bytes, Bytes, Bytes, Bytes), decodeNote: Bytes -> (Bytes, Bytes), j: nat) returns (r: nat)
    requires Decodes(lib, decodeLogin, decodeNote) && FirstOfKey(lib, items, seen, j)
    requires var queue := Queued(lib, items, seen); var s := Run(queue, Start(queue, t0), es);
             && Encrypts(decrypt, queue, Start(queue, t0), es)
             && AllExited(s) && !s.cancelled && Failures(queue, Start(queue, t0), es) == 0
    ensures var queue := Queued(lib, items, seen);
            var listed := Received(Listing(Run(queue, Start(queue, t0), es).tables.entries));
            && r < |listed|
            && Carries(lib, decodeLogin, decodeNote, items[j], listed[r].(payload := decrypt(listed[r].payload)))
  {
    var queue := Queued(lib, items, seen);
    var s := Run(queue, Start(queue, t0), es);
    var ps := PlanContents(lib, items, seen, decodeLogin, decodeNote);
    hide Carries, Decodes, Queued, FirstOfKey;
    var k: nat :| k < |ps| && ps[k] == j;
    NoEmptyMaps(lib, items, seen);
    CopyIsStored(decrypt, queue, t0, es, k);
    hide Run, Encrypts, HoldsCopy, Received, Listing;
    r := CopyIsListed(decrypt, s.tables, queue[k]);
    CopyCarries(lib, decodeLogin, decodeNote, items[j], queue[k], decrypt, Received(Listing(s.tables.entries))[r]);
  }

  lemma NoEmptyMaps(lib: Lib, items: seq<Item>, seen: set<Bytes>)
    ensures var queue := Queued(lib, items, seen); forall i :: 0 <= i < |queue| ==> queue[i].meta != Some(map[])
  {
    var queue := Queued(lib, items, seen);
    forall i | 0 <= i < |queue| ensures queue[i].meta != Some(map[]) {
      QueuedAreMapped(lib, items, seen, i);
      var item :| item in items && MapItem(lib, item) == Some(queue[i]);
      MappedAreDurable(lib, item);
    }
  }

  lemma CopyIsStored(decrypt: Bytes -> Bytes, queue: seq<Envelope>, t0: Tables, es: seq<Event>, i: nat)
    requires i < |queue| && (forall i :: 0 <= i < |queue| ==> queue[i].meta != Some(map[]))
    requires Encrypts(decrypt, queue, Start(queue, t0), es)
    requires var s := Run(queue, Start(queue, t0), es);
             AllExited(s) && !s.cancelled && Failures(queue, Start(queue, t0), es) == 0
    ensures HoldsCopy(decrypt, Run(queue, Start(queue, t0), es).tables, queue[i])
  {
    var s := Run(queue, Start(queue, t0), es);
    ExactlyOnce(queue, t0, es, i);
    RunKeepsCopies(decrypt, queue, Start(queue, t0), es);
    NothingOwed(s.workers, AFailure);
  }

  lemma CopyCarries(lib: Lib, decodeLogin: Bytes -> (Bytes, Bytes, Bytes, Bytes), decodeNote: Bytes -> (Bytes, Bytes),
                    item: Item, e: Envelope, decrypt: Bytes -> Bytes, listed: Envelope)
    requires Carries(lib, decodeLogin, decodeNote, item, e) && Copies(decrypt, listed, e)
    ensures Carries(lib, decodeLogin, decodeNote, item, listed.(payload := decrypt(listed.payload)))
  {
  }
}
