/** Deciding what an import sends: classification of the items and recognition of duplicates. */
module Imports {
  import opened Basics
  import opened ByteStrings
  import opened Entities
  import opened Bitwarden

  function KeysOf(es: seq<Envelope>): set<Bytes> {
    set i | 0 <= i < |es| :: DedupKey(es[i])
  }

  /** The envelopes to send, given the keys already seen. */
  function Queued(lib: Lib, items: seq<Item>, seen: set<Bytes>): seq<Envelope> {
    if items == [] then []
    else match MapItem(lib, items[0])
         case None => Queued(lib, items[1..], seen)
         case Some(e) =>
           if DedupKey(e) in seen then Queued(lib, items[1..], seen)
           else [e] + Queued(lib, items[1..], seen + {DedupKey(e)})
  }

  datatype Class = InvalidItem | UnsupportedItem | MappedItem

  /** Blank names and failed encodings are invalid; named items of other types are unsupported. */
  function ClassOf(lib: Lib, item: Item): Class {
    if MapItem(lib, item).Some? then MappedItem
    else if lib.trim(item.name) != [] && item.kind != BW_LOGIN && item.kind != BW_SECURE_NOTE then UnsupportedItem
    else InvalidItem
  }

  function Count(lib: Lib, items: seq<Item>, c: Class): nat {
    if items == [] then 0 else (if ClassOf(lib, items[0]) == c then 1 else 0) + Count(lib, items[1..], c)
  }

  /** The number of items that map to a key already seen, on the server or earlier in the export. */
  function Repeats(lib: Lib, items: seq<Item>, seen: set<Bytes>): nat {
    if items == [] then 0
    else match MapItem(lib, items[0])
         case None => Repeats(lib, items[1..], seen)
         case Some(e) =>
           if DedupKey(e) in seen then 1 + Repeats(lib, items[1..], seen)
           else Repeats(lib, items[1..], seen + {DedupKey(e)})
  }

  /** Every item falls in exactly one class, and every item that maps is queued or a duplicate. */
  lemma {:induction false} EveryItemIsCounted(lib: Lib, items: seq<Item>, seen: set<Bytes>)
    ensures Count(lib, items, InvalidItem) + Count(lib, items, UnsupportedItem) + Count(lib, items, MappedItem) == |items|
    ensures Repeats(lib, items, seen) + |Queued(lib, items, seen)| == Count(lib, items, MappedItem)
    decreases |items|
  {
    if items != [] {
      OneItem(lib, items, 0, seen);
      assert items[0..] == items;
      hide MapItem, DedupKey;
      var m := MapItem(lib, items[0]);
      EveryItemIsCounted(lib, items[1..], if m.Some? then seen + {DedupKey(m.value)} else seen);
      if m.Some? && DedupKey(m.value) in seen {
        assert seen + {DedupKey(m.value)} == seen;
      }
    }
  }

  /** The classes, read from the fields of the item: a blank name or a failed encoding is invalid, a named item that is
      neither login nor note is unsupported, and the rest map. */
  lemma ClassExactly(lib: Lib, item: Item)
    ensures ClassOf(lib, item) == InvalidItem <==>
              lib.trim(item.name) == [] || ((item.kind == 1 || item.kind == 2) && !Encodes(lib, item))
    ensures ClassOf(lib, item) == UnsupportedItem <==> lib.trim(item.name) != [] && item.kind != 1 && item.kind != 2
    ensures ClassOf(lib, item) == MappedItem <==>
              lib.trim(item.name) != [] && (item.kind == 1 || item.kind == 2) && Encodes(lib, item)
  {
    MapsExactly(lib, item);
  }

  function Classes(lib: Lib, items: seq<Item>): seq<Class> {
    seq(|items|, i requires 0 <= i < |items| => ClassOf(lib, items[i]))
  }

  /** The counts are the numbers of items in each class. */
  lemma {:induction false} CountsOccurrences(lib: Lib, items: seq<Item>, c: Class)
    ensures Count(lib, items, c) == multiset(Classes(lib, items))[c]
  {
    hide ClassOf;
    if items != [] {
      CountsOccurrences(lib, items[1..], c);
      assert Classes(lib, items) == [ClassOf(lib, items[0])] + Classes(lib, items[1..]);
    }
  }

  datatype Plan = Plan(toImport: seq<Envelope>, duplicates: nat, unsupported: nat, invalid: nat)

  function PlanOf(lib: Lib, items: seq<Item>, seen: set<Bytes>): Plan {
    Plan(Queued(lib, items, seen), Repeats(lib, items, seen),
         Count(lib, items, UnsupportedItem), Count(lib, items, InvalidItem))
  }

  /** The first part of an import. `existing` is what the server lists, or None when its entries are not consulted. */
  method MakePlan(lib: Lib, items: seq<Item>, existing: Option<seq<Envelope>>) returns (plan: Plan)
    ensures plan == PlanOf(lib, items, if existing.Some? then KeysOf(existing.value) else {})
    ensures plan.invalid + plan.unsupported + plan.duplicates + |plan.toImport| == |items|
  {
    var seen: set<Bytes> := {};
    if existing.Some? {
      seen := SeenKeys(existing.value);
    }
    ghost var initial := seen;
    var toImport: seq<Envelope> := [];
    var duplicates, unsupported, invalid, i := 0, 0, 0, 0;
    hide Queued, Repeats, Count, DedupKey, MapItem, ClassOf, MapLogin, MapNote, IsImportable;
    while i < |items|
      invariant 0 <= i <= |items|
      invariant Queued(lib, items, initial) == toImport + Queued(lib, items[i..], seen)
      invariant Repeats(lib, items, initial) == duplicates + Repeats(lib, items[i..], seen)
      invariant Count(lib, items, InvalidItem) == invalid + Count(lib, items[i..], InvalidItem)
      invariant Count(lib, items, UnsupportedItem) == unsupported + Count(lib, items[i..], UnsupportedItem)
      invariant invalid + unsupported + duplicates + |toImport| == i
    {
      var item := items[i];
      OneItem(lib, items, i, seen);
      i := i + 1;
      if !IsImportable(lib, item) {
        if lib.trim(item.name) == [] {
          invalid := invalid + 1;
        } else {
          unsupported := unsupported + 1;
        }
        continue;
      }
      var mapped := if item.kind == BW_LOGIN then MapLogin(lib, item) else MapNote(lib, item);
      if mapped.None? {
        invalid := invalid + 1;
        continue;
      }
      var key := DedupKey(mapped.value);
      if key in seen {
        duplicates := duplicates + 1;
        continue;
      }
      seen := seen + {key};
      Associative(toImport, [mapped.value], Queued(lib, items[i..], seen));
      toImport := toImport + [mapped.value];
    }
    EndOfItems(lib, items[i..], seen);
    plan := Plan(toImport, duplicates, unsupported, invalid);
  }

  method SeenKeys(existing: seq<Envelope>) returns (seen: set<Bytes>)
    ensures seen == KeysOf(existing)
  {
    seen := {};
    var n := 0;
    while n < |existing|
      invariant 0 <= n <= |existing|
      invariant seen == KeysOf(existing[..n])
    {
      KeysOfSnoc(existing[..n], existing[n]);
      assert existing[..n + 1] == existing[..n] + [existing[n]];
      seen := seen + {DedupKey(existing[n])};
      n := n + 1;
    }
    assert existing[..n] == existing;
  }

  lemma OneItem(lib: Lib, items: seq<Item>, i: nat, seen: set<Bytes>)
    requires i < |items|
    ensures Queued(lib, items[i..], seen) ==
            match MapItem(lib, items[i])
            case None => Queued(lib, items[i + 1..], seen)
            case Some(e) => if DedupKey(e) in seen then Queued(lib, items[i + 1..], seen)
                            else [e] + Queued(lib, items[i + 1..], seen + {DedupKey(e)})
    ensures Repeats(lib, items[i..], seen) ==
            match MapItem(lib, items[i])
            case None => Repeats(lib, items[i + 1..], seen)
            case Some(e) => if DedupKey(e) in seen then 1 + Repeats(lib, items[i + 1..], seen)
                            else Repeats(lib, items[i + 1..], seen + {DedupKey(e)})
    ensures !IsImportable(lib, items[i]) ==>
              && MapItem(lib, items[i]).None?
              && ClassOf(lib, items[i]) == if lib.trim(items[i].name) == [] then InvalidItem else UnsupportedItem
    ensures IsImportable(lib, items[i]) ==>
              && MapItem(lib, items[i]) == (if items[i].kind == BW_LOGIN then MapLogin(lib, items[i]) else MapNote(lib, items[i]))
              && ClassOf(lib, items[i]) == if MapItem(lib, items[i]).None? then InvalidItem else MappedItem
    ensures Count(lib, items[i..], InvalidItem)
            == (if ClassOf(lib, items[i]) == InvalidItem then 1 else 0) + Count(lib, items[i + 1..], InvalidItem)
    ensures Count(lib, items[i..], UnsupportedItem)
            == (if ClassOf(lib, items[i]) == UnsupportedItem then 1 else 0) + Count(lib, items[i + 1..], UnsupportedItem)
  {
    assert items[i..][0] == items[i] && items[i..][1..] == items[i + 1..];
  }

  lemma Associative<T>(a: seq<T>, b: seq<T>, c: seq<T>)
    ensures a + (b + c) == (a + b) + c
  {
  }

  lemma EndOfItems(lib: Lib, items: seq<Item>, seen: set<Bytes>)
    ensures items == [] ==> Queued(lib, items, seen) == [] && Repeats(lib, items, seen) == 0 && forall c :: Count(lib, items, c) == 0
  {
  }

  lemma KeysOfSnoc(es: seq<Envelope>, e: Envelope)
    ensures KeysOf(es + [e]) == KeysOf(es) + {DedupKey(e)}
  {
    var all := es + [e];
    assert forall i :: 0 <= i < |es| ==> all[i] == es[i];
    assert all[|es|] == e;
    forall k ensures k in KeysOf(all) <==> k in KeysOf(es) || k == DedupKey(e) {
      if i :| 0 <= i < |es| && DedupKey(es[i]) == k {
        assert DedupKey(all[i]) == k;
      }
    }
  }

  /** The queued envelopes carry pairwise distinct keys, none of them seen before. */
  lemma {:induction false} QueuedAreNew(lib: Lib, items: seq<Item>, seen: set<Bytes>)
    ensures var q := Queued(lib, items, seen);
            && (forall i :: 0 <= i < |q| ==> DedupKey(q[i]) !in seen)
            && (forall i, j :: 0 <= i < j < |q| ==> DedupKey(q[i]) != DedupKey(q[j]))
    decreases |items|
  {
    if items != [] {
      OneItem(lib, items, 0, seen);
      assert items[0..] == items;
      hide Queued, MapItem, DedupKey;
      var m, q := MapItem(lib, items[0]), Queued(lib, items, seen);
      if m.Some? && DedupKey(m.value) !in seen {
        var rest := Queued(lib, items[1..], seen + {DedupKey(m.value)});
        QueuedAreNew(lib, items[1..], seen + {DedupKey(m.value)});
        assert q == [m.value] + rest;
        assert forall i :: 0 <= i < |q| ==> q[i] == if i == 0 then m.value else rest[i - 1];
      } else {
        QueuedAreNew(lib, items[1..], seen);
      }
    } else {
      assert Queued(lib, items, seen) == [];
    }
  }

  /** An item that maps to a key which is neither on the server nor the key of an earlier item. */
  ghost predicate FirstOfKey(lib: Lib, items: seq<Item>, seen: set<Bytes>, j: nat) {
    && j < |items| && MapItem(lib, items[j]).Some?
    && DedupKey(MapItem(lib, items[j]).value) !in seen
    && forall i :: 0 <= i < j && MapItem(lib, items[i]).Some? ==>
         DedupKey(MapItem(lib, items[i]).value) != DedupKey(MapItem(lib, items[j]).value)
  }

  lemma FirstOfTail(lib: Lib, items: seq<Item>, seen: set<Bytes>, j: nat)
    requires items != []
    ensures var m := MapItem(lib, items[0]);
            FirstOfKey(lib, items, seen, j + 1)
            <==> FirstOfKey(lib, items[1..], if m.Some? then seen + {DedupKey(m.value)} else seen, j)
  {
    hide MapItem, DedupKey;
    var rest := items[1..];
    assert forall i :: 0 <= i < |rest| ==> rest[i] == items[i + 1];
    var m := MapItem(lib, items[0]);
    var seen' := if m.Some? then seen + {DedupKey(m.value)} else seen;
    if FirstOfKey(lib, items, seen, j + 1) {
      assert FirstOfKey(lib, rest, seen', j);
    }
    if FirstOfKey(lib, rest, seen', j) {
      forall i | 0 <= i < j + 1 && MapItem(lib, items[i]).Some?
        ensures DedupKey(MapItem(lib, items[i]).value) != DedupKey(MapItem(lib, items[j + 1]).value)
      {
        if i > 0 {
          assert rest[i - 1] == items[i];
        }
      }
    }
  }

  ghost predicate PlaceOf(lib: Lib, items: seq<Item>, seen: set<Bytes>, j: nat, e: Envelope) {
    FirstOfKey(lib, items, seen, j) && MapItem(lib, items[j]) == Some(e)
  }

  // ps are the places of the first items of their keys, in order, and q are the images of these items.
  ghost predicate Places(lib: Lib, items: seq<Item>, seen: set<Bytes>, q: seq<Envelope>, ps: seq<nat>) {
    && |ps| == |q|
    && (forall k, l :: 0 <= k < l < |ps| ==> ps[k] < ps[l])
    && (forall k :: 0 <= k < |ps| ==> PlaceOf(lib, items, seen, ps[k], q[k]))
    && (forall j: nat :: FirstOfKey(lib, items, seen, j) ==> j in ps)
  }

  lemma FirstIsItem(lib: Lib, items: seq<Item>, seen: set<Bytes>, j: nat)
    requires FirstOfKey(lib, items, seen, j)
    ensures j < |items| && MapItem(lib, items[j]).Some?
  {
  }

  lemma PlaceMoves(lib: Lib, items: seq<Item>, seen: set<Bytes>, q: seq<Envelope>, rest: seq<nat>, k: nat)
    requires items != [] && k < |rest|
    requires var m := MapItem(lib, items[0]);
             Places(lib, items[1..], if m.Some? then seen + {DedupKey(m.value)} else seen, q, rest)
    ensures PlaceOf(lib, items, seen, rest[k] + 1, q[k])
  {
    hide MapItem, DedupKey;
    var m := MapItem(lib, items[0]);
    FirstOfTail(lib, items, seen, rest[k]);
    hide FirstOfKey;
    FirstIsItem(lib, items[1..], if m.Some? then seen + {DedupKey(m.value)} else seen, rest[k]);
    assert items[1..][rest[k]] == items[rest[k] + 1];
  }

  lemma PlacesMove(lib: Lib, items: seq<Item>, seen: set<Bytes>, q: seq<Envelope>, rest: seq<nat>) returns (qs: seq<nat>)
    requires items != []
    requires var m := MapItem(lib, items[0]);
             Places(lib, items[1..], if m.Some? then seen + {DedupKey(m.value)} else seen, q, rest)
    ensures |qs| == |q| && forall k :: 0 <= k < |qs| ==> 0 < qs[k]
    ensures forall k, l :: 0 <= k < l < |qs| ==> qs[k] < qs[l]
    ensures forall k :: 0 <= k < |qs| ==> PlaceOf(lib, items, seen, qs[k], q[k])
    ensures forall j: nat :: 0 < j && FirstOfKey(lib, items, seen, j) ==> j in qs
  {
    hide MapItem, DedupKey;
    qs := seq(|rest|, k requires 0 <= k < |rest| => rest[k] + 1);
    forall k | 0 <= k < |qs| ensures PlaceOf(lib, items, seen, qs[k], q[k]) {
      PlaceMoves(lib, items, seen, q, rest, k);
    }
    forall j: nat | 0 < j && FirstOfKey(lib, items, seen, j) ensures j in qs {
      FirstOfTail(lib, items, seen, j - 1);
      var k :| 0 <= k < |rest| && rest[k] == j - 1;
      assert qs[k] == j;
    }
  }

  /** The queue, exactly: the images of the items that are the first of their key, in the order of the export. */
  lemma {:induction false} QueueExactly(lib: Lib, items: seq<Item>, seen: set<Bytes>) returns (ps: seq<nat>)
    ensures Places(lib, items, seen, Queued(lib, items, seen), ps)
    decreases |items|
  {
    if items == [] {
      ps := [];
    } else {
      OneItem(lib, items, 0, seen);
      assert items[0..] == items;
      var m := MapItem(lib, items[0]);
      var seen' := if m.Some? then seen + {DedupKey(m.value)} else seen;
      assert FirstOfKey(lib, items, seen, 0) <==> m.Some? && DedupKey(m.value) !in seen;
      hide MapItem, DedupKey, Queued, FirstOfKey, Places;
      var rest := QueueExactly(lib, items[1..], seen');
      var q := Queued(lib, items[1..], seen');
      var qs := PlacesMove(lib, items, seen, q, rest);
      if m.Some? && DedupKey(m.value) !in seen {
        ps := FirstPlace(lib, items, seen, m.value, q, qs);
      } else {
        assert seen' == seen;
        ps := qs;
        assert Places(lib, items, seen, q, ps) by { OnlyLater(lib, items, seen, q, qs); }
      }
    }
  }

  lemma OnlyLater(lib: Lib, items: seq<Item>, seen: set<Bytes>, q: seq<Envelope>, qs: seq<nat>)
    requires !FirstOfKey(lib, items, seen, 0)
    requires |qs| == |q| && forall k, l :: 0 <= k < l < |qs| ==> qs[k] < qs[l]
    requires forall k :: 0 <= k < |qs| ==> PlaceOf(lib, items, seen, qs[k], q[k])
    requires forall j: nat :: 0 < j && FirstOfKey(lib, items, seen, j) ==> j in qs
    ensures Places(lib, items, seen, q, qs)
  {
    hide PlaceOf, FirstOfKey;
  }

  lemma FirstPlace(lib: Lib, items: seq<Item>, seen: set<Bytes>, e: Envelope, q: seq<Envelope>, qs: seq<nat>) returns (ps: seq<nat>)
    requires PlaceOf(lib, items, seen, 0, e)
    requires |qs| == |q| && forall k :: 0 <= k < |qs| ==> 0 < qs[k]
    requires forall k, l :: 0 <= k < l < |qs| ==> qs[k] < qs[l]
    requires forall k :: 0 <= k < |qs| ==> PlaceOf(lib, items, seen, qs[k], q[k])
    requires forall j: nat :: 0 < j && FirstOfKey(lib, items, seen, j) ==> j in qs
    ensures Places(lib, items, seen, [e] + q, ps)
  {
    hide PlaceOf, FirstOfKey;
    ps := [0] + qs;
    var q' := [e] + q;
    assert ps[0] == 0 && q'[0] == e;
    assert forall k :: 0 < k < |ps| ==> ps[k] == qs[k - 1] && q'[k] == q[k - 1];
    forall j: nat | FirstOfKey(lib, items, seen, j) ensures j in ps {
      assert j == 0 || j in qs;
    }
  }

  /** Every queued envelope carries the contents of the first item of its key, and every first item of a key is
      carried by one. */
  lemma PlanContents(lib: Lib, items: seq<Item>, seen: set<Bytes>,
                     decodeLogin: Bytes -> (Bytes, Bytes, Bytes, Bytes), decodeNote: Bytes -> (Bytes, Bytes)) returns (ps: seq<nat>)
    requires Decodes(lib, decodeLogin, decodeNote)
    ensures Places(lib, items, seen, Queued(lib, items, seen), ps)
    ensures forall k :: 0 <= k < |ps| ==> ps[k] < |items| && Carries(lib, decodeLogin, decodeNote, items[ps[k]], Queued(lib, items, seen)[k])
  {
    ps := QueueExactly(lib, items, seen);
    var q := Queued(lib, items, seen);
    hide Carries, Queued, Decodes, MapItem, DedupKey;
    forall k | 0 <= k < |ps| ensures ps[k] < |items| && Carries(lib, decodeLogin, decodeNote, items[ps[k]], q[k]) {
      assert PlaceOf(lib, items, seen, ps[k], q[k]);
      MappedContents(lib, items[ps[k]], decodeLogin, decodeNote);
    }
  }

  /** Each queued envelope is the image of an item, so its key survives the way to the server and back. */
  lemma {:induction false} QueuedAreMapped(lib: Lib, items: seq<Item>, seen: set<Bytes>, i: nat)
    requires i < |Queued(lib, items, seen)|
    ensures exists item :: item in items && MapItem(lib, item) == Some(Queued(lib, items, seen)[i])
    decreases |items|
  {
    var m := MapItem(lib, items[0]);
    if m.Some? && DedupKey(m.value) !in seen {
      if i == 0 {
        assert items[0] in items;
      } else {
        QueuedAreMapped(lib, items[1..], seen + {DedupKey(m.value)}, i - 1);
      }
    } else {
      QueuedAreMapped(lib, items[1..], seen, i);
    }
  }

  predicate HoldsKey(es: seq<Envelope>, key: Bytes) {
    exists i :: 0 <= i < |es| && DedupKey(es[i]) == key
  }

  lemma HoldsKeyLonger(e: Envelope, es: seq<Envelope>, key: Bytes)
    ensures HoldsKey([e] + es, DedupKey(e))
    ensures HoldsKey(es, key) ==> HoldsKey([e] + es, key)
  {
    assert ([e] + es)[0] == e;
    if HoldsKey(es, key) {
      var i :| 0 <= i < |es| && DedupKey(es[i]) == key;
      assert ([e] + es)[i + 1] == es[i];
    }
  }

  /** Every item that maps is either queued by its key or was seen before. */
  lemma {:induction false} MappedAreCovered(lib: Lib, items: seq<Item>, seen: set<Bytes>, item: Item)
    requires item in items && MapItem(lib, item).Some?
    ensures var key := DedupKey(MapItem(lib, item).value);
            key in seen || HoldsKey(Queued(lib, items, seen), key)
    decreases |items|
  {
    OneItem(lib, items, 0, seen);
    assert items[0..] == items;
    hide Queued, MapItem, DedupKey, HoldsKey;
    var key, m := DedupKey(MapItem(lib, item).value), MapItem(lib, items[0]);
    assert item == items[0] || item in items[1..] by {
      assert items == [items[0]] + items[1..];
    }
    if m.Some? && DedupKey(m.value) !in seen {
      HoldsKeyLonger(m.value, Queued(lib, items[1..], seen + {DedupKey(m.value)}), key);
      if key != DedupKey(m.value) {
        MappedAreCovered(lib, items[1..], seen + {DedupKey(m.value)}, item);
      }
    } else if item in items[1..] {
      MappedAreCovered(lib, items[1..], seen, item);
    }
  }

  /** When the keys of all items that map have been seen, nothing is queued. */
  lemma {:induction false} NothingNew(lib: Lib, items: seq<Item>, seen: set<Bytes>)
    requires forall item :: item in items && MapItem(lib, item).Some? ==> DedupKey(MapItem(lib, item).value) in seen
    ensures Queued(lib, items, seen) == []
  {
    if items != [] {
      assert forall item :: item in items[1..] ==> item in items;
      NothingNew(lib, items[1..], seen);
    }
  }
}
