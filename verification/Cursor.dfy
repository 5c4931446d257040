/** The cursor of a bucket: it walks the keys in byte order. */
module Cursors {
  import opened Basics
  import opened ByteStrings

  /** The cursor's Seek: the least key from `bound` on. */
  method Seek(keys: set<Bytes>, bound: Bytes) returns (r: Option<Bytes>)
    ensures r.None? ==> forall x :: x in keys ==> !AtMost(bound, x)
    ensures r.Some? ==> r.value in keys && AtMost(bound, r.value)
    ensures r.Some? ==> forall x :: x in keys && AtMost(bound, x) ==> AtMost(r.value, x)
  {
    r := None;
    var pending := keys;
    while pending != {}
      invariant pending <= keys
      invariant r.Some? ==> r.value in keys && AtMost(bound, r.value)
      invariant forall x :: x in keys && x !in pending && AtMost(bound, x) ==> r.Some? && AtMost(r.value, x)
    {
      var k :| k in pending;
      pending := pending - {k};
      if AtMost(bound, k) && (r.None? || Less(k, r.value)) {
        ghost var was := r;
        r := Some(k);
        forall x | x in keys && x !in pending && AtMost(bound, x) ensures AtMost(k, x) {
          if x != k && was.value != x {
            Transitive(k, was.value, x);
          }
        }
      } else if r.Some? {
        Connected(k, r.value);
      }
    }
  }

  /** The cursor's Next: the least key beyond k. */
  method Next(keys: set<Bytes>, k: Bytes) returns (r: Option<Bytes>)
    ensures r.None? ==> forall x :: x in keys ==> !Less(k, x)
    ensures r.Some? ==> r.value in keys && Less(k, r.value)
    ensures r.Some? ==> forall x :: x in keys && Less(k, x) ==> AtMost(r.value, x)
  {
    // The least key from the immediate successor of k on.
    r := Seek(keys, k + [0]);
    forall x ensures AtMost(k + [0], x) <==> Less(k, x) {
      Successor(k, x);
    }
  }

  lemma {:induction false} Successor(k: Bytes, x: Bytes)
    ensures AtMost(k + [0], x) <==> Less(k, x)
    decreases |k|
  {
    if k == [] {
      assert (k + [0])[0] == 0 && (k + [0])[1..] == [];
      if x != [] {
        assert Less((k + [0])[1..], x[1..]) <==> x[1..] != [];
        assert x[0] == 0 && x[1..] == [] ==> x == k + [0];
      }
    } else {
      assert (k + [0])[0] == k[0] && (k + [0])[1..] == k[1..] + [0];
      if x != [] && x[0] == k[0] {
        Successor(k[1..], x[1..]);
        assert x == [x[0]] + x[1..] && k + [0] == [k[0]] + (k[1..] + [0]);
      }
    }
  }

  // The keys that a cursor standing at k has still to visit, and those it has left behind.
  ghost function Ahead(keys: set<Bytes>, k: Option<Bytes>): set<Bytes> {
    if k.None? then {} else set x | x in keys && AtMost(k.value, x)
  }

  ghost function Behind(keys: set<Bytes>, k: Option<Bytes>): set<Bytes> {
    keys - Ahead(keys, k)
  }

  lemma NextMovesOn(keys: set<Bytes>, k: Bytes, r: Option<Bytes>)
    requires k in keys
    requires r.None? ==> forall x :: x in keys ==> !Less(k, x)
    requires r.Some? ==> r.value in keys && Less(k, r.value) && forall x :: x in keys && Less(k, x) ==> AtMost(r.value, x)
    ensures Ahead(keys, r) == Ahead(keys, Some(k)) - {k}
    ensures Behind(keys, r) == Behind(keys, Some(k)) + {k}
    ensures forall x :: x in Behind(keys, Some(k)) ==> Less(x, k)
  {
    forall x | x in keys ensures x in Ahead(keys, r) <==> Less(k, x) {
      if r.Some? && AtMost(r.value, x) && x != r.value {
        Transitive(k, r.value, x);
      }
    }
    Irreflexive(k);
    forall x | x in keys && !AtMost(k, x) ensures Less(x, k) {
      Connected(x, k);
    }
  }
}
