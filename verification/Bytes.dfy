/** Byte strings in the order in which a cursor walks them, and the decimal prefix of an index key. */
module ByteStrings {

  newtype Byte = x: int | 0 <= x < 256
  type Bytes = seq<Byte>

  const COLON: Byte := 58
  const MINUS: Byte := 45

  /** Byte order: a proper prefix comes first. */
  predicate Less(a: Bytes, b: Bytes)
    decreases |a|
  {
    b != [] && (a == [] || a[0] < b[0] || (a[0] == b[0] && Less(a[1..], b[1..])))
  }

  predicate AtMost(a: Bytes, b: Bytes) {
    a == b || Less(a, b)
  }

  /** The order, spelled out: at the first place where two strings differ the smaller byte decides, and a proper
      prefix comes first. */
  lemma {:induction false} LessExactly(a: Bytes, b: Bytes)
    ensures Less(a, b) <==> exists n: nat :: DivergeAt(a, b, n) && n < |b| && (n == |a| || a[n] < b[n])
    decreases |a|
  {
    if a != [] && b != [] && a[0] == b[0] {
      LessExactly(a[1..], b[1..]);
      if Less(a, b) {
        var n: nat :| DivergeAt(a[1..], b[1..], n) && n < |b[1..]| && (n == |a[1..]| || a[1..][n] < b[1..][n]);
        assert DivergeAt(a, b, n + 1) by {
          forall i | 0 <= i < n + 1 ensures a[i] == b[i] {
            assert i > 0 ==> a[1..][i - 1] == b[1..][i - 1];
          }
        }
        assert n + 1 < |b| && (n + 1 == |a| || a[n + 1] < b[n + 1]);
      }
      if n: nat :| DivergeAt(a, b, n) && n < |b| && (n == |a| || a[n] < b[n]) {
        assert n > 0;
        assert DivergeAt(a[1..], b[1..], n - 1) by {
          assert forall i :: 0 <= i < n - 1 ==> a[1..][i] == a[i + 1] && b[1..][i] == b[i + 1];
        }
      }
    } else if Less(a, b) {
      assert DivergeAt(a, b, 0);
    } else {
      forall n: nat | DivergeAt(a, b, n) && n < |b| ensures !(n == |a| || a[n] < b[n]) {
      }
    }
  }

  // The two strings agree on their first n bytes.
  ghost predicate DivergeAt(a: Bytes, b: Bytes, n: nat) {
    n <= |a| && n <= |b| && forall i :: 0 <= i < n ==> a[i] == b[i]
  }

  lemma {:induction false} Irreflexive(a: Bytes)
    ensures !Less(a, a)
    decreases |a|
  {
    if a != [] {
      Irreflexive(a[1..]);
    }
  }

  lemma {:induction false} Connected(a: Bytes, b: Bytes)
    ensures Less(a, b) || a == b || Less(b, a)
    decreases |a|
  {
    if a != [] && b != [] && a[0] == b[0] {
      Connected(a[1..], b[1..]);
      assert a == [a[0]] + a[1..] && b == [b[0]] + b[1..];
    }
  }

  lemma {:induction false} Transitive(a: Bytes, b: Bytes, c: Bytes)
    requires Less(a, b) && Less(b, c)
    ensures Less(a, c)
    decreases |a|
  {
    if a != [] && a[0] == b[0] && b[0] == c[0] {
      Transitive(a[1..], b[1..], c[1..]);
    }
  }

  lemma Asymmetric(a: Bytes, b: Bytes)
    requires Less(a, b)
    ensures !Less(b, a) && a != b
  {
    Irreflexive(a);
    if Less(b, a) {
      Transitive(a, b, a);
    }
  }

  /** Under a common prefix the order is that of the rest. */
  lemma {:induction false} PrefixKeepsOrder(p: Bytes, a: Bytes, b: Bytes)
    ensures Less(p + a, p + b) <==> Less(a, b)
    decreases |p|
  {
    if p == [] {
      assert p + a == a && p + b == b;
    } else {
      assert (p + a)[1..] == p[1..] + a && (p + b)[1..] == p[1..] + b;
      PrefixKeepsOrder(p[1..], a, b);
    }
  }

  lemma {:induction false} PrefixComesFirst(p: Bytes, a: Bytes)
    ensures AtMost(p, p + a)
  {
    if a == [] {
      assert p + a == p;
    } else {
      PrefixKeepsOrder(p, [], a);
      assert p + [] == p;
    }
  }

  /** The keys with a given prefix form one block: nothing else lies between the prefix and such a key. */
  lemma {:induction false} PrefixBlock(p: Bytes, y: Bytes, a: Bytes)
    requires AtMost(p, y) && Less(y, p + a)
    ensures p <= y
    decreases |p|
  {
    if p != [] && p != y {
      assert (p + a)[0] == p[0] && (p + a)[1..] == p[1..] + a;
      assert y != [];
      if y[0] == p[0] {
        PrefixBlock(p[1..], y[1..], a);
        assert p == [p[0]] + p[1..] && y == [y[0]] + y[1..];
      }
    }
  }

  function Digits(n: nat): Bytes {
    if n < 10 then [(48 + n) as Byte] else Digits(n / 10) + [(48 + n % 10) as Byte]
  }

  /** The decimal text of an integer, as printed with "%d". */
  function Decimal(n: int): Bytes {
    if n < 0 then [MINUS] + Digits(-n) else Digits(n)
  }

  lemma {:induction false} DigitsAreDigits(n: nat)
    ensures Digits(n) != [] && (|Digits(n)| == 1 <==> n < 10)
    ensures forall i :: 0 <= i < |Digits(n)| ==> 48 <= Digits(n)[i] <= 57
  {
    if n >= 10 {
      DigitsAreDigits(n / 10);
    }
  }

  // The number that a string of digits stands for.
  function ValueOf(d: Bytes): int {
    if d == [] then 0 else 10 * ValueOf(d[..|d| - 1]) + (d[|d| - 1] as int - 48)
  }

  /** The text is the usual one: digits only, no leading zero, a minus sign for negative numbers, and read as a decimal
      it gives the number back. */
  lemma {:induction false} DigitsReadBack(n: nat)
    ensures ValueOf(Digits(n)) == n
    ensures n > 0 ==> Digits(n)[0] != 48
  {
    DigitsAreDigits(n);
    if n >= 10 {
      DigitsReadBack(n / 10);
      DigitsAreDigits(n / 10);
      assert Digits(n)[..|Digits(n)| - 1] == Digits(n / 10);
    }
  }

  lemma DecimalReadsBack(n: int)
    ensures n >= 0 ==> ValueOf(Decimal(n)) == n && (forall i :: 0 <= i < |Decimal(n)| ==> 48 <= Decimal(n)[i] <= 57)
    ensures n < 0 ==> Decimal(n)[0] == 45 && Decimal(n)[1..] == Decimal(-n)
    ensures n > 0 ==> Decimal(n)[0] != 48
  {
    var m: nat := if n < 0 then -n else n;
    DigitsReadBack(m);
    DigitsAreDigits(m);
  }

  lemma {:induction false} DigitsInjective(m: nat, n: nat)
    requires Digits(m) == Digits(n)
    ensures m == n
  {
    DigitsAreDigits(m);
    DigitsAreDigits(n);
    var dm, dn := Digits(m), Digits(n);
    assert dm[|dm| - 1] == (48 + m % 10) as Byte && dn[|dn| - 1] == (48 + n % 10) as Byte;
    if m >= 10 {
      assert Digits(m / 10) == dm[..|dm| - 1] == dn[..|dn| - 1] == Digits(n / 10);
      DigitsInjective(m / 10, n / 10);
    }
  }

  lemma DecimalInjective(m: int, n: int)
    requires Decimal(m) == Decimal(n)
    ensures m == n
  {
    DigitsAreDigits(if m < 0 then -m else m);
    DigitsAreDigits(if n < 0 then -n else n);
    assert Decimal(m)[0] == MINUS <==> m < 0;
    assert Decimal(n)[0] == MINUS <==> n < 0;
    if m < 0 {
      assert Digits(-m) == Decimal(m)[1..] == Decimal(n)[1..] == Digits(-n);
      DigitsInjective(-m, -n);
    } else {
      DigitsInjective(m, n);
    }
  }

  lemma NoColonInDecimal(n: int)
    ensures COLON !in Decimal(n)
  {
    DigitsAreDigits(if n < 0 then -n else n);
  }

  function Prefix(kind: int): Bytes {
    Decimal(kind) + [COLON]
  }

  /** The key of the type index. */
  function IndexKey(kind: int, id: Bytes): Bytes {
    Prefix(kind) + id
  }

  /** The key is the decimal of the type, a colon and the id. */
  lemma IndexKeyIs(kind: int, id: Bytes)
    ensures IndexKey(kind, id) == Decimal(kind) + [58] + id
  {
  }

  /** No other type's decimal shares the prefix of a type, whatever the id. */
  lemma PrefixTellsKind(kind: int, other: int, id: Bytes)
    requires Prefix(kind) <= IndexKey(other, id)
    ensures kind == other
  {
    var d, e, key := Decimal(kind), Decimal(other), IndexKey(other, id);
    NoColonInDecimal(kind);
    NoColonInDecimal(other);
    assert forall i :: 0 <= i < |e| ==> key[i] == e[i] && key[i] != COLON;
    assert forall i :: 0 <= i < |d| ==> key[i] == Prefix(kind)[i] == d[i] && key[i] != COLON;
    assert key[|d|] == Prefix(kind)[|d|] == COLON;
    assert key[|e|] == COLON;
    assert d == key[..|d|] == e;
    DecimalInjective(kind, other);
  }

  /** The encoding is injective, even when ids contain colons. */
  lemma IndexKeyInjective(kind: int, id: Bytes, kind': int, id': Bytes)
    requires IndexKey(kind, id) == IndexKey(kind', id')
    ensures kind == kind' && id == id'
  {
    PrefixTellsKind(kind, kind', id');
    assert id == IndexKey(kind, id)[|Prefix(kind)|..] == id';
  }

  // ---- Sets of keys in order ----

  predicate Sorted(s: seq<Bytes>) {
    forall i, j :: 0 <= i < j < |s| ==> Less(s[i], s[j])
  }

  lemma {:induction false} LeastExists(s: set<Bytes>) returns (m: Bytes)
    requires s != {}
    ensures m in s && forall x :: x in s ==> AtMost(m, x)
    decreases |s|
  {
    m :| m in s;
    if s != {m} {
      var n := LeastExists(s - {m});
      Connected(m, n);
      var rest := s - {m};
      if Less(n, m) {
        forall x | x in s ensures AtMost(n, x) {
          assert x == m || x in rest;
        }
        m := n;
      } else {
        forall x | x in s ensures AtMost(m, x) {
          assert x == m || x in rest;
          if x != m && n != x {
            Transitive(m, n, x);
          }
        }
      }
    }
  }

  ghost function Least(s: set<Bytes>): (m: Bytes)
    requires s != {}
    ensures m in s && forall x :: x in s ==> AtMost(m, x)
  {
    assert exists m :: m in s && forall x :: x in s ==> AtMost(m, x) by {
      var m := LeastExists(s);
    }
    var m :| m in s && forall x :: x in s ==> AtMost(m, x);
    m
  }

  /** The keys of a bucket in the order of its cursor. */
  ghost function Ordered(s: set<Bytes>): (r: seq<Bytes>)
    ensures Sorted(r)
    ensures forall x :: x in r <==> x in s
    decreases |s|
  {
    if s == {} then []
    else
      var m := Least(s);
      var rest := Ordered(s - {m});
      assert forall x :: x in rest ==> Less(m, x);
      [m] + rest
  }

  /** A strictly ascending sequence is determined by its elements. */
  lemma {:induction false} SortedUnique(a: seq<Bytes>, b: seq<Bytes>)
    requires Sorted(a) && Sorted(b) && forall x :: x in a <==> x in b
    ensures a == b
    decreases |a|
  {
    assert b != [] ==> b[0] in b;
    if a != [] {
      assert a[0] in b;
      assert b[0] in a;
      var i :| 0 <= i < |a| && a[i] == b[0];
      var j :| 0 <= j < |b| && b[j] == a[0];
      if i > 0 && j > 0 {
        assert Less(a[0], a[i]) && Less(b[0], b[j]);
        Asymmetric(a[0], b[0]);
      }
      assert a[0] == b[0];
      forall x ensures x in a[1..] <==> x in b[1..] {
        TailDropsHead(a, x);
        TailDropsHead(b, x);
      }
      SortedUnique(a[1..], b[1..]);
      assert a == [a[0]] + a[1..] && b == [b[0]] + b[1..];
    }
  }

  lemma TailDropsHead(s: seq<Bytes>, x: Bytes)
    requires Sorted(s) && s != []
    ensures x in s[1..] <==> x in s && x != s[0]
  {
    Irreflexive(s[0]);
    assert s == [s[0]] + s[1..];
  }

  /** Adding a key beyond all others appends it. */
  lemma OrderedAppend(s: set<Bytes>, k: Bytes)
    requires forall x :: x in s ==> Less(x, k)
    ensures Ordered(s + {k}) == Ordered(s) + [k]
  {
    SortedUnique(Ordered(s + {k}), Ordered(s) + [k]);
  }

  function Filter(s: seq<Bytes>, keep: Bytes -> bool): seq<Bytes> {
    if s == [] then []
    else (if keep(s[0]) then [s[0]] else []) + Filter(s[1..], keep)
  }

  lemma {:induction false} FilterElements(s: seq<Bytes>, keep: Bytes -> bool)
    ensures forall x :: x in Filter(s, keep) <==> x in s && keep(x)
  {
    if s != [] {
      FilterElements(s[1..], keep);
      assert s == [s[0]] + s[1..];
    }
  }

  lemma {:induction false} FilterSorted(s: seq<Bytes>, keep: Bytes -> bool)
    requires Sorted(s)
    ensures Sorted(Filter(s, keep))
  {
    if s != [] {
      FilterSorted(s[1..], keep);
      FilterElements(s[1..], keep);
      assert forall x :: x in s[1..] ==> Less(s[0], x);
    }
  }
}
