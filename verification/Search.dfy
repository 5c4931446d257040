/** Searching a list of items: every word of the query must match, scores are summed, the best come first. */
module Searching {
  import opened FuzzySearch

  datatype Match = Match(index: nat, score: int)

  ghost predicate AllMatch(u: Text, words: seq<string>, item: string) {
    forall i :: 0 <= i < |words| ==> ScoreOf(u, words[i], item) > 0
  }

  ghost function Total(u: Text, words: seq<string>, item: string): int {
    if words == [] then 0 else ScoreOf(u, words[0], item) + Total(u, words[1..], item)
  }

  /** The items that every word of the query matches. */
  ghost function Hits(u: Text, words: seq<string>, items: seq<string>): set<nat> {
    set i: nat | 0 <= i < |items| && AllMatch(u, words, items[i])
  }

  ghost predicate Genuine(u: Text, words: seq<string>, items: seq<string>, m: Match) {
    m.index < |items| && AllMatch(u, words, items[m.index]) && m.score == Total(u, words, items[m.index])
  }

  predicate Descending(ms: seq<Match>) {
    forall i, j :: 0 <= i < j < |ms| ==> ms[i].score >= ms[j].score
  }

  ghost predicate Distinct(ms: seq<Match>) {
    forall i, j :: 0 <= i < j < |ms| ==> ms[i].index != ms[j].index
  }

  ghost function Indices(ms: seq<Match>): set<nat> {
    if ms == [] then {} else Indices(ms[..|ms| - 1]) + {ms[|ms| - 1].index}
  }

  /** The library's sort, of which only this is used: a permutation in descending order of score. */
  method SortByScore(ms: seq<Match>) returns (r: seq<Match>)
    ensures multiset(r) == multiset(ms)
    ensures Descending(r)
  {
    r := [];
    for n := 0 to |ms|
      invariant Descending(r) && multiset(r) == multiset(ms[..n])
    {
      var p := |r|;
      while p > 0 && r[p - 1].score < ms[n].score
        invariant 0 <= p <= |r|
        invariant forall i :: p <= i < |r| ==> r[i].score < ms[n].score
      {
        p := p - 1;
      }
      InsertDescends(r, p, ms[n]);
      InsertCounts(r, p, ms[n]);
      assert ms[..n + 1] == ms[..n] + [ms[n]];
      r := r[..p] + [ms[n]] + r[p..];
    }
    assert ms[..|ms|] == ms;
  }

  lemma InsertDescends(r: seq<Match>, p: nat, m: Match)
    requires Descending(r) && p <= |r|
    requires p > 0 ==> r[p - 1].score >= m.score
    requires forall i :: p <= i < |r| ==> r[i].score < m.score
    ensures Descending(r[..p] + [m] + r[p..])
  {
    var r' := r[..p] + [m] + r[p..];
    assert forall i :: 0 <= i < p ==> r'[i] == r[i] && r[i].score >= m.score;
    assert r'[p] == m;
    assert forall i :: p < i < |r'| ==> r'[i] == r[i - 1] && r[i - 1].score < m.score;
  }

  lemma InsertCounts(r: seq<Match>, p: nat, m: Match)
    requires p <= |r|
    ensures multiset(r[..p] + [m] + r[p..]) == multiset(r) + multiset{m}
  {
    assert r == r[..p] + r[p..];
  }

  // ---- A permutation keeps distinctness ----

  lemma {:induction false} OneOccurrence(ms: seq<Match>, x: Match)
    requires Distinct(ms)
    ensures multiset(ms)[x] <= 1
  {
    if ms != [] {
      OneOccurrence(ms[1..], x);
      assert ms == [ms[0]] + ms[1..];
      if x == ms[0] {
        assert forall i :: 0 <= i < |ms[1..]| ==> ms[1..][i].index != x.index;
        assert x !in ms[1..];
      }
    }
  }

  lemma TwoOccurrences(r: seq<Match>, i: nat, j: nat)
    requires i < j < |r| && r[i] == r[j]
    ensures multiset(r)[r[i]] >= 2
  {
    assert r == r[..j] + [r[j]] + r[j + 1..];
    assert r[..j][i] == r[i];
    assert r[i] in multiset(r[..j]);
  }

  lemma PermutationKeepsElements(ms: seq<Match>, r: seq<Match>)
    requires multiset(r) == multiset(ms)
    ensures |r| == |ms|
    ensures forall m :: m in r <==> m in ms
  {
    assert |multiset(r)| == |r| && |multiset(ms)| == |ms|;
    forall m ensures m in r <==> m in ms {
      assert m in r <==> m in multiset(r);
      assert m in ms <==> m in multiset(ms);
    }
  }

  lemma PermutationKeepsDistinct(ms: seq<Match>, r: seq<Match>)
    requires Distinct(ms) && multiset(r) == multiset(ms)
    ensures Distinct(r)
  {
    PermutationKeepsElements(ms, r);
    forall i, j | 0 <= i < j < |r| ensures r[i].index != r[j].index {
      assert r[i] in ms && r[j] in ms;
      if r[i] == r[j] {
        OneOccurrence(ms, r[i]);
        TwoOccurrences(r, i, j);
      }
    }
  }

  lemma {:induction false} IndicesAre(ms: seq<Match>, k: nat)
    ensures k in Indices(ms) <==> exists i :: 0 <= i < |ms| && ms[i].index == k
  {
    if ms != [] {
      var init := ms[..|ms| - 1];
      IndicesAre(init, k);
      if i :| 0 <= i < |ms| - 1 && ms[i].index == k {
        assert init[i].index == k;
      }
      if i :| 0 <= i < |init| && init[i].index == k {
        assert ms[i].index == k;
      }
    }
  }

  lemma {:induction false} IndicesSize(ms: seq<Match>)
    requires Distinct(ms)
    ensures |Indices(ms)| == |ms|
  {
    if ms != [] {
      var init, last := ms[..|ms| - 1], ms[|ms| - 1].index;
      IndicesSize(init);
      IndicesAre(init, last);
    }
  }

  /** What a search must return. */
  ghost predicate IsTop(u: Text, words: seq<string>, items: seq<string>, limit: int, ms: seq<Match>) {
    && Distinct(ms) && Descending(ms)
    && (forall m :: m in ms ==> Genuine(u, words, items, m))
    && |ms| == (if 0 < limit < |Hits(u, words, items)| then limit else |Hits(u, words, items)|)
    && (forall i, m :: i in Hits(u, words, items) && i !in Indices(ms) && m in ms ==> Total(u, words, items[i]) <= m.score)
  }

  method Search(u: Text, query: string, items: seq<string>, limit: int) returns (matches: seq<Match>)
    ensures u.fields(query) == [] ==> matches == []
    ensures u.fields(query) != [] ==> IsTop(u, u.fields(query), items, limit, matches)
  {
    var words := u.fields(query);
    if |words| == 0 {
      return [];
    }
    matches := [];
    var i := 0;
    while i < |items|
      invariant i <= |items|
      invariant Collected(u, words, items, i, matches)
    {
      var totalScore, allMatch, w := 0, true, 0;
      while w < |words|
        invariant w <= |words|
        invariant allMatch && AllMatch(u, words[..w], items[i]) && totalScore == Total(u, words[..w], items[i]) >= w
      {
        var s := Score(u, words[w], items[i]);
        WordAdds(u, words, w, items[i]);
        if s == 0 {
          allMatch := false;
          break;
        }
        totalScore := totalScore + s;
        w := w + 1;
      }
      if allMatch {
        assert words[..w] == words;
      }
      ItemDecided(u, words, items, i, matches, allMatch, totalScore);
      if allMatch && totalScore > 0 {
        matches := matches + [Match(i, totalScore)];
      }
      i := i + 1;
    }
    ghost var all := matches;
    matches := SortByScore(matches);
    ghost var sorted := matches;
    if limit > 0 && |matches| > limit {
      matches := matches[..limit];
    }
    TopOfSorted(u, words, items, limit, all, sorted, matches);
  }

  // The matches found among the first n items, in item order.
  ghost predicate Collected(u: Text, words: seq<string>, items: seq<string>, n: nat, ms: seq<Match>) {
    && Distinct(ms)
    && (forall j :: 0 <= j < |ms| ==> Genuine(u, words, items, ms[j]) && ms[j].index < n)
    && (forall i: nat :: i < n && i < |items| && AllMatch(u, words, items[i]) ==> i in Indices(ms))
  }

  lemma WordAdds(u: Text, words: seq<string>, w: nat, item: string)
    requires w < |words|
    ensures Total(u, words[..w + 1], item) == Total(u, words[..w], item) + ScoreOf(u, words[w], item)
    ensures AllMatch(u, words[..w + 1], item) <==> AllMatch(u, words[..w], item) && ScoreOf(u, words[w], item) > 0
    ensures ScoreOf(u, words[w], item) >= 0
    ensures ScoreOf(u, words[w], item) == 0 ==> !AllMatch(u, words, item)
  {
    MatchesExactlySubsequences(u, words[w], item);
    assert words[..w + 1] == words[..w] + [words[w]];
    TotalConcat(u, words[..w], [words[w]], item);
    assert Total(u, [words[w]], item) == ScoreOf(u, words[w], item) + Total(u, [], item);
    if AllMatch(u, words[..w + 1], item) {
      assert words[..w + 1][w] == words[w];
      assert forall i :: 0 <= i < w ==> words[..w + 1][i] == words[..w][i];
    }
  }

  lemma {:induction false} TotalConcat(u: Text, a: seq<string>, b: seq<string>, item: string)
    ensures Total(u, a + b, item) == Total(u, a, item) + Total(u, b, item)
    decreases |a|
  {
    if a == [] {
      assert a + b == b;
    } else {
      assert (a + b)[1..] == a[1..] + b;
      TotalConcat(u, a[1..], b, item);
    }
  }

  lemma ItemDecided(u: Text, words: seq<string>, items: seq<string>, i: nat, ms: seq<Match>, allMatch: bool, total: int)
    requires i < |items| && Collected(u, words, items, i, ms) && words != []
    requires allMatch <==> AllMatch(u, words, items[i])
    requires allMatch ==> total == Total(u, words, items[i]) > 0
    ensures Collected(u, words, items, i + 1, if allMatch then ms + [Match(i, total)] else ms)
  {
    if allMatch {
      var ms' := ms + [Match(i, total)];
      assert Genuine(u, words, items, Match(i, total));
      assert ms'[..|ms|] == ms;
      assert Indices(ms') == Indices(ms) + {i};
      hide Genuine, AllMatch, Total, Indices;
      assert forall j :: 0 <= j < |ms'| ==> ms'[j] == if j < |ms| then ms[j] else Match(i, total);
      assert Distinct(ms');
    }
  }

  lemma AllHitsCollected(u: Text, words: seq<string>, items: seq<string>, all: seq<Match>)
    requires Collected(u, words, items, |items|, all)
    ensures |all| == |Hits(u, words, items)|
  {
    forall i: nat ensures i in Indices(all) <==> i in Hits(u, words, items) {
      IndicesAre(all, i);
      if j :| 0 <= j < |all| && all[j].index == i {
        assert Genuine(u, words, items, all[j]);
      }
    }
    assert Indices(all) == Hits(u, words, items);
    IndicesSize(all);
  }

  // An item that is not among the first ones of the sorted matches stands after them.
  lemma OmittedIsNoBetter(u: Text, words: seq<string>, items: seq<string>, all: seq<Match>, sorted: seq<Match>, n: nat, i: nat, m: Match)
    requires Collected(u, words, items, |items|, all)
    requires multiset(sorted) == multiset(all) && Descending(sorted) && n <= |sorted|
    requires i in Hits(u, words, items) && i !in Indices(sorted[..n]) && m in sorted[..n]
    ensures Total(u, words, items[i]) <= m.score
  {
    PermutationKeepsElements(all, sorted);
    IndicesAre(sorted[..n], i);
    IndicesAre(all, i);
    assert forall k :: 0 <= k < n ==> sorted[..n][k] == sorted[k];
    var j :| 0 <= j < |all| && all[j].index == i;
    assert all[j] in sorted;
    var k :| 0 <= k < |sorted| && sorted[k] == all[j];
    var p :| 0 <= p < n && sorted[p] == m;
    assert Genuine(u, words, items, all[j]);
  }

  lemma TopOfSorted(u: Text, words: seq<string>, items: seq<string>, limit: int, all: seq<Match>, sorted: seq<Match>, top: seq<Match>)
    requires Collected(u, words, items, |items|, all)
    requires multiset(sorted) == multiset(all) && Descending(sorted)
    requires top == if 0 < limit < |sorted| then sorted[..limit] else sorted
    ensures IsTop(u, words, items, limit, top)
  {
    PermutationKeepsDistinct(all, sorted);
    PermutationKeepsElements(all, sorted);
    AllHitsCollected(u, words, items, all);
    var n := |top|;
    assert top == sorted[..n];
    forall m | m in top ensures Genuine(u, words, items, m) {
      assert m in sorted;
      assert m in all;
    }
    forall i, m | i in Hits(u, words, items) && i !in Indices(top) && m in top ensures Total(u, words, items[i]) <= m.score {
      OmittedIsNoBetter(u, words, items, all, sorted, n, i, m);
    }
  }

  // ---- The order of the words does not matter ----

  lemma {:induction false} AllMatchByElement(u: Text, words: seq<string>, item: string)
    ensures AllMatch(u, words, item) <==> forall w :: w in multiset(words) ==> ScoreOf(u, w, item) > 0
  {
    if AllMatch(u, words, item) {
      forall w | w in multiset(words) ensures ScoreOf(u, w, item) > 0 {
        assert w in words;
      }
    }
    if forall w :: w in multiset(words) ==> ScoreOf(u, w, item) > 0 {
      forall i | 0 <= i < |words| ensures ScoreOf(u, words[i], item) > 0 {
        assert words[i] in multiset(words);
      }
    }
  }

  // Taking one word out of the query takes its score out of the total.
  lemma TotalWithout(u: Text, words: seq<string>, k: nat, item: string)
    requires k < |words|
    ensures Total(u, words, item) == ScoreOf(u, words[k], item) + Total(u, words[..k] + words[k + 1..], item)
  {
    assert words == words[..k] + ([words[k]] + words[k + 1..]);
    TotalConcat(u, words[..k], [words[k]] + words[k + 1..], item);
    TotalConcat(u, words[..k], words[k + 1..], item);
    assert ([words[k]] + words[k + 1..])[1..] == words[k + 1..];
  }

  lemma MultisetWithout(words: seq<string>, k: nat)
    requires k < |words|
    ensures multiset(words[..k] + words[k + 1..]) == multiset(words) - multiset{words[k]}
  {
    assert words == words[..k] + [words[k]] + words[k + 1..];
  }

  lemma IndexOf(s: seq<string>, w: string) returns (k: nat)
    requires w in multiset(s)
    ensures k < |s| && s[k] == w
  {
    assert w in s;
    k :| 0 <= k < |s| && s[k] == w;
  }

  lemma SameWithoutHead(a: seq<string>, b: seq<string>) returns (k: nat)
    requires multiset(a) == multiset(b) && a != []
    ensures k < |b| && b[k] == a[0]
    ensures multiset(a[1..]) == multiset(b[..k] + b[k + 1..])
  {
    assert a[0] in multiset(a);
    k := IndexOf(b, a[0]);
    MultisetWithout(a, 0);
    MultisetWithout(b, k);
    assert a[..0] + a[1..] == a[1..];
  }

  lemma {:induction false} TotalOfPermutation(u: Text, a: seq<string>, b: seq<string>, item: string)
    requires multiset(a) == multiset(b)
    ensures Total(u, a, item) == Total(u, b, item)
    decreases |a|
  {
    if a == [] {
      assert |multiset(b)| == |b| == 0;
    } else {
      var k := SameWithoutHead(a, b);
      TotalOfPermutation(u, a[1..], b[..k] + b[k + 1..], item);
      TotalWithout(u, b, k, item);
    }
  }

  /** The items that match and their scores do not depend on the order of the query's words. */
  lemma WordOrderIrrelevant(u: Text, a: seq<string>, b: seq<string>, items: seq<string>)
    requires multiset(a) == multiset(b)
    ensures Hits(u, a, items) == Hits(u, b, items)
    ensures forall m :: Genuine(u, a, items, m) <==> Genuine(u, b, items, m)
  {
    forall i | 0 <= i < |items|
      ensures AllMatch(u, a, items[i]) <==> AllMatch(u, b, items[i])
      ensures Total(u, a, items[i]) == Total(u, b, items[i])
    {
      AllMatchByElement(u, a, items[i]);
      AllMatchByElement(u, b, items[i]);
      TotalOfPermutation(u, a, b, items[i]);
    }
  }

  /** Scores add up over the words of a query, and one word counts its own score. */
  lemma ScoresAddUp(u: Text, a: seq<string>, w: string, item: string)
    ensures Total(u, a + [w], item) == Total(u, a, item) + ScoreOf(u, w, item)
    ensures Total(u, [], item) == 0
  {
    TotalConcat(u, a, [w], item);
    assert Total(u, [w], item) == ScoreOf(u, w, item) + Total(u, [], item);
  }

  /** The items found are exactly those in which every word of the query is a non-empty subsequence, letter case apart. */
  lemma HitsExactly(u: Text, words: seq<string>, items: seq<string>, i: nat)
    ensures i in Hits(u, words, items) <==>
              i < |items| && forall k :: 0 <= k < |words| ==>
                u.lower(words[k]) != "" && Subsequence(u.lower(words[k]), u.lower(items[i]))
  {
    if i < |items| {
      forall k | 0 <= k < |words|
        ensures ScoreOf(u, words[k], items[i]) > 0 <==>
                u.lower(words[k]) != "" && Subsequence(u.lower(words[k]), u.lower(items[i]))
      {
        MatchesExactlySubsequences(u, words[k], items[i]);
      }
    }
    hide ScoreOf, Subsequence;
  }
}
