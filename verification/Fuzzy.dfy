/** Fuzzy matching: a greedy one-pass matcher with bonuses, against the leftmost embedding of the query. */
module FuzzySearch {

  // The text functions of the standard library that the matcher calls.
  datatype Text = Text(
    lower: string -> string,
    fields: string -> seq<string>,
    isLetter: char -> bool,
    isDigit: char -> bool)

  const EXACT := 1000

  /** e places the query in the target: ascending positions that carry the query's characters. */
  ghost predicate Embeds(q: string, t: string, e: seq<nat>) {
    && |e| == |q|
    && (forall i :: 0 <= i < |e| ==> e[i] < |t| && t[e[i]] == q[i])
    && (forall i, j :: 0 <= i < j < |e| ==> e[i] < e[j])
  }

  ghost predicate Subsequence(q: string, t: string) {
    exists e :: Embeds(q, t, e)
  }

  ghost predicate NoLater(e: seq<nat>, f: seq<nat>) {
    |e| == |f| && forall i :: 0 <= i < |e| ==> e[i] <= f[i]
  }

  /** The embedding whose positions are no later than those of any other. */
  ghost predicate Leftmost(q: string, t: string, e: seq<nat>) {
    Embeds(q, t, e) && forall f :: Embeds(q, t, f) ==> NoLater(e, f)
  }

  // A position at the start of the target or after a character that is neither letter nor digit.
  predicate AtBoundary(u: Text, t: string, p: nat)
    requires p < |t|
  {
    p == 0 || (!u.isLetter(t[p - 1]) && !u.isDigit(t[p - 1]))
  }

  /** What the i-th matched character is worth. */
  ghost function Gain(u: Text, t: string, e: seq<nat>, i: nat): int
    requires i < |e| && e[i] < |t|
  {
    1
    + (if AtBoundary(u, t, e[i]) then 10 else 0)
    + (if i == 0 && e[i] == 0 then 20 else 0)
    + (if i > 0 && e[i] == e[i - 1] + 1 then 5 else 0)
  }

  ghost predicate Within(t: string, e: seq<nat>) {
    forall i :: 0 <= i < |e| ==> e[i] < |t|
  }

  ghost function Weight(u: Text, t: string, e: seq<nat>): int
    requires Within(t, e)
    decreases |e|
  {
    if e == [] then 0 else Weight(u, t, e[..|e| - 1]) + Gain(u, t, e, |e| - 1)
  }

  /** The score by definition: the weight of the leftmost embedding, if there is one. */
  ghost function ScoreOf(u: Text, query: string, target: string): int {
    var q, t := u.lower(query), u.lower(target);
    if q == "" then 0
    else if q == t then EXACT
    else if e :| Leftmost(q, t, e) then Weight(u, t, e)
    else 0
  }

  lemma LeftmostUnique(q: string, t: string, e: seq<nat>, f: seq<nat>)
    requires Leftmost(q, t, e) && Leftmost(q, t, f)
    ensures e == f
  {
    assert NoLater(e, f) && NoLater(f, e);
    assert forall i :: 0 <= i < |e| ==> e[i] == f[i];
  }

  // The loop's state: e places the first |e| characters before ti, no later than any full embedding does,
  // and the next character of any full embedding is still to come.
  ghost predicate Progress(q: string, t: string, e: seq<nat>, ti: nat) {
    && |e| <= |q| && ti <= |t|
    && (forall i :: 0 <= i < |e| ==> e[i] < ti && t[e[i]] == q[i])
    && (forall i, j :: 0 <= i < j < |e| ==> e[i] < e[j])
    && (forall f :: Embeds(q, t, f) ==> (forall i :: 0 <= i < |e| ==> e[i] <= f[i]) && (|e| < |q| ==> ti <= f[|e|] < |t|))
  }

  lemma ProgressMatches(q: string, t: string, e: seq<nat>, ti: nat)
    requires Progress(q, t, e, ti) && ti < |t| && |e| < |q| && t[ti] == q[|e|]
    ensures Progress(q, t, e + [ti], ti + 1)
  {
    var e' := e + [ti];
    forall f | Embeds(q, t, f)
      ensures (forall i :: 0 <= i < |e'| ==> e'[i] <= f[i]) && (|e'| < |q| ==> ti + 1 <= f[|e'|] < |t|)
    {
      if |e'| < |q| {
        assert f[|e|] < f[|e'|];
      }
    }
  }

  lemma ProgressSkips(q: string, t: string, e: seq<nat>, ti: nat)
    requires Progress(q, t, e, ti) && ti < |t| && |e| < |q| && t[ti] != q[|e|]
    ensures Progress(q, t, e, ti + 1)
  {
    forall f | Embeds(q, t, f) ensures ti + 1 <= f[|e|] < |t| {
      assert t[f[|e|]] == q[|e|];
    }
  }

  lemma ProgressEnds(u: Text, query: string, target: string, e: seq<nat>, ti: nat)
    requires var q, t := u.lower(query), u.lower(target);
             q != "" && q != t && Progress(q, t, e, ti) && (ti == |t| || |e| == |q|) && Within(t, e)
    ensures |e| == |u.lower(query)| ==> ScoreOf(u, query, target) == Weight(u, u.lower(target), e)
    ensures |e| < |u.lower(query)| ==> ScoreOf(u, query, target) == 0
  {
    var q, t := u.lower(query), u.lower(target);
    if |e| == |q| {
      assert Leftmost(q, t, e);
      forall f | Leftmost(q, t, f) ensures f == e {
        LeftmostUnique(q, t, e, f);
      }
    } else {
      assert forall f :: !Embeds(q, t, f);
    }
  }

  // The last position placed, or -2 when there is none.
  ghost function Last(e: seq<nat>): int {
    if e == [] then -2 else e[|e| - 1]
  }

  // One more matched character adds its gain, written as the loop adds it.
  lemma WeightAppend(u: Text, t: string, e: seq<nat>, p: nat)
    requires p < |t| && Within(t, e)
    ensures Within(t, e + [p]) && Last(e + [p]) == p
    ensures Weight(u, t, e + [p]) == Weight(u, t, e) + 1 + (if AtBoundary(u, t, p) then 10 else 0)
                                     + (if e == [] && p == 0 then 20 else 0)
                                     + (if p == Last(e) + 1 then 5 else 0)
  {
    assert (e + [p])[..|e|] == e;
  }

  lemma Extend(u: Text, q: string, t: string, e: seq<nat>, ti: nat) returns (e': seq<nat>)
    requires Progress(q, t, e, ti) && ti < |t| && |e| < |q| && t[ti] == q[|e|] && Within(t, e)
    ensures |e'| == |e| + 1 && Progress(q, t, e', ti + 1) && Within(t, e') && Last(e') == ti
    ensures Weight(u, t, e') == Weight(u, t, e) + 1 + (if AtBoundary(u, t, ti) then 10 else 0)
                                + (if |e| == 0 && ti == 0 then 20 else 0)
                                + (if ti == Last(e) + 1 then 5 else 0)
  {
    e' := e + [ti];
    ProgressMatches(q, t, e, ti);
    WeightAppend(u, t, e, ti);
  }

  lemma LastIsPast(q: string, t: string, e: seq<nat>, ti: nat)
    requires Progress(q, t, e, ti)
    ensures Last(e) < ti
  {
  }

  method Score(u: Text, query: string, target: string) returns (score: int)
    ensures score == ScoreOf(u, query, target)
  {
    var q, t := u.lower(query), u.lower(target);
    if q == "" {
      return 0;
    }
    if q == t {
      return 1000;
    }
    hide Progress, ScoreOf, Weight, Within, Last;
    score := 0;
    var qi: nat, consecutive: nat, ti: nat := 0, 0, 0;
    ghost var e: seq<nat> := [];
    NothingYet(u, q, t);
    while ti < |t| && qi < |q|
      invariant ti <= |t| && qi == |e| <= |q|
      invariant Progress(q, t, e, ti)
      invariant consecutive > 0 <==> Last(e) == ti - 1
      invariant Within(t, e)
      invariant score == Weight(u, t, e)
      decreases |t| - ti
    {
      var atBoundary := ti == 0;
      if ti > 0 {
        var prev := t[ti - 1];
        atBoundary := !u.isLetter(prev) && !u.isDigit(prev);
      }
      assert atBoundary == AtBoundary(u, t, ti);
      hide AtBoundary;
      LastIsPast(q, t, e, ti);
      if t[ti] == q[qi] {
        score := score + 1;
        if atBoundary {
          score := score + 10;
        }
        if qi == 0 && ti == 0 {
          score := score + 20;
        }
        consecutive := consecutive + 1;
        if consecutive > 1 {
          score := score + 5;
        }
        e := Extend(u, q, t, e, ti);
        qi := qi + 1;
      } else {
        ProgressSkips(q, t, e, ti);
        consecutive := 0;
      }
      ti := ti + 1;
    }
    ProgressEnds(u, query, target, e, ti);
    if qi < |q| {
      return 0;
    }
  }

  lemma NothingYet(u: Text, q: string, t: string)
    ensures Progress(q, t, [], 0) && Within(t, []) && Weight(u, t, []) == 0 && Last([]) == -2
  {
  }

  // ---- A match is a subsequence ----

  lemma {:induction false} FirstFrom(t: string, c: char, from: nat, upTo: nat) returns (p: nat)
    requires from <= upTo < |t| && t[upTo] == c
    ensures from <= p <= upTo && t[p] == c
    ensures forall i :: from <= i < p ==> t[i] != c
    decreases upTo - from
  {
    if t[from] == c {
      p := from;
    } else {
      p := FirstFrom(t, c, from + 1, upTo);
    }
  }

  /** Greedy matching is complete: where any embedding exists, so does a leftmost one. */
  lemma {:induction false} LeftmostExists(q: string, t: string, f: seq<nat>) returns (e: seq<nat>)
    requires Embeds(q, t, f)
    ensures Leftmost(q, t, e)
    decreases |q|
  {
    if q == "" {
      e := [];
    } else {
      var n := |q| - 1;
      assert Embeds(q[..n], t, f[..n]);
      var init := LeftmostExists(q[..n], t, f[..n]);
      assert NoLater(init, f[..n]);
      var from := if n == 0 then 0 else init[n - 1] + 1;
      assert n > 0 ==> init[n - 1] <= f[..n][n - 1] < f[n];
      var p := FirstFrom(t, q[n], from, f[n]);
      e := init + [p];
      assert Embeds(q, t, e);
      forall g | Embeds(q, t, g) ensures NoLater(e, g) {
        assert Embeds(q[..n], t, g[..n]);
        assert NoLater(init, g[..n]);
        assert n > 0 ==> init[n - 1] <= g[..n][n - 1] < g[n];
      }
    }
  }

  /** Each of k matched characters is worth at least 1, the first at most 31 and every other at most 16. */
  lemma {:induction false} WeightBounds(u: Text, t: string, e: seq<nat>)
    requires Within(t, e) && e != []
    ensures |e| <= Weight(u, t, e) <= 16 * |e| + 15
    decreases |e|
  {
    var init := e[..|e| - 1];
    if init == [] {
      assert Weight(u, t, init) == 0;
    } else {
      WeightBounds(u, t, init);
    }
  }

  /** The score is positive exactly when the lowered query is not empty and is a subsequence of the lowered target. */
  lemma MatchesExactlySubsequences(u: Text, query: string, target: string)
    ensures ScoreOf(u, query, target) > 0 <==> u.lower(query) != "" && Subsequence(u.lower(query), u.lower(target))
    ensures ScoreOf(u, query, target) >= 0
  {
    var q, t := u.lower(query), u.lower(target);
    if q != "" {
      if q == t {
        assert Embeds(q, t, seq(|q|, i requires 0 <= i < |q| => i));
      } else if f :| Embeds(q, t, f) {
        var e := LeftmostExists(q, t, f);
        forall g | Leftmost(q, t, g) ensures Weight(u, t, g) > 0 {
          WeightBounds(u, t, g);
        }
      }
    }
  }

  /** An exact match outranks every other target for queries of up to 61 lowered characters. */
  lemma ExactMatchOutranks(u: Text, query: string, target: string)
    requires 1 <= |u.lower(query)| <= 61 && u.lower(target) != u.lower(query)
    ensures ScoreOf(u, query, target) < ScoreOf(u, query, query)
  {
    var q, t := u.lower(query), u.lower(target);
    forall e | Leftmost(q, t, e) ensures Weight(u, t, e) < EXACT {
      WeightBounds(u, t, e);
    }
  }

  lemma {:induction false} MatchScoreBounds(u: Text, query: string, target: string)
    requires ScoreOf(u, query, target) > 0 && u.lower(target) != u.lower(query)
    ensures |u.lower(query)| <= ScoreOf(u, query, target) <= 16 * |u.lower(query)| + 15
  {
    var q, t := u.lower(query), u.lower(target);
    forall e | Leftmost(q, t, e) ensures |q| <= Weight(u, t, e) <= 16 * |q| + 15 {
      WeightBounds(u, t, e);
    }
  }

  // ---- The score, counted ----

  // The matched characters that start a word, and those that follow the one matched before them.
  ghost predicate StartsWord(u: Text, t: string, e: seq<nat>, i: nat)
    requires i < |e| && e[i] < |t|
  {
    e[i] == 0 || !(u.isLetter(t[e[i] - 1]) || u.isDigit(t[e[i] - 1]))
  }

  ghost function WordStarts(u: Text, t: string, e: seq<nat>): set<nat>
    requires Within(t, e)
  {
    set i: nat | i < |e| && StartsWord(u, t, e, i)
  }

  ghost predicate FollowsOn(e: seq<nat>, i: nat)
    requires i < |e|
  {
    0 < i && e[i] == e[i - 1] + 1
  }

  ghost function Adjacent(e: seq<nat>): set<nat> {
    set i: nat | i < |e| && FollowsOn(e, i)
  }

  lemma {:induction false} WeightCounts(u: Text, t: string, e: seq<nat>)
    requires Within(t, e)
    ensures Weight(u, t, e)
         == |e| + 10 * |WordStarts(u, t, e)| + 5 * |Adjacent(e)| + (if e != [] && e[0] == 0 then 20 else 0)
    decreases |e|
  {
    if e == [] {
      assert WordStarts(u, t, e) == {} && Adjacent(e) == {};
    } else {
      var n, init := |e| - 1, e[..|e| - 1];
      WeightCounts(u, t, init);
      CountsGrow(u, t, e);
      assert Weight(u, t, e) == Weight(u, t, init) + Gain(u, t, e, n);
      hide Weight, WordStarts, Adjacent;
      assert n > 0 ==> init[0] == e[0];
    }
  }

  lemma CountsGrow(u: Text, t: string, e: seq<nat>)
    requires Within(t, e) && e != []
    ensures var n, init := |e| - 1, e[..|e| - 1];
            && Within(t, init)
            && |WordStarts(u, t, e)| == |WordStarts(u, t, init)|
                 + (if e[n] == 0 || !(u.isLetter(t[e[n] - 1]) || u.isDigit(t[e[n] - 1])) then 1 else 0)
            && |Adjacent(e)| == |Adjacent(init)| + (if 0 < n && e[n] == e[n - 1] + 1 then 1 else 0)
  {
    WordStartsGrow(u, t, e);
    AdjacentGrows(e);
    hide WordStarts, Adjacent;
  }

  lemma SameInInit(u: Text, t: string, e: seq<nat>, i: nat)
    requires Within(t, e) && i < |e| - 1
    ensures StartsWord(u, t, e[..|e| - 1], i) <==> StartsWord(u, t, e, i)
  {
  }

  lemma WordStartsGrow(u: Text, t: string, e: seq<nat>)
    requires Within(t, e) && e != []
    ensures var n, init := |e| - 1, e[..|e| - 1];
            && Within(t, init)
            && |WordStarts(u, t, e)| == |WordStarts(u, t, init)| + (if StartsWord(u, t, e, n) then 1 else 0)
  {
    var n: nat, init := |e| - 1, e[..|e| - 1];
    var before, after := WordStarts(u, t, init), WordStarts(u, t, e);
    forall i: nat ensures i in after <==> i in before || (i == n && StartsWord(u, t, e, n)) {
      if i < n {
        SameInInit(u, t, e, i);
      }
    }
    assert n !in before;
    hide WordStarts, StartsWord, Within;
    assert after == if StartsWord(u, t, e, n) then before + {n} else before;
  }

  lemma AdjacentGrows(e: seq<nat>)
    requires e != []
    ensures var n, init := |e| - 1, e[..|e| - 1];
            |Adjacent(e)| == |Adjacent(init)| + (if 0 < n && e[n] == e[n - 1] + 1 then 1 else 0)
  {
    var n: nat, init := |e| - 1, e[..|e| - 1];
    forall i: nat | i < n ensures FollowsOn(init, i) <==> FollowsOn(e, i) {
    }
    assert n !in Adjacent(init);
    if FollowsOn(e, n) {
      assert Adjacent(e) == Adjacent(init) + {n};
    } else {
      assert Adjacent(e) == Adjacent(init);
    }
  }

  /** The score of a match that is not exact, counted over the leftmost embedding: one for each character, ten for each
      at the start or after a character that is neither letter nor digit, five for each right after the one matched
      before, and twenty when the match starts the target. */
  lemma ScoreByCounts(u: Text, query: string, target: string, e: seq<nat>)
    requires u.lower(query) != "" && u.lower(query) != u.lower(target)
    requires Leftmost(u.lower(query), u.lower(target), e)
    ensures Within(u.lower(target), e)
    ensures ScoreOf(u, query, target)
         == |u.lower(query)| + 10 * |WordStarts(u, u.lower(target), e)| + 5 * |Adjacent(e)| + (if e[0] == 0 then 20 else 0)
  {
    var q, t := u.lower(query), u.lower(target);
    forall f | Leftmost(q, t, f) ensures f == e {
      LeftmostUnique(q, t, e, f);
    }
    WeightCounts(u, t, e);
  }

  /** An exact match scores 1000, and an empty query nothing. */
  lemma ExactScores(u: Text, query: string, target: string)
    requires u.lower(query) == "" || u.lower(query) == u.lower(target)
    ensures ScoreOf(u, query, target) == if u.lower(query) == "" then 0 else 1000
  {
  }

  /** One character: 31 at the start of the target, 1 after a letter or digit, 11 after any other character. */
  lemma OneCharacterScores(u: Text, query: string, target: string, p: nat)
    requires var q, t := u.lower(query), u.lower(target);
             && |q| == 1 && q != t && p < |t| && t[p] == q[0] && forall i :: 0 <= i < p ==> t[i] != q[0]
    ensures ScoreOf(u, query, target)
         == if p == 0 then 31 else if u.isLetter(u.lower(target)[p - 1]) || u.isDigit(u.lower(target)[p - 1]) then 1 else 11
  {
    var q, t, e := u.lower(query), u.lower(target), [p];
    assert Embeds(q, t, e);
    forall f | Embeds(q, t, f) ensures NoLater(e, f) {
      assert t[f[0]] == q[0];
    }
    ScoreByCounts(u, query, target, e);
    assert Adjacent(e) == {};
    assert WordStarts(u, t, e) == if p == 0 || !(u.isLetter(t[p - 1]) || u.isDigit(t[p - 1])) then {0} else {};
  }

  function Repeat(c: char, n: nat): string {
    if n == 0 then "" else Repeat(c, n - 1) + [c]
  }

  lemma {:induction false} RepeatIs(c: char, n: nat)
    ensures |Repeat(c, n)| == n && forall i :: 0 <= i < n ==> Repeat(c, n)[i] == c
  {
    if n > 0 {
      RepeatIs(c, n - 1);
    }
  }

  function UpTo(n: nat): seq<nat> {
    if n == 0 then [] else UpTo(n - 1) + [n - 1]
  }

  lemma {:induction false} UpToIs(n: nat)
    ensures |UpTo(n)| == n && forall i :: 0 <= i < n ==> UpTo(n)[i] == i
  {
    if n > 0 {
      UpToIs(n - 1);
    }
  }

  lemma {:induction false} AscendingIsLate(f: seq<nat>, i: nat)
    requires forall i, j :: 0 <= i < j < |f| ==> f[i] < f[j]
    requires i < |f|
    ensures i <= f[i]
  {
    if i > 0 {
      AscendingIsLate(f, i - 1);
      assert f[i - 1] < f[i];
    }
  }

  lemma {:induction false} WeightOfRun(u: Text, t: string, c: char, n: nat)
    requires !u.isLetter(c) && !u.isDigit(c) && 1 <= n <= |t| && forall i :: 0 <= i < |t| ==> t[i] == c
    requires |UpTo(n)| == n && forall i :: 0 <= i < n ==> UpTo(n)[i] == i
    ensures Weight(u, t, UpTo(n)) == 16 * n + 15
  {
    UpToIs(n - 1);
    assert UpTo(n)[..n - 1] == UpTo(n - 1);
    if n == 1 {
      assert Weight(u, t, UpTo(0)) == 0;
    } else {
      WeightOfRun(u, t, c, n - 1);
    }
  }

  /** The bound is tight at every length: n and n + 1 copies of a character that is no letter or digit. */
  lemma BoundIsTight(u: Text, c: char, n: nat)
    requires n >= 1 && !u.isLetter(c) && !u.isDigit(c)
    requires forall k: nat :: u.lower(Repeat(c, k)) == Repeat(c, k)
    ensures ScoreOf(u, Repeat(c, n), Repeat(c, n + 1)) == 16 * n + 15
  {
    var q, t, e := Repeat(c, n), Repeat(c, n + 1), UpTo(n);
    RepeatIs(c, n);
    RepeatIs(c, n + 1);
    UpToIs(n);
    assert u.lower(q) == q && u.lower(t) == t && q != t;
    assert Embeds(q, t, e);
    forall f | Embeds(q, t, f) ensures NoLater(e, f) {
      forall i | 0 <= i < |e| ensures e[i] <= f[i] {
        AscendingIsLate(f, i);
      }
    }
    assert Leftmost(q, t, e);
    forall f | Leftmost(q, t, f) ensures f == e {
      LeftmostUnique(q, t, e, f);
    }
    WeightOfRun(u, t, c, n);
  }

  /** So an exact match outranks every other target for all queries of n lowered characters exactly when n <= 61. */
  lemma OutranksExactlyUpTo61(u: Text, c: char, n: nat)
    requires n >= 1 && !u.isLetter(c) && !u.isDigit(c)
    requires forall k: nat :: u.lower(Repeat(c, k)) == Repeat(c, k)
    ensures n <= 61 <==>
            forall query, target :: |u.lower(query)| == n && u.lower(target) != u.lower(query) ==>
              ScoreOf(u, query, target) < EXACT
  {
    if n <= 61 {
      forall query, target | |u.lower(query)| == n && u.lower(target) != u.lower(query)
        ensures ScoreOf(u, query, target) < EXACT
      {
        ExactMatchOutranks(u, query, target);
      }
    } else {
      BoundIsTight(u, c, n);
      RepeatIs(c, n);
      RepeatIs(c, n + 1);
      var query, target := Repeat(c, n), Repeat(c, n + 1);
      assert |u.lower(query)| == n && u.lower(target) != u.lower(query) && ScoreOf(u, query, target) >= EXACT;
    }
  }
}
