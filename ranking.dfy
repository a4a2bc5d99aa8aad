/** Ranking (src/lib/ai-matcher.ts): `sortPropertiesByMatchScore` sorts scored listings
    in place by descending final score with JavaScript's stable `Array.prototype.sort`,
    and `getTopMatches` scores every listing against the whole catalog, sorts and keeps
    the first `limit` (5 by default). */
module Ranking {
  import opened Wrappers
  import opened Seqs
  import opened Types
  import opened Matcher

  /** Descending by final score. */
  predicate SortedDesc(s: seq<ScoredListing>) {
    forall i, j :: 0 <= i < j < |s| ==> s[i].finalScore >= s[j].finalScore
  }

  function ScoreIs(k: int): ScoredListing -> bool {
    (x: ScoredListing) => x.finalScore == k
  }

  /** Stable: listings with equal final scores keep their relative order. */
  ghost predicate StableFrom(output: seq<ScoredListing>, input: seq<ScoredListing>) {
    forall k :: Filter(output, ScoreIs(k)) == Filter(input, ScoreIs(k))
  }

  /** Inserts `x` after every element of `s`, from the back, that scores at least as
      high: the step of a stable insertion sort. */
  function Insert(s: seq<ScoredListing>, x: ScoredListing): (r: seq<ScoredListing>)
    ensures |r| == |s| + 1
    decreases |s|
  {
    if s == [] then [x]
    else if s[|s| - 1].finalScore >= x.finalScore then s + [x]
    else Insert(s[..|s| - 1], x) + [s[|s| - 1]]
  }

  /** The reference result of the sort: stable insertion sort, descending. */
  function SortDesc(s: seq<ScoredListing>): seq<ScoredListing>
    decreases |s|
  {
    if s == [] then [] else Insert(SortDesc(s[..|s| - 1]), s[|s| - 1])
  }

  lemma {:induction false} InsertPermutes(s: seq<ScoredListing>, x: ScoredListing)
    ensures multiset(Insert(s, x)) == multiset(s) + multiset{x}
    decreases |s|
  {
    if s != [] && s[|s| - 1].finalScore < x.finalScore {
      InsertPermutes(s[..|s| - 1], x);
      assert s == s[..|s| - 1] + [s[|s| - 1]];
    }
  }

  /** Inserting keeps a common lower bound on the scores. */
  lemma {:induction false} InsertBounded(s: seq<ScoredListing>, x: ScoredListing, lo: int)
    requires forall i :: 0 <= i < |s| ==> s[i].finalScore >= lo
    requires x.finalScore >= lo
    ensures forall i :: 0 <= i < |Insert(s, x)| ==> Insert(s, x)[i].finalScore >= lo
    decreases |s|
  {
    if s != [] && s[|s| - 1].finalScore < x.finalScore {
      InsertBounded(s[..|s| - 1], x, lo);
    }
  }

  lemma {:induction false} InsertSorted(s: seq<ScoredListing>, x: ScoredListing)
    requires SortedDesc(s)
    ensures SortedDesc(Insert(s, x))
    decreases |s|
  {
    if s == [] {
    } else if s[|s| - 1].finalScore >= x.finalScore {
      var r := s + [x];
      assert forall i, j :: 0 <= i < j < |r| ==> r[i].finalScore >= r[j].finalScore by {
        forall i, j | 0 <= i < j < |r|
          ensures r[i].finalScore >= r[j].finalScore
        {
          if j < |s| {
            assert r[i] == s[i] && r[j] == s[j];
          } else {
            assert r[i] == s[i] && r[j] == x;
            assert s[i].finalScore >= s[|s| - 1].finalScore;
          }
        }
      }
    } else {
      var init := s[..|s| - 1];
      var last := s[|s| - 1];
      InsertSorted(init, x);
      InsertBounded(init, x, last.finalScore);
      var t := Insert(init, x);
      var r := t + [last];
      assert forall i, j :: 0 <= i < j < |r| ==> r[i].finalScore >= r[j].finalScore by {
        forall i, j | 0 <= i < j < |r|
          ensures r[i].finalScore >= r[j].finalScore
        {
          if j < |t| {
            assert r[i] == t[i] && r[j] == t[j];
          } else {
            assert r[i] == t[i] && r[j] == last;
          }
        }
      }
    }
  }

  lemma {:induction false} InsertStable(s: seq<ScoredListing>, x: ScoredListing, k: int)
    ensures Filter(Insert(s, x), ScoreIs(k)) ==
              Filter(s, ScoreIs(k)) + (if x.finalScore == k then [x] else [])
    decreases |s|
  {
    var f := ScoreIs(k);
    if s == [] {
    } else if s[|s| - 1].finalScore >= x.finalScore {
      FilterConcat(s, [x], f);
    } else {
      var init := s[..|s| - 1];
      var last := s[|s| - 1];
      InsertStable(init, x, k);
      FilterConcat(Insert(init, x), [last], f);
      FilterConcat(init, [last], f);
      assert s == init + [last];
      // last scores above x, so at most one of the two can score k
      assert x.finalScore == k ==> !f(last);
    }
  }

  /** The reference sort is descending. */
  lemma {:induction false} SortDescSorted(s: seq<ScoredListing>)
    ensures SortedDesc(SortDesc(s))
    ensures |SortDesc(s)| == |s|
    decreases |s|
  {
    if s != [] {
      SortDescSorted(s[..|s| - 1]);
      InsertSorted(SortDesc(s[..|s| - 1]), s[|s| - 1]);
    }
  }

  /** The reference sort is a permutation of its input. */
  lemma {:induction false} SortDescPermutes(s: seq<ScoredListing>)
    ensures multiset(SortDesc(s)) == multiset(s)
    decreases |s|
  {
    if s != [] {
      var front, last := s[..|s| - 1], s[|s| - 1];
      SortDescPermutes(front);
      InsertPermutes(SortDesc(front), last);
      assert SortDesc(s) == Insert(SortDesc(front), last);
      assert s == front + [last];
      assert multiset(s) == multiset(front) + multiset{last};
    }
  }

  /** The reference sort is stable. */
  lemma {:induction false} SortDescStable(s: seq<ScoredListing>)
    ensures StableFrom(SortDesc(s), s)
    decreases |s|
  {
    if s != [] {
      var init := s[..|s| - 1];
      var last := s[|s| - 1];
      SortDescStable(init);
      forall k
        ensures Filter(SortDesc(s), ScoreIs(k)) == Filter(s, ScoreIs(k))
      {
        InsertStable(SortDesc(init), last, k);
        FilterConcat(init, [last], ScoreIs(k));
        assert s == init + [last];
      }
    }
  }

  /** `x` goes after a prefix whose last element scores at least as high, and before a
      tail that scores strictly lower. */
  lemma {:induction false} InsertAt(sorted: seq<ScoredListing>, x: ScoredListing, j: int)
    requires 0 <= j <= |sorted|
    requires j == 0 || sorted[j - 1].finalScore >= x.finalScore
    requires forall k :: j <= k < |sorted| ==> sorted[k].finalScore < x.finalScore
    ensures Insert(sorted, x) == sorted[..j] + [x] + sorted[j..]
    decreases |sorted|
  {
    if |sorted| == j {
      assert sorted[..j] == sorted && sorted[j..] == [];
    } else {
      var front := sorted[..|sorted| - 1];
      InsertAt(front, x, j);
      assert front[..j] == sorted[..j];
      assert sorted[j..] == front[j..] + [sorted[|sorted| - 1]];
    }
  }

  /** Sorting one more element of the input inserts it into the sorted prefix. */
  lemma SortDescPrefix(input: seq<ScoredListing>, i: int)
    requires 0 <= i < |input|
    ensures SortDesc(input[..i + 1]) == Insert(SortDesc(input[..i]), input[i])
  {
    assert input[..i + 1][..i] == input[..i];
  }

  /** One step of the sort: moves `a[i]` into place within the sorted prefix `a[..i]`,
      shifting the lower-scoring tail of the prefix one place right. */
  method InsertInPlace(a: array<ScoredListing>, i: int)
    requires 0 <= i < a.Length
    modifies a
    ensures a[..i + 1] == Insert(old(a[..i]), old(a[i]))
    ensures forall k :: i < k < a.Length ==> a[k] == old(a[k])
  {
    var x := a[i];
    ghost var sorted := a[..i];
    var j := i;
    while j > 0 && a[j - 1].finalScore < x.finalScore
      invariant 0 <= j <= i
      invariant forall k :: 0 <= k < j ==> a[k] == sorted[k]
      invariant forall k :: j < k <= i ==> a[k] == sorted[k - 1]
      invariant forall k :: j <= k < i ==> sorted[k].finalScore < x.finalScore
      invariant forall k :: i < k < a.Length ==> a[k] == old(a[k])
    {
      a[j] := a[j - 1];
      j := j - 1;
    }
    a[j] := x;
    InsertAt(sorted, x, j);
    ShiftedIsSplice(sorted, x, j, a[..i + 1]);
  }

  /** A sequence holding the prefix, then `x`, then the shifted rest, is that splice. */
  lemma ShiftedIsSplice(sorted: seq<ScoredListing>, x: ScoredListing, j: int, t: seq<ScoredListing>)
    requires 0 <= j <= |sorted| && |t| == |sorted| + 1
    requires forall k :: 0 <= k < j ==> t[k] == sorted[k]
    requires t[j] == x
    requires forall k :: j < k < |t| ==> t[k] == sorted[k - 1]
    ensures t == sorted[..j] + [x] + sorted[j..]
  {
  }

  /** sortPropertiesByMatchScore: stable in-place insertion sort, descending. */
  method SortByFinalScore(a: array<ScoredListing>)
    modifies a
    ensures a[..] == SortDesc(old(a[..]))
  {
    ghost var input := a[..];
    var i := 0;
    while i < a.Length
      invariant 0 <= i <= a.Length
      invariant a[..i] == SortDesc(input[..i])
      invariant forall k :: i <= k < a.Length ==> a[k] == input[k]
    {
      InsertInPlace(a, i);
      SortDescPrefix(input, i);
      i := i + 1;
    }
    assert a[..] == a[..a.Length];
    assert input == input[..a.Length];
  }

  /** `s.slice(0, limit)`: a negative limit counts from the end. */
  function JsSlice<T>(s: seq<T>, limit: int): (r: seq<T>)
    ensures limit >= 0 ==> |r| == if limit <= |s| then limit else |s|
    ensures limit < 0 ==> |r| == if |s| + limit >= 0 then |s| + limit else 0
    ensures r <= s
  {
    var end := if limit < 0 then (if |s| + limit >= 0 then |s| + limit else 0)
               else if limit <= |s| then limit else |s|;
    s[..end]
  }

  /** The default number of top matches. */
  const DefaultLimit := 5

  /** `properties.map(p => calculateMatchScore(criteria, p, properties))`. */
  function ScoreAll(criteria: MatchingCriteria, properties: seq<Property>,
                    haversine: (Coordinates, Coordinates) -> real): (r: seq<ScoredListing>)
    requires criteria.budget > 0.0 && PositivePrices(properties)
    ensures |r| == |properties|
    ensures forall i :: 0 <= i < |r| ==> r[i] == MatchScore(criteria, properties[i], properties, haversine)
  {
    seq(|properties|, i requires 0 <= i < |properties| =>
          MatchScore(criteria, properties[i], properties, haversine))
  }

  /** The first elements of the sorted list are a best choice: no listing left out
      scores above any listing kept. */
  lemma TopSliceIsBest(s: seq<ScoredListing>, limit: int)
    ensures multiset(JsSlice(SortDesc(s), limit)) <= multiset(s)
    ensures SortedDesc(JsSlice(SortDesc(s), limit))
    ensures forall i, x :: (0 <= i < |JsSlice(SortDesc(s), limit)|
                            && x in multiset(s) - multiset(JsSlice(SortDesc(s), limit))) ==>
              x.finalScore <= JsSlice(SortDesc(s), limit)[i].finalScore
  {
    var sorted := SortDesc(s);
    var t := JsSlice(sorted, limit);
    SortDescSorted(s);
    SortDescPermutes(s);
    assert t == sorted[..|t|];
    SortedPrefixIsBest(sorted, |t|);
  }

  /** A prefix of a descending list is descending, and nothing after it scores higher
      than anything in it. */
  lemma SortedPrefixIsBest(sorted: seq<ScoredListing>, n: int)
    requires 0 <= n <= |sorted| && SortedDesc(sorted)
    ensures multiset(sorted[..n]) <= multiset(sorted)
    ensures SortedDesc(sorted[..n])
    ensures forall i, x :: (0 <= i < n && x in multiset(sorted) - multiset(sorted[..n])) ==>
              x.finalScore <= sorted[..n][i].finalScore
  {
    PrefixSplit(sorted, n);
    forall i, x | 0 <= i < n && x in multiset(sorted) - multiset(sorted[..n])
      ensures x.finalScore <= sorted[..n][i].finalScore
    {
      RestScoresLower(sorted, n, i, x);
    }
  }

  /** What a prefix leaves of the multiset is the rest of the list. */
  lemma PrefixSplit(sorted: seq<ScoredListing>, n: int)
    requires 0 <= n <= |sorted|
    ensures multiset(sorted) - multiset(sorted[..n]) == multiset(sorted[n..])
    ensures multiset(sorted[..n]) <= multiset(sorted)
  {
    assert sorted == sorted[..n] + sorted[n..];
  }

  /** In a descending list, an element after the first `n` scores no higher than any of them. */
  lemma RestScoresLower(sorted: seq<ScoredListing>, n: int, i: int, x: ScoredListing)
    requires 0 <= i < n <= |sorted| && SortedDesc(sorted)
    requires x in multiset(sorted[n..])
    ensures x.finalScore <= sorted[i].finalScore
  {
    var u := sorted[n..];
    assert x in u;
    var k :| 0 <= k < |u| && u[k] == x;
    assert sorted[n + k] == x;
  }

  /** getTopMatches: the catalog scored against itself, sorted by descending final score
      (stable), cut to `limit`. */
  method TopMatches(criteria: MatchingCriteria, properties: seq<Property>, limit: int,
                    haversine: (Coordinates, Coordinates) -> real)
    returns (r: seq<ScoredListing>)
    requires criteria.budget > 0.0 && PositivePrices(properties)
    ensures r == JsSlice(SortDesc(ScoreAll(criteria, properties, haversine)), limit)
    ensures SortedDesc(r)
    ensures limit >= 0 ==> |r| == if limit <= |properties| then limit else |properties|
    ensures multiset(r) <= multiset(ScoreAll(criteria, properties, haversine))
  {
    r := SortedTop(ScoreAll(criteria, properties, haversine), limit);
  }

  /** The array copy, the in-place sort and the slice of getTopMatches, on listings
      already scored. */
  method SortedTop(scored: seq<ScoredListing>, limit: int) returns (r: seq<ScoredListing>)
    ensures r == JsSlice(SortDesc(scored), limit)
    ensures SortedDesc(r)
    ensures multiset(r) <= multiset(scored)
    ensures limit >= 0 ==> |r| == if limit <= |scored| then limit else |scored|
  {
    var a := new ScoredListing[|scored|](i requires 0 <= i < |scored| => scored[i]);
    assert a[..] == scored;
    SortByFinalScore(a);
    TopSliceIsBest(scored, limit);
    r := JsSlice(a[..], limit);
  }

  /** getTopMatches called without a limit: the parameter's default of 5. */
  method DefaultTopMatches(criteria: MatchingCriteria, properties: seq<Property>,
                           haversine: (Coordinates, Coordinates) -> real)
    returns (r: seq<ScoredListing>)
    requires criteria.budget > 0.0 && PositivePrices(properties)
    ensures r == JsSlice(SortDesc(ScoreAll(criteria, properties, haversine)), DefaultLimit)
    ensures SortedDesc(r)
    ensures |r| == if |properties| < 5 then |properties| else 5
  {
    r := TopMatches(criteria, properties, DefaultLimit, haversine);
  }
}
