/** Sequence operations in the shape of JavaScript's `Array.prototype.filter`, `includes`,
    `reduce` (sums) and `map`, with the facts the rest of the model needs about them. */
module Seqs {

  /** `a` is an order-preserving sublist of `b`: `a` is `b` with some elements dropped. */
  predicate IsSublist<T(==)>(a: seq<T>, b: seq<T>)
    decreases |b|
  {
    if a == [] then true
    else if b == [] then false
    else if a[0] == b[0] then IsSublist(a[1..], b[1..])
    else IsSublist(a, b[1..])
  }

  /** No element occurs twice. */
  predicate NoDuplicates<T(==)>(s: seq<T>) {
    forall i, j :: 0 <= i < j < |s| ==> s[i] != s[j]
  }

  /** `s.filter(f)`: the elements of `s` that satisfy `f`, in their order. */
  function Filter<T>(s: seq<T>, f: T -> bool): (r: seq<T>)
    ensures |r| <= |s|
    ensures forall i :: 0 <= i < |r| ==> f(r[i])
    ensures forall i :: 0 <= i < |r| ==> r[i] in s
    ensures forall i :: 0 <= i < |s| && f(s[i]) ==> s[i] in r
  {
    if s == [] then [] else (if f(s[0]) then [s[0]] else []) + Filter(s[1..], f)
  }

  /** The number of elements of `s` that satisfy `f` (`s.filter(f).length`). */
  function Count<T>(s: seq<T>, f: T -> bool): (n: nat)
    ensures n <= |s|
  {
    |Filter(s, f)|
  }

  /** The test `y => y == x`, named so that two counts of the same value agree. */
  function Equals<T(==)>(x: T): T -> bool {
    y => y == x
  }

  /** `s.reduce((acc, x) => acc + w(x), 0)`. */
  function Sum<T>(s: seq<T>, w: T -> real): real {
    if s == [] then 0.0 else w(s[0]) + Sum(s[1..], w)
  }

  /** The filter keeps every copy of each element that passes, and none of the others. */
  lemma {:induction false} FilterMultiset<T>(s: seq<T>, f: T -> bool)
    ensures forall x :: multiset(Filter(s, f))[x] == if f(x) then multiset(s)[x] else 0
    decreases |s|
  {
    if s != [] {
      FilterMultiset(s[1..], f);
      assert s == [s[0]] + s[1..];
      assert multiset(s) == multiset([s[0]]) + multiset(s[1..]);
      var head := if f(s[0]) then [s[0]] else [];
      assert multiset(Filter(s, f)) == multiset(head) + multiset(Filter(s[1..], f));
    }
  }

  /** Filtering a list with one element at the end. */
  lemma FilterSnoc<T>(s: seq<T>, x: T, f: T -> bool)
    ensures Filter(s + [x], f) == Filter(s, f) + (if f(x) then [x] else [])
  {
    FilterConcat(s, [x], f);
    assert [x][1..] == [];
  }

  /** Filtering a list with one element in front. */
  lemma FilterCons<T>(s: seq<T>, x: T, f: T -> bool)
    ensures Filter([x] + s, f) == (if f(x) then [x] else []) + Filter(s, f)
  {
    assert ([x] + s)[1..] == s;
  }

  lemma {:induction false} FilterIsSublist<T>(s: seq<T>, f: T -> bool)
    ensures IsSublist(Filter(s, f), s)
    decreases |s|
  {
    if s != [] {
      FilterIsSublist(s[1..], f);
      if f(s[0]) {
        assert Filter(s, f) == [s[0]] + Filter(s[1..], f);
        assert Filter(s, f)[1..] == Filter(s[1..], f);
      } else {
        assert Filter(s, f) == Filter(s[1..], f);
        SublistSkip(Filter(s[1..], f), s[1..], s[0]);
      }
    }
  }

  /** Prepending an element to the longer list keeps a sublist a sublist. */
  lemma {:induction false} SublistSkip<T>(a: seq<T>, b: seq<T>, x: T)
    requires IsSublist(a, b)
    ensures IsSublist(a, [x] + b)
    decreases |b|, 1
  {
    if a != [] && a[0] == x {
      assert ([x] + b)[1..] == b;
      SublistTail(a, b);
    } else if a != [] {
      assert ([x] + b)[1..] == b;
    }
  }

  /** Dropping the first element of the shorter list keeps a sublist a sublist. */
  lemma {:induction false} SublistTail<T>(a: seq<T>, b: seq<T>)
    requires a != [] && IsSublist(a, b)
    ensures IsSublist(a[1..], b)
    decreases |b|, 0
  {
    assert b != [];
    if a[0] == b[0] {
      if a[1..] != [] {
        SublistSkip(a[1..], b[1..], b[0]);
        assert [b[0]] + b[1..] == b;
      }
    } else {
      SublistTail(a, b[1..]);
      if a[1..] != [] {
        SublistSkip(a[1..], b[1..], b[0]);
        assert [b[0]] + b[1..] == b;
      }
    }
  }

  lemma {:induction false} FilterConcat<T>(a: seq<T>, b: seq<T>, f: T -> bool)
    ensures Filter(a + b, f) == Filter(a, f) + Filter(b, f)
    decreases |a|
  {
    if a == [] {
      assert a + b == b;
    } else {
      assert (a + b)[1..] == a[1..] + b;
      FilterConcat(a[1..], b, f);
    }
  }

  /** Filtering twice is filtering once by the conjunction. */
  lemma {:induction false} FilterTwice<T>(s: seq<T>, f: T -> bool, g: T -> bool, h: T -> bool)
    requires forall x :: h(x) == (f(x) && g(x))
    ensures Filter(Filter(s, f), g) == Filter(s, h)
    decreases |s|
  {
    if s != [] {
      var rest := Filter(s[1..], f);
      FilterTwice(s[1..], f, g, h);
      assert Filter(rest, g) == Filter(s[1..], h);
      assert h(s[0]) == (f(s[0]) && g(s[0]));
      if f(s[0]) {
        var fs := [s[0]] + rest;
        assert Filter(s, f) == fs;
        assert fs[1..] == rest;
        assert Filter(fs, g) == (if g(s[0]) then [s[0]] else []) + Filter(rest, g);
      } else {
        assert Filter(s, f) == rest;
      }
    }
  }

  /** Two predicates that agree on every element of `s` filter it alike. */
  lemma {:induction false} FilterAgree<T>(s: seq<T>, f: T -> bool, g: T -> bool)
    requires forall i :: 0 <= i < |s| ==> f(s[i]) == g(s[i])
    ensures Filter(s, f) == Filter(s, g)
    decreases |s|
  {
    if s != [] {
      FilterAgree(s[1..], f, g);
    }
  }

  /** A filter every element passes returns the whole list. */
  lemma {:induction false} FilterKeepsAll<T>(s: seq<T>, f: T -> bool)
    requires forall i :: 0 <= i < |s| ==> f(s[i])
    ensures Filter(s, f) == s
    decreases |s|
  {
    if s != [] {
      FilterKeepsAll(s[1..], f);
    }
  }

  lemma {:induction false} SumBounds<T>(s: seq<T>, w: T -> real, lo: real, hi: real)
    requires forall i :: 0 <= i < |s| ==> lo <= w(s[i]) <= hi
    ensures lo * (|s| as real) <= Sum(s, w) <= hi * (|s| as real)
    decreases |s|
  {
    if s != [] {
      SumBounds(s[1..], w, lo, hi);
    }
  }

  /** A filter keeps everything exactly when every element passes. */
  lemma {:induction false} CountAll<T>(s: seq<T>, f: T -> bool)
    ensures Count(s, f) == |s| <==> forall i :: 0 <= i < |s| ==> f(s[i])
    decreases |s|
  {
    if s != [] {
      CountAll(s[1..], f);
      assert forall i :: 1 <= i < |s| ==> s[1..][i - 1] == s[i];
    }
  }

  /** In a list without duplicates a value occurs at most once. */
  lemma {:induction false} CountSingle<T>(s: seq<T>, x: T)
    requires NoDuplicates(s)
    ensures Count(s, Equals(x)) <= 1
    decreases |s|
  {
    if s != [] {
      CountSingle(s[1..], x);
      if s[0] == x {
        FilterNone(s[1..], Equals(x));
      }
    }
  }

  /** A filter nothing passes returns the empty list. */
  lemma {:induction false} FilterNone<T>(s: seq<T>, f: T -> bool)
    requires forall i :: 0 <= i < |s| ==> !f(s[i])
    ensures Filter(s, f) == []
    decreases |s|
  {
    if s != [] {
      FilterNone(s[1..], f);
    }
  }

  /** A sum of positive weights over a non-empty list is positive, stated for callers
      that know this in some of their cases only. */
  lemma SumPositiveWhen<T>(s: seq<T>, w: T -> real)
    ensures s != [] && (forall i :: 0 <= i < |s| ==> w(s[i]) > 0.0) ==> Sum(s, w) > 0.0
  {
    if s != [] && forall i :: 0 <= i < |s| ==> w(s[i]) > 0.0 {
      SumPositive(s, w);
    }
  }

  /** The same, for callers that only know it in some of their cases. */
  lemma FilterEmptyWhenNonePass<T>(s: seq<T>, f: T -> bool)
    ensures (forall i :: 0 <= i < |s| ==> !f(s[i])) ==> Filter(s, f) == []
  {
    if forall i :: 0 <= i < |s| ==> !f(s[i]) {
      FilterNone(s, f);
    }
  }

  lemma {:induction false} SumPositive<T>(s: seq<T>, w: T -> real)
    requires s != [] && forall i :: 0 <= i < |s| ==> w(s[i]) > 0.0
    ensures Sum(s, w) > 0.0
    decreases |s|
  {
    if |s| > 1 {
      SumPositive(s[1..], w);
    }
  }

  /** The test `y => y != x`. */
  function NotEquals<T(==)>(x: T): T -> bool {
    y => y != x
  }

  /** The prefix one element longer is the prefix with that element appended. */
  lemma TakeSnoc<T>(s: seq<T>, i: int)
    requires 0 <= i < |s|
    ensures s[..i + 1] == s[..i] + [s[i]]
  {
  }

  /** Removing every copy of a value that occurs only at the front drops the front. */
  lemma RemoveFirst<T>(s: seq<T>)
    requires s != [] && NoDuplicates(s)
    ensures Filter(s, NotEquals(s[0])) == s[1..]
  {
    FilterKeepsAll(s[1..], NotEquals(s[0]));
  }

  /** `s.map(x => sel(x) ? f(x) : x)`: rewrites the selected elements in place. */
  function MapWhere<T>(s: seq<T>, sel: T -> bool, f: T -> T): (r: seq<T>)
    ensures |r| == |s|
    ensures forall i :: 0 <= i < |s| && sel(s[i]) ==> r[i] == f(s[i])
    ensures forall i :: 0 <= i < |s| && !sel(s[i]) ==> r[i] == s[i]
  {
    if s == [] then [] else [if sel(s[0]) then f(s[0]) else s[0]] + MapWhere(s[1..], sel, f)
  }

  /** When the rewrite keeps an element selected and is idempotent, so is the map. */
  lemma MapWhereIdempotent<T>(s: seq<T>, sel: T -> bool, f: T -> T)
    requires forall x :: sel(x) ==> sel(f(x)) && f(f(x)) == f(x)
    ensures MapWhere(MapWhere(s, sel, f), sel, f) == MapWhere(s, sel, f)
  {
    var once := MapWhere(s, sel, f);
    var twice := MapWhere(once, sel, f);
    assert forall i :: 0 <= i < |s| ==> twice[i] == once[i];
  }

  /** Filtering never introduces a duplicate. */
  lemma {:induction false} FilterKeepsNoDuplicates<T>(s: seq<T>, f: T -> bool)
    ensures NoDuplicates(s) ==> NoDuplicates(Filter(s, f))
    decreases |s|
  {
    if s != [] && NoDuplicates(s) {
      FilterKeepsNoDuplicates(s[1..], f);
      var rest := Filter(s[1..], f);
      assert s[0] !in s[1..];
      assert s[0] !in rest;
      if f(s[0]) {
        var r := [s[0]] + rest;
        assert forall i :: 1 <= i < |r| ==> r[i] == rest[i - 1];
      }
    }
  }
}
