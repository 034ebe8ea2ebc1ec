/**
 * The order `ProblemSolutionRepository.list_by_cause` returns a cause's
 * solutions in: `ORDER BY step_order, title`. Titles compare character by
 * character by code point, a proper prefix first; the database collation
 * is not modelled. Rows equal in both keys keep their table order, one of
 * the orders the query may return.
 */
module Listing {
  /** `a <= b` on texts: character by character, a proper prefix first. */
  predicate TextAtMost(a: string, b: string)
    decreases |a|
  {
    a == [] || (b != [] && (a[0] < b[0] || (a[0] == b[0] && TextAtMost(a[1..], b[1..]))))
  }

  /** Any two texts compare one way or the other. */
  lemma {:induction false} TextAtMostTotal(a: string, b: string)
    ensures TextAtMost(a, b) || TextAtMost(b, a)
    decreases |a|
  {
    if a != [] && b != [] && a[0] == b[0] {
      TextAtMostTotal(a[1..], b[1..]);
    }
  }

  /** The text order is transitive. */
  lemma {:induction false} TextAtMostTransitive(a: string, b: string, c: string)
    requires TextAtMost(a, b) && TextAtMost(b, c)
    ensures TextAtMost(a, c)
    decreases |a|
  {
    if a != [] && a[0] == b[0] && b[0] == c[0] {
      TextAtMostTransitive(a[1..], b[1..], c[1..]);
    }
  }

  /** `(step_order, title)` of `x` is at most that of `y`. */
  predicate AtMost<T>(x: T, y: T, step: T -> int, title: T -> string) {
    step(x) < step(y) || (step(x) == step(y) && TextAtMost(title(x), title(y)))
  }

  lemma AtMostTotal<T>(x: T, y: T, step: T -> int, title: T -> string)
    ensures AtMost(x, y, step, title) || AtMost(y, x, step, title)
  {
    TextAtMostTotal(title(x), title(y));
  }

  lemma AtMostTransitive<T>(x: T, y: T, z: T, step: T -> int, title: T -> string)
    requires AtMost(x, y, step, title) && AtMost(y, z, step, title)
    ensures AtMost(x, z, step, title)
  {
    if step(x) == step(y) && step(y) == step(z) {
      TextAtMostTransitive(title(x), title(y), title(z));
    }
  }

  /** Every element is at most every later one. */
  predicate Ordered<T>(xs: seq<T>, step: T -> int, title: T -> string) {
    forall i, j :: 0 <= i < j < |xs| ==> AtMost(xs[i], xs[j], step, title)
  }

  /** No element occurs twice. */
  predicate Distinct<T(==)>(xs: seq<T>) {
    forall i, j :: 0 <= i < j < |xs| ==> xs[i] != xs[j]
  }

  /** `x` placed before the first element it is at most. */
  function Insert<T>(x: T, xs: seq<T>, step: T -> int, title: T -> string): (r: seq<T>)
    ensures multiset(r) == multiset(xs) + multiset{x}
  {
    if xs == [] then [x]
    else if AtMost(x, xs[0], step, title) then [x] + xs
    else
      var rest := Insert(x, xs[1..], step, title);
      assert xs == [xs[0]] + xs[1..];
      [xs[0]] + rest
  }

  /**
   * The rows in `(step_order, title)` order: insertion sort, each row
   * placed before the rows that follow it in the table and compare equal.
   */
  function Sort<T>(xs: seq<T>, step: T -> int, title: T -> string): (r: seq<T>)
    ensures multiset(r) == multiset(xs)
  {
    if xs == [] then []
    else
      assert xs == [xs[0]] + xs[1..];
      Insert(xs[0], Sort(xs[1..], step, title), step, title)
  }

  /** Sorting keeps the length and the members. */
  lemma SortMembers<T(!new)>(xs: seq<T>, step: T -> int, title: T -> string)
    ensures |Sort(xs, step, title)| == |xs|
    ensures forall x :: x in Sort(xs, step, title) <==> x in xs
  {
    var r := Sort(xs, step, title);
    assert |r| == |multiset(r)|;
    forall x
      ensures x in r <==> x in xs
    {
      assert x in r <==> x in multiset(r);
      assert x in xs <==> x in multiset(xs);
    }
  }

  /** A lower bound of `x` and of every element of `xs` bounds every element of the insertion. */
  lemma {:induction false} InsertLowerBound<T>(y: T, x: T, xs: seq<T>, step: T -> int, title: T -> string)
    requires AtMost(y, x, step, title)
    requires forall k :: 0 <= k < |xs| ==> AtMost(y, xs[k], step, title)
    ensures forall k :: 0 <= k < |Insert(x, xs, step, title)| ==> AtMost(y, Insert(x, xs, step, title)[k], step, title)
    decreases |xs|
  {
    if xs != [] && !AtMost(x, xs[0], step, title) {
      InsertLowerBound(y, x, xs[1..], step, title);
    }
  }

  lemma {:induction false} InsertOrdered<T>(x: T, xs: seq<T>, step: T -> int, title: T -> string)
    requires Ordered(xs, step, title)
    ensures Ordered(Insert(x, xs, step, title), step, title)
    decreases |xs|
  {
    if xs != [] {
      var r := Insert(x, xs, step, title);
      if AtMost(x, xs[0], step, title) {
        forall i, j | 0 <= i < j < |r|
          ensures AtMost(r[i], r[j], step, title)
        {
          if i == 0 && j > 1 {
            AtMostTransitive(x, xs[0], xs[j - 1], step, title);
          }
        }
      } else {
        AtMostTotal(x, xs[0], step, title);
        var rest := Insert(x, xs[1..], step, title);
        InsertOrdered(x, xs[1..], step, title);
        InsertLowerBound(xs[0], x, xs[1..], step, title);
        assert r == [xs[0]] + rest;
        forall i, j | 0 <= i < j < |r|
          ensures AtMost(r[i], r[j], step, title)
        {
          if i > 0 {
            assert r[i] == rest[i - 1];
          }
          assert r[j] == rest[j - 1];
        }
      }
    }
  }

  /** The sort puts the rows in `(step_order, title)` order. */
  lemma {:induction false} SortOrdered<T>(xs: seq<T>, step: T -> int, title: T -> string)
    ensures Ordered(Sort(xs, step, title), step, title)
  {
    if xs != [] {
      SortOrdered(xs[1..], step, title);
      InsertOrdered(xs[0], Sort(xs[1..], step, title), step, title);
    }
  }

  lemma {:induction false} InsertDistinct<T>(x: T, xs: seq<T>, step: T -> int, title: T -> string)
    requires Distinct(xs) && x !in xs
    ensures Distinct(Insert(x, xs, step, title))
    decreases |xs|
  {
    if xs != [] && !AtMost(x, xs[0], step, title) {
      var rest := Insert(x, xs[1..], step, title);
      assert xs == [xs[0]] + xs[1..];
      InsertDistinct(x, xs[1..], step, title);
      assert xs[0] !in multiset(rest);
    }
  }

  /** Sorting rows that are pairwise different keeps them pairwise different. */
  lemma {:induction false} SortDistinct<T(!new)>(xs: seq<T>, step: T -> int, title: T -> string)
    requires Distinct(xs)
    ensures Distinct(Sort(xs, step, title))
  {
    if xs != [] {
      assert xs == [xs[0]] + xs[1..];
      SortDistinct(xs[1..], step, title);
      SortMembers(xs[1..], step, title);
      assert xs[0] !in xs[1..];
      InsertDistinct(xs[0], Sort(xs[1..], step, title), step, title);
    }
  }

  /** The first `n` elements, or all of them when there are fewer. */
  function Take<T>(xs: seq<T>, n: nat): (r: seq<T>)
    ensures |r| <= n && |r| <= |xs|
    ensures r == xs[..|r|]
    ensures |xs| <= n ==> r == xs
  {
    if |xs| <= n then xs else xs[..n]
  }

  /**
   * The first `n` elements of an ordered sequence are ordered, and every
   * element left out is at least every element taken.
   */
  lemma TakeOrdered<T>(xs: seq<T>, n: nat, step: T -> int, title: T -> string)
    requires Ordered(xs, step, title)
    ensures Ordered(Take(xs, n), step, title)
    ensures forall x, i :: x in xs && x !in Take(xs, n) && 0 <= i < |Take(xs, n)| ==> AtMost(Take(xs, n)[i], x, step, title)
  {
    var r := Take(xs, n);
    forall x, i | x in xs && x !in r && 0 <= i < |r|
      ensures AtMost(r[i], x, step, title)
    {
      var k :| 0 <= k < |xs| && xs[k] == x;
      assert forall j :: 0 <= j < |r| ==> r[j] == xs[j];
      assert |r| <= k;
    }
  }
}
