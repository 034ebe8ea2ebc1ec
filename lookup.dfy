/**
 * The two ways the services pick one element by key: the `for ... if ...:
 * break` search keeps the first match, and a dict built by comprehension
 * keeps the last element written under a key.
 */
module Lookup {
  import opened Wrappers

  /** The index of the first element whose key is `k`. */
  function FirstWith<T, K(==)>(xs: seq<T>, key: T -> K, k: K): (r: Option<nat>)
    ensures r.Some? ==> r.value < |xs| && key(xs[r.value]) == k
    ensures r.Some? ==> forall j :: 0 <= j < r.value ==> key(xs[j]) != k
    ensures r.None? ==> forall j :: 0 <= j < |xs| ==> key(xs[j]) != k
  {
    if xs == [] then None
    else if key(xs[0]) == k then Some(0)
    else
      match FirstWith(xs[1..], key, k)
      case None => None
      case Some(i) => Some(i + 1)
  }

  /** The index of the last element whose key is `k`: what `{key(x): x for x in xs}[k]` holds. */
  function LastWith<T, K(==)>(xs: seq<T>, key: T -> K, k: K): (r: Option<nat>)
    ensures r.Some? ==> r.value < |xs| && key(xs[r.value]) == k
    ensures r.Some? ==> forall j :: r.value < j < |xs| ==> key(xs[j]) != k
    ensures r.None? ==> forall j :: 0 <= j < |xs| ==> key(xs[j]) != k
  {
    if xs == [] then None
    else if key(xs[|xs| - 1]) == k then Some(|xs| - 1)
    else LastWith(xs[..|xs| - 1], key, k)
  }

  /** The search loop with `break`: the index of the first match, or the length when there is none. */
  method FindFirst<T, K(==)>(xs: seq<T>, key: T -> K, k: K) returns (i: nat)
    ensures i <= |xs|
    ensures i < |xs| <==> FirstWith(xs, key, k).Some?
    ensures i < |xs| ==> FirstWith(xs, key, k) == Some(i)
  {
    i := 0;
    while i < |xs|
      invariant i <= |xs|
      invariant forall j :: 0 <= j < i ==> key(xs[j]) != k
    {
      if key(xs[i]) == k {
        return;
      }
      i := i + 1;
    }
  }
}
