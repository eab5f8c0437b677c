// Python's stable sort (`sorted(xs)`, `xs.sort(key=...)`) on a real-valued
// key, as the caption modules use it: an insertion sort that places each
// element after every element whose key is not larger.
module Sorting {

  predicate SortedBy<T>(xs: seq<T>, key: T -> real)
  {
    forall i, j :: 0 <= i < j < |xs| ==> key(xs[i]) <= key(xs[j])
  }

  /** Where `x` goes: after every element whose key is not larger than its own. */
  function InsertPos<T>(x: T, xs: seq<T>, key: T -> real): (p: nat)
    requires SortedBy(xs, key)
    ensures p <= |xs|
    ensures forall i :: 0 <= i < p ==> key(xs[i]) <= key(x)
    ensures forall i :: p <= i < |xs| ==> key(x) < key(xs[i])
    ensures (forall i :: 0 <= i < |xs| ==> key(xs[i]) <= key(x)) ==> p == |xs|
  {
    if xs == [] || key(x) < key(xs[0]) then 0
    else 1 + InsertPos(x, xs[1..], key)
  }

  /** `x` inserted into the sorted `xs` after its equals. */
  function InsertBy<T>(x: T, xs: seq<T>, key: T -> real): (r: seq<T>)
    requires SortedBy(xs, key)
    ensures multiset(r) == multiset(xs) + multiset{x}
    ensures |r| == |xs| + 1
    ensures SortedBy(r, key)
  {
    var p := InsertPos(x, xs, key);
    assert xs == xs[..p] + xs[p..];
    InsertSorted(x, xs, p, key);
    xs[..p] + [x] + xs[p..]
  }

  lemma InsertSorted<T>(x: T, xs: seq<T>, p: nat, key: T -> real)
    requires SortedBy(xs, key) && p <= |xs|
    requires forall i :: 0 <= i < p ==> key(xs[i]) <= key(x)
    requires forall i :: p <= i < |xs| ==> key(x) < key(xs[i])
    ensures SortedBy(xs[..p] + [x] + xs[p..], key)
  {
    var r := xs[..p] + [x] + xs[p..];
    assert forall i :: 0 <= i < p ==> r[i] == xs[i];
    assert forall i :: p < i < |r| ==> r[i] == xs[i - 1];
    assert r[p] == x;
    forall i, j | 0 <= i < j < |r|
      ensures key(r[i]) <= key(r[j])
    {
      if j < p {
      } else if j == p {
      } else if i < p {
        assert key(xs[i]) <= key(x) < key(xs[j - 1]);
      } else if i > p {
        assert key(xs[i - 1]) <= key(xs[j - 1]);
      }
    }
  }

  /** sorted(xs, key=key) */
  function SortBy<T>(xs: seq<T>, key: T -> real): (r: seq<T>)
    ensures multiset(r) == multiset(xs)
    ensures |r| == |xs|
    ensures SortedBy(r, key)
  {
    if xs == [] then []
    else
      assert xs == xs[..|xs| - 1] + [xs[|xs| - 1]];
      InsertBy(xs[|xs| - 1], SortBy(xs[..|xs| - 1], key), key)
  }

  /** Inserting an element whose key is not smaller than any other appends it. */
  lemma InsertLast<T>(x: T, xs: seq<T>, key: T -> real)
    requires SortedBy(xs, key)
    requires forall i :: 0 <= i < |xs| ==> key(xs[i]) <= key(x)
    ensures InsertBy(x, xs, key) == xs + [x]
  {
    var p := InsertPos(x, xs, key);
    assert xs[..p] == xs;
  }

  /** Sorting a list that is already in key order leaves it as it is (the sort is stable). */
  lemma {:induction false} SortSorted<T>(xs: seq<T>, key: T -> real)
    requires SortedBy(xs, key)
    ensures SortBy(xs, key) == xs
  {
    if xs != [] {
      var n := |xs| - 1;
      var init := xs[..n];
      SortedPrefix(xs, n, key);
      SortSorted(init, key);
      InsertLast(xs[n], init, key);
      calc {
        SortBy(xs, key);
        InsertBy(xs[n], SortBy(init, key), key);
        InsertBy(xs[n], init, key);
        init + [xs[n]];
        xs;
      }
    }
  }

  lemma SortedPrefix<T>(xs: seq<T>, n: nat, key: T -> real)
    requires SortedBy(xs, key) && n < |xs|
    ensures SortedBy(xs[..n], key)
    ensures forall i :: 0 <= i < n ==> key(xs[..n][i]) <= key(xs[n])
  {
  }
}
