/** Sequence helpers shared by the in-memory collections: the optional value,
    first and last match (the shape of `findOne` over a collection kept in
    insertion order), filtering (the shape of `find`), reversal, and the
    ordering predicates the sorted queries are proved against. */
module Seqs {

  datatype Option<+T> = None | Some(value: T)

  /** Index of the first element satisfying `p`. */
  function FirstIndex<T>(xs: seq<T>, p: T -> bool): (r: Option<nat>)
    ensures r.Some? ==> r.value < |xs| && p(xs[r.value])
    ensures r.Some? ==> forall j :: 0 <= j < r.value ==> !p(xs[j])
    ensures r.None? ==> forall j :: 0 <= j < |xs| ==> !p(xs[j])
    decreases |xs|
  {
    if xs == [] then None
    else if p(xs[0]) then Some(0)
    else
      match FirstIndex(xs[1..], p)
      case None =>
        assert forall j :: 1 <= j < |xs| ==> xs[j] == xs[1..][j - 1];
        None
      case Some(i) =>
        assert forall j :: 1 <= j < i + 1 ==> xs[j] == xs[1..][j - 1];
        Some(i + 1)
  }

  /** Index of the last element satisfying `p`. */
  function LastIndex<T>(xs: seq<T>, p: T -> bool): (r: Option<nat>)
    ensures r.Some? ==> r.value < |xs| && p(xs[r.value])
    ensures r.Some? ==> forall j :: r.value < j < |xs| ==> !p(xs[j])
    ensures r.None? ==> forall j :: 0 <= j < |xs| ==> !p(xs[j])
    decreases |xs|
  {
    if xs == [] then None
    else if p(xs[|xs| - 1]) then Some(|xs| - 1)
    else LastIndex(xs[..|xs| - 1], p)
  }

  /** The elements of `xs` satisfying `p`, in their original order. */
  function Filter<T(!new)>(xs: seq<T>, p: T -> bool): (r: seq<T>)
    ensures |r| <= |xs|
    ensures forall x :: x in r <==> x in xs && p(x)
    decreases |xs|
  {
    if xs == [] then []
    else
      var rest := Filter(xs[1..], p);
      assert forall x :: x in xs <==> x == xs[0] || x in xs[1..];
      if p(xs[0]) then [xs[0]] + rest else rest
  }

  /** `xs` back to front. */
  function Reverse<T>(xs: seq<T>): (r: seq<T>)
    ensures |r| == |xs|
    ensures forall i :: 0 <= i < |xs| ==> r[i] == xs[|xs| - 1 - i]
    decreases |xs|
  {
    if xs == [] then [] else Reverse(xs[1..]) + [xs[0]]
  }

  /** Reversal keeps exactly the same elements. */
  lemma ReverseSameElements<T>(xs: seq<T>)
    ensures forall x :: x in Reverse(xs) <==> x in xs
  {
    var r := Reverse(xs);
    forall x | x in xs ensures x in r {
      var i :| 0 <= i < |xs| && xs[i] == x;
      assert r[|xs| - 1 - i] == x;
    }
  }

  /** Each element's key is strictly larger than that of every earlier one. */
  predicate StrictlyAscending<T>(xs: seq<T>, key: T -> int) {
    forall i, j :: 0 <= i < j < |xs| ==> key(xs[i]) < key(xs[j])
  }

  /** Each element's key is strictly smaller than that of every earlier one. */
  predicate StrictlyDescending<T>(xs: seq<T>, key: T -> int) {
    forall i, j :: 0 <= i < j < |xs| ==> key(xs[i]) > key(xs[j])
  }

  /** Dropping the head of a strictly ascending sequence keeps it ascending,
      and the head's key is below every key after it. */
  lemma AscendingTail<T>(xs: seq<T>, key: T -> int)
    requires xs != [] && StrictlyAscending(xs, key)
    ensures StrictlyAscending(xs[1..], key)
    ensures forall y :: y in xs[1..] ==> key(xs[0]) < key(y)
  {
    var tail := xs[1..];
    forall i, j | 0 <= i < j < |tail| ensures key(tail[i]) < key(tail[j]) {
      assert tail[i] == xs[i + 1] && tail[j] == xs[j + 1];
    }
    forall y | y in tail ensures key(xs[0]) < key(y) {
      var k :| 0 <= k < |tail| && tail[k] == y;
      assert tail[k] == xs[k + 1];
    }
  }

  /** Putting an element with a smaller key in front of a strictly ascending
      sequence keeps it ascending. */
  lemma AscendingCons<T>(x: T, rest: seq<T>, key: T -> int)
    requires StrictlyAscending(rest, key)
    requires forall y :: y in rest ==> key(x) < key(y)
    ensures StrictlyAscending([x] + rest, key)
  {
    var r := [x] + rest;
    forall i, j | 0 <= i < j < |r| ensures key(r[i]) < key(r[j]) {
      if i == 0 {
        assert r[j] == rest[j - 1];
        assert rest[j - 1] in rest;
      } else {
        assert r[i] == rest[i - 1] && r[j] == rest[j - 1];
      }
    }
  }

  /** Filtering a strictly ascending sequence leaves it strictly ascending. */
  lemma {:induction false} FilterAscending<T(!new)>(xs: seq<T>, p: T -> bool, key: T -> int)
    requires StrictlyAscending(xs, key)
    ensures StrictlyAscending(Filter(xs, p), key)
    decreases |xs|
  {
    if xs != [] {
      AscendingTail(xs, key);
      FilterAscending(xs[1..], p, key);
      if p(xs[0]) {
        AscendingCons(xs[0], Filter(xs[1..], p), key);
      }
    }
  }

  /** Reversing a strictly ascending sequence makes it strictly descending. */
  lemma ReverseDescending<T>(xs: seq<T>, key: T -> int)
    requires StrictlyAscending(xs, key)
    ensures StrictlyDescending(Reverse(xs), key)
  {
    var r := Reverse(xs);
    forall i, j | 0 <= i < j < |r| ensures key(r[i]) > key(r[j]) {
      assert r[i] == xs[|xs| - 1 - i] && r[j] == xs[|xs| - 1 - j];
    }
  }
}
