/** Small vocabulary shared by every other module. */
module Basics {

  datatype Option<+T> = None | Some(value: T)

  /** No element occurs twice. */
  predicate Distinct<T(==)>(xs: seq<T>) {
    forall i, j :: 0 <= i < j < |xs| ==> xs[i] != xs[j]
  }

  /** All occurrences of x removed, the order of the rest kept: `xs.filter((y) => y !== x)`. */
  function Without<T(==)>(xs: seq<T>, x: T): seq<T> {
    if xs == [] then []
    else
      var n := |xs| - 1;
      if xs[n] == x then Without(xs[..n], x) else Without(xs[..n], x) + [xs[n]]
  }

  lemma {:induction false} WithoutMembers<T>(xs: seq<T>, x: T)
    ensures forall y :: y in Without(xs, x) <==> y in xs && y != x
  {
    if xs != [] {
      var n := |xs| - 1;
      assert xs == xs[..n] + [xs[n]];
      WithoutMembers(xs[..n], x);
    }
  }

  lemma {:induction false} WithoutOfDistinct<T>(xs: seq<T>, x: T)
    requires Distinct(xs)
    ensures Distinct(Without(xs, x)) && |Without(xs, x)| == if x in xs then |xs| - 1 else |xs|
  {
    if xs != [] {
      var n := |xs| - 1;
      var rest := Without(xs[..n], x);
      WithoutOfDistinct(xs[..n], x);
      WithoutMembers(xs[..n], x);
      assert xs == xs[..n] + [xs[n]] && xs[n] !in xs[..n];
      assert forall k :: 0 <= k < |rest| ==> rest[k] in rest;
    }
  }

  lemma MultiplicityOfDistinct<T>(xs: seq<T>, x: T)
    requires Distinct(xs)
    ensures multiset(xs)[x] <= 1
  {
    if xs != [] {
      var n := |xs| - 1;
      assert xs == xs[..n] + [xs[n]];
      MultiplicityOfDistinct(xs[..n], x);
    }
  }

  /** A rearrangement of a duplicate-free sequence is duplicate-free. */
  lemma PermutationOfDistinct<T>(xs: seq<T>, ys: seq<T>)
    requires multiset(xs) == multiset(ys) && Distinct(xs)
    ensures Distinct(ys) && |ys| == |xs|
    ensures forall y :: y in ys <==> y in xs
  {
    assert |multiset(ys)| == |multiset(xs)|;
    forall y ensures y in ys <==> y in xs {
      assert y in ys <==> y in multiset(ys);
    }
    forall i, j | 0 <= i < j < |ys| ensures ys[i] != ys[j] {
      assert ys == ys[..j] + [ys[j]] + ys[j + 1..];
      assert ys[i] in ys[..j];
      MultiplicityOfDistinct(xs, ys[j]);
    }
  }

  /** Pigeonhole: a duplicate-free sequence is no longer than one that holds all its elements. */
  lemma {:induction false} Pigeonhole<T>(xs: seq<T>, ys: seq<T>)
    requires Distinct(xs) && forall x :: x in xs ==> x in ys
    ensures |xs| <= |ys|
    decreases |xs|
  {
    if xs != [] {
      var n := |xs| - 1;
      assert xs[n] in ys;
      var i :| 0 <= i < |ys| && ys[i] == xs[n];
      var zs := ys[..i] + ys[i + 1..];
      forall x | x in xs[..n] ensures x in zs {
        assert x in xs && x in ys;
        var j :| 0 <= j < |ys| && ys[j] == x;
        assert j != i;
        assert if j < i then zs[j] == x else zs[j - 1] == x;
      }
      Pigeonhole(xs[..n], zs);
    }
  }

  lemma Unsnoc<T>(xs: seq<T>)
    requires xs != []
    ensures xs == xs[..|xs| - 1] + [xs[|xs| - 1]]
  {
  }

  /** Equal elements taken out of two rearrangements of each other. */
  lemma RemoveOne<T>(xs: seq<T>, ys: seq<T>, k: nat)
    requires xs != [] && k < |ys| && xs[|xs| - 1] == ys[k] && multiset(xs) == multiset(ys)
    ensures multiset(xs[..|xs| - 1]) == multiset(ys[..k] + ys[k + 1..])
  {
    LastOut(xs);
    OneOut(ys, k);
  }

  lemma LastOut<T>(xs: seq<T>)
    requires xs != []
    ensures multiset(xs[..|xs| - 1]) == multiset(xs) - multiset{xs[|xs| - 1]}
  {
    assert xs == xs[..|xs| - 1] + [xs[|xs| - 1]];
  }

  lemma OneOut<T>(ys: seq<T>, k: nat)
    requires k < |ys|
    ensures multiset(ys[..k] + ys[k + 1..]) == multiset(ys) - multiset{ys[k]}
  {
    assert ys == ys[..k] + ([ys[k]] + ys[k + 1..]);
  }
}
