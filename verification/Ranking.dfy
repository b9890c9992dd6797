/** Competition ranking ("1, 2, 2, 4"): the place of a value is one more than the number of strictly higher values. */
module Ranking {
  import opened Basics

  /** How many entries of xs are strictly above v. */
  function Higher(xs: seq<int>, v: int): nat {
    if xs == [] then 0
    else
      var n := |xs| - 1;
      Higher(xs[..n], v) + (if xs[n] > v then 1 else 0)
  }

  lemma {:induction false} HigherCounts(xs: seq<int>, v: int)
    ensures Higher(xs, v) == |set i | 0 <= i < |xs| && xs[i] > v|
  {
    if xs != [] {
      var n := |xs| - 1;
      HigherCounts(xs[..n], v);
      var front := set i | 0 <= i < n && xs[..n][i] > v;
      var all := set i | 0 <= i < |xs| && xs[i] > v;
      assert n !in front && all == front + if xs[n] > v then {n} else {};
    }
  }

  predicate Descending(xs: seq<int>) {
    forall i, j :: 0 <= i < j < |xs| ==> xs[i] >= xs[j]
  }

  lemma {:induction false} HigherWithout(xs: seq<int>, k: nat, v: int)
    requires k < |xs|
    ensures Higher(xs, v) == Higher(xs[..k] + xs[k + 1..], v) + (if xs[k] > v then 1 else 0)
  {
    var n := |xs| - 1;
    var rest := xs[..k] + xs[k + 1..];
    if k == n {
      assert rest == xs[..n];
    } else {
      HigherWithout(xs[..n], k, v);
      assert rest[..n - 1] == xs[..n][..k] + xs[..n][k + 1..];
    }
  }

  /** The count does not depend on the order of the entries. */
  lemma {:induction false} HigherOfPermutation(xs: seq<int>, ys: seq<int>, v: int)
    requires multiset(xs) == multiset(ys)
    ensures Higher(xs, v) == Higher(ys, v)
    decreases |xs|
  {
    if xs == [] {
      assert |multiset(ys)| == 0;
    } else {
      var n := |xs| - 1;
      assert xs == xs[..n] + [xs[n]];
      assert xs[n] in multiset(ys);
      var k :| 0 <= k < |ys| && ys[k] == xs[n];
      RemoveOne(xs, ys, k);
      HigherOfPermutation(xs[..n], ys[..k] + ys[k + 1..], v);
      HigherWithout(ys, k, v);
    }
  }

  lemma {:induction false} AllAbove(xs: seq<int>, v: int)
    requires forall i :: 0 <= i < |xs| ==> xs[i] > v
    ensures Higher(xs, v) == |xs|
  {
    if xs != [] {
      AllAbove(xs[..|xs| - 1], v);
    }
  }

  /** Entries at or below v at the end do not count. */
  lemma {:induction false} NoneAboveFrom(xs: seq<int>, i: nat, v: int)
    requires i <= |xs| && forall k :: i <= k < |xs| ==> xs[k] <= v
    ensures Higher(xs, v) == Higher(xs[..i], v)
  {
    if |xs| == i {
      assert xs[..i] == xs;
    } else {
      NoneAboveFrom(xs[..|xs| - 1], i, v);
      assert xs[..|xs| - 1][..i] == xs[..i];
    }
  }

  /** In a descending list the first entry of a tie group at index i has exactly i entries above it. */
  lemma FirstOfItsGroup(xs: seq<int>, i: nat)
    requires Descending(xs) && i < |xs| && (i == 0 || xs[i - 1] != xs[i])
    ensures Higher(xs, xs[i]) == i
  {
    forall k | 0 <= k < i ensures xs[k] > xs[i] {
      assert k == i - 1 || xs[k] >= xs[i - 1] >= xs[i];
    }
    AllAbove(xs[..i], xs[i]);
    NoneAboveFrom(xs, i, xs[i]);
  }
}
