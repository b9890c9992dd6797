/** The final ranking of a game as game.ts computes it: one scan over the players sorted by score. */
module ResultTable {
  import opened Basics
  import opened Protocol
  import opened Ranking
  import opened Game

  lemma {:induction false} InsertedPlayers(ps: seq<Player>, p: Player)
    ensures multiset(InsertByScore(ps, p)) == multiset(ps) + multiset{p}
  {
    if ps != [] {
      var n := |ps| - 1;
      InsertedPlayers(ps[..n], p);
      assert ps == ps[..n] + [ps[n]];
    }
  }

  lemma {:induction false} SortedPlayers(ps: seq<Player>)
    ensures multiset(SortByScore(ps)) == multiset(ps)
  {
    if ps != [] {
      var n := |ps| - 1;
      SortedPlayers(ps[..n]);
      InsertedPlayers(SortByScore(ps[..n]), ps[n]);
      assert ps == ps[..n] + [ps[n]];
    }
  }

  lemma ScoresSnoc(ps: seq<Player>, p: Player)
    ensures ScoresOf(ps + [p]) == ScoresOf(ps) + [p.score]
  {
  }

  lemma {:induction false} InsertedScores(ps: seq<Player>, p: Player)
    ensures multiset(ScoresOf(InsertByScore(ps, p))) == multiset(ScoresOf(ps)) + multiset{p.score}
  {
    if ps == [] {
      ScoresSnoc([], p);
      assert [] + [p] == [p];
    } else {
      var front, last := ps[..|ps| - 1], ps[|ps| - 1];
      assert ps == front + [last];
      ScoresSnoc(front, last);
      if last.score >= p.score {
        ScoresSnoc(ps, p);
      } else {
        InsertedScores(front, p);
        ScoresSnoc(InsertByScore(front, p), last);
      }
    }
  }

  lemma {:induction false} SortedScores(ps: seq<Player>)
    ensures multiset(ScoresOf(SortByScore(ps))) == multiset(ScoresOf(ps))
  {
    if ps != [] {
      var front, last := ps[..|ps| - 1], ps[|ps| - 1];
      SortedScores(front);
      InsertedScores(SortByScore(front), last);
      assert ps == front + [last];
      ScoresSnoc(front, last);
    }
  }

  lemma BestFirstSnoc(ps: seq<Player>, p: Player)
    requires BestFirst(ps) && (ps != [] ==> ps[|ps| - 1].score >= p.score)
    ensures BestFirst(ps + [p])
  {
  }

  lemma {:induction false} InsertKeepsOrder(ps: seq<Player>, p: Player)
    requires BestFirst(ps)
    ensures BestFirst(InsertByScore(ps, p))
    ensures var r := InsertByScore(ps, p);
            r[|r| - 1].score == if ps != [] && ps[|ps| - 1].score < p.score then ps[|ps| - 1].score else p.score
  {
    if ps != [] {
      var n := |ps| - 1;
      if ps[n].score >= p.score {
        BestFirstSnoc(ps, p);
      } else {
        InsertKeepsOrder(ps[..n], p);
        BestFirstSnoc(InsertByScore(ps[..n], p), ps[n]);
      }
    }
  }

  lemma {:induction false} SortOrders(ps: seq<Player>)
    ensures BestFirst(SortByScore(ps))
  {
    if ps != [] {
      SortOrders(ps[..|ps| - 1]);
      InsertKeepsOrder(SortByScore(ps[..|ps| - 1]), ps[|ps| - 1]);
    }
  }

  /** Among players sorted by score, the first of a tie group is preceded by exactly the better ones. */
  lemma PlaceOfGroup(sorted: seq<Player>, scores: seq<int>, index: nat)
    requires BestFirst(sorted) && multiset(ScoresOf(sorted)) == multiset(scores) && index < |sorted|
    requires index == 0 || sorted[index - 1].score != sorted[index].score
    ensures Higher(scores, sorted[index].score) == index
  {
    var listed := ScoresOf(sorted);
    HigherOfPermutation(listed, scores, listed[index]);
    FirstOfItsGroup(listed, index);
  }

  /**
   * toResultPlayers: walk down the sorted list and open a new place whenever the score changes. Every player gets
   * one more than the number of strictly better players.
   */
  method ToResultPlayers(players: seq<Player>) returns (results: seq<ResultPlayer>)
    ensures |results| == |players|
    ensures forall i :: 0 <= i < |results| ==> results[i].rank == 1 + Higher(ScoresOf(players), results[i].score)
    ensures results == ResultPlayers(players)
  {
    var sorted := SortByScore(players);
    SortedScores(players);
    SortOrders(players);
    results := RankSorted(sorted, ScoresOf(players));
  }

  /** The scan over the sorted list. */
  method RankSorted(sorted: seq<Player>, scores: seq<int>) returns (results: seq<ResultPlayer>)
    requires BestFirst(sorted) && multiset(ScoresOf(sorted)) == multiset(scores)
    ensures results == Ranked(sorted, scores)
  {
    var rank := 0;
    var previousScore: Option<nat> := None;
    results := [];
    for index := 0 to |sorted|
      invariant |results| == index
      invariant forall i :: 0 <= i < index ==> results[i] == Ranked(sorted, scores)[i]
      invariant index == 0 ==> previousScore == None
      invariant index > 0 ==> previousScore == Some(sorted[index - 1].score)
                              && rank == 1 + Higher(scores, sorted[index - 1].score)
    {
      var player := sorted[index];
      if previousScore != Some(player.score) {
        PlaceOfGroup(sorted, scores, index);
        rank := index + 1;
        previousScore := Some(player.score);
      }
      results := results + [ResultPlayer(player.id, player.userId, player.nickname, player.score, rank)];
    }
  }

  // ---------------------------------------------------------------- shuffle

  /** One position drawn for each place i, from 0 to i; that for place 0 is never used. */
  predicate Draws(draws: seq<nat>) {
    forall i :: 0 <= i < |draws| ==> draws[i] <= i
  }

  function Swapped<T>(xs: seq<T>, i: nat, j: nat): (r: seq<T>)
    requires i < |xs| && j < |xs|
    ensures |r| == |xs|
  {
    xs[i := xs[j]][j := xs[i]]
  }

  /** Fisher-Yates: each place from the last on gets the item at a position drawn among those not yet placed. */
  function Shuffled<T>(xs: seq<T>, draws: seq<nat>): (r: seq<T>)
    requires |draws| == |xs| && Draws(draws)
    ensures |r| == |xs|
    decreases |xs|
  {
    if xs == [] then []
    else
      var n := |xs| - 1;
      var ys := Swapped(xs, n, draws[n]);
      Shuffled(ys[..n], draws[..n]) + [ys[n]]
  }

  lemma SwapKeepsItems<T>(xs: seq<T>, i: nat, j: nat)
    requires i < |xs| && j < |xs|
    ensures multiset(Swapped(xs, i, j)) == multiset(xs)
  {
  }

  lemma OneMoreItem<T>(front: seq<T>, x: T)
    ensures multiset(front + [x]) == multiset(front) + multiset{x}
  {
  }

  lemma {:induction false} ShuffleKeepsItems<T>(xs: seq<T>, draws: seq<nat>)
    requires |draws| == |xs| && Draws(draws)
    ensures multiset(Shuffled(xs, draws)) == multiset(xs)
    decreases |xs|
  {
    if xs != [] {
      var n := |xs| - 1;
      var ys := Swapped(xs, n, draws[n]);
      SwapKeepsItems(xs, n, draws[n]);
      ShuffleKeepsItems(ys[..n], draws[..n]);
      OneMoreItem(Shuffled(ys[..n], draws[..n]), ys[n]);
      OneMoreItem(ys[..n], ys[n]);
      Unsnoc(ys);
    }
  }

  /** The last place gets the item drawn for it. */
  lemma LastPlace<T>(xs: seq<T>, front: seq<nat>, j: nat)
    requires |xs| == |front| + 1 && Draws(front) && j <= |front|
    ensures Draws(front + [j])
    ensures Shuffled(xs, front + [j]) == Shuffled(Swapped(xs, |front|, j)[..|front|], front) + [xs[j]]
  {
    assert (front + [j])[..|front|] == front;
  }

  lemma FrontItems<T>(ys: seq<T>, order: seq<T>)
    requires multiset(ys) == multiset(order) && ys != [] && order != [] && ys[|ys| - 1] == order[|order| - 1]
    ensures multiset(ys[..|ys| - 1]) == multiset(order[..|order| - 1])
  {
    LastOut(ys);
    LastOut(order);
  }

  lemma SameLength<T>(xs: seq<T>, ys: seq<T>)
    requires multiset(xs) == multiset(ys)
    ensures |xs| == |ys|
  {
    assert |multiset(xs)| == |multiset(ys)|;
  }

  /** The item that is to come last can be brought there. */
  lemma BringLast<T>(xs: seq<T>, order: seq<T>) returns (j: nat)
    requires multiset(order) == multiset(xs) && xs != [] && |order| == |xs|
    ensures j < |xs| && xs[j] == order[|xs| - 1]
    ensures var ys := Swapped(xs, |xs| - 1, j); multiset(order[..|xs| - 1]) == multiset(ys[..|xs| - 1])
  {
    var n := |xs| - 1;
    assert order[n] in multiset(xs);
    j :| 0 <= j < |xs| && xs[j] == order[n];
    SwapKeepsItems(xs, n, j);
    FrontItems(Swapped(xs, n, j), order);
  }

  /** Every order can come out. */
  lemma {:induction false} EveryOrderIsDrawn<T>(xs: seq<T>, order: seq<T>) returns (draws: seq<nat>)
    requires multiset(order) == multiset(xs)
    ensures |draws| == |xs| && Draws(draws) && Shuffled(xs, draws) == order
    decreases |xs|
  {
    SameLength(xs, order);
    draws := [];
    if xs != [] {
      var j := BringLast(xs, order);
      draws := EveryOrderIsDrawn(Swapped(xs, |xs| - 1, j)[..|xs| - 1], order[..|xs| - 1]);
      LastPlace(xs, draws, j);
      draws := draws + [j];
    }
  }

  lemma SwapKeepsDistinct<T>(xs: seq<T>, i: nat, j: nat)
    requires i < |xs| && j < |xs| && Distinct(xs)
    ensures Distinct(Swapped(xs, i, j))
  {
  }

  lemma SameEnds<T>(xs: seq<T>, x: T, ys: seq<T>, y: T)
    requires xs + [x] == ys + [y]
    ensures xs == ys && x == y
  {
    assert (xs + [x])[..|xs|] == xs && (ys + [y])[..|ys|] == ys;
    assert (xs + [x])[|xs|] == x && (ys + [y])[|ys|] == y;
  }

  lemma FrontIsDistinct<T>(xs: seq<T>, i: nat, j: nat)
    requires i < |xs| && j < |xs| && Distinct(xs)
    ensures Distinct(Swapped(xs, i, j)[..i])
  {
    SwapKeepsDistinct(xs, i, j);
  }

  /** And each in one way only: different draws give different orders. */
  lemma {:induction false} OrdersTellDraws<T>(xs: seq<T>, front: seq<nat>, j: nat, others: seq<nat>, k: nat)
    requires Distinct(xs) && |front| + 1 == |xs| == |others| + 1 && Draws(front) && Draws(others)
    requires j <= |front| && k <= |others| && Draws(front + [j]) && Draws(others + [k])
    requires Shuffled(xs, front + [j]) == Shuffled(xs, others + [k])
    ensures front + [j] == others + [k]
    decreases |xs|
  {
    var n := |front|;
    LastPlace(xs, front, j);
    LastPlace(xs, others, k);
    var ys := Swapped(xs, n, j)[..n];
    SameEnds(Shuffled(ys, front), xs[j], Shuffled(Swapped(xs, n, k)[..n], others), xs[k]);
    assert j == k;
    if n > 0 {
      FrontIsDistinct(xs, n, j);
      var m := n - 1;
      assert front == front[..m] + [front[m]] && others == others[..m] + [others[m]];
      OrdersTellDraws(ys, front[..m], front[m], others[..m], others[m]);
    }
  }

  /** The first k places are still to be shuffled. */
  function Rest<T>(xs: seq<T>, draws: seq<nat>, k: nat): seq<T>
    requires k <= |xs| == |draws| && Draws(draws)
  {
    Shuffled(xs[..k], draws[..k]) + xs[k..]
  }

  /** The array after one swap is still on its way to the same order. */
  lemma SwapGoesOn<T>(xs: seq<T>, draws: seq<nat>, i: nat)
    requires i < |xs| == |draws| && Draws(draws)
    ensures Rest(xs, draws, i + 1) == Rest(Swapped(xs, i, draws[i]), draws, i)
  {
    var ys, front := Swapped(xs, i, draws[i]), xs[..i + 1];
    assert Swapped(front, i, draws[i]) == ys[..i + 1];
    assert ys[..i + 1][..i] == ys[..i] && draws[..i + 1][..i] == draws[..i];
    assert [ys[i]] + xs[i + 1..] == ys[i..];
  }

  lemma RestBegins<T>(xs: seq<T>, draws: seq<nat>)
    requires |xs| == |draws| && Draws(draws)
    ensures Rest(xs, draws, |xs|) == Shuffled(xs, draws)
  {
    assert xs[..|xs|] == xs && draws[..|xs|] == draws;
  }

  lemma RestEnds<T>(xs: seq<T>, draws: seq<nat>, k: nat)
    requires k <= |xs| == |draws| && Draws(draws) && k <= 1
    ensures Rest(xs, draws, k) == xs
  {
    if k == 1 {
      SwapGoesOn(xs, draws, 0);
    }
  }

  method Swap(a: array<PlayerId>, i: nat, j: nat)
    requires i < a.Length && j < a.Length
    modifies a
    ensures a[..] == Swapped(old(a[..]), i, j)
  {
    a[i], a[j] := a[j], a[i];
  }

  /** shuffle, in place, for the positions drawn. */
  method Shuffle(items: seq<PlayerId>, draws: seq<nat>) returns (result: seq<PlayerId>)
    requires |draws| == |items| && Draws(draws)
    ensures result == Shuffled(items, draws) && multiset(result) == multiset(items)
  {
    ShuffleKeepsItems(items, draws);
    RestBegins(items, draws);
    var a := new PlayerId[|items|](i requires 0 <= i < |items| => items[i]);
    assert a[..] == items;
    var i := a.Length - 1;
    while i > 0
      invariant -1 <= i < a.Length
      invariant Rest(a[..], draws, i + 1) == Shuffled(items, draws)
    {
      SwapGoesOn(a[..], draws, i);
      Swap(a, i, draws[i]);
      i := i - 1;
    }
    RestEnds(a[..], draws, i + 1);
    result := a[..];
  }

  /** Random positions: any that may be drawn. */
  method DrawPositions(n: nat) returns (draws: seq<nat>)
    ensures |draws| == n && Draws(draws)
  {
    draws := [];
    for i := 0 to n
      invariant |draws| == i && Draws(draws)
    {
      var j: nat :| j <= i;
      draws := draws + [j];
    }
  }
}
