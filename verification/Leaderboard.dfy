/**
 * The two rank computations of leaderboard.service.ts: `top`, a RANK() window over user_stats joined with users,
 * and `rankOf`, a count over user_stats alone.
 */
module Leaderboard {
  import opened Basics
  import opened Protocol
  import opened Ranking

  const LEADERBOARD_LIMIT := 100

  /** A user_stats row, reduced to its key and the column the list is sorted by. */
  datatype Row = Row(user: UserId, value: nat)

  datatype Entry = Entry(rank: nat, user: UserId, value: nat)

  function Values(rows: seq<Row>): (r: seq<int>)
    ensures |r| == |rows|
  {
    seq(|rows|, i requires 0 <= i < |rows| => rows[i].value)
  }

  /** `JOIN users u ON u.id = s.user_id`, or with keep == false the rows it leaves out. */
  function Joined(rows: seq<Row>, accounts: set<UserId>, keep: bool): (r: seq<Row>)
    ensures forall row :: row in r ==> row in rows && ((row.user in accounts) == keep)
    ensures forall row :: row in rows && ((row.user in accounts) == keep) ==> row in r
  {
    if rows == [] then []
    else
      var n := |rows| - 1;
      assert rows == rows[..n] + [rows[n]];
      var rest := Joined(rows[..n], accounts, keep);
      if (rows[n].user in accounts) == keep then rest + [rows[n]] else rest
  }

  predicate Precedes(a: Row, b: Row) {
    a.value > b.value || (a.value == b.value && a.user <= b.user)
  }

  /** `ORDER BY value DESC, user_id` */
  predicate InOrder(rows: seq<Row>) {
    forall i, j :: 0 <= i < j < |rows| ==> Precedes(rows[i], rows[j])
  }

  function Insert(rows: seq<Row>, row: Row): (r: seq<Row>)
    requires InOrder(rows)
    ensures multiset(r) == multiset(rows) + multiset{row}
    ensures forall x :: x in r ==> x in rows || x == row
    ensures InOrder(r)
  {
    if rows == [] then [row]
    else
      var n := |rows| - 1;
      assert rows == rows[..n] + [rows[n]];
      if Precedes(rows[n], row) then
        assert forall i :: 0 <= i < n ==> Precedes(rows[i], rows[n]);
        rows + [row]
      else
        var rest := Insert(rows[..n], row);
        assert forall i :: 0 <= i < |rest| ==> rest[i] in rest;
        rest + [rows[n]]
  }

  function Sorted(rows: seq<Row>): (r: seq<Row>)
    ensures multiset(r) == multiset(rows)
    ensures InOrder(r)
  {
    if rows == [] then []
    else
      var n := |rows| - 1;
      assert rows == rows[..n] + [rows[n]];
      Insert(Sorted(rows[..n]), rows[n])
  }

  /** `RANK() OVER (ORDER BY value DESC)` of row i: the position of the first row of its tie group. */
  function WindowRank(listing: seq<Row>, i: nat): nat
    requires i < |listing|
  {
    if i == 0 || listing[i - 1].value != listing[i].value then i + 1 else WindowRank(listing, i - 1)
  }

  /** `Math.min(Math.max(limit, 1), LEADERBOARD_LIMIT)` */
  function Clamp(limit: int): nat {
    if limit < 1 then 1 else if limit > LEADERBOARD_LIMIT then LEADERBOARD_LIMIT else limit
  }

  function Top(rows: seq<Row>, accounts: set<UserId>, limit: int): seq<Entry> {
    FirstOf(Sorted(Joined(rows, accounts, true)), limit)
  }

  /** The entries for the first rows of the listing. */
  function FirstOf(listing: seq<Row>, limit: int): seq<Entry> {
    var shown := if |listing| <= Clamp(limit) then |listing| else Clamp(limit);
    seq(shown, i requires 0 <= i < shown => Entry(WindowRank(listing, i), listing[i].user, listing[i].value))
  }

  /** The answer of rankOf for a row with that value: one more than the rows with a higher one. */
  function RankOf(rows: seq<Row>, value: nat): nat {
    Higher(Values(rows), value) + 1
  }

  // ---------------------------------------------------------------- agreement

  lemma {:induction false} WindowRankCounts(listing: seq<Row>, i: nat)
    requires InOrder(listing) && i < |listing|
    ensures WindowRank(listing, i) == 1 + Higher(Values(listing), listing[i].value)
  {
    if i == 0 || listing[i - 1].value != listing[i].value {
      FirstOfItsGroup(Values(listing), i);
    } else {
      WindowRankCounts(listing, i - 1);
    }
  }

  lemma LastValue(rows: seq<Row>)
    requires rows != []
    ensures Values(rows) == Values(rows[..|rows| - 1]) + [rows[|rows| - 1].value]
  {
  }

  lemma {:induction false} InsertedValues(rows: seq<Row>, row: Row)
    requires InOrder(rows)
    ensures multiset(Values(Insert(rows, row))) == multiset(Values(rows)) + multiset{row.value}
  {
    if rows == [] {
      LastValue([row]);
    } else {
      var n := |rows| - 1;
      LastValue(rows);
      if Precedes(rows[n], row) {
        LastValue(rows + [row]);
        assert (rows + [row])[..|rows|] == rows;
      } else {
        InsertedValues(rows[..n], row);
        var rest := Insert(rows[..n], row);
        LastValue(rest + [rows[n]]);
        assert (rest + [rows[n]])[..|rest|] == rest;
      }
    }
  }

  lemma {:induction false} SortedValues(rows: seq<Row>)
    ensures multiset(Values(Sorted(rows))) == multiset(Values(rows))
  {
    if rows != [] {
      SortedValues(rows[..|rows| - 1]);
      InsertedValues(Sorted(rows[..|rows| - 1]), rows[|rows| - 1]);
      LastValue(rows);
    }
  }

  /** Every row is either listed or an orphan. */
  lemma {:induction false} HigherSplits(rows: seq<Row>, accounts: set<UserId>, value: nat)
    ensures Higher(Values(rows), value)
            == Higher(Values(Joined(rows, accounts, true)), value)
               + Higher(Values(Joined(rows, accounts, false)), value)
  {
    if rows != [] {
      var n := |rows| - 1;
      HigherSplits(rows[..n], accounts, value);
      LastValue(rows);
      HigherSnoc(Values(rows[..n]), rows[n].value, value);
      var home := Joined(rows[..n], accounts, rows[n].user in accounts);
      LastValue(home + [rows[n]]);
      assert (home + [rows[n]])[..|home|] == home;
      HigherSnoc(Values(home), rows[n].value, value);
    }
  }

  lemma HigherSnoc(xs: seq<int>, x: int, v: int)
    ensures Higher(xs + [x], v) == Higher(xs, v) + if x > v then 1 else 0
  {
    assert (xs + [x])[..|xs|] == xs;
  }

  /**
   * The rank shown in the list falls short of the rank computed alone by exactly the number of better rows without
   * an account, whatever the limit.
   */
  lemma {:induction false} RanksDifferByOrphans(rows: seq<Row>, accounts: set<UserId>, limit: int, i: nat)
    requires i < |Top(rows, accounts, limit)|
    ensures var e := Top(rows, accounts, limit)[i];
            RankOf(rows, e.value) == e.rank + Higher(Values(Joined(rows, accounts, false)), e.value)
  {
    var joined := Joined(rows, accounts, true);
    var listing := Sorted(joined);
    WindowRankCounts(listing, i);
    SortedValues(joined);
    HigherOfPermutation(Values(listing), Values(joined), listing[i].value);
    HigherSplits(rows, accounts, listing[i].value);
  }

  lemma {:induction false} HigherIsZero(rows: seq<Row>, value: nat)
    ensures Higher(Values(rows), value) == 0 <==> forall row :: row in rows ==> row.value <= value
  {
    if rows != [] {
      var n := |rows| - 1;
      assert rows == rows[..n] + [rows[n]];
      HigherIsZero(rows[..n], value);
      LastValue(rows);
      HigherSnoc(Values(rows[..n]), rows[n].value, value);
    }
  }

  /** The two ranks of a listed user agree if and only if no row without an account is better. */
  lemma RanksAgree(rows: seq<Row>, accounts: set<UserId>, limit: int, i: nat)
    requires i < |Top(rows, accounts, limit)|
    ensures var e := Top(rows, accounts, limit)[i];
            e.rank == RankOf(rows, e.value)
            <==> forall row :: row in rows && row.user !in accounts ==> row.value <= e.value
  {
    RanksDifferByOrphans(rows, accounts, limit, i);
    HigherIsZero(Joined(rows, accounts, false), Top(rows, accounts, limit)[i].value);
  }

  /** A better row without an account: the member is first in the list and second when asked alone. */
  lemma OrphanShiftsRank()
    ensures var rows := [Row(1, 10), Row(2, 5)];
            Top(rows, {2}, 100) == [Entry(1, 2, 5)] && RankOf(rows, 5) == 2
  {
    var rows := [Row(1, 10), Row(2, 5)];
    assert rows[..1] == [Row(1, 10)] && rows[..1][..0] == [];
    assert Joined(rows[..1], {2}, true) == [];
    assert Joined(rows, {2}, true) == [Row(2, 5)];
    assert [Row(2, 5)][..0] == [];
    assert Sorted([Row(2, 5)]) == [Row(2, 5)];
    LastValue(rows);
    LastValue(rows[..1]);
    HigherSnoc([], 10, 5);
    HigherSnoc([10], 5, 5);
    assert [] + [10] == [10];
  }

  // ---------------------------------------------------------------- who is listed

  /** Each member has one row: user_id is the key of user_stats. */
  predicate OneRowEach(rows: seq<Row>) {
    forall i, j :: 0 <= i < j < |rows| ==> rows[i].user != rows[j].user
  }

  lemma {:induction false} JoinedIsPart(rows: seq<Row>, accounts: set<UserId>)
    ensures multiset(Joined(rows, accounts, true)) <= multiset(rows)
  {
    if rows != [] {
      var n := |rows| - 1;
      assert rows == rows[..n] + [rows[n]];
      JoinedIsPart(rows[..n], accounts);
    }
  }

  lemma TwiceCountsTwo(rows: seq<Row>, i: nat, j: nat)
    requires i < j < |rows| && rows[i] == rows[j]
    ensures multiset(rows)[rows[i]] >= 2
  {
    assert rows == rows[..j] + [rows[j]] + rows[j + 1..];
    assert rows[i] in multiset(rows[..j]);
  }

  /** Of rows with different keys each can be listed once. */
  lemma ListedOnce(rows: seq<Row>, listing: seq<Row>, i: nat, j: nat)
    requires OneRowEach(rows) && multiset(listing) <= multiset(rows) && i < j < |listing|
    ensures listing[i].user != listing[j].user
  {
    assert listing[i] in multiset(listing) && listing[j] in multiset(listing);
    assert listing[i] in multiset(rows) && listing[j] in multiset(rows);
    var k :| 0 <= k < |rows| && rows[k] == listing[i];
    var l :| 0 <= l < |rows| && rows[l] == listing[j];
    if listing[i] == listing[j] {
      TwiceCountsTwo(listing, i, j);
      MultiplicityOfDistinct(rows, listing[i]);
    }
  }

  /** Ahead in the list: more, or as much and the smaller id. */
  predicate Ahead(e: Entry, value: nat, user: UserId) {
    e.value > value || (e.value == value && e.user < user)
  }

  /** The entries are the first rows of the listing. */
  predicate Best(listing: seq<Row>, top: seq<Entry>) {
    && |top| <= |listing|
    && forall i :: 0 <= i < |top| ==> top[i].user == listing[i].user && top[i].value == listing[i].value
  }

  lemma BestIsAhead(listing: seq<Row>, top: seq<Entry>, i: nat, j: nat)
    requires InOrder(listing) && OneRowEach(listing) && Best(listing, top) && i < |top| && i < j < |listing|
    ensures Ahead(top[i], listing[j].value, listing[j].user)
  {
    assert Precedes(listing[i], listing[j]) && listing[i].user != listing[j].user;
  }

  lemma ListingIsOfRows(rows: seq<Row>, accounts: set<UserId>)
    requires OneRowEach(rows)
    ensures var listing := Sorted(Joined(rows, accounts, true));
            && OneRowEach(listing) && forall row :: row in listing <==> row in rows && row.user in accounts
  {
    var joined := Joined(rows, accounts, true);
    var listing := Sorted(joined);
    JoinedIsPart(rows, accounts);
    forall i, j | 0 <= i < j < |listing| ensures listing[i].user != listing[j].user {
      ListedOnce(rows, listing, i, j);
    }
    forall row ensures row in listing <==> row in rows && row.user in accounts {
      assert row in multiset(listing) <==> row in multiset(joined);
    }
  }

  lemma FirstAreBest(listing: seq<Row>, limit: int)
    ensures var most := if limit < 1 then 1 else if limit > 100 then 100 else limit;
            Best(listing, FirstOf(listing, limit))
            && |FirstOf(listing, limit)| == if |listing| < most then |listing| else most
  {
  }

  /**
   * The list shows rows of members with an account, each once, those ahead first; it leaves such a row out only if it
   * is full, with 100 entries or the number asked for, 1 at least, and then everyone shown is ahead of it.
   */
  lemma TopIsTheBest(rows: seq<Row>, accounts: set<UserId>, limit: int)
    requires OneRowEach(rows)
    ensures var top, most := Top(rows, accounts, limit), if limit < 1 then 1 else if limit > 100 then 100 else limit;
            && |top| <= most
            && (forall i :: 0 <= i < |top| ==> top[i].user in accounts && Row(top[i].user, top[i].value) in rows)
            && (forall i, j :: 0 <= i < j < |top| ==> Ahead(top[i], top[j].value, top[j].user))
            && forall row :: row in rows && row.user in accounts ==>
                 Shown(top, row) || (|top| == most && AllAhead(top, row))
  {
    FirstAreBest(Sorted(Joined(rows, accounts, true)), limit);
    ListingIsOfRows(rows, accounts);
    BestIsShown(Sorted(Joined(rows, accounts, true)), Top(rows, accounts, limit));
  }

  predicate Shown(top: seq<Entry>, row: Row) {
    exists i :: 0 <= i < |top| && top[i].user == row.user && top[i].value == row.value
  }

  predicate AllAhead(top: seq<Entry>, row: Row) {
    forall i :: 0 <= i < |top| ==> Ahead(top[i], row.value, row.user)
  }

  lemma BestIsShown(listing: seq<Row>, top: seq<Entry>)
    requires InOrder(listing) && OneRowEach(listing) && Best(listing, top)
    ensures forall i :: 0 <= i < |top| ==> Row(top[i].user, top[i].value) in listing
    ensures forall i, j :: 0 <= i < j < |top| ==> Ahead(top[i], top[j].value, top[j].user)
    ensures forall row :: row in listing ==> Shown(top, row) || (|top| < |listing| && AllAhead(top, row))
  {
    forall i | 0 <= i < |top| ensures Row(top[i].user, top[i].value) in listing {
      assert listing[i] == Row(top[i].user, top[i].value);
    }
    forall i, j | 0 <= i < j < |top| ensures Ahead(top[i], top[j].value, top[j].user) {
      BestIsAhead(listing, top, i, j);
    }
    forall row | row in listing ensures Shown(top, row) || (|top| < |listing| && AllAhead(top, row)) {
      var k :| 0 <= k < |listing| && listing[k] == row;
      if |top| <= k {
        forall i | 0 <= i < |top| ensures Ahead(top[i], row.value, row.user) {
          BestIsAhead(listing, top, i, k);
        }
      } else {
        assert top[k].user == row.user;
      }
    }
  }
}
