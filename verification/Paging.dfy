/** Keyset pagination of a member's games, newest first (history.service.ts, listGames). */
module Paging {
  import opened Basics
  import opened Protocol
  import opened Text

  const PLAYER_GAMES_PAGE_SIZE := 20
  const PLAYER_GAMES_PAGE_LIMIT := 50

  /** PlayerGameRecord: one row of the join of game_players and games for the member. */
  datatype Line = Line(gameId: GameId, roomId: RoomId, finishedAt: int, roundsPlayed: nat, playerCount: nat,
                       score: nat, rank: nat)

  /** What a cursor stands for: the (finished_at, id) of the last line of a page. */
  datatype Key = Key(finishedAt: int, gameId: GameId)

  datatype Page = Page(games: seq<Line>, next: Option<Key>)

  function KeyOf(line: Line): Key {
    Key(line.finishedAt, line.gameId)
  }

  /** The row comparison `(g.finished_at, g.id) < (cursor)`. */
  predicate Before(a: Key, b: Key) {
    a.finishedAt < b.finishedAt || (a.finishedAt == b.finishedAt && a.gameId < b.gameId)
  }

  /** `ORDER BY g.finished_at DESC, g.id DESC` */
  predicate NewestFirst(lines: seq<Line>) {
    forall i, j :: 0 <= i < j < |lines| ==> !Before(KeyOf(lines[i]), KeyOf(lines[j]))
  }

  /** No two lines share a key: at most one line per game. */
  predicate StrictlyNewestFirst(lines: seq<Line>) {
    forall i, j :: 0 <= i < j < |lines| ==> Before(KeyOf(lines[j]), KeyOf(lines[i]))
  }

  /** `WHERE ... < cursor`, in listing order. */
  function Older(lines: seq<Line>, cursor: Option<Key>): seq<Line> {
    if lines == [] then []
    else
      var n := |lines| - 1;
      if cursor.None? || Before(KeyOf(lines[n]), cursor.value) then Older(lines[..n], cursor) + [lines[n]]
      else Older(lines[..n], cursor)
  }

  /** `Math.min(Math.max(limit ?? PAGE_SIZE, 1), PAGE_LIMIT)` */
  function PageLimit(asked: Option<int>): (limit: nat)
    ensures 1 <= limit <= 50
    ensures asked.None? ==> limit == 20
    ensures asked.Some? ==> limit == (if asked.value < 1 then 1 else if asked.value > 50 then 50 else asked.value)
  {
    var wanted := match asked case None => PLAYER_GAMES_PAGE_SIZE case Some(n) => n;
    if wanted < 1 then 1 else if wanted > PLAYER_GAMES_PAGE_LIMIT then PLAYER_GAMES_PAGE_LIMIT else wanted
  }

  /** listGames over the listing of a member: read limit + 1 lines to see whether another page follows. */
  function ListGames(lines: seq<Line>, limit: nat, cursor: Option<Key>): Page
    requires limit >= 1
  {
    var rows := Clip(Older(lines, cursor), limit + 1);
    var games := Clip(rows, limit);
    Page(games, if |rows| > limit then Some(KeyOf(games[limit - 1])) else None)
  }

  // ---------------------------------------------------------------- a table that does not change

  lemma {:induction false} OlderLength(lines: seq<Line>, cursor: Option<Key>)
    ensures |Older(lines, cursor)| <= |lines|
    ensures cursor.None? ==> Older(lines, cursor) == lines
  {
    if lines != [] {
      OlderLength(lines[..|lines| - 1], cursor);
    }
  }

  lemma {:induction false} OlderMembers(lines: seq<Line>, cursor: Option<Key>, line: Line)
    ensures line in Older(lines, cursor) <==> line in lines && (cursor.None? || Before(KeyOf(line), cursor.value))
  {
    if lines != [] {
      var n := |lines| - 1;
      assert lines == lines[..n] + [lines[n]];
      OlderMembers(lines[..n], cursor, line);
    }
  }

  lemma OlderSnoc(lines: seq<Line>, line: Line, cursor: Option<Key>)
    ensures Older(lines + [line], cursor)
            == if cursor.None? || Before(KeyOf(line), cursor.value) then Older(lines, cursor) + [line]
               else Older(lines, cursor)
  {
    assert (lines + [line])[..|lines|] == lines;
  }

  lemma {:induction false} OlderNarrows(lines: seq<Line>, cursor: Option<Key>, later: Key)
    requires cursor.None? || later == cursor.value || Before(later, cursor.value)
    ensures Older(Older(lines, cursor), Some(later)) == Older(lines, Some(later))
  {
    if lines != [] {
      var n := |lines| - 1;
      var rest := Older(lines[..n], cursor);
      OlderNarrows(lines[..n], cursor, later);
      OlderSnoc(rest, lines[n], Some(later));
    }
  }

  lemma {:induction false} OlderConcat(xs: seq<Line>, ys: seq<Line>, cursor: Option<Key>)
    ensures Older(xs + ys, cursor) == Older(xs, cursor) + Older(ys, cursor)
  {
    if ys == [] {
      assert xs + ys == xs && Older(xs, cursor) + [] == Older(xs, cursor);
    } else {
      var n := |ys| - 1;
      OlderConcat(xs, ys[..n], cursor);
      Unsnoc(ys);
      Regroup(xs, ys[..n], ys[n]);
      OlderSnoc(xs + ys[..n], ys[n], cursor);
      Regroup(Older(xs, cursor), Older(ys[..n], cursor), ys[n]);
    }
  }

  lemma Regroup(front: seq<Line>, middle: seq<Line>, last: Line)
    ensures front + (middle + [last]) == (front + middle) + [last]
  {
  }

  /** In a newest-first list, the lines before index k are not older than line k - 1, and are skipped. */
  lemma OlderThanPage(lines: seq<Line>, k: nat)
    requires NewestFirst(lines) && 1 <= k <= |lines|
    ensures Older(lines, Some(KeyOf(lines[k - 1]))) == Older(lines[k..], Some(KeyOf(lines[k - 1])))
  {
    var key := KeyOf(lines[k - 1]);
    TakeAndDrop(lines, k);
    OlderConcat(lines[..k], lines[k..], Some(key));
    NoneOlder(lines[..k], key);
    NothingBefore(Older(lines[k..], Some(key)));
  }

  lemma TakeAndDrop(lines: seq<Line>, k: nat)
    requires k <= |lines|
    ensures lines == lines[..k] + lines[k..]
  {
  }

  lemma NothingBefore(lines: seq<Line>)
    ensures [] + lines == lines
  {
  }

  lemma {:induction false} NoneOlder(lines: seq<Line>, key: Key)
    requires forall i :: 0 <= i < |lines| ==> !Before(KeyOf(lines[i]), key)
    ensures Older(lines, Some(key)) == []
  {
    if lines != [] {
      NoneOlder(lines[..|lines| - 1], key);
    }
  }

  lemma {:induction false} AllOlder(lines: seq<Line>, key: Key)
    requires forall i :: 0 <= i < |lines| ==> Before(KeyOf(lines[i]), key)
    ensures Older(lines, Some(key)) == lines
  {
    if lines != [] {
      AllOlder(lines[..|lines| - 1], key);
    }
  }

  lemma {:induction false} OlderKeepsOrder(lines: seq<Line>, cursor: Option<Key>)
    requires NewestFirst(lines)
    ensures NewestFirst(Older(lines, cursor))
  {
    if lines != [] {
      var n := |lines| - 1;
      var rest := Older(lines[..n], cursor);
      OlderKeepsOrder(lines[..n], cursor);
      forall i | 0 <= i < |rest| ensures !Before(KeyOf(rest[i]), KeyOf(lines[n])) {
        OlderMembers(lines[..n], cursor, rest[i]);
        var j :| 0 <= j < n && lines[j] == rest[i];
      }
    }
  }

  /** What a client gets that follows the cursors for at most so many pages. */
  function Follow(lines: seq<Line>, limit: nat, cursor: Option<Key>, pages: nat): seq<Line>
    requires limit >= 1
    decreases pages
  {
    if pages == 0 then []
    else
      var page := ListGames(lines, limit, cursor);
      if page.next.None? then page.games else page.games + Follow(lines, limit, page.next, pages - 1)
  }

  /** Within so many pages the client sees one without a next cursor. */
  predicate Ends(lines: seq<Line>, limit: nat, cursor: Option<Key>, pages: nat)
    requires limit >= 1
    decreases pages
  {
    pages > 0 &&
    var page := ListGames(lines, limit, cursor);
    page.next.None? || Ends(lines, limit, page.next, pages - 1)
  }

  lemma NextPageIsShorter(lines: seq<Line>, limit: nat, cursor: Option<Key>)
    requires limit >= 1 && NewestFirst(lines) && ListGames(lines, limit, cursor).next.Some?
    ensures var rest := Older(lines, cursor);
            |Older(lines, ListGames(lines, limit, cursor).next)| + limit <= |rest|
            && Older(lines, ListGames(lines, limit, cursor).next) == Older(rest[limit..], Some(KeyOf(rest[limit - 1])))
  {
    var rest := Older(lines, cursor);
    OlderKeepsOrder(lines, cursor);
    OlderMembers(lines, cursor, rest[limit - 1]);
    OlderNarrows(lines, cursor, KeyOf(rest[limit - 1]));
    OlderThanPage(rest, limit);
    OlderLength(rest[limit..], Some(KeyOf(rest[limit - 1])));
  }

  /** k is a multiple of the page size: a page may end before line k. */
  predicate PageEnd(k: nat, limit: nat)
    requires limit >= 1
  {
    if k < limit then k == 0 else PageEnd(k - limit, limit)
  }

  /** No page ends between two lines of the same key. */
  predicate NoTieAcrossPages(lines: seq<Line>, limit: nat)
    requires limit >= 1
  {
    forall k :: 0 < k < |lines| && PageEnd(k, limit) ==> KeyOf(lines[k - 1]) != KeyOf(lines[k])
  }

  lemma NoTieInRest(lines: seq<Line>, limit: nat)
    requires 1 <= limit < |lines|
    ensures NoTieAcrossPages(lines, limit)
            <==> KeyOf(lines[limit - 1]) != KeyOf(lines[limit]) && NoTieAcrossPages(lines[limit..], limit)
  {
    var rest := lines[limit..];
    assert PageEnd(limit, limit);
    if NoTieAcrossPages(lines, limit) {
      forall k | 0 < k < |rest| && PageEnd(k, limit) ensures KeyOf(rest[k - 1]) != KeyOf(rest[k]) {
        assert PageEnd(k + limit, limit);
        assert rest[k - 1] == lines[k + limit - 1] && rest[k] == lines[k + limit];
      }
    }
    if KeyOf(lines[limit - 1]) != KeyOf(lines[limit]) && NoTieAcrossPages(rest, limit) {
      forall k | 0 < k < |lines| && PageEnd(k, limit) ensures KeyOf(lines[k - 1]) != KeyOf(lines[k]) {
        if k > limit {
          assert PageEnd(k - limit, limit);
          assert rest[k - limit - 1] == lines[k - 1] && rest[k - limit] == lines[k];
        }
      }
    }
  }

  lemma {:induction false} FollowLength(lines: seq<Line>, limit: nat, cursor: Option<Key>, pages: nat)
    requires limit >= 1 && NewestFirst(lines)
    ensures |Follow(lines, limit, cursor, pages)| <= |Older(lines, cursor)|
    decreases pages
  {
    if pages > 0 && ListGames(lines, limit, cursor).next.Some? {
      NextPageIsShorter(lines, limit, cursor);
      FollowLength(lines, limit, ListGames(lines, limit, cursor).next, pages - 1);
    }
  }

  /** A client that keeps following sees the last page, after at most one page more than there are lines. */
  lemma {:induction false} FollowingEnds(lines: seq<Line>, limit: nat, cursor: Option<Key>, pages: nat)
    requires limit >= 1 && NewestFirst(lines) && pages > |Older(lines, cursor)|
    ensures Ends(lines, limit, cursor, pages)
    decreases pages
  {
    if ListGames(lines, limit, cursor).next.Some? {
      NextPageIsShorter(lines, limit, cursor);
      FollowingEnds(lines, limit, ListGames(lines, limit, cursor).next, pages - 1);
    }
  }

  /** When the page does not end in a tie, all the remaining lines follow. */
  lemma RestFollows(rest: seq<Line>, limit: nat)
    requires NewestFirst(rest) && 1 <= limit < |rest| && KeyOf(rest[limit - 1]) != KeyOf(rest[limit])
    ensures Older(rest[limit..], Some(KeyOf(rest[limit - 1]))) == rest[limit..]
  {
    var key := KeyOf(rest[limit - 1]);
    forall i | limit <= i < |rest| ensures Before(KeyOf(rest[i]), key) {
      assert !Before(key, KeyOf(rest[limit]));
      assert i == limit || !Before(KeyOf(rest[limit]), KeyOf(rest[i]));
    }
    AllOlder(rest[limit..], key);
  }

  lemma Rejoins(rest: seq<Line>, limit: nat, more: seq<Line>)
    requires limit <= |rest|
    ensures rest[..limit] + more == rest <==> more == rest[limit..]
  {
    assert (rest[..limit] + more)[limit..] == more;
    assert rest == rest[..limit] + rest[limit..];
  }

  /** What follows a page that is not the last. */
  lemma FollowOn(lines: seq<Line>, limit: nat, cursor: Option<Key>, pages: nat)
    requires limit >= 1 && pages > 0 && ListGames(lines, limit, cursor).next.Some?
    ensures |Older(lines, cursor)| > limit
    ensures Follow(lines, limit, cursor, pages)
            == Older(lines, cursor)[..limit] + Follow(lines, limit, ListGames(lines, limit, cursor).next, pages - 1)
  {
    assert ListGames(lines, limit, cursor).games == Older(lines, cursor)[..limit];
  }

  /**
   * On a table that does not change, following the cursors gives the whole rest of the listing, in order, if and
   * only if no page ends between two lines of the same key.
   */
  lemma {:induction false} FollowGivesAll(lines: seq<Line>, limit: nat, cursor: Option<Key>, pages: nat)
    requires limit >= 1 && NewestFirst(lines) && pages > |Older(lines, cursor)|
    ensures Follow(lines, limit, cursor, pages) == Older(lines, cursor)
            <==> NoTieAcrossPages(Older(lines, cursor), limit)
    decreases pages, 1
  {
    var rest := Older(lines, cursor);
    var next := ListGames(lines, limit, cursor).next;
    if next.Some? {
      FollowOn(lines, limit, cursor, pages);
      Rejoins(rest, limit, Follow(lines, limit, next, pages - 1));
      RestGivesAll(lines, limit, cursor, pages);
    }
  }

  /** The next cursor leads to all the lines behind the page, unless the page ends in a tie: then some are skipped. */
  lemma LinesBehindPage(lines: seq<Line>, limit: nat, cursor: Option<Key>)
    requires limit >= 1 && NewestFirst(lines) && ListGames(lines, limit, cursor).next.Some?
    ensures var rest, behind := Older(lines, cursor), Older(lines, ListGames(lines, limit, cursor).next);
            && limit < |rest| && |behind| < |rest|
            && if KeyOf(rest[limit]) != KeyOf(rest[limit - 1]) then behind == rest[limit..]
               else |behind| < |rest| - limit
  {
    var rest := Older(lines, cursor);
    NextPageIsShorter(lines, limit, cursor);
    if KeyOf(rest[limit]) != KeyOf(rest[limit - 1]) {
      OlderKeepsOrder(lines, cursor);
      RestFollows(rest, limit);
    } else {
      SomeoneSkipped(rest[limit..], KeyOf(rest[limit - 1]));
    }
  }

  /** The lines behind the first page are all given exactly if none ties with it and no later page ends in a tie. */
  lemma {:induction false} RestGivesAll(lines: seq<Line>, limit: nat, cursor: Option<Key>, pages: nat)
    requires limit >= 1 && NewestFirst(lines) && pages > |Older(lines, cursor)|
    requires ListGames(lines, limit, cursor).next.Some?
    ensures limit < |Older(lines, cursor)|
    ensures Follow(lines, limit, ListGames(lines, limit, cursor).next, pages - 1) == Older(lines, cursor)[limit..]
            <==> NoTieAcrossPages(Older(lines, cursor), limit)
    decreases pages, 0
  {
    var rest := Older(lines, cursor);
    var next := ListGames(lines, limit, cursor).next;
    LinesBehindPage(lines, limit, cursor);
    NoTieInRest(rest, limit);
    if KeyOf(rest[limit]) != KeyOf(rest[limit - 1]) {
      FollowGivesAll(lines, limit, next, pages - 1);
    } else {
      FollowLength(lines, limit, next, pages - 1);
    }
  }

  lemma {:induction false} SomeoneSkipped(lines: seq<Line>, key: Key)
    requires lines != [] && !Before(KeyOf(lines[0]), key)
    ensures |Older(lines, Some(key))| < |lines|
  {
    if |lines| > 1 {
      SomeoneSkipped(lines[..|lines| - 1], key);
    }
  }

  /** With one line per game, the pages are exactly the member's games, newest first. */
  lemma PagesAreComplete(lines: seq<Line>, limit: nat, pages: nat)
    requires limit >= 1 && StrictlyNewestFirst(lines) && pages > |lines|
    ensures NewestFirst(lines) && Follow(lines, limit, None, pages) == lines && Ends(lines, limit, None, pages)
  {
    assert NewestFirst(lines);
    OlderLength(lines, None);
    FollowGivesAll(lines, limit, None, pages);
    FollowingEnds(lines, limit, None, pages);
    assert forall k :: 0 < k < |lines| ==> Before(KeyOf(lines[k]), KeyOf(lines[k - 1]));
  }

  /** One account in one game over two connections, one line a page: the second line is never shown. */
  lemma TiedLinesAreSkipped(first: Line, second: Line, pages: nat)
    requires KeyOf(first) == KeyOf(second) && pages >= 2
    ensures var lines := [first, second];
            NewestFirst(lines) && Ends(lines, 1, None, pages) && Follow(lines, 1, None, pages) == [first]
  {
    var lines := [first, second];
    OlderLength(lines, None);
    assert ListGames(lines, 1, None) == Page([first], Some(KeyOf(first)));
    NoneOlder(lines, KeyOf(first));
    assert ListGames(lines, 1, Some(KeyOf(first))) == Page([], None);
    assert [first] + [] == [first];
  }

  // ---------------------------------------------------------------- a table that grows between pages

  /** Everything a client gets if the i-th page is read from the i-th of the tables. */
  function Walk(tables: seq<seq<Line>>, limit: nat, cursor: Option<Key>): seq<Line>
    requires limit >= 1
  {
    if tables == [] then []
    else
      var page := ListGames(tables[0], limit, cursor);
      if page.next.None? then page.games else page.games + Walk(tables[1..], limit, page.next)
  }

  /** The client has seen a page without a next cursor. */
  predicate Finished(tables: seq<seq<Line>>, limit: nat, cursor: Option<Key>)
    requires limit >= 1
  {
    tables != [] &&
    var page := ListGames(tables[0], limit, cursor);
    page.next.None? || Finished(tables[1..], limit, page.next)
  }

  /** Games are only added from one page to the next, one line per game. */
  predicate Growing(tables: seq<seq<Line>>) {
    tables != [] ==>
      && StrictlyNewestFirst(tables[0])
      && (|tables| > 1 ==> forall line :: line in tables[0] ==> line in tables[1])
      && Growing(tables[1..])
  }

  lemma {:induction false} OlderKeepsStrictOrder(lines: seq<Line>, cursor: Option<Key>)
    requires StrictlyNewestFirst(lines)
    ensures StrictlyNewestFirst(Older(lines, cursor))
  {
    if lines != [] {
      var n := |lines| - 1;
      var rest := Older(lines[..n], cursor);
      OlderKeepsStrictOrder(lines[..n], cursor);
      forall i | 0 <= i < |rest| ensures Before(KeyOf(lines[n]), KeyOf(rest[i])) {
        OlderMembers(lines[..n], cursor, rest[i]);
        var j :| 0 <= j < n && lines[j] == rest[i];
      }
    }
  }

  /** The page is in strict order, and behind the cursor. */
  lemma PageInOrder(lines: seq<Line>, limit: nat, cursor: Option<Key>)
    requires limit >= 1 && StrictlyNewestFirst(lines)
    ensures StrictlyNewestFirst(ListGames(lines, limit, cursor).games)
    ensures forall line :: line in ListGames(lines, limit, cursor).games ==>
              cursor.None? || Before(KeyOf(line), cursor.value)
  {
    OlderKeepsStrictOrder(lines, cursor);
    forall line | line in ListGames(lines, limit, cursor).games
      ensures cursor.None? || Before(KeyOf(line), cursor.value) {
      assert line in Older(lines, cursor);
      OlderMembers(lines, cursor, line);
    }
  }

  lemma ChainInOrder(page: seq<Line>, tail: seq<Line>)
    requires page != [] && StrictlyNewestFirst(page) && StrictlyNewestFirst(tail)
    requires forall line :: line in tail ==> Before(KeyOf(line), KeyOf(page[|page| - 1]))
    ensures StrictlyNewestFirst(page + tail)
    ensures forall line :: line in tail ==> Before(KeyOf(line), KeyOf(page[0]))
  {
    var last := page[|page| - 1];
    forall i, j | 0 <= i < |page| && 0 <= j < |tail| ensures Before(KeyOf(tail[j]), KeyOf(page[i])) {
      assert tail[j] in tail && Before(KeyOf(tail[j]), KeyOf(last));
      assert i == |page| - 1 || Before(KeyOf(last), KeyOf(page[i]));
    }
    forall i, j | 0 <= i < j < |page + tail| ensures Before(KeyOf((page + tail)[j]), KeyOf((page + tail)[i])) {
      if |page| <= i {
        assert Before(KeyOf(tail[j - |page|]), KeyOf(tail[i - |page|]));
      }
    }
    forall line | line in tail ensures Before(KeyOf(line), KeyOf(page[0])) {
      var j :| 0 <= j < |tail| && tail[j] == line;
    }
  }

  /** However the table grows in between, no line is shown twice and the order never turns back. */
  lemma {:induction false} WalkNeverRepeats(tables: seq<seq<Line>>, limit: nat, cursor: Option<Key>)
    requires limit >= 1 && Growing(tables)
    ensures StrictlyNewestFirst(Walk(tables, limit, cursor))
    ensures forall line :: line in Walk(tables, limit, cursor) ==> cursor.None? || Before(KeyOf(line), cursor.value)
    decreases |tables|
  {
    if tables != [] {
      PageInOrder(tables[0], limit, cursor);
      var page := ListGames(tables[0], limit, cursor);
      if page.next.Some? {
        WalkNeverRepeats(tables[1..], limit, page.next);
        ChainInOrder(page.games, Walk(tables[1..], limit, page.next));
        assert page.games[0] in page.games;
      }
    }
  }

  /** Every line that was there when the walk began is shown by the time it is finished. */
  lemma {:induction false} WalkMissesNothing(tables: seq<seq<Line>>, limit: nat, cursor: Option<Key>, line: Line)
    requires limit >= 1 && Growing(tables) && Finished(tables, limit, cursor)
    requires line in tables[0] && (cursor.None? || Before(KeyOf(line), cursor.value))
    ensures line in Walk(tables, limit, cursor)
    decreases |tables|
  {
    var rest := Older(tables[0], cursor);
    OlderKeepsStrictOrder(tables[0], cursor);
    var page := ListGames(tables[0], limit, cursor);
    OlderMembers(tables[0], cursor, line);
    var k :| 0 <= k < |rest| && rest[k] == line;
    if k < limit {
      assert page.games[k] == line;
    } else {
      assert Before(KeyOf(line), KeyOf(rest[limit - 1]));
      assert line in tables[1] && tables[1] == tables[1..][0];
      WalkMissesNothing(tables[1..], limit, page.next, line);
    }
  }
}
