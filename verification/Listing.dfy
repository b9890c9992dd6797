/**
 * A member's games as the service answers with them: the stored rows, newest first, a page at a time, with the page
 * cursor as the text the client sends back (history.service.ts).
 */
module Listing {
  import opened Basics
  import opened Protocol
  import opened Tables
  import opened Paging
  import Cursor
  import Delivery

  // ---------------------------------------------------------------- from the tables to the listing

  /** One row of `game_players p JOIN games g ON g.id = p.game_id`. */
  function LineOf(row: PlayerRow, games: map<GameId, GameRow>): Line
    requires row.gameId in games
  {
    var game := games[row.gameId];
    Line(row.gameId, game.roomId, game.finishedAt, game.roundsPlayed, game.playerCount, row.score, row.rank)
  }

  /** Puts a line behind those that are not older. */
  function InsertLine(lines: seq<Line>, line: Line): seq<Line> {
    if lines == [] then [line]
    else
      var n := |lines| - 1;
      if Before(KeyOf(lines[n]), KeyOf(line)) then InsertLine(lines[..n], line) + [lines[n]] else lines + [line]
  }

  /** `WHERE p.user_id = u ORDER BY g.finished_at DESC, g.id DESC` */
  function LinesOf(rows: seq<PlayerRow>, games: map<GameId, GameRow>, u: UserId): seq<Line>
    requires Joined(rows, games)
  {
    if rows == [] then []
    else
      var n := |rows| - 1;
      var rest := LinesOf(rows[..n], games, u);
      if rows[n].userId == Some(u) then InsertLine(rest, LineOf(rows[n], games)) else rest
  }

  lemma {:induction false} InsertedLines(lines: seq<Line>, line: Line)
    ensures forall l :: l in InsertLine(lines, line) <==> l in lines || l == line
  {
    if lines != [] {
      var n := |lines| - 1;
      InsertedLines(lines[..n], line);
      assert lines == lines[..n] + [lines[n]];
    }
  }

  lemma NewestFirstSnoc(lines: seq<Line>, last: Line)
    requires NewestFirst(lines) && forall l :: l in lines ==> !Before(KeyOf(l), KeyOf(last))
    ensures NewestFirst(lines + [last])
  {
    var all := lines + [last];
    forall i, j | 0 <= i < j < |all| ensures !Before(KeyOf(all[i]), KeyOf(all[j])) {
      if j == |lines| {
        assert lines[i] in lines;
      }
    }
  }

  lemma {:induction false} InsertKeepsOrder(lines: seq<Line>, line: Line)
    requires NewestFirst(lines)
    ensures NewestFirst(InsertLine(lines, line))
  {
    if lines != [] {
      var n := |lines| - 1;
      if Before(KeyOf(lines[n]), KeyOf(line)) {
        InsertKeepsOrder(lines[..n], line);
        InsertedLines(lines[..n], line);
        NewestFirstSnoc(InsertLine(lines[..n], line), lines[n]);
      } else {
        forall l | l in lines ensures !Before(KeyOf(l), KeyOf(line)) {
          var i :| 0 <= i < |lines| && lines[i] == l;
          assert i == n || !Before(KeyOf(lines[i]), KeyOf(lines[n]));
        }
        NewestFirstSnoc(lines, line);
      }
    }
  }

  lemma {:induction false} LinesNewestFirst(rows: seq<PlayerRow>, games: map<GameId, GameRow>, u: UserId)
    requires Joined(rows, games)
    ensures NewestFirst(LinesOf(rows, games, u))
  {
    if rows != [] {
      var n := |rows| - 1;
      LinesNewestFirst(rows[..n], games, u);
      if rows[n].userId == Some(u) {
        InsertKeepsOrder(LinesOf(rows[..n], games, u), LineOf(rows[n], games));
      }
    }
  }

  /** The listing holds the member's rows. */
  lemma {:induction false} LinesAreRows(rows: seq<PlayerRow>, games: map<GameId, GameRow>, u: UserId, line: Line)
    requires Joined(rows, games)
    ensures line in LinesOf(rows, games, u) <==> exists i :: Plays(rows, i, u) && LineOf(rows[i], games) == line
  {
    if rows != [] {
      var n := |rows| - 1;
      LinesAreRows(rows[..n], games, u, line);
      assert forall i :: Plays(rows[..n], i, u) ==> Plays(rows, i, u) && rows[..n][i] == rows[i];
      assert forall i :: Plays(rows, i, u) && i != n ==> Plays(rows[..n], i, u);
      if rows[n].userId == Some(u) {
        InsertedLines(LinesOf(rows[..n], games, u), LineOf(rows[n], games));
        assert Plays(rows, n, u);
      }
    }
  }

  /** The account played each game over one connection. */
  predicate OneRowPerGame(rows: seq<PlayerRow>, u: UserId) {
    forall i, j :: 0 <= i < j < |rows| && rows[i].userId == rows[j].userId == Some(u) ==>
      rows[i].gameId != rows[j].gameId
  }

  predicate OneLinePerGame(lines: seq<Line>) {
    forall i, j :: 0 <= i < j < |lines| ==> lines[i].gameId != lines[j].gameId
  }

  lemma {:induction false} InsertKeepsGames(lines: seq<Line>, line: Line)
    requires OneLinePerGame(lines) && forall l :: l in lines ==> l.gameId != line.gameId
    ensures OneLinePerGame(InsertLine(lines, line))
  {
    if lines != [] {
      var n := |lines| - 1;
      if Before(KeyOf(lines[n]), KeyOf(line)) {
        InsertKeepsGames(lines[..n], line);
        InsertedLines(lines[..n], line);
        var front := InsertLine(lines[..n], line);
        forall i | 0 <= i < |front| ensures front[i].gameId != lines[n].gameId {
          assert front[i] in front;
          if front[i] != line {
            var k :| 0 <= k < n && lines[k] == front[i];
          }
        }
      }
    }
  }

  lemma {:induction false} LinesPerGame(rows: seq<PlayerRow>, games: map<GameId, GameRow>, u: UserId)
    requires Joined(rows, games) && OneRowPerGame(rows, u)
    ensures OneLinePerGame(LinesOf(rows, games, u))
  {
    if rows != [] {
      var n := |rows| - 1;
      LinesPerGame(rows[..n], games, u);
      if rows[n].userId == Some(u) {
        var rest := LinesOf(rows[..n], games, u);
        forall l | l in rest ensures l.gameId != rows[n].gameId {
          LinesAreRows(rows[..n], games, u, l);
          var i :| Plays(rows[..n], i, u) && LineOf(rows[..n][i], games) == l;
          assert rows[i] == rows[..n][i];
        }
        InsertKeepsGames(rest, LineOf(rows[n], games));
      }
    }
  }

  lemma GamesAreStrict(lines: seq<Line>)
    requires NewestFirst(lines) && OneLinePerGame(lines)
    ensures StrictlyNewestFirst(lines)
  {
  }

  // ---------------------------------------------------------------- pages and their cursors as text

  /** encodeCursor and decodeCursor. */
  datatype Texts = Texts(write: Key -> string, read: string -> Option<Key>)

  datatype TextPage = TextPage(games: seq<Line>, next: Option<string>)

  /** listGames: no answer for a cursor that cannot be read; an empty one counts as none. */
  function ListByText(x: Texts, lines: seq<Line>, asked: Option<int>, cursor: Option<string>): Option<TextPage> {
    if cursor.None? || cursor.value == "" then Some(Written(x, ListGames(lines, PageLimit(asked), None)))
    else
      match x.read(cursor.value)
      case None => None
      case Some(key) => Some(Written(x, ListGames(lines, PageLimit(asked), Some(key))))
  }

  /** Only a cursor that cannot be read gets no answer; an empty one counts as none. */
  lemma BadCursorsAreRefused(x: Texts, lines: seq<Line>, asked: Option<int>, cursor: string)
    ensures ListByText(x, lines, asked, Some(cursor)).None? <==> cursor != "" && x.read(cursor).None?
    ensures ListByText(x, lines, asked, None).Some?
    ensures ListByText(x, lines, asked, Some("")) == ListByText(x, lines, asked, None)
  {
  }

  function Written(x: Texts, page: Page): TextPage {
    TextPage(page.games, match page.next case None => None case Some(key) => Some(x.write(key)))
  }

  /** What a client sees that follows the cursors it is given, for at most so many pages. */
  function Browse(x: Texts, lines: seq<Line>, asked: Option<int>, cursor: Option<string>, pages: nat): seq<Line>
    decreases pages
  {
    if pages == 0 then []
    else
      match ListByText(x, lines, asked, cursor)
      case None => []
      case Some(page) =>
        if page.next.None? then page.games else page.games + Browse(x, lines, asked, page.next, pages - 1)
  }

  /** The cursors of these lines can be read back, and none is empty. */
  predicate Readable(x: Texts, lines: seq<Line>) {
    forall l :: l in lines ==> x.write(KeyOf(l)) != "" && x.read(x.write(KeyOf(l))) == Some(KeyOf(l))
  }

  /** The text of a cursor stands for the key, or for the beginning. */
  predicate StandsFor(x: Texts, cursor: Option<string>, after: Option<Key>) {
    if cursor.None? || cursor.value == "" then after.None? else after.Some? && x.read(cursor.value) == after
  }

  /** The next cursor stands for the key of the page's last line. */
  lemma NextStandsFor(x: Texts, lines: seq<Line>, limit: nat, after: Option<Key>)
    requires Readable(x, lines) && limit >= 1
    ensures var page := ListGames(lines, limit, after); StandsFor(x, Written(x, page).next, page.next)
  {
    var rest := Older(lines, after);
    if |rest| > limit {
      OlderMembers(lines, after, rest[limit - 1]);
      assert rest[limit - 1] in rest && KeyOf(rest[limit - 1]) == ListGames(lines, limit, after).next.value;
    }
  }

  /** Following the texts is following the keys. */
  lemma {:induction false} BrowseFollows(x: Texts, lines: seq<Line>, asked: Option<int>, cursor: Option<string>,
                                         after: Option<Key>, pages: nat)
    requires Readable(x, lines) && StandsFor(x, cursor, after)
    ensures Browse(x, lines, asked, cursor, pages) == Follow(lines, PageLimit(asked), after, pages)
    decreases pages
  {
    var page := ListGames(lines, PageLimit(asked), after);
    NextStandsFor(x, lines, PageLimit(asked), after);
    if pages > 0 && page.next.Some? {
      BrowseFollows(x, lines, asked, Written(x, page).next, page.next, pages - 1);
    }
  }

  // ---------------------------------------------------------------- the texts the service uses

  /** How times and game ids are written and read: toISOString, Date.parse and the text of a uuid. */
  datatype Formats = Formats(
    time: int -> string,
    parses: string -> bool,
    instant: string -> int,
    name: GameId -> string,
    game: string -> GameId)

  /** Time and id of the line are written in ASCII, without a bar, the id as a uuid, and can be read back. */
  predicate Spells(f: Formats, line: Line) {
    var time, name := f.time(line.finishedAt), f.name(line.gameId);
    && Cursor.Ascii(time) && time != "" && '|' !in time && f.parses(time) && f.instant(time) == line.finishedAt
    && Cursor.Ascii(name) && Cursor.IsGameId(name) && f.game(name) == line.gameId
  }

  function Decode(f: Formats, text: string): Option<Key> {
    match Cursor.DecodeCursor(text, f.parses)
    case None => None
    case Some((finishedAt, gameId)) => Some(Key(f.instant(finishedAt), f.game(gameId)))
  }

  /** The line's cursor is what encodeCursor makes of it. */
  predicate WritesCursor(x: Texts, f: Formats, line: Line) {
    Spells(f, line) && x.write(KeyOf(line)) == Cursor.EncodeCursor(f.time(line.finishedAt), f.name(line.gameId))
  }

  ghost predicate AreCursors(x: Texts, f: Formats, lines: seq<Line>) {
    (forall l :: l in lines ==> WritesCursor(x, f, l)) && forall text :: x.read(text) == Decode(f, text)
  }

  lemma LineIsReadable(x: Texts, f: Formats, line: Line)
    requires WritesCursor(x, f, line) && x.read(x.write(KeyOf(line))) == Decode(f, x.write(KeyOf(line)))
    ensures x.write(KeyOf(line)) != "" && x.read(x.write(KeyOf(line))) == Some(KeyOf(line))
  {
    Cursor.CursorRoundTrips(f.time(line.finishedAt), f.name(line.gameId), f.parses);
  }

  /** The service's cursors can be read back. */
  lemma CursorsAreReadable(x: Texts, f: Formats, lines: seq<Line>)
    requires AreCursors(x, f, lines)
    ensures Readable(x, lines)
  {
    forall l | l in lines ensures x.write(KeyOf(l)) != "" && x.read(x.write(KeyOf(l))) == Some(KeyOf(l)) {
      LineIsReadable(x, f, l);
    }
  }

  lemma BrowseSeesAll(x: Texts, lines: seq<Line>, asked: Option<int>, pages: nat)
    requires Readable(x, lines) && StrictlyNewestFirst(lines) && pages > |lines|
    ensures Browse(x, lines, asked, None, pages) == lines
  {
    BrowseFollows(x, lines, asked, None, None, pages);
    PagesAreComplete(lines, PageLimit(asked), pages);
  }

  lemma LinesAreStrict(rows: seq<PlayerRow>, games: map<GameId, GameRow>, u: UserId)
    requires Joined(rows, games) && OneRowPerGame(rows, u)
    ensures StrictlyNewestFirst(LinesOf(rows, games, u))
  {
    LinesNewestFirst(rows, games, u);
    LinesPerGame(rows, games, u);
    GamesAreStrict(LinesOf(rows, games, u));
  }

  /** The line tells of that row and its game. */
  predicate Shows(line: Line, row: PlayerRow, game: GameRow) {
    && line.gameId == row.gameId && line.score == row.score && line.rank == row.rank
    && line.roomId == game.roomId && line.finishedAt == game.finishedAt
    && line.roundsPlayed == game.roundsPlayed && line.playerCount == game.playerCount
  }

  /** The line is listed exactly if it shows a row of the member. */
  lemma LinesShowRows(rows: seq<PlayerRow>, games: map<GameId, GameRow>, u: UserId, line: Line)
    requires Joined(rows, games)
    ensures line in LinesOf(rows, games, u)
            <==> exists i :: Plays(rows, i, u) && Shows(line, rows[i], games[rows[i].gameId])
  {
    LinesAreRows(rows, games, u, line);
    forall i | Plays(rows, i, u)
      ensures LineOf(rows[i], games) == line <==> Shows(line, rows[i], games[rows[i].gameId])
    {
      assert rows[i].gameId in games;
    }
  }

  /**
   * A member who played each game over one connection and follows the cursors, as texts, from the first page on sees
   * exactly the games stored for them, newest first, none twice, whatever page size they ask for; and each as stored.
   */
  lemma MemberSeesAllGames(t: Store, u: UserId, x: Texts, f: Formats, asked: Option<int>, pages: nat)
    requires Joined(t.rows, t.games) && OneRowPerGame(t.rows, u) && AreCursors(x, f, LinesOf(t.rows, t.games, u))
    requires pages > |LinesOf(t.rows, t.games, u)|
    ensures var seen := Browse(x, LinesOf(t.rows, t.games, u), asked, None, pages);
            && StrictlyNewestFirst(seen)
            && forall line :: line in seen
                 <==> exists i :: Plays(t.rows, i, u) && Shows(line, t.rows[i], t.games[t.rows[i].gameId])
  {
    LinesAreStrict(t.rows, t.games, u);
    CursorsAreReadable(x, f, LinesOf(t.rows, t.games, u));
    BrowseSeesAll(x, LinesOf(t.rows, t.games, u), asked, pages);
    forall line ensures line in LinesOf(t.rows, t.games, u)
                        <==> exists i :: Plays(t.rows, i, u) && Shows(line, t.rows[i], t.games[t.rows[i].gameId])
    {
      LinesShowRows(t.rows, t.games, u, line);
    }
  }

  // ---------------------------------------------------------------- from the results that were sent

  /** The member's listing after these results were saved. */
  function ListingAfter(es: seq<GameResult>, u: UserId): seq<Line> {
    SaveAllIsConsistent(es);
    LinesOf(SaveAll(es).rows, SaveAll(es).games, u)
  }

  /** The line tells what a result says of one of its players. */
  predicate Tells(line: Line, e: GameResult, p: ResultPlayer) {
    line == Line(e.gameId, e.roomId, e.finishedAt, e.roundsPlayed, |e.players|, p.score, p.rank)
  }

  /** The line tells the member's part in one of the results. */
  ghost predicate TellsOne(line: Line, es: seq<GameResult>, u: UserId) {
    exists e, k :: e in es && 0 <= k < |e.players| && e.players[k].userId == Some(u) && Tells(line, e, e.players[k])
  }

  /** The account played over one connection. */
  predicate PlaysOnce(e: GameResult, u: UserId) {
    forall i, j :: 0 <= i < j < |e.players| ==> !(e.players[i].userId == e.players[j].userId == Some(u))
  }

  lemma {:induction false} RowsForMembers(rows: seq<PlayerRow>, g: GameId, row: PlayerRow)
    ensures row in RowsFor(rows, g) <==> row in rows && row.gameId == g
  {
    if rows != [] {
      var n := |rows| - 1;
      assert rows == rows[..n] + [rows[n]];
      RowsForMembers(rows[..n], g, row);
    }
  }

  /** Two rows of one game are two rows among those of the game. */
  lemma {:induction false} PairsStayPairs(rows: seq<PlayerRow>, i: nat, j: nat) returns (k: nat, l: nat)
    requires i < j < |rows| && rows[i].gameId == rows[j].gameId
    ensures var own := RowsFor(rows, rows[i].gameId); k < l < |own| && own[k] == rows[i] && own[l] == rows[j]
  {
    var n := |rows| - 1;
    var own := RowsFor(rows[..n], rows[i].gameId);
    if j < n {
      k, l := PairsStayPairs(rows[..n], i, j);
    } else {
      RowsForMembers(rows[..n], rows[i].gameId, rows[i]);
      assert rows[i] == rows[..n][i];
      k :| 0 <= k < |own| && own[k] == rows[i];
      l := |own|;
    }
  }

  lemma NotBothOfMember(es: seq<GameResult>, u: UserId, i: nat, j: nat)
    requires Delivery.OneContent(Delivery.EventsOf(es)) && forall e :: e in es ==> PlaysOnce(e, u)
    requires i < j < |SaveAll(es).rows| && SaveAll(es).rows[i].gameId == SaveAll(es).rows[j].gameId
    ensures !(SaveAll(es).rows[i].userId == SaveAll(es).rows[j].userId == Some(u))
  {
    var t := SaveAll(es);
    Delivery.SaveAllRecords(es);
    SaveAllIsConsistent(es);
    var k, l := PairsStayPairs(t.rows, i, j);
    assert t.rows[i].gameId in t.games;
    var e :| e in es && e.gameId == t.rows[i].gameId;
    assert Delivery.Recorded(t, e) && PlaysOnce(e, u);
    assert RowsOf(e)[k] == RowOf(e, e.players[k]) && RowsOf(e)[l] == RowOf(e, e.players[l]);
  }

  lemma OneRowEach(es: seq<GameResult>, u: UserId)
    requires Delivery.OneContent(Delivery.EventsOf(es)) && forall e :: e in es ==> PlaysOnce(e, u)
    ensures OneRowPerGame(SaveAll(es).rows, u)
  {
    var rows := SaveAll(es).rows;
    forall i, j | 0 <= i < j < |rows| && rows[i].gameId == rows[j].gameId
      ensures !(rows[i].userId == rows[j].userId == Some(u))
    {
      NotBothOfMember(es, u, i, j);
    }
  }

  lemma RowFromResult(es: seq<GameResult>, u: UserId, i: nat, line: Line) returns (e: GameResult, k: nat)
    requires Delivery.OneContent(Delivery.EventsOf(es)) && Plays(SaveAll(es).rows, i, u)
    requires SaveAll(es).rows[i].gameId in SaveAll(es).games
    requires Shows(line, SaveAll(es).rows[i], SaveAll(es).games[SaveAll(es).rows[i].gameId])
    ensures e in es && k < |e.players| && e.players[k].userId == Some(u) && Tells(line, e, e.players[k])
  {
    var t := SaveAll(es);
    var row := t.rows[i];
    Delivery.SaveAllRecords(es);
    e :| e in es && e.gameId == row.gameId;
    assert Delivery.Recorded(t, e);
    RowsForMembers(t.rows, row.gameId, row);
    assert row in RowsOf(e);
    k :| 0 <= k < |RowsOf(e)| && RowsOf(e)[k] == row;
  }

  lemma ResultHasRow(es: seq<GameResult>, u: UserId, e: GameResult, k: nat, line: Line) returns (i: nat)
    requires Delivery.OneContent(Delivery.EventsOf(es))
    requires e in es && k < |e.players| && e.players[k].userId == Some(u) && Tells(line, e, e.players[k])
    ensures Plays(SaveAll(es).rows, i, u) && SaveAll(es).rows[i].gameId in SaveAll(es).games
    ensures Shows(line, SaveAll(es).rows[i], SaveAll(es).games[SaveAll(es).rows[i].gameId])
  {
    var t := SaveAll(es);
    Delivery.SaveAllRecords(es);
    assert Delivery.Recorded(t, e) && RowsOf(e)[k] == RowOf(e, e.players[k]);
    RowsForMembers(t.rows, e.gameId, RowOf(e, e.players[k]));
    i :| 0 <= i < |t.rows| && t.rows[i] == RowOf(e, e.players[k]);
  }

  /** The listing tells of exactly the member's part in the saved results. */
  lemma ListingTellsResults(es: seq<GameResult>, u: UserId, line: Line)
    requires Delivery.OneContent(Delivery.EventsOf(es))
    ensures line in ListingAfter(es, u) <==> TellsOne(line, es, u)
  {
    var t := SaveAll(es);
    SaveAllIsConsistent(es);
    LinesShowRows(t.rows, t.games, u, line);
    if line in ListingAfter(es, u) {
      var i :| Plays(t.rows, i, u) && Shows(line, t.rows[i], t.games[t.rows[i].gameId]);
      var e, k := RowFromResult(es, u, i, line);
    }
    if TellsOne(line, es, u) {
      var e, k :| e in es && 0 <= k < |e.players| && e.players[k].userId == Some(u) && Tells(line, e, e.players[k]);
      var i := ResultHasRow(es, u, e, k, line);
    }
  }

  /**
   * From the queue to the page: whatever results were saved, in whatever order and however often, a member who played
   * each of them over one connection and follows the cursors sees exactly their own part in each, newest first, once.
   */
  lemma MemberSeesTheirResults(es: seq<GameResult>, u: UserId, x: Texts, f: Formats, asked: Option<int>, pages: nat)
    requires Delivery.OneContent(Delivery.EventsOf(es)) && forall e :: e in es ==> PlaysOnce(e, u)
    requires AreCursors(x, f, ListingAfter(es, u)) && pages > |ListingAfter(es, u)|
    ensures var seen := Browse(x, ListingAfter(es, u), asked, None, pages);
            && StrictlyNewestFirst(seen)
            && forall line :: line in seen <==> TellsOne(line, es, u)
  {
    SaveAllIsConsistent(es);
    OneRowEach(es, u);
    LinesAreStrict(SaveAll(es).rows, SaveAll(es).games, u);
    CursorsAreReadable(x, f, ListingAfter(es, u));
    BrowseSeesAll(x, ListingAfter(es, u), asked, pages);
    forall line ensures line in ListingAfter(es, u) <==> TellsOne(line, es, u) {
      ListingTellsResults(es, u, line);
    }
  }
}
