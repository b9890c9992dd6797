/**
 * The result tables: how one game result is stored (history.service.ts, saveGameResult) and the aggregate the
 * stored rows define (migrations/1789200001000-HistoryLookup.ts, the GROUP BY).
 */
module Tables {
  import opened Basics
  import opened Protocol

  datatype GameRow = GameRow(roomId: RoomId, roundsPlayed: nat, finishedAt: int, playerCount: nat)

  datatype PlayerRow = PlayerRow(gameId: GameId, playerId: PlayerId, userId: Option<UserId>, nickname: string,
                                 score: nat, rank: nat)

  datatype Stats = Stats(nickname: string, gamesPlayed: nat, wins: nat, totalScore: nat, bestScore: nat,
                         lastPlayedAt: int)

  datatype Store = Store(games: map<GameId, GameRow>, rows: seq<PlayerRow>, stats: map<UserId, Stats>)

  const EMPTY := Store(map[], [], map[])

  // ---------------------------------------------------------------- writing

  function GameRowOf(e: GameResult): GameRow {
    GameRow(e.roomId, e.roundsPlayed, e.finishedAt, |e.players|)
  }

  function RowOf(e: GameResult, p: ResultPlayer): PlayerRow {
    PlayerRow(e.gameId, p.playerId, p.userId, p.nickname, p.score, p.rank)
  }

  function RowsOf(e: GameResult): (rows: seq<PlayerRow>)
    ensures |rows| == |e.players|
  {
    seq(|e.players|, i requires 0 <= i < |e.players| => RowOf(e, e.players[i]))
  }

  function Max(a: int, b: int): int {
    if a >= b then a else b
  }

  /** INSERT INTO user_stats ... ON CONFLICT (user_id) DO UPDATE, for one row of a game that finished at `at`. */
  function Upsert(stats: map<UserId, Stats>, row: PlayerRow, at: int): map<UserId, Stats> {
    match row.userId
    case None => stats
    case Some(u) =>
      var win := if row.rank == 1 then 1 else 0;
      if u !in stats then stats[u := Stats(row.nickname, 1, win, row.score, row.score, at)]
      else
        var was := stats[u];
        stats[u := Stats(if at >= was.lastPlayedAt then row.nickname else was.nickname,
                         was.gamesPlayed + 1, was.wins + win, was.totalScore + row.score,
                         Max(was.bestScore, row.score), Max(was.lastPlayedAt, at))]
  }

  function AddRow(t: Store, row: PlayerRow, at: int): Store {
    t.(rows := t.rows + [row], stats := Upsert(t.stats, row, at))
  }

  function AddRows(t: Store, rows: seq<PlayerRow>, at: int): Store {
    if rows == [] then t
    else
      var n := |rows| - 1;
      AddRow(AddRows(t, rows[..n], at), rows[n], at)
  }

  /** saveGameResult: the new tables, and whether the game was new. */
  function Save(t: Store, e: GameResult): (Store, bool) {
    if e.gameId in t.games then (t, false)
    else (AddRows(t.(games := t.games[e.gameId := GameRowOf(e)]), RowsOf(e), e.finishedAt), true)
  }

  /** The tables after a sequence of deliveries. */
  function SaveAll(es: seq<GameResult>): Store {
    if es == [] then EMPTY else Save(SaveAll(es[..|es| - 1]), es[|es| - 1]).0
  }

  /** The service object: one transaction per call. */
  class HistoryService {
    var games: map<GameId, GameRow>
    var rows: seq<PlayerRow>
    var stats: map<UserId, Stats>

    function State(): Store
      reads this
    {
      Store(games, rows, stats)
    }

    constructor ()
      ensures State() == EMPTY
    {
      games, rows, stats := map[], [], map[];
    }

    method SaveGameResult(event: GameResult) returns (saved: bool)
      modifies this
      ensures (State(), saved) == Save(old(State()), event)
    {
      if event.gameId in games {
        return false;
      }
      games := games[event.gameId := GameRow(event.roomId, event.roundsPlayed, event.finishedAt, |event.players|)];
      ghost var begun := State();
      for i := 0 to |event.players|
        invariant State() == AddRows(begun, RowsOf(event)[..i], event.finishedAt)
      {
        ghost var row := RowOf(event, event.players[i]);
        assert RowsOf(event)[..i + 1] == RowsOf(event)[..i] + [row];
        assert RowsOf(event)[..i + 1][..i] == RowsOf(event)[..i];
        SavePlayer(event, event.players[i]);
      }
      assert RowsOf(event)[..|event.players|] == RowsOf(event);
      return true;
    }

    /** The loop body: the player's row, and one game more for a member. */
    method SavePlayer(event: GameResult, player: ResultPlayer)
      modifies this`rows, this`stats
      ensures State() == AddRow(old(State()), RowOf(event, player), event.finishedAt)
    {
      rows := rows + [PlayerRow(event.gameId, player.playerId, player.userId, player.nickname,
                                player.score, player.rank)];
      if player.userId.None? {
        return;
      }
      var u := player.userId.value;
      var win := if player.rank == 1 then 1 else 0;
      if u !in stats {
        stats := stats[u := Stats(player.nickname, 1, win, player.score, player.score, event.finishedAt)];
      } else {
        var was := stats[u];
        var nickname := if event.finishedAt >= was.lastPlayedAt then player.nickname else was.nickname;
        stats := stats[u := Stats(nickname, was.gamesPlayed + 1, was.wins + win, was.totalScore + player.score,
                                  Max(was.bestScore, player.score), Max(was.lastPlayedAt, event.finishedAt))];
      }
    }
  }

  // ---------------------------------------------------------------- the aggregate the rows define

  datatype Column = Count | Wins | Points

  function Worth(row: PlayerRow, column: Column): nat {
    match column
    case Count => 1
    case Wins => if row.rank == 1 then 1 else 0
    case Points => row.score
  }

  /** count(*), count(*) FILTER (WHERE rank = 1) or sum(score) over the rows of one user. */
  function Tally(rows: seq<PlayerRow>, u: UserId, column: Column): nat {
    if rows == [] then 0
    else
      var n := |rows| - 1;
      Tally(rows[..n], u, column) + if rows[n].userId == Some(u) then Worth(rows[n], column) else 0
  }

  /** Every player row belongs to a stored game. */
  predicate Joined(rows: seq<PlayerRow>, games: map<GameId, GameRow>) {
    forall i :: 0 <= i < |rows| ==> rows[i].gameId in games
  }

  predicate Plays(rows: seq<PlayerRow>, i: int, u: UserId) {
    0 <= i < |rows| && rows[i].userId == Some(u)
  }

  function TimeOf(rows: seq<PlayerRow>, games: map<GameId, GameRow>, i: int): int
    requires Joined(rows, games) && 0 <= i < |rows|
  {
    games[rows[i].gameId].finishedAt
  }

  /** max(score) of user u. */
  ghost predicate BestIs(best: int, rows: seq<PlayerRow>, u: UserId) {
    && (exists i :: Plays(rows, i, u) && rows[i].score == best)
    && (forall i :: Plays(rows, i, u) ==> rows[i].score <= best)
  }

  /** max(finished_at) of user u. */
  ghost predicate LatestIs(last: int, rows: seq<PlayerRow>, games: map<GameId, GameRow>, u: UserId)
    requires Joined(rows, games)
  {
    && (exists i :: Plays(rows, i, u) && TimeOf(rows, games, i) == last)
    && (forall i :: Plays(rows, i, u) ==> TimeOf(rows, games, i) <= last)
  }

  /** The numbers of the GROUP BY row of user u. */
  ghost predicate CountsMatch(st: Stats, rows: seq<PlayerRow>, games: map<GameId, GameRow>, u: UserId)
    requires Joined(rows, games)
  {
    && st.gamesPlayed == Tally(rows, u, Count)
    && st.wins == Tally(rows, u, Wins)
    && st.totalScore == Tally(rows, u, Points)
    && BestIs(st.bestScore, rows, u)
    && LatestIs(st.lastPlayedAt, rows, games, u)
  }

  /** No two rows of user u finished at the same time. */
  ghost predicate DistinctTimes(rows: seq<PlayerRow>, games: map<GameId, GameRow>, u: UserId)
    requires Joined(rows, games)
  {
    forall i, j :: Plays(rows, i, u) && Plays(rows, j, u) && i < j ==> TimeOf(rows, games, i) != TimeOf(rows, games, j)
  }

  /** Of the user's rows with the latest finish time, row i is the last that arrived. */
  ghost predicate LastArrived(rows: seq<PlayerRow>, games: map<GameId, GameRow>, i: int, u: UserId)
    requires Joined(rows, games)
  {
    && Plays(rows, i, u)
    && forall j :: Plays(rows, j, u) ==>
         TimeOf(rows, games, j) < TimeOf(rows, games, i) || (TimeOf(rows, games, j) == TimeOf(rows, games, i) && j <= i)
  }

  /** The nickname is that of the last row that arrived among the latest. */
  ghost predicate NicknameMatches(st: Stats, rows: seq<PlayerRow>, games: map<GameId, GameRow>, u: UserId)
    requires Joined(rows, games)
  {
    exists i :: LastArrived(rows, games, i, u) && rows[i].nickname == st.nickname
  }

  /** The row `GROUP BY user_id` produces: the nickname is that of the row with the greatest (finished_at, game id). */
  ghost predicate Rebuilt(st: Stats, rows: seq<PlayerRow>, games: map<GameId, GameRow>, u: UserId)
    requires Joined(rows, games)
  {
    && CountsMatch(st, rows, games, u)
    && exists i :: Plays(rows, i, u) && rows[i].nickname == st.nickname
                   && forall j :: Plays(rows, j, u) ==>
                        TimeOf(rows, games, j) < TimeOf(rows, games, i)
                        || (TimeOf(rows, games, j) == TimeOf(rows, games, i) && rows[j].gameId <= rows[i].gameId)
  }

  function RowsFor(rows: seq<PlayerRow>, g: GameId): seq<PlayerRow> {
    if rows == [] then []
    else
      var n := |rows| - 1;
      RowsFor(rows[..n], g) + if rows[n].gameId == g then [rows[n]] else []
  }

  /** The result a stored game and its rows describe. */
  function ReadBack(t: Store, g: GameId): GameResult
    requires g in t.games
  {
    var game, rows := t.games[g], RowsFor(t.rows, g);
    GameResult(g, game.roomId, game.finishedAt, game.roundsPlayed,
               seq(|rows|, i requires 0 <= i < |rows| =>
                 ResultPlayer(rows[i].playerId, rows[i].userId, rows[i].nickname, rows[i].score, rows[i].rank)))
  }

  /** user_stats is exactly the aggregate of game_players. */
  ghost predicate StatsAgree(t: Store) {
    && Joined(t.rows, t.games)
    && (forall i :: 0 <= i < |t.rows| && t.rows[i].userId.Some? ==> t.rows[i].userId.value in t.stats)
    && (forall u :: u in t.stats ==>
          CountsMatch(t.stats[u], t.rows, t.games, u) && NicknameMatches(t.stats[u], t.rows, t.games, u))
  }

  /** player_count is the number of the game's rows. */
  predicate CountsAgree(t: Store) {
    forall g :: g in t.games ==> t.games[g].playerCount == |RowsFor(t.rows, g)|
  }

  ghost predicate Consistent(t: Store) {
    StatsAgree(t) && CountsAgree(t)
  }

  // ---------------------------------------------------------------- one more row

  /** The rows keep their user and time; the new one is the last. */
  lemma PlaysSnoc(rows: seq<PlayerRow>, row: PlayerRow, games: map<GameId, GameRow>, u: UserId)
    requires Joined(rows, games) && row.gameId in games
    ensures Joined(rows + [row], games)
    ensures forall i :: Plays(rows, i, u) ==>
              Plays(rows + [row], i, u) && TimeOf(rows + [row], games, i) == TimeOf(rows, games, i)
    ensures forall i :: Plays(rows + [row], i, u) ==> Plays(rows, i, u) || i == |rows|
    ensures Plays(rows + [row], |rows|, u) <==> row.userId == Some(u)
  {
  }

  lemma TallySnoc(rows: seq<PlayerRow>, row: PlayerRow, u: UserId, column: Column)
    ensures Tally(rows + [row], u, column)
            == Tally(rows, u, column) + if row.userId == Some(u) then Worth(row, column) else 0
  {
    assert (rows + [row])[..|rows|] == rows;
  }

  /** The best score with one more row: best is that of the rows so far, if the user has any. */
  lemma BestGrows(rows: seq<PlayerRow>, row: PlayerRow, u: UserId, best: int)
    requires BestIs(best, rows, u) || (row.userId == Some(u) && best <= row.score && forall i :: !Plays(rows, i, u))
    ensures BestIs(if row.userId == Some(u) then Max(best, row.score) else best, rows + [row], u)
  {
    if BestIs(best, rows, u) {
      var i :| Plays(rows, i, u) && rows[i].score == best;
      assert Plays(rows + [row], i, u);
    }
    if row.userId == Some(u) {
      assert Plays(rows + [row], |rows|, u);
    }
    assert forall i :: Plays(rows + [row], i, u) && i < |rows| ==> Plays(rows, i, u);
  }

  /** The latest time with one more row, in the same way. */
  lemma LatestGrows(rows: seq<PlayerRow>, row: PlayerRow, games: map<GameId, GameRow>, u: UserId, last: int)
    requires Joined(rows, games) && row.gameId in games
    requires LatestIs(last, rows, games, u)
             || (row.userId == Some(u) && last <= games[row.gameId].finishedAt && forall i :: !Plays(rows, i, u))
    ensures Joined(rows + [row], games)
    ensures LatestIs(if row.userId == Some(u) then Max(last, games[row.gameId].finishedAt) else last,
                     rows + [row], games, u)
  {
    PlaysSnoc(rows, row, games, u);
    if LatestIs(last, rows, games, u) {
      var i :| Plays(rows, i, u) && TimeOf(rows, games, i) == last;
      assert Plays(rows + [row], i, u);
    }
  }

  lemma LatestTime(last: int, rows: seq<PlayerRow>, games: map<GameId, GameRow>, i: int, u: UserId)
    requires Joined(rows, games) && LatestIs(last, rows, games, u) && LastArrived(rows, games, i, u)
    ensures TimeOf(rows, games, i) == last
  {
  }

  /** A later or equal finish is the last to have arrived among the latest, an earlier one is not. */
  lemma LastArrivedGrows(rows: seq<PlayerRow>, row: PlayerRow, games: map<GameId, GameRow>, u: UserId, last: int,
                         i: int)
    requires Joined(rows, games) && row.gameId in games
    requires LatestIs(last, rows, games, u) && LastArrived(rows, games, i, u)
    ensures Joined(rows + [row], games)
    ensures if row.userId == Some(u) && games[row.gameId].finishedAt >= last
            then LastArrived(rows + [row], games, |rows|, u) else LastArrived(rows + [row], games, i, u)
  {
    PlaysSnoc(rows, row, games, u);
    LatestTime(last, rows, games, i, u);
  }

  /** In any order of arrival the kept nickname is that of the last row that arrived among the latest. */
  lemma NicknameStays(t: Store, row: PlayerRow, at: int, u: UserId)
    requires StatsAgree(t) && row.gameId in t.games && t.games[row.gameId].finishedAt == at
    requires u in AddRow(t, row, at).stats
    ensures var r := AddRow(t, row, at);
            Joined(r.rows, r.games) && NicknameMatches(r.stats[u], r.rows, r.games, u)
  {
    PlaysSnoc(t.rows, row, t.games, u);
    if u in t.stats {
      var i :| LastArrived(t.rows, t.games, i, u) && t.rows[i].nickname == t.stats[u].nickname;
      LastArrivedGrows(t.rows, row, t.games, u, t.stats[u].lastPlayedAt, i);
      assert (t.rows + [row])[i] == t.rows[i];
    } else {
      assert LastArrived(t.rows + [row], t.games, |t.rows|, u);
    }
  }

  /** The numbers stay those of the rows. */
  lemma NumbersStay(t: Store, row: PlayerRow, at: int, u: UserId)
    requires StatsAgree(t) && row.gameId in t.games && t.games[row.gameId].finishedAt == at
    requires u in AddRow(t, row, at).stats
    ensures var r := AddRow(t, row, at);
            Joined(r.rows, r.games) && CountsMatch(r.stats[u], r.rows, r.games, u)
  {
    if u in t.stats {
      KnownNumbers(t.stats[u], Upsert(t.stats, row, at)[u], t.rows, row, t.games, u);
    } else {
      FirstNumbers(Upsert(t.stats, row, at)[u], t.rows, row, t.games, u);
    }
  }

  /** A member with earlier games, who may or may not play in this one. */
  lemma KnownNumbers(was: Stats, st: Stats, rows: seq<PlayerRow>, row: PlayerRow, games: map<GameId, GameRow>,
                     u: UserId)
    requires Joined(rows, games) && row.gameId in games && CountsMatch(was, rows, games, u)
    requires row.userId != Some(u) ==> st == was
    requires row.userId == Some(u) ==> st == Upsert(map[u := was], row, games[row.gameId].finishedAt)[u]
    ensures Joined(rows + [row], games) && CountsMatch(st, rows + [row], games, u)
  {
    TallySnoc(rows, row, u, Count);
    TallySnoc(rows, row, u, Wins);
    TallySnoc(rows, row, u, Points);
    BestGrows(rows, row, u, was.bestScore);
    LatestGrows(rows, row, games, u, was.lastPlayedAt);
  }

  /** A member's first game. */
  lemma FirstNumbers(st: Stats, rows: seq<PlayerRow>, row: PlayerRow, games: map<GameId, GameRow>, u: UserId)
    requires Joined(rows, games) && row.gameId in games && row.userId == Some(u) && forall i :: !Plays(rows, i, u)
    requires st == Upsert(map[], row, games[row.gameId].finishedAt)[u]
    ensures Joined(rows + [row], games) && CountsMatch(st, rows + [row], games, u)
  {
    NoRowsNoTally(rows, u);
    TallySnoc(rows, row, u, Count);
    TallySnoc(rows, row, u, Wins);
    TallySnoc(rows, row, u, Points);
    BestGrows(rows, row, u, row.score);
    LatestGrows(rows, row, games, u, games[row.gameId].finishedAt);
  }

  lemma {:induction false} NoRowsNoTally(rows: seq<PlayerRow>, u: UserId)
    requires forall i :: !Plays(rows, i, u)
    ensures forall column :: Tally(rows, u, column) == 0
  {
    if rows != [] {
      var n := |rows| - 1;
      assert forall i :: Plays(rows[..n], i, u) ==> Plays(rows, i, u);
      assert !Plays(rows, n, u);
      NoRowsNoTally(rows[..n], u);
    }
  }

  lemma {:induction false} AddRowsAppends(t: Store, rows: seq<PlayerRow>, at: int)
    ensures AddRows(t, rows, at).rows == t.rows + rows && AddRows(t, rows, at).games == t.games
  {
    if rows == [] {
      assert t.rows + rows == t.rows;
    } else {
      var n := |rows| - 1;
      AddRowsAppends(t, rows[..n], at);
      assert rows == rows[..n] + [rows[n]];
    }
  }

  lemma {:induction false} AddRowsKeepsStats(t: Store, rows: seq<PlayerRow>, at: int)
    requires StatsAgree(t)
    requires forall i :: 0 <= i < |rows| ==> rows[i].gameId in t.games && t.games[rows[i].gameId].finishedAt == at
    ensures StatsAgree(AddRows(t, rows, at))
  {
    if rows != [] {
      var n := |rows| - 1;
      AddRowsKeepsStats(t, rows[..n], at);
      AddRowsAppends(t, rows[..n], at);
      var m := AddRows(t, rows[..n], at);
      assert rows == rows[..n] + [rows[n]];
      forall u | u in AddRow(m, rows[n], at).stats
        ensures CountsMatch(AddRow(m, rows[n], at).stats[u], AddRow(m, rows[n], at).rows, t.games, u)
        ensures NicknameMatches(AddRow(m, rows[n], at).stats[u], AddRow(m, rows[n], at).rows, t.games, u)
      {
        NumbersStay(m, rows[n], at, u);
        NicknameStays(m, rows[n], at, u);
      }
    }
  }

  lemma {:induction false} RowsForConcat(xs: seq<PlayerRow>, ys: seq<PlayerRow>, g: GameId)
    ensures RowsFor(xs + ys, g) == RowsFor(xs, g) + RowsFor(ys, g)
  {
    if ys == [] {
      assert xs + ys == xs;
    } else {
      var n := |ys| - 1;
      RowsForConcat(xs, ys[..n], g);
      assert (xs + ys)[..|xs + ys| - 1] == xs + ys[..n];
    }
  }

  lemma {:induction false} RowsForOneGame(rows: seq<PlayerRow>, own: GameId, g: GameId)
    requires forall i :: 0 <= i < |rows| ==> rows[i].gameId == own
    ensures RowsFor(rows, g) == if g == own then rows else []
  {
    if rows != [] {
      RowsForOneGame(rows[..|rows| - 1], own, g);
    }
  }

  lemma {:induction false} RowsForUnknownGame(rows: seq<PlayerRow>, games: map<GameId, GameRow>, g: GameId)
    requires Joined(rows, games) && g !in games
    ensures RowsFor(rows, g) == []
  {
    if rows != [] {
      RowsForUnknownGame(rows[..|rows| - 1], games, g);
    }
  }

  /** What one save adds: the game's row and its players' rows. */
  lemma SaveAppends(t: Store, e: GameResult)
    requires e.gameId !in t.games
    ensures Save(t, e).0.rows == t.rows + RowsOf(e) && Save(t, e).0.games == t.games[e.gameId := GameRowOf(e)]
  {
    AddRowsAppends(t.(games := t.games[e.gameId := GameRowOf(e)]), RowsOf(e), e.finishedAt);
  }

  lemma AppendedGame(rows: seq<PlayerRow>, games: map<GameId, GameRow>, e: GameResult, g: GameId)
    requires Joined(rows, games) && e.gameId !in games
    ensures RowsFor(rows + RowsOf(e), g) == if g == e.gameId then RowsOf(e) else RowsFor(rows, g)
  {
    RowsForConcat(rows, RowsOf(e), g);
    RowsForOneGame(RowsOf(e), e.gameId, g);
    if g == e.gameId {
      RowsForUnknownGame(rows, games, g);
      assert [] + RowsOf(e) == RowsOf(e);
    } else {
      assert RowsFor(rows, g) + [] == RowsFor(rows, g);
    }
  }

  /** What one save does to the rows of each game. */
  lemma SaveAddsOneGame(t: Store, e: GameResult, g: GameId)
    requires Joined(t.rows, t.games)
    ensures var r := Save(t, e).0;
            RowsFor(r.rows, g) == if g == e.gameId && e.gameId !in t.games then RowsOf(e) else RowsFor(t.rows, g)
  {
    if e.gameId !in t.games {
      SaveAppends(t, e);
      AppendedGame(t.rows, t.games, e, g);
    }
  }

  /** A game without rows changes no aggregate. */
  lemma GamesGrow(t: Store, e: GameResult)
    requires StatsAgree(t) && e.gameId !in t.games
    ensures StatsAgree(t.(games := t.games[e.gameId := GameRowOf(e)]))
  {
    var games := t.games[e.gameId := GameRowOf(e)];
    assert forall i :: 0 <= i < |t.rows| ==> TimeOf(t.rows, games, i) == TimeOf(t.rows, t.games, i);
    forall u | u in t.stats
      ensures CountsMatch(t.stats[u], t.rows, games, u) && NicknameMatches(t.stats[u], t.rows, games, u)
    {
      TimesDecide(t.stats[u], t.rows, t.games, games, u);
    }
  }

  lemma TimesDecide(st: Stats, rows: seq<PlayerRow>, games: map<GameId, GameRow>,
                    others: map<GameId, GameRow>, u: UserId)
    requires Joined(rows, games) && Joined(rows, others)
    requires forall i :: 0 <= i < |rows| ==> TimeOf(rows, others, i) == TimeOf(rows, games, i)
    requires CountsMatch(st, rows, games, u) && NicknameMatches(st, rows, games, u)
    ensures CountsMatch(st, rows, others, u) && NicknameMatches(st, rows, others, u)
  {
  }

  /** Storing a result, new or repeated, keeps the aggregate equal to the rows and every player count right. */
  lemma SaveKeepsConsistent(t: Store, e: GameResult)
    requires Consistent(t)
    ensures Consistent(Save(t, e).0)
  {
    if e.gameId !in t.games {
      GamesGrow(t, e);
      AddRowsKeepsStats(t.(games := t.games[e.gameId := GameRowOf(e)]), RowsOf(e), e.finishedAt);
      SaveAppends(t, e);
      forall g | g in Save(t, e).0.games
        ensures Save(t, e).0.games[g].playerCount == |RowsFor(Save(t, e).0.rows, g)|
      {
        SaveAddsOneGame(t, e, g);
      }
    }
  }

  /** After any deliveries, repeats included, the tables are consistent. */
  lemma {:induction false} SaveAllIsConsistent(es: seq<GameResult>)
    ensures Consistent(SaveAll(es))
  {
    if es != [] {
      SaveAllIsConsistent(es[..|es| - 1]);
      SaveKeepsConsistent(SaveAll(es[..|es| - 1]), es[|es| - 1]);
    }
  }

  /** The numbers of the aggregate are determined by the rows. */
  lemma NumbersAgree(a: Stats, b: Stats, rows: seq<PlayerRow>, games: map<GameId, GameRow>, u: UserId)
    requires Joined(rows, games) && CountsMatch(a, rows, games, u) && CountsMatch(b, rows, games, u)
    ensures a.(nickname := b.nickname) == b
  {
  }

  /** Only one row is the last to have arrived among the latest. */
  lemma OneLastArrived(rows: seq<PlayerRow>, games: map<GameId, GameRow>, i: int, k: int, u: UserId)
    requires Joined(rows, games) && LastArrived(rows, games, i, u) && LastArrived(rows, games, k, u)
    ensures i == k
  {
    assert Plays(rows, i, u) && Plays(rows, k, u);
  }

  /** With distinct finish times the GROUP BY takes the same row. */
  lemma LatestIsRebuilt(st: Stats, rows: seq<PlayerRow>, games: map<GameId, GameRow>, i: int, u: UserId)
    requires Joined(rows, games) && Rebuilt(st, rows, games, u) && LastArrived(rows, games, i, u)
    requires DistinctTimes(rows, games, u)
    ensures rows[i].nickname == st.nickname
  {
    var k :| Plays(rows, k, u) && rows[k].nickname == st.nickname
             && forall j :: Plays(rows, j, u) ==>
                  TimeOf(rows, games, j) < TimeOf(rows, games, k)
                  || (TimeOf(rows, games, j) == TimeOf(rows, games, k) && rows[j].gameId <= rows[k].gameId);
    assert TimeOf(rows, games, k) == TimeOf(rows, games, i);
  }

  /**
   * The incrementally kept row and the row a fresh GROUP BY would produce agree in every number. They agree in the
   * nickname if and only if the last row that arrived among the user's latest bears the GROUP BY's nickname, which
   * is so as soon as the user's games finished at different times.
   */
  lemma IncrementalEqualsRebuild(t: Store, u: UserId, rebuilt: Stats)
    requires Consistent(t) && u in t.stats && Rebuilt(rebuilt, t.rows, t.games, u)
    ensures rebuilt.(nickname := t.stats[u].nickname) == t.stats[u]
    ensures forall i :: LastArrived(t.rows, t.games, i, u) ==>
              (rebuilt == t.stats[u] <==> t.rows[i].nickname == rebuilt.nickname)
    ensures DistinctTimes(t.rows, t.games, u) ==> rebuilt == t.stats[u]
  {
    NumbersAgree(rebuilt, t.stats[u], t.rows, t.games, u);
    var i :| LastArrived(t.rows, t.games, i, u) && t.rows[i].nickname == t.stats[u].nickname;
    forall k | LastArrived(t.rows, t.games, k, u) ensures k == i {
      OneLastArrived(t.rows, t.games, i, k, u);
    }
    if DistinctTimes(t.rows, t.games, u) {
      LatestIsRebuilt(rebuilt, t.rows, t.games, i, u);
    }
  }
}
