/** What a published result says about the game it ends. */
module Standings {
  import opened Basics
  import opened Protocol
  import opened Ranking
  import opened Game
  import opened RoomInvariant
  import opened History
  import opened Accounting
  import opened ResultTable
  import opened Identity

  /** The lines without their ranks. */
  function Unranked(lines: seq<ResultPlayer>): (ps: seq<Player>)
    ensures |ps| == |lines|
  {
    seq(|lines|, i requires 0 <= i < |lines| =>
      Player(lines[i].playerId, lines[i].userId, lines[i].nickname, lines[i].score))
  }

  /** The lines hold exactly these players, best first, each one place behind the strictly better ones. */
  predicate RanksPlayers(lines: seq<ResultPlayer>, ps: seq<Player>) {
    && multiset(Unranked(lines)) == multiset(ps)
    && BestFirst(Unranked(lines))
    && forall i :: 0 <= i < |lines| ==> lines[i].rank == 1 + |Better(lines, lines[i].score)|
  }

  /** The lines with more points. */
  function Better(lines: seq<ResultPlayer>, score: nat): set<nat> {
    set k: nat | k < |lines| && lines[k].score > score
  }

  lemma BetterAreHigher(lines: seq<ResultPlayer>, score: nat)
    ensures |Better(lines, score)| == Higher(ScoresOf(Unranked(lines)), score)
  {
    var scores := ScoresOf(Unranked(lines));
    HigherCounts(scores, score);
    assert Better(lines, score) == set i | 0 <= i < |scores| && scores[i] > score;
  }

  lemma UnrankedLines(sorted: seq<Player>, scores: seq<int>)
    ensures Unranked(Ranked(sorted, scores)) == sorted
  {
  }

  lemma ResultsRankPlayers(ps: seq<Player>)
    ensures RanksPlayers(ResultPlayers(ps), ps)
  {
    var sorted := SortByScore(ps);
    UnrankedLines(sorted, ScoresOf(ps));
    SortedPlayers(ps);
    SortOrders(ps);
    SortedScores(ps);
    var lines := ResultPlayers(ps);
    forall i | 0 <= i < |lines| ensures lines[i].rank == 1 + |Better(lines, lines[i].score)| {
      HigherOfPermutation(ScoresOf(ps), ScoresOf(sorted), sorted[i].score);
      BetterAreHigher(lines, lines[i].score);
    }
  }

  // ---------------------------------------------------------------- ties

  /** The players with that many points, in their order. */
  function Tied(ps: seq<Player>, score: nat): seq<Player> {
    if ps == [] then []
    else
      var n := |ps| - 1;
      Tied(ps[..n], score) + if ps[n].score == score then [ps[n]] else []
  }

  lemma TiedSnoc(ps: seq<Player>, p: Player, score: nat)
    ensures Tied(ps + [p], score) == Tied(ps, score) + if p.score == score then [p] else []
  {
    assert (ps + [p])[..|ps|] == ps;
  }

  lemma {:induction false} InsertBehindTied(ps: seq<Player>, p: Player, score: nat)
    ensures Tied(InsertByScore(ps, p), score) == Tied(ps, score) + if p.score == score then [p] else []
  {
    if ps == [] {
      TiedSnoc([], p, score);
      assert [] + [p] == [p];
    } else {
      var n := |ps| - 1;
      if ps[n].score >= p.score {
        TiedSnoc(ps, p, score);
      } else {
        InsertBehindTied(ps[..n], p, score);
        TiedSnoc(InsertByScore(ps[..n], p), ps[n], score);
      }
    }
  }

  /** Players with equal points are listed in the order in which they joined. */
  lemma {:induction false} TiesKeepOrder(ps: seq<Player>, score: nat)
    ensures Tied(Unranked(ResultPlayers(ps)), score) == Tied(ps, score)
    decreases |ps|
  {
    UnrankedLines(SortByScore(ps), ScoresOf(ps));
    SortKeepsTied(ps, score);
  }

  lemma {:induction false} SortKeepsTied(ps: seq<Player>, score: nat)
    ensures Tied(SortByScore(ps), score) == Tied(ps, score)
  {
    if ps != [] {
      var n := |ps| - 1;
      SortKeepsTied(ps[..n], score);
      InsertBehindTied(SortByScore(ps[..n]), ps[n], score);
    }
  }

  // ---------------------------------------------------------------- the sum of the scores

  lemma {:induction false} TotalOfInsert(ps: seq<Player>, p: Player)
    ensures Total(InsertByScore(ps, p)) == Total(ps) + p.score
  {
    if ps == [] {
      TotalSnoc([], p);
      assert [] + [p] == [p];
    } else {
      var n := |ps| - 1;
      if ps[n].score >= p.score {
        TotalSnoc(ps, p);
      } else {
        TotalOfInsert(ps[..n], p);
        TotalSnoc(InsertByScore(ps[..n], p), ps[n]);
      }
    }
  }

  lemma {:induction false} TotalOfSort(ps: seq<Player>)
    ensures Total(SortByScore(ps)) == Total(ps)
  {
    if ps != [] {
      TotalOfSort(ps[..|ps| - 1]);
      TotalOfInsert(SortByScore(ps[..|ps| - 1]), ps[|ps| - 1]);
    }
  }

  // ---------------------------------------------------------------- who publishes

  /** The result of the game g that just ended in t. */
  function FinalResult(t: Live, g: GameId): GameResult {
    GameResult(g, t.room.id, t.world.now, t.room.round, ResultPlayers(t.room.players))
  }

  /** Either nothing was published, or the running game ended with its result. */
  predicate PublishesFinal(s: Live, t: Live) {
    || t.world.published == s.world.published
    || (s.room.phase == Playing && t.room.phase == Ended && s.room.gameId.Some?
        && t.world.published == s.world.published + [FinalResult(t, s.room.gameId.value)]
        && t.world.now == s.world.now && t.room.round == s.room.round && t.room.id == s.room.id
        && t.room.drawerId.None?)
  }

  lemma EndGamePublishes(s: Live)
    ensures PublishesFinal(s, EndGame(s))
  {
  }

  lemma EndRoundPublishesNothing(s: Live)
    ensures EndRound(s).world.published == s.world.published
  {
  }

  lemma StartRoundPublishesNothing(s: Live, word: string)
    requires s.room.drawerQueue != [] && s.room.drawerQueue[0] in Ids(s.room.players)
    ensures StartRound(s, word).world.published == s.world.published
  {
  }

  lemma DeparturePublishes(s: Live, id: PlayerId)
    ensures PublishesFinal(s, AfterDeparture(s, id))
  {
    if s.room.phase == Playing {
      if |s.room.players| < MIN_PLAYERS_TO_START {
        EndGamePublishes(Announce(s, TooFewPlayersLeft));
      } else if s.room.drawerId == Some(id) {
        EndRoundPublishesNothing(Announce(s, DrawerLeft));
      } else {
        EndRoundPublishesNothing(s);
      }
    }
  }

  lemma AlertPublishes(s: Live, t: TimerId, word: string)
    requires Inv(s) && Enabled(s, Alert(t, word))
    ensures PublishesFinal(s, Fire(s, t, word))
  {
    AlertSettles(s, t, word);
    var due := s.(world := s.world.(alarms := s.world.alarms - {t}));
    EndGamePublishes(due);
    EndRoundPublishesNothing(due);
    if due.room.drawerQueue != [] {
      assert due.room.drawerQueue[0] in due.room.drawerQueue;
      StartRoundPublishesNothing(due, word);
    }
  }

  lemma {:induction false} StartPublishesNothing(s: Live, gameId: GameId, order: seq<PlayerId>, word: string)
    requires Inv(s) && Enabled(s, Start(gameId, order, word))
    ensures StartGame(s, gameId, order, word).world.published == s.world.published
  {
    if s.room.phase != Playing && |s.room.players| >= MIN_PLAYERS_TO_START {
      AnnouncedIsUnsettled(s, gameId, order);
      var told := Announced(s, gameId, order);
      assert told.room.drawerQueue[0] in told.room.drawerQueue;
      StartRoundPublishesNothing(told, word);
    }
  }

  lemma SayPublishesNothing(s: Live, id: PlayerId, text: string)
    requires Inv(s)
    ensures HandleChat(s, id, text).world.published == s.world.published
  {
    ChatCases(s, id, text);
  }

  lemma {:induction false} StepPublishes(s: Live, e: Event)
    requires Inv(s) && Enabled(s, e)
    ensures PublishesFinal(s, Step(s, e))
  {
    match e
    case Leave(id) =>
      FarewellKeepsShape(s, id);
      DeparturePublishes(Farewell(s, id), id);
    case Say(id, text) => SayPublishesNothing(s, id, text);
    case Start(gameId, order, word) => StartPublishesNothing(s, gameId, order, word);
    case Alert(t, word) => AlertPublishes(s, t, word);
    case _ =>
  }

  /**
   * In every run, an event that publishes ends the running game, and what it publishes is true of that game: its
   * id and room, the time, as many rounds as players drew, and exactly the players present, ranked, each with the
   * account and name it joined with, whose points plus those of the leavers are what the right answers of the game were
   * worth.
   */
  lemma {:induction false} ResultsTellTheGame(id: RoomId, now: int, es: seq<Event>, e: Event)
    requires Run(Opening(id, now), es) && May(After(Opening(id, now), es), e)
    ensures var c := After(Opening(id, now), es);
            var d := Next(c, e);
            var before, after := c.live.world.published, d.live.world.published;
            after == before ||
            (&& |after| == |before| + 1 && after[..|before|] == before
             && c.live.room.phase == Playing && d.live.room.phase == Ended
             && var r := after[|before|];
                && Some(r.gameId) == c.live.room.gameId && r.roomId == c.live.room.id
                && r.finishedAt == c.live.world.now
                && r.roundsPlayed == |d.record.drawers|
                && RanksPlayers(r.players, d.live.room.players)
                && AllBear(Unranked(r.players), es + [e])
                && Total(Unranked(r.players)) + d.record.forfeited == Paid(d.record.solutions))
  {
    RunsStayGood(id, now, es);
    var c := After(Opening(id, now), es);
    NextKeepsGood(c, e);
    LinesBear(id, now, es, e);
    StepPublishes(c.live, e);
    FinalResultIsTrue(c, e);
  }

  lemma LinesBear(id: RoomId, now: int, es: seq<Event>, e: Event)
    requires Run(Opening(id, now), es) && May(After(Opening(id, now), es), e)
    ensures var ps := Next(After(Opening(id, now), es), e).live.room.players;
            AllBear(Unranked(ResultPlayers(ps)), es + [e])
  {
    RunGrows(Opening(id, now), es, e);
    PlayersAreWhoJoined(id, now, es + [e]);
    RanksBear(Next(After(Opening(id, now), es), e).live.room.players, es + [e]);
  }

  lemma RanksBear(ps: seq<Player>, es: seq<Event>)
    requires AllBear(ps, es)
    ensures AllBear(Unranked(ResultPlayers(ps)), es)
  {
    ResultsRankPlayers(ps);
    var lines := Unranked(ResultPlayers(ps));
    forall i | 0 <= i < |lines|
      ensures JoinedAs(es, lines[i].id) == Some(Bearer(lines[i].userId, lines[i].nickname)) {
      assert lines[i] in multiset(ps);
      var k :| 0 <= k < |ps| && ps[k] == lines[i];
    }
  }

  lemma {:induction false} FinalResultIsTrue(c: Tracked, e: Event)
    requires Good(c) && May(c, e) && Good(Next(c, e)) && PublishesFinal(c.live, Next(c, e).live)
    ensures var d := Next(c, e);
            var r := FinalResult(d.live, 0);
            && RanksPlayers(r.players, d.live.room.players)
            && Total(Unranked(r.players)) + d.record.forfeited == Paid(d.record.solutions)
            && (c.live.room.phase == Playing && d.live.room.drawerId.None? && d.live.room.round == c.live.room.round
                ==> r.roundsPlayed == |d.record.drawers|)
  {
    var ps := Next(c, e).live.room.players;
    ResultsRankPlayers(ps);
    TotalOfSort(ps);
    UnrankedLines(SortByScore(ps), ScoresOf(ps));
  }

  // ---------------------------------------------------------------- who drew

  lemma EndRoundPlaysOn(s: Live)
    ensures EndRound(s).room.phase == s.room.phase
  {
  }

  lemma StartRoundPlaysOn(s: Live, word: string)
    requires s.room.drawerQueue != [] && s.room.drawerQueue[0] in Ids(s.room.players)
    ensures StartRound(s, word).room.phase == s.room.phase
  {
  }

  lemma {:induction false} DepartureEndsShort(s: Live, id: PlayerId)
    requires s.room.phase == Playing && AfterDeparture(s, id).room.phase != Playing
    ensures |AfterDeparture(s, id).room.players| < MIN_PLAYERS_TO_START
  {
    EndRoundPlaysOn(Announce(s, DrawerLeft));
    EndRoundPlaysOn(s);
  }

  lemma {:induction false} AlertEndsPlayedOut(s: Live, t: TimerId, word: string)
    requires Inv(s) && Enabled(s, Alert(t, word)) && Fire(s, t, word).room.phase != Playing
    ensures s.room.drawerQueue == [] && Fire(s, t, word).room.players == s.room.players
  {
    AlertSettles(s, t, word);
    var due := s.(world := s.world.(alarms := s.world.alarms - {t}));
    EndRoundPlaysOn(due);
    if due.room.drawerQueue != [] {
      assert due.room.drawerQueue[0] in due.room.drawerQueue;
      StartRoundPlaysOn(due, word);
    }
  }

  /** A game ends because too few players are left, or when its queue is played out. */
  lemma {:induction false} GamesEndForAReason(s: Live, e: Event)
    requires Inv(s) && Enabled(s, e) && s.room.phase == Playing && Step(s, e).room.phase != Playing
    ensures |Step(s, e).room.players| < MIN_PLAYERS_TO_START
            || (s.room.drawerQueue == [] && Step(s, e).room.players == s.room.players)
  {
    match e
    case Leave(id) =>
      FarewellKeepsShape(s, id);
      DepartureEndsShort(Farewell(s, id), id);
    case Say(id, text) =>
      ChatCases(s, id, text);
    case Alert(t, word) => AlertEndsPlayedOut(s, t, word);
    case _ =>
  }

  /**
   * In every run, when a game of at most ten starting players ends with two or more present, everyone present,
   * newcomers included, has drawn in it, and nobody twice.
   */
  lemma {:induction false} EveryoneDraws(id: RoomId, now: int, es: seq<Event>, e: Event)
    requires Run(Opening(id, now), es) && May(After(Opening(id, now), es), e)
    ensures var c := After(Opening(id, now), es);
            var d := Next(c, e);
            c.live.room.phase == Playing && d.live.room.phase != Playing && c.record.atStart <= MAX_ROUNDS
            && |d.live.room.players| >= MIN_PLAYERS_TO_START
            ==> Distinct(d.record.drawers) && forall p :: p in Ids(d.live.room.players) ==> p in d.record.drawers
  {
    RunsStayGood(id, now, es);
    var c := After(Opening(id, now), es);
    NextKeepsGood(c, e);
    if c.live.room.phase == Playing && Next(c, e).live.room.phase != Playing {
      GamesEndForAReason(c.live, e);
      EndKeepsDrawers(c, e);
    }
  }

  lemma EndKeepsDrawers(c: Tracked, e: Event)
    requires May(c, e) && c.live.room.phase == Playing && Next(c, e).live.room.phase != Playing && Inv(Next(c, e).live)
    ensures Next(c, e).record.drawers == c.record.drawers
  {
  }
}
