/** The books of History balance after every event of every run. */
module Accounting {
  import opened Basics
  import opened Protocol
  import opened Game
  import opened RoomInvariant
  import opened History

  predicate Good(c: Tracked) {
    Inv(c.live) && Books(c)
  }

  /** The fields of the room and the record that the books look at besides the round's drawer and solvers. */
  predicate SameEntries(c: Tracked, d: Tracked) {
    var r, q := c.live.room, d.live.room;
    && q.players == r.players && q.phase == r.phase && q.gameId == r.gameId && q.round == r.round
    && q.totalRounds == r.totalRounds && q.drawerQueue == r.drawerQueue
    && d.live.world.published == c.live.world.published
    && d.record.(painters := {}) == c.record.(painters := {})
  }

  /** Mail, clock, timers and canvas do not enter the books, and a round may end at any time. */
  lemma BooksIgnoreRest(c: Tracked, d: Tracked)
    requires Books(c) && SameEntries(c, d)
    requires d.live.room.drawerId.None?
             || (d.live.room.drawerId == c.live.room.drawerId && d.live.room.solved == c.live.room.solved)
    ensures Books(d)
  {
    assert ScoresBalance(d.live.room.players, d.record) && Newcomers(d.live.room.players, d.record);
    assert RoundsBalance(d.live.room, d.record);
    assert EveryoneCalled(d.live.room, d.record.drawers, d.record.atStart);
  }

  // ---------------------------------------------------------------- ending and starting

  lemma PublishCompletes(published: seq<GameResult>, result: GameResult, started: seq<GameId>)
    requires ResultsComplete(published, Some(result.gameId), started) && Acceptable(result)
    ensures ResultsComplete(published + [result], None, started)
  {
    assert GamesOf(published + [result]) == GamesOf(published) + [result.gameId];
  }

  lemma EndGameKeepsBooks(c: Tracked)
    requires Books(c) && c.live.room.phase == Playing && c.live.room.gameId.Some? && c.live.room.players != []
    ensures Books(c.(live := EndGame(c.live)))
  {
    var s := c.live;
    var result := GameResult(s.room.gameId.value, s.room.id, s.world.now, s.room.round, ResultPlayers(s.room.players));
    assert forall p :: p in result.players ==> p.rank >= 1;
    PublishCompletes(s.world.published, result, c.record.started);
  }

  lemma EndRoundKeepsBooks(c: Tracked)
    requires Books(c)
    ensures Books(c.(live := EndRound(c.live)))
  {
    EndRoundEntries(c);
    BooksIgnoreRest(c, c.(live := EndRound(c.live)));
  }

  lemma EndRoundEntries(c: Tracked)
    ensures var d := c.(live := EndRound(c.live)); SameEntries(c, d) && (d.live.room.drawerId.None? || d == c)
  {
  }

  lemma FairnessSurvivesRound(drawers: seq<PlayerId>, d: PlayerId, solutions: seq<Solution>)
    requires SolutionsFair(drawers, solutions)
    ensures SolutionsFair(drawers + [d], solutions)
    ensures forall i :: 0 <= i < |solutions| ==> solutions[i].round <= |drawers|
  {
    assert forall i :: 0 <= i < |solutions| ==> FairSolution(drawers, solutions[i]);
  }

  lemma EarningsSurviveRound(players: seq<Player>, drawers: seq<PlayerId>, d: PlayerId, solutions: seq<Solution>)
    requires ScoresEarned(players, drawers, solutions)
    requires forall i :: 0 <= i < |solutions| ==> solutions[i].round <= |drawers|
    ensures ScoresEarned(players, drawers + [d], solutions)
  {
    forall i | 0 <= i < |players| ensures players[i].score == Earned(solutions, drawers + [d], players[i].id) {
      EarnedBeforeNextRound(solutions, drawers, d, players[i].id);
    }
  }

  /** r and h after the first player of the queue became the drawer. */
  predicate NextDrawer(r: Room, h: Record, r': Room, h': Record) {
    && r.drawerQueue != []
    && r' == r.(round := r.round + 1, drawerId := Some(r.drawerQueue[0]), drawerQueue := r.drawerQueue[1..],
                solved := {},
                word := r'.word, roundEndsAt := r'.roundEndsAt, strokes := r'.strokes, usedWords := r'.usedWords,
                roundTimer := r'.roundTimer)
    && h' == h.(drawers := h.drawers + [r.drawerQueue[0]], painters := h'.painters)
  }

  lemma StartRoundPicksNext(s: Live, h: Record, word: string, painters: set<PlayerId>)
    requires s.room.drawerQueue != [] && s.room.drawerQueue[0] in Ids(s.room.players)
    ensures var t := StartRound(s, word);
            && NextDrawer(s.room, h, t.room, h.(drawers := h.drawers + Appeared(t), painters := painters))
            && t.world.published == s.world.published
  {
    assert ClearRoundTimer(s).room == s.room.(roundTimer := None);
  }

  lemma NextDrawerKeepsRounds(r: Room, h: Record, r': Room, h': Record)
    requires NextDrawer(r, h, r', h') && RoundsBalance(r, h) && Distinct(r.drawerQueue) && Distinct(h.drawers)
    requires EveryoneCalled(r, h.drawers, h.atStart) && r.phase == Playing
    ensures Distinct(h'.drawers) && RoundsBalance(r', h') && EveryoneCalled(r', h'.drawers, h'.atStart)
  {
    var q := r.drawerQueue;
    assert q == [q[0]] + q[1..] && q[0] in q && q[0] !in q[1..];
    assert forall id :: id in q[1..] ==> id in q;
  }

  lemma StartRoundKeepsBooks(c: Tracked, word: string, painters: set<PlayerId>)
    requires Books(c) && Unsettled(c.live) && c.live.room.drawerId.None? && c.live.room.drawerQueue != []
    ensures var t := StartRound(c.live, word);
            && t.room.drawerId.Some? && t.room.phase == Playing
            && Books(Tracked(t, c.record.(drawers := c.record.drawers + Appeared(t), painters := painters)))
  {
    var s, h := c.live, c.record;
    var d := s.room.drawerQueue[0];
    assert d in s.room.drawerQueue;
    StartRoundPicksNext(s, h, word, painters);
    var t := StartRound(s, word);
    var h' := h.(drawers := h.drawers + Appeared(t), painters := painters);
    NextDrawerKeepsRounds(s.room, h, t.room, h');
    FairnessSurvivesRound(h.drawers, d, h.solutions);
    EarningsSurviveRound(s.room.players, h.drawers, d, h.solutions);
    assert SolversMarked(t.room.round, t.room.solved, t.room.players, h'.solutions);
    assert ScoresBalance(t.room.players, h') && Newcomers(t.room.players, h');
  }

  function Blank(h: Record, gameId: GameId, now: int, atStart: nat): Record {
    Record(h.seen, h.started + [gameId], now, atStart, 0, 0, 0, [], [], 0, {})
  }

  lemma NewGameKeepsBooks(c: Tracked, gameId: GameId, order: seq<PlayerId>)
    requires Good(c) && c.live.room.phase != Playing && |c.live.room.players| >= MIN_PLAYERS_TO_START
    requires gameId !in c.record.started && multiset(order) == multiset(Ids(c.live.room.players))
    ensures Books(Tracked(Announced(c.live, gameId, order),
                          Blank(c.record, gameId, c.live.world.now, |c.live.room.players|)))
  {
    PermutationOfDistinct(Ids(c.live.room.players), order);
    TotalOfZeroScores(c.live.room.players);
    var h := Blank(c.record, gameId, c.live.world.now, |c.live.room.players|);
    var d := Tracked(Announced(c.live, gameId, order), h);
    assert Ids(d.live.room.players) == Ids(c.live.room.players);
    assert RoundsBalance(d.live.room, h) && Newcomers(d.live.room.players, h);
  }

  lemma StartGameKeepsBooks(c: Tracked, gameId: GameId, order: seq<PlayerId>, word: string)
    requires Good(c) && gameId !in c.record.started && multiset(order) == multiset(Ids(c.live.room.players))
    ensures var t := StartGame(c.live, gameId, order, word);
            Books(Tracked(t, NoteStart(c.record, c.live, gameId, t)))
  {
    var s := c.live;
    if s.room.phase == Playing || |s.room.players| < MIN_PLAYERS_TO_START {
      BooksIgnoreRest(c, c.(live := StartGame(s, gameId, order, word)));
    } else {
      AnnouncedIsUnsettled(s, gameId, order);
      NewGameKeepsBooks(c, gameId, order);
      var blank := Blank(c.record, gameId, s.world.now, |s.room.players|);
      StartRoundKeepsBooks(Tracked(Announced(s, gameId, order), blank), word, {});
    }
  }

  // ---------------------------------------------------------------- players come and go

  lemma SeatKeepsScores(players: seq<Player>, p: Player, h: Record)
    requires ScoresBalance(players, h) && ScoresEarned(players, h.drawers, h.solutions) && Newcomers(players, h)
    requires p.score == 0 && p.id !in h.seen
    ensures ScoresBalance(players + [p], h) && ScoresEarned(players + [p], h.drawers, h.solutions)
  {
    assert (players + [p])[..|players|] == players;
    StrangersEarnNothing(h.solutions, h.drawers, p.id);
  }

  lemma SeatKeepsMarks(players: seq<Player>, p: Player, h: Record, round: nat, solved: set<PlayerId>)
    requires Newcomers(players, h) && p.id !in h.seen && SolversMarked(round, solved, players, h.solutions)
    ensures SolversMarked(round, solved, players + [p], h.solutions)
  {
    assert Ids(players + [p]) == Ids(players) + [p.id];
  }

  lemma SeatKeepsRounds(s: Live, h: Record, id: PlayerId, userId: Option<UserId>, nickname: string)
    requires RoundsBalance(s.room, h) && EveryoneCalled(s.room, h.drawers, h.atStart) && id !in h.drawers
    ensures var r := Seat(s, id, userId, nickname).room;
            && RoundsBalance(r, h.(joins := h.joins + if s.room.phase == Playing then 1 else 0))
            && EveryoneCalled(r, h.drawers, h.atStart)
  {
    var r := Seat(s, id, userId, nickname).room;
    assert Ids(r.players) == Ids(s.room.players) + [id];
  }

  lemma SeatKeepsBooks(c: Tracked, id: PlayerId, userId: Option<UserId>, nickname: string)
    requires Books(c) && id !in c.record.seen
    ensures var t := Seat(c.live, id, userId, nickname);
            id in Ids(t.room.players) && Books(Tracked(t, NoteJoin(c.record, c.live, id, t)))
  {
    var r, p := c.live.room, Player(id, userId, nickname, 0);
    assert Ids(r.players + [p]) == Ids(r.players) + [id];
    SeatKeepsScores(r.players, p, c.record);
    if r.drawerId.Some? {
      SeatKeepsMarks(r.players, p, c.record, r.round, r.solved);
    }
    SeatKeepsRounds(c.live, c.record, id, userId, nickname);
    assert Newcomers(r.players + [p], NoteJoin(c.record, c.live, id, Seat(c.live, id, userId, nickname)));
  }

  lemma JoinKeepsBooks(c: Tracked, id: PlayerId, userId: Option<UserId>, nickname: string)
    requires Good(c) && id !in c.record.seen
    ensures var t := CommitJoin(c.live, id, userId, nickname);
            Books(Tracked(t, NoteJoin(c.record, c.live, id, t)))
  {
    if !IsFull(c.live) {
      var seated := Seat(c.live, id, userId, nickname);
      SeatKeepsBooks(c, id, userId, nickname);
      var h := NoteJoin(c.record, c.live, id, seated);
      BooksIgnoreRest(Tracked(seated, h), Tracked(CommitJoin(c.live, id, userId, nickname), h));
    }
  }

  lemma VacateKeepsScores(players: seq<Player>, id: PlayerId, h: Record)
    requires Distinct(Ids(players)) && id in Ids(players)
    requires ScoresBalance(players, h) && ScoresEarned(players, h.drawers, h.solutions)
    ensures ScoresBalance(Evict(players, id), h.(forfeited := h.forfeited + Find(players, id).value.score))
    ensures ScoresEarned(Evict(players, id), h.drawers, h.solutions)
  {
    TotalOfEvict(players, id);
    HeldByOne(players, id);
    var rest := Evict(players, id);
    forall i | 0 <= i < |rest| ensures rest[i].score == Earned(h.solutions, h.drawers, rest[i].id) {
      StaysWereThere(players, id, i);
    }
  }

  lemma VacateKeepsRounds(s: Live, h: Record, id: PlayerId)
    requires RoundsBalance(s.room, h) && EveryoneCalled(s.room, h.drawers, h.atStart) && Distinct(s.room.drawerQueue)
    ensures var r := Vacate(s, id).room;
            && RoundsBalance(r, h.(skipped := h.skipped + if id in s.room.drawerQueue then 1 else 0))
            && EveryoneCalled(r, h.drawers, h.atStart)
  {
    VacateLists(s, id);
  }

  lemma VacateKeepsBooks(c: Tracked, id: PlayerId)
    requires Good(c) && id in Ids(c.live.room.players)
    ensures Books(Tracked(Vacate(c.live, id), NoteLeave(c.record, c.live, id)))
  {
    var s, t, h := c.live, Vacate(c.live, id), NoteLeave(c.record, c.live, id);
    VacateKeepsScores(s.room.players, id, c.record);
    VacateKeepsRounds(s, c.record, id);
    VacateLists(s, id);
    assert RoundsBalance(t.room, h) && Newcomers(t.room.players, h);
    assert s.room.drawerId.Some? ==> SolversMarked(t.room.round, t.room.solved, t.room.players, h.solutions);
  }

  lemma LeaveKeepsBooks(c: Tracked, id: PlayerId)
    requires Good(c) && id in Ids(c.live.room.players)
    ensures Books(Tracked(HandleClose(c.live, id), NoteLeave(c.record, c.live, id)))
  {
    var s, h := c.live, NoteLeave(c.record, c.live, id);
    var left := Farewell(s, id);
    FarewellKeepsShape(s, id);
    VacateKeepsBooks(c, id);
    BooksIgnoreRest(Tracked(Vacate(s, id), h), Tracked(left, h));
    if s.room.phase == Playing {
      DepartureKeepsBooks(Tracked(left, h), id);
    }
  }

  lemma DepartureKeepsBooks(c: Tracked, id: PlayerId)
    requires Books(c) && c.live.room.phase == Playing && c.live.room.gameId.Some? && c.live.room.players != []
    ensures Books(c.(live := AfterDeparture(c.live, id)))
  {
    var s := c.live;
    if |s.room.players| < MIN_PLAYERS_TO_START {
      var told := c.(live := Announce(s, TooFewPlayersLeft));
      BooksIgnoreRest(c, told);
      EndGameKeepsBooks(told);
    } else if s.room.drawerId == Some(id) {
      var told := c.(live := Announce(s, DrawerLeft));
      BooksIgnoreRest(c, told);
      EndRoundKeepsBooks(told);
    } else {
      EndRoundKeepsBooks(c);
    }
  }

  // ---------------------------------------------------------------- a right answer

  function Solved(h: Record, s: Live, id: PlayerId): Record {
    h.(solutions := h.solutions + [Solution(id, s.room.round, TimeLeft(s))])
  }

  lemma ScoreBalances(s: Live, h: Record, id: PlayerId)
    requires ScoresBalance(s.room.players, h) && Distinct(Ids(s.room.players)) && id in Ids(s.room.players)
    requires s.room.drawerId.Some? && s.room.drawerId.value in Ids(s.room.players)
    ensures ScoresBalance(Score(s, id).room.players, Solved(h, s, id))
  {
    var gain := SolverGain(TimeLeft(s));
    GainIsReward(TimeLeft(s));
    TotalOfAward(s.room.players, id, gain);
    TotalOfAward(Award(s.room.players, id, gain), s.room.drawerId.value, DRAWER_SCORE_PER_SOLVER);
    assert Solved(h, s, id).solutions[..|h.solutions|] == h.solutions;
  }

  lemma AwardBoth(ps: seq<Player>, id: PlayerId, gain: nat, d: PlayerId, share: nat, i: nat)
    requires i < |ps|
    ensures var paid := Award(Award(ps, id, gain), d, share);
            && paid[i].id == ps[i].id
            && paid[i].score == ps[i].score + (if ps[i].id == id then gain else 0) + if ps[i].id == d then share else 0
  {
  }

  /** Solver and drawer, and nobody else, are paid what the answer brings them. */
  lemma ScoreIsEarned(s: Live, h: Record, id: PlayerId)
    requires ScoresEarned(s.room.players, h.drawers, h.solutions)
    requires s.room.drawerId.Some? && h.drawers != [] && s.room.round == |h.drawers|
    requires s.room.drawerId.value == h.drawers[|h.drawers| - 1] != id
    ensures ScoresEarned(Score(s, id).room.players, h.drawers, Solved(h, s, id).solutions)
  {
    var k, ps, gain := Solution(id, s.room.round, TimeLeft(s)), s.room.players, SolverGain(TimeLeft(s));
    var paid := Award(Award(ps, id, gain), s.room.drawerId.value, DRAWER_SCORE_PER_SOLVER);
    assert Score(s, id).room.players == paid;
    GainIsReward(TimeLeft(s));
    forall i | 0 <= i < |paid| ensures paid[i].score == Earned(h.solutions + [k], h.drawers, paid[i].id) {
      EarnedSnoc(h.solutions, k, h.drawers, ps[i].id);
      AwardBoth(ps, id, gain, s.room.drawerId.value, DRAWER_SCORE_PER_SOLVER, i);
    }
  }

  /** A player who is present and not marked has no solution in this round yet. */
  lemma FairnessGrows(drawers: seq<PlayerId>, solutions: seq<Solution>, k: Solution, solved: set<PlayerId>,
                      players: seq<Player>)
    requires SolutionsFair(drawers, solutions) && FairSolution(drawers, k)
    requires SolversMarked(k.round, solved, players, solutions) && k.id !in solved && k.id in Ids(players)
    ensures SolutionsFair(drawers, solutions + [k])
  {
  }

  lemma MarksGrow(round: nat, solved: set<PlayerId>, players: seq<Player>, solutions: seq<Solution>, k: Solution,
                  paid: seq<Player>)
    requires SolversMarked(round, solved, players, solutions) && Ids(paid) == Ids(players)
    ensures SolversMarked(round, solved + {k.id}, paid, solutions + [k])
  {
  }

  /** What the parts of the books that list players and rounds need to know of a right answer. */
  lemma ScoreKeepsLists(s: Live, h: Record, id: PlayerId)
    requires RoundsBalance(s.room, h) && EveryoneCalled(s.room, h.drawers, h.atStart) && Newcomers(s.room.players, h)
    requires id in Ids(s.room.players)
    ensures var t, h' := Score(s, id), Solved(h, s, id);
            && Ids(t.room.players) == Ids(s.room.players)
            && RoundsBalance(t.room, h') && EveryoneCalled(t.room, h'.drawers, h'.atStart)
            && Newcomers(t.room.players, h')
  {
  }

  lemma ScoreKeepsBooks(c: Tracked, id: PlayerId)
    requires Good(c) && Drawing(c.live) && c.live.room.phase == Playing
    requires id in Ids(c.live.room.players) && IsGuesser(c.live, id)
    ensures Books(Tracked(Score(c.live, id), Solved(c.record, c.live, id)))
  {
    var s, h := c.live, c.record;
    var k := Solution(id, s.room.round, TimeLeft(s));
    ScoreKeepsLists(s, h, id);
    ScoreBalances(s, h, id);
    ScoreIsEarned(s, h, id);
    FairnessGrows(h.drawers, h.solutions, k, s.room.solved, s.room.players);
    MarksGrow(s.room.round, s.room.solved, s.room.players, h.solutions, k, Score(s, id).room.players);
  }

  lemma SolveKeepsBooks(c: Tracked, player: Player)
    requires Good(c) && Drawing(c.live) && c.live.room.phase == Playing
    requires player.id in Ids(c.live.room.players) && IsGuesser(c.live, player.id)
    ensures Books(Tracked(Solve(c.live, player), Solved(c.record, c.live, player.id)))
  {
    ScoreKeepsBooks(c, player.id);
    var scored, h := Score(c.live, player.id), Solved(c.record, c.live, player.id);
    var told := Broadcast(scored, CorrectAnswer(player.id, player.nickname, Cards(scored.room.players)), None);
    BooksIgnoreRest(Tracked(scored, h), Tracked(told, h));
    EndRoundKeepsBooks(Tracked(told, h));
  }

  lemma SolveMarks(s: Live, player: Player)
    ensures Solve(s, player).room.solved == s.room.solved + {player.id}
  {
  }

  /** What the observer notes of a line. */
  lemma SayRecorded(c: Tracked, id: PlayerId, text: string)
    requires Inv(c.live)
    ensures NoteSay(c.record, c.live, id, HandleChat(c.live, id, text))
            == if Answers(c.live, id, text) then Solved(c.record, c.live, id) else c.record
  {
    ChatCases(c.live, id, text);
    if Answers(c.live, id, text) {
      SolveMarks(c.live, Find(c.live.room.players, id).value);
    }
  }

  lemma SayKeepsBooks(c: Tracked, id: PlayerId, text: string)
    requires Good(c)
    ensures var t := HandleChat(c.live, id, text); Books(Tracked(t, NoteSay(c.record, c.live, id, t)))
  {
    SayRecorded(c, id, text);
    ChatCases(c.live, id, text);
    if Answers(c.live, id, text) {
      SolveKeepsBooks(c, Find(c.live.room.players, id).value);
    } else {
      BooksIgnoreRest(c, Tracked(HandleChat(c.live, id, text), c.record));
    }
  }

  // ---------------------------------------------------------------- timeouts

  lemma AlertKeepsBooks(c: Tracked, timer: TimerId, word: string)
    requires Good(c) && Enabled(c.live, Alert(timer, word))
    ensures var t := Fire(c.live, timer, word); Books(Tracked(t, NoteAlert(c.record, c.live, t)))
  {
    var s := c.live;
    AlertFindsGame(s, timer, word);
    var due := Tracked(s.(world := s.world.(alarms := s.world.alarms - {timer})), c.record);
    BooksIgnoreRest(c, due);
    match s.world.alarms[timer].kind
    case RoundOver => EndRoundKeepsBooks(due);
    case NextRound => IntermissionKeepsBooks(due, word);
  }

  lemma IntermissionKeepsBooks(c: Tracked, word: string)
    requires Books(c) && Unsettled(c.live) && c.live.room.drawerId.None?
    requires |c.live.room.players| >= MIN_PLAYERS_TO_START
    ensures var t := AfterIntermission(c.live, word); Books(Tracked(t, NoteAlert(c.record, c.live, t)))
  {
    if c.live.room.drawerQueue == [] {
      EndGameKeepsBooks(c);
    } else {
      StartRoundKeepsBooks(c, word, {});
    }
  }

  // ---------------------------------------------------------------- all events

  lemma InkKeepsBooks(c: Tracked, id: PlayerId, t: Live)
    requires Books(c) && t.room.(strokes := c.live.room.strokes) == c.live.room
    requires t.world.published == c.live.world.published
    ensures Books(Tracked(t, NoteInk(c.record, c.live, id)))
  {
    BooksIgnoreRest(c, Tracked(t, NoteInk(c.record, c.live, id)));
  }

  lemma NextKeepsBooks(c: Tracked, e: Event)
    requires Good(c) && May(c, e)
    ensures Books(Next(c, e))
  {
    match e
    case Join(id, userId, nickname) => JoinKeepsBooks(c, id, userId, nickname);
    case Leave(id) => LeaveKeepsBooks(c, id);
    case Say(id, text) => SayKeepsBooks(c, id, text);
    case Start(gameId, order, word) => StartGameKeepsBooks(c, gameId, order, word);
    case Alert(t, word) => AlertKeepsBooks(c, t, word);
    case Paint(id, stroke) => InkKeepsBooks(c, id, HandleDraw(c.live, id, stroke));
    case Wipe(id) => InkKeepsBooks(c, id, HandleDrawClear(c.live, id));
    case _ => BooksIgnoreRest(c, Next(c, e));
  }

  /** Every event keeps the room invariant and the books. */
  lemma {:induction false} NextKeepsGood(c: Tracked, e: Event)
    requires Good(c) && May(c, e)
    ensures Good(Next(c, e))
  {
    StepKeepsInv(c.live, e);
    NextKeepsBooks(c, e);
  }

  /** In every run of a new room the room invariant holds and the books balance. */
  lemma {:induction false} RunsStayGood(id: RoomId, now: int, es: seq<Event>)
    requires Run(Opening(id, now), es)
    ensures Good(After(Opening(id, now), es))
    decreases |es|
  {
    if es == [] {
      assert Good(Opening(id, now));
    } else {
      var n := |es| - 1;
      RunsStayGood(id, now, es[..n]);
      NextKeepsGood(After(Opening(id, now), es[..n]), es[n]);
    }
  }

  // ---------------------------------------------------------------- what the books say about every run

  /** No points appear or vanish: seats and leavers together hold what the solutions of the game were worth. */
  lemma {:induction false} ScoresAreConserved(id: RoomId, now: int, es: seq<Event>)
    requires Run(Opening(id, now), es)
    ensures var c := After(Opening(id, now), es);
            Total(c.live.room.players) + c.record.forfeited == Paid(c.record.solutions)
  {
    RunsStayGood(id, now, es);
  }

  /** Everyone present holds what they earned: for their own answers, and 10 for each answer in a round they drew. */
  lemma {:induction false} ScoresAreEarned(id: RoomId, now: int, es: seq<Event>)
    requires Run(Opening(id, now), es)
    ensures var c := After(Opening(id, now), es);
            forall p :: p in c.live.room.players ==> p.score == Earned(c.record.solutions, c.record.drawers, p.id)
  {
    RunsStayGood(id, now, es);
  }

  /**
   * The code's gain for a right answer with that much time left is 10 plus the whole number nearest to 90 parts of the
   * 60 s, halves up; it lies between 10 and 100 and is never less for answering earlier.
   */
  lemma SolverGainRounds(remaining: nat)
    ensures var bonus := SolverGain(remaining) - 10; 60000 * bonus <= 90 * remaining + 30000 < 60000 * bonus + 60000
    ensures remaining <= 60000 ==> 10 <= SolverGain(remaining) <= 100
    ensures forall quick: nat :: remaining <= quick ==> SolverGain(remaining) <= SolverGain(quick)
  {
    GainIsReward(remaining);
    forall quick: nat | remaining <= quick ensures SolverGain(remaining) <= SolverGain(quick) {
      GainIsReward(quick);
    }
  }

  /** Nobody is paid as a guesser twice in one round, or in a round they draw, or outside [10, 100]. */
  lemma {:induction false} GuessersArePaidFairly(id: RoomId, now: int, es: seq<Event>)
    requires Run(Opening(id, now), es)
    ensures var h := After(Opening(id, now), es).record;
            && (forall i, j :: 0 <= i < j < |h.solutions| && h.solutions[i].id == h.solutions[j].id
                               ==> h.solutions[i].round != h.solutions[j].round)
            && (forall i :: 0 <= i < |h.solutions| ==>
                  && 1 <= h.solutions[i].round <= |h.drawers|
                  && h.drawers[h.solutions[i].round - 1] != h.solutions[i].id
                  && 10 <= Reward(h.solutions[i].remaining) <= 100)
  {
    RunsStayGood(id, now, es);
    var h := After(Opening(id, now), es).record;
    forall i | 0 <= i < |h.solutions| ensures 10 <= Reward(h.solutions[i].remaining) <= 100 {
      assert FairSolution(h.drawers, h.solutions[i]);
    }
  }

  /**
   * During a game, rounds begun + places left in the queue + places given up = planned rounds + newcomers, where one
   * round is planned for each player at the start, ten at most.
   */
  lemma {:induction false} RoundsAreAccountedFor(id: RoomId, now: int, es: seq<Event>)
    requires Run(Opening(id, now), es)
    ensures var c := After(Opening(id, now), es);
            && Distinct(c.record.drawers)
            && (c.live.room.phase == Playing ==>
                  && c.live.room.totalRounds == (if c.record.atStart < 10 then c.record.atStart else 10)
                  && c.live.room.round == |c.record.drawers|
                  && c.live.room.round + |c.live.room.drawerQueue| + c.record.skipped
                     == c.live.room.totalRounds + c.record.joins)
  {
    RunsStayGood(id, now, es);
  }

  /** Each game started is published exactly once, when it is over, in order, and in a form the receiver accepts. */
  lemma {:induction false} OneResultPerGame(id: RoomId, now: int, es: seq<Event>)
    requires Run(Opening(id, now), es)
    ensures var c := After(Opening(id, now), es);
            var published := GamesOf(c.live.world.published);
            && Distinct(published)
            && (c.live.room.phase == Playing ==>
                  c.live.room.gameId.Some? && c.record.started == published + [c.live.room.gameId.value])
            && (c.live.room.phase != Playing ==> c.record.started == published)
            && forall i :: 0 <= i < |published| ==> Acceptable(c.live.world.published[i])
  {
    RunsStayGood(id, now, es);
    var c := After(Opening(id, now), es);
    var published := GamesOf(c.live.world.published);
    assert forall i :: 0 <= i < |published| ==> c.record.started[i] == published[i];
  }

  /** While a round is drawn someone is left to guess, and while a game is on exactly one timeout is pending. */
  lemma {:induction false} NoRoundIdles(id: RoomId, now: int, es: seq<Event>)
    requires Run(Opening(id, now), es)
    ensures var s := After(Opening(id, now), es).live;
            && (s.room.phase == Playing ==>
                  && |s.room.players| >= MIN_PLAYERS_TO_START
                  && s.room.roundTimer.Some? && s.world.alarms.Keys == {s.room.roundTimer.value})
            && (s.room.phase != Playing ==> s.world.alarms == map[] && s.room.word.None?)
            && (s.room.drawerId.Some? ==>
                  exists guesser :: guesser in Ids(s.room.players) && IsGuesser(s, guesser))
  {
    RunsStayGood(id, now, es);
    var s := After(Opening(id, now), es).live;
    if s.room.drawerId.Some? {
      assert UnsolvedGuessers(s) > 0;
      UnsolvedCounts(s.room.players, s.room.drawerId, s.room.solved);
    }
  }
}
