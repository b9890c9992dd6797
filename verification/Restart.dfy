/**
 * A run in which a client is left with points that the server has already reset: two players start a game, the
 * guesser wins 100 points, the drawer leaves, which ends the game, a third player joins and a new game starts.
 */
module Restart {
  import opened Basics
  import opened Protocol
  import opened Text
  import opened Words
  import opened Game
  import opened RoomInvariant
  import opened History
  import opened Client
  import opened Replica

  function Story(word: string): seq<Event> {
    [Join(0, None, "a"), Join(1, None, "b"), Start(7, [0, 1], word), Say(1, word), Leave(0), Join(2, None, "c")]
  }

  lemma StoryTails(word: string)
    ensures Story(word) == [Join(0, None, "a")] + Story(word)[1..]
    ensures Story(word)[1..] == [Join(1, None, "b")] + Story(word)[2..]
    ensures Story(word)[2..] == [Start(7, [0, 1], word)] + Story(word)[3..]
    ensures Story(word)[3..] == [Say(1, word)] + [Leave(0), Join(2, None, "c")]
  {
  }

  function Seats(a: nat, b: nat): seq<Player> {
    [Player(0, None, "a", a), Player(1, None, "b", b)]
  }

  const LAST_SEATS := [Player(1, None, "b", 100), Player(2, None, "c", 0)]

  /** The word may be drawn, and saying it is guessing it. */
  predicate Sayable(word: string) {
    word in Candidates([]) && word != "" && Clip(Trim(word), MAX_CHAT_LENGTH) == word
  }

  lemma ShortWordIsSayable()
    ensures Sayable("성")
  {
    assert WORDS[29] == "성";
    assert "성" in Pool(WORDS, []);
  }

  // ---------------------------------------------------------------- paths

  /** The events es lead from c to d. */
  predicate Path(c: Tracked, es: seq<Event>, d: Tracked)
    decreases |es|
  {
    if es == [] then c == d else May(c, es[0]) && Path(Next(c, es[0]), es[1..], d)
  }

  lemma PathStep(c: Tracked, e: Event, es: seq<Event>, d: Tracked)
    requires May(c, e) && Path(Next(c, e), es, d)
    ensures Path(c, [e] + es, d)
  {
    assert ([e] + es)[1..] == es;
  }

  lemma Shift(before: seq<Event>, es: seq<Event>)
    ensures if es == [] then before + es == before else before + [es[0]] + es[1..] == before + es
  {
  }

  /** A path from where a run led goes on with the run. */
  lemma {:induction false} PathRuns(c: Tracked, before: seq<Event>, m: Tracked, es: seq<Event>, d: Tracked)
    requires Run(c, before) && After(c, before) == m && Path(m, es, d)
    ensures Run(c, before + es) && After(c, before + es) == d
    decreases |es|
  {
    Shift(before, es);
    if es != [] {
      RunGrows(c, before, es[0]);
      PathRuns(c, before + [es[0]], Next(m, es[0]), es[1..], d);
    }
  }

  // ---------------------------------------------------------------- the stages of the story

  /** What the story needs of the room between its events, besides the room invariant. */
  predicate Stage(s: Live, players: seq<Player>, phase: Phase) {
    && s.room.players == players && s.room.phase == phase && s.room.capacity == DEFAULT_ROOM_CAPACITY
    && (1 in Ids(players) ==> 1 in s.world.open) && s.world.now == 0
  }

  predicate Known(h: Record, seen: set<PlayerId>, started: seq<GameId>) {
    h.seen == seen && h.started == started
  }

  lemma Enter(c: Tracked, id: PlayerId, nickname: string)
    requires id !in c.record.seen && id !in Ids(c.live.room.players)
    requires c.live.room.capacity == DEFAULT_ROOM_CAPACITY && |c.live.room.players| < DEFAULT_ROOM_CAPACITY
    ensures var e := Join(id, None, nickname);
            && May(c, e)
            && var d := Next(c, e);
               && d.live.room == Seat(c.live, id, None, nickname).room
               && d.live.world.open == c.live.world.open + {id} && d.live.world.now == c.live.world.now
               && d.record.seen == c.record.seen + {id} && d.record.started == c.record.started
  {
    var seated := Seat(c.live, id, None, nickname).room.players;
    assert Ids(seated) == Ids(c.live.room.players) + [id];
    assert id in Ids(seated);
  }

  /** Player 0 draws. */
  predicate FirstRound(s: Live, word: string) {
    && Stage(s, Seats(0, 0), Playing) && s.room.drawerId == Some(0) && s.room.word == Some(word)
    && s.room.roundEndsAt == Some(ROUND_DURATION_MS) && s.room.solved == {}
  }

  lemma RoundStarts(s: Live, word: string)
    requires s.room.drawerQueue != [] && s.room.drawerQueue[0] == 0 && Find(s.room.players, 0).Some?
    requires Stage(s, Seats(0, 0), Playing)
    ensures FirstRound(StartRound(s, word), word)
  {
    assert ClearRoundTimer(s).room == s.room.(roundTimer := None) && ClearRoundTimer(s).world.now == 0;
  }

  lemma GameStarts(s: Live, word: string)
    requires Stage(s, Seats(0, 0), Waiting)
    ensures FirstRound(StartGame(s, 7, [0, 1], word), word)
  {
    var told := Announced(s, 7, [0, 1]);
    assert ZeroScores(Seats(0, 0)) == Seats(0, 0);
    SeatIds();
    assert told.room.drawerQueue[0] == 0 && 0 in Ids(told.room.players);
    RoundStarts(told, word);
  }

  lemma SeatIds()
    ensures Ids(Seats(0, 0)) == [0, 1] && Ids(LAST_SEATS) == [1, 2]
  {
  }

  lemma MayStart(c: Tracked, gameId: GameId, order: seq<PlayerId>, word: string)
    requires Ids(c.live.room.players) == order && gameId !in c.record.started && Sayable(word)
    ensures May(c, Start(gameId, order, word))
  {
  }

  lemma StartIsNoted(s: Live, h: Record, t: Live)
    requires s.room.phase == Waiting && t.room.phase == Playing && Known(h, {0, 1}, [])
    ensures Known(NoteStart(h, s, 7, t), {0, 1}, [7])
  {
    assert [] + [7] == [7];
  }

  lemma NextStarts(c: Tracked, word: string)
    requires Stage(c.live, Seats(0, 0), Waiting) && Known(c.record, {0, 1}, []) && May(c, Start(7, [0, 1], word))
    ensures var d := Next(c, Start(7, [0, 1], word)); FirstRound(d.live, word) && Known(d.record, {0, 1}, [7])
  {
    var t := StartGame(c.live, 7, [0, 1], word);
    assert Next(c, Start(7, [0, 1], word)) == Tracked(t, NoteStart(c.record, c.live, 7, t));
    GameStarts(c.live, word);
    StartIsNoted(c.live, c.record, t);
  }

  lemma WinnerIsPaid(s: Live, word: string)
    requires FirstRound(s, word)
    ensures Score(s, 1).room.players == Seats(10, 100)
  {
    assert RemainingMs(s) == Some(60000) && SolverGain(60000) == 100;
    assert Award(Seats(0, 0), 1, 100) == Seats(0, 100);
    assert Award(Seats(0, 100), 0, DRAWER_SCORE_PER_SOLVER) == Seats(10, 100);
  }

  lemma SolveKeepsGame(s: Live, player: Player)
    requires s.room.phase == Playing
    ensures var t := Solve(s, player);
            && t.room.players == Score(s, player.id).room.players && t.room.phase == Playing
            && t.room.capacity == s.room.capacity && t.world.open == s.world.open && t.world.now == s.world.now
  {
  }

  lemma GuesserWins(s: Live, word: string)
    requires FirstRound(s, word) && Inv(s) && Sayable(word)
    ensures Stage(HandleChat(s, 1, word), Seats(10, 100), Playing)
  {
    assert Ids(Seats(0, 0))[1] == 1;
    ChatCases(s, 1, word);
    assert Answers(s, 1, word);
    SolveKeepsGame(s, Find(s.room.players, 1).value);
    WinnerIsPaid(s, word);
  }

  lemma DrawerLeaves(s: Live)
    requires Stage(s, Seats(10, 100), Playing) && Inv(s)
    ensures Stage(HandleClose(s, 0), [Player(1, None, "b", 100)], Ended) && ScoresTold(HandleClose(s, 0).world.mail)
  {
    var left := Farewell(s, 0);
    OneStays();
    FarewellKeepsShape(s, 0);
    GameEndsTold(Announce(left, TooFewPlayersLeft));
  }

  lemma OneStays()
    ensures Evict(Seats(10, 100), 0) == [Player(1, None, "b", 100)] && Ids(Seats(10, 100)) == [0, 1]
    ensures Ids([Player(1, None, "b", 100)]) == [1]
  {
    var a, b := Seats(10, 100)[0], Seats(10, 100)[1];
    EvictSnoc([], a, 0);
    EvictSnoc([a], b, 0);
    assert [] + [a] == [a] && [a] + [b] == Seats(10, 100);
  }

  lemma GameEndsTold(s: Live)
    requires s.room.phase == Playing
    ensures ScoresTold(EndGame(s).world.mail)
  {
    var over := CloseGame(s);
    var m := GameEnded(Cards(over.room.players));
    ToldAfter(over.world.mail, Envelope(Receivers(over, None), m));
    assert EndGame(s).world.mail == Broadcast(over, m, None).world.mail;
  }

  // ---------------------------------------------------------------- from each stage to the end

  predicate TheEnd(d: Tracked) {
    Stage(d.live, LAST_SEATS, Ended) && ScoresTold(d.live.world.mail) && Known(d.record, {0, 1, 2}, [7])
  }

  lemma FromEndOfGame(c: Tracked) returns (d: Tracked)
    requires Stage(c.live, [Player(1, None, "b", 100)], Ended) && ScoresTold(c.live.world.mail)
    requires Known(c.record, {0, 1}, [7])
    ensures Path(c, [Join(2, None, "c")], d) && TheEnd(d)
  {
    assert Ids(c.live.room.players) == [1];
    assert 1 in Ids(c.live.room.players);
    Enter(c, 2, "c");
    JoinShown(c.live, 2, None, "c", 1);
    d := Next(c, Join(2, None, "c"));
    PathStep(c, Join(2, None, "c"), [], d);
  }

  lemma FromVictory(c: Tracked) returns (d: Tracked)
    requires Stage(c.live, Seats(10, 100), Playing) && Known(c.record, {0, 1}, [7]) && Inv(c.live)
    ensures Path(c, [Leave(0), Join(2, None, "c")], d) && TheEnd(d)
  {
    OneStays();
    DrawerLeaves(c.live);
    assert May(c, Leave(0));
    d := FromEndOfGame(Next(c, Leave(0)));
    PathStep(c, Leave(0), [Join(2, None, "c")], d);
  }

  lemma FromFirstRound(c: Tracked, word: string) returns (d: Tracked)
    requires FirstRound(c.live, word) && Known(c.record, {0, 1}, [7]) && Inv(c.live) && Sayable(word)
    ensures Path(c, Story(word)[3..], d) && TheEnd(d)
  {
    GuesserWins(c.live, word);
    ChatSettles(c.live, 1, word);
    d := FromVictory(Next(c, Say(1, word)));
    StoryTails(word);
    PathStep(c, Say(1, word), [Leave(0), Join(2, None, "c")], d);
  }

  lemma FromLobby(c: Tracked, word: string) returns (d: Tracked)
    requires Stage(c.live, Seats(0, 0), Waiting) && Known(c.record, {0, 1}, []) && Inv(c.live) && Sayable(word)
    ensures Path(c, Story(word)[2..], d) && TheEnd(d)
  {
    var e := Start(7, [0, 1], word);
    SeatIds();
    MayStart(c, 7, [0, 1], word);
    NextStarts(c, word);
    StartGameSettles(c.live, 7, [0, 1], word);
    d := FromFirstRound(Next(c, e), word);
    StoryTails(word);
    PathStep(c, e, Story(word)[3..], d);
  }

  lemma SecondGuest(c: Tracked)
    requires c.live.room == NewRoom("ROOM", 0).room.(players := [Player(0, None, "a", 0)]) && c.live.world.now == 0
    requires Known(c.record, {0}, []) && Inv(c.live)
    ensures var e := Join(1, None, "b");
            && May(c, e) && Stage(Next(c, e).live, Seats(0, 0), Waiting) && Known(Next(c, e).record, {0, 1}, [])
            && Inv(Next(c, e).live)
  {
    assert Ids(c.live.room.players) == [0];
    Enter(c, 1, "b");
    JoinSettles(c.live, 1, None, "b");
    assert [Player(0, None, "a", 0)] + [Player(1, None, "b", 0)] == Seats(0, 0);
  }

  lemma FromOneGuest(c: Tracked, word: string) returns (d: Tracked)
    requires c.live.room == NewRoom("ROOM", 0).room.(players := [Player(0, None, "a", 0)]) && c.live.world.now == 0
    requires Known(c.record, {0}, []) && Inv(c.live) && Sayable(word)
    ensures Path(c, Story(word)[1..], d) && TheEnd(d)
  {
    var e := Join(1, None, "b");
    SecondGuest(c);
    d := FromLobby(Next(c, e), word);
    StoryTails(word);
    PathStep(c, e, Story(word)[2..], d);
  }

  lemma FromOpening(word: string) returns (d: Tracked)
    requires Sayable(word)
    ensures Path(Opening("ROOM", 0), Story(word), d) && TheEnd(d)
  {
    var c, e := Opening("ROOM", 0), Join(0, None, "a");
    Enter(c, 0, "a");
    JoinSettles(c.live, 0, None, "a");
    assert [] + [Player(0, None, "a", 0)] == [Player(0, None, "a", 0)];
    d := FromOneGuest(Next(c, e), word);
    StoryTails(word);
    PathStep(c, e, Story(word)[1..], d);
  }

  // ---------------------------------------------------------------- the restart

  /** At the end of the story the clients are right; the next start makes one of them wrong. */
  lemma StaleAfterRestart(s: Live, painters: set<PlayerId>, word: string)
    requires Stage(s, LAST_SEATS, Ended) && ScoresTold(s.world.mail) && Faithful(s, painters, 1)
    ensures var t := StartGame(s, 8, [1, 2], word);
            && Shown(s, 1).players == Cards(LAST_SEATS) && Shown(t, 1).players == Cards(LAST_SEATS)
            && t.room.players == [Player(1, None, "b", 0), Player(2, None, "c", 0)]
  {
    SeatIds();
    assert [1, 2][0] in Ids(LAST_SEATS);
    ScoresAtRestart(s, 8, [1, 2], word, 1);
    assert ZeroScores(LAST_SEATS) == [Player(1, None, "b", 0), Player(2, None, "c", 0)];
  }

  lemma NewGameMayStart(c: Tracked, word: string)
    requires TheEnd(c) && Sayable(word)
    ensures May(c, Start(8, [1, 2], word)) && 1 in c.live.world.open
  {
    SeatIds();
    MayStart(c, 8, [1, 2], word);
    assert [1, 2][0] in Ids(LAST_SEATS);
  }

  /**
   * A run after which a new game may start, and the start leaves the client of player 1, right until then, with 100
   * points where the server holds none.
   */
  lemma RestartGoesStale(word: string)
    requires Sayable(word)
    ensures Run(Opening("ROOM", 0), Story(word))
    ensures var c := After(Opening("ROOM", 0), Story(word));
            && May(c, Start(8, [1, 2], word)) && 1 in c.live.world.open
            && Shown(c.live, 1).players == Cards(c.live.room.players)
            && var t := StartGame(c.live, 8, [1, 2], word);
               && Shown(t, 1).players == Cards([Player(1, None, "b", 100), Player(2, None, "c", 0)])
               && t.room.players == [Player(1, None, "b", 0), Player(2, None, "c", 0)]
  {
    var d := FromOpening(word);
    PathRuns(Opening("ROOM", 0), [], Opening("ROOM", 0), Story(word), d);
    assert [] + Story(word) == Story(word);
    ClientsMirrorTheServer("ROOM", 0, Story(word));
    NewGameMayStart(d, word);
    StaleAfterRestart(d.live, d.record.painters, word);
  }
}
