/** How long a game can last, and why it ends. */
module Timing {
  import opened Basics
  import opened Protocol
  import opened Words
  import opened Game
  import opened RoomInvariant
  import opened History
  import opened Accounting

  // ---------------------------------------------------------------- bounded time

  /** Timeouts fire at their deadline: the clock does not pass a pending one. */
  predicate Punctual(s: Live, e: Event) {
    e.Tick? ==> forall t :: t in s.world.alarms ==> e.now <= s.world.alarms[t].due
  }

  predicate PunctualRun(c: Tracked, es: seq<Event>)
    requires Run(c, es)
  {
    es != [] ==>
      var n := |es| - 1;
      PunctualRun(c, es[..n]) && Punctual(After(c, es[..n]).live, es[n])
  }

  /** The latest moment the current queue can be played out. */
  function Horizon(s: Live): int
    requires OneAlarm(s, RoundOver) || OneAlarm(s, NextRound)
  {
    Due(s) + 64000 * |s.room.drawerQueue| + if s.room.drawerId.Some? then ROUND_INTERMISSION_MS else 0
  }

  /** When the game must be over: 64 s for each planned or added drawer, 4 s for each departure. */
  function Limit(totalRounds: nat, h: Record): int {
    h.startedAt + 64000 * (totalRounds + h.joins) + 4000 * h.leaves
  }

  /** The game being played can still end in time; the last one to end did. */
  predicate InTime(s: Live, h: Record) {
    && (s.room.phase == Playing ==> PlaysInTime(s, Limit(s.room.totalRounds, h)))
    && (s.room.phase == Ended && s.world.published != [] ==>
          s.world.published[|s.world.published| - 1].finishedAt <= Limit(s.room.totalRounds, h))
  }

  predicate PlaysInTime(s: Live, limit: int) {
    (OneAlarm(s, RoundOver) || OneAlarm(s, NextRound)) && s.world.now <= Due(s) && Horizon(s) <= limit
  }

  lemma EndGameInTime(s: Live, h: Record)
    requires s.room.phase == Playing && s.room.gameId.Some? && s.world.now <= Limit(s.room.totalRounds, h)
    ensures InTime(EndGame(s), h)
  {
  }

  lemma EndRoundInTime(s: Live, h: Record)
    requires Unsettled(s) && |s.room.players| >= MIN_PLAYERS_TO_START
    requires s.world.now + ROUND_INTERMISSION_MS + 64000 * |s.room.drawerQueue| <= Limit(s.room.totalRounds, h)
    ensures InTime(EndRound(s), h)
  {
    EndRoundSettles(s);
  }

  lemma StartRoundInTime(s: Live, h: Record, word: string)
    requires Unsettled(s) && |s.room.players| >= MIN_PLAYERS_TO_START && s.room.drawerQueue != []
    requires word in Candidates(s.room.usedWords)
    requires s.world.now + 64000 * |s.room.drawerQueue| <= Limit(s.room.totalRounds, h)
    ensures StartRound(s, word).room.phase == Playing && InTime(StartRound(s, word), h)
  {
    StartRoundSettles(s, word);
    assert s.room.drawerQueue[0] in s.room.drawerQueue;
    var t := StartRound(s, word);
    assert |t.room.drawerQueue| == |s.room.drawerQueue| - 1 && Due(t) == s.world.now + ROUND_DURATION_MS;
  }

  lemma DepartureInTime(s: Live, h: Record, id: PlayerId)
    requires Unsettled(s) && (OneAlarm(s, RoundOver) || OneAlarm(s, NextRound)) && s.world.now <= Due(s)
    requires Horizon(s) + 4000 <= Limit(s.room.totalRounds, h)
    ensures InTime(AfterDeparture(s, id), h)
  {
    if |s.room.players| < MIN_PLAYERS_TO_START {
      EndGameInTime(Announce(s, TooFewPlayersLeft), h);
    } else if s.room.drawerId == Some(id) {
      EndRoundInTime(Announce(s, DrawerLeft), h);
    } else if UnsolvedGuessers(s) == 0 {
      EndRoundInTime(s, h);
    }
  }

  lemma LeaveInTime(s: Live, h: Record, id: PlayerId)
    requires Inv(s) && InTime(s, h) && id in Ids(s.room.players)
    ensures InTime(HandleClose(s, id), NoteLeave(h, s, id))
  {
    if s.room.phase == Playing {
      FarewellKeepsShape(s, id);
      var left := Farewell(s, id);
      DepartureInTime(left, NoteLeave(h, s, id), id);
    }
  }

  lemma AlertInTime(s: Live, h: Record, t: TimerId, word: string)
    requires Inv(s) && InTime(s, h) && Enabled(s, Alert(t, word))
    ensures InTime(Fire(s, t, word), NoteAlert(h, s, Fire(s, t, word)))
  {
    AlertFindsGame(s, t, word);
    var due := s.(world := s.world.(alarms := s.world.alarms - {t}));
    var h' := NoteAlert(h, s, Fire(s, t, word));
    match s.world.alarms[t].kind
    case RoundOver => EndRoundInTime(due, h');
    case NextRound =>
      if due.room.drawerQueue == [] {
        EndGameInTime(due, h');
      } else {
        StartRoundInTime(due, h', word);
      }
  }

  lemma SolveInTime(s: Live, h: Record, player: Player)
    requires Inv(s) && s.room.phase == Playing && Drawing(s) && InTime(s, h) && player.id in Ids(s.room.players)
    ensures InTime(Solve(s, player), h)
  {
    var scored := Score(s, player.id);
    var told := Broadcast(scored, CorrectAnswer(player.id, player.nickname, Cards(scored.room.players)), None);
    if UnsolvedGuessers(told) == 0 {
      assert Ids(scored.room.players) == Ids(s.room.players);
      EndRoundInTime(told, h);
    }
  }

  lemma SayInTime(c: Tracked, id: PlayerId, text: string)
    requires Inv(c.live) && InTime(c.live, c.record)
    ensures var t := HandleChat(c.live, id, text); InTime(t, NoteSay(c.record, c.live, id, t))
  {
    SayRecorded(c, id, text);
    ChatCases(c.live, id, text);
    if Answers(c.live, id, text) {
      SolveInTime(c.live, Solved(c.record, c.live, id), Find(c.live.room.players, id).value);
    }
  }

  lemma StartInTime(s: Live, h: Record, gameId: GameId, order: seq<PlayerId>, word: string)
    requires Inv(s) && InTime(s, h) && Enabled(s, Start(gameId, order, word))
    ensures var t := StartGame(s, gameId, order, word); InTime(t, NoteStart(h, s, gameId, t))
  {
    if s.room.phase != Playing && |s.room.players| >= MIN_PLAYERS_TO_START {
      AnnouncedIsUnsettled(s, gameId, order);
      var told := Announced(s, gameId, order);
      StartRoundInTime(told, Blank(h, gameId, s.world.now, |s.room.players|), word);
    }
  }

  lemma SeatInTime(s: Live, h: Record, id: PlayerId, userId: Option<UserId>, nickname: string)
    requires Inv(s) && InTime(s, h)
    ensures var t := Seat(s, id, userId, nickname);
            InTime(t, h.(joins := h.joins + if s.room.phase == Playing then 1 else 0))
  {
  }

  lemma JoinInTime(s: Live, h: Record, id: PlayerId, userId: Option<UserId>, nickname: string)
    requires Inv(s) && InTime(s, h) && id !in Ids(s.room.players)
    ensures var t := CommitJoin(s, id, userId, nickname); InTime(t, NoteJoin(h, s, id, t))
  {
    if !IsFull(s) {
      var seated := Seat(s, id, userId, nickname);
      SeatInTime(s, h, id, userId, nickname);
      assert Ids(seated.room.players) == Ids(s.room.players) + [id];
      assert id in Ids(seated.room.players);
    }
  }

  lemma DrawInTime(s: Live, h: Record, id: PlayerId, stroke: Stroke)
    requires InTime(s, h)
    ensures InTime(HandleDraw(s, id, stroke), NoteInk(h, s, id)) && InTime(HandleDrawClear(s, id), NoteInk(h, s, id))
  {
  }

  lemma NextInTime(c: Tracked, e: Event)
    requires Inv(c.live) && May(c, e) && InTime(c.live, c.record) && Punctual(c.live, e)
    ensures InTime(Next(c, e).live, Next(c, e).record)
  {
    var s, h := c.live, c.record;
    match e
    case Join(id, userId, nickname) => JoinInTime(s, h, id, userId, nickname);
    case Leave(id) => LeaveInTime(s, h, id);
    case Say(id, text) => SayInTime(c, id, text);
    case Paint(id, stroke) => DrawInTime(s, h, id, stroke);
    case Wipe(id) => DrawInTime(s, h, id, Stroke([], "", 0.0));
    case Start(gameId, order, word) => StartInTime(s, h, gameId, order, word);
    case Alert(t, word) => AlertInTime(s, h, t, word);
    case Tick(now) => ClockInTime(s, h, now);
    case Drop(id) =>
  }

  lemma ClockInTime(s: Live, h: Record, now: int)
    requires InTime(s, h) && Punctual(s, Tick(now))
    ensures InTime(s.(world := s.world.(now := now)), h)
  {
  }

  /** The bound that being in time means for the game being played and for the last one to end. */
  predicate Bounded(s: Live, h: Record, bound: int) {
    && (s.room.phase == Playing ==> s.world.now - h.startedAt <= bound)
    && (s.room.phase == Ended && s.world.published != [] ==>
          s.world.published[|s.world.published| - 1].finishedAt - h.startedAt <= bound)
  }

  lemma InTimeIsBounded(s: Live, h: Record)
    requires InTime(s, h)
    ensures Bounded(s, h, 64000 * (s.room.totalRounds + h.joins) + 4000 * h.leaves)
  {
  }

  /**
   * With timeouts firing at their deadline, a game that is being played, or was the last to finish, takes at most
   * 64 s for each planned round and each newcomer plus 4 s for each departure.
   */
  lemma {:induction false} GamesAreBounded(id: RoomId, now: int, es: seq<Event>)
    requires Run(Opening(id, now), es) && PunctualRun(Opening(id, now), es)
    ensures var c := After(Opening(id, now), es);
            Bounded(c.live, c.record, 64000 * (c.live.room.totalRounds + c.record.joins) + 4000 * c.record.leaves)
  {
    RunsStayInTime(id, now, es);
    var c := After(Opening(id, now), es);
    InTimeIsBounded(c.live, c.record);
  }

  lemma {:induction false} RunsStayInTime(id: RoomId, now: int, es: seq<Event>)
    requires Run(Opening(id, now), es) && PunctualRun(Opening(id, now), es)
    ensures InTime(After(Opening(id, now), es).live, After(Opening(id, now), es).record)
    decreases |es|
  {
    if es != [] {
      var n := |es| - 1;
      RunsStayGood(id, now, es[..n]);
      RunsStayInTime(id, now, es[..n]);
      NextInTime(After(Opening(id, now), es[..n]), es[n]);
    }
  }

  // ---------------------------------------------------------------- every game ends

  /** Two for each waiting drawer, one for a round being drawn. */
  function Measure(s: Live): nat {
    2 * |s.room.drawerQueue| + if s.room.drawerId.Some? then 1 else 0
  }

  lemma {:induction false} AlertLowersMeasure(s: Live, t: TimerId, word: string)
    requires Inv(s) && Enabled(s, Alert(t, word))
    ensures Fire(s, t, word).room.phase == Playing ==> Measure(Fire(s, t, word)) < Measure(s)
  {
    var due := s.(world := s.world.(alarms := s.world.alarms - {t}));
    AlertSettles(s, t, word);
    if s.world.alarms[t].kind == NextRound && due.room.drawerQueue != [] {
      StartRoundSettles(due, word);
    }
  }

  lemma LeaveLowersMeasure(s: Live, id: PlayerId)
    requires Inv(s) && id in Ids(s.room.players)
    ensures HandleClose(s, id).room.phase == Playing ==> Measure(HandleClose(s, id)) <= Measure(s)
  {
    FarewellKeepsShape(s, id);
    DepartureLowersMeasure(Farewell(s, id), id);
  }

  lemma DepartureLowersMeasure(s: Live, id: PlayerId)
    ensures Measure(AfterDeparture(s, id)) <= Measure(s)
  {
  }

  lemma SayLowersMeasure(s: Live, id: PlayerId, text: string)
    requires Inv(s)
    ensures Measure(HandleChat(s, id, text)) <= Measure(s)
  {
    ChatCases(s, id, text);
  }

  lemma JoinRaisesMeasure(s: Live, id: PlayerId, userId: Option<UserId>, nickname: string)
    ensures Measure(CommitJoin(s, id, userId, nickname)) <= Measure(s) + 2
  {
  }

  /** Only a newcomer adds to what is left to play; every timeout takes some of it away. */
  lemma StepLowersMeasure(s: Live, e: Event)
    requires Inv(s) && Enabled(s, e) && s.room.phase == Playing
    ensures Step(s, e).room.phase == Playing ==>
              Measure(Step(s, e)) + (if e.Alert? then 1 else 0) <= Measure(s) + (if e.Join? then 2 else 0)
  {
    match e
    case Alert(t, word) => AlertLowersMeasure(s, t, word);
    case Leave(id) => LeaveLowersMeasure(s, id);
    case Say(id, text) => SayLowersMeasure(s, id, text);
    case Join(id, userId, nickname) => JoinRaisesMeasure(s, id, userId, nickname);
    case _ =>
  }

  function Alerts(es: seq<Event>): nat {
    if es == [] then 0 else Alerts(es[..|es| - 1]) + if es[|es| - 1].Alert? then 1 else 0
  }

  function Joins(es: seq<Event>): nat {
    if es == [] then 0 else Joins(es[..|es| - 1]) + if es[|es| - 1].Join? then 1 else 0
  }

  predicate PlaysThroughout(c: Tracked, es: seq<Event>)
    requires Run(c, es)
  {
    After(c, es).live.room.phase == Playing && (es != [] ==> PlaysThroughout(c, es[..|es| - 1]))
  }

  /**
   * Every game ends: however players come, go, guess and draw, a game in progress can see no more timeouts than
   * its measure plus two for each newcomer before it is over.
   */
  lemma {:induction false} EveryGameEnds(c: Tracked, es: seq<Event>)
    requires Good(c) && Run(c, es) && PlaysThroughout(c, es)
    ensures Good(After(c, es))
    ensures Alerts(es) + Measure(After(c, es).live) <= Measure(c.live) + 2 * Joins(es)
    decreases |es|
  {
    if es != [] {
      var n := |es| - 1;
      EveryGameEnds(c, es[..n]);
      NextKeepsGood(After(c, es[..n]), es[n]);
      StepLowersMeasure(After(c, es[..n]).live, es[n]);
    }
  }
}
