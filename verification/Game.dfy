/**
 * The live game of one room as a state machine on values: the room's fields (room.ts), the game rules
 * (game.ts) and the socket handlers (index.ts). Everything the handlers touch outside the room (clock,
 * pending timeouts, open sockets, messages sent, results published) is the World.
 */
module Game {
  import opened Basics
  import opened Protocol
  import opened Text
  import opened Words
  import opened Ranking

  type TimerId = nat

  datatype Player = Player(id: PlayerId, userId: Option<UserId>, nickname: string, score: nat)

  datatype Room = Room(
    id: RoomId,
    capacity: nat,
    players: seq<Player>,          // the players Map, in insertion order
    phase: Phase,
    gameId: Option<GameId>,
    round: nat,
    totalRounds: nat,
    drawerId: Option<PlayerId>,
    word: Option<string>,
    roundEndsAt: Option<int>,
    strokes: seq<Stroke>,
    solved: set<PlayerId>,
    drawerQueue: seq<PlayerId>,
    usedWords: seq<string>,
    roundTimer: Option<TimerId>)

  datatype AlarmKind = RoundOver | NextRound
  datatype Alarm = Alarm(kind: AlarmKind, due: int)
  datatype Envelope = Envelope(to: set<PlayerId>, message: Message)

  datatype World = World(
    now: int,
    open: set<PlayerId>,           // players whose socket is still OPEN
    alarms: map<TimerId, Alarm>,   // timeouts that were set and have neither fired nor been cleared
    nextTimer: TimerId,
    mail: seq<Envelope>,           // every message sent so far, with its receivers
    published: seq<GameResult>)

  datatype Live = Live(room: Room, world: World)

  // ---------------------------------------------------------------- room.ts

  function Ids(ps: seq<Player>): (ids: seq<PlayerId>)
    ensures |ids| == |ps|
  {
    seq(|ps|, i requires 0 <= i < |ps| => ps[i].id)
  }

  /** `room.summaries` */
  function Cards(ps: seq<Player>): (cards: seq<Card>)
    ensures |cards| == |ps|
  {
    seq(|ps|, i requires 0 <= i < |ps| => Card(ps[i].id, ps[i].nickname, ps[i].score))
  }

  /** `players.get(id)` */
  function Find(ps: seq<Player>, id: PlayerId): (r: Option<Player>)
    ensures r.Some? <==> id in Ids(ps)
    ensures r.Some? ==> r.value in ps && r.value.id == id
  {
    if ps == [] then None
    else
      var n := |ps| - 1;
      assert Ids(ps) == Ids(ps[..n]) + [ps[n].id];
      if ps[n].id == id then Some(ps[n]) else Find(ps[..n], id)
  }

  /** `players.delete(id)` */
  function Evict(ps: seq<Player>, id: PlayerId): (r: seq<Player>)
    ensures Ids(r) == Without(Ids(ps), id)
  {
    if ps == [] then []
    else
      var n := |ps| - 1;
      assert Ids(ps)[..n] == Ids(ps[..n]);
      var rest := Evict(ps[..n], id);
      assert Ids(rest + [ps[n]]) == Ids(rest) + [ps[n].id];
      if ps[n].id == id then rest else rest + [ps[n]]
  }

  /** The player of that id gains some points. */
  function Award(ps: seq<Player>, id: PlayerId, points: nat): (r: seq<Player>)
    ensures Ids(r) == Ids(ps)
  {
    seq(|ps|, i requires 0 <= i < |ps| =>
      if ps[i].id == id then ps[i].(score := ps[i].score + points) else ps[i])
  }

  function ZeroScores(ps: seq<Player>): (r: seq<Player>)
    ensures Ids(r) == Ids(ps)
  {
    seq(|ps|, i requires 0 <= i < |ps| => ps[i].(score := 0))
  }

  /** `room.unsolvedGuesserCount` */
  function Unsolved(ps: seq<Player>, drawerId: Option<PlayerId>, solved: set<PlayerId>): nat {
    if ps == [] then 0
    else
      var n := |ps| - 1;
      Unsolved(ps[..n], drawerId, solved)
      + (if drawerId == Some(ps[n].id) || ps[n].id in solved then 0 else 1)
  }

  lemma {:induction false} UnsolvedCounts(ps: seq<Player>, drawerId: Option<PlayerId>, solved: set<PlayerId>)
    ensures Unsolved(ps, drawerId, solved) == 0
            <==> forall id :: id in Ids(ps) ==> drawerId == Some(id) || id in solved
  {
    if ps != [] {
      var n := |ps| - 1;
      assert Ids(ps) == Ids(ps[..n]) + [ps[n].id];
      UnsolvedCounts(ps[..n], drawerId, solved);
    }
  }

  function UnsolvedGuessers(s: Live): nat {
    Unsolved(s.room.players, s.room.drawerId, s.room.solved)
  }

  predicate IsFull(s: Live) {
    |s.room.players| >= s.room.capacity
  }

  /** `room.remainingMs` */
  function RemainingMs(s: Live): Option<nat> {
    match s.room.roundEndsAt
    case None => None
    case Some(end) => Some(if end > s.world.now then end - s.world.now else 0)
  }

  function ClearRoundTimer(s: Live): Live {
    match s.room.roundTimer
    case None => s
    case Some(t) => Live(s.room.(roundTimer := None), s.world.(alarms := s.world.alarms - {t}))
  }

  /** `room.roundTimer = setTimeout(..., delay)` */
  function SetRoundTimer(s: Live, kind: AlarmKind, delay: nat): Live {
    var t := s.world.nextTimer;
    Live(s.room.(roundTimer := Some(t)),
         s.world.(alarms := s.world.alarms[t := Alarm(kind, s.world.now + delay)], nextTimer := t + 1))
  }

  function Receivers(s: Live, except: Option<PlayerId>): set<PlayerId> {
    set id | id in Ids(s.room.players) && id in s.world.open && except != Some(id)
  }

  function Broadcast(s: Live, message: Message, except: Option<PlayerId>): Live {
    s.(world := s.world.(mail := s.world.mail + [Envelope(Receivers(s, except), message)]))
  }

  function Send(s: Live, id: PlayerId, message: Message): Live {
    if id in Ids(s.room.players) && id in s.world.open
    then s.(world := s.world.(mail := s.world.mail + [Envelope({id}, message)]))
    else s
  }

  function Announce(s: Live, notice: Notice): Live {
    Broadcast(s, System(notice, s.world.now), None)
  }

  // ---------------------------------------------------------------- game.ts

  function ScoresOf(ps: seq<Player>): (r: seq<int>)
    ensures |r| == |ps|
  {
    seq(|ps|, i requires 0 <= i < |ps| => ps[i].score)
  }

  predicate BestFirst(ps: seq<Player>) {
    forall i, j :: 0 <= i < j < |ps| ==> ps[i].score >= ps[j].score
  }

  /** Puts p behind the players it ties with or trails. */
  function InsertByScore(ps: seq<Player>, p: Player): (r: seq<Player>)
    ensures |r| == |ps| + 1
  {
    if ps == [] then [p]
    else
      var n := |ps| - 1;
      if ps[n].score >= p.score then ps + [p] else InsertByScore(ps[..n], p) + [ps[n]]
  }

  /** `[...players].sort((a, b) => b.score - a.score)`: stable, highest score first. */
  function SortByScore(ps: seq<Player>): (r: seq<Player>)
    ensures |r| == |ps|
  {
    if ps == [] then []
    else
      var n := |ps| - 1;
      InsertByScore(SortByScore(ps[..n]), ps[n])
  }

  /** Each player at place 1 + number of strictly better scores. */
  function Ranked(ps: seq<Player>, scores: seq<int>): (r: seq<ResultPlayer>)
    ensures |r| == |ps|
  {
    seq(|ps|, i requires 0 <= i < |ps| =>
      ResultPlayer(ps[i].id, ps[i].userId, ps[i].nickname, ps[i].score, 1 + Higher(scores, ps[i].score)))
  }

  /** The final table: the players by score. */
  function ResultPlayers(ps: seq<Player>): (r: seq<ResultPlayer>)
    ensures |r| == |ps|
  {
    Ranked(SortByScore(ps), ScoresOf(ps))
  }

  /** The room's fields once a game is over. */
  function CloseGame(s: Live): Live {
    var c := ClearRoundTimer(s);
    c.(room := c.room.(phase := Ended, gameId := None, drawerId := None, word := None, roundEndsAt := None,
                       drawerQueue := []))
  }

  function EndGame(s: Live): Live {
    if s.room.phase != Playing then s
    else
      var over := CloseGame(s);
      var told := Broadcast(over, GameEnded(Cards(over.room.players)), None);
      match s.room.gameId
      case None => told
      case Some(gameId) =>
        var result := GameResult(gameId, told.room.id, told.world.now, s.room.round, ResultPlayers(told.room.players));
        told.(world := told.world.(published := told.world.published + [result]))
  }

  /** The room's fields once a drawer and a word are chosen. */
  function Assign(s: Live, drawer: PlayerId, word: string): Live {
    s.(room := s.room.(round := s.room.round + 1, drawerId := Some(drawer), word := Some(word),
                       usedWords := s.room.usedWords + [word], roundEndsAt := Some(s.world.now + ROUND_DURATION_MS),
                       solved := {}, strokes := []))
  }

  /** The part of startRound after a drawer was found. */
  function BeginRound(s: Live, drawer: Player, word: string): Live {
    var begun := Assign(s, drawer.id, word);
    var cleared := Broadcast(begun, DrawClear, None);
    var started := RoundStarted(begun.room.round, begun.room.totalRounds, drawer.id, drawer.nickname,
                                RemainingMs(begun).value, |word|, None);
    var told := Broadcast(cleared, started, Some(drawer.id));
    SetRoundTimer(Send(told, drawer.id, started.(word := Some(word))), RoundOver, ROUND_DURATION_MS)
  }

  function StartRound(s: Live, word: string): Live {
    var c := ClearRoundTimer(s);
    if c.room.drawerQueue == [] then EndGame(c)
    else
      var next := c.(room := c.room.(drawerQueue := c.room.drawerQueue[1..]));
      match Find(c.room.players, c.room.drawerQueue[0])
      case None => EndGame(next)
      case Some(drawer) => BeginRound(next, drawer, word)
  }

  /** The room's fields at the start of a game; order is the shuffled list of players. */
  function NewGame(s: Live, gameId: GameId, order: seq<PlayerId>): Live {
    var total := if |s.room.players| < MAX_ROUNDS then |s.room.players| else MAX_ROUNDS;
    s.(room := s.room.(players := ZeroScores(s.room.players), phase := Playing, gameId := Some(gameId), round := 0,
                       usedWords := [], totalRounds := total, drawerQueue := Clip(order, total)))
  }

  /** A new game before its first round. */
  function Announced(s: Live, gameId: GameId, order: seq<PlayerId>): Live {
    var reset := NewGame(s, gameId, order);
    Broadcast(reset, GameStarted(reset.room.totalRounds), None)
  }

  function StartGame(s: Live, gameId: GameId, order: seq<PlayerId>, word: string): Live {
    if s.room.phase == Playing then s
    else if |s.room.players| < MIN_PLAYERS_TO_START then Announce(s, NeedMorePlayers)
    else
      StartRound(Announced(s, gameId, order), word)
  }

  /** The room's fields between rounds. */
  function CloseRound(s: Live): Live {
    var c := ClearRoundTimer(s);
    c.(room := c.room.(drawerId := None, word := None, roundEndsAt := None))
  }

  function EndRound(s: Live): Live {
    if s.room.phase != Playing then s
    else
      var answer := match s.room.word case None => "" case Some(w) => w;
      var idle := CloseRound(s);
      var told := Broadcast(idle, RoundEnded(idle.room.round, answer, Cards(idle.room.players)), None);
      if |told.room.players| == 0 then told else SetRoundTimer(told, NextRound, ROUND_INTERMISSION_MS)
  }

  /** The callback of the intermission timeout. */
  function AfterIntermission(s: Live, word: string): Live {
    if s.room.phase != Playing then s
    else if |s.room.players| < MIN_PLAYERS_TO_START || s.room.drawerQueue == [] then EndGame(s)
    else StartRound(s, word)
  }

  /** `BASE_ANSWER_SCORE + Math.round(SPEED_BONUS_SCORE * remaining / ROUND_DURATION_MS)` */
  function SolverGain(remaining: nat): nat {
    BASE_ANSWER_SCORE + (2 * SPEED_BONUS_SCORE * remaining + ROUND_DURATION_MS) / (2 * ROUND_DURATION_MS)
  }

  function AwardDrawer(ps: seq<Player>, drawerId: Option<PlayerId>): seq<Player> {
    match drawerId
    case None => ps
    case Some(d) => Award(ps, d, DRAWER_SCORE_PER_SOLVER)
  }

  /** The bookkeeping of a right answer: the guesser is paid by speed, the drawer a fixed share. */
  function Score(s: Live, id: PlayerId): Live {
    var gain := SolverGain(match RemainingMs(s) case None => 0 case Some(ms) => ms);
    var paid := AwardDrawer(Award(s.room.players, id, gain), s.room.drawerId);
    s.(room := s.room.(solved := s.room.solved + {id}, players := paid))
  }

  /** The right answer from a guesser. */
  function Solve(s: Live, player: Player): Live {
    var scored := Score(s, player.id);
    var told := Broadcast(scored, CorrectAnswer(player.id, player.nickname, Cards(scored.room.players)), None);
    if UnsolvedGuessers(told) == 0 then EndRound(told) else told
  }

  predicate IsGuesser(s: Live, id: PlayerId) {
    s.room.drawerId != Some(id) && id !in s.room.solved
  }

  /** handleGuess: the new state, and whether the line must not go out as chat. */
  function Guess(s: Live, player: Player, text: string): (Live, bool) {
    if s.room.phase != Playing || s.room.word.None? || s.room.word.value == "" then (s, false)
    else
      var guess := Normalize(text);
      var answer := Normalize(s.room.word.value);
      if IsGuesser(s, player.id) && guess == answer then (Solve(s, player), true)
      else (s, Contains(guess, answer))
  }

  function AfterDeparture(s: Live, left: PlayerId): Live {
    if s.room.phase != Playing then s
    else if |s.room.players| < MIN_PLAYERS_TO_START then EndGame(Announce(s, TooFewPlayersLeft))
    else if s.room.drawerId == Some(left) then EndRound(Announce(s, DrawerLeft))
    else if UnsolvedGuessers(s) == 0 then EndRound(s)
    else s
  }

  // ---------------------------------------------------------------- index.ts

  /** The newcomer takes a seat and, during a game, a place at the end of the drawer queue. */
  function Seat(s: Live, id: PlayerId, userId: Option<UserId>, nickname: string): Live {
    Live(s.room.(players := s.room.players + [Player(id, userId, nickname, 0)],
                 drawerQueue := if s.room.phase == Playing then s.room.drawerQueue + [id] else s.room.drawerQueue),
         s.world.(open := s.world.open + {id}))
  }

  function SnapshotFor(s: Live, you: Card): Message {
    var r := s.room;
    Snapshot(you, Cards(r.players), r.capacity, r.phase, r.round, r.totalRounds, r.drawerId, RemainingMs(s),
             match r.word case None => None case Some(w) => Some(|w|), r.strokes)
  }

  /** The end of handleJoin, once the room is known and the socket was seen open. */
  function CommitJoin(s: Live, id: PlayerId, userId: Option<UserId>, nickname: string): Live {
    if IsFull(s) then s
    else
      var seated := Seat(s, id, userId, nickname);
      var r := seated.room;
      var greeted := Send(seated, id, SnapshotFor(seated, Card(id, nickname, 0)));
      var known := Broadcast(greeted, PlayerJoined(Card(id, nickname, 0), |r.players|), Some(id));
      Announce(known, Entered(nickname))
  }

  /** `room.removePlayer(id)`, for a socket that is closed. */
  function Vacate(s: Live, id: PlayerId): Live {
    Live(s.room.(players := Evict(s.room.players, id), solved := s.room.solved - {id},
                 drawerQueue := Without(s.room.drawerQueue, id)),
         s.world.(open := s.world.open - {id}))
  }

  /** The seat is given up and the others are told. */
  function Farewell(s: Live, id: PlayerId): Live {
    var nickname := match Find(s.room.players, id) case None => "익명" case Some(p) => p.nickname;
    var gone := Vacate(s, id);
    var told := Broadcast(gone, PlayerLeft(id, nickname, |gone.room.players|), None);
    Announce(told, Exited(nickname))
  }

  /** handleClose for a connection that had joined. */
  function HandleClose(s: Live, id: PlayerId): Live {
    AfterDeparture(Farewell(s, id), id)
  }

  function HandleChat(s: Live, id: PlayerId, text: string): Live {
    match Find(s.room.players, id)
    case None => s
    case Some(player) =>
      var line := Clip(Trim(text), MAX_CHAT_LENGTH);
      if line == "" then s
      else
        var (after, hidden) := Guess(s, player, line);
        if hidden then after
        else Broadcast(after, ChatLine(id, player.nickname, line, after.world.now), None)
  }

  predicate MayDraw(s: Live, id: PlayerId) {
    s.room.phase == Playing && s.room.drawerId == Some(id)
  }

  function Sanitize(stroke: Stroke): Stroke {
    var width := if stroke.width == 0.0 then 4.0 else stroke.width;
    Stroke(Clip(stroke.points, MAX_STROKE_POINTS), Clip(stroke.color, 32),
           if width < 1.0 then 1.0 else if width > 48.0 then 48.0 else width)
  }

  function AddStroke(strokes: seq<Stroke>, stroke: Stroke): seq<Stroke> {
    if |strokes| >= MAX_BUFFERED_STROKES then strokes else strokes + [stroke]
  }

  function HandleDraw(s: Live, id: PlayerId, stroke: Stroke): Live {
    if !MayDraw(s, id) || stroke.points == [] then s
    else
      var clean := Sanitize(stroke);
      Broadcast(s.(room := s.room.(strokes := AddStroke(s.room.strokes, clean))), Draw(clean), Some(id))
  }

  function HandleDrawClear(s: Live, id: PlayerId): Live {
    if !MayDraw(s, id) then s
    else Broadcast(s.(room := s.room.(strokes := [])), DrawClear, Some(id))
  }

  /** A timeout fires: it is no longer pending, and its callback runs. */
  function Fire(s: Live, t: TimerId, word: string): Live
    requires t in s.world.alarms
  {
    var due := s.(world := s.world.(alarms := s.world.alarms - {t}));
    match s.world.alarms[t].kind
    case RoundOver => EndRound(due)
    case NextRound => AfterIntermission(due, word)
  }

  // ---------------------------------------------------------------- events

  datatype Event =
    | Join(id: PlayerId, userId: Option<UserId>, nickname: string)
    | Leave(id: PlayerId)
    | Say(id: PlayerId, text: string)
    | Paint(id: PlayerId, stroke: Stroke)
    | Wipe(id: PlayerId)
    | Start(gameId: GameId, order: seq<PlayerId>, word: string)  // order: the shuffle, word: the draw
    | Alert(timer: TimerId, word: string)
    | Tick(now: int)
    | Drop(id: PlayerId)                                         // a socket stops being OPEN

  /** Which events may happen next. The shuffle and the word draw are free within what they may return. */
  predicate Enabled(s: Live, e: Event) {
    match e
    case Join(id, _, _) => id !in Ids(s.room.players)
    case Leave(id) => id in Ids(s.room.players)
    case Start(_, order, word) => multiset(order) == multiset(Ids(s.room.players)) && word in Candidates([])
    case Alert(t, word) =>
      && t in s.world.alarms && s.world.alarms[t].due <= s.world.now
      && word in Candidates(s.room.usedWords)
    case Tick(now) => now >= s.world.now
    case _ => true
  }

  function Step(s: Live, e: Event): Live
    requires Enabled(s, e)
  {
    match e
    case Join(id, userId, nickname) => CommitJoin(s, id, userId, nickname)
    case Leave(id) => HandleClose(s, id)
    case Say(id, text) => HandleChat(s, id, text)
    case Paint(id, stroke) => HandleDraw(s, id, stroke)
    case Wipe(id) => HandleDrawClear(s, id)
    case Start(gameId, order, word) => StartGame(s, gameId, order, word)
    case Alert(t, word) => Fire(s, t, word)
    case Tick(now) => s.(world := s.world.(now := now))
    case Drop(id) => s.(world := s.world.(open := s.world.open - {id}))
  }

  /** A room as `new Room(id)` makes it. */
  function NewRoom(id: RoomId, now: int): Live {
    Live(Room(id, DEFAULT_ROOM_CAPACITY, [], Waiting, None, 0, 0, None, None, None, [], {}, [], [], None),
         World(now, {}, map[], 0, [], []))
  }
}
