/**
 * The Room object and the handlers that change it in place, in the order of game.ts, room.ts and index.ts. Each
 * method is proved to do exactly what the function of the same name in Game says, on every state; those that handle
 * a whole event keep a valid room valid.
 */
module LiveRoom {
  import opened Basics
  import opened Protocol
  import opened Text
  import opened Words
  import opened ResultTable
  import Game
  import RoomInvariant

  class Room {
    const id: RoomId
    const capacity: nat
    var players: seq<Game.Player>
    var phase: Phase
    var gameId: Option<GameId>
    var round: nat
    var totalRounds: nat
    var drawerId: Option<PlayerId>
    var word: Option<string>
    var roundEndsAt: Option<int>
    var strokes: seq<Stroke>
    var solved: set<PlayerId>
    var drawerQueue: seq<PlayerId>
    var usedWords: seq<string>
    var roundTimer: Option<Game.TimerId>
    /** The process around the room: clock, timeouts, sockets, publisher. */
    var world: Game.World

    function State(): Game.Live
      reads this
    {
      Game.Live(Game.Room(id, capacity, players, phase, gameId, round, totalRounds, drawerId, word, roundEndsAt,
                          strokes, solved, drawerQueue, usedWords, roundTimer),
                world)
    }

    /** The room invariant: what holds between any two events. */
    predicate Valid()
      reads this
    {
      RoomInvariant.Inv(State())
    }

    constructor (id: RoomId, now: int)
      ensures State() == Game.NewRoom(id, now) && Valid()
    {
      this.id, capacity := id, DEFAULT_ROOM_CAPACITY;
      players, phase, gameId, round, totalRounds := [], Waiting, None, 0, 0;
      drawerId, word, roundEndsAt, strokes, solved := None, None, None, [], {};
      drawerQueue, usedWords, roundTimer := [], [], None;
      world := Game.World(now, {}, map[], 0, [], []);
    }

    // -------------------------------------------------------------- room.ts

    method UnsolvedGuesserCount() returns (count: nat)
      ensures count == Game.UnsolvedGuessers(State())
    {
      count := 0;
      for i := 0 to |players|
        invariant count == Game.Unsolved(players[..i], drawerId, solved)
      {
        assert players[..i + 1][..i] == players[..i];
        if drawerId != Some(players[i].id) && players[i].id !in solved {
          count := count + 1;
        }
      }
      assert players[..|players|] == players;
    }

    method ClearRoundTimer()
      modifies this`roundTimer, this`world
      ensures State() == Game.ClearRoundTimer(old(State()))
    {
      if roundTimer.Some? {
        world := world.(alarms := world.alarms - {roundTimer.value});
        roundTimer := None;
      }
    }

    method SetRoundTimer(kind: Game.AlarmKind, delay: nat)
      modifies this`roundTimer, this`world
      ensures State() == Game.SetRoundTimer(old(State()), kind, delay)
    {
      var timer := world.nextTimer;
      world := world.(alarms := world.alarms[timer := Game.Alarm(kind, world.now + delay)], nextTimer := timer + 1);
      roundTimer := Some(timer);
    }

    method Broadcast(message: Message, except: Option<PlayerId>)
      modifies this`world
      ensures State() == Game.Broadcast(old(State()), message, except)
    {
      var to: set<PlayerId> := {};
      for i := 0 to |players|
        invariant world == old(world)
        invariant to == set id | id in Game.Ids(players[..i]) && id in world.open && except != Some(id)
      {
        assert Game.Ids(players[..i + 1]) == Game.Ids(players[..i]) + [players[i].id];
        if except != Some(players[i].id) && players[i].id in world.open {
          to := to + {players[i].id};
        }
      }
      assert players[..|players|] == players;
      assert to == Game.Receivers(State(), except);
      world := world.(mail := world.mail + [Game.Envelope(to, message)]);
    }

    method Send(to: PlayerId, message: Message)
      modifies this`world
      ensures State() == Game.Send(old(State()), to, message)
    {
      if Game.Find(players, to).Some? && to in world.open {
        world := world.(mail := world.mail + [Game.Envelope({to}, message)]);
      }
    }

    method Announce(notice: Notice)
      modifies this`world
      ensures State() == Game.Announce(old(State()), notice)
    {
      Broadcast(System(notice, world.now), None);
    }

    method ClearStrokes()
      modifies this`strokes
      ensures strokes == []
    {
      strokes := [];
    }

    method RemovePlayer(playerId: PlayerId)
      modifies this`players, this`solved, this`drawerQueue
      ensures State() == old(State()).(room := old(State()).room.(
                           players := Game.Evict(old(players), playerId), solved := old(solved) - {playerId},
                           drawerQueue := Without(old(drawerQueue), playerId)))
    {
      players := Game.Evict(players, playerId);
      solved := solved - {playerId};
      drawerQueue := Without(drawerQueue, playerId);
    }

    // -------------------------------------------------------------- game.ts

    method EndGame()
      modifies this
      ensures State() == Game.EndGame(old(State()))
    {
      if phase != Playing {
        return;
      }
      var finished, roundsPlayed := gameId, round;
      CloseGame();
      Broadcast(GameEnded(Game.Cards(players)), None);
      if finished.Some? {
        var results := ToResultPlayers(players);
        Publish(GameResult(finished.value, id, world.now, roundsPlayed, results));
      }
    }

    method CloseGame()
      modifies this
      ensures State() == Game.CloseGame(old(State()))
    {
      ClearRoundTimer();
      phase, gameId, drawerId, word, roundEndsAt, drawerQueue := Ended, None, None, None, None, [];
    }

    method Publish(result: GameResult)
      modifies this`world
      ensures world == old(world).(published := old(world).published + [result])
    {
      world := world.(published := world.published + [result]);
    }

    method StartRound() returns (ghost pick: string)
      modifies this
      ensures pick in Candidates(old(usedWords))
      ensures State() == Game.StartRound(old(State()), pick)
    {
      pick := Candidates(usedWords)[0];
      ClearRoundTimer();
      if drawerQueue == [] {
        EndGame();
        return;
      }
      var next := drawerQueue[0];
      drawerQueue := drawerQueue[1..];
      var drawer := Game.Find(players, next);
      if drawer.None? {
        EndGame();
        return;
      }
      pick := BeginRound(drawer.value);
    }

    /** `pickWord(room.usedWords)`: any candidate. */
    method PickWord() returns (drawn: string)
      ensures drawn in Candidates(usedWords)
    {
      assert Candidates(usedWords)[0] in Candidates(usedWords);
      drawn :| drawn in Candidates(usedWords);
    }

    /** The rest of startRound, for a drawer who is present. */
    method BeginRound(drawer: Game.Player) returns (ghost pick: string)
      modifies this
      ensures pick in Candidates(old(usedWords))
      ensures State() == Game.BeginRound(old(State()), drawer, pick)
    {
      var drawn := PickWord();
      pick := drawn;
      Assign(drawer.id, drawn);
      Broadcast(DrawClear, None);
      var started := RoundStarted(round, totalRounds, drawer.id, drawer.nickname, ROUND_DURATION_MS, |drawn|, None);
      Broadcast(started, Some(drawer.id));
      Send(drawer.id, started.(word := Some(drawn)));
      SetRoundTimer(Game.RoundOver, ROUND_DURATION_MS);
    }

    method Assign(drawer: PlayerId, drawn: string)
      modifies this
      ensures State() == Game.Assign(old(State()), drawer, drawn)
    {
      Appoint(drawer, drawn);
      roundEndsAt, solved := Some(world.now + ROUND_DURATION_MS), {};
      ClearStrokes();
    }

    method Appoint(drawer: PlayerId, drawn: string)
      modifies this`round, this`drawerId, this`word, this`usedWords
      ensures round == old(round) + 1 && drawerId == Some(drawer) && word == Some(drawn)
      ensures usedWords == old(usedWords) + [drawn]
    {
      round, drawerId, word, usedWords := round + 1, Some(drawer), Some(drawn), usedWords + [drawn];
    }

    method StartGame(newGameId: GameId) returns (ghost order: seq<PlayerId>, ghost pick: string)
      modifies this
      ensures Game.Enabled(old(State()), Game.Start(newGameId, order, pick))
      ensures State() == Game.StartGame(old(State()), newGameId, order, pick)
      ensures old(Valid()) ==> Valid()
    {
      ghost var s := State();
      forall o, w | Valid() && Game.Enabled(s, Game.Start(newGameId, o, w))
        ensures RoomInvariant.Inv(Game.StartGame(s, newGameId, o, w))
      {
        RoomInvariant.StartGameSettles(s, newGameId, o, w);
      }
      order, pick := Game.Ids(players), Candidates([])[0];
      if phase == Playing {
        return;
      }
      if |players| < MIN_PLAYERS_TO_START {
        Announce(NeedMorePlayers);
        return;
      }
      var draws := DrawPositions(|players|);
      var shuffled := Shuffle(Game.Ids(players), draws);
      order := shuffled;
      NewGame(newGameId, shuffled);
      Broadcast(GameStarted(totalRounds), None);
      pick := StartRound();
    }

    method NewGame(newGameId: GameId, shuffled: seq<PlayerId>)
      modifies this
      ensures State() == Game.NewGame(old(State()), newGameId, shuffled)
    {
      ResetScores();
      OpenGame(newGameId);
      totalRounds := if |players| < MAX_ROUNDS then |players| else MAX_ROUNDS;
      drawerQueue := Clip(shuffled, totalRounds);
    }

    method OpenGame(newGameId: GameId)
      modifies this`phase, this`gameId, this`round, this`usedWords
      ensures phase == Playing && gameId == Some(newGameId) && round == 0 && usedWords == []
    {
      phase, gameId, round, usedWords := Playing, Some(newGameId), 0, [];
    }

    method ResetScores()
      modifies this`players
      ensures players == Game.ZeroScores(old(players))
    {
      for i := 0 to |players|
        invariant |players| == |old(players)|
        invariant forall k :: 0 <= k < i ==> players[k] == old(players)[k].(score := 0)
        invariant forall k :: i <= k < |players| ==> players[k] == old(players)[k]
      {
        players := players[i := players[i].(score := 0)];
      }
    }

    method EndRound()
      modifies this
      ensures State() == Game.EndRound(old(State()))
    {
      if phase != Playing {
        return;
      }
      var answer := match word case None => "" case Some(w) => w;
      CloseRound();
      Broadcast(RoundEnded(round, answer, Game.Cards(players)), None);
      if |players| != 0 {
        SetRoundTimer(Game.NextRound, ROUND_INTERMISSION_MS);
      }
    }

    method CloseRound()
      modifies this
      ensures State() == Game.CloseRound(old(State()))
    {
      ClearRoundTimer();
      drawerId, word, roundEndsAt := None, None, None;
    }

    method HandleGuess(player: Game.Player, text: string) returns (hidden: bool)
      modifies this
      ensures (State(), hidden) == Game.Guess(old(State()), player, text)
    {
      if phase != Playing || word.None? || word.value == "" {
        return false;
      }
      var guess, answer := Normalize(text), Normalize(word.value);
      if drawerId != Some(player.id) && player.id !in solved && guess == answer {
        Solve(player);
        return true;
      }
      hidden := Contains(guess, answer);
    }

    /** The branch of handleGuess for the right answer. */
    method Solve(player: Game.Player)
      modifies this
      ensures State() == Game.Solve(old(State()), player)
    {
      Score(player.id);
      Broadcast(CorrectAnswer(player.id, player.nickname, Game.Cards(players)), None);
      var unsolved := UnsolvedGuesserCount();
      if unsolved == 0 {
        EndRound();
      }
    }

    method Score(guesser: PlayerId)
      modifies this`solved, this`players
      ensures State() == Game.Score(old(State()), guesser)
    {
      solved := solved + {guesser};
      var remaining := match Game.RemainingMs(State()) case None => 0 case Some(ms) => ms;
      players := Game.Award(players, guesser, Game.SolverGain(remaining));
      if drawerId.Some? {
        players := Game.Award(players, drawerId.value, DRAWER_SCORE_PER_SOLVER);
      }
    }

    method HandlePlayerLeftDuringGame(left: PlayerId)
      modifies this
      ensures State() == Game.AfterDeparture(old(State()), left)
    {
      if phase != Playing {
        return;
      }
      if |players| < MIN_PLAYERS_TO_START {
        Announce(TooFewPlayersLeft);
        EndGame();
        return;
      }
      if drawerId == Some(left) {
        Announce(DrawerLeft);
        EndRound();
        return;
      }
      var unsolved := UnsolvedGuesserCount();
      if unsolved == 0 {
        EndRound();
      }
    }

    /** A timeout's callback runs; it is no longer pending. */
    method OnTimeout(timer: Game.TimerId) returns (ghost pick: string)
      requires timer in world.alarms
      modifies this
      ensures pick in Candidates(old(usedWords))
      ensures State() == Game.Fire(old(State()), timer, pick)
      ensures old(Valid() && world.alarms[timer].due <= world.now) ==> Valid()
    {
      ghost var s := State();
      forall w | Valid() && Game.Enabled(s, Game.Alert(timer, w)) ensures RoomInvariant.Inv(Game.Fire(s, timer, w)) {
        RoomInvariant.AlertSettles(s, timer, w);
      }
      pick := Candidates(usedWords)[0];
      var kind := world.alarms[timer].kind;
      world := world.(alarms := world.alarms - {timer});
      match kind
      case RoundOver => EndRound();
      case NextRound =>
        if phase == Playing {
          if |players| < MIN_PLAYERS_TO_START || drawerQueue == [] {
            EndGame();
          } else {
            pick := StartRound();
          }
        }
    }

    // -------------------------------------------------------------- index.ts

    /** The end of handleJoin. */
    method CommitJoin(playerId: PlayerId, userId: Option<UserId>, nickname: string)
      modifies this
      ensures State() == Game.CommitJoin(old(State()), playerId, userId, nickname)
      ensures old(Valid() && playerId !in Game.Ids(players)) ==> Valid()
    {
      if Valid() && playerId !in Game.Ids(players) {
        RoomInvariant.JoinSettles(State(), playerId, userId, nickname);
      }
      if |players| >= capacity {
        return;
      }
      players := players + [Game.Player(playerId, userId, nickname, 0)];
      world := world.(open := world.open + {playerId});
      if phase == Playing {
        drawerQueue := drawerQueue + [playerId];
      }
      var you := Card(playerId, nickname, 0);
      Send(playerId, Game.SnapshotFor(State(), you));
      Broadcast(PlayerJoined(you, |players|), Some(playerId));
      Announce(Entered(nickname));
    }

    method HandleClose(playerId: PlayerId)
      modifies this
      ensures State() == Game.HandleClose(old(State()), playerId)
      ensures old(Valid() && playerId in Game.Ids(players)) ==> Valid()
    {
      if Valid() && playerId in Game.Ids(players) {
        RoomInvariant.LeaveSettles(State(), playerId);
      }
      var player := Game.Find(players, playerId);
      var nickname := match player case None => "익명" case Some(p) => p.nickname;
      world := world.(open := world.open - {playerId});
      RemovePlayer(playerId);
      Broadcast(PlayerLeft(playerId, nickname, |players|), None);
      Announce(Exited(nickname));
      HandlePlayerLeftDuringGame(playerId);
    }

    method HandleChat(playerId: PlayerId, text: string)
      modifies this
      ensures State() == Game.HandleChat(old(State()), playerId, text)
      ensures old(Valid()) ==> Valid()
    {
      if Valid() {
        RoomInvariant.ChatSettles(State(), playerId, text);
      }
      var player := Game.Find(players, playerId);
      if player.None? {
        return;
      }
      var trimmed := Clip(Trim(text), MAX_CHAT_LENGTH);
      if trimmed == "" {
        return;
      }
      var hidden := HandleGuess(player.value, trimmed);
      if !hidden {
        Broadcast(ChatLine(playerId, player.value.nickname, trimmed, world.now), None);
      }
    }

    method HandleDraw(playerId: PlayerId, stroke: Stroke)
      modifies this`strokes, this`world
      ensures State() == Game.HandleDraw(old(State()), playerId, stroke)
      ensures old(Valid()) ==> Valid()
    {
      if Valid() {
        RoomInvariant.StepKeepsInv(State(), Game.Paint(playerId, stroke));
      }
      if phase != Playing || drawerId != Some(playerId) || stroke.points == [] {
        return;
      }
      var sanitized := Game.Sanitize(stroke);
      if |strokes| < MAX_BUFFERED_STROKES {
        strokes := strokes + [sanitized];
      }
      Broadcast(Draw(sanitized), Some(playerId));
    }

    method HandleDrawClear(playerId: PlayerId)
      modifies this`strokes, this`world
      ensures State() == Game.HandleDrawClear(old(State()), playerId)
      ensures old(Valid()) ==> Valid()
    {
      if Valid() {
        RoomInvariant.StepKeepsInv(State(), Game.Wipe(playerId));
      }
      if phase != Playing || drawerId != Some(playerId) {
        return;
      }
      ClearStrokes();
      Broadcast(DrawClear, Some(playerId));
    }

    /** A player's socket stops being OPEN; the close event comes later. */
    method SocketDies(playerId: PlayerId)
      modifies this`world
      ensures State() == Game.Step(old(State()), Game.Drop(playerId))
      ensures old(Valid()) ==> Valid()
    {
      if Valid() {
        RoomInvariant.StepKeepsInv(State(), Game.Drop(playerId));
      }
      world := world.(open := world.open - {playerId});
    }
  }

  /** The rooms of one process, by code. */
  class RoomManager {
    var rooms: map<RoomId, Room>

    constructor ()
      ensures rooms == map[]
    {
      rooms := map[];
    }

    /** `rooms.get(roomId)`, or a new room. */
    method GetOrCreate(roomId: RoomId, now: int) returns (room: Room)
      modifies this
      ensures roomId in rooms && room == rooms[roomId]
      ensures roomId in old(rooms) ==> rooms == old(rooms)
      ensures roomId !in old(rooms) ==>
                fresh(room) && room.id == roomId && room.State() == Game.NewRoom(roomId, now)
                && rooms == old(rooms)[roomId := room]
    {
      if roomId in rooms {
        room := rooms[roomId];
      } else {
        room := new Room(roomId, now);
        rooms := rooms[roomId := room];
      }
    }

    /** Deletes the room if it is empty, with its timeout cleared; no other room is touched. */
    method RemoveIfEmpty(roomId: RoomId) returns (removed: bool)
      modifies this, if roomId in rooms then {rooms[roomId]} else {}
      ensures removed <==> roomId in old(rooms) && old(rooms[roomId].players) == []
      ensures removed ==> rooms == old(rooms) - {roomId}
                          && old(rooms)[roomId].State() == Game.ClearRoundTimer(old(rooms[roomId].State()))
      ensures !removed ==> rooms == old(rooms)
                           && (roomId in rooms ==> rooms[roomId].State() == old(rooms[roomId].State()))
    {
      if roomId in rooms && rooms[roomId].players == [] {
        rooms[roomId].ClearRoundTimer();
        rooms := rooms - {roomId};
        return true;
      }
      return false;
    }
  }
}
