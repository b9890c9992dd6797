/** Values that cross the socket, and the game's rule constants (packages/shared/src/index.ts). */
module Protocol {
  import opened Basics

  const DEFAULT_ROOM_CAPACITY := 100
  const ROUND_DURATION_MS := 60000
  const ROUND_INTERMISSION_MS := 4000
  const MIN_PLAYERS_TO_START := 2
  const MAX_ROUNDS := 10
  const MAX_BUFFERED_STROKES := 3000
  const MAX_CHAT_LENGTH := 200
  const MAX_STROKE_POINTS := 256
  const BASE_ANSWER_SCORE := 10
  const SPEED_BONUS_SCORE := 90
  const DRAWER_SCORE_PER_SOLVER := 10

  // Identifiers are UUIDs and room codes in the system; only their identity matters here.
  type PlayerId = nat
  type UserId = nat
  type GameId = nat
  type RoomId = string

  datatype Phase = Waiting | Playing | Ended

  /** PlayerSummary: what other participants may see of a player. */
  datatype Card = Card(id: PlayerId, nickname: string, score: nat)

  datatype Point = Point(x: real, y: real)
  datatype Stroke = Stroke(points: seq<Point>, color: string, width: real)

  datatype Notice =
    | NeedMorePlayers
    | TooFewPlayersLeft
    | DrawerLeft
    | Entered(nickname: string)
    | Exited(nickname: string)

  datatype Message =
    | Snapshot(you: Card, players: seq<Card>, capacity: nat, phase: Phase, round: nat, totalRounds: nat,
               drawerId: Option<PlayerId>, remainingMs: Option<nat>, wordLength: Option<nat>, strokes: seq<Stroke>)
    | PlayerJoined(player: Card, playerCount: nat)
    | PlayerLeft(playerId: PlayerId, nickname: string, playerCount: nat)
    | ChatLine(speaker: PlayerId, nickname: string, text: string, at: int)
    | System(notice: Notice, at: int)
    | Draw(stroke: Stroke)
    | DrawClear
    | GameStarted(totalRounds: nat)
    | RoundStarted(round: nat, totalRounds: nat, drawer: PlayerId, drawerNickname: string,
                   remaining: nat, length: nat, word: Option<string>)
    | RoundEnded(round: nat, answer: string, players: seq<Card>)
    | CorrectAnswer(playerId: PlayerId, nickname: string, players: seq<Card>)
    | GameEnded(players: seq<Card>)

  /** One player's line in a game-finished event. */
  datatype ResultPlayer =
    ResultPlayer(playerId: PlayerId, userId: Option<UserId>, nickname: string, score: nat, rank: nat)

  /** The game-finished event. */
  datatype GameResult =
    GameResult(gameId: GameId, roomId: RoomId, finishedAt: int, roundsPlayed: nat, players: seq<ResultPlayer>)

  /** What the receiving service demands of an event, beyond the shape of its identifiers and dates. */
  predicate Acceptable(event: GameResult) {
    && event.players != []
    && forall p :: p in event.players ==> p.rank >= 1
  }
}
