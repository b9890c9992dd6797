/**
 * All connections and rooms of one game-session process (index.ts, RoomManager in room.ts). A join suspends twice,
 * at `await state.identity` and at `await isRoomAssignedHere`; everything else may happen in between.
 */
module Server {
  import opened Basics
  import opened Protocol
  import opened Game
  import opened RoomInvariant
  import History
  import Accounting
  import Replica

  type ConnId = nat

  /** Where a connection's handleJoin stands; `state.joining` is `at != Free`. */
  datatype Progress =
    | Free
    | AwaitIdentity(room: RoomId)
    | AwaitAssignment(room: RoomId, userId: Option<UserId>, nickname: string)

  datatype Seat = Seat(room: RoomId, player: PlayerId)

  datatype Conn = Conn(
    open: bool,               // socket.readyState === OPEN
    closed: bool,             // the close event was handled
    at: Progress,
    joined: Option<Seat>)     // joinedRoomId and playerId

  datatype Process = Process(
    conns: map<ConnId, Conn>,
    rooms: map<RoomId, Live>,
    issued: set<PlayerId>,              // player ids made so far
    owner: map<PlayerId, ConnId>,       // for which connection
    games: set<GameId>,                 // game ids made so far
    removed: seq<Live>)                 // rooms at the moment they were deleted

  const BOOT := Process(map[], map[], {}, map[], {}, [])

  datatype Action =
    | Connect(conn: ConnId)
    | JoinMessage(conn: ConnId, room: RoomId)
    | IdentityKnown(conn: ConnId, userId: Option<UserId>, nickname: string, player: PlayerId)
    | AssignmentKnown(conn: ConnId, here: bool, player: PlayerId, now: int)
    | SocketDies(conn: ConnId)
    | Closed(conn: ConnId)
    | Play(room: RoomId, event: Event)  // chat, drawing, start, timeouts, time: anything but coming and going

  predicate Possible(p: Process, a: Action) {
    match a
    case Connect(c) => c !in p.conns
    case JoinMessage(c, _) => c in p.conns && !p.conns[c].closed
    case IdentityKnown(c, _, _, player) => c in p.conns && p.conns[c].at.AwaitIdentity? && player !in p.issued
    case AssignmentKnown(c, _, player, _) => c in p.conns && p.conns[c].at.AwaitAssignment? && player !in p.issued
    case SocketDies(c) => c in p.conns && p.conns[c].open
    case Closed(c) => c in p.conns && !p.conns[c].open && !p.conns[c].closed
    case Play(r, e) =>
      r in p.rooms && !e.Join? && !e.Leave? && !e.Drop? && Enabled(p.rooms[r], e) && (e.Start? ==> e.gameId !in p.games)
  }

  /** The game ids an event uses up. */
  function GamesIn(e: Event): set<GameId> {
    match e case Start(gameId, _, _) => {gameId} case _ => {}
  }

  function With(p: Process, c: ConnId, conn: Conn): Process {
    p.(conns := p.conns[c := conn])
  }

  /** The end of handleJoin from `if (room.isFull)` on; live is the room found or created. */
  function TakeSeat(p: Process, c: ConnId, live: Live, userId: Option<UserId>, nickname: string, player: PlayerId)
      : Process
    requires c in p.conns
  {
    var r := live.room.id;
    if IsFull(live) then With(p.(rooms := p.rooms[r := live]), c, p.conns[c].(at := Free, open := false))
    else
      With(p.(rooms := p.rooms[r := CommitJoin(live, player, userId, nickname)], issued := p.issued + {player},
              owner := p.owner[player := c]),
           c, p.conns[c].(at := Free, joined := Some(Seat(r, player))))
  }

  /** handleClose and removeIfEmpty. */
  function Depart(p: Process, seat: Seat): Process {
    if seat.room !in p.rooms then p
    else
      var after := HandleClose(p.rooms[seat.room], seat.player);
      if after.room.players == [] then
        p.(rooms := p.rooms - {seat.room}, removed := p.removed + [ClearRoundTimer(after)])
      else p.(rooms := p.rooms[seat.room := after])
  }

  function Do(p: Process, a: Action): Process
    requires Possible(p, a)
  {
    match a
    case Connect(c) => With(p, c, Conn(true, false, Free, None))
    case JoinMessage(c, room) =>
      var conn := p.conns[c];
      if conn.joined.Some? || conn.at != Free then p else With(p, c, conn.(at := AwaitIdentity(room)))
    case IdentityKnown(c, userId, nickname, player) =>
      var conn := p.conns[c];
      if !conn.open then With(p, c, conn.(at := Free))
      else if conn.at.room !in p.rooms then With(p, c, conn.(at := AwaitAssignment(conn.at.room, userId, nickname)))
      else TakeSeat(p, c, p.rooms[conn.at.room], userId, nickname, player)
    case AssignmentKnown(c, here, player, now) =>
      var conn := p.conns[c];
      if !here then With(p, c, conn.(at := Free, open := false))
      else if !conn.open then With(p, c, conn.(at := Free))
      else
        var live := if conn.at.room in p.rooms then p.rooms[conn.at.room] else NewRoom(conn.at.room, now);
        TakeSeat(p, c, live, conn.at.userId, conn.at.nickname, player)
    case SocketDies(c) =>
      var dead := With(p, c, p.conns[c].(open := false));
      (match p.conns[c].joined
       case None => dead
       case Some(seat) =>
         if seat.room !in p.rooms then dead
         else dead.(rooms := p.rooms[seat.room := Step(p.rooms[seat.room], Drop(seat.player))]))
    case Closed(c) =>
      var gone := With(p, c, p.conns[c].(closed := true));
      (match p.conns[c].joined case None => gone case Some(seat) => Depart(gone, seat))
    case Play(r, e) => p.(rooms := p.rooms[r := Step(p.rooms[r], e)], games := p.games + GamesIn(e))
  }

  predicate Run(actions: seq<Action>)
    decreases |actions|, 0
  {
    actions != [] ==>
      var n := |actions| - 1;
      Run(actions[..n]) && Possible(After(actions[..n]), actions[n])
  }

  function After(actions: seq<Action>): Process
    requires Run(actions)
    decreases |actions|, 1
  {
    if actions == [] then BOOT else Do(After(actions[..|actions| - 1]), actions[|actions| - 1])
  }

  // ---------------------------------------------------------------- invariants

  predicate Sits(p: Process, seat: Seat) {
    seat.room in p.rooms && seat.player in Ids(p.rooms[seat.room].room.players)
  }

  /** A connection that joined and is not closed has its seat; nobody else uses its player id. */
  predicate ConnSound(p: Process, c: ConnId)
    requires c in p.conns
  {
    var conn := p.conns[c];
    && (conn.closed ==> !conn.open)
    && (conn.joined.Some? ==>
          && conn.at == Free
          && conn.joined.value.player in p.issued
          && conn.joined.value.player in p.owner && p.owner[conn.joined.value.player] == c
          && (!conn.closed ==> Sits(p, conn.joined.value)))
  }

  /** Every seat belongs to a connection that joined that room and is not closed. */
  predicate Owned(p: Process, r: RoomId, player: PlayerId) {
    && player in p.owner && p.owner[player] in p.conns
    && p.conns[p.owner[player]].joined == Some(Seat(r, player)) && !p.conns[p.owner[player]].closed
  }

  /** Everyone seated in the room owns the seat. */
  predicate SeatsOwned(p: Process, r: RoomId, live: Live) {
    forall player :: player in Ids(live.room.players) ==> Owned(p, r, player)
  }

  /** The events es lead from the new room r to live, and use no ids but those given. */
  predicate Led(r: RoomId, now: int, es: seq<Event>, live: Live, issued: set<PlayerId>, games: set<GameId>) {
    && History.Run(History.Opening(r, now), es)
    && var c := History.After(History.Opening(r, now), es);
       && c.live == live && c.record.seen <= issued && forall g :: g in c.record.started ==> g in games
  }

  /** The room has come about by a run of a new room. */
  ghost predicate IsRun(r: RoomId, live: Live, issued: set<PlayerId>, games: set<GameId>) {
    exists now, es :: Led(r, now, es, live, issued, games)
  }

  /** What holds of a room on its own. */
  ghost predicate Healthy(r: RoomId, live: Live, issued: set<PlayerId>, games: set<GameId>) {
    && live.room.id == r && live.room.capacity == DEFAULT_ROOM_CAPACITY
    && Inv(live) && IsRun(r, live, issued, games)
  }

  /** Connections and seats belong together, and no room is empty. */
  predicate Seating(p: Process) {
    && (forall c :: c in p.conns ==> ConnSound(p, c))
    && (forall r :: r in p.rooms ==> p.rooms[r].room.players != [] && SeatsOwned(p, r, p.rooms[r]))
  }

  ghost predicate AllHealthy(rooms: map<RoomId, Live>, issued: set<PlayerId>, games: set<GameId>) {
    forall r :: r in rooms ==> Healthy(r, rooms[r], issued, games)
  }

  /** Nothing is pending for a room that was removed. */
  predicate AllQuiet(removed: seq<Live>) {
    forall i :: 0 <= i < |removed| ==> removed[i].world.alarms == map[]
  }

  ghost predicate Sound(p: Process) {
    Seating(p) && AllHealthy(p.rooms, p.issued, p.games) && AllQuiet(p.removed)
  }

  // ---------------------------------------------------------------- rooms go on with their runs

  lemma NewRoomIsRun(r: RoomId, now: int, issued: set<PlayerId>, games: set<GameId>)
    ensures Healthy(r, NewRoom(r, now), issued, games)
  {
    assert Led(r, now, [], NewRoom(r, now), issued, games);
  }

  lemma HealthyWithMoreIds(r: RoomId, live: Live, issued: set<PlayerId>, games: set<GameId>, issued': set<PlayerId>,
                           games': set<GameId>)
    requires Healthy(r, live, issued, games) && issued <= issued' && games <= games'
    ensures Healthy(r, live, issued', games')
  {
    var now, es :| Led(r, now, es, live, issued, games);
    assert Led(r, now, es, live, issued', games');
  }

  lemma AllHealthyWith(rooms: map<RoomId, Live>, issued: set<PlayerId>, games: set<GameId>, r: RoomId, live: Live,
                       issued': set<PlayerId>, games': set<GameId>)
    requires AllHealthy(rooms, issued, games) && issued <= issued' && games <= games'
    requires Healthy(r, live, issued', games')
    ensures AllHealthy(rooms[r := live], issued', games')
  {
    forall x | x in rooms ensures Healthy(x, rooms[x], issued', games') {
      HealthyWithMoreIds(x, rooms[x], issued, games, issued', games');
    }
  }

  /** An event whose ids are new to the process. */
  predicate NewIds(e: Event, issued: set<PlayerId>, games: set<GameId>) {
    match e
    case Join(id, _, _) => id !in issued
    case Start(gameId, _, _) => gameId !in games
    case _ => true
  }

  function PlayersIn(e: Event): set<PlayerId> {
    match e case Join(id, _, _) => {id} case _ => {}
  }

  lemma IdsNoted(c: History.Tracked, e: Event)
    requires History.May(c, e)
    ensures History.Next(c, e).record.seen <= c.record.seen + PlayersIn(e)
    ensures forall g :: g in History.Next(c, e).record.started ==> g in c.record.started || g in GamesIn(e)
  {
  }

  lemma RunGoesOn(r: RoomId, live: Live, issued: set<PlayerId>, games: set<GameId>, e: Event)
    requires IsRun(r, live, issued, games) && Enabled(live, e) && NewIds(e, issued, games)
    ensures IsRun(r, Step(live, e), issued + PlayersIn(e), games + GamesIn(e))
  {
    var now, es :| Led(r, now, es, live, issued, games);
    var c := History.After(History.Opening(r, now), es);
    assert History.FreshIds(c.record, e);
    History.RunGrows(History.Opening(r, now), es, e);
    IdsNoted(c, e);
    assert Led(r, now, es + [e], Step(live, e), issued + PlayersIn(e), games + GamesIn(e));
  }

  /** A room that meets an event with new ids stays healthy. */
  lemma HealthyGoesOn(r: RoomId, live: Live, issued: set<PlayerId>, games: set<GameId>, e: Event)
    requires Healthy(r, live, issued, games) && Enabled(live, e) && NewIds(e, issued, games)
    requires Step(live, e).room.id == live.room.id && Step(live, e).room.capacity == live.room.capacity
    ensures Healthy(r, Step(live, e), issued + PlayersIn(e), games + GamesIn(e))
  {
    StepKeepsInv(live, e);
    RunGoesOn(r, live, issued, games, e);
  }

  // ---------------------------------------------------------------- what a room event does to the seats

  predicate SameSeats(s: Live, t: Live) {
    Ids(t.room.players) == Ids(s.room.players) && t.room.id == s.room.id && t.room.capacity == s.room.capacity
  }

  lemma EndGameKeepsSeats(s: Live)
    ensures SameSeats(s, EndGame(s))
  {
  }

  lemma EndRoundKeepsSeats(s: Live)
    ensures SameSeats(s, EndRound(s))
  {
  }

  lemma StartRoundKeepsSeats(s: Live, word: string)
    ensures SameSeats(s, StartRound(s, word))
  {
  }

  lemma SayKeepsSeats(s: Live, id: PlayerId, text: string)
    ensures SameSeats(s, HandleChat(s, id, text))
  {
    var found := Find(s.room.players, id);
    if found.Some? {
      var scored := Score(s, id);
      assert Ids(scored.room.players) == Ids(s.room.players);
      EndRoundKeepsSeats(Broadcast(scored, CorrectAnswer(id, found.value.nickname, Cards(scored.room.players)), None));
    }
  }

  lemma {:induction false} PlayKeepsSeats(s: Live, e: Event)
    requires Enabled(s, e) && !e.Join? && !e.Leave?
    ensures SameSeats(s, Step(s, e))
  {
    match e
    case Say(id, text) => SayKeepsSeats(s, id, text);
    case Start(gameId, order, word) => StartRoundKeepsSeats(Announced(s, gameId, order), word);
    case Alert(t, word) =>
      var due := s.(world := s.world.(alarms := s.world.alarms - {t}));
      EndGameKeepsSeats(due);
      EndRoundKeepsSeats(due);
      StartRoundKeepsSeats(due, word);
    case _ =>
  }

  lemma DepartureKeepsSeats(s: Live, id: PlayerId)
    ensures SameSeats(s, AfterDeparture(s, id))
  {
  }

  lemma {:induction false} CloseTakesSeat(s: Live, id: PlayerId)
    ensures Ids(HandleClose(s, id).room.players) == Without(Ids(s.room.players), id)
    ensures HandleClose(s, id).room.id == s.room.id && HandleClose(s, id).room.capacity == s.room.capacity
  {
    DepartureKeepsSeats(Farewell(s, id), id);
  }

  lemma JoinAddsSeat(s: Live, id: PlayerId, userId: Option<UserId>, nickname: string)
    requires !IsFull(s)
    ensures Ids(CommitJoin(s, id, userId, nickname).room.players) == Ids(s.room.players) + [id]
    ensures CommitJoin(s, id, userId, nickname).room.id == s.room.id
    ensures CommitJoin(s, id, userId, nickname).room.capacity == s.room.capacity
  {
    var seated := s.room.players + [Player(id, userId, nickname, 0)];
    assert Ids(seated) == Ids(s.room.players) + [id];
  }

  /** A room without players has nothing pending. */
  lemma EmptyRoomIsQuiet(s: Live)
    requires Inv(s) && s.room.players == []
    ensures s.world.alarms == map[] && s.room.roundTimer.None?
  {
  }

  // ---------------------------------------------------------------- every action keeps the process sound

  /** A connection changes without touching its seat. */
  lemma ConnChanges(p: Process, c: ConnId, conn: Conn)
    requires Seating(p)
    requires c in p.conns ==> conn.joined == p.conns[c].joined && conn.closed == p.conns[c].closed
    requires c !in p.conns ==> conn.joined.None?
    requires (conn.closed ==> !conn.open) && (conn.joined.Some? ==> conn.at == Free)
    requires c !in p.conns ==> forall player :: player in p.owner ==> p.owner[player] in p.conns
    ensures Seating(With(p, c, conn))
  {
    var q := With(p, c, conn);
    forall d | d in q.conns ensures ConnSound(q, d) {
      if d in p.conns {
        assert ConnSound(p, d);
      }
    }
    forall r, player | r in q.rooms && player in Ids(q.rooms[r].room.players) ensures Owned(q, r, player) {
      assert SeatsOwned(p, r, p.rooms[r]) && Owned(p, r, player);
    }
  }

  /** One room is replaced by a state with the same seats. */
  lemma RoomChanges(p: Process, r: RoomId, live: Live, games: set<GameId>)
    requires Seating(p) && r in p.rooms && SameSeats(p.rooms[r], live)
    ensures Seating(p.(rooms := p.rooms[r := live], games := games))
  {
    var q := p.(rooms := p.rooms[r := live], games := games);
    assert Ids(live.room.players) == Ids(p.rooms[r].room.players);
    assert |Ids(live.room.players)| == |Ids(p.rooms[r].room.players)|;
    forall d | d in q.conns ensures ConnSound(q, d) {
      assert ConnSound(p, d);
    }
    forall x, player | x in q.rooms && player in Ids(q.rooms[x].room.players) ensures Owned(q, x, player) {
      assert SeatsOwned(p, x, p.rooms[x]) && Owned(p, x, player);
    }
  }

  predicate OwnersExist(p: Process) {
    forall player :: player in p.owner ==> p.owner[player] in p.conns && player in p.issued
  }

  /** No room but r differs. */
  ghost predicate OtherRoomsSame(p: Process, q: Process, r: RoomId) {
    forall x :: x != r ==>
      (x in q.rooms <==> x in p.rooms) && (x in p.rooms && x in q.rooms ==> q.rooms[x] == p.rooms[x])
  }

  /**
   * A join that resumes finds a full room and is turned away, its connection alone changing, or it adds its own new
   * player to the room and nothing else.
   */
  lemma SeatTaken(p: Process, c: ConnId, live: Live, userId: Option<UserId>, nickname: string, player: PlayerId)
    requires Sound(p) && OwnersExist(p) && c in p.conns && player !in p.issued
    requires p.conns[c].open && p.conns[c].joined.None? && Found(p, live)
    ensures var q := TakeSeat(p, c, live, userId, nickname, player);
            && Sound(q)
            && if IsFull(live) then q == With(p, c, p.conns[c].(at := Free, open := false))
               else SeatAdded(p, c, live, q, player)
  {
    if IsFull(live) {
      TurnedAway(p, c, live);
    } else {
      Seated(p, c, live, userId, nickname, player);
      SeatIsAdded(p, c, live, userId, nickname, player);
    }
  }

  lemma SeatIsAdded(p: Process, c: ConnId, live: Live, userId: Option<UserId>, nickname: string, player: PlayerId)
    requires c in p.conns && !IsFull(live)
    ensures SeatAdded(p, c, live, TakeSeat(p, c, live, userId, nickname, player), player)
  {
    JoinAddsSeat(live, player, userId, nickname);
  }

  lemma TurnedAway(p: Process, c: ConnId, live: Live)
    requires Sound(p) && c in p.conns && p.conns[c].joined.None? && p.conns[c].open && Found(p, live) && IsFull(live)
    ensures live.room.id in p.rooms && p.rooms[live.room.id := live] == p.rooms
    ensures Sound(With(p, c, p.conns[c].(at := Free, open := false)))
  {
    assert ConnSound(p, c);
    assert live.room.capacity == DEFAULT_ROOM_CAPACITY;
    ConnChanges(p, c, p.conns[c].(at := Free, open := false));
  }

  /** What a new seat changes. */
  predicate SeatAdded(p: Process, c: ConnId, live: Live, q: Process, player: PlayerId) {
    var r := live.room.id;
    && c in p.conns && q.conns == p.conns[c := p.conns[c].(at := Free, joined := Some(Seat(r, player)))]
    && q.issued == p.issued + {player} && q.owner == p.owner[player := c] && q.games == p.games
    && r in q.rooms && q.rooms == p.rooms[r := q.rooms[r]]
    && Ids(q.rooms[r].room.players) == Ids(live.room.players) + [player]
  }

  /** The room is a room of the process, or it is new and empty. */
  predicate Present(p: Process, live: Live) {
    if live.room.id in p.rooms then live == p.rooms[live.room.id] else live.room.players == []
  }

  /** The room a join found or created. */
  ghost predicate Found(p: Process, live: Live) {
    Present(p, live) && Healthy(live.room.id, live, p.issued, p.games)
  }

  /** Those who sit in a room that was found are not the newcomer. */
  lemma NewcomerIsNew(p: Process, live: Live, player: PlayerId)
    requires Seating(p) && OwnersExist(p) && Present(p, live) && player !in p.issued
    ensures player !in Ids(live.room.players)
  {
    var r := live.room.id;
    if r in p.rooms {
      assert SeatsOwned(p, r, live);
      assert player in Ids(live.room.players) ==> Owned(p, r, player);
    }
  }

  lemma Seated(p: Process, c: ConnId, live: Live, userId: Option<UserId>, nickname: string, player: PlayerId)
    requires Sound(p) && OwnersExist(p) && c in p.conns && player !in p.issued
    requires p.conns[c].open && p.conns[c].joined.None? && Found(p, live) && !IsFull(live)
    ensures Sound(TakeSeat(p, c, live, userId, nickname, player))
  {
    var r := live.room.id;
    var q := TakeSeat(p, c, live, userId, nickname, player);
    NewcomerIsNew(p, live, player);
    NewcomerIsHealthy(p, live, userId, nickname, player);
    AllHealthyWith(p.rooms, p.issued, p.games, r, CommitJoin(live, player, userId, nickname), q.issued, p.games);
    SeatIsAdded(p, c, live, userId, nickname, player);
    SeatKeepsSeating(p, c, live, q, player);
  }

  lemma NewcomerIsHealthy(p: Process, live: Live, userId: Option<UserId>, nickname: string, player: PlayerId)
    requires Found(p, live) && player !in p.issued && player !in Ids(live.room.players) && !IsFull(live)
    ensures Healthy(live.room.id, CommitJoin(live, player, userId, nickname), p.issued + {player}, p.games)
  {
    JoinAddsSeat(live, player, userId, nickname);
    HealthyGoesOn(live.room.id, live, p.issued, p.games, Join(player, userId, nickname));
    assert p.games + {} == p.games;
  }

  lemma SeatKeepsSeating(p: Process, c: ConnId, live: Live, q: Process, player: PlayerId)
    requires Seating(p) && OwnersExist(p) && Present(p, live) && SeatAdded(p, c, live, q, player)
    requires p.conns[c].open && p.conns[c].joined.None? && player !in p.issued
    ensures Seating(q)
  {
    var r := live.room.id;
    var ids := Ids(q.rooms[r].room.players);
    assert ids[|ids| - 1] == player;
    SeatKeepsConns(p, c, live, q, player);
    forall x, seated | x in q.rooms && seated in Ids(q.rooms[x].room.players) ensures Owned(q, x, seated) {
      if x != r || seated in Ids(live.room.players) {
        assert x in p.rooms && SeatsOwned(p, x, p.rooms[x]) && Owned(p, x, seated);
      }
    }
  }

  lemma SeatKeepsConns(p: Process, c: ConnId, live: Live, q: Process, player: PlayerId)
    requires Seating(p) && OwnersExist(p) && Present(p, live) && SeatAdded(p, c, live, q, player)
    requires p.conns[c].open && p.conns[c].joined.None? && player !in p.issued
    requires player in Ids(q.rooms[live.room.id].room.players)
    ensures forall d :: d in q.conns ==> ConnSound(q, d)
  {
    forall d | d in q.conns ensures ConnSound(q, d) {
      assert ConnSound(p, d);
      assert d != c && p.conns[d].joined.Some? && Sits(p, p.conns[d].joined.value) ==> Sits(q, p.conns[d].joined.value);
    }
  }

  /** A close takes away its own player and nothing else, and the room with its last player. */
  lemma Departed(p: Process, c: ConnId, seat: Seat)
    requires Sound(p) && c in p.conns && !p.conns[c].open && !p.conns[c].closed && p.conns[c].joined == Some(seat)
    ensures var q := Depart(With(p, c, p.conns[c].(closed := true)), seat);
            Sound(q) && Sits(p, seat) && SeatGone(p, c, seat, q)
  {
    assert ConnSound(p, c) && Sits(p, seat);
    RoomAfterDeparture(p, seat);
    SeatIsGone(p, c, seat);
    DepartureKeepsSeating(p, c, seat, Depart(With(p, c, p.conns[c].(closed := true)), seat));
    var after := HandleClose(p.rooms[seat.room], seat.player);
    AllHealthyWith(p.rooms, p.issued, p.games, seat.room, after, p.issued, p.games);
  }

  lemma SeatIsGone(p: Process, c: ConnId, seat: Seat)
    requires c in p.conns && Sits(p, seat) && Distinct(Ids(p.rooms[seat.room].room.players))
    ensures SeatGone(p, c, seat, Depart(With(p, c, p.conns[c].(closed := true)), seat))
  {
    var after := HandleClose(p.rooms[seat.room], seat.player);
    CloseTakesSeat(p.rooms[seat.room], seat.player);
    LastOneOut(Ids(p.rooms[seat.room].room.players), seat.player);
    assert |Ids(after.room.players)| == |after.room.players|;
  }

  lemma LastOneOut(ids: seq<PlayerId>, id: PlayerId)
    requires Distinct(ids) && id in ids
    ensures Without(ids, id) == [] <==> ids == [id]
  {
    WithoutOfDistinct(ids, id);
    if |ids| == 1 {
      assert ids == [ids[0]];
    }
  }

  lemma RoomAfterDeparture(p: Process, seat: Seat)
    requires AllHealthy(p.rooms, p.issued, p.games) && Sits(p, seat)
    ensures var after := HandleClose(p.rooms[seat.room], seat.player);
            && Distinct(Ids(p.rooms[seat.room].room.players))
            && Healthy(seat.room, after, p.issued, p.games)
            && Ids(after.room.players) == Without(Ids(p.rooms[seat.room].room.players), seat.player)
            && (after.room.players == [] ==> ClearRoundTimer(after).world.alarms == map[])
  {
    var live := p.rooms[seat.room];
    CloseTakesSeat(live, seat.player);
    HealthyGoesOn(seat.room, live, p.issued, p.games, Leave(seat.player));
    assert p.issued + {} == p.issued && p.games + {} == p.games;
    var after := HandleClose(live, seat.player);
    if after.room.players == [] {
      EmptyRoomIsQuiet(after);
    }
  }

  /** What a departure changes: the connection, and its room, which loses the player or, with its last one, goes. */
  ghost predicate SeatGone(p: Process, c: ConnId, seat: Seat, q: Process) {
    && c in p.conns && q.conns == p.conns[c := p.conns[c].(closed := true)]
    && q.owner == p.owner && q.issued == p.issued && q.games == p.games
    && Sits(p, seat) && OtherRoomsSame(p, q, seat.room)
    && var ids := Ids(p.rooms[seat.room].room.players);
       if ids == [seat.player] then seat.room !in q.rooms
       else seat.room in q.rooms && Ids(q.rooms[seat.room].room.players) == Without(ids, seat.player) != []
  }

  lemma DepartureKeepsSeating(p: Process, c: ConnId, seat: Seat, q: Process)
    requires Seating(p) && SeatGone(p, c, seat, q) && !p.conns[c].open && p.conns[c].joined == Some(seat)
    ensures Seating(q)
  {
    WithoutMembers(Ids(p.rooms[seat.room].room.players), seat.player);
    forall d | d in q.conns ensures ConnSound(q, d) {
      assert ConnSound(p, c) && ConnSound(p, d);
      if d != c && p.conns[d].joined.Some? && !p.conns[d].closed {
        StaysSeated(p, c, seat, q, p.conns[d].joined.value);
      }
    }
    forall x | x in q.rooms ensures q.rooms[x].room.players != [] && SeatsOwned(q, x, q.rooms[x]) {
      SeatsStayOwned(p, c, seat, q, x);
    }
  }

  /** Another player is still in its room. */
  lemma StaysSeated(p: Process, c: ConnId, seat: Seat, q: Process, other: Seat)
    requires SeatGone(p, c, seat, q) && Sits(p, other) && other.player != seat.player
    ensures Sits(q, other)
  {
    WithoutMembers(Ids(p.rooms[seat.room].room.players), seat.player);
  }

  /** Those who stay own their seats as before. */
  lemma SeatsStayOwned(p: Process, c: ConnId, seat: Seat, q: Process, x: RoomId)
    requires Seating(p) && SeatGone(p, c, seat, q) && p.conns[c].joined == Some(seat) && x in q.rooms
    ensures q.rooms[x].room.players != [] && SeatsOwned(q, x, q.rooms[x])
  {
    assert x in p.rooms;
    WithoutMembers(Ids(p.rooms[seat.room].room.players), seat.player);
    assert SeatsOwned(p, x, p.rooms[x]);
    forall seated | seated in Ids(q.rooms[x].room.players) ensures Owned(q, x, seated) {
      assert seated in Ids(p.rooms[x].room.players) && Owned(p, x, seated) && Seat(x, seated) != seat;
    }
  }

  lemma DoKeepsSound(p: Process, a: Action)
    requires Sound(p) && OwnersExist(p) && Possible(p, a)
    ensures Sound(Do(p, a))
  {
    match a
    case Connect(c) => ConnChanges(p, c, Conn(true, false, Free, None));
    case JoinMessage(c, room) =>
      if p.conns[c].joined.None? && p.conns[c].at == Free {
        assert ConnSound(p, c);
        ConnChanges(p, c, p.conns[c].(at := AwaitIdentity(room)));
      }
    case IdentityKnown(c, userId, nickname, player) => IdentityKeepsSound(p, c, userId, nickname, player);
    case AssignmentKnown(c, here, player, now) => AssignmentKeepsSound(p, c, here, player, now);
    case SocketDies(c) => SocketDiesKeepsSound(p, c);
    case Closed(c) =>
      if p.conns[c].joined.Some? {
        Departed(p, c, p.conns[c].joined.value);
      } else {
        ClosedBeforeJoin(p, c);
      }
    case Play(r, e) => PlayKeepsSound(p, r, e);
  }

  lemma PlayKeepsSound(p: Process, r: RoomId, e: Event)
    requires Sound(p) && Possible(p, Play(r, e))
    ensures Sound(Do(p, Play(r, e)))
  {
    var live, games := Step(p.rooms[r], e), p.games + GamesIn(e);
    PlayKeepsSeats(p.rooms[r], e);
    HealthyGoesOn(r, p.rooms[r], p.issued, p.games, e);
    assert p.issued + {} == p.issued;
    AllHealthyWith(p.rooms, p.issued, p.games, r, live, p.issued, games);
    RoomChanges(p, r, live, games);
  }

  lemma IdentityKeepsSound(p: Process, c: ConnId, userId: Option<UserId>, nickname: string, player: PlayerId)
    requires Sound(p) && OwnersExist(p) && Possible(p, IdentityKnown(c, userId, nickname, player))
    ensures Sound(Do(p, IdentityKnown(c, userId, nickname, player)))
  {
    var conn := p.conns[c];
    assert ConnSound(p, c) && conn.joined.None?;
    if !conn.open {
      ConnChanges(p, c, conn.(at := Free));
    } else if conn.at.room !in p.rooms {
      ConnChanges(p, c, conn.(at := AwaitAssignment(conn.at.room, userId, nickname)));
    } else {
      SeatTaken(p, c, p.rooms[conn.at.room], userId, nickname, player);
    }
  }

  lemma AssignmentKeepsSound(p: Process, c: ConnId, here: bool, player: PlayerId, now: int)
    requires Sound(p) && OwnersExist(p) && Possible(p, AssignmentKnown(c, here, player, now))
    ensures Sound(Do(p, AssignmentKnown(c, here, player, now)))
  {
    var conn := p.conns[c];
    assert ConnSound(p, c) && conn.joined.None?;
    if !here {
      ConnChanges(p, c, conn.(at := Free, open := false));
    } else if !conn.open {
      ConnChanges(p, c, conn.(at := Free));
    } else if conn.at.room in p.rooms {
      SeatTaken(p, c, p.rooms[conn.at.room], conn.at.userId, conn.at.nickname, player);
    } else {
      NewRoomIsRun(conn.at.room, now, p.issued, p.games);
      SeatTaken(p, c, NewRoom(conn.at.room, now), conn.at.userId, conn.at.nickname, player);
    }
  }

  lemma SocketDiesKeepsSound(p: Process, c: ConnId)
    requires Sound(p) && Possible(p, SocketDies(c))
    ensures Sound(Do(p, SocketDies(c)))
  {
    assert ConnSound(p, c);
    var dead := With(p, c, p.conns[c].(open := false));
    ConnChanges(p, c, p.conns[c].(open := false));
    if p.conns[c].joined.Some? && p.conns[c].joined.value.room in p.rooms {
      var seat := p.conns[c].joined.value;
      DropKeepsSound(dead, seat.room, seat.player);
    }
  }

  lemma DropKeepsSound(p: Process, r: RoomId, player: PlayerId)
    requires Sound(p) && r in p.rooms
    ensures Sound(p.(rooms := p.rooms[r := Step(p.rooms[r], Drop(player))]))
  {
    var live := Step(p.rooms[r], Drop(player));
    HealthyGoesOn(r, p.rooms[r], p.issued, p.games, Drop(player));
    assert p.issued + {} == p.issued && p.games + {} == p.games;
    AllHealthyWith(p.rooms, p.issued, p.games, r, live, p.issued, p.games);
    RoomChanges(p, r, live, p.games);
  }

  lemma ClosedBeforeJoin(p: Process, c: ConnId)
    requires Seating(p) && Possible(p, Closed(c)) && p.conns[c].joined.None?
    ensures Seating(With(p, c, p.conns[c].(closed := true)))
  {
    var q := With(p, c, p.conns[c].(closed := true));
    forall d | d in q.conns ensures ConnSound(q, d) {
      assert ConnSound(p, d);
    }
    forall r, player | r in q.rooms && player in Ids(q.rooms[r].room.players) ensures Owned(q, r, player) {
      assert SeatsOwned(p, r, p.rooms[r]) && Owned(p, r, player);
    }
  }

  lemma DoKeepsOwners(p: Process, a: Action)
    requires OwnersExist(p) && Possible(p, a)
    ensures OwnersExist(Do(p, a))
  {
  }

  lemma {:induction false} RunsAreSound(actions: seq<Action>)
    requires Run(actions)
    ensures Sound(After(actions)) && OwnersExist(After(actions))
    decreases |actions|
  {
    if actions != [] {
      var n := |actions| - 1;
      RunsAreSound(actions[..n]);
      DoKeepsSound(After(actions[..n]), actions[n]);
      DoKeepsOwners(After(actions[..n]), actions[n]);
    }
  }

  /**
   * A player is in a room exactly when its connection joined that room and was not closed; no two connections share
   * a player; every room kept has between one and capacity players and meets the room invariant; and no timeout is
   * pending for a removed room.
   */
  predicate Safe(p: Process) {
    && (forall c :: c in p.conns && p.conns[c].joined.Some? && !p.conns[c].closed ==> Sits(p, p.conns[c].joined.value))
    && (forall r, player :: r in p.rooms && player in Ids(p.rooms[r].room.players) ==>
          exists c :: c in p.conns && p.conns[c].joined == Some(Seat(r, player)) && !p.conns[c].closed)
    && (forall c, d :: c in p.conns && d in p.conns && p.conns[c].joined.Some? && p.conns[d].joined.Some? && c != d
          ==> p.conns[c].joined.value.player != p.conns[d].joined.value.player)
    && (forall r :: r in p.rooms ==> 1 <= |p.rooms[r].room.players| <= 100 && Inv(p.rooms[r]))
    && AllQuiet(p.removed)
  }

  /** Every interleaving of joins, replies, closes and play is safe. */
  lemma {:induction false} JoinsInterleaveSafely(actions: seq<Action>)
    requires Run(actions)
    ensures Safe(After(actions))
  {
    RunsAreSound(actions);
    SoundIsSafe(After(actions));
  }

  lemma SoundIsSafe(p: Process)
    requires Sound(p)
    ensures Safe(p)
  {
    forall c | c in p.conns && p.conns[c].joined.Some? && !p.conns[c].closed ensures Sits(p, p.conns[c].joined.value) {
      assert ConnSound(p, c);
    }
    forall r, player | r in p.rooms && player in Ids(p.rooms[r].room.players)
      ensures exists c :: c in p.conns && p.conns[c].joined == Some(Seat(r, player)) && !p.conns[c].closed
    {
      assert SeatsOwned(p, r, p.rooms[r]) && Owned(p, r, player);
    }
    forall c, d | c in p.conns && d in p.conns && p.conns[c].joined.Some? && p.conns[d].joined.Some? && c != d
      ensures p.conns[c].joined.value.player != p.conns[d].joined.value.player
    {
      assert ConnSound(p, c) && ConnSound(p, d);
    }
    forall r | r in p.rooms ensures 1 <= |p.rooms[r].room.players| <= 100 && Inv(p.rooms[r]) {
      assert Healthy(r, p.rooms[r], p.issued, p.games);
    }
  }

  /**
   * Every room of a process has come about by a run of a new room, so whatever holds in all runs holds of it: some
   * record of its past keeps the books, and its clients mirror it.
   */
  lemma RoomsAreRuns(actions: seq<Action>, r: RoomId)
    requires Run(actions) && r in After(actions).rooms
    ensures exists now, es ::
              && History.Run(History.Opening(r, now), es)
              && var c := History.After(History.Opening(r, now), es);
                 && c.live == After(actions).rooms[r] && Accounting.Good(c) && Replica.AllFaithful(c)
  {
    RunsAreSound(actions);
    var p := After(actions);
    assert Healthy(r, p.rooms[r], p.issued, p.games);
    var now, es :| Led(r, now, es, p.rooms[r], p.issued, p.games);
    Accounting.RunsStayGood(r, now, es);
    Replica.ClientsMirrorTheServer(r, now, es);
  }
}
