/**
 * The connection handlers of index.ts over the objects they share: one RoomManager, its Room objects, and the
 * connection states. There is one method for each stretch between two awaits and for each message; each is proved to
 * be one action of the protocol in Server, to keep the process valid and to leave every other room alone.
 */
module Session {
  import opened Basics
  import opened Protocol
  import opened Server
  import Game
  import LiveRoom

  lemma UpdateThenRemove<K, V>(m: map<K, V>, k: K, v: V)
    ensures m[k := v] - {k} == m - {k}
  {
  }

  /** Opening the room first makes no difference to taking a seat in it. */
  lemma SeatInOpenedRoom(p: Process, c: ConnId, live: Game.Live, userId: Option<UserId>, nickname: string,
                         player: PlayerId)
    requires c in p.conns
    ensures TakeSeat(p.(rooms := p.rooms[live.room.id := live]), c, live, userId, nickname, player)
            == TakeSeat(p, c, live, userId, nickname, player)
  {
    var r := live.room.id;
    var seated := Game.CommitJoin(live, player, userId, nickname);
    assert p.rooms[r := live][r := live] == p.rooms[r := live];
    assert p.rooms[r := live][r := seated] == p.rooms[r := seated];
  }

  /** The seat of a connection whose room exists. */
  function SeatOf(p: Process, conn: ConnId): Option<Seat>
    requires conn in p.conns
  {
    match p.conns[conn].joined
    case None => None
    case Some(seat) => if seat.room in p.rooms then Some(seat) else None
  }

  /** Playing an event changes its room and the game ids, and nothing else. */
  lemma PlayIs(p: Process, r: RoomId, e: Game.Event, live: Game.Live)
    requires Possible(p, Play(r, e)) && live == Game.Step(p.rooms[r], e)
    ensures Do(p, Play(r, e)) == p.(rooms := p.rooms[r := live], games := p.games + GamesIn(e))
  {
  }

  class GameSession {
    const manager: LiveRoom.RoomManager
    var conns: map<ConnId, Conn>
    // What the proof remembers: ids handed out, whose they are, rooms deleted.
    ghost var issued: set<PlayerId>
    ghost var owner: map<PlayerId, ConnId>
    ghost var games: set<GameId>
    ghost var removed: seq<Game.Live>

    ghost function State(): Process
      reads this, manager, manager.rooms.Values
    {
      Process(conns, RoomStates(), issued, owner, games, removed)
    }

    ghost function RoomStates(): map<RoomId, Game.Live>
      reads manager, manager.rooms.Values
    {
      map r | r in manager.rooms :: manager.rooms[r].State()
    }

    /** Each code has its own room object, which bears that code. */
    ghost predicate Keyed()
      reads manager, manager.rooms.Values
    {
      forall r :: r in manager.rooms ==> manager.rooms[r].id == r
    }

    /** The objects are laid out properly, and the process is sound: in particular every room is valid. */
    ghost predicate Valid()
      reads this, manager, manager.rooms.Values
    {
      Keyed() && Sound(State()) && OwnersExist(State())
    }

    constructor ()
      ensures Valid() && State() == BOOT && fresh(manager)
    {
      manager := new LiveRoom.RoomManager();
      conns, issued, owner, games, removed := map[], {}, map[], {}, [];
    }

    lemma RoomsAreValid(r: RoomId)
      requires Valid() && r in manager.rooms
      ensures manager.rooms[r].Valid()
      ensures forall x :: x in manager.rooms && x != r ==> manager.rooms[x] != manager.rooms[r]
    {
      assert Healthy(r, State().rooms[r], issued, games);
    }

    /** What the next action leads to is sound. */
    lemma NextIsSound(a: Action)
      requires Valid() && Possible(State(), a)
      ensures Sound(Do(State(), a)) && OwnersExist(Do(State(), a))
    {
      DoKeepsSound(State(), a);
      DoKeepsOwners(State(), a);
    }

    // -------------------------------------------------------------- the events, on a valid process

    method OnConnection(conn: ConnId)
      requires Valid() && Possible(State(), Connect(conn))
      modifies this`conns
      ensures Valid() && State() == Do(old(State()), Connect(conn))
    {
      NextIsSound(Connect(conn));
      Register(conn);
    }

    /** A join message arrives. */
    method OnJoin(conn: ConnId, roomId: RoomId)
      requires Valid() && Possible(State(), JoinMessage(conn, roomId))
      modifies this`conns
      ensures Valid() && State() == Do(old(State()), JoinMessage(conn, roomId))
    {
      NextIsSound(JoinMessage(conn, roomId));
      BeginJoin(conn, roomId);
    }

    /** `await state.identity` returns. No room object appears, goes or changes but the one that is joined. */
    method OnIdentity(conn: ConnId, userId: Option<UserId>, nickname: string, player: PlayerId)
      requires Valid() && Possible(State(), IdentityKnown(conn, userId, nickname, player))
      modifies this, if conns[conn].at.room in manager.rooms then {manager.rooms[conns[conn].at.room]} else {}
      ensures Valid() && State() == Do(old(State()), IdentityKnown(conn, userId, nickname, player))
    {
      NextIsSound(IdentityKnown(conn, userId, nickname, player));
      ResumeWithIdentity(conn, userId, nickname, player);
    }

    /** `await isRoomAssignedHere` returns. The room may have been opened by another join meanwhile. */
    method OnAssignment(conn: ConnId, here: bool, player: PlayerId, now: int)
      requires Valid() && Possible(State(), AssignmentKnown(conn, here, player, now))
      modifies this, manager
      modifies if conns[conn].at.room in manager.rooms then {manager.rooms[conns[conn].at.room]} else {}
      ensures Valid() && State() == Do(old(State()), AssignmentKnown(conn, here, player, now))
      ensures forall r :: r in old(manager.rooms) ==> r in manager.rooms && manager.rooms[r] == old(manager.rooms[r])
    {
      NextIsSound(AssignmentKnown(conn, here, player, now));
      ResumeWithAssignment(conn, here, player, now);
    }

    /** A socket is gone; its close event has not come yet. */
    method OnSocketDies(conn: ConnId)
      requires Valid() && Possible(State(), SocketDies(conn))
      modifies this`conns, OwnRoom(conn)
      ensures Valid() && State() == Do(old(State()), SocketDies(conn))
    {
      NextIsSound(SocketDies(conn));
      LoseSocket(conn);
    }

    /** The close event comes. */
    method OnClose(conn: ConnId)
      requires Valid() && Possible(State(), Closed(conn))
      modifies this, manager, OwnRoom(conn)
      ensures Valid() && State() == Do(old(State()), Closed(conn))
      ensures forall r :: r in manager.rooms ==> r in old(manager.rooms) && manager.rooms[r] == old(manager.rooms[r])
    {
      NextIsSound(Closed(conn));
      HandleClose(conn);
    }

    /** The room object a connection has joined, if it still exists. */
    ghost function OwnRoom(conn: ConnId): set<LiveRoom.Room>
      reads this, manager
      requires conn in conns
    {
      match conns[conn].joined
      case None => {}
      case Some(seat) => if seat.room in manager.rooms then {manager.rooms[seat.room]} else {}
    }

    /** handleMessage up to the switch: the seat of a connection whose room exists. */
    method FindSeat(conn: ConnId) returns (seat: Option<Seat>)
      requires conn in conns
      ensures seat == SeatOf(State(), conn)
    {
      seat := conns[conn].joined;
      if seat.Some? && seat.value.room !in manager.rooms {
        seat := None;
      }
    }

    method OnChat(seat: Seat, text: string)
      requires Valid() && seat.room in manager.rooms
      modifies manager.rooms[seat.room]
      ensures Valid() && State() == Do(old(State()), Play(seat.room, Game.Say(seat.player, text)))
    {
      NextIsSound(Play(seat.room, Game.Say(seat.player, text)));
      Chat(seat, text);
    }

    method OnDraw(seat: Seat, stroke: Stroke)
      requires Valid() && seat.room in manager.rooms
      modifies manager.rooms[seat.room]
      ensures Valid() && State() == Do(old(State()), Play(seat.room, Game.Paint(seat.player, stroke)))
    {
      NextIsSound(Play(seat.room, Game.Paint(seat.player, stroke)));
      Paint(seat, stroke);
    }

    method OnDrawClear(seat: Seat)
      requires Valid() && seat.room in manager.rooms
      modifies manager.rooms[seat.room]
      ensures Valid() && State() == Do(old(State()), Play(seat.room, Game.Wipe(seat.player)))
    {
      NextIsSound(Play(seat.room, Game.Wipe(seat.player)));
      Wipe(seat);
    }

    /** The shuffle and the word are whatever the room makes of them. */
    method OnStartGame(roomId: RoomId, gameId: GameId) returns (ghost order: seq<PlayerId>, ghost pick: string)
      requires Valid() && roomId in manager.rooms && gameId !in games
      modifies this`games, manager.rooms[roomId]
      ensures Valid() && Possible(old(State()), Play(roomId, Game.Start(gameId, order, pick)))
      ensures State() == Do(old(State()), Play(roomId, Game.Start(gameId, order, pick)))
    {
      forall o, w | Possible(State(), Play(roomId, Game.Start(gameId, o, w)))
        ensures Sound(Do(State(), Play(roomId, Game.Start(gameId, o, w))))
        ensures OwnersExist(Do(State(), Play(roomId, Game.Start(gameId, o, w))))
      {
        NextIsSound(Play(roomId, Game.Start(gameId, o, w)));
      }
      order, pick := StartGame(roomId, gameId);
    }

    method OnTimeout(roomId: RoomId, timer: Game.TimerId) returns (ghost pick: string)
      requires Valid() && roomId in manager.rooms && timer in manager.rooms[roomId].world.alarms
      requires manager.rooms[roomId].world.alarms[timer].due <= manager.rooms[roomId].world.now
      modifies manager.rooms[roomId]
      ensures Valid() && Possible(old(State()), Play(roomId, Game.Alert(timer, pick)))
      ensures State() == Do(old(State()), Play(roomId, Game.Alert(timer, pick)))
    {
      forall w | Possible(State(), Play(roomId, Game.Alert(timer, w)))
        ensures Sound(Do(State(), Play(roomId, Game.Alert(timer, w))))
        ensures OwnersExist(Do(State(), Play(roomId, Game.Alert(timer, w))))
      {
        NextIsSound(Play(roomId, Game.Alert(timer, w)));
      }
      pick := Fire(roomId, timer);
    }

    // -------------------------------------------------------------- the handlers

    /** One room object has changed, the others have not. */
    twostate lemma RoomChanged(roomId: RoomId)
      requires manager.rooms == old(manager.rooms) && roomId in manager.rooms && Keyed()
      requires forall x :: x in manager.rooms && x != roomId ==> unchanged(manager.rooms[x])
      ensures RoomStates() == old(RoomStates())[roomId := manager.rooms[roomId].State()]
    {
    }

    /** One room object has changed, game ids may have been used up, and nothing else has changed. */
    twostate lemma RoomPlayed(roomId: RoomId)
      requires manager.rooms == old(manager.rooms) && roomId in manager.rooms && Keyed()
      requires forall x :: x in manager.rooms && x != roomId ==> unchanged(manager.rooms[x])
      requires conns == old(conns) && issued == old(issued) && owner == old(owner) && removed == old(removed)
      ensures State() == old(State()).(
                           rooms := old(RoomStates())[roomId := manager.rooms[roomId].State()], games := games)
    {
      RoomChanged(roomId);
    }

    method Chat(seat: Seat, text: string)
      requires Keyed() && seat.room in manager.rooms
      modifies manager.rooms[seat.room]
      ensures Keyed() && State() == Do(old(State()), Play(seat.room, Game.Say(seat.player, text)))
    {
      ghost var before := State();
      manager.rooms[seat.room].HandleChat(seat.player, text);
      RoomPlayed(seat.room);
      assert games == old(games) + {};
      PlayIs(before, seat.room, Game.Say(seat.player, text), manager.rooms[seat.room].State());
    }

    method Paint(seat: Seat, stroke: Stroke)
      requires Keyed() && seat.room in manager.rooms
      modifies manager.rooms[seat.room]
      ensures Keyed() && State() == Do(old(State()), Play(seat.room, Game.Paint(seat.player, stroke)))
    {
      ghost var before := State();
      manager.rooms[seat.room].HandleDraw(seat.player, stroke);
      RoomPlayed(seat.room);
      assert games == old(games) + {};
      PlayIs(before, seat.room, Game.Paint(seat.player, stroke), manager.rooms[seat.room].State());
    }

    method Wipe(seat: Seat)
      requires Keyed() && seat.room in manager.rooms
      modifies manager.rooms[seat.room]
      ensures Keyed() && State() == Do(old(State()), Play(seat.room, Game.Wipe(seat.player)))
    {
      ghost var before := State();
      manager.rooms[seat.room].HandleDrawClear(seat.player);
      RoomPlayed(seat.room);
      assert games == old(games) + {};
      PlayIs(before, seat.room, Game.Wipe(seat.player), manager.rooms[seat.room].State());
    }

    method StartGame(roomId: RoomId, gameId: GameId) returns (ghost order: seq<PlayerId>, ghost pick: string)
      requires Keyed() && roomId in manager.rooms && gameId !in games
      modifies this`games, manager.rooms[roomId]
      ensures Keyed() && Possible(old(State()), Play(roomId, Game.Start(gameId, order, pick)))
      ensures State() == Do(old(State()), Play(roomId, Game.Start(gameId, order, pick)))
    {
      ghost var before := State();
      order, pick := StartIn(roomId, gameId);
      UseUp(gameId);
      PlayIs(before, roomId, Game.Start(gameId, order, pick), RoomStates()[roomId]);
    }

    /** The id is made, and will not be made again. */
    ghost method UseUp(gameId: GameId)
      modifies this`games
      ensures State() == old(State()).(games := old(games) + {gameId})
    {
      games := games + {gameId};
      assert RoomStates() == old(RoomStates());
    }

    method StartIn(roomId: RoomId, gameId: GameId) returns (ghost order: seq<PlayerId>, ghost pick: string)
      requires Keyed() && roomId in manager.rooms
      modifies manager.rooms[roomId]
      ensures Keyed() && Game.Enabled(old(RoomStates())[roomId], Game.Start(gameId, order, pick))
      ensures RoomStates() == old(RoomStates())[roomId :=
                                Game.Step(old(RoomStates())[roomId], Game.Start(gameId, order, pick))]
    {
      order, pick := manager.rooms[roomId].StartGame(gameId);
      RoomChanged(roomId);
    }

    method Fire(roomId: RoomId, timer: Game.TimerId) returns (ghost pick: string)
      requires Keyed() && roomId in manager.rooms && timer in manager.rooms[roomId].world.alarms
      requires manager.rooms[roomId].world.alarms[timer].due <= manager.rooms[roomId].world.now
      modifies manager.rooms[roomId]
      ensures Keyed() && Possible(old(State()), Play(roomId, Game.Alert(timer, pick)))
      ensures State() == Do(old(State()), Play(roomId, Game.Alert(timer, pick)))
    {
      ghost var before := State();
      ghost var live := before.rooms[roomId];
      pick := manager.rooms[roomId].OnTimeout(timer);
      assert Game.Enabled(live, Game.Alert(timer, pick));
      assert manager.rooms[roomId].State() == Game.Step(live, Game.Alert(timer, pick));
      RoomPlayed(roomId);
      assert games == old(games) + {};
      PlayIs(before, roomId, Game.Alert(timer, pick), manager.rooms[roomId].State());
    }

    /** One connection's state changes. */
    method Put(conn: ConnId, state: Conn)
      modifies this`conns
      ensures State() == With(old(State()), conn, state)
    {
      conns := conns[conn := state];
      assert RoomStates() == old(RoomStates());
    }

    method Register(conn: ConnId)
      requires Keyed() && Possible(State(), Connect(conn))
      modifies this`conns
      ensures Keyed() && State() == Do(old(State()), Connect(conn))
    {
      Put(conn, Conn(true, false, Free, None));
    }

    /** handleJoin up to `await state.identity`. */
    method BeginJoin(conn: ConnId, roomId: RoomId)
      requires Keyed() && Possible(State(), JoinMessage(conn, roomId))
      modifies this`conns
      ensures Keyed() && State() == Do(old(State()), JoinMessage(conn, roomId))
    {
      var state := conns[conn];
      if state.joined.Some? || state.at != Free {
        return;
      }
      Put(conn, state.(at := AwaitIdentity(roomId)));
    }

    /** handleJoin from the identity on: to the end, or to `await isRoomAssignedHere`. */
    method ResumeWithIdentity(conn: ConnId, userId: Option<UserId>, nickname: string, player: PlayerId)
      requires Keyed() && Possible(State(), IdentityKnown(conn, userId, nickname, player))
      modifies this, if conns[conn].at.room in manager.rooms then {manager.rooms[conns[conn].at.room]} else {}
      ensures Keyed() && State() == Do(old(State()), IdentityKnown(conn, userId, nickname, player))
    {
      var state := conns[conn];
      var roomId := state.at.room;
      if !state.open {
        Put(conn, state.(at := Free));
      } else if roomId !in manager.rooms {
        Put(conn, state.(at := AwaitAssignment(roomId, userId, nickname)));
      } else {
        Enter(conn, roomId, userId, nickname, player);
      }
    }

    /** handleJoin from the assignment check on. */
    method ResumeWithAssignment(conn: ConnId, here: bool, player: PlayerId, now: int)
      requires Keyed() && Possible(State(), AssignmentKnown(conn, here, player, now))
      modifies this, manager
      modifies if conns[conn].at.room in manager.rooms then {manager.rooms[conns[conn].at.room]} else {}
      ensures Keyed() && State() == Do(old(State()), AssignmentKnown(conn, here, player, now))
      ensures forall r :: r in old(manager.rooms) ==> r in manager.rooms && manager.rooms[r] == old(manager.rooms[r])
    {
      var state := conns[conn];
      if !here {
        Put(conn, state.(at := Free, open := false));
        return;
      }
      if !state.open {
        Put(conn, state.(at := Free));
        return;
      }
      OpenRoom(state.at.room, now);
      ghost var live := manager.rooms[state.at.room].State();
      SeatInOpenedRoom(old(State()), conn, live, state.at.userId, state.at.nickname, player);
      Enter(conn, state.at.room, state.at.userId, state.at.nickname, player);
    }

    /** `roomManager.getOrCreate(roomId)` */
    method OpenRoom(roomId: RoomId, now: int)
      requires Keyed()
      modifies manager
      ensures Keyed() && roomId in manager.rooms
      ensures forall r :: r in old(manager.rooms) ==> r in manager.rooms && manager.rooms[r] == old(manager.rooms[r])
      ensures roomId in old(manager.rooms) ==> manager.rooms == old(manager.rooms)
      ensures roomId !in old(manager.rooms) ==> fresh(manager.rooms[roomId])
      ensures manager.rooms[roomId].State()
              == if roomId in old(RoomStates()) then old(RoomStates())[roomId] else Game.NewRoom(roomId, now)
      ensures RoomStates() == old(RoomStates())[roomId := manager.rooms[roomId].State()]
    {
      var room := manager.GetOrCreate(roomId, now);
    }

    /** The end of handleJoin: the room is full, or a new player sits down. */
    method Enter(conn: ConnId, roomId: RoomId, userId: Option<UserId>, nickname: string, player: PlayerId)
      requires Keyed() && conn in conns && roomId in manager.rooms
      modifies this, manager.rooms[roomId]
      ensures Keyed()
      ensures State() == TakeSeat(old(State()), conn, old(manager.rooms[roomId].State()), userId, nickname, player)
    {
      var room := manager.rooms[roomId];
      if |room.players| >= room.capacity {
        conns := conns[conn := conns[conn].(at := Free, open := false)];
      } else {
        room.CommitJoin(player, userId, nickname);
        conns := conns[conn := conns[conn].(at := Free, joined := Some(Seat(roomId, player)))];
        issued, owner := issued + {player}, owner[player := conn];
      }
      RoomChanged(roomId);
    }

    method LoseSocket(conn: ConnId)
      requires Keyed() && Possible(State(), SocketDies(conn))
      modifies this`conns, OwnRoom(conn)
      ensures Keyed() && State() == Do(old(State()), SocketDies(conn))
    {
      var state := conns[conn];
      Put(conn, state.(open := false));
      if state.joined.Some? && state.joined.value.room in manager.rooms {
        Drop(state.joined.value);
      }
    }

    method Drop(seat: Seat)
      requires Keyed() && seat.room in manager.rooms
      modifies manager.rooms[seat.room]
      ensures RoomStates()
              == old(RoomStates())[seat.room :=
                   Game.Step(old(manager.rooms[seat.room].State()), Game.Drop(seat.player))]
    {
      manager.rooms[seat.room].SocketDies(seat.player);
      RoomChanged(seat.room);
    }

    method HandleClose(conn: ConnId)
      requires Keyed() && Possible(State(), Closed(conn))
      modifies this, manager, OwnRoom(conn)
      ensures Keyed() && State() == Do(old(State()), Closed(conn))
      ensures forall r :: r in manager.rooms ==> r in old(manager.rooms) && manager.rooms[r] == old(manager.rooms[r])
    {
      var state := conns[conn];
      Put(conn, state.(closed := true));
      if state.joined.None? || state.joined.value.room !in manager.rooms {
        return;
      }
      Leave(state.joined.value);
    }

    /** handleClose of a connection that joined: the room, and the room manager. */
    method Leave(seat: Seat)
      requires Keyed() && seat.room in manager.rooms
      modifies this`removed, manager, manager.rooms[seat.room]
      ensures Keyed() && State() == Depart(old(State()), seat)
      ensures forall r :: r in manager.rooms ==> r in old(manager.rooms) && manager.rooms[r] == old(manager.rooms[r])
    {
      ghost var before, live := RoomStates(), manager.rooms[seat.room].State();
      LeaveRoom(seat);
      RemoveIfEmpty(seat.room);
      UpdateThenRemove(before, seat.room, Game.HandleClose(live, seat.player));
    }

    /** handleClose within the room. */
    method LeaveRoom(seat: Seat)
      requires Keyed() && seat.room in manager.rooms
      modifies manager.rooms[seat.room]
      ensures Keyed()
      ensures RoomStates()
              == old(RoomStates())[seat.room := Game.HandleClose(old(manager.rooms[seat.room].State()), seat.player)]
    {
      manager.rooms[seat.room].HandleClose(seat.player);
      RoomChanged(seat.room);
    }

    method RemoveIfEmpty(roomId: RoomId)
      requires Keyed() && roomId in manager.rooms
      modifies this`removed, manager, manager.rooms[roomId]
      ensures Keyed()
      ensures forall r :: r in manager.rooms ==> r in old(manager.rooms) && manager.rooms[r] == old(manager.rooms[r])
      ensures var live := old(manager.rooms[roomId].State());
              if live.room.players == []
              then RoomStates() == old(RoomStates()) - {roomId}
                   && removed == old(removed) + [Game.ClearRoundTimer(live)]
              else RoomStates() == old(RoomStates()) && removed == old(removed)
    {
      var room := manager.rooms[roomId];
      var gone := manager.RemoveIfEmpty(roomId);
      if gone {
        removed := removed + [room.State()];
      }
    }
  }
}
