/** Which joins get a seat in a process, and under whose name. */
module Admission {
  import opened Basics
  import opened Protocol
  import opened Server
  import opened Identity
  import Game
  import RoomInvariant
  import Replica

  // ---------------------------------------------------------------- who gets in

  /** A join goes on with what it was waiting for. */
  predicate Resumes(a: Action) {
    a.IdentityKnown? || a.AssignmentKnown?
  }

  /** Its room is here already, or it may be opened here. */
  predicate RoomFound(p: Process, a: Action)
    requires Resumes(a) && Possible(p, a)
  {
    if a.IdentityKnown? then p.conns[a.conn].at.room in p.rooms else a.here
  }

  predicate RoomFull(p: Process, r: RoomId) {
    r in p.rooms && |p.rooms[r].room.players| >= 100
  }

  /** Account and name of a join that goes on. */
  function BearerOf(p: Process, a: Action): Bearer
    requires Resumes(a) && Possible(p, a)
  {
    if a.IdentityKnown? then Bearer(a.userId, a.nickname)
    else Bearer(p.conns[a.conn].at.userId, p.conns[a.conn].at.nickname)
  }

  function PlayersOf(p: Process, r: RoomId): seq<Game.Player> {
    if r in p.rooms then p.rooms[r].room.players else []
  }

  /** The join succeeds if its socket is open and its room is found and not full. */
  predicate GetsIn(p: Process, a: Action)
    requires Resumes(a) && Possible(p, a)
  {
    p.conns[a.conn].open && RoomFound(p, a) && !RoomFull(p, p.conns[a.conn].at.room)
  }

  /** The client is told that its room does not exist or is full, and its socket is closed. */
  predicate TurnedAway(p: Process, a: Action)
    requires Resumes(a) && Possible(p, a)
  {
    (a.AssignmentKnown? && !a.here)
    || (p.conns[a.conn].open && RoomFound(p, a) && RoomFull(p, p.conns[a.conn].at.room))
  }

  /** The room is not here yet, so whether it may be opened is looked up. */
  predicate AsksFurther(p: Process, a: Action)
    requires Resumes(a) && Possible(p, a)
  {
    a.IdentityKnown? && p.conns[a.conn].open && p.conns[a.conn].at.room !in p.rooms
  }

  /** The join's connection afterwards. */
  predicate Answered(p: Process, a: Action, conn: Conn)
    requires Resumes(a) && Possible(p, a)
  {
    var was, who := p.conns[a.conn], BearerOf(p, a);
    && conn.joined == (if GetsIn(p, a) then Some(Seat(was.at.room, a.player)) else None)
    && conn.at == (if AsksFurther(p, a) then AwaitAssignment(was.at.room, who.userId, who.nickname) else Free)
    && conn.open == (was.open && !TurnedAway(p, a)) && conn.closed == was.closed
  }

  /** What a join that goes on changes: its connection and, if it gets in, the players of its room. */
  predicate Admitted(p: Process, a: Action, q: Process)
    requires Resumes(a) && Possible(p, a)
  {
    var r, who := p.conns[a.conn].at.room, BearerOf(p, a);
    && a.conn in q.conns && q.conns == p.conns[a.conn := q.conns[a.conn]] && Answered(p, a, q.conns[a.conn])
    && if GetsIn(p, a) then
         && r in q.rooms && q.rooms == p.rooms[r := q.rooms[r]] && q.owner == p.owner[a.player := a.conn]
         && q.rooms[r].room.players == PlayersOf(p, r) + [Game.Player(a.player, who.userId, who.nickname, 0)]
       else q.rooms == p.rooms && q.owner == p.owner
  }

  /** The end of a join in a room of 100 places. */
  lemma SeatOrNone(p: Process, c: ConnId, live: Game.Live, who: Bearer, player: PlayerId)
    requires c in p.conns && live.room.capacity == 100
    requires live.room.id in p.rooms ==> live == p.rooms[live.room.id]
    requires live.room.id !in p.rooms ==> live.room.players == []
    ensures var q, r := TakeSeat(p, c, live, who.userId, who.nickname, player), live.room.id;
            if |live.room.players| >= 100 then
              && q.conns == p.conns[c := p.conns[c].(at := Free, open := false)]
              && q.rooms == p.rooms && q.owner == p.owner
            else
              && q.conns == p.conns[c := p.conns[c].(at := Free, joined := Some(Seat(r, player)))]
              && r in q.rooms && q.rooms == p.rooms[r := q.rooms[r]] && q.owner == p.owner[player := c]
              && q.rooms[r].room.players == live.room.players + [Game.Player(player, who.userId, who.nickname, 0)]
  {
  }

  predicate HasRoomFor100(p: Process, r: RoomId) {
    r in p.rooms ==> p.rooms[r].room.id == r && p.rooms[r].room.capacity == 100
  }

  lemma IdentityIsAnswered(p: Process, a: Action)
    requires a.IdentityKnown? && Possible(p, a) && p.conns[a.conn].joined.None?
    requires HasRoomFor100(p, p.conns[a.conn].at.room)
    ensures Admitted(p, a, Do(p, a))
  {
    var conn := p.conns[a.conn];
    if conn.open && conn.at.room in p.rooms {
      SeatOrNone(p, a.conn, p.rooms[conn.at.room], Bearer(a.userId, a.nickname), a.player);
    }
  }

  lemma AssignmentIsAnswered(p: Process, a: Action)
    requires a.AssignmentKnown? && Possible(p, a) && p.conns[a.conn].joined.None?
    requires HasRoomFor100(p, p.conns[a.conn].at.room)
    ensures Admitted(p, a, Do(p, a))
  {
    var conn := p.conns[a.conn];
    if a.here && conn.open {
      var live := if conn.at.room in p.rooms then p.rooms[conn.at.room] else Game.NewRoom(conn.at.room, a.now);
      SeatOrNone(p, a.conn, live, Bearer(conn.at.userId, conn.at.nickname), a.player);
    }
  }

  /**
   * A join that goes on gets a seat, with no points and as whoever it is, if and only if its socket is open and its
   * room is here or may be opened here and has fewer than 100 players. Otherwise no room changes.
   */
  lemma {:induction false} JoinIsAnswered(p: Process, a: Action)
    requires Sound(p) && Resumes(a) && Possible(p, a)
    ensures Admitted(p, a, Do(p, a))
  {
    var conn := p.conns[a.conn];
    assert ConnSound(p, a.conn) && conn.joined.None?;
    if conn.at.room in p.rooms {
      assert Healthy(conn.at.room, p.rooms[conn.at.room], p.issued, p.games);
    }
    if a.IdentityKnown? {
      IdentityIsAnswered(p, a);
    } else {
      AssignmentIsAnswered(p, a);
    }
  }

  /** A join message counts only if none is under way and none succeeded. */
  lemma {:induction false} JoinsOnlyOnce(p: Process, c: ConnId, room: RoomId)
    requires Possible(p, JoinMessage(c, room))
    ensures var q := Do(p, JoinMessage(c, room));
            if p.conns[c].joined.None? && p.conns[c].at.Free?
            then q == p.(conns := p.conns[c := p.conns[c].(at := AwaitIdentity(room))]) else q == p
  {
  }

  // ---------------------------------------------------------------- under whose name

  /** Who the connection was found to be when last asked. */
  function ToldOf(actions: seq<Action>, c: ConnId): Option<Bearer> {
    if actions == [] then None
    else
      var n := |actions| - 1;
      if actions[n].IdentityKnown? && actions[n].conn == c
      then Some(Bearer(actions[n].userId, actions[n].nickname)) else ToldOf(actions[..n], c)
  }

  lemma ToldNext(actions: seq<Action>, a: Action, c: ConnId)
    ensures ToldOf(actions + [a], c)
            == if a.IdentityKnown? && a.conn == c then Some(Bearer(a.userId, a.nickname)) else ToldOf(actions, c)
  {
    assert (actions + [a])[..|actions|] == actions;
  }

  /** Everyone in the room is who the owner of the seat was found to be. */
  predicate RoomBears(players: seq<Game.Player>, owner: map<PlayerId, ConnId>, actions: seq<Action>) {
    forall i :: 0 <= i < |players| ==> PlayerBears(players[i], owner, actions)
  }

  predicate PlayerBears(p: Game.Player, owner: map<PlayerId, ConnId>, actions: seq<Action>) {
    p.id in owner && ToldOf(actions, owner[p.id]) == Some(Bearer(p.userId, p.nickname))
  }

  predicate RoomsBear(p: Process, actions: seq<Action>) {
    forall r :: r in p.rooms ==> RoomBears(p.rooms[r].room.players, p.owner, actions)
  }

  /** A join that waits for its room remembers who it was found to be. */
  predicate JoinsBear(p: Process, actions: seq<Action>) {
    forall c :: c in p.conns && p.conns[c].at.AwaitAssignment? ==>
      ToldOf(actions, c) == Some(Bearer(p.conns[c].at.userId, p.conns[c].at.nickname))
  }

  /** An event that is not a join leaves everyone who they are. */
  lemma EventKeepsBearers(s: Game.Live, e: Game.Event, owner: map<PlayerId, ConnId>, actions: seq<Action>)
    requires RoomInvariant.Inv(s) && Game.Enabled(s, e) && !e.Join? && RoomBears(s.room.players, owner, actions)
    ensures RoomBears(Game.Step(s, e).room.players, owner, actions)
  {
    var players := Game.Step(s, e).room.players;
    forall i | 0 <= i < |players| ensures PlayerBears(players[i], owner, actions) {
      NobodyChanges(s, e, i);
      var k :| 0 <= k < |s.room.players| && SamePerson(s.room.players[k], players[i]);
      assert PlayerBears(s.room.players[k], owner, actions);
    }
  }

  /** Nobody who sits in a room waits for an identity, so what is found out now concerns no seat. */
  lemma NewsConcernNoSeat(p: Process, actions: seq<Action>, a: Action)
    requires Sound(p) && Possible(p, a) && RoomsBear(p, actions)
    ensures RoomsBear(p, actions + [a])
  {
    forall r, i | r in p.rooms && 0 <= i < |p.rooms[r].room.players|
      ensures PlayerBears(p.rooms[r].room.players[i], p.owner, actions + [a])
    {
      var player := p.rooms[r].room.players[i];
      assert Game.Ids(p.rooms[r].room.players)[i] == player.id;
      assert SeatsOwned(p, r, p.rooms[r]) && Owned(p, r, player.id);
      assert RoomBears(p.rooms[r].room.players, p.owner, actions) && PlayerBears(player, p.owner, actions);
      assert ConnSound(p, p.owner[player.id]);
      ToldNext(actions, a, p.owner[player.id]);
    }
  }

  /** Nobody who sits already has the new player's id. */
  lemma NobodyIsNew(p: Process, player: PlayerId, x: RoomId, i: nat)
    requires Sound(p) && OwnersExist(p) && player !in p.issued && x in p.rooms && i < |p.rooms[x].room.players|
    ensures p.rooms[x].room.players[i].id != player
  {
    var id := p.rooms[x].room.players[i].id;
    assert Game.Ids(p.rooms[x].room.players)[i] == id;
    assert SeatsOwned(p, x, p.rooms[x]) && Owned(p, x, id);
  }

  /** The players of a room after a join: those before, and perhaps the new one. */
  lemma PlayersAfterJoin(p: Process, a: Action, q: Process, x: RoomId)
    requires Resumes(a) && Possible(p, a) && Admitted(p, a, q) && x in q.rooms
    ensures var who, ps, qs := BearerOf(p, a), PlayersOf(p, x), q.rooms[x].room.players;
            qs == ps || (GetsIn(p, a) && qs == ps + [Game.Player(a.player, who.userId, who.nickname, 0)])
  {
  }

  lemma OldSeatBears(p: Process, a: Action, q: Process, actions: seq<Action>, x: RoomId, i: nat)
    requires Sound(p) && OwnersExist(p) && Resumes(a) && Possible(p, a) && Admitted(p, a, q)
    requires RoomsBear(p, actions) && x in p.rooms && i < |p.rooms[x].room.players|
    ensures PlayerBears(p.rooms[x].room.players[i], q.owner, actions)
  {
    assert RoomBears(p.rooms[x].room.players, p.owner, actions);
    assert PlayerBears(p.rooms[x].room.players[i], p.owner, actions);
    NobodyIsNew(p, a.player, x, i);
  }

  lemma NewSeatBears(p: Process, a: Action, q: Process, actions: seq<Action>)
    requires Resumes(a) && Possible(p, a) && Admitted(p, a, q) && GetsIn(p, a) && JoinsBear(p, actions)
    ensures var who := BearerOf(p, a);
            PlayerBears(Game.Player(a.player, who.userId, who.nickname, 0), q.owner, actions + [a])
  {
    ToldNext(actions, a, a.conn);
  }

  lemma SeatBears(p: Process, actions: seq<Action>, a: Action)
    requires Sound(p) && OwnersExist(p) && Possible(p, a) && Resumes(a)
    requires RoomsBear(p, actions + [a]) && JoinsBear(p, actions)
    ensures RoomsBear(Do(p, a), actions + [a])
  {
    JoinIsAnswered(p, a);
    SeatsBear(p, actions, a, Do(p, a));
  }

  lemma SeatsBear(p: Process, actions: seq<Action>, a: Action, q: Process)
    requires Sound(p) && OwnersExist(p) && Possible(p, a) && Resumes(a) && Admitted(p, a, q)
    requires RoomsBear(p, actions + [a]) && JoinsBear(p, actions)
    ensures RoomsBear(q, actions + [a])
  {
    forall x, i | x in q.rooms && 0 <= i < |q.rooms[x].room.players|
      ensures PlayerBears(q.rooms[x].room.players[i], q.owner, actions + [a])
    {
      EachSeatBears(p, actions, a, q, x, i);
    }
  }

  lemma EachSeatBears(p: Process, actions: seq<Action>, a: Action, q: Process, x: RoomId, i: nat)
    requires Sound(p) && OwnersExist(p) && Possible(p, a) && Resumes(a) && Admitted(p, a, q)
    requires RoomsBear(p, actions + [a]) && JoinsBear(p, actions)
    requires x in q.rooms && i < |q.rooms[x].room.players|
    ensures PlayerBears(q.rooms[x].room.players[i], q.owner, actions + [a])
  {
    PlayersAfterJoin(p, a, q, x);
    if i < |PlayersOf(p, x)| {
      OldSeatBears(p, a, q, actions + [a], x, i);
    } else {
      NewSeatBears(p, a, q, actions);
    }
  }

  /** One room goes on with an event that is not a join. */
  lemma RoomGoesOn(p: Process, r: RoomId, e: Game.Event, q: Process, actions: seq<Action>)
    requires Sound(p) && RoomsBear(p, actions) && r in p.rooms && Game.Enabled(p.rooms[r], e) && !e.Join?
    requires q.owner == p.owner
    requires forall x :: x in q.rooms ==> if x == r then q.rooms[x] == Game.Step(p.rooms[r], e)
                                          else x in p.rooms && q.rooms[x] == p.rooms[x]
    ensures RoomsBear(q, actions)
  {
    assert Healthy(r, p.rooms[r], p.issued, p.games);
    EventKeepsBearers(p.rooms[r], e, p.owner, actions);
  }

  lemma DropBears(p: Process, actions: seq<Action>, c: ConnId)
    requires Sound(p) && Possible(p, SocketDies(c)) && RoomsBear(p, actions)
    ensures RoomsBear(Do(p, SocketDies(c)), actions)
  {
    if p.conns[c].joined.Some? && p.conns[c].joined.value.room in p.rooms {
      var seat := p.conns[c].joined.value;
      RoomGoesOn(p, seat.room, Game.Drop(seat.player), Do(p, SocketDies(c)), actions);
    }
  }

  lemma CloseChanges(p: Process, c: ConnId, seat: Seat)
    requires Possible(p, Closed(c)) && p.conns[c].joined == Some(seat) && seat.room in p.rooms
    ensures var q := Do(p, Closed(c));
            && q.owner == p.owner && q.conns == p.conns[c := p.conns[c].(closed := true)]
            && forall x :: x in q.rooms ==>
                 if x == seat.room then q.rooms[x] == Game.HandleClose(p.rooms[x], seat.player)
                 else x in p.rooms && q.rooms[x] == p.rooms[x]
  {
  }

  lemma CloseBears(p: Process, actions: seq<Action>, c: ConnId)
    requires Sound(p) && Possible(p, Closed(c)) && RoomsBear(p, actions)
    ensures RoomsBear(Do(p, Closed(c)), actions)
  {
    assert ConnSound(p, c);
    if p.conns[c].joined.Some? {
      var seat := p.conns[c].joined.value;
      CloseChanges(p, c, seat);
      RoomGoesOn(p, seat.room, Game.Leave(seat.player), Do(p, Closed(c)), actions);
    }
  }

  lemma JoinsStillBear(p: Process, actions: seq<Action>, a: Action)
    requires Possible(p, a) && JoinsBear(p, actions)
    ensures JoinsBear(Do(p, a), actions + [a])
  {
    var q := Do(p, a);
    forall c | c in q.conns && q.conns[c].at.AwaitAssignment?
      ensures ToldOf(actions + [a], c) == Some(Bearer(q.conns[c].at.userId, q.conns[c].at.nickname))
    {
      ToldNext(actions, a, c);
    }
  }

  predicate AllBear(p: Process, actions: seq<Action>) {
    RoomsBear(p, actions) && JoinsBear(p, actions)
  }

  lemma NextBears(p: Process, actions: seq<Action>, a: Action)
    requires Sound(p) && OwnersExist(p) && Possible(p, a) && AllBear(p, actions)
    ensures AllBear(Do(p, a), actions + [a])
  {
    NewsConcernNoSeat(p, actions, a);
    JoinsStillBear(p, actions, a);
    match a
    case Connect(_) =>
    case JoinMessage(_, _) =>
    case IdentityKnown(_, _, _, _) => SeatBears(p, actions, a);
    case AssignmentKnown(_, _, _, _) => SeatBears(p, actions, a);
    case SocketDies(c) => DropBears(p, actions + [a], c);
    case Closed(c) => CloseBears(p, actions + [a], c);
    case Play(r, e) => RoomGoesOn(p, r, e, Do(p, a), actions + [a]);
  }

  lemma LastAction(actions: seq<Action>)
    requires Run(actions) && actions != []
    ensures var front, last := actions[..|actions| - 1], actions[|actions| - 1];
            && actions == front + [last] && Run(front) && Possible(After(front), last)
            && After(actions) == Do(After(front), last)
  {
  }

  lemma {:induction false} RunsBear(actions: seq<Action>)
    requires Run(actions)
    ensures AllBear(After(actions), actions)
    decreases |actions|
  {
    if actions == [] {
      assert AllBear(BOOT, actions);
    } else {
      var front := actions[..|actions| - 1];
      LastAction(actions);
      RunsAreSound(front);
      RunsBear(front);
      NextBears(After(front), front, actions[|actions| - 1]);
    }
  }

  /**
   * In every interleaving, everyone in a room bears the account and the name that were found for the connection whose
   * seat it is, whatever else was found for other connections meanwhile.
   */
  lemma {:induction false} SeatsBearIdentities(actions: seq<Action>, r: RoomId, i: nat)
    requires Run(actions) && r in After(actions).rooms && i < |After(actions).rooms[r].room.players|
    ensures var p := After(actions);
            var player := p.rooms[r].room.players[i];
            exists c :: c in p.conns && p.conns[c].joined == Some(Seat(r, player.id)) && !p.conns[c].closed
                        && ToldOf(actions, c) == Some(Bearer(player.userId, player.nickname))
  {
    RunsAreSound(actions);
    RunsBear(actions);
    var p := After(actions);
    var player := p.rooms[r].room.players[i];
    assert Game.Ids(p.rooms[r].room.players)[i] == player.id;
    assert SeatsOwned(p, r, p.rooms[r]) && Owned(p, r, player.id);
    assert PlayerBears(player, p.owner, actions);
  }

  // ---------------------------------------------------------------- who hears

  /** The room sends to those in it whose connection is open, and to nobody else. */
  predicate RoomHeard(p: Process, live: Game.Live) {
    forall id :: id in Game.Ids(live.room.players) ==>
      id in p.owner && (id in live.world.open <==> Hears(p, p.owner[id]))
  }

  predicate Hears(p: Process, c: ConnId) {
    c in p.conns && p.conns[c].open
  }

  predicate RoomsHeard(p: Process) {
    forall r :: r in p.rooms ==> RoomHeard(p, p.rooms[r])
  }

  /** Connections of those who sit neither close nor reopen unnoticed. */
  predicate SeatedKept(p: Process, q: Process) {
    && (forall c :: c in p.conns && p.conns[c].joined.Some? ==> c in q.conns && q.conns[c].open == p.conns[c].open)
    && (forall id :: id in p.owner ==> id in q.owner && q.owner[id] == p.owner[id])
  }

  lemma StillHeard(p: Process, r: RoomId, q: Process)
    requires Sound(p) && r in p.rooms && RoomHeard(p, p.rooms[r]) && SeatedKept(p, q)
    ensures RoomHeard(q, p.rooms[r])
  {
    forall id | id in Game.Ids(p.rooms[r].room.players)
      ensures id in q.owner && (id in p.rooms[r].world.open <==> Hears(q, q.owner[id]))
    {
      assert SeatsOwned(p, r, p.rooms[r]) && Owned(p, r, id);
    }
  }

  /** A room whose players and sockets stay as they are. */
  lemma SameRoomHeard(p: Process, r: RoomId, q: Process, live: Game.Live)
    requires Sound(p) && r in p.rooms && RoomHeard(p, p.rooms[r]) && SeatedKept(p, q)
    requires Game.Ids(live.room.players) == Game.Ids(p.rooms[r].room.players)
    requires live.world.open == p.rooms[r].world.open
    ensures RoomHeard(q, live)
  {
    StillHeard(p, r, q);
  }

  lemma PlayHeard(p: Process, r: RoomId, e: Game.Event)
    requires Sound(p) && RoomsHeard(p) && Possible(p, Play(r, e))
    ensures RoomsHeard(Do(p, Play(r, e)))
  {
    var q := Do(p, Play(r, e));
    PlayKeepsSeats(p.rooms[r], e);
    Replica.OpenAfter(p.rooms[r], e);
    forall x | x in q.rooms ensures RoomHeard(q, q.rooms[x]) {
      assert RoomHeard(p, p.rooms[x]);
      SameRoomHeard(p, x, q, q.rooms[x]);
    }
  }

  /** The rooms stay, and so do the connections of those who sit. */
  lemma IdleHeard(p: Process, q: Process)
    requires Sound(p) && RoomsHeard(p) && SeatedKept(p, q) && q.rooms == p.rooms
    ensures RoomsHeard(q)
  {
    forall x | x in q.rooms ensures RoomHeard(q, q.rooms[x]) {
      StillHeard(p, x, q);
    }
  }

  lemma JoinHeard(p: Process, a: Action)
    requires Sound(p) && OwnersExist(p) && RoomsHeard(p) && Resumes(a) && Possible(p, a)
    ensures RoomsHeard(Do(p, a))
  {
    var q := Do(p, a);
    JoinIsAnswered(p, a);
    assert ConnSound(p, a.conn) && p.conns[a.conn].joined.None?;
    JoinKeepsSeated(p, a, q);
    if GetsIn(p, a) {
      NewcomerOpens(p, a);
      SeatHeard(p, a, q);
    } else {
      IdleHeard(p, q);
    }
  }

  lemma SeatHeard(p: Process, a: Action, q: Process)
    requires Sound(p) && OwnersExist(p) && RoomsHeard(p) && Resumes(a) && Possible(p, a) && GetsIn(p, a)
    requires Admitted(p, a, q) && SeatedKept(p, q)
    requires var r := p.conns[a.conn].at.room;
             q.rooms[r].world.open == (if r in p.rooms then p.rooms[r].world.open else {}) + {a.player}
    ensures RoomsHeard(q)
  {
    NewcomerHears(p, a, q);
    OtherRoomsHeard(p, p.conns[a.conn].at.room, q);
  }

  lemma OtherRoomsHeard(p: Process, r: RoomId, q: Process)
    requires Sound(p) && RoomsHeard(p) && SeatedKept(p, q)
    requires r in q.rooms && q.rooms == p.rooms[r := q.rooms[r]] && RoomHeard(q, q.rooms[r])
    ensures RoomsHeard(q)
  {
    forall x | x in q.rooms && x != r ensures RoomHeard(q, q.rooms[x]) {
      StillHeard(p, x, q);
    }
  }

  lemma JoinKeepsSeated(p: Process, a: Action, q: Process)
    requires OwnersExist(p) && Resumes(a) && Possible(p, a) && Admitted(p, a, q) && p.conns[a.conn].joined.None?
    ensures SeatedKept(p, q)
  {
  }

  lemma SeatOpens(p: Process, c: ConnId, live: Game.Live, userId: Option<UserId>, nickname: string, player: PlayerId)
    requires c in p.conns && |live.room.players| < live.room.capacity
    ensures var q := TakeSeat(p, c, live, userId, nickname, player);
            live.room.id in q.rooms && q.rooms[live.room.id].world.open == live.world.open + {player}
  {
  }

  /** The socket of the newcomer is the only one that is new to the room. */
  lemma NewcomerOpens(p: Process, a: Action)
    requires Sound(p) && Resumes(a) && Possible(p, a) && GetsIn(p, a)
    ensures var q, r := Do(p, a), p.conns[a.conn].at.room;
            && r in q.rooms
            && q.rooms[r].world.open == (if r in p.rooms then p.rooms[r].world.open else {}) + {a.player}
  {
    var r, who := p.conns[a.conn].at.room, BearerOf(p, a);
    if r in p.rooms {
      assert Healthy(r, p.rooms[r], p.issued, p.games);
      SeatOpens(p, a.conn, p.rooms[r], who.userId, who.nickname, a.player);
    } else {
      SeatOpens(p, a.conn, Game.NewRoom(r, a.now), who.userId, who.nickname, a.player);
    }
  }

  lemma NewcomerHears(p: Process, a: Action, q: Process)
    requires Sound(p) && OwnersExist(p) && RoomsHeard(p) && Resumes(a) && Possible(p, a) && GetsIn(p, a)
    requires Admitted(p, a, q) && SeatedKept(p, q)
    requires var r := p.conns[a.conn].at.room;
             q.rooms[r].world.open == (if r in p.rooms then p.rooms[r].world.open else {}) + {a.player}
    ensures RoomHeard(q, q.rooms[p.conns[a.conn].at.room])
  {
    var r, ps := p.conns[a.conn].at.room, PlayersOf(p, p.conns[a.conn].at.room);
    var live := q.rooms[r];
    IdsSnoc(ps, live.room.players[|ps|]);
    if r in p.rooms {
      StillHeard(p, r, q);
    }
    forall id | id in Game.Ids(live.room.players)
      ensures id in q.owner && (id in live.world.open <==> Hears(q, q.owner[id]))
    {
      if id != a.player {
        assert id in Game.Ids(ps);
      }
    }
  }

  lemma IdsSnoc(ps: seq<Game.Player>, player: Game.Player)
    ensures Game.Ids(ps + [player]) == Game.Ids(ps) + [player.id]
  {
  }

  /** One connection has no socket any more, and its seat's room stops sending to it. */
  ghost predicate Silenced(p: Process, c: ConnId, q: Process) {
    && c in p.conns && c in q.conns && !q.conns[c].open && q.owner == p.owner
    && (forall d :: d in p.conns && d != c ==> d in q.conns && q.conns[d].open == p.conns[d].open)
    && forall x :: x in q.rooms ==> x in p.rooms && RoomSilenced(p.rooms[x], q.rooms[x], x, p.conns[c].joined)
  }

  ghost predicate RoomSilenced(s: Game.Live, t: Game.Live, r: RoomId, seat: Option<Seat>) {
    && (forall id :: id in Game.Ids(t.room.players) ==> id in Game.Ids(s.room.players))
    && forall id :: id in t.world.open <==> id in s.world.open && seat != Some(Seat(r, id))
  }

  lemma StillHeardIn(p: Process, c: ConnId, q: Process, x: RoomId, id: PlayerId)
    requires Seating(p) && Silenced(p, c, q) && x in q.rooms && x in p.rooms && RoomHeard(p, p.rooms[x])
    requires id in Game.Ids(q.rooms[x].room.players)
    ensures id in q.owner && (id in q.rooms[x].world.open <==> Hears(q, q.owner[id]))
  {
    assert RoomSilenced(p.rooms[x], q.rooms[x], x, p.conns[c].joined);
    assert SeatsOwned(p, x, p.rooms[x]) && Owned(p, x, id);
  }

  lemma SeatSilenced(p: Process, c: ConnId, q: Process)
    requires Seating(p) && RoomsHeard(p) && Silenced(p, c, q)
    ensures RoomsHeard(q)
  {
    forall x, id | x in q.rooms && id in Game.Ids(q.rooms[x].room.players)
      ensures id in q.owner && (id in q.rooms[x].world.open <==> Hears(q, q.owner[id]))
    {
      assert x in p.rooms && RoomHeard(p, p.rooms[x]);
      StillHeardIn(p, c, q, x, id);
    }
  }

  lemma DropSilences(p: Process, c: ConnId)
    requires Possible(p, SocketDies(c))
    ensures Silenced(p, c, Do(p, SocketDies(c)))
  {
  }

  /** What a close does to its room's list and sockets. */
  lemma LeaverIsSilenced(s: Game.Live, seat: Seat)
    requires RoomInvariant.Inv(s) && seat.player in Game.Ids(s.room.players)
    ensures RoomSilenced(s, Game.HandleClose(s, seat.player), seat.room, Some(seat))
  {
    Replica.OpenAfter(s, Game.Leave(seat.player));
    CloseTakesSeat(s, seat.player);
    WithoutMembers(Game.Ids(s.room.players), seat.player);
  }

  lemma ClosedIsSilenced(p: Process, c: ConnId, seat: Seat, q: Process, after: Game.Live)
    requires c in p.conns && !p.conns[c].open && p.conns[c].joined == Some(seat) && seat.room in p.rooms
    requires q.owner == p.owner && q.conns == p.conns[c := p.conns[c].(closed := true)]
    requires forall x :: x in q.rooms ==>
               if x == seat.room then q.rooms[x] == after else x in p.rooms && q.rooms[x] == p.rooms[x]
    requires RoomSilenced(p.rooms[seat.room], after, seat.room, Some(seat))
    ensures Silenced(p, c, q)
  {
  }

  lemma CloseHeard(p: Process, c: ConnId)
    requires Sound(p) && RoomsHeard(p) && Possible(p, Closed(c))
    ensures RoomsHeard(Do(p, Closed(c)))
  {
    assert ConnSound(p, c);
    if p.conns[c].joined.Some? {
      var seat := p.conns[c].joined.value;
      assert Healthy(seat.room, p.rooms[seat.room], p.issued, p.games);
      CloseChanges(p, c, seat);
      LeaverIsSilenced(p.rooms[seat.room], seat);
      ClosedIsSilenced(p, c, seat, Do(p, Closed(c)), Game.HandleClose(p.rooms[seat.room], seat.player));
      SeatSilenced(p, c, Do(p, Closed(c)));
    } else {
      IdleHeard(p, Do(p, Closed(c)));
    }
  }

  lemma KnockHeard(p: Process, a: Action)
    requires Sound(p) && OwnersExist(p) && RoomsHeard(p) && Possible(p, a) && (a.Connect? || a.JoinMessage?)
    ensures RoomsHeard(Do(p, a))
  {
    KnockKeepsSeated(p, a);
    IdleHeard(p, Do(p, a));
  }

  lemma KnockKeepsSeated(p: Process, a: Action)
    requires OwnersExist(p) && Possible(p, a) && (a.Connect? || a.JoinMessage?)
    ensures SeatedKept(p, Do(p, a)) && Do(p, a).rooms == p.rooms
  {
  }

  lemma NextHeard(p: Process, a: Action)
    requires Sound(p) && OwnersExist(p) && RoomsHeard(p) && Possible(p, a)
    ensures RoomsHeard(Do(p, a))
  {
    match a
    case Connect(_) => KnockHeard(p, a);
    case JoinMessage(_, _) => KnockHeard(p, a);
    case IdentityKnown(_, _, _, _) => JoinHeard(p, a);
    case AssignmentKnown(_, _, _, _) => JoinHeard(p, a);
    case SocketDies(c) =>
      DropSilences(p, c);
      SeatSilenced(p, c, Do(p, a));
    case Closed(c) => CloseHeard(p, c);
    case Play(r, e) => PlayHeard(p, r, e);
  }

  /** In every interleaving each room sends to exactly those of its players whose connection is open. */
  lemma {:induction false} OpenConnectionsHear(actions: seq<Action>)
    requires Run(actions)
    ensures RoomsHeard(After(actions))
    decreases |actions|
  {
    if actions == [] {
      assert RoomsHeard(BOOT);
    } else {
      var front := actions[..|actions| - 1];
      LastAction(actions);
      RunsAreSound(front);
      OpenConnectionsHear(front);
      NextHeard(After(front), actions[|actions| - 1]);
    }
  }
}
