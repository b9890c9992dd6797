/**
 * The rules of the game in their own words: what each event does to the players, the round, the timeout and the mail,
 * as relations between the state before and the state after, with the numbers written out. Every event follows them
 * from every state that meets the room invariant, and they leave the room no choice.
 */
module Rules {
  import opened Basics
  import opened Protocol
  import opened Text
  import opened Words
  import opened Game
  import opened RoomInvariant
  import opened History

  // ---------------------------------------------------------------- words of the rules

  /** One timeout is pending: of that kind, at that time. */
  predicate Pending(t: Live, kind: AlarmKind, due: int) {
    t.room.roundTimer.Some? && t.world.alarms == map[t.room.roundTimer.value := Alarm(kind, due)]
  }

  /** Everyone but the drawer has solved the word. */
  predicate AllSolved(players: seq<Player>, drawerId: Option<PlayerId>, solved: set<PlayerId>) {
    forall i :: 0 <= i < |players| ==> drawerId == Some(players[i].id) || players[i].id in solved
  }

  /** To everyone whose socket is open. */
  function ToAll(t: Live, message: Message): Envelope {
    Envelope(t.world.open, message)
  }

  function ToOthers(t: Live, id: PlayerId, message: Message): Envelope {
    Envelope(t.world.open - {id}, message)
  }

  /** The answer shown at the end of a round, if there was one. */
  function AnswerOf(word: Option<string>): string {
    match word case None => "" case Some(w) => w
  }

  /** One id is taken out of the queue, if it is there. */
  ghost predicate Struck(queue: seq<PlayerId>, id: PlayerId, rest: seq<PlayerId>) {
    if id in queue then exists j :: 0 <= j < |queue| && queue[j] == id && rest == queue[..j] + queue[j + 1..]
    else rest == queue
  }

  // ---------------------------------------------------------------- what can become of a round; told: the mail so far

  /** The round, or the break, goes on as it was. */
  predicate GoesOn(s: Live, t: Live, told: seq<Envelope>) {
    && t.room.phase == s.room.phase && t.room.gameId == s.room.gameId
    && t.room.drawerId == s.room.drawerId && t.room.word == s.room.word && t.room.roundEndsAt == s.room.roundEndsAt
    && t.room.roundTimer == s.room.roundTimer && t.world.alarms == s.world.alarms
    && t.world.mail == told
  }

  /** The round is over: everyone learns the word and the scores, and there is a break of four seconds. */
  predicate Stops(s: Live, t: Live, told: seq<Envelope>) {
    && t.room.phase == Playing && t.room.gameId == s.room.gameId
    && t.room.drawerId.None? && t.room.word.None? && t.room.roundEndsAt.None?
    && Pending(t, NextRound, t.world.now + 4000)
    && t.world.mail
       == told + [ToAll(t, RoundEnded(s.room.round, AnswerOf(s.room.word), Cards(t.room.players)))]
  }

  /** The game is over: everyone learns the scores, and nothing of the game is left. */
  predicate GameEnds(t: Live, told: seq<Envelope>) {
    && t.room.phase == Ended && t.room.gameId.None?
    && t.room.drawerId.None? && t.room.word.None? && t.room.roundEndsAt.None?
    && t.room.roundTimer.None? && t.world.alarms == map[] && t.room.drawerQueue == []
    && t.world.mail == told + [ToAll(t, GameEnded(Cards(t.room.players)))]
  }

  /** What is said of a new round: to those who guess without the word, to the drawer with it. */
  function RoundNews(t: Live, drawer: Player, word: Option<string>, length: nat): Message {
    RoundStarted(t.room.round, t.room.totalRounds, drawer.id, drawer.nickname, 60000, length, word)
  }

  /** That player draws that word for sixty seconds, on an empty canvas; nobody has solved it; only it is told. */
  predicate Begins(t: Live, drawer: Player, word: string, told: seq<Envelope>) {
    && t.room.phase == Playing && t.room.drawerId == Some(drawer.id) && t.room.word == Some(word)
    && t.room.roundEndsAt == Some(t.world.now + 60000) && Pending(t, RoundOver, t.world.now + 60000)
    && t.room.strokes == [] && t.room.solved == {}
    && t.world.mail
       == told + [ToAll(t, DrawClear)] + [ToOthers(t, drawer.id, RoundNews(t, drawer, None, |word|))]
          + if drawer.id in t.world.open then [Envelope({drawer.id}, RoundNews(t, drawer, Some(word), |word|))] else []
  }

  /** Clock and room name stay, and the sockets that are open are these. */
  predicate Around(s: Live, t: Live, open: set<PlayerId>) {
    && t.world.now == s.world.now && t.world.open == open
    && t.room.id == s.room.id && t.room.capacity == s.room.capacity
  }

  // ---------------------------------------------------------------- a player comes

  predicate Joins(s: Live, id: PlayerId, userId: Option<UserId>, nickname: string, t: Live) {
    if |s.room.players| >= s.room.capacity then t == s
    else
      var r, card := s.room, Card(id, nickname, 0);
      && t.room == r.(players := r.players + [Player(id, userId, nickname, 0)],
                      drawerQueue := if r.phase == Playing then r.drawerQueue + [id] else r.drawerQueue)
      && Around(s, t, s.world.open + {id})
      && GoesOn(s, t,
           s.world.mail
           + [Envelope({id}, Snapshot(card, Cards(t.room.players), r.capacity, r.phase, r.round, r.totalRounds,
                                      r.drawerId, Left(s), if r.word.None? then None else Some(|r.word.value|),
                                      r.strokes))]
           + [ToOthers(t, id, PlayerJoined(card, |t.room.players|))]
           + [ToAll(t, System(Entered(nickname), s.world.now))])
  }

  /** The time left of the round, if there is one. */
  function Left(s: Live): Option<nat> {
    if s.room.roundEndsAt.None? then None else Some(TimeLeft(s))
  }

  // ---------------------------------------------------------------- a player goes

  ghost predicate Leaves(s: Live, id: PlayerId, t: Live) {
    exists k :: 0 <= k < |s.room.players| && s.room.players[k].id == id && LeavesSeat(s, k, t)
  }

  ghost predicate LeavesSeat(s: Live, k: nat, t: Live)
    requires k < |s.room.players|
  {
    var r, q := s.room, t.room;
    var id, nickname := r.players[k].id, r.players[k].nickname;
    && q.players == r.players[..k] + r.players[k + 1..] && q.solved == r.solved - {id}
    && q.round == r.round && q.totalRounds == r.totalRounds && q.strokes == r.strokes && q.usedWords == r.usedWords
    && Around(s, t, s.world.open - {id})
    && AfterLeave(s, id, t, s.world.mail + [ToAll(t, PlayerLeft(id, nickname, |q.players|))]
                            + [ToAll(t, System(Exited(nickname), s.world.now))])
  }

  /** A departure ends the game if one player is left, the round if the drawer is gone or everyone left has solved. */
  ghost predicate AfterLeave(s: Live, id: PlayerId, t: Live, told: seq<Envelope>) {
    if s.room.phase == Playing && |t.room.players| < 2 then
      GameEnds(t, told + [ToAll(t, System(TooFewPlayersLeft, s.world.now))])
    else
      && Struck(s.room.drawerQueue, id, t.room.drawerQueue)
      && if s.room.phase == Playing && s.room.drawerId == Some(id) then
           Stops(s, t, told + [ToAll(t, System(DrawerLeft, s.world.now))])
         else if s.room.phase == Playing && AllSolved(t.room.players, s.room.drawerId, t.room.solved) then
           Stops(s, t, told)
         else GoesOn(s, t, told)
  }

  // ---------------------------------------------------------------- a player says something

  ghost predicate Says(s: Live, id: PlayerId, text: string, t: Live) {
    var line := Clip(Trim(text), 200);
    if line == "" || forall k :: 0 <= k < |s.room.players| ==> s.room.players[k].id != id then t == s
    else exists k :: 0 <= k < |s.room.players| && s.room.players[k].id == id && Speaks(s, s.room.players[k], line, t)
  }

  ghost predicate Speaks(s: Live, player: Player, line: string, t: Live) {
    if IsRight(s, player.id, line) then Wins(s, player, t)
    else
      && t == s.(world := s.world.(mail := t.world.mail))
      && t.world.mail == s.world.mail + if GivesAway(s, line) then []
                                        else [ToAll(s, ChatLine(player.id, player.nickname, line, s.world.now))]
  }

  /** The right answer from someone who neither draws nor has solved. */
  predicate IsRight(s: Live, id: PlayerId, line: string) {
    && s.room.phase == Playing && s.room.word.Some? && Normalize(line) == Normalize(s.room.word.value)
    && s.room.drawerId != Some(id) && id !in s.room.solved
  }

  /** Some part of the line spells the word of the round. */
  ghost predicate GivesAway(s: Live, line: string) {
    s.room.phase == Playing && s.room.word.Some?
    && exists before, after :: Normalize(line) == before + Normalize(s.room.word.value) + after
  }

  /** The solver gains by the time left, the drawer ten, nobody else; everyone is told. */
  predicate Wins(s: Live, player: Player, t: Live) {
    && t.room == s.room.(players := t.room.players, solved := s.room.solved + {player.id}, drawerId := t.room.drawerId,
                         word := t.room.word, roundEndsAt := t.room.roundEndsAt, roundTimer := t.room.roundTimer)
    && Around(s, t, s.world.open) && Pays(s, player.id, t.room.players)
    && var told := s.world.mail + [ToAll(s, CorrectAnswer(player.id, player.nickname, Cards(t.room.players)))];
       if AllSolved(t.room.players, s.room.drawerId, t.room.solved) then Stops(s, t, told) else GoesOn(s, t, told)
  }

  predicate Pays(s: Live, solver: PlayerId, paid: seq<Player>) {
    var ps := s.room.players;
    && |paid| == |ps|
    && forall i :: 0 <= i < |ps| ==>
         paid[i] == ps[i].(score := ps[i].score + (if ps[i].id == solver then Reward(TimeLeft(s)) else 0)
                                    + (if s.room.drawerId == Some(ps[i].id) then 10 else 0))
  }

  // ---------------------------------------------------------------- a player draws

  predicate Draws(s: Live, id: PlayerId) {
    s.room.phase == Playing && s.room.drawerId == Some(id)
  }

  predicate Paints(s: Live, id: PlayerId, stroke: Stroke, t: Live) {
    if !Draws(s, id) || stroke.points == [] then t == s
    else
      && t == s.(room := s.room.(strokes := t.room.strokes), world := s.world.(mail := t.world.mail))
      && t.world.mail == s.world.mail + [ToOthers(s, id, Draw(Cleaned(stroke)))]
      && t.room.strokes == if |s.room.strokes| < 3000 then s.room.strokes + [Cleaned(stroke)] else s.room.strokes
  }

  /** At most 256 points, 32 characters of colour, a width from 1 to 48, and 4 for none. */
  function Cleaned(stroke: Stroke): Stroke {
    var points := if |stroke.points| > 256 then stroke.points[..256] else stroke.points;
    var color := if |stroke.color| > 32 then stroke.color[..32] else stroke.color;
    if stroke.width == 0.0 then Stroke(points, color, 4.0)
    else if 1.0 <= stroke.width <= 48.0 then Stroke(points, color, stroke.width)
    else if stroke.width < 1.0 then Stroke(points, color, 1.0)
    else Stroke(points, color, 48.0)
  }

  predicate Wipes(s: Live, id: PlayerId, t: Live) {
    if !Draws(s, id) then t == s
    else
      && t == s.(room := s.room.(strokes := []), world := s.world.(mail := t.world.mail))
      && t.world.mail == s.world.mail + [ToOthers(s, id, DrawClear)]
  }

  // ---------------------------------------------------------------- a game starts, a timeout fires

  /** Two players start a game: points are gone, each draws once but no more than ten, the first at once. */
  ghost predicate Starts(s: Live, gameId: GameId, order: seq<PlayerId>, word: string, t: Live) {
    if s.room.phase == Playing then t == s
    else if |s.room.players| < 2 then
      t == s.(world := s.world.(mail := s.world.mail + [ToAll(s, System(NeedMorePlayers, s.world.now))]))
    else
      var total := if |s.room.players| < 10 then |s.room.players| else 10;
      && |t.room.players| == |s.room.players|
      && (forall i :: 0 <= i < |s.room.players| ==> t.room.players[i] == s.room.players[i].(score := 0))
      && |order| >= total && t.room.drawerQueue == order[1..total]
      && t.room.gameId == Some(gameId) && t.room.round == 1 && t.room.totalRounds == total
      && t.room.usedWords == [word] && Around(s, t, s.world.open)
      && exists k :: 0 <= k < |t.room.players| && t.room.players[k].id == order[0]
                     && Begins(t, t.room.players[k], word, s.world.mail + [ToAll(s, GameStarted(total))])
  }

  /** The sixty seconds are over. */
  predicate TimeIsUp(s: Live, t: Live) {
    && t.room == s.room.(drawerId := None, word := None, roundEndsAt := None, roundTimer := t.room.roundTimer)
    && Around(s, t, s.world.open) && Stops(s, t, s.world.mail)
  }

  /** The break is over: the next in the queue draws, and without one the game ends. */
  ghost predicate BreakIsOver(s: Live, word: string, t: Live) {
    var r, q := s.room, t.room;
    && Around(s, t, s.world.open) && q.players == r.players && q.totalRounds == r.totalRounds
    && if r.drawerQueue == [] then
         GameEnds(t, s.world.mail) && q.round == r.round && q.solved == r.solved && q.strokes == r.strokes
         && q.usedWords == r.usedWords
       else
         && q.gameId == r.gameId && q.round == r.round + 1 && q.drawerQueue == r.drawerQueue[1..]
         && q.usedWords == r.usedWords + [word]
         && exists k :: 0 <= k < |q.players| && q.players[k].id == r.drawerQueue[0]
                        && Begins(t, q.players[k], word, s.world.mail)
  }

  /** A new room: nobody there, room for a hundred, no game and nothing pending. */
  lemma RoomsBeginEmpty(id: RoomId, now: int)
    ensures var s := NewRoom(id, now);
            && Inv(s) && s.room.id == id && s.room.players == [] && s.room.capacity == 100 && s.room.phase == Waiting
            && s.room.round == 0 && s.room.totalRounds == 0 && s.room.strokes == [] && s.world.now == now
            && s.world.open == {} && s.world.alarms == map[] && s.world.mail == [] && s.world.published == []
  {
  }

  // ---------------------------------------------------------------- every event

  ghost predicate Follows(s: Live, e: Event, t: Live)
    requires Enabled(s, e)
  {
    match e
    case Join(id, userId, nickname) => Joins(s, id, userId, nickname, t)
    case Leave(id) => Leaves(s, id, t)
    case Say(id, text) => Says(s, id, text, t)
    case Paint(id, stroke) => Paints(s, id, stroke, t)
    case Wipe(id) => Wipes(s, id, t)
    case Start(gameId, order, word) => Starts(s, gameId, order, word, t)
    case Alert(timer, word) =>
      if s.world.alarms[timer].kind == RoundOver then TimeIsUp(s, t) else BreakIsOver(s, word, t)
    case Tick(now) => t == s.(world := s.world.(now := now))
    case Drop(id) => t == s.(world := s.world.(open := s.world.open - {id}))
  }

  // ---------------------------------------------------------------- the handlers follow the rules

  /** Open sockets belong to players who are present. */
  lemma ReceiversAreOpen(s: Live, id: PlayerId)
    requires Seating(s)
    ensures Receivers(s, None) == s.world.open && Receivers(s, Some(id)) == s.world.open - {id}
  {
  }

  lemma EndRoundStops(s: Live)
    requires Unsettled(s) && s.room.players != []
    ensures var t := EndRound(s);
            && Stops(s, t, s.world.mail) && Around(s, t, s.world.open)
            && t.room == s.room.(drawerId := None, word := None, roundEndsAt := None, roundTimer := t.room.roundTimer)
  {
    ReceiversAreOpen(CloseRound(s), 0);
    assert ClearRoundTimer(s).world.alarms == map[];
  }

  lemma EndGameEnds(s: Live)
    requires Unsettled(s)
    ensures var t := EndGame(s);
            && GameEnds(t, s.world.mail) && Around(s, t, s.world.open)
            && t.room == CloseGame(s).room
  {
    ReceiversAreOpen(CloseGame(s), 0);
    assert ClearRoundTimer(s).world.alarms == map[];
  }

  lemma BeginRoundBegins(s: Live, drawer: Player, word: string)
    requires Seating(s) && s.room.phase == Playing && s.world.alarms == map[] && drawer in s.room.players
    ensures var t := BeginRound(s, drawer, word);
            && Begins(t, drawer, word, s.world.mail) && Around(s, t, s.world.open)
            && t.room == Assign(s, drawer.id, word).room.(roundTimer := t.room.roundTimer)
  {
    ReceiversAreOpen(Assign(s, drawer.id, word), drawer.id);
    assert drawer.id in s.world.open ==> drawer.id in Ids(s.room.players);
  }

  lemma StartRoundBegins(s: Live, word: string)
    requires Unsettled(s) && s.room.drawerQueue != []
    ensures s.room.drawerQueue[0] in Ids(s.room.players)
    ensures var t, drawer := StartRound(s, word), Find(s.room.players, s.room.drawerQueue[0]).value;
            && Begins(t, drawer, word, s.world.mail) && Around(s, t, s.world.open)
            && t.room == Assign(s, drawer.id, word).room.(roundTimer := t.room.roundTimer,
                                                          drawerQueue := s.room.drawerQueue[1..])
  {
    assert s.room.drawerQueue[0] in s.room.drawerQueue;
    var c := ClearRoundTimer(s);
    assert c.world.alarms == map[];
    BeginRoundBegins(c.(room := c.room.(drawerQueue := s.room.drawerQueue[1..])),
                     Find(s.room.players, s.room.drawerQueue[0]).value, word);
  }

  /** The player of an id, by its place. */
  lemma PlaceOf(ps: seq<Player>, id: PlayerId) returns (k: nat)
    requires id in Ids(ps)
    ensures k < |ps| && ps[k] == Find(ps, id).value && ps[k].id == id
  {
    k :| 0 <= k < |ps| && ps[k] == Find(ps, id).value;
  }

  lemma {:induction false} NobodyOut(ps: seq<Player>, id: PlayerId)
    requires id !in Ids(ps)
    ensures Evict(ps, id) == ps
  {
    if ps != [] {
      IdsOfPrefix(ps);
      NobodyOut(ps[..|ps| - 1], id);
      Unsnoc(ps);
    }
  }

  lemma {:induction false} EvictTakesOne(ps: seq<Player>, k: nat)
    requires k < |ps| && Distinct(Ids(ps))
    ensures Evict(ps, ps[k].id) == ps[..k] + ps[k + 1..]
  {
    var n := |ps| - 1;
    IdsOfPrefix(ps);
    if k == n {
      NobodyOut(ps[..n], ps[k].id);
    } else {
      EvictTakesOne(ps[..n], k);
      assert ps[..n][k] == ps[k] && Ids(ps)[k] != Ids(ps)[n];
      assert ps[..k] + ps[k + 1..] == (ps[..n][..k] + ps[..n][k + 1..]) + [ps[n]];
    }
  }

  lemma {:induction false} NothingOut(xs: seq<PlayerId>, x: PlayerId)
    requires x !in xs
    ensures Without(xs, x) == xs
  {
    if xs != [] {
      NothingOut(xs[..|xs| - 1], x);
      Unsnoc(xs);
    }
  }

  lemma {:induction false} WithoutTakesOne(xs: seq<PlayerId>, j: nat)
    requires j < |xs| && Distinct(xs)
    ensures Without(xs, xs[j]) == xs[..j] + xs[j + 1..]
  {
    var n := |xs| - 1;
    if j == n {
      NothingOut(xs[..n], xs[j]);
    } else {
      WithoutTakesOne(xs[..n], j);
      assert xs[..j] + xs[j + 1..] == (xs[..n][..j] + xs[..n][j + 1..]) + [xs[n]];
    }
  }

  lemma WithoutStrikes(queue: seq<PlayerId>, id: PlayerId)
    requires Distinct(queue)
    ensures Struck(queue, id, Without(queue, id))
  {
    if id in queue {
      var j :| 0 <= j < |queue| && queue[j] == id;
      WithoutTakesOne(queue, j);
    } else {
      NothingOut(queue, id);
    }
  }

  lemma NobodyUnsolved(s: Live)
    ensures UnsolvedGuessers(s) == 0 <==> AllSolved(s.room.players, s.room.drawerId, s.room.solved)
  {
    var r := s.room;
    UnsolvedCounts(r.players, r.drawerId, r.solved);
    assert forall i :: 0 <= i < |r.players| ==> Ids(r.players)[i] == r.players[i].id;
    assert forall i :: 0 <= i < |r.players| ==> Ids(r.players)[i] in Ids(r.players);
  }

  // ---------------------------------------------------------------- comings and goings

  lemma SnapshotSays(s: Live, you: Card)
    ensures SnapshotFor(s, you)
            == Snapshot(you, Cards(s.room.players), s.room.capacity, s.room.phase, s.room.round, s.room.totalRounds,
                        s.room.drawerId, Left(s), if s.room.word.None? then None else Some(|s.room.word.value|),
                        s.room.strokes)
  {
  }

  lemma ReceiversOfSeated(s: Live, id: PlayerId, userId: Option<UserId>, nickname: string)
    requires Inv(s)
    ensures var seated := Game.Seat(s, id, userId, nickname);
            && id in Ids(seated.room.players)
            && Receivers(seated, None) == seated.world.open
            && Receivers(seated, Some(id)) == seated.world.open - {id}
  {
    var seated := Game.Seat(s, id, userId, nickname);
    assert Ids(seated.room.players) == Ids(s.room.players) + [id];
    assert id in Ids(seated.room.players);
  }

  lemma JoinFollows(s: Live, id: PlayerId, userId: Option<UserId>, nickname: string)
    requires Inv(s) && id !in Ids(s.room.players)
    ensures Joins(s, id, userId, nickname, CommitJoin(s, id, userId, nickname))
  {
    if !IsFull(s) {
      ReceiversOfSeated(s, id, userId, nickname);
      SnapshotSays(Game.Seat(s, id, userId, nickname), Card(id, nickname, 0));
    }
  }

  /** The seat is given up and the others are told. */
  lemma FarewellFollows(s: Live, k: nat)
    requires Inv(s) && k < |s.room.players|
    ensures var id, nickname := s.room.players[k].id, s.room.players[k].nickname;
            var t := Farewell(s, id);
            && id in Ids(s.room.players)
            && t.room == s.room.(players := s.room.players[..k] + s.room.players[k + 1..],
                                 solved := s.room.solved - {id}, drawerQueue := Without(s.room.drawerQueue, id))
            && t.world == s.world.(open := s.world.open - {id}, mail := t.world.mail)
            && t.world.mail == s.world.mail + [ToAll(t, PlayerLeft(id, nickname, |t.room.players|))]
                               + [ToAll(t, System(Exited(nickname), s.world.now))]
  {
    var id := s.room.players[k].id;
    assert Ids(s.room.players)[k] == id;
    EvictTakesOne(s.room.players, k);
    VacateLists(s, id);
    ReceiversAreOpen(Vacate(s, id), id);
    OnePlayerOfThatId(s.room.players, id, k);
  }

  /** Ids tell players apart. */
  lemma OnePlayerOfThatId(ps: seq<Player>, id: PlayerId, k: nat)
    requires Distinct(Ids(ps)) && k < |ps| && ps[k].id == id
    ensures Find(ps, id) == Some(ps[k])
  {
    assert Ids(ps)[k] == id;
    var j := PlaceOf(ps, id);
    assert Ids(ps)[j] == Ids(ps)[k];
  }

  lemma LeaveFollows(s: Live, id: PlayerId)
    requires Inv(s) && id in Ids(s.room.players)
    ensures Leaves(s, id, HandleClose(s, id))
  {
    var k := PlaceOf(s.room.players, id);
    FarewellFollows(s, k);
    FarewellKeepsShape(s, id);
    WithoutStrikes(s.room.drawerQueue, id);
    DepartureFollows(s, id, Farewell(s, id));
    assert LeavesSeat(s, k, HandleClose(s, id));
  }

  lemma DepartureFollows(s: Live, id: PlayerId, left: Live)
    requires left.room == s.room.(players := left.room.players, solved := left.room.solved,
                                  drawerQueue := left.room.drawerQueue)
    requires left.world == s.world.(open := left.world.open, mail := left.world.mail)
    requires Struck(s.room.drawerQueue, id, left.room.drawerQueue)
    requires s.room.phase == Playing ==> Unsettled(left)
    ensures var t := AfterDeparture(left, id);
            && AfterLeave(s, id, t, left.world.mail) && Around(left, t, left.world.open)
            && t.room.players == left.room.players && t.room.solved == left.room.solved
            && t.room.round == s.room.round && t.room.totalRounds == s.room.totalRounds
            && t.room.strokes == s.room.strokes && t.room.usedWords == s.room.usedWords
  {
    if s.room.phase == Playing {
      NobodyUnsolved(left);
      ReceiversAreOpen(left, id);
      if |left.room.players| < 2 {
        EndGameEnds(Announce(left, TooFewPlayersLeft));
      } else if s.room.drawerId == Some(id) {
        EndRoundStops(Announce(left, DrawerLeft));
      } else if UnsolvedGuessers(left) == 0 {
        EndRoundStops(left);
      }
    }
  }

  // ---------------------------------------------------------------- answers and chat

  lemma ScorePays(s: Live, id: PlayerId)
    requires s.room.drawerId.Some?
    ensures Pays(s, id, Game.Score(s, id).room.players)
  {
    GainIsReward(TimeLeft(s));
  }

  lemma SolveWins(s: Live, player: Player)
    requires Inv(s) && s.room.phase == Playing && Drawing(s) && player in s.room.players && IsGuesser(s, player.id)
    ensures Wins(s, player, Solve(s, player))
  {
    var scored := Game.Score(s, player.id);
    assert Ids(scored.room.players) == Ids(s.room.players);
    var k :| 0 <= k < |s.room.players| && s.room.players[k] == player;
    assert Ids(s.room.players)[k] == player.id;
    ScorePays(s, player.id);
    ReceiversAreOpen(scored, player.id);
    var told := Broadcast(scored, CorrectAnswer(player.id, player.nickname, Cards(scored.room.players)), None);
    NobodyUnsolved(told);
    if UnsolvedGuessers(told) == 0 {
      EndRoundStops(told);
    }
  }

  lemma ContainsIsParts(text: string, part: string)
    ensures Contains(text, part) <==> exists before, after :: text == before + part + after
  {
    if Contains(text, part) {
      var i :| 0 <= i <= |text| && At(text, part, i);
      assert text == text[..i] + part + text[i + |part|..];
    }
    if exists before, after :: text == before + part + after {
      var before, after :| text == before + part + after;
      assert At(text, part, |before|);
    }
  }

  lemma SayFollows(s: Live, id: PlayerId, text: string)
    requires Inv(s)
    ensures Says(s, id, text, HandleChat(s, id, text))
  {
    var line := Clip(Trim(text), 200);
    assert forall k :: 0 <= k < |s.room.players| ==> Ids(s.room.players)[k] == s.room.players[k].id;
    if line != "" && id in Ids(s.room.players) {
      var k := PlaceOf(s.room.players, id);
      LineFollows(s, s.room.players[k], line);
      var (after, hidden) := Guess(s, s.room.players[k], line);
      assert Speaks(s, s.room.players[k], line, HandleChat(s, id, text));
    }
  }

  lemma GuessIs(s: Live, player: Player, line: string)
    requires Inv(s)
    ensures IsRight(s, player.id, line) ==> Guess(s, player, line) == (Solve(s, player), true)
    ensures !IsRight(s, player.id, line) ==> Guess(s, player, line) == (s, GivesAway(s, line))
  {
    WordsAreVisible();
    if s.room.phase == Playing && s.room.word.Some? {
      ContainsIsParts(Normalize(line), Normalize(s.room.word.value));
    }
  }

  lemma TalkFollows(s: Live, player: Player, line: string)
    requires Inv(s) && !IsRight(s, player.id, line)
    ensures var said := Broadcast(s, ChatLine(player.id, player.nickname, line, s.world.now), None);
            Speaks(s, player, line, if GivesAway(s, line) then s else said)
  {
    ReceiversAreOpen(s, player.id);
  }

  lemma LineFollows(s: Live, player: Player, line: string)
    requires Inv(s) && player in s.room.players
    ensures var (after, hidden) := Guess(s, player, line);
            Speaks(s, player, line,
                   if hidden then after
                   else Broadcast(after, ChatLine(player.id, player.nickname, line, after.world.now), None))
  {
    GuessIs(s, player, line);
    if IsRight(s, player.id, line) {
      SolveWins(s, player);
    } else {
      TalkFollows(s, player, line);
    }
  }

  // ---------------------------------------------------------------- ink

  lemma InkFollows(s: Live, id: PlayerId, stroke: Stroke)
    requires Inv(s)
    ensures Paints(s, id, stroke, HandleDraw(s, id, stroke)) && Wipes(s, id, HandleDrawClear(s, id))
  {
    ReceiversAreOpen(s, id);
    assert Sanitize(stroke) == Cleaned(stroke);
  }

  // ---------------------------------------------------------------- starts and timeouts

  /** The game before its first round. */
  lemma AnnouncedSays(s: Live, gameId: GameId, order: seq<PlayerId>)
    requires Inv(s) && s.room.phase != Playing && |s.room.players| >= 2
    requires multiset(order) == multiset(Ids(s.room.players))
    ensures var told, total := Announced(s, gameId, order), if |s.room.players| < 10 then |s.room.players| else 10;
            && Unsettled(told) && |order| == |s.room.players| && told.room.drawerQueue != []
            && told.room.drawerQueue[0] == order[0] && told.room.drawerQueue[1..] == order[1..total]
            && told.room.players == ZeroScores(s.room.players) && told.room.gameId == Some(gameId)
            && told.room.round == 0 && told.room.totalRounds == total && told.room.usedWords == []
            && Around(s, told, s.world.open)
            && told.world.mail == s.world.mail + [ToAll(s, GameStarted(total))]
  {
    AnnouncedIsUnsettled(s, gameId, order);
    ReceiversAreOpen(NewGame(s, gameId, order), 0);
    PermutationOfDistinct(Ids(s.room.players), order);
    FirstOf(order, Announced(s, gameId, order).room.totalRounds);
  }

  lemma GameFollows(s: Live, gameId: GameId, order: seq<PlayerId>, word: string)
    requires Inv(s) && s.room.phase != Playing && |s.room.players| >= 2
    requires multiset(order) == multiset(Ids(s.room.players))
    ensures Starts(s, gameId, order, word, StartRound(Announced(s, gameId, order), word))
  {
    AnnouncedSays(s, gameId, order);
    var told := Announced(s, gameId, order);
    StartRoundBegins(told, word);
    var k := PlaceOf(told.room.players, told.room.drawerQueue[0]);
    var t := StartRound(told, word);
    assert t.room.usedWords == [word];
    assert t.room.players[k].id == order[0] && Begins(t, t.room.players[k], word, told.world.mail);
  }

  lemma StartFollows(s: Live, gameId: GameId, order: seq<PlayerId>, word: string)
    requires Inv(s) && Enabled(s, Start(gameId, order, word))
    ensures Starts(s, gameId, order, word, StartGame(s, gameId, order, word))
  {
    if s.room.phase != Playing && |s.room.players| >= 2 {
      GameFollows(s, gameId, order, word);
    } else {
      ReceiversAreOpen(s, 0);
    }
  }

  lemma FirstOf(order: seq<PlayerId>, total: nat)
    requires 1 <= total <= |order|
    ensures Clip(order, total)[0] == order[0] && Clip(order, total)[1..] == order[1..total]
  {
  }

  lemma AlertFollows(s: Live, timer: TimerId, word: string)
    requires Inv(s) && Enabled(s, Alert(timer, word))
    ensures Follows(s, Alert(timer, word), Fire(s, timer, word))
  {
    AlertFindsGame(s, timer, word);
    var due := s.(world := s.world.(alarms := s.world.alarms - {timer}));
    match s.world.alarms[timer].kind
    case RoundOver => EndRoundStops(due);
    case NextRound =>
      if due.room.drawerQueue == [] {
        EndGameEnds(due);
      } else {
        StartRoundBegins(due, word);
        var k := PlaceOf(s.room.players, s.room.drawerQueue[0]);
        assert StartRound(due, word).room.players[k].id == s.room.drawerQueue[0];
      }
  }

  /** Every event, from every state that meets the room invariant, follows the rules. */
  lemma RulesHold(s: Live, e: Event)
    requires Inv(s) && Enabled(s, e)
    ensures Follows(s, e, Step(s, e))
  {
    match e
    case Join(id, userId, nickname) => JoinFollows(s, id, userId, nickname);
    case Leave(id) => LeaveFollows(s, id);
    case Say(id, text) => SayFollows(s, id, text);
    case Paint(id, stroke) => InkFollows(s, id, stroke);
    case Wipe(id) => InkFollows(s, id, Stroke([], "", 0.0));
    case Start(gameId, order, word) => StartFollows(s, gameId, order, word);
    case Alert(timer, word) => AlertFollows(s, timer, word);
    case Tick(now) =>
    case Drop(id) =>
  }

  // ---------------------------------------------------------------- the rules leave no choice

  /** The same room with the same timeout pending, whatever its handle, the same clock, sockets and mail. */
  predicate SameOutcome(t: Live, u: Live) {
    && t.room.(roundTimer := None) == u.room.(roundTimer := None)
    && (t.room.roundTimer.Some? <==> u.room.roundTimer.Some?)
    && SameAlarm(t.room.roundTimer, t.world.alarms, u.room.roundTimer, u.world.alarms)
    && t.world.now == u.world.now && t.world.open == u.world.open && t.world.mail == u.world.mail
  }

  predicate SameAlarm(a: Option<TimerId>, xs: map<TimerId, Alarm>, b: Option<TimerId>, ys: map<TimerId, Alarm>) {
    match (a, b)
    case (Some(x), Some(y)) => x in xs && y in ys && xs[x] == ys[y] && xs.Keys == {x} && ys.Keys == {y}
    case _ => xs == ys
  }

  lemma OnePlace(ps: seq<Player>, j: nat, k: nat)
    requires Distinct(Ids(ps)) && j < |ps| && k < |ps| && ps[j].id == ps[k].id
    ensures j == k
  {
    assert Ids(ps)[j] == Ids(ps)[k];
  }

  lemma OneRest(queue: seq<PlayerId>, id: PlayerId, xs: seq<PlayerId>, ys: seq<PlayerId>)
    requires Distinct(queue) && Struck(queue, id, xs) && Struck(queue, id, ys)
    ensures xs == ys
  {
  }

  /** How the round, or the game, goes on decides the rest of the outcome. */
  predicate SameRound(t: Live, u: Live) {
    && t.room.phase == u.room.phase && t.room.gameId == u.room.gameId && t.room.drawerId == u.room.drawerId
    && t.room.word == u.room.word && t.room.roundEndsAt == u.room.roundEndsAt
    && (t.room.roundTimer.Some? <==> u.room.roundTimer.Some?)
    && SameAlarm(t.room.roundTimer, t.world.alarms, u.room.roundTimer, u.world.alarms)
    && t.world.mail == u.world.mail
  }

  /** The timer of the room, if there is one, is the only timeout. */
  predicate Timed(s: Live) {
    if s.room.roundTimer.Some? then s.world.alarms.Keys == {s.room.roundTimer.value} else s.world.alarms == map[]
  }

  lemma InvIsTimed(s: Live)
    requires Inv(s)
    ensures Timed(s)
  {
  }

  lemma GoingOnIsDecided(s: Live, t: Live, u: Live, told: seq<Envelope>)
    requires Timed(s) && GoesOn(s, t, told) && GoesOn(s, u, told)
    ensures SameRound(t, u)
  {
  }

  lemma StopIsDecided(s: Live, t: Live, u: Live, told: seq<Envelope>)
    requires Stops(s, t, told) && Stops(s, u, told)
    requires t.world.now == u.world.now && t.world.open == u.world.open && t.room.players == u.room.players
    ensures SameRound(t, u)
  {
  }

  lemma AfterLeaveIsDecided(s: Live, id: PlayerId, t: Live, u: Live, told: seq<Envelope>)
    requires Timed(s) && Distinct(s.room.drawerQueue) && AfterLeave(s, id, t, told) && AfterLeave(s, id, u, told)
    requires t.world.now == u.world.now && t.world.open == u.world.open
    requires t.room.players == u.room.players && t.room.solved == u.room.solved
    ensures SameRound(t, u) && t.room.drawerQueue == u.room.drawerQueue
  {
    if !(s.room.phase == Playing && |t.room.players| < 2) {
      OneRest(s.room.drawerQueue, id, t.room.drawerQueue, u.room.drawerQueue);
      if s.room.phase == Playing && s.room.drawerId == Some(id) {
        StopIsDecided(s, t, u, told + [ToAll(t, System(DrawerLeft, s.world.now))]);
      } else if s.room.phase == Playing && AllSolved(t.room.players, s.room.drawerId, t.room.solved) {
        StopIsDecided(s, t, u, told);
      } else {
        GoingOnIsDecided(s, t, u, told);
      }
    }
  }

  lemma SeatIsDecided(s: Live, k: nat, t: Live, u: Live)
    requires Timed(s) && Distinct(s.room.drawerQueue) && k < |s.room.players|
    requires LeavesSeat(s, k, t) && LeavesSeat(s, k, u)
    ensures SameOutcome(t, u)
  {
    var id, nickname := s.room.players[k].id, s.room.players[k].nickname;
    AfterLeaveIsDecided(s, id, t, u, s.world.mail + [ToAll(t, PlayerLeft(id, nickname, |t.room.players|))]
                                     + [ToAll(t, System(Exited(nickname), s.world.now))]);
  }

  lemma LeaveIsDecided(s: Live, id: PlayerId, t: Live, u: Live)
    requires Distinct(Ids(s.room.players)) && Distinct(s.room.drawerQueue) && Timed(s)
    requires Leaves(s, id, t) && Leaves(s, id, u)
    ensures SameOutcome(t, u)
  {
    var j :| 0 <= j < |s.room.players| && s.room.players[j].id == id && LeavesSeat(s, j, t);
    var k :| 0 <= k < |s.room.players| && s.room.players[k].id == id && LeavesSeat(s, k, u);
    OnePlace(s.room.players, j, k);
    SeatIsDecided(s, k, t, u);
  }

  lemma WinIsDecided(s: Live, player: Player, t: Live, u: Live)
    requires Timed(s) && Wins(s, player, t) && Wins(s, player, u)
    ensures SameOutcome(t, u)
  {
    assert t.room.players == u.room.players;
    var told := s.world.mail + [ToAll(s, CorrectAnswer(player.id, player.nickname, Cards(t.room.players)))];
    if AllSolved(t.room.players, s.room.drawerId, t.room.solved) {
      StopIsDecided(s, t, u, told);
    } else {
      GoingOnIsDecided(s, t, u, told);
    }
  }

  lemma LineIsDecided(s: Live, player: Player, line: string, t: Live, u: Live)
    requires Timed(s) && Speaks(s, player, line, t) && Speaks(s, player, line, u)
    ensures SameOutcome(t, u)
  {
    if IsRight(s, player.id, line) {
      WinIsDecided(s, player, t, u);
    }
  }

  lemma SayIsDecided(s: Live, id: PlayerId, text: string, t: Live, u: Live)
    requires Distinct(Ids(s.room.players)) && Timed(s) && Says(s, id, text, t) && Says(s, id, text, u)
    ensures SameOutcome(t, u)
  {
    var line := Clip(Trim(text), 200);
    if line != "" && exists k :: 0 <= k < |s.room.players| && s.room.players[k].id == id {
      var j :| 0 <= j < |s.room.players| && s.room.players[j].id == id && Speaks(s, s.room.players[j], line, t);
      var k :| 0 <= k < |s.room.players| && s.room.players[k].id == id && Speaks(s, s.room.players[k], line, u);
      OnePlace(s.room.players, j, k);
      LineIsDecided(s, s.room.players[k], line, t, u);
    }
  }

  lemma BeginIsDecided(t: Live, u: Live, id: PlayerId, j: nat, k: nat, word: string, told: seq<Envelope>)
    requires t.room.players == u.room.players && Distinct(Ids(t.room.players))
    requires j < |t.room.players| && k < |t.room.players| && t.room.players[j].id == id == u.room.players[k].id
    requires Begins(t, t.room.players[j], word, told) && Begins(u, u.room.players[k], word, told)
    requires t.room.round == u.room.round && t.room.totalRounds == u.room.totalRounds
    requires t.world.now == u.world.now && t.world.open == u.world.open
    ensures t.world.mail == u.world.mail && t.room.drawerId == u.room.drawerId
    ensures SameAlarm(t.room.roundTimer, t.world.alarms, u.room.roundTimer, u.world.alarms)
  {
    OnePlace(t.room.players, j, k);
  }

  lemma StartIsDecided(s: Live, gameId: GameId, order: seq<PlayerId>, word: string, t: Live, u: Live)
    requires Inv(s) && Starts(s, gameId, order, word, t) && Starts(s, gameId, order, word, u)
    ensures SameOutcome(t, u)
  {
    if s.room.phase != Playing && |s.room.players| >= 2 {
      var told := s.world.mail + [ToAll(s, GameStarted(t.room.totalRounds))];
      assert t.room.players == u.room.players && Ids(t.room.players) == Ids(s.room.players);
      var ps, qs := t.room.players, u.room.players;
      var j :| 0 <= j < |ps| && ps[j].id == order[0] && Begins(t, ps[j], word, told);
      var k :| 0 <= k < |qs| && qs[k].id == order[0] && Begins(u, qs[k], word, told);
      BeginIsDecided(t, u, order[0], j, k, word, told);
    }
  }

  lemma BreakIsDecided(s: Live, word: string, t: Live, u: Live)
    requires Inv(s) && BreakIsOver(s, word, t) && BreakIsOver(s, word, u)
    ensures SameOutcome(t, u)
  {
    var ps, queue, told := s.room.players, s.room.drawerQueue, s.world.mail;
    if queue != [] {
      var j :| 0 <= j < |ps| && t.room.players[j].id == queue[0] && Begins(t, t.room.players[j], word, told);
      var k :| 0 <= k < |ps| && u.room.players[k].id == queue[0] && Begins(u, u.room.players[k], word, told);
      BeginIsDecided(t, u, queue[0], j, k, word, told);
    }
  }

  lemma JoinIsDecided(s: Live, id: PlayerId, userId: Option<UserId>, nickname: string, t: Live, u: Live)
    requires Timed(s) && Joins(s, id, userId, nickname, t) && Joins(s, id, userId, nickname, u)
    ensures SameOutcome(t, u)
  {
  }

  lemma InkIsDecided(s: Live, id: PlayerId, stroke: Stroke, t: Live, u: Live)
    requires Timed(s)
    requires (Paints(s, id, stroke, t) && Paints(s, id, stroke, u)) || (Wipes(s, id, t) && Wipes(s, id, u))
    ensures SameOutcome(t, u)
  {
  }

  lemma AlertIsDecided(s: Live, timer: TimerId, word: string, t: Live, u: Live)
    requires Inv(s) && Enabled(s, Alert(timer, word))
    requires Follows(s, Alert(timer, word), t) && Follows(s, Alert(timer, word), u)
    ensures SameOutcome(t, u)
  {
    if s.world.alarms[timer].kind == NextRound {
      BreakIsDecided(s, word, t, u);
    } else {
      StopIsDecided(s, t, u, s.world.mail);
    }
  }

  /** Two outcomes of one event that both follow the rules are the same. */
  lemma RulesDecide(s: Live, e: Event, t: Live, u: Live)
    requires Inv(s) && Enabled(s, e) && Follows(s, e, t) && Follows(s, e, u)
    ensures SameOutcome(t, u)
  {
    InvIsTimed(s);
    match e
    case Join(id, userId, nickname) => JoinIsDecided(s, id, userId, nickname, t, u);
    case Leave(id) => LeaveIsDecided(s, id, t, u);
    case Say(id, text) => SayIsDecided(s, id, text, t, u);
    case Paint(id, stroke) => InkIsDecided(s, id, stroke, t, u);
    case Wipe(id) => InkIsDecided(s, id, Stroke([], "", 0.0), t, u);
    case Start(gameId, order, word) => StartIsDecided(s, gameId, order, word, t, u);
    case Alert(timer, word) => AlertIsDecided(s, timer, word, t, u);
    case Tick(now) => assert t == u;
    case Drop(id) => assert t == u;
  }

  // ---------------------------------------------------------------- how long a round goes on

  /** The round is untouched. */
  predicate RoundStands(s: Live, t: Live) {
    && t.room.phase == s.room.phase && t.room.gameId == s.room.gameId && t.room.round == s.room.round
    && t.room.drawerId == s.room.drawerId && t.room.word == s.room.word && t.room.roundEndsAt == s.room.roundEndsAt
    && t.room.roundTimer == s.room.roundTimer && t.world.alarms == s.world.alarms
  }

  predicate RoundIsOver(t: Live) {
    t.room.drawerId.None? && t.room.word.None? && t.room.roundEndsAt.None?
  }

  /** Its sixty seconds are over, its drawer left, one player is left, or everyone else has solved it. */
  predicate HasToStop(s: Live, e: Event, t: Live)
    requires Enabled(s, e)
  {
    || (e.Alert? && s.world.alarms[e.timer].kind == RoundOver)
    || (e.Leave? && s.room.drawerId == Some(e.id))
    || |t.room.players| < 2
    || AllSolved(t.room.players, s.room.drawerId, t.room.solved)
  }

  lemma SomeoneUnsolved(s: Live)
    requires Inv(s) && s.room.drawerId.Some?
    ensures s.room.phase == Playing && Drawing(s) && !AllSolved(s.room.players, s.room.drawerId, s.room.solved)
  {
    NobodyUnsolved(s);
  }

  lemma StillUnsolved(s: Live, t: Live, p: Player)
    requires !AllSolved(s.room.players, s.room.drawerId, s.room.solved) && t.room.solved == s.room.solved
    requires t.room.players == s.room.players || t.room.players == s.room.players + [p]
    ensures !AllSolved(t.room.players, s.room.drawerId, t.room.solved)
  {
    var i :| 0 <= i < |s.room.players| && s.room.drawerId != Some(s.room.players[i].id)
             && s.room.players[i].id !in s.room.solved;
    assert t.room.players[i] == s.room.players[i];
  }

  lemma JoinStops(s: Live, id: PlayerId, userId: Option<UserId>, nickname: string)
    requires Inv(s) && s.room.drawerId.Some? && id !in Ids(s.room.players)
    ensures var t := CommitJoin(s, id, userId, nickname);
            RoundStands(s, t) && !HasToStop(s, Join(id, userId, nickname), t)
  {
    SomeoneUnsolved(s);
    JoinFollows(s, id, userId, nickname);
    StillUnsolved(s, CommitJoin(s, id, userId, nickname), Player(id, userId, nickname, 0));
  }

  lemma {:induction false} LeaveStops(s: Live, id: PlayerId)
    requires Inv(s) && s.room.drawerId.Some? && id in Ids(s.room.players)
    ensures var t := HandleClose(s, id);
            if HasToStop(s, Leave(id), t) then RoundIsOver(t) else RoundStands(s, t)
  {
    LeaveFollows(s, id);
    SomeoneUnsolved(s);
  }

  lemma {:induction false} SayStops(s: Live, id: PlayerId, text: string)
    requires Inv(s) && s.room.drawerId.Some?
    ensures var t := HandleChat(s, id, text);
            if HasToStop(s, Say(id, text), t) then RoundIsOver(t) else RoundStands(s, t)
  {
    SayFollows(s, id, text);
    SomeoneUnsolved(s);
  }

  /**
   * A round stops when its sixty seconds are over, its drawer leaves, fewer than two players are left or everyone else
   * has solved it. Until then nothing touches its drawer, word, deadline, number or timeout.
   */
  lemma {:induction false} RoundStopsForAReason(s: Live, e: Event)
    requires Inv(s) && Enabled(s, e) && s.room.drawerId.Some?
    ensures var t := Step(s, e);
            if HasToStop(s, e, t) then RoundIsOver(t) else RoundStands(s, t)
  {
    SomeoneUnsolved(s);
    match e
    case Join(id, userId, nickname) => JoinStops(s, id, userId, nickname);
    case Leave(id) => LeaveStops(s, id);
    case Say(id, text) => SayStops(s, id, text);
    case Alert(timer, word) => AlertFollows(s, timer, word);
    case _ =>
  }
}
