/**
 * An observer of a room's runs. It looks only at the events and at the states around them, and keeps what the
 * room itself forgets: who was ever here, who drew, who solved what, who left with how many points.
 */
module History {
  import opened Basics
  import opened Protocol
  import opened Game

  /** One right answer: by whom, in which round, with how much time left. */
  datatype Solution = Solution(id: PlayerId, round: nat, remaining: nat)

  datatype Record = Record(
    seen: set<PlayerId>,          // every player id that ever had a seat
    started: seq<GameId>,         // every game started, in order
    // about the latest game:
    startedAt: int,
    atStart: nat,                 // players at its start
    joins: nat,                   // seats taken while it was played
    leaves: nat,                  // departures while it was played
    skipped: nat,                 // departures from its drawer queue
    drawers: seq<PlayerId>,       // who drew, in order
    solutions: seq<Solution>,
    forfeited: nat,               // points taken away by players who left
    painters: set<PlayerId>)      // whose stroke or clear arrived in the latest round, accepted or not

  // What the observer notes of each event; s is the state before it, t the state after.

  function NoteJoin(h: Record, s: Live, id: PlayerId, t: Live): Record {
    if id !in Ids(t.room.players) then h
    else h.(seen := h.seen + {id}, joins := h.joins + if s.room.phase == Playing then 1 else 0)
  }

  function NoteLeave(h: Record, s: Live, id: PlayerId): Record {
    h.(leaves := h.leaves + (if s.room.phase == Playing then 1 else 0),
       skipped := h.skipped + (if id in s.room.drawerQueue then 1 else 0),
       forfeited := h.forfeited + match Find(s.room.players, id) case None => 0 case Some(p) => p.score)
  }

  function NoteSay(h: Record, s: Live, id: PlayerId, t: Live): Record {
    if id in s.room.solved || id !in t.room.solved then h
    else h.(solutions := h.solutions + [Solution(id, s.room.round, TimeLeft(s))])
  }

  function NoteStart(h: Record, s: Live, gameId: GameId, t: Live): Record {
    if s.room.phase == Playing || t.room.phase != Playing then h
    else Record(h.seen, h.started + [gameId], s.world.now, |s.room.players|, 0, 0, 0, Appeared(t), [], 0, {})
  }

  function NoteAlert(h: Record, s: Live, t: Live): Record {
    if s.room.drawerId.Some? || t.room.drawerId.None? then h
    else h.(drawers := h.drawers + Appeared(t), painters := {})
  }

  function NoteInk(h: Record, s: Live, id: PlayerId): Record {
    if id in Ids(s.room.players) then h.(painters := h.painters + {id}) else h
  }

  function Observe(h: Record, s: Live, e: Event, t: Live): Record {
    match e
    case Join(id, _, _) => NoteJoin(h, s, id, t)
    case Leave(id) => NoteLeave(h, s, id)
    case Say(id, _) => NoteSay(h, s, id, t)
    case Paint(id, _) => NoteInk(h, s, id)
    case Wipe(id) => NoteInk(h, s, id)
    case Start(gameId, _, _) => NoteStart(h, s, gameId, t)
    case Alert(_, _) => NoteAlert(h, s, t)
    case _ => h
  }

  /** What is left of the 60 s. */
  function TimeLeft(s: Live): nat {
    match s.room.roundEndsAt case None => 0 case Some(end) => if end > s.world.now then end - s.world.now else 0
  }

  function Appeared(t: Live): seq<PlayerId> {
    match t.room.drawerId case None => [] case Some(d) => [d]
  }

  datatype Tracked = Tracked(live: Live, record: Record)

  /** Ids are made with randomUUID: a player id or game id is never handed out twice. */
  predicate FreshIds(h: Record, e: Event) {
    match e
    case Join(id, _, _) => id !in h.seen
    case Start(gameId, _, _) => gameId !in h.started
    case _ => true
  }

  predicate May(c: Tracked, e: Event) {
    Enabled(c.live, e) && FreshIds(c.record, e)
  }

  function Next(c: Tracked, e: Event): Tracked
    requires May(c, e)
  {
    var t := Step(c.live, e);
    Tracked(t, Observe(c.record, c.live, e, t))
  }

  function Opening(id: RoomId, now: int): Tracked {
    Tracked(NewRoom(id, now), Record({}, [], now, 0, 0, 0, 0, [], [], 0, {}))
  }

  /** es is a possible run from c. */
  predicate Run(c: Tracked, es: seq<Event>)
    decreases |es|, 0
  {
    es != [] ==>
      var n := |es| - 1;
      Run(c, es[..n]) && May(After(c, es[..n]), es[n])
  }

  /** Where the run es leads from c. */
  function After(c: Tracked, es: seq<Event>): Tracked
    requires Run(c, es)
    decreases |es|, 1
  {
    if es == [] then c else Next(After(c, es[..|es| - 1]), es[|es| - 1])
  }

  /** A run goes on with any event that may happen next. */
  lemma RunGrows(c: Tracked, es: seq<Event>, e: Event)
    requires Run(c, es) && May(After(c, es), e)
    ensures Run(c, es + [e]) && After(c, es + [e]) == Next(After(c, es), e)
  {
    assert (es + [e])[..|es|] == es;
  }

  // ---------------------------------------------------------------- totals

  function Total(ps: seq<Player>): nat {
    if ps == [] then 0
    else
      var n := |ps| - 1;
      Total(ps[..n]) + ps[n].score
  }

  /** What a right answer brings the solver: 10, and 90 for 60 s left, in proportion, to the nearest whole point. */
  function Reward(remaining: nat): nat {
    10 + (3 * remaining + 1000) / 2000
  }

  /** The code's bonus is 90 * remaining / 60000, rounded half up. */
  lemma GainIsReward(remaining: nat)
    ensures SolverGain(remaining) == Reward(remaining)
  {
    assert (2 * 90 * remaining + 60000) / (2 * 60000) == (3 * remaining + 1000) / 2000;
  }

  /** What the right answers of a game were worth: the solver's share plus the drawer's 10. */
  function Paid(solutions: seq<Solution>): nat {
    if solutions == [] then 0
    else
      var n := |solutions| - 1;
      Paid(solutions[..n]) + Reward(solutions[n].remaining) + 10
  }

  /** What the right answers of a game brought one player: its own, and the drawer's share in the rounds it drew. */
  function Earned(solutions: seq<Solution>, drawers: seq<PlayerId>, id: PlayerId): nat {
    if solutions == [] then 0
    else
      var n := |solutions| - 1;
      Earned(solutions[..n], drawers, id) + Gained(solutions[n], drawers, id)
  }

  /** What one right answer brought one player. */
  function Gained(k: Solution, drawers: seq<PlayerId>, id: PlayerId): nat {
    (if k.id == id then Reward(k.remaining) else 0)
    + (if 1 <= k.round <= |drawers| && drawers[k.round - 1] == id then 10 else 0)
  }

  lemma EarnedSnoc(solutions: seq<Solution>, k: Solution, drawers: seq<PlayerId>, id: PlayerId)
    ensures Earned(solutions + [k], drawers, id) == Earned(solutions, drawers, id) + Gained(k, drawers, id)
  {
    assert (solutions + [k])[..|solutions|] == solutions;
  }

  /** Answers given so far do not pay the drawer of a round to come. */
  lemma {:induction false} EarnedBeforeNextRound(solutions: seq<Solution>, drawers: seq<PlayerId>, d: PlayerId,
                                                 id: PlayerId)
    requires forall i :: 0 <= i < |solutions| ==> solutions[i].round <= |drawers|
    ensures Earned(solutions, drawers + [d], id) == Earned(solutions, drawers, id)
  {
    if solutions != [] {
      EarnedBeforeNextRound(solutions[..|solutions| - 1], drawers, d, id);
    }
  }

  lemma {:induction false} StrangersEarnNothing(solutions: seq<Solution>, drawers: seq<PlayerId>, id: PlayerId)
    requires id !in drawers && forall i :: 0 <= i < |solutions| ==> solutions[i].id != id
    ensures Earned(solutions, drawers, id) == 0
  {
    if solutions != [] {
      StrangersEarnNothing(solutions[..|solutions| - 1], drawers, id);
    }
  }

  lemma IdsOfPrefix(ps: seq<Player>)
    requires ps != []
    ensures Ids(ps) == Ids(ps[..|ps| - 1]) + [ps[|ps| - 1].id]
    ensures Distinct(Ids(ps)) ==> Distinct(Ids(ps[..|ps| - 1])) && ps[|ps| - 1].id !in Ids(ps[..|ps| - 1])
  {
    var n := |ps| - 1;
    assert Ids(ps) == Ids(ps[..n]) + [ps[n].id];
    assert forall i :: 0 <= i < n ==> Ids(ps)[i] == Ids(ps[..n])[i];
    assert Distinct(Ids(ps)) ==> forall i :: 0 <= i < n ==> Ids(ps[..n])[i] != Ids(ps)[n];
  }

  lemma EvictSnoc(ps: seq<Player>, p: Player, id: PlayerId)
    ensures Evict(ps + [p], id) == Evict(ps, id) + if p.id == id then [] else [p]
  {
    assert (ps + [p])[..|ps|] == ps;
    assert Evict(ps, id) + [] == Evict(ps, id);
  }

  /** Those who stay were there before. */
  lemma {:induction false} StaysWereThere(ps: seq<Player>, id: PlayerId, i: nat)
    requires i < |Evict(ps, id)|
    ensures Evict(ps, id)[i] in ps
  {
    var n := |ps| - 1;
    if i < |Evict(ps[..n], id)| {
      StaysWereThere(ps[..n], id, i);
    }
  }

  lemma {:induction false} TotalOfAward(ps: seq<Player>, id: PlayerId, points: nat)
    requires Distinct(Ids(ps))
    ensures Total(Award(ps, id, points)) == Total(ps) + if id in Ids(ps) then points else 0
  {
    if ps != [] {
      var n := |ps| - 1;
      IdsOfPrefix(ps);
      TotalOfAward(ps[..n], id, points);
      assert Award(ps, id, points)[..n] == Award(ps[..n], id, points);
    }
  }

  /** What the players of that id hold. */
  function Held(ps: seq<Player>, id: PlayerId): nat {
    if ps == [] then 0
    else
      var n := |ps| - 1;
      Held(ps[..n], id) + if ps[n].id == id then ps[n].score else 0
  }

  lemma {:induction false} HeldByOne(ps: seq<Player>, id: PlayerId)
    requires Distinct(Ids(ps))
    ensures Held(ps, id) == match Find(ps, id) case None => 0 case Some(p) => p.score
  {
    if ps != [] {
      IdsOfPrefix(ps);
      HeldByOne(ps[..|ps| - 1], id);
    }
  }

  lemma TotalSnoc(ps: seq<Player>, p: Player)
    ensures Total(ps + [p]) == Total(ps) + p.score
  {
    assert (ps + [p])[..|ps|] == ps;
  }

  lemma {:induction false} TotalOfEvict(ps: seq<Player>, id: PlayerId)
    ensures Total(ps) == Total(Evict(ps, id)) + Held(ps, id)
  {
    if ps != [] {
      var n := |ps| - 1;
      TotalOfEvict(ps[..n], id);
      TotalSnoc(Evict(ps[..n], id), ps[n]);
    }
  }

  lemma {:induction false} TotalOfZeroScores(ps: seq<Player>)
    ensures Total(ZeroScores(ps)) == 0
  {
    if ps != [] {
      var n := |ps| - 1;
      TotalOfZeroScores(ps[..n]);
      assert ZeroScores(ps)[..n] == ZeroScores(ps[..n]);
    }
  }

  // ---------------------------------------------------------------- the books

  function GamesOf(results: seq<GameResult>): (ids: seq<GameId>)
    ensures |ids| == |results|
  {
    seq(|results|, i requires 0 <= i < |results| => results[i].gameId)
  }

  /** Points are only moved: the seats' scores plus what leavers took is what the solutions paid. */
  predicate ScoresBalance(players: seq<Player>, h: Record) {
    Total(players) + h.forfeited == Paid(h.solutions)
  }

  /** Every point on the table was earned by its holder. */
  predicate ScoresEarned(players: seq<Player>, drawers: seq<PlayerId>, solutions: seq<Solution>) {
    forall i :: 0 <= i < |players| ==> players[i].score == Earned(solutions, drawers, players[i].id)
  }

  /** While a game is played every place in the drawer queue is used, waiting, or was given up. */
  predicate RoundsBalance(r: Room, h: Record) {
    r.phase == Playing ==>
      && r.round == |h.drawers|
      && r.round + |r.drawerQueue| + h.skipped == r.totalRounds + h.joins
      && h.atStart >= MIN_PLAYERS_TO_START
      && r.totalRounds == (if h.atStart < MAX_ROUNDS then h.atStart else MAX_ROUNDS)
      && (forall id :: id in r.drawerQueue ==> id !in h.drawers)
      && (r.drawerId.Some? ==> h.drawers != [] && h.drawers[|h.drawers| - 1] == r.drawerId.value)
  }

  /** Unless the game began with more players than it has rounds, everyone present drew or waits to draw. */
  predicate EveryoneCalled(r: Room, drawers: seq<PlayerId>, atStart: nat) {
    r.phase == Playing && atStart <= MAX_ROUNDS ==>
      forall id :: id in Ids(r.players) ==> id in drawers || id in r.drawerQueue
  }

  predicate FairSolution(drawers: seq<PlayerId>, k: Solution) {
    && 1 <= k.round <= |drawers| && k.id != drawers[k.round - 1]
    && k.remaining <= ROUND_DURATION_MS
  }

  /** Nobody is paid twice in a round or while drawing. */
  predicate SolutionsFair(drawers: seq<PlayerId>, solutions: seq<Solution>) {
    && (forall i :: 0 <= i < |solutions| ==> FairSolution(drawers, solutions[i]))
    && (forall i, j :: 0 <= i < j < |solutions| && solutions[i].id == solutions[j].id
                       ==> solutions[i].round != solutions[j].round)
  }

  /** The solutions of that round are by players marked as solved, or gone. */
  predicate SolversMarked(round: nat, solved: set<PlayerId>, players: seq<Player>, solutions: seq<Solution>) {
    forall i :: 0 <= i < |solutions| && solutions[i].round == round ==>
      solutions[i].id in solved || solutions[i].id !in Ids(players)
  }

  function Current(gameId: Option<GameId>): seq<GameId> {
    match gameId case None => [] case Some(g) => [g]
  }

  /** Every started game but the one being played was published, once, in order, acceptably. */
  predicate ResultsComplete(published: seq<GameResult>, gameId: Option<GameId>, started: seq<GameId>) {
    && started == GamesOf(published) + Current(gameId)
    && Distinct(started)
    && forall i :: 0 <= i < |published| ==> Acceptable(published[i])
  }

  predicate Newcomers(players: seq<Player>, h: Record) {
    && (forall id :: id in Ids(players) ==> id in h.seen)
    && (forall id :: id in h.drawers ==> id in h.seen)
    && (forall i :: 0 <= i < |h.solutions| ==> h.solutions[i].id in h.seen)
  }

  predicate Books(c: Tracked) {
    var r, h := c.live.room, c.record;
    && ScoresBalance(r.players, h) && ScoresEarned(r.players, h.drawers, h.solutions)
    && Distinct(h.drawers) && RoundsBalance(r, h) && EveryoneCalled(r, h.drawers, h.atStart)
    && SolutionsFair(h.drawers, h.solutions)
    && (r.drawerId.Some? ==> SolversMarked(r.round, r.solved, r.players, h.solutions))
    && ResultsComplete(c.live.world.published, r.gameId, h.started)
    && Newcomers(r.players, h)
  }
}
