/** What holds of a room between any two events, and the proof that every event restores it. */
module RoomInvariant {
  import opened Basics
  import opened Protocol
  import opened Text
  import opened Words
  import opened Game

  predicate Seating(s: Live) {
    && Distinct(Ids(s.room.players))
    && |s.room.players| <= s.room.capacity
    && (forall id :: id in s.world.open ==> id in Ids(s.room.players))
    && (forall id :: id in s.room.solved ==> id in Ids(s.room.players))
    && |s.room.strokes| <= MAX_BUFFERED_STROKES
  }

  predicate Queue(s: Live) {
    && Distinct(s.room.drawerQueue)
    && forall id :: id in s.room.drawerQueue ==> id in Ids(s.room.players) && s.room.drawerId != Some(id)
  }

  /** Exactly one timeout is pending and it is the room's timer. */
  predicate OneAlarm(s: Live, kind: AlarmKind) {
    && s.room.roundTimer.Some?
    && s.world.alarms.Keys == {s.room.roundTimer.value}
    && s.world.alarms[s.room.roundTimer.value].kind == kind
  }

  function Due(s: Live): int
    requires OneAlarm(s, RoundOver) || OneAlarm(s, NextRound)
  {
    s.world.alarms[s.room.roundTimer.value].due
  }

  /** A round is on: drawer, word, deadline and the round timer belong together, and someone still guesses. */
  predicate Drawing(s: Live) {
    && s.room.drawerId.Some? && s.room.word.Some? && s.room.roundEndsAt.Some?
    && OneAlarm(s, RoundOver) && Due(s) == s.room.roundEndsAt.value <= s.world.now + ROUND_DURATION_MS
    && s.room.word.value in WORDS
    && s.room.drawerId.value in Ids(s.room.players) && s.room.drawerId.value !in s.room.solved
    && UnsolvedGuessers(s) > 0
    && s.room.round >= 1
  }

  /** The answer is being shown: only the intermission timer is pending. */
  predicate Resting(s: Live) {
    && s.room.drawerId.None? && s.room.word.None? && s.room.roundEndsAt.None?
    && OneAlarm(s, NextRound) && Due(s) <= s.world.now + ROUND_INTERMISSION_MS
  }

  /** No game: nothing is pending and no game field is set. */
  predicate Quiet(s: Live) {
    && s.room.drawerId.None? && s.room.word.None? && s.room.roundEndsAt.None? && s.room.gameId.None?
    && s.room.drawerQueue == [] && s.room.roundTimer.None? && s.world.alarms == map[]
  }

  predicate UsedWords(s: Live) {
    forall i, j :: 0 <= i < j < |s.room.usedWords| && j < |WORDS| ==> s.room.usedWords[i] != s.room.usedWords[j]
  }

  /** The room invariant. */
  predicate Inv(s: Live) {
    && Seating(s) && Queue(s) && UsedWords(s)
    && (s.room.phase == Playing ==>
          && |s.room.players| >= MIN_PLAYERS_TO_START && s.room.gameId.Some?
          && (Drawing(s) || Resting(s)))
    && (s.room.phase != Playing ==> Quiet(s))
  }

  /** A game in progress with nothing known about the round: the state inside an event. */
  predicate Unsettled(s: Live) {
    && Seating(s) && Queue(s) && UsedWords(s)
    && s.room.phase == Playing && s.room.gameId.Some?
    && (s.room.roundTimer.None? ==> s.world.alarms == map[])
    && (s.room.roundTimer.Some? ==> s.world.alarms.Keys <= {s.room.roundTimer.value})
  }

  lemma EndGameSettles(s: Live)
    requires Unsettled(s)
    ensures Inv(EndGame(s)) && EndGame(s).room.phase == Ended
  {
    assert ClearRoundTimer(s).world.alarms == map[];
  }

  lemma EndRoundSettles(s: Live)
    requires Unsettled(s) && |s.room.players| >= MIN_PLAYERS_TO_START
    ensures Inv(EndRound(s)) && Resting(EndRound(s)) && EndRound(s).room.phase == Playing
  {
    assert ClearRoundTimer(s).world.alarms == map[];
  }

  /** Besides the drawer someone is left to guess. */
  lemma {:induction false} SomeoneGuesses(ps: seq<Player>, drawer: PlayerId)
    requires Distinct(Ids(ps)) && |ps| >= MIN_PLAYERS_TO_START
    ensures Unsolved(ps, Some(drawer), {}) > 0
  {
    var ids := Ids(ps);
    var other := if ids[0] == drawer then ids[1] else ids[0];
    assert other in ids && Some(drawer) != Some(other);
    UnsolvedCounts(ps, Some(drawer), {});
    assert Unsolved(ps, Some(drawer), {}) != 0;
  }

  lemma AssignKeepsShape(s: Live, drawer: PlayerId, word: string)
    requires Seating(s) && Queue(s) && UsedWords(s) && drawer !in s.room.drawerQueue
    requires word in Candidates(s.room.usedWords)
    ensures var t := Assign(s, drawer, word); Seating(t) && Queue(t) && UsedWords(t)
  {
    if |s.room.usedWords| < |WORDS| {
      FreshWhileAnyLeft(s.room.usedWords, word);
    }
  }

  lemma BeginRoundSettles(s: Live, drawer: Player, word: string)
    requires Unsettled(s) && |s.room.players| >= MIN_PLAYERS_TO_START && s.world.alarms == map[]
    requires drawer.id in Ids(s.room.players) && drawer.id !in s.room.drawerQueue
    requires word in Candidates(s.room.usedWords)
    ensures Inv(BeginRound(s, drawer, word)) && Drawing(BeginRound(s, drawer, word))
  {
    AssignKeepsShape(s, drawer.id, word);
    SomeoneGuesses(s.room.players, drawer.id);
  }

  lemma StartRoundSettles(s: Live, word: string)
    requires Unsettled(s) && |s.room.players| >= MIN_PLAYERS_TO_START && s.room.drawerQueue != []
    requires word in Candidates(s.room.usedWords)
    ensures Inv(StartRound(s, word)) && Drawing(StartRound(s, word)) && StartRound(s, word).room.phase == Playing
  {
    var c := ClearRoundTimer(s);
    assert c.world.alarms == map[];
    var q := c.room.drawerQueue;
    var next := c.(room := c.room.(drawerQueue := q[1..]));
    assert q[0] in q;
    BeginRoundSettles(next, Find(c.room.players, q[0]).value, word);
  }

  lemma AnnouncedIsUnsettled(s: Live, gameId: GameId, order: seq<PlayerId>)
    requires Inv(s) && s.room.phase != Playing && |s.room.players| >= MIN_PLAYERS_TO_START
    requires multiset(order) == multiset(Ids(s.room.players))
    ensures var t := Announced(s, gameId, order);
            && Unsettled(t) && t.room.drawerQueue != [] && t.room.drawerId.None? && t.room.usedWords == []
            && |t.room.players| == |s.room.players|
  {
    PermutationOfDistinct(Ids(s.room.players), order);
  }

  lemma {:induction false} StartGameSettles(s: Live, gameId: GameId, order: seq<PlayerId>, word: string)
    requires Inv(s) && Enabled(s, Start(gameId, order, word))
    ensures Inv(StartGame(s, gameId, order, word))
  {
    if s.room.phase != Playing && |s.room.players| >= MIN_PLAYERS_TO_START {
      AnnouncedIsUnsettled(s, gameId, order);
      StartRoundSettles(Announced(s, gameId, order), word);
    }
  }

  lemma {:induction false} JoinSettles(s: Live, id: PlayerId, userId: Option<UserId>, nickname: string)
    requires Inv(s) && id !in Ids(s.room.players)
    ensures Inv(CommitJoin(s, id, userId, nickname))
  {
    if !IsFull(s) {
      var t := CommitJoin(s, id, userId, nickname);
      assert Ids(t.room.players) == Ids(s.room.players) + [id];
      if Drawing(s) {
        UnsolvedCounts(s.room.players, s.room.drawerId, s.room.solved);
        UnsolvedCounts(t.room.players, s.room.drawerId, s.room.solved);
        var guesser :| guesser in Ids(s.room.players) && IsGuesser(s, guesser);
        assert guesser in Ids(t.room.players);
      }
    }
  }

  lemma {:induction false} LeaveSettles(s: Live, id: PlayerId)
    requires Inv(s) && id in Ids(s.room.players)
    ensures Inv(HandleClose(s, id))
  {
    FarewellKeepsShape(s, id);
    if s.room.phase == Playing {
      FarewellKeepsRound(s, id);
      DepartureSettles(Farewell(s, id), id);
    }
  }

  /** Who is left in the seats and in the queue. */
  lemma VacateLists(s: Live, id: PlayerId)
    ensures var r := Vacate(s, id).room;
            && (forall x :: x in Ids(r.players) <==> x in Ids(s.room.players) && x != id)
            && (forall x :: x in r.drawerQueue <==> x in s.room.drawerQueue && x != id)
            && (Distinct(Ids(s.room.players)) ==>
                  && Distinct(Ids(r.players))
                  && |r.players| == |s.room.players| - if id in Ids(s.room.players) then 1 else 0)
            && (Distinct(s.room.drawerQueue) ==>
                  && Distinct(r.drawerQueue)
                  && |r.drawerQueue| == |s.room.drawerQueue| - if id in s.room.drawerQueue then 1 else 0)
  {
    var ids, queue := Ids(s.room.players), s.room.drawerQueue;
    WithoutMembers(ids, id);
    WithoutMembers(queue, id);
    if Distinct(ids) {
      WithoutOfDistinct(ids, id);
    }
    if Distinct(queue) {
      WithoutOfDistinct(queue, id);
    }
  }

  /** Without the leaver everything but the round may still stand. */
  lemma FarewellKeepsShape(s: Live, id: PlayerId)
    requires Inv(s) && id in Ids(s.room.players)
    ensures var t := Farewell(s, id);
            && t.room == Vacate(s, id).room && t.world.(mail := s.world.mail) == Vacate(s, id).world
            && Seating(t) && Queue(t) && UsedWords(t) && id !in Ids(t.room.players)
            && |t.room.players| == |s.room.players| - 1 && |t.room.drawerQueue| <= |s.room.drawerQueue|
            && (s.room.phase == Playing ==> Unsettled(t))
  {
    VacateLists(s, id);
  }

  /** After a departure the round is over, or it goes on as it was. */
  lemma FarewellKeepsRound(s: Live, id: PlayerId)
    requires Inv(s) && s.room.phase == Playing
    ensures var t := Farewell(s, id);
            t.room.drawerId == Some(id) || UnsolvedGuessers(t) == 0 || Drawing(t) || Resting(t)
  {
    VacateLists(s, id);
  }

  lemma DepartureSettles(s: Live, id: PlayerId)
    requires Unsettled(s) && id !in Ids(s.room.players)
    requires s.room.drawerId == Some(id) || UnsolvedGuessers(s) == 0 || Drawing(s) || Resting(s)
    ensures Inv(AfterDeparture(s, id))
  {
    if |s.room.players| < MIN_PLAYERS_TO_START {
      EndGameSettles(Announce(s, TooFewPlayersLeft));
    } else if s.room.drawerId == Some(id) {
      EndRoundSettles(Announce(s, DrawerLeft));
    } else if UnsolvedGuessers(s) == 0 {
      EndRoundSettles(s);
    }
  }

  /** The line is the right answer, from someone who may still guess. */
  predicate Answers(s: Live, id: PlayerId, text: string) {
    var line := Clip(Trim(text), MAX_CHAT_LENGTH);
    && id in Ids(s.room.players) && line != ""
    && s.room.word.Some? && IsGuesser(s, id) && Normalize(line) == Normalize(s.room.word.value)
  }

  /** A line is either the right answer, or it changes nothing but the mail. */
  lemma {:induction false} ChatCases(s: Live, id: PlayerId, text: string)
    requires Inv(s)
    ensures var t := HandleChat(s, id, text);
            if Answers(s, id, text)
            then s.room.phase == Playing && Drawing(s) && t == Solve(s, Find(s.room.players, id).value)
            else t.room == s.room && t.world.(mail := s.world.mail) == s.world
  {
    WordsAreVisible();
  }

  lemma {:induction false} ChatSettles(s: Live, id: PlayerId, text: string)
    requires Inv(s)
    ensures Inv(HandleChat(s, id, text))
  {
    ChatCases(s, id, text);
    if Answers(s, id, text) {
      SolveSettles(s, Find(s.room.players, id).value);
    } else {
      MailDoesNotMatter(s, HandleChat(s, id, text));
    }
  }

  lemma MailDoesNotMatter(s: Live, t: Live)
    requires Inv(s) && t.room == s.room && t.world.(mail := s.world.mail) == s.world
    ensures Inv(t)
  {
  }

  lemma SolveSettles(s: Live, player: Player)
    requires Inv(s) && Drawing(s) && s.room.phase == Playing
    requires player.id in Ids(s.room.players) && IsGuesser(s, player.id)
    ensures Inv(Solve(s, player))
  {
    var scored := Score(s, player.id);
    assert Ids(scored.room.players) == Ids(s.room.players);
    var told := Broadcast(scored, CorrectAnswer(player.id, player.nickname, Cards(scored.room.players)), None);
    if UnsolvedGuessers(told) == 0 {
      EndRoundSettles(told);
    }
  }

  /** A timeout that is due belongs to the round, or to the intermission, of a running game. */
  lemma {:induction false} AlertFindsGame(s: Live, t: TimerId, word: string)
    requires Inv(s) && Enabled(s, Alert(t, word))
    ensures s.room.phase == Playing && Unsettled(s.(world := s.world.(alarms := s.world.alarms - {t})))
    ensures |s.room.players| >= MIN_PLAYERS_TO_START
    ensures if s.world.alarms[t].kind == RoundOver then Drawing(s) else Resting(s)
  {
  }

  lemma {:induction false} AlertSettles(s: Live, t: TimerId, word: string)
    requires Inv(s) && Enabled(s, Alert(t, word))
    ensures Inv(Fire(s, t, word))
    ensures s.room.phase == Playing
  {
    AlertFindsGame(s, t, word);
    var due := s.(world := s.world.(alarms := s.world.alarms - {t}));
    match s.world.alarms[t].kind
    case RoundOver => EndRoundSettles(due);
    case NextRound =>
      if due.room.drawerQueue == [] {
        EndGameSettles(due);
      } else {
        StartRoundSettles(due, word);
      }
  }

  /** Every event keeps the room invariant. */
  lemma {:induction false} StepKeepsInv(s: Live, e: Event)
    requires Inv(s) && Enabled(s, e)
    ensures Inv(Step(s, e))
  {
    match e
    case Join(id, userId, nickname) => JoinSettles(s, id, userId, nickname);
    case Leave(id) => LeaveSettles(s, id);
    case Say(id, text) => ChatSettles(s, id, text);
    case Paint(id, stroke) =>
    case Wipe(id) =>
    case Start(gameId, order, word) => StartGameSettles(s, gameId, order, word);
    case Alert(t, word) => AlertSettles(s, t, word);
    case Tick(now) =>
    case Drop(id) =>
  }
}
