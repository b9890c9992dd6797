/** What a client shows of answers: who has solved the word, and the word itself once the round is over. */
module Answers {
  import opened Basics
  import opened Protocol
  import opened Text
  import opened Game
  import opened RoomInvariant
  import opened History
  import opened Client
  import opened Rules

  /** The part of a view that is about answers. */
  datatype Marks = Marks(solvedIds: seq<PlayerId>, revealedWord: Option<string>)

  function MarksOf(mail: seq<Envelope>, p: PlayerId): Marks {
    Marks(ViewOf(mail, p).solvedIds, ViewOf(mail, p).revealedWord)
  }

  /** Messages that say nothing of answers. */
  predicate Idle(m: Message) {
    !m.Snapshot? && !m.GameStarted? && !m.RoundStarted? && !m.RoundEnded? && !m.CorrectAnswer?
  }

  /** An envelope that is idle, or for someone else. */
  lemma IdleMail(mail: seq<Envelope>, envelope: Envelope, p: PlayerId)
    requires Idle(envelope.message) || p !in envelope.to
    ensures MarksOf(mail + [envelope], p) == MarksOf(mail, p)
  {
    Delivered(mail, envelope, p);
  }

  lemma StopMarks(s: Live, t: Live, told: seq<Envelope>, p: PlayerId)
    requires Stops(s, t, told) && p in t.world.open
    ensures MarksOf(t.world.mail, p) == MarksOf(told, p).(revealedWord := Some(AnswerOf(s.room.word)))
  {
    Delivered(told, ToAll(t, RoundEnded(s.room.round, AnswerOf(s.room.word), Cards(t.room.players))), p);
  }

  lemma EndMarks(t: Live, told: seq<Envelope>, p: PlayerId)
    requires GameEnds(t, told)
    ensures MarksOf(t.world.mail, p) == MarksOf(told, p)
  {
    IdleMail(told, ToAll(t, GameEnded(Cards(t.room.players))), p);
  }

  lemma BeginMarks(t: Live, drawer: Player, word: string, told: seq<Envelope>, p: PlayerId)
    requires Begins(t, drawer, word, told) && p in t.world.open
    ensures MarksOf(t.world.mail, p) == Marks([], None)
  {
    var cleared := told + [ToAll(t, DrawClear)];
    var guessers := cleared + [ToOthers(t, drawer.id, RoundNews(t, drawer, None, |word|))];
    Delivered(cleared, ToOthers(t, drawer.id, RoundNews(t, drawer, None, |word|)), p);
    if drawer.id in t.world.open {
      Delivered(guessers, Envelope({drawer.id}, RoundNews(t, drawer, Some(word), |word|)), p);
    } else {
      assert guessers + [] == guessers;
    }
  }

  /** The word is shown when the round has stopped and the game goes on, and nothing is taken back during the round. */
  predicate Reveals(s: Live, t: Live, before: Option<string>, after: Option<string>) {
    if t.room.drawerId.Some? then after == before else t.room.phase == Playing ==> after == Some(AnswerOf(s.room.word))
  }

  lemma JoinMarks(s: Live, id: PlayerId, userId: Option<UserId>, nickname: string, t: Live, p: PlayerId)
    requires Joins(s, id, userId, nickname, t) && p != id
    ensures MarksOf(t.world.mail, p) == MarksOf(s.world.mail, p)
  {
    if |s.room.players| < s.room.capacity {
      var card := Card(id, nickname, 0);
      var m := Snapshot(card, Cards(t.room.players), s.room.capacity, s.room.phase, s.room.round, s.room.totalRounds,
                        s.room.drawerId, Left(s), if s.room.word.None? then None else Some(|s.room.word.value|),
                        s.room.strokes);
      var greeted := s.world.mail + [Envelope({id}, m)];
      var known := greeted + [ToOthers(t, id, PlayerJoined(card, |t.room.players|))];
      IdleMail(s.world.mail, Envelope({id}, m), p);
      IdleMail(greeted, ToOthers(t, id, PlayerJoined(card, |t.room.players|)), p);
      IdleMail(known, ToAll(t, System(Entered(nickname), s.world.now)), p);
    }
  }

  lemma LeaveMarks(s: Live, id: PlayerId, t: Live, p: PlayerId)
    requires Leaves(s, id, t) && s.room.drawerId.Some? && s.room.phase == Playing && p in t.world.open
    ensures var before, after := MarksOf(s.world.mail, p), MarksOf(t.world.mail, p);
            after.solvedIds == before.solvedIds && Reveals(s, t, before.revealedWord, after.revealedWord)
  {
    var k :| 0 <= k < |s.room.players| && s.room.players[k].id == id && LeavesSeat(s, k, t);
    var left := ToAll(t, PlayerLeft(id, s.room.players[k].nickname, |t.room.players|));
    var exited := ToAll(t, System(Exited(s.room.players[k].nickname), s.world.now));
    IdleMail(s.world.mail, left, p);
    IdleMail(s.world.mail + [left], exited, p);
    DepartureMarks(s, id, t, s.world.mail + [left] + [exited], p);
  }

  lemma DepartureMarks(s: Live, id: PlayerId, t: Live, told: seq<Envelope>, p: PlayerId)
    requires AfterLeave(s, id, t, told) && s.room.drawerId.Some? && s.room.phase == Playing && p in t.world.open
    ensures var before, after := MarksOf(told, p), MarksOf(t.world.mail, p);
            after.solvedIds == before.solvedIds && Reveals(s, t, before.revealedWord, after.revealedWord)
  {
    var few, gone := ToAll(t, System(TooFewPlayersLeft, s.world.now)), ToAll(t, System(DrawerLeft, s.world.now));
    if |t.room.players| < 2 {
      IdleMail(told, few, p);
      EndMarks(t, told + [few], p);
    } else if s.room.drawerId == Some(id) {
      IdleMail(told, gone, p);
      StopMarks(s, t, told + [gone], p);
    } else if AllSolved(t.room.players, s.room.drawerId, t.room.solved) {
      StopMarks(s, t, told, p);
    }
  }

  lemma SolveMarks(s: Live, player: Player, t: Live, p: PlayerId)
    requires Wins(s, player, t) && s.room.drawerId.Some? && p in t.world.open
    ensures var before, after := MarksOf(s.world.mail, p), MarksOf(t.world.mail, p);
            && after.solvedIds == before.solvedIds + [player.id]
            && Reveals(s, t, before.revealedWord, after.revealedWord)
  {
    var m := ToAll(s, CorrectAnswer(player.id, player.nickname, Cards(t.room.players)));
    CorrectMarks(s.world.mail, m, p);
    if AllSolved(t.room.players, s.room.drawerId, t.room.solved) {
      StopMarks(s, t, s.world.mail + [m], p);
    }
  }

  lemma CorrectMarks(mail: seq<Envelope>, m: Envelope, p: PlayerId)
    requires m.message.CorrectAnswer? && p in m.to
    ensures var before := MarksOf(mail, p);
            MarksOf(mail + [m], p) == before.(solvedIds := before.solvedIds + [m.message.playerId])
  {
    Delivered(mail, m, p);
  }

  /** The client of p adds whoever has just solved the word, and reveals it when the round is over. */
  predicate Shows(s: Live, e: Event, t: Live, p: PlayerId) {
    var before, after := MarksOf(s.world.mail, p), MarksOf(t.world.mail, p);
    && after.solvedIds
       == before.solvedIds + (if e.Say? && e.id in t.room.solved && e.id !in s.room.solved then [e.id] else [])
    && Reveals(s, t, before.revealedWord, after.revealedWord)
  }

  lemma SameMarks(s: Live, e: Event, t: Live, p: PlayerId)
    requires MarksOf(t.world.mail, p) == MarksOf(s.world.mail, p) && t.room.drawerId == s.room.drawerId
    requires t.room.solved == s.room.solved && s.room.drawerId.Some?
    ensures Shows(s, e, t, p)
  {
    assert MarksOf(s.world.mail, p).solvedIds + [] == MarksOf(s.world.mail, p).solvedIds;
  }

  lemma SayShows(s: Live, id: PlayerId, text: string, t: Live, p: PlayerId)
    requires Says(s, id, text, t) && s.room.drawerId.Some? && p in t.world.open
    ensures Shows(s, Say(id, text), t, p)
  {
    var line := Clip(Trim(text), 200);
    if line == "" || forall k :: 0 <= k < |s.room.players| ==> s.room.players[k].id != id {
      SameMarks(s, Say(id, text), t, p);
    } else {
      var k :| 0 <= k < |s.room.players| && s.room.players[k].id == id && Speaks(s, s.room.players[k], line, t);
      LineShows(s, s.room.players[k], line, t, text, p);
    }
  }

  lemma LineShows(s: Live, player: Player, line: string, t: Live, text: string, p: PlayerId)
    requires Speaks(s, player, line, t) && s.room.drawerId.Some? && p in t.world.open
    ensures Shows(s, Say(player.id, text), t, p)
  {
    if IsRight(s, player.id, line) {
      SolveMarks(s, player, t, p);
    } else {
      if GivesAway(s, line) {
        assert s.world.mail + [] == s.world.mail;
      } else {
        IdleMail(s.world.mail, ToAll(s, ChatLine(player.id, player.nickname, line, s.world.now)), p);
      }
      SameMarks(s, Say(player.id, text), t, p);
    }
  }

  lemma InkMarks(s: Live, id: PlayerId, stroke: Stroke, t: Live, p: PlayerId)
    requires Paints(s, id, stroke, t) || Wipes(s, id, t)
    ensures MarksOf(t.world.mail, p) == MarksOf(s.world.mail, p)
  {
    IdleMail(s.world.mail, ToOthers(s, id, Draw(Cleaned(stroke))), p);
    IdleMail(s.world.mail, ToOthers(s, id, DrawClear), p);
  }

  lemma NoMarksGone(s: Live, e: Event, t: Live, p: PlayerId)
    requires MarksOf(t.world.mail, p).solvedIds == MarksOf(s.world.mail, p).solvedIds && !e.Say?
    requires Reveals(s, t, MarksOf(s.world.mail, p).revealedWord, MarksOf(t.world.mail, p).revealedWord)
    ensures Shows(s, e, t, p)
  {
    assert MarksOf(s.world.mail, p).solvedIds + [] == MarksOf(s.world.mail, p).solvedIds;
  }

  /**
   * While a round is on, every client that stays connected lists each player who solves the word as it does, and
   * nobody else, and shows the word as soon as the round is over and not before.
   */
  lemma {:induction false} AnswersAreShown(s: Live, e: Event, p: PlayerId)
    requires Inv(s) && Enabled(s, e) && s.room.drawerId.Some? && p in s.world.open && p in Step(s, e).world.open
    ensures Shows(s, e, Step(s, e), p)
  {
    var t := Step(s, e);
    RulesHold(s, e);
    match e
    case Join(id, userId, nickname) =>
      JoinMarks(s, id, userId, nickname, t, p);
      NoMarksGone(s, e, t, p);
    case Leave(id) =>
      LeaveMarks(s, id, t, p);
      NoMarksGone(s, e, t, p);
    case Say(id, text) => SayShows(s, id, text, t, p);
    case Paint(id, stroke) =>
      InkMarks(s, id, stroke, t, p);
      NoMarksGone(s, e, t, p);
    case Wipe(id) =>
      InkMarks(s, id, Stroke([], "", 0.0), t, p);
      NoMarksGone(s, e, t, p);
    case Start(_, _, _) => SameMarks(s, e, t, p);
    case Alert(timer, word) =>
      AlertFindsGame(s, timer, word);
      StopMarks(s, t, s.world.mail, p);
      NoMarksGone(s, e, t, p);
    case Tick(_) => SameMarks(s, e, t, p);
    case Drop(_) => SameMarks(s, e, t, p);
  }

  /** When a round begins, nobody has solved it and no word is shown. */
  lemma {:induction false} NewRoundShowsNothing(s: Live, e: Event, p: PlayerId)
    requires Inv(s) && Enabled(s, e) && s.room.drawerId.None? && Step(s, e).room.drawerId.Some?
    requires p in Step(s, e).world.open
    ensures MarksOf(Step(s, e).world.mail, p) == Marks([], None)
  {
    var t := Step(s, e);
    RulesHold(s, e);
    match e
    case Leave(id) => LeaveBeginsNothing(s, id, t);
    case Say(id, text) => SayBeginsNothing(s, id, text, t);
    case Start(gameId, order, word) =>
      var told := s.world.mail + [ToAll(s, GameStarted(t.room.totalRounds))];
      var k :| 0 <= k < |t.room.players| && Begins(t, t.room.players[k], word, told);
      BeginMarks(t, t.room.players[k], word, told, p);
    case Alert(timer, word) =>
      AlertFindsGame(s, timer, word);
      var k :| 0 <= k < |t.room.players| && Begins(t, t.room.players[k], word, s.world.mail);
      BeginMarks(t, t.room.players[k], word, s.world.mail, p);
    case _ =>
  }

  lemma LeaveBeginsNothing(s: Live, id: PlayerId, t: Live)
    requires Leaves(s, id, t) && s.room.drawerId.None?
    ensures t.room.drawerId.None?
  {
  }

  lemma SayBeginsNothing(s: Live, id: PlayerId, text: string, t: Live)
    requires Says(s, id, text, t) && s.room.drawerId.None?
    ensures t.room.drawerId.None?
  {
  }

  /** Neither does a newcomer's client show anything of the round it joins. */
  lemma NewcomerShowsNothing(s: Live, id: PlayerId, userId: Option<UserId>, nickname: string)
    requires Inv(s) && id !in Ids(s.room.players) && |s.room.players| < s.room.capacity
    ensures MarksOf(CommitJoin(s, id, userId, nickname).world.mail, id) == Marks([], None)
  {
    JoinFollows(s, id, userId, nickname);
    var t, card := CommitJoin(s, id, userId, nickname), Card(id, nickname, 0);
    var m := Snapshot(card, Cards(t.room.players), s.room.capacity, s.room.phase, s.room.round, s.room.totalRounds,
                      s.room.drawerId, Left(s), if s.room.word.None? then None else Some(|s.room.word.value|),
                      s.room.strokes);
    var greeted := s.world.mail + [Envelope({id}, m)];
    var known := greeted + [ToOthers(t, id, PlayerJoined(card, |t.room.players|))];
    Delivered(s.world.mail, Envelope({id}, m), id);
    IdleMail(greeted, ToOthers(t, id, PlayerJoined(card, |t.room.players|)), id);
    IdleMail(known, ToAll(t, System(Entered(nickname), s.world.now)), id);
  }
}
