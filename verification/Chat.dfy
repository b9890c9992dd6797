/** The chat never gives the word away. */
module Chat {
  import opened Basics
  import opened Protocol
  import opened Text
  import opened Words
  import opened Game
  import opened RoomInvariant
  import opened History
  import opened Accounting

  /** The chat lines sent so far. */
  function Spoken(mail: seq<Envelope>): seq<string> {
    if mail == [] then []
    else
      var n := |mail| - 1;
      Spoken(mail[..n]) + match mail[n].message case ChatLine(_, _, text, _) => [text] case _ => []
  }

  /** No part of the text is a spelling of the word, with whatever spacing and case. */
  ghost predicate Discreet(text: string, word: string) {
    forall before: string, spelling: string, after: string ::
      before + spelling + after == text ==> Normalize(spelling) != Normalize(word)
  }

  lemma Silent(s: Live, m: Message, except: Option<PlayerId>)
    requires !m.ChatLine?
    ensures Spoken(Broadcast(s, m, except).world.mail) == Spoken(s.world.mail)
  {
    assert Broadcast(s, m, except).world.mail[..|s.world.mail|] == s.world.mail;
  }

  lemma SilentSend(s: Live, id: PlayerId, m: Message)
    requires !m.ChatLine?
    ensures Spoken(Send(s, id, m).world.mail) == Spoken(s.world.mail)
  {
    if id in Ids(s.room.players) && id in s.world.open {
      assert Send(s, id, m).world.mail[..|s.world.mail|] == s.world.mail;
    }
  }

  lemma EndGameSilent(s: Live)
    ensures Spoken(EndGame(s).world.mail) == Spoken(s.world.mail)
  {
    var over := CloseGame(s);
    var m := GameEnded(Cards(over.room.players));
    Silent(over, m, None);
    assert s.room.phase == Playing ==> EndGame(s).world.mail == Broadcast(over, m, None).world.mail;
  }

  lemma EndRoundSilent(s: Live)
    ensures Spoken(EndRound(s).world.mail) == Spoken(s.world.mail)
  {
    var answer := match s.room.word case None => "" case Some(w) => w;
    var idle := CloseRound(s);
    Silent(idle, RoundEnded(idle.room.round, answer, Cards(idle.room.players)), None);
  }

  lemma SolveSilent(s: Live, player: Player)
    ensures Spoken(Solve(s, player).world.mail) == Spoken(s.world.mail)
  {
    var scored := Score(s, player.id);
    var m := CorrectAnswer(player.id, player.nickname, Cards(scored.room.players));
    Silent(scored, m, None);
    EndRoundSilent(Broadcast(scored, m, None));
  }

  /**
   * While a round is drawn, whatever a player says, at most that line goes out, and only if it does not contain
   * the word in any spelling.
   */
  lemma {:induction false} ChatNeverSpoils(s: Live, id: PlayerId, text: string)
    requires Inv(s) && s.room.word.Some?
    ensures var before, after := Spoken(s.world.mail), Spoken(HandleChat(s, id, text).world.mail);
            var line := Clip(Trim(text), MAX_CHAT_LENGTH);
            after == before || (after == before + [line] && Discreet(line, s.room.word.value))
  {
    WordsAreVisible();
    var found := Find(s.room.players, id);
    var line := Clip(Trim(text), MAX_CHAT_LENGTH);
    if found.Some? && line != "" {
      var (after, hidden) := Guess(s, found.value, line);
      if after != s {
        SolveSilent(s, found.value);
      } else if !hidden {
        var m := ChatLine(id, found.value.nickname, line, s.world.now);
        assert Broadcast(s, m, None).world.mail[..|s.world.mail|] == s.world.mail;
        NotContainedIsDiscreet(line, s.room.word.value);
      }
    }
  }

  lemma NotContainedIsDiscreet(text: string, word: string)
    requires !Contains(Normalize(text), Normalize(word))
    ensures Discreet(text, word)
  {
    forall before: string, spelling: string, after: string | before + spelling + after == text
      ensures Normalize(spelling) != Normalize(word)
    {
      if Normalize(spelling) == Normalize(word) {
        SpellingIsCaught(before, spelling, after, word);
      }
    }
  }

  lemma {:induction false} DepartureSilent(s: Live, id: PlayerId)
    ensures Spoken(AfterDeparture(s, id).world.mail) == Spoken(s.world.mail)
  {
    if s.room.phase == Playing {
      if |s.room.players| < MIN_PLAYERS_TO_START {
        Silent(s, System(TooFewPlayersLeft, s.world.now), None);
        EndGameSilent(Announce(s, TooFewPlayersLeft));
      } else if s.room.drawerId == Some(id) {
        Silent(s, System(DrawerLeft, s.world.now), None);
        EndRoundSilent(Announce(s, DrawerLeft));
      } else {
        EndRoundSilent(s);
      }
    }
  }

  lemma {:induction false} LeaveSilent(s: Live, id: PlayerId)
    ensures Spoken(HandleClose(s, id).world.mail) == Spoken(s.world.mail)
  {
    var nickname := match Find(s.room.players, id) case None => "익명" case Some(p) => p.nickname;
    var gone := Vacate(s, id);
    var m := PlayerLeft(id, nickname, |gone.room.players|);
    Silent(gone, m, None);
    var told := Broadcast(gone, m, None);
    Silent(told, System(Exited(nickname), told.world.now), None);
    DepartureSilent(Farewell(s, id), id);
  }

  lemma JoinSilent(s: Live, id: PlayerId, userId: Option<UserId>, nickname: string)
    ensures Spoken(CommitJoin(s, id, userId, nickname).world.mail) == Spoken(s.world.mail)
  {
    var seated := Seat(s, id, userId, nickname);
    var snapshot := SnapshotFor(seated, Card(id, nickname, 0));
    SilentSend(seated, id, snapshot);
    var greeted := Send(seated, id, snapshot);
    var m := PlayerJoined(Card(id, nickname, 0), |seated.room.players|);
    Silent(greeted, m, Some(id));
    var known := Broadcast(greeted, m, Some(id));
    Silent(known, System(Entered(nickname), known.world.now), None);
  }

  lemma {:induction false} DrawingSilent(s: Live, id: PlayerId, stroke: Stroke)
    ensures Spoken(HandleDraw(s, id, stroke).world.mail) == Spoken(s.world.mail)
    ensures Spoken(HandleDrawClear(s, id).world.mail) == Spoken(s.world.mail)
  {
    var clean := Sanitize(stroke);
    Silent(s.(room := s.room.(strokes := AddStroke(s.room.strokes, clean))), Draw(clean), Some(id));
    Silent(s.(room := s.room.(strokes := [])), DrawClear, Some(id));
  }

  /** An event during a round sends at most one chat line, and that line is discreet. */
  lemma StepNeverSpoils(s: Live, e: Event)
    requires Inv(s) && Enabled(s, e) && s.room.word.Some?
    ensures var before, after := Spoken(s.world.mail), Spoken(Step(s, e).world.mail);
            after == before || exists line :: after == before + [line] && Discreet(line, s.room.word.value)
  {
    match e
    case Join(player, userId, nickname) => JoinSilent(s, player, userId, nickname);
    case Leave(player) => LeaveSilent(s, player);
    case Say(player, text) => ChatNeverSpoils(s, player, text);
    case Paint(player, stroke) => DrawingSilent(s, player, stroke);
    case Wipe(player) => DrawingSilent(s, player, Stroke([], "", 0.0));
    case Start(gameId, order, word) =>
    case Alert(t, word) => EndRoundSilent(s.(world := s.world.(alarms := s.world.alarms - {t})));
    case Tick(t) =>
    case Drop(player) =>
  }

  /**
   * In every run, no event during a round sends a chat line that contains the word of that round, even with other
   * spacing or case.
   */
  lemma {:induction false} NoRunSpoils(id: RoomId, now: int, es: seq<Event>, e: Event)
    requires Run(Opening(id, now), es) && May(After(Opening(id, now), es), e)
    requires After(Opening(id, now), es).live.room.word.Some?
    ensures var s := After(Opening(id, now), es).live;
            var before, after := Spoken(s.world.mail), Spoken(Step(s, e).world.mail);
            after == before || exists line :: after == before + [line] && Discreet(line, s.room.word.value)
  {
    RunsStayGood(id, now, es);
    StepNeverSpoils(After(Opening(id, now), es).live, e);
  }

  lemma DiscreetIsNotContained(text: string, word: string)
    ensures Discreet(text, word) <==> !Contains(Normalize(text), Normalize(word))
  {
    if Contains(Normalize(text), Normalize(word)) {
      var before, spelling, after := CaughtIsSpelt(text, word);
      assert before + spelling + after == text;
    } else {
      NotContainedIsDiscreet(text, word);
    }
  }

  /** The line is held back: a round is on, and some part of the line spells its word. */
  ghost predicate HeldBack(s: Live, line: string) {
    s.room.phase == Playing && s.room.word.Some? && !Discreet(line, s.room.word.value)
  }

  /**
   * What a player says goes out as it was said, trimmed and cut at 200 characters, unless nothing is left of it or it
   * is held back; and nothing is held back but what gives the word away.
   */
  lemma {:induction false} OnlySpoilersAreHeldBack(s: Live, id: PlayerId, text: string)
    requires Inv(s) && id in Ids(s.room.players)
    ensures var line := Clip(Trim(text), 200);
            Spoken(HandleChat(s, id, text).world.mail)
            == Spoken(s.world.mail) + if line == "" || HeldBack(s, line) then [] else [line]
  {
    var player, line := Find(s.room.players, id).value, Clip(Trim(text), 200);
    assert Spoken(s.world.mail) + [] == Spoken(s.world.mail);
    if line != "" {
      LineGoesOut(s, player, line);
    }
  }

  lemma HeldBackIsHidden(s: Live, player: Player, line: string)
    requires Inv(s)
    ensures Guess(s, player, line).1 <==> HeldBack(s, line)
    ensures !HeldBack(s, line) ==> Guess(s, player, line).0 == s
  {
    WordsAreVisible();
    if s.room.phase == Playing && s.room.word.Some? {
      DiscreetIsNotContained(line, s.room.word.value);
      SameContains(Normalize(line));
    }
  }

  lemma LineGoesOut(s: Live, player: Player, line: string)
    requires Inv(s)
    ensures var (after, hidden) := Guess(s, player, line);
            var t := if hidden then after
                     else Broadcast(after, ChatLine(player.id, player.nickname, line, after.world.now), None);
            Spoken(t.world.mail) == Spoken(s.world.mail) + if HeldBack(s, line) then [] else [line]
  {
    HeldBackIsHidden(s, player, line);
    SolveSilent(s, player);
    assert Spoken(s.world.mail) + [] == Spoken(s.world.mail);
    var m := ChatLine(player.id, player.nickname, line, s.world.now);
    assert Broadcast(s, m, None).world.mail[..|s.world.mail|] == s.world.mail;
  }

  lemma SameContains(text: string)
    ensures Contains(text, text)
  {
    assert At(text, text, 0);
  }
}
