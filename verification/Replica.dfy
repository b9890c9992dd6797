/** Every connected client shows what the server holds. */
module Replica {
  import opened Basics
  import opened Protocol
  import opened Text
  import opened Game
  import opened RoomInvariant
  import opened History
  import opened Accounting
  import opened Client

  // ---------------------------------------------------------------- what a faithful view is

  /** Who sits in the room, without the scores. */
  function Names(cards: seq<Card>): (names: seq<(PlayerId, string)>)
    ensures |names| == |cards|
  {
    seq(|cards|, i requires 0 <= i < |cards| => (cards[i].id, cards[i].nickname))
  }

  /** Did a message that carries scores go out since the scores were last reset? */
  function ScoresTold(mail: seq<Envelope>): bool {
    if mail == [] then true
    else
      match mail[|mail| - 1].message
      case GameStarted(_) => false
      case RoundEnded(_, _, _) => true
      case CorrectAnswer(_, _, _) => true
      case GameEnded(_) => true
      case _ => ScoresTold(mail[..|mail| - 1])
  }

  /** The table: the same players in the same order, the same phase, round and drawer. */
  predicate SameTable(v: View, r: Room) {
    && Names(v.players) == Names(Cards(r.players))
    && v.phase == r.phase && v.round == r.round && v.totalRounds == r.totalRounds && v.drawerId == r.drawerId
  }

  /** During a round: who draws, by name, and how long the word is. */
  predicate SameRound(v: View, r: Room) {
    r.phase == Playing && r.drawerId.Some? ==>
      && v.wordLength == LengthOf(r.word)
      && forall i :: 0 <= i < |r.players| && r.drawerId == Some(r.players[i].id) ==>
           v.drawerNickname == Some(r.players[i].nickname)
  }

  function LengthOf(word: Option<string>): Option<nat> {
    match word case None => None case Some(w) => Some(|w|)
  }

  /** The word is known to the drawer's client and to no other. */
  predicate SameSecret(v: View, r: Room, p: PlayerId) {
    r.phase == Playing ==> v.word == if r.drawerId == Some(p) then r.word else None
  }

  /** The server's stroke buffer is the beginning of the picture shown, and all of it until the buffer is full. */
  predicate SamePicture(v: View, r: Room) {
    && r.strokes <= v.strokes
    && (|r.strokes| < MAX_BUFFERED_STROKES ==> v.strokes == r.strokes)
  }

  predicate Faithful(s: Live, painters: set<PlayerId>, p: PlayerId) {
    var v := Shown(s, p);
    && SameTable(v, s.room)
    && SameRound(v, s.room)
    && SameSecret(v, s.room, p)
    && (ScoresTold(s.world.mail) ==> v.players == Cards(s.room.players))
    && (p !in painters ==> SamePicture(v, s.room))
  }

  /** A drawer who has not painted yet faces an empty canvas. */
  predicate CanvasIsPainted(r: Room, painters: set<PlayerId>) {
    r.drawerId.Some? && r.drawerId.value !in painters ==> r.strokes == []
  }

  predicate AllFaithful(c: Tracked) {
    && CanvasIsPainted(c.live.room, c.record.painters)
    && (forall id :: id in c.record.painters ==> id in c.record.seen)
    && forall p :: p in c.live.world.open ==> Faithful(c.live, c.record.painters, p)
  }

  // ---------------------------------------------------------------- one message

  lemma AfterBroadcast(s: Live, m: Message, except: Option<PlayerId>, p: PlayerId)
    requires p in s.world.open && p in Ids(s.room.players)
    ensures var t := Broadcast(s, m, except);
            Shown(t, p) == if except == Some(p) then Shown(s, p) else Apply(Shown(s, p), m)
  {
    Delivered(s.world.mail, Envelope(Receivers(s, except), m), p);
  }

  lemma AfterSend(s: Live, to: PlayerId, m: Message, p: PlayerId)
    requires p in s.world.open && p in Ids(s.room.players)
    ensures Shown(Send(s, to, m), p) == if to == p then Apply(Shown(s, p), m) else Shown(s, p)
  {
    if to in Ids(s.room.players) && to in s.world.open {
      Delivered(s.world.mail, Envelope({to}, m), p);
    }
  }

  lemma ToldAfter(mail: seq<Envelope>, e: Envelope)
    ensures ScoresTold(mail + [e]) ==
            (match e.message
             case GameStarted(_) => false
             case RoundEnded(_, _, _) => true
             case CorrectAnswer(_, _, _) => true
             case GameEnded(_) => true
             case _ => ScoresTold(mail))
  {
    assert (mail + [e])[..|mail|] == mail;
  }

  /** Notices and chat lines change neither what a client shows of the table nor what it knows of the scores. */
  lemma IdleBroadcast(s: Live, m: Message, p: PlayerId)
    requires m.System? || m.ChatLine?
    requires p in s.world.open && p in Ids(s.room.players)
    ensures Shown(Broadcast(s, m, None), p) == Shown(s, p)
    ensures ScoresTold(Broadcast(s, m, None).world.mail) == ScoresTold(s.world.mail)
  {
    AfterBroadcast(s, m, None, p);
    ToldAfter(s.world.mail, Envelope(Receivers(s, None), m));
  }

  // ---------------------------------------------------------------- rounds and games

  /** What the end of a round or game still needs from the view: it carries the rest itself. */
  predicate Attuned(s: Live, painters: set<PlayerId>, p: PlayerId) {
    var v := Shown(s, p);
    && p in s.world.open && p in Ids(s.room.players)
    && v.phase == s.room.phase && v.round == s.room.round && v.totalRounds == s.room.totalRounds
    && (p !in painters ==> SamePicture(v, s.room))
  }

  lemma EndGameFaithful(s: Live, painters: set<PlayerId>, p: PlayerId)
    requires Attuned(s, painters, p) && s.room.phase == Playing
    ensures Faithful(EndGame(s), painters, p)
  {
    var over := CloseGame(s);
    var m := GameEnded(Cards(over.room.players));
    AfterBroadcast(over, m, None, p);
    ToldAfter(over.world.mail, Envelope(Receivers(over, None), m));
    assert EndGame(s).world.mail == Broadcast(over, m, None).world.mail;
  }

  lemma EndRoundFaithful(s: Live, painters: set<PlayerId>, p: PlayerId)
    requires Attuned(s, painters, p) && s.room.phase == Playing
    ensures Faithful(EndRound(s), painters, p)
  {
    var answer := match s.room.word case None => "" case Some(w) => w;
    var idle := CloseRound(s);
    var m := RoundEnded(idle.room.round, answer, Cards(idle.room.players));
    AfterBroadcast(idle, m, None, p);
    ToldAfter(idle.world.mail, Envelope(Receivers(idle, None), m));
    assert EndRound(s).world.mail == Broadcast(idle, m, None).world.mail;
  }

  lemma BeginRoundShown(s: Live, drawer: Player, word: string, p: PlayerId)
    requires p in s.world.open && p in Ids(s.room.players)
    ensures var t := BeginRound(s, drawer, word);
            Shown(t, p) == Apply(Apply(Shown(s, p), DrawClear),
                                 RoundStarted(t.room.round, t.room.totalRounds, drawer.id, drawer.nickname,
                                              ROUND_DURATION_MS,
                                              |word|, if p == drawer.id then Some(word) else None))
    ensures ScoresTold(BeginRound(s, drawer, word).world.mail) == ScoresTold(s.world.mail)
  {
    var begun := Assign(s, drawer.id, word);
    var cleared := Broadcast(begun, DrawClear, None);
    var started := RoundStarted(begun.room.round, begun.room.totalRounds, drawer.id, drawer.nickname,
                                ROUND_DURATION_MS, |word|, None);
    var told := Broadcast(cleared, started, Some(drawer.id));
    var secret := started.(word := Some(word));
    AfterBroadcast(begun, DrawClear, None, p);
    AfterBroadcast(cleared, started, Some(drawer.id), p);
    AfterSend(told, drawer.id, secret, p);
    ToldAfter(begun.world.mail, Envelope(Receivers(begun, None), DrawClear));
    ToldAfter(cleared.world.mail, Envelope(Receivers(cleared, Some(drawer.id)), started));
    ToldAfter(told.world.mail, Envelope({drawer.id}, secret));
  }

  /** Ids tell players apart. */
  lemma OnlyOneOfThatId(ps: seq<Player>, id: PlayerId, i: nat)
    requires Distinct(Ids(ps)) && i < |ps| && ps[i].id == id
    ensures Find(ps, id) == Some(ps[i])
  {
    assert Ids(ps)[i] == id;
    var p := Find(ps, id).value;
    var k :| 0 <= k < |ps| && ps[k] == p;
    assert Ids(ps)[k] == Ids(ps)[i];
  }

  lemma BeginRoundFaithful(s: Live, painters: set<PlayerId>, drawer: Player, word: string, p: PlayerId)
    requires p in s.world.open && p in Ids(s.room.players) && s.room.phase == Playing
    requires Distinct(Ids(s.room.players)) && Find(s.room.players, drawer.id) == Some(drawer)
    requires Names(Shown(s, p).players) == Names(Cards(s.room.players))
    requires ScoresTold(s.world.mail) ==> Shown(s, p).players == Cards(s.room.players)
    ensures Faithful(BeginRound(s, drawer, word), painters, p)
  {
    BeginRoundShown(s, drawer, word, p);
    forall i | 0 <= i < |s.room.players| && s.room.players[i].id == drawer.id ensures s.room.players[i] == drawer {
      OnlyOneOfThatId(s.room.players, drawer.id, i);
    }
  }

  lemma StartRoundFaithful(s: Live, painters: set<PlayerId>, word: string, p: PlayerId)
    requires p in s.world.open && p in Ids(s.room.players) && s.room.phase == Playing
    requires s.room.drawerQueue != [] && s.room.drawerQueue[0] in Ids(s.room.players) && Distinct(Ids(s.room.players))
    requires Names(Shown(s, p).players) == Names(Cards(s.room.players))
    requires ScoresTold(s.world.mail) ==> Shown(s, p).players == Cards(s.room.players)
    ensures Faithful(StartRound(s, word), painters, p)
  {
    var c := ClearRoundTimer(s);
    var q := c.room.drawerQueue;
    var next := c.(room := c.room.(drawerQueue := q[1..]));
    BeginRoundFaithful(next, painters, Find(c.room.players, q[0]).value, word, p);
  }

  lemma SameNames(ps: seq<Player>, qs: seq<Player>)
    requires |ps| == |qs| && forall i :: 0 <= i < |ps| ==> ps[i].id == qs[i].id && ps[i].nickname == qs[i].nickname
    ensures Names(Cards(ps)) == Names(Cards(qs))
  {
  }

  predicate GameMayStart(s: Live, order: seq<PlayerId>) {
    && s.room.phase != Playing && |s.room.players| >= MIN_PLAYERS_TO_START
    && Distinct(Ids(s.room.players)) && multiset(order) == multiset(Ids(s.room.players))
  }

  lemma FirstDrawerIsPresent(s: Live, gameId: GameId, order: seq<PlayerId>)
    requires GameMayStart(s, order)
    ensures var r := Announced(s, gameId, order).room; r.drawerQueue != [] && r.drawerQueue[0] in Ids(r.players)
  {
    PermutationOfDistinct(Ids(s.room.players), order);
    assert order[0] in order;
  }

  lemma AnnouncementShown(s: Live, gameId: GameId, order: seq<PlayerId>, p: PlayerId)
    requires p in s.world.open && p in Ids(s.room.players)
    ensures var t := Announced(s, gameId, order);
            && Shown(t, p).players == Shown(s, p).players && t.room.players == ZeroScores(s.room.players)
            && t.world.open == s.world.open && t.room.phase == Playing && !ScoresTold(t.world.mail)
  {
    var reset := NewGame(s, gameId, order);
    var m := GameStarted(reset.room.totalRounds);
    AfterBroadcast(reset, m, None, p);
    ToldAfter(reset.world.mail, Envelope(Receivers(reset, None), m));
  }

  /** When a game begins the canvas is wiped, so it does not matter who painted before. */
  lemma NewGameFaithful(s: Live, painters: set<PlayerId>, gameId: GameId, order: seq<PlayerId>, word: string,
                        p: PlayerId)
    requires GameMayStart(s, order) && p in s.world.open && p in Ids(s.room.players)
    requires Names(Shown(s, p).players) == Names(Cards(s.room.players))
    ensures Faithful(StartGame(s, gameId, order, word), painters, p)
  {
    FirstDrawerIsPresent(s, gameId, order);
    AnnouncementShown(s, gameId, order, p);
    SameNames(s.room.players, ZeroScores(s.room.players));
    StartRoundFaithful(Announced(s, gameId, order), painters, word, p);
  }

  lemma StartFaithful(s: Live, h: Record, gameId: GameId, order: seq<PlayerId>, word: string, p: PlayerId)
    requires Inv(s) && Enabled(s, Start(gameId, order, word)) && p in s.world.open && Faithful(s, h.painters, p)
    ensures var t := StartGame(s, gameId, order, word); Faithful(t, NoteStart(h, s, gameId, t).painters, p)
  {
    if s.room.phase != Playing {
      if |s.room.players| < MIN_PLAYERS_TO_START {
        IdleBroadcast(s, System(NeedMorePlayers, s.world.now), p);
      } else {
        var t := StartGame(s, gameId, order, word);
        NewGameFaithful(s, NoteStart(h, s, gameId, t).painters, gameId, order, word, p);
      }
    }
  }

  lemma AlertFaithful(s: Live, h: Record, timer: TimerId, word: string, p: PlayerId)
    requires Inv(s) && Enabled(s, Alert(timer, word)) && p in s.world.open && Faithful(s, h.painters, p)
    ensures var t := Fire(s, timer, word); Faithful(t, NoteAlert(h, s, t).painters, p)
  {
    AlertFindsGame(s, timer, word);
    var due := s.(world := s.world.(alarms := s.world.alarms - {timer}));
    match s.world.alarms[timer].kind
    case RoundOver => EndRoundFaithful(due, h.painters, p);
    case NextRound =>
      if due.room.drawerQueue == [] {
        EndGameFaithful(due, h.painters, p);
      } else {
        StartRoundFaithful(due, NoteAlert(h, s, Fire(s, timer, word)).painters, word, p);
      }
  }

  // ---------------------------------------------------------------- coming and going

  lemma NamesSnoc(cards: seq<Card>, card: Card)
    ensures Names(cards + [card]) == Names(cards) + [(card.id, card.nickname)]
  {
  }

  lemma CardsSnoc(ps: seq<Player>, p: Player)
    ensures Cards(ps + [p]) == Cards(ps) + [Card(p.id, p.nickname, p.score)]
  {
  }

  lemma NamesFront(cards: seq<Card>, ps: seq<Player>)
    requires Names(cards) == Names(Cards(ps)) && cards != []
    ensures var n := |cards| - 1;
            |ps| == |cards| && Names(cards[..n]) == Names(Cards(ps[..n]))
            && cards[n].id == ps[n].id && cards[n].nickname == ps[n].nickname
  {
    var n := |cards| - 1;
    assert |Names(Cards(ps))| == |ps|;
    assert cards == cards[..n] + [cards[n]] && ps == ps[..n] + [ps[n]];
    NamesSnoc(cards[..n], cards[n]);
    CardsSnoc(ps[..n], ps[n]);
    NamesSnoc(Cards(ps[..n]), Card(ps[n].id, ps[n].nickname, ps[n].score));
    assert Names(cards)[..n] == Names(cards[..n]) && Names(Cards(ps))[..n] == Names(Cards(ps[..n]));
    assert Names(cards)[n] == Names(Cards(ps))[n];
  }

  lemma {:induction false} DropMirrorsEvict(cards: seq<Card>, ps: seq<Player>, id: PlayerId)
    requires Names(cards) == Names(Cards(ps))
    ensures Names(DropCard(cards, id)) == Names(Cards(Evict(ps, id)))
    decreases |cards|
  {
    if cards != [] {
      var n := |cards| - 1;
      NamesFront(cards, ps);
      DropMirrorsEvict(cards[..n], ps[..n], id);
      NamesSnoc(DropCard(cards[..n], id), cards[n]);
      CardsSnoc(Evict(ps[..n], id), ps[n]);
      NamesSnoc(Cards(Evict(ps[..n], id)), Card(ps[n].id, ps[n].nickname, ps[n].score));
    }
  }

  lemma DropSnoc(cards: seq<Card>, card: Card, id: PlayerId)
    ensures DropCard(cards + [card], id) == DropCard(cards, id) + if card.id == id then [] else [card]
  {
    assert (cards + [card])[..|cards|] == cards;
  }

  lemma CardsConcat(ps: seq<Player>, qs: seq<Player>)
    ensures Cards(ps + qs) == Cards(ps) + Cards(qs)
  {
  }

  lemma {:induction false} DropIsEvict(ps: seq<Player>, id: PlayerId)
    ensures DropCard(Cards(ps), id) == Cards(Evict(ps, id))
  {
    if ps != [] {
      var front, p := ps[..|ps| - 1], ps[|ps| - 1];
      DropIsEvict(front, id);
      assert ps == front + [p];
      CardsSnoc(front, p);
      DropSnoc(Cards(front), Card(p.id, p.nickname, p.score), id);
      EvictSnoc(front, p, id);
      CardsConcat(Evict(front, id), if p.id == id then [] else [p]);
    }
  }

  lemma {:induction false} NicknameIsFound(ps: seq<Player>, id: Option<PlayerId>)
    requires Distinct(Ids(ps))
    ensures forall i :: 0 <= i < |ps| && id == Some(ps[i].id) ==> NicknameOf(Cards(ps), id) == Some(ps[i].nickname)
  {
    if ps != [] {
      assert Cards(ps)[1..] == Cards(ps[1..]) && Ids(ps)[1..] == Ids(ps[1..]);
      NicknameIsFound(ps[1..], id);
      forall i | 0 <= i < |ps| && id == Some(ps[i].id) ensures NicknameOf(Cards(ps), id) == Some(ps[i].nickname) {
        if i == 0 {
          assert Cards(ps)[0] == Card(ps[0].id, ps[0].nickname, ps[0].score);
        } else {
          assert ps[1..][i - 1] == ps[i] && Ids(ps)[0] != Ids(ps)[i];
        }
      }
    }
  }

  lemma NewcomerFaithful(s: Live, painters: set<PlayerId>, id: PlayerId, userId: Option<UserId>, nickname: string)
    requires Inv(s) && id !in Ids(s.room.players) && !IsFull(s)
    requires id !in painters
    ensures Faithful(CommitJoin(s, id, userId, nickname), painters, id)
  {
    var seated := Seat(s, id, userId, nickname);
    assert Ids(seated.room.players) == Ids(s.room.players) + [id];
    assert id in Ids(seated.room.players);
    var m := SnapshotFor(seated, Card(id, nickname, 0));
    var greeted := Send(seated, id, m);
    AfterSend(seated, id, m, id);
    var joined := PlayerJoined(Card(id, nickname, 0), |seated.room.players|);
    AfterBroadcast(greeted, joined, Some(id), id);
    var known := Broadcast(greeted, joined, Some(id));
    IdleBroadcast(known, System(Entered(nickname), known.world.now), id);
    NicknameIsFound(seated.room.players, seated.room.drawerId);
  }

  /** What a join sends to those who were there. */
  lemma JoinShown(s: Live, id: PlayerId, userId: Option<UserId>, nickname: string, p: PlayerId)
    requires !IsFull(s) && p in s.world.open && p in Ids(s.room.players) && p != id
    ensures Shown(CommitJoin(s, id, userId, nickname), p)
            == Apply(Shown(s, p), PlayerJoined(Card(id, nickname, 0), |s.room.players| + 1))
    ensures ScoresTold(CommitJoin(s, id, userId, nickname).world.mail) == ScoresTold(s.world.mail)
  {
    var seated := Seat(s, id, userId, nickname);
    assert Ids(seated.room.players) == Ids(s.room.players) + [id];
    var m := SnapshotFor(seated, Card(id, nickname, 0));
    var greeted := Send(seated, id, m);
    AfterSend(seated, id, m, p);
    ToldAfter(seated.world.mail, Envelope({id}, m));
    var joined := PlayerJoined(Card(id, nickname, 0), |seated.room.players|);
    AfterBroadcast(greeted, joined, Some(id), p);
    ToldAfter(greeted.world.mail, Envelope(Receivers(greeted, Some(id)), joined));
    var known := Broadcast(greeted, joined, Some(id));
    IdleBroadcast(known, System(Entered(nickname), known.world.now), p);
  }

  lemma JoinFaithful(s: Live, painters: set<PlayerId>, id: PlayerId, userId: Option<UserId>, nickname: string,
                     p: PlayerId)
    requires Inv(s) && id !in Ids(s.room.players) && !IsFull(s)
    requires p in s.world.open && Faithful(s, painters, p)
    ensures Faithful(CommitJoin(s, id, userId, nickname), painters, p)
  {
    JoinShown(s, id, userId, nickname, p);
    var cards, ps := Shown(s, p).players, s.room.players;
    NobodyHasCard(cards, ps, id);
    NamesSnoc(cards, Card(id, nickname, 0));
    CardsSnoc(ps, Player(id, userId, nickname, 0));
    NamesSnoc(Cards(ps), Card(id, nickname, 0));
  }

  lemma NobodyHasCard(cards: seq<Card>, ps: seq<Player>, id: PlayerId)
    requires Names(cards) == Names(Cards(ps)) && id !in Ids(ps)
    ensures !HasCard(cards, id)
  {
    forall i | 0 <= i < |cards| ensures cards[i].id != id {
      assert Names(cards)[i] == Names(Cards(ps))[i];
      assert Ids(ps)[i] == cards[i].id;
    }
  }

  lemma {:induction false} SameRoundWithout(v: View, r: Room, t: Room, id: PlayerId)
    requires SameRound(v, r) && t.players == Evict(r.players, id)
    requires t.phase == r.phase && t.drawerId == r.drawerId && t.word == r.word
    ensures SameRound(v.(players := DropCard(v.players, id)), t)
  {
    forall i | 0 <= i < |t.players| && r.phase == Playing && r.drawerId == Some(t.players[i].id)
      ensures v.drawerNickname == Some(t.players[i].nickname)
    {
      StaysWereThere(r.players, id, i);
    }
  }

  lemma FarewellFaithful(s: Live, painters: set<PlayerId>, id: PlayerId, p: PlayerId)
    requires Inv(s) && id in Ids(s.room.players)
    requires p in s.world.open && p != id && Faithful(s, painters, p)
    ensures Faithful(Farewell(s, id), painters, p)
  {
    var nickname := Find(s.room.players, id).value.nickname;
    var gone := Vacate(s, id);
    var left := PlayerLeft(id, nickname, |gone.room.players|);
    VacateLists(s, id);
    AfterBroadcast(gone, left, None, p);
    ToldAfter(gone.world.mail, Envelope(Receivers(gone, None), left));
    DropMirrorsEvict(Shown(s, p).players, s.room.players, id);
    DropIsEvict(s.room.players, id);
    var told := Broadcast(gone, left, None);
    IdleBroadcast(told, System(Exited(nickname), told.world.now), p);
    SameRoundWithout(Shown(s, p), s.room, Farewell(s, id).room, id);
  }

  lemma LeaveFaithful(s: Live, painters: set<PlayerId>, id: PlayerId, p: PlayerId)
    requires Inv(s) && id in Ids(s.room.players)
    requires p in s.world.open && p != id && Faithful(s, painters, p)
    ensures Faithful(HandleClose(s, id), painters, p)
  {
    FarewellFaithful(s, painters, id, p);
    FarewellKeepsShape(s, id);
    DepartureFaithful(Farewell(s, id), painters, id, p);
  }

  lemma DepartureFaithful(s: Live, painters: set<PlayerId>, id: PlayerId, p: PlayerId)
    requires p in s.world.open && p in Ids(s.room.players) && Faithful(s, painters, p)
    ensures Faithful(AfterDeparture(s, id), painters, p)
  {
    if s.room.phase == Playing {
      if |s.room.players| < MIN_PLAYERS_TO_START {
        IdleBroadcast(s, System(TooFewPlayersLeft, s.world.now), p);
        EndGameFaithful(Announce(s, TooFewPlayersLeft), painters, p);
      } else if s.room.drawerId == Some(id) {
        IdleBroadcast(s, System(DrawerLeft, s.world.now), p);
        EndRoundFaithful(Announce(s, DrawerLeft), painters, p);
      } else if UnsolvedGuessers(s) == 0 {
        EndRoundFaithful(s, painters, p);
      }
    }
  }

  // ---------------------------------------------------------------- talking and drawing

  lemma SolveFaithful(s: Live, painters: set<PlayerId>, player: Player, p: PlayerId)
    requires p in s.world.open && p in Ids(s.room.players) && Faithful(s, painters, p) && s.room.phase == Playing
    ensures Faithful(Solve(s, player), painters, p)
  {
    var scored := Score(s, player.id);
    var m := CorrectAnswer(player.id, player.nickname, Cards(scored.room.players));
    assert Ids(scored.room.players) == Ids(s.room.players);
    AfterBroadcast(scored, m, None, p);
    ToldAfter(scored.world.mail, Envelope(Receivers(scored, None), m));
    var told := Broadcast(scored, m, None);
    if UnsolvedGuessers(told) == 0 {
      EndRoundFaithful(told, painters, p);
    }
  }

  lemma {:induction false} SayFaithful(s: Live, painters: set<PlayerId>, id: PlayerId, text: string, p: PlayerId)
    requires Inv(s) && p in s.world.open && Faithful(s, painters, p)
    ensures Faithful(HandleChat(s, id, text), painters, p)
  {
    ChatCases(s, id, text);
    if Answers(s, id, text) {
      SolveFaithful(s, painters, Find(s.room.players, id).value, p);
    } else if HandleChat(s, id, text) != s {
      var line := Clip(Trim(text), MAX_CHAT_LENGTH);
      IdleBroadcast(s, ChatLine(id, Find(s.room.players, id).value.nickname, line, s.world.now), p);
    }
  }

  lemma PaintFaithful(s: Live, h: Record, id: PlayerId, stroke: Stroke, p: PlayerId)
    requires Inv(s) && p in s.world.open && Faithful(s, h.painters, p)
    ensures Faithful(HandleDraw(s, id, stroke), NoteInk(h, s, id).painters, p)
  {
    if MayDraw(s, id) && stroke.points != [] {
      var painted := s.(room := s.room.(strokes := AddStroke(s.room.strokes, Sanitize(stroke))));
      AfterBroadcast(painted, Draw(Sanitize(stroke)), Some(id), p);
      ToldAfter(painted.world.mail, Envelope(Receivers(painted, Some(id)), Draw(Sanitize(stroke))));
    }
  }

  lemma WipeFaithful(s: Live, h: Record, id: PlayerId, p: PlayerId)
    requires Inv(s) && p in s.world.open && Faithful(s, h.painters, p)
    ensures Faithful(HandleDrawClear(s, id), NoteInk(h, s, id).painters, p)
  {
    if MayDraw(s, id) {
      var wiped := s.(room := s.room.(strokes := []));
      AfterBroadcast(wiped, DrawClear, Some(id), p);
      ToldAfter(wiped.world.mail, Envelope(Receivers(wiped, Some(id)), DrawClear));
    }
  }

  // ---------------------------------------------------------------- every event, every run

  /** A canvas changes hands empty: at the end of an event it is the same round, a new one, or none. */
  predicate SameCanvasOrNew(r: Room, t: Room) {
    t.drawerId.None? || t.strokes == [] || (t.drawerId == r.drawerId && t.strokes == r.strokes)
  }

  lemma {:induction false} LeaveKeepsCanvas(s: Live, id: PlayerId)
    ensures SameCanvasOrNew(s.room, HandleClose(s, id).room)
  {
    DepartureKeepsCanvas(Farewell(s, id), id);
  }

  lemma DepartureKeepsCanvas(s: Live, id: PlayerId)
    ensures SameCanvasOrNew(s.room, AfterDeparture(s, id).room)
  {
  }

  lemma JoinKeepsCanvas(s: Live, id: PlayerId, userId: Option<UserId>, nickname: string)
    ensures SameCanvasOrNew(s.room, CommitJoin(s, id, userId, nickname).room)
  {
  }

  lemma SayKeepsCanvas(s: Live, id: PlayerId, text: string)
    ensures SameCanvasOrNew(s.room, HandleChat(s, id, text).room)
  {
  }

  lemma StartKeepsCanvas(s: Live, gameId: GameId, order: seq<PlayerId>, word: string)
    ensures SameCanvasOrNew(s.room, StartGame(s, gameId, order, word).room)
  {
  }

  lemma AlertKeepsCanvas(s: Live, t: TimerId, word: string)
    requires Inv(s) && Enabled(s, Alert(t, word))
    ensures Fire(s, t, word).room.drawerId.None? || (Fire(s, t, word).room.strokes == [] && s.room.drawerId.None?)
  {
    AlertFindsGame(s, t, word);
  }

  lemma NextKeepsCanvas(c: Tracked, e: Event)
    requires Inv(c.live) && May(c, e) && CanvasIsPainted(c.live.room, c.record.painters)
    ensures CanvasIsPainted(Next(c, e).live.room, Next(c, e).record.painters)
  {
    match e
    case Join(id, userId, nickname) => JoinKeepsCanvas(c.live, id, userId, nickname);
    case Leave(id) => LeaveKeepsCanvas(c.live, id);
    case Say(id, text) => SayKeepsCanvas(c.live, id, text);
    case Start(gameId, order, word) => StartKeepsCanvas(c.live, gameId, order, word);
    case Alert(t, word) => AlertKeepsCanvas(c.live, t, word);
    case _ =>
  }

  lemma PaintersAreKnown(c: Tracked, e: Event)
    requires Good(c) && May(c, e) && forall id :: id in c.record.painters ==> id in c.record.seen
    ensures var h := Next(c, e).record; forall id :: id in h.painters ==> id in h.seen
  {
  }

  /** Rounds and games neither open nor close sockets. */
  lemma GameKeepsSockets(s: Live, word: string)
    ensures EndGame(s).world.open == EndRound(s).world.open == StartRound(s, word).world.open == s.world.open
  {
  }

  lemma DepartureKeepsSockets(s: Live, id: PlayerId)
    ensures AfterDeparture(s, id).world.open == s.world.open
  {
  }

  lemma SayKeepsSockets(s: Live, id: PlayerId, text: string)
    ensures HandleChat(s, id, text).world.open == s.world.open
  {
  }

  /** Whose socket is open after an event. */
  lemma {:induction false} OpenAfter(s: Live, e: Event)
    requires Enabled(s, e)
    ensures Step(s, e).world.open == match e
                                     case Join(id, _, _) => if IsFull(s) then s.world.open else s.world.open + {id}
                                     case Leave(id) => s.world.open - {id}
                                     case Drop(id) => s.world.open - {id}
                                     case _ => s.world.open
  {
    match e
    case Leave(id) => DepartureKeepsSockets(Farewell(s, id), id);
    case Say(id, text) => SayKeepsSockets(s, id, text);
    case Start(gameId, order, word) => GameKeepsSockets(Announced(s, gameId, order), word);
    case Alert(t, word) =>
      GameKeepsSockets(s.(world := s.world.(alarms := s.world.alarms - {t})), word);
    case _ =>
  }

  lemma NextKeepsFaithful(c: Tracked, e: Event, p: PlayerId)
    requires Inv(c.live) && May(c, e) && p in c.live.world.open && Faithful(c.live, c.record.painters, p)
    requires (e.Leave? || e.Drop?) ==> p != e.id
    ensures Faithful(Step(c.live, e), Next(c, e).record.painters, p)
  {
    var s, h := c.live, c.record;
    match e
    case Join(id, userId, nickname) =>
      if !IsFull(s) {
        JoinFaithful(s, h.painters, id, userId, nickname, p);
      }
    case Leave(id) => LeaveFaithful(s, h.painters, id, p);
    case Say(id, text) => SayFaithful(s, h.painters, id, text, p);
    case Paint(id, stroke) => PaintFaithful(s, h, id, stroke, p);
    case Wipe(id) => WipeFaithful(s, h, id, p);
    case Start(gameId, order, word) => StartFaithful(s, h, gameId, order, word, p);
    case Alert(t, word) => AlertFaithful(s, h, t, word, p);
    case Tick(now) =>
    case Drop(id) =>
  }

  /**
   * In every run, every client with an open socket shows the server's players in order, phase, rounds and drawer;
   * during a round, the drawer's nickname and the length of the word; the server's scores once a message carried
   * them; the word exactly if its player draws; and, unless a stroke or clear of its player arrived in the latest
   * round, the server's picture.
   */
  lemma {:induction false} ClientsMirrorTheServer(id: RoomId, now: int, es: seq<Event>)
    requires Run(Opening(id, now), es)
    ensures AllFaithful(After(Opening(id, now), es))
    decreases |es|
  {
    if es != [] {
      var n := |es| - 1;
      var c := After(Opening(id, now), es[..n]);
      RunsStayGood(id, now, es[..n]);
      ClientsMirrorTheServer(id, now, es[..n]);
      NextKeepsCanvas(c, es[n]);
      PaintersAreKnown(c, es[n]);
      OpenAfter(c.live, es[n]);
      forall p | p in Next(c, es[n]).live.world.open
        ensures Faithful(Next(c, es[n]).live, Next(c, es[n]).record.painters, p) {
        if p in c.live.world.open {
          NextKeepsFaithful(c, es[n], p);
        } else {
          NewcomerFaithful(c.live, c.record.painters, es[n].id, es[n].userId, es[n].nickname);
        }
      }
    }
  }

  /** The players of the view are those of the room: same order, ids and names, and if told the same points. */
  predicate ShowsPlayers(cards: seq<Card>, players: seq<Player>, told: bool) {
    && |cards| == |players|
    && forall i :: 0 <= i < |players| ==>
         && cards[i].id == players[i].id && cards[i].nickname == players[i].nickname
         && (told ==> cards[i].score == players[i].score)
  }

  lemma NamesAreShown(cards: seq<Card>, players: seq<Player>, told: bool)
    requires Names(cards) == Names(Cards(players)) && (told ==> cards == Cards(players))
    ensures ShowsPlayers(cards, players, told)
  {
    forall i | 0 <= i < |players|
      ensures cards[i].id == players[i].id && cards[i].nickname == players[i].nickname {
      assert |Names(cards)| == |Names(Cards(players))|;
      assert Names(cards)[i] == Names(Cards(players))[i];
    }
  }

  /** What every connected client shows in every run, field by field. */
  lemma {:induction false} ClientsShowTheRoom(id: RoomId, now: int, es: seq<Event>, p: PlayerId)
    requires Run(Opening(id, now), es) && p in After(Opening(id, now), es).live.world.open
    ensures var c := After(Opening(id, now), es);
            var r, v := c.live.room, Shown(c.live, p);
            && ShowsPlayers(v.players, r.players, ScoresTold(c.live.world.mail))
            && v.phase == r.phase && v.round == r.round && v.totalRounds == r.totalRounds && v.drawerId == r.drawerId
            && (r.phase == Playing && r.drawerId.Some? ==>
                  && v.wordLength == (if r.word.Some? then Some(|r.word.value|) else None)
                  && forall i :: 0 <= i < |r.players| && r.players[i].id == r.drawerId.value ==>
                       v.drawerNickname == Some(r.players[i].nickname))
            && (r.phase == Playing ==> v.word == if r.drawerId == Some(p) then r.word else None)
            && (p !in c.record.painters ==> r.strokes <= v.strokes && (|r.strokes| < 3000 ==> v.strokes == r.strokes))
  {
    ClientsMirrorTheServer(id, now, es);
    var c := After(Opening(id, now), es);
    assert Faithful(c.live, c.record.painters, p);
    NamesAreShown(Shown(c.live, p).players, c.live.room.players, ScoresTold(c.live.world.mail));
  }

  // ---------------------------------------------------------------- where the mirror is late

  lemma StartRoundShowsNoScores(s: Live, word: string, p: PlayerId)
    requires p in s.world.open && p in Ids(s.room.players)
    requires s.room.drawerQueue != [] && s.room.drawerQueue[0] in Ids(s.room.players)
    ensures Shown(StartRound(s, word), p).players == Shown(s, p).players
    ensures StartRound(s, word).room.players == s.room.players
  {
    var c := ClearRoundTimer(s);
    var q := c.room.drawerQueue;
    var next := c.(room := c.room.(drawerQueue := q[1..]));
    var drawer := Find(c.room.players, q[0]).value;
    BeginRoundShown(next, drawer, word, p);
    assert StartRound(s, word) == BeginRound(next, drawer, word);
  }

  lemma ScoresAtRestart(s: Live, gameId: GameId, order: seq<PlayerId>, word: string, p: PlayerId)
    requires GameMayStart(s, order) && p in s.world.open && p in Ids(s.room.players)
    ensures var t := StartGame(s, gameId, order, word);
            Shown(t, p).players == Shown(s, p).players && t.room.players == ZeroScores(s.room.players)
  {
    FirstDrawerIsPresent(s, gameId, order);
    AnnouncementShown(s, gameId, order, p);
    StartRoundShowsNoScores(Announced(s, gameId, order), word, p);
  }

  /**
   * A game start resets the scores without sending them. A client that showed the right scores still does after
   * the start if and only if nobody had any points.
   */
  lemma RestartShowsOldScores(s: Live, gameId: GameId, order: seq<PlayerId>, word: string, p: PlayerId)
    requires GameMayStart(s, order) && p in s.world.open && p in Ids(s.room.players)
    requires Shown(s, p).players == Cards(s.room.players)
    ensures var t := StartGame(s, gameId, order, word);
            Shown(t, p).players == Cards(t.room.players)
            <==> forall i :: 0 <= i < |s.room.players| ==> s.room.players[i].score == 0
  {
    ScoresAtRestart(s, gameId, order, word, p);
    var ps := s.room.players;
    var zero := ZeroScores(ps);
    assert forall i :: 0 <= i < |ps| ==> Cards(ps)[i].score == ps[i].score && Cards(zero)[i].score == 0;
    if forall i :: 0 <= i < |ps| ==> ps[i].score == 0 {
      assert zero == ps;
    }
  }
}
