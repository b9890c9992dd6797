/** The browser's message reducer (apps/web/src/features/room/useRoomSocket.ts, the onmessage switch). */
module Client {
  import opened Basics
  import opened Protocol
  import opened Game

  datatype View = View(
    players: seq<Card>,
    phase: Phase,
    round: nat,
    totalRounds: nat,
    drawerId: Option<PlayerId>,
    drawerNickname: Option<string>,
    wordLength: Option<nat>,
    word: Option<string>,
    solvedIds: seq<PlayerId>,
    revealedWord: Option<string>,
    strokes: seq<Stroke>)

  const INITIAL := View([], Waiting, 0, 0, None, None, None, None, [], None, [])

  predicate HasCard(cards: seq<Card>, id: PlayerId) {
    exists i :: 0 <= i < |cards| && cards[i].id == id
  }

  function NicknameOf(cards: seq<Card>, id: Option<PlayerId>): Option<string> {
    if cards == [] then None
    else if id == Some(cards[0].id) then Some(cards[0].nickname)
    else NicknameOf(cards[1..], id)
  }

  /** `prev.filter((p) => p.id !== id)` */
  function DropCard(cards: seq<Card>, id: PlayerId): seq<Card> {
    if cards == [] then []
    else
      var n := |cards| - 1;
      DropCard(cards[..n], id) + (if cards[n].id == id then [] else [cards[n]])
  }

  function Apply(v: View, m: Message): View {
    match m
    case Snapshot(_, players, _, phase, round, totalRounds, drawerId, _, wordLength, strokes) =>
      View(players, phase, round, totalRounds, drawerId, NicknameOf(players, drawerId), wordLength, None, [],
           None, strokes)
    case PlayerJoined(player, _) =>
      if HasCard(v.players, player.id) then v else v.(players := v.players + [player])
    case PlayerLeft(id, _, _) => v.(players := DropCard(v.players, id))
    case ChatLine(_, _, _, _) => v
    case System(_, _) => v
    case Draw(stroke) => v.(strokes := v.strokes + [stroke])
    case DrawClear => v.(strokes := [])
    case GameStarted(totalRounds) => v.(phase := Playing, totalRounds := totalRounds, revealedWord := None)
    case RoundStarted(round, totalRounds, drawer, drawerNickname, _, length, word) =>
      v.(phase := Playing, round := round, totalRounds := totalRounds, drawerId := Some(drawer),
         drawerNickname := Some(drawerNickname), wordLength := Some(length), word := word, solvedIds := [],
         revealedWord := None)
    case RoundEnded(_, answer, players) =>
      v.(players := players, drawerId := None, drawerNickname := None, word := None, revealedWord := Some(answer))
    case CorrectAnswer(id, _, players) => v.(players := players, solvedIds := v.solvedIds + [id])
    case GameEnded(players) => v.(players := players, phase := Ended, drawerId := None)
  }

  /** What the client of player p shows after receiving its share of the mail. */
  function ViewOf(mail: seq<Envelope>, p: PlayerId): View {
    if mail == [] then INITIAL
    else
      var n := |mail| - 1;
      var before := ViewOf(mail[..n], p);
      if p in mail[n].to then Apply(before, mail[n].message) else before
  }

  function Shown(s: Live, p: PlayerId): View {
    ViewOf(s.world.mail, p)
  }

  lemma Delivered(mail: seq<Envelope>, envelope: Envelope, p: PlayerId)
    ensures ViewOf(mail + [envelope], p)
            == if p in envelope.to then Apply(ViewOf(mail, p), envelope.message) else ViewOf(mail, p)
  {
    assert (mail + [envelope])[..|mail|] == mail;
  }
}
