/** Who a player is: the account and the name it joined with, in every run, until it leaves. */
module Identity {
  import opened Basics
  import opened Protocol
  import opened Game
  import opened RoomInvariant
  import opened History
  import opened Accounting
  import opened Rules

  datatype Bearer = Bearer(userId: Option<UserId>, nickname: string)

  /** As whom the player last asked for a seat. */
  function JoinedAs(es: seq<Event>, id: PlayerId): Option<Bearer> {
    if es == [] then None
    else
      var n := |es| - 1;
      if es[n].Join? && es[n].id == id then Some(Bearer(es[n].userId, es[n].nickname)) else JoinedAs(es[..n], id)
  }

  /** Everyone present is who they joined as. */
  predicate AllBear(players: seq<Player>, es: seq<Event>) {
    forall i :: 0 <= i < |players| ==>
      JoinedAs(es, players[i].id) == Some(Bearer(players[i].userId, players[i].nickname))
  }

  /** That person is among the players, with whatever score. */
  predicate Sits(players: seq<Player>, p: Player) {
    exists k :: 0 <= k < |players| && SamePerson(players[k], p)
  }

  predicate SamePerson(p: Player, q: Player) {
    p.id == q.id && p.userId == q.userId && p.nickname == q.nickname
  }

  lemma OneOut(players: seq<Player>, k: nat, rest: seq<Player>, i: nat)
    requires k < |players| && rest == players[..k] + players[k + 1..] && i < |rest|
    ensures Sits(players, rest[i])
  {
    assert SamePerson(players[if i < k then i else i + 1], rest[i]);
  }

  lemma LeaverGone(s: Live, id: PlayerId, t: Live, i: nat)
    requires Leaves(s, id, t) && i < |t.room.players|
    ensures Sits(s.room.players, t.room.players[i])
  {
    var k :| 0 <= k < |s.room.players| && s.room.players[k].id == id && LeavesSeat(s, k, t);
    OneOut(s.room.players, k, t.room.players, i);
  }

  lemma TalkersStay(s: Live, id: PlayerId, text: string, t: Live, i: nat)
    requires Says(s, id, text, t) && i < |t.room.players|
    ensures Sits(s.room.players, t.room.players[i])
  {
    assert |t.room.players| == |s.room.players| && SamePerson(s.room.players[i], t.room.players[i]);
  }

  lemma NewcomerOnly(s: Live, id: PlayerId, userId: Option<UserId>, nickname: string, t: Live, i: nat)
    requires Joins(s, id, userId, nickname, t) && i < |t.room.players|
    ensures var p := t.room.players[i];
            Sits(s.room.players, p) || (p.id == id && p.userId == userId && p.nickname == nickname)
  {
    if i < |s.room.players| {
      assert SamePerson(s.room.players[i], t.room.players[i]);
    }
  }

  /** Whoever is present after an event was there before as the same person, or has just joined as that person. */
  lemma NobodyChanges(s: Live, e: Event, i: nat)
    requires Inv(s) && Enabled(s, e) && i < |Step(s, e).room.players|
    ensures var p := Step(s, e).room.players[i]; Sits(s.room.players, p) || e == Join(p.id, p.userId, p.nickname)
  {
    var t := Step(s, e);
    RulesHold(s, e);
    match e
    case Join(id, userId, nickname) => NewcomerOnly(s, id, userId, nickname, t, i);
    case Leave(id) => LeaverGone(s, id, t, i);
    case Say(id, text) => TalkersStay(s, id, text, t, i);
    case _ => assert i < |s.room.players| ==> SamePerson(s.room.players[i], t.room.players[i]);
  }

  lemma NextBear(s: Live, front: seq<Event>, e: Event)
    requires Inv(s) && Enabled(s, e) && AllBear(s.room.players, front)
    ensures AllBear(Step(s, e).room.players, front + [e])
  {
    var ps := Step(s, e).room.players;
    assert (front + [e])[..|front|] == front;
    forall i | 0 <= i < |ps| ensures JoinedAs(front + [e], ps[i].id) == Some(Bearer(ps[i].userId, ps[i].nickname)) {
      NobodyChanges(s, e, i);
      if Sits(s.room.players, ps[i]) {
        var k :| 0 <= k < |s.room.players| && SamePerson(s.room.players[k], ps[i]);
        assert Ids(s.room.players)[k] == ps[i].id;
      }
    }
  }

  /** In every run, everyone present bears the account and the name given when that player joined. */
  lemma {:induction false} PlayersAreWhoJoined(id: RoomId, now: int, es: seq<Event>)
    requires Run(Opening(id, now), es)
    ensures AllBear(After(Opening(id, now), es).live.room.players, es)
    decreases |es|
  {
    if es != [] {
      var n := |es| - 1;
      RunsStayGood(id, now, es[..n]);
      PlayersAreWhoJoined(id, now, es[..n]);
      NextBear(After(Opening(id, now), es[..n]).live, es[..n], es[n]);
      assert es == es[..n] + [es[n]];
    }
  }
}
