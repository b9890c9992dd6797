/** From the room to the tables: what a room publishes is what the pipeline expects. */
module EndToEnd {
  import opened Basics
  import opened Protocol
  import Game
  import History
  import Accounting
  import Tables
  import Delivery

  function Publications(results: seq<GameResult>): (actions: seq<Delivery.Action>)
    ensures |actions| == |results|
  {
    seq(|results|, i requires 0 <= i < |results| => Delivery.Publish(results[i]))
  }

  lemma PublishOneMore(actions: seq<Delivery.Action>, e: GameResult)
    requires Delivery.Run(actions)
    requires forall other :: other in Delivery.After(actions).arrived ==> other.gameId != e.gameId
    ensures Delivery.Run(actions + [Delivery.Publish(e)])
    ensures Delivery.After(actions + [Delivery.Publish(e)]).arrived == Delivery.After(actions).arrived + {e}
  {
    assert (actions + [Delivery.Publish(e)])[..|actions|] == actions;
  }

  lemma OneMore(front: seq<GameResult>, last: GameResult)
    ensures Publications(front + [last]) == Publications(front) + [Delivery.Publish(last)]
    ensures Delivery.EventsOf(front + [last]) == Delivery.EventsOf(front) + {last}
  {
  }

  lemma LastGameIsOther(front: seq<GameResult>, last: GameResult)
    requires Distinct(History.GamesOf(front + [last]))
    ensures Distinct(History.GamesOf(front))
    ensures forall other :: other in Delivery.EventsOf(front) ==> other.gameId != last.gameId
  {
    var ids := History.GamesOf(front + [last]);
    assert forall i :: 0 <= i < |front| ==> History.GamesOf(front)[i] == ids[i];
    forall other | other in Delivery.EventsOf(front) ensures other.gameId != last.gameId {
      var i :| 0 <= i < |front| && front[i] == other;
      assert ids[i] != ids[|front|];
    }
  }

  /** Results of distinct games may all be published, and all of them have then arrived. */
  lemma {:induction false} DistinctGamesMayPublish(results: seq<GameResult>)
    requires Distinct(History.GamesOf(results))
    ensures Delivery.Run(Publications(results))
    ensures Delivery.After(Publications(results)).arrived == Delivery.EventsOf(results)
  {
    if results != [] {
      var front, last := results[..|results| - 1], results[|results| - 1];
      Unsnoc(results);
      LastGameIsOther(front, last);
      DistinctGamesMayPublish(front);
      PublishOneMore(Publications(front), last);
      OneMore(front, last);
    }
  }

  /**
   * Whatever a room's run published, and however the pipeline interleaves it with everything else: each result
   * waits or is stored, none is ever rejected, and an acked one reads back from the tables as the room sent it.
   */
  lemma {:induction false} ResultsReachTheTables(id: RoomId, now: int, es: seq<Game.Event>,
                                                 actions: seq<Delivery.Action>)
    requires History.Run(History.Opening(id, now), es) && Delivery.Run(actions)
    requires forall i :: 0 <= i < |History.After(History.Opening(id, now), es).live.world.published| ==>
               Delivery.Publish(History.After(History.Opening(id, now), es).live.world.published[i]) in actions
    ensures var results := History.After(History.Opening(id, now), es).live.world.published;
            var p := Delivery.After(actions);
            forall i :: 0 <= i < |results| ==>
              && Acceptable(results[i])
              && (results[i] in p.queue || results[i] in p.unacked.Values || Delivery.Recorded(p.store, results[i]))
              && (results[i] in p.acked ==> results[i].gameId in p.store.games
                                            && Tables.ReadBack(p.store, results[i].gameId) == results[i])
  {
    Accounting.OneResultPerGame(id, now, es);
    Delivery.ExactlyOnce(actions);
    var results := History.After(History.Opening(id, now), es).live.world.published;
    forall i | 0 <= i < |results| ensures results[i] in Delivery.After(actions).arrived {
      PublishedArrives(actions, results[i]);
    }
  }

  lemma ActionKeepsArrived(p: Delivery.Pipe, a: Delivery.Action)
    requires Delivery.Possible(p, a)
    ensures p.arrived <= Delivery.Do(p, a).arrived
    ensures a.Publish? ==> a.event in Delivery.Do(p, a).arrived
  {
  }

  lemma LastAction(actions: seq<Delivery.Action>)
    requires Delivery.Run(actions) && actions != []
    ensures var front, last := actions[..|actions| - 1], actions[|actions| - 1];
            && Delivery.Run(front) && Delivery.Possible(Delivery.After(front), last)
            && Delivery.After(actions) == Delivery.Do(Delivery.After(front), last)
  {
  }

  lemma {:induction false} PublishedArrives(actions: seq<Delivery.Action>, e: GameResult)
    requires Delivery.Run(actions) && Delivery.Publish(e) in actions
    ensures e in Delivery.After(actions).arrived
    decreases |actions|
  {
    var front, last := actions[..|actions| - 1], actions[|actions| - 1];
    LastAction(actions);
    Unsnoc(actions);
    ActionKeepsArrived(Delivery.After(front), last);
    if last != Delivery.Publish(e) {
      PublishedArrives(front, e);
    }
  }
}
