/**
 * The way of a result from the queue to the tables: at-least-once delivery by RabbitMQ, the worker's ack rules
 * (results-worker/src/index.ts, deliver and handleMessage) and the service behind it. Workers may crash, requests
 * and replies may be lost or late, and a request may be served after the worker stopped waiting for it.
 */
module Delivery {
  import opened Basics
  import opened Protocol
  import opened Tables

  // ---------------------------------------------------------------- the worker's rules

  /** What comes back for one HTTP request: nothing, or a status and (for 2xx) the body's `saved`. */
  datatype Reply = NoReply | Http(status: nat, saved: bool)

  datatype Outcome = Saved | Duplicate | Rejected | Unavailable

  /** deliver: the reply as an outcome. */
  function OutcomeOf(reply: Reply): Outcome {
    match reply
    case NoReply => Unavailable
    case Http(status, saved) =>
      if 200 <= status < 300 then (if saved then Saved else Duplicate)
      else if 400 <= status < 500 && status != 404 then Rejected
      else Unavailable
  }

  /** handleMessage: every outcome but `unavailable` acks; that one requeues. */
  predicate Acks(outcome: Outcome) {
    outcome != Unavailable
  }

  // ---------------------------------------------------------------- the pipeline

  type Tag = nat

  datatype Pipe = Pipe(
    queue: multiset<GameResult>,
    unacked: map<Tag, GameResult>,        // deliveries a worker holds
    requests: set<(Tag, GameResult)>,     // POSTs that may still be served
    replies: set<(Tag, Reply)>,           // answers that may still arrive
    nextTag: Tag,
    store: Store,
    arrived: set<GameResult>,             // everything that ever reached the queue
    served: seq<GameResult>,              // the saves committed, in order
    acked: set<GameResult>)               // everything a worker acked

  const IDLE := Pipe(multiset{}, map[], {}, {}, 0, EMPTY, {}, [], {})

  datatype Action =
    | Publish(event: GameResult)
    | Deliver(event: GameResult)                    // broker to worker, which sends the POST
    | Serve(tag: Tag, event: GameResult)            // the service handles a POST and commits
    | Break(tag: Tag, event: GameResult, status: nat) // it fails or an old version answers: nothing is stored
    | LoseRequest(tag: Tag, event: GameResult)
    | LoseReply(tag: Tag, reply: Reply)
    | Settle(tag: Tag, reply: Reply)                // the worker sees the reply and acks or requeues
    | GiveUp(tag: Tag)                              // timeout, crash or lost ack: the broker takes the message back

  /** What a service that did not handle the event may answer: 404 before it is deployed, 5xx while it is broken. */
  predicate Failing(status: nat) {
    status < 200 || 300 <= status < 400 || status == 404 || 500 <= status
  }

  predicate Possible(p: Pipe, a: Action) {
    match a
    case Publish(e) => forall other :: other in p.arrived && other.gameId == e.gameId ==> other == e
    case Deliver(e) => e in p.queue
    case Serve(tag, e) => (tag, e) in p.requests
    case Break(tag, e, status) => (tag, e) in p.requests && Failing(status)
    case LoseRequest(tag, e) => (tag, e) in p.requests
    case LoseReply(tag, r) => (tag, r) in p.replies
    case Settle(tag, r) => (tag, r) in p.replies && tag in p.unacked
    case GiveUp(tag) => tag in p.unacked
  }

  function Requeue(p: Pipe, tag: Tag): Pipe
    requires tag in p.unacked
  {
    p.(queue := p.queue + multiset{p.unacked[tag]}, unacked := p.unacked - {tag})
  }

  function Do(p: Pipe, a: Action): Pipe
    requires Possible(p, a)
  {
    match a
    case Publish(e) => p.(queue := p.queue + multiset{e}, arrived := p.arrived + {e})
    case Deliver(e) =>
      p.(queue := p.queue - multiset{e}, unacked := p.unacked[p.nextTag := e],
         requests := p.requests + {(p.nextTag, e)}, nextTag := p.nextTag + 1)
    case Serve(tag, e) =>
      if !Acceptable(e) then p.(requests := p.requests - {(tag, e)}, replies := p.replies + {(tag, Http(400, false))})
      else
        var (store, saved) := Save(p.store, e);
        p.(requests := p.requests - {(tag, e)}, replies := p.replies + {(tag, Http(200, saved))},
           store := store, served := p.served + [e])
    case Break(tag, e, status) =>
      p.(requests := p.requests - {(tag, e)}, replies := p.replies + {(tag, Http(status, false))})
    case LoseRequest(tag, e) => p.(requests := p.requests - {(tag, e)})
    case LoseReply(tag, r) => p.(replies := p.replies - {(tag, r)})
    case Settle(tag, r) =>
      var heard := p.(replies := p.replies - {(tag, r)});
      if Acks(OutcomeOf(r)) then heard.(unacked := heard.unacked - {tag}, acked := heard.acked + {p.unacked[tag]})
      else Requeue(heard, tag)
    case GiveUp(tag) => Requeue(p, tag)
  }

  predicate Run(actions: seq<Action>)
    decreases |actions|, 0
  {
    actions != [] ==>
      var n := |actions| - 1;
      Run(actions[..n]) && Possible(After(actions[..n]), actions[n])
  }

  function After(actions: seq<Action>): Pipe
    requires Run(actions)
    decreases |actions|, 1
  {
    if actions == [] then IDLE else Do(After(actions[..|actions| - 1]), actions[|actions| - 1])
  }

  // ---------------------------------------------------------------- what holds throughout

  /** The event is stored: its game row and exactly its player rows. */
  predicate Recorded(t: Store, e: GameResult) {
    && e.gameId in t.games && t.games[e.gameId] == GameRowOf(e)
    && RowsFor(t.rows, e.gameId) == RowsOf(e)
  }

  predicate OneContent(events: set<GameResult>) {
    forall d, e :: d in events && e in events && d.gameId == e.gameId ==> d == e
  }

  predicate Waiting(p: Pipe, e: GameResult) {
    e in p.queue || e in p.unacked.Values
  }

  /** Everything in the pipeline came from the queue, and tags are never reused. */
  predicate Sources(p: Pipe) {
    && OneContent(p.arrived)
    && (forall e :: e in p.queue ==> e in p.arrived)
    && (forall tag :: tag in p.unacked ==> p.unacked[tag] in p.arrived && tag < p.nextTag)
    && (forall r :: r in p.requests ==> r.1 in p.arrived && r.0 < p.nextTag
                                        && (r.0 in p.unacked ==> p.unacked[r.0] == r.1))
    && (forall r :: r in p.replies ==> r.0 < p.nextTag)
    && (forall e :: e in p.served ==> e in p.arrived)
    && (forall e :: e in p.acked ==> e in p.arrived)
  }

  /** Nothing acceptable is lost: it waits or it is stored; and what was acked is stored. */
  predicate NothingLost(p: Pipe) {
    && (forall e :: e in p.arrived && Acceptable(e) ==> Waiting(p, e) || Recorded(p.store, e))
    && (forall e :: e in p.acked && Acceptable(e) ==> Recorded(p.store, e))
  }

  /** A reply that lets the worker ack tells the truth about the delivery it answers. */
  predicate HonestReply(p: Pipe, tag: Tag, reply: Reply) {
    tag in p.unacked && Acks(OutcomeOf(reply)) ==>
      if OutcomeOf(reply) == Rejected then !Acceptable(p.unacked[tag]) else Recorded(p.store, p.unacked[tag])
  }

  predicate RepliesHonest(p: Pipe) {
    forall r :: r in p.replies ==> HonestReply(p, r.0, r.1)
  }

  /** Each stored game is recorded from one of these events. */
  ghost predicate AllFrom(t: Store, served: seq<GameResult>) {
    forall g :: g in t.games ==> exists e :: e in served && e.gameId == g && Recorded(t, e)
  }

  /** The tables are what the committed saves make of them, and each stored game is one of those that arrived. */
  ghost predicate StoreGrown(store: Store, served: seq<GameResult>) {
    store == SaveAll(served) && Consistent(store) && AllFrom(store, served) && forall e :: e in served ==> Acceptable(e)
  }

  ghost predicate Sound(p: Pipe) {
    Sources(p) && NothingLost(p) && RepliesHonest(p) && StoreGrown(p.store, p.served)
  }

  lemma SaveAllSnoc(es: seq<GameResult>, e: GameResult)
    ensures SaveAll(es + [e]) == Save(SaveAll(es), e).0
  {
    assert (es + [e])[..|es|] == es;
  }

  lemma SaveRecords(t: Store, e: GameResult)
    requires Consistent(t) && (e.gameId in t.games ==> Recorded(t, e))
    ensures Recorded(Save(t, e).0, e)
  {
    SaveAddsOneGame(t, e, e.gameId);
    if e.gameId !in t.games {
      SaveAppends(t, e);
    }
  }

  lemma SaveKeepsRecorded(t: Store, e: GameResult, other: GameResult)
    requires Consistent(t) && Recorded(t, other)
    ensures Recorded(Save(t, e).0, other)
  {
    SaveAddsOneGame(t, e, other.gameId);
    if e.gameId !in t.games {
      SaveAppends(t, e);
    }
  }

  lemma SaveGames(t: Store, e: GameResult)
    requires Consistent(t)
    ensures Save(t, e).0.games.Keys == t.games.Keys + {e.gameId}
  {
    if e.gameId !in t.games {
      SaveAppends(t, e);
    }
  }

  /** A stored game was stored from the one event of that id. */
  lemma StoredFromItsEvent(p: Pipe, e: GameResult)
    requires Sources(p) && StoreGrown(p.store, p.served) && e in p.arrived && e.gameId in p.store.games
    ensures Recorded(p.store, e)
  {
    var d :| d in p.served && d.gameId == e.gameId && Recorded(p.store, d);
    assert d in p.arrived && d == e;
  }

  lemma SaveGrows(t: Store, served: seq<GameResult>, e: GameResult)
    requires Consistent(t) && AllFrom(t, served) && Recorded(Save(t, e).0, e)
    requires forall d :: Recorded(t, d) ==> Recorded(Save(t, e).0, d)
    ensures AllFrom(Save(t, e).0, served + [e])
  {
    var r := Save(t, e).0;
    SaveGames(t, e);
    forall g | g in r.games ensures exists d :: d in served + [e] && d.gameId == g && Recorded(r, d) {
      if g in t.games {
        var d :| d in served && d.gameId == g && Recorded(t, d);
        assert d in served + [e];
      } else {
        assert e in served + [e];
      }
    }
  }

  /** A save, whether first or repeated, stores its result and disturbs no other. */
  lemma SaveKeepsGrown(store: Store, served: seq<GameResult>, e: GameResult)
    requires StoreGrown(store, served) && Acceptable(e) && (e.gameId in store.games ==> Recorded(store, e))
    ensures var r := Save(store, e).0;
            && StoreGrown(r, served + [e]) && Recorded(r, e)
            && forall d :: Recorded(store, d) ==> Recorded(r, d)
  {
    var r := Save(store, e).0;
    SaveRecords(store, e);
    forall d | Recorded(store, d) ensures Recorded(r, d) {
      SaveKeepsRecorded(store, e, d);
    }
    SaveGrows(store, served, e);
    SaveKeepsConsistent(store, e);
    SaveAllSnoc(served, e);
  }

  lemma ServeKeepsSources(p: Pipe, tag: Tag, e: GameResult)
    requires Sources(p) && (tag, e) in p.requests
    ensures Sources(Do(p, Serve(tag, e)))
  {
    var q := Do(p, Serve(tag, e));
    assert (tag, e).1 in p.arrived && (tag, e).0 < p.nextTag;
    assert q.queue == p.queue && q.unacked == p.unacked && q.arrived == p.arrived && q.acked == p.acked;
    assert forall r :: r in q.requests ==> r in p.requests;
    assert forall d :: d in q.served ==> d in p.served || d == e;
  }

  lemma ServeAnswersHonestly(p: Pipe, tag: Tag, e: GameResult)
    requires Sources(p) && RepliesHonest(p) && (tag, e) in p.requests
    requires Acceptable(e) ==> Recorded(Do(p, Serve(tag, e)).store, e)
    requires forall d :: Recorded(p.store, d) ==> Recorded(Do(p, Serve(tag, e)).store, d)
    ensures RepliesHonest(Do(p, Serve(tag, e)))
  {
    var q := Do(p, Serve(tag, e));
    assert q.unacked == p.unacked;
    assert tag in p.unacked ==> p.unacked[(tag, e).0] == (tag, e).1;
    forall r | r in q.replies ensures HonestReply(q, r.0, r.1) {
      if r in p.replies {
        assert HonestReply(p, r.0, r.1);
      }
    }
  }

  lemma {:induction false} ServeKeepsSound(p: Pipe, tag: Tag, e: GameResult)
    requires Sound(p) && Possible(p, Serve(tag, e))
    ensures Sound(Do(p, Serve(tag, e)))
  {
    if Acceptable(e) {
      if e.gameId in p.store.games {
        StoredFromItsEvent(p, e);
      }
      SaveKeepsGrown(p.store, p.served, e);
    }
    ServeKeepsSources(p, tag, e);
    ServeAnswersHonestly(p, tag, e);
  }

  lemma RequeueKeepsSound(p: Pipe, tag: Tag)
    requires Sound(p) && tag in p.unacked
    ensures Sound(Requeue(p, tag))
  {
    var q := Requeue(p, tag);
    forall e | Waiting(p, e) ensures Waiting(q, e) {
      if e in p.unacked.Values && e != p.unacked[tag] {
        var k :| k in p.unacked && p.unacked[k] == e;
        assert q.unacked[k] == e;
      }
    }
    forall r | r in q.replies ensures HonestReply(q, r.0, r.1) {
      assert HonestReply(p, r.0, r.1);
    }
  }

  lemma AckKeepsSound(p: Pipe, tag: Tag)
    requires Sound(p) && tag in p.unacked && (Acceptable(p.unacked[tag]) ==> Recorded(p.store, p.unacked[tag]))
    ensures Sound(p.(unacked := p.unacked - {tag}, acked := p.acked + {p.unacked[tag]}))
  {
    var q := p.(unacked := p.unacked - {tag}, acked := p.acked + {p.unacked[tag]});
    var e := p.unacked[tag];
    forall d | Waiting(p, d) && d != e ensures Waiting(q, d) {
      if d in p.unacked.Values {
        var k :| k in p.unacked && p.unacked[k] == d;
        assert q.unacked[k] == d;
      }
    }
    forall r | r in q.replies ensures HonestReply(q, r.0, r.1) {
      assert HonestReply(p, r.0, r.1);
    }
  }

  lemma HeardKeepsSound(p: Pipe, tag: Tag, reply: Reply)
    requires Sound(p)
    ensures Sound(p.(replies := p.replies - {(tag, reply)}))
  {
    assert forall r :: r in p.replies ==> HonestReply(p, r.0, r.1);
  }

  lemma SettleKeepsSound(p: Pipe, tag: Tag, reply: Reply)
    requires Sound(p) && Possible(p, Settle(tag, reply))
    ensures Sound(Do(p, Settle(tag, reply)))
  {
    var r := (tag, reply);
    assert r in p.replies && HonestReply(p, r.0, r.1);
    var heard := p.(replies := p.replies - {(tag, reply)});
    HeardKeepsSound(p, tag, reply);
    if Acks(OutcomeOf(reply)) {
      AckKeepsSound(heard, tag);
    } else {
      RequeueKeepsSound(heard, tag);
    }
  }

  /** The worker is done with the delivery. */
  predicate Done(p: Pipe, tag: Tag, q: Pipe)
    requires tag in p.unacked
  {
    q.queue == p.queue && q.unacked == p.unacked - {tag} && q.acked == p.acked + {p.unacked[tag]}
  }

  /** The delivery goes back to the queue. */
  predicate Returned(p: Pipe, tag: Tag, q: Pipe)
    requires tag in p.unacked
  {
    q.queue == p.queue + multiset{p.unacked[tag]} && q.unacked == p.unacked - {tag} && q.acked == p.acked
  }

  /**
   * A worker that hears 2xx, or 4xx other than 404, is done with the delivery; whatever else it hears, and if it
   * hears nothing, the delivery goes back to the queue.
   */
  lemma RepliesDecide(p: Pipe, tag: Tag, status: nat, saved: bool)
    requires tag in p.unacked && (tag, Http(status, saved)) in p.replies
    ensures var q := Do(p, Settle(tag, Http(status, saved)));
            if 200 <= status < 300 || (400 <= status < 500 && status != 404) then Done(p, tag, q)
            else Returned(p, tag, q)
    ensures Returned(p, tag, Do(p, GiveUp(tag)))
  {
  }

  /** How the worker reports a delivery it is done with. */
  lemma OutcomesAre(status: nat, saved: bool)
    ensures OutcomeOf(Http(status, saved)) == Saved <==> 200 <= status < 300 && saved
    ensures OutcomeOf(Http(status, saved)) == Duplicate <==> 200 <= status < 300 && !saved
    ensures OutcomeOf(Http(status, saved)) == Rejected <==> 400 <= status < 500 && status != 404
    ensures OutcomeOf(NoReply) == Unavailable
  {
  }

  lemma DeliverKeepsSound(p: Pipe, e: GameResult)
    requires Sound(p) && Possible(p, Deliver(e))
    ensures Sound(Do(p, Deliver(e)))
  {
    var q := Do(p, Deliver(e));
    assert q.unacked[p.nextTag] == e;
    forall d | Waiting(p, d) ensures Waiting(q, d) {
      if d in p.unacked.Values {
        var k :| k in p.unacked && p.unacked[k] == d;
        assert q.unacked[k] == d;
      }
    }
    forall r | r in q.replies ensures HonestReply(q, r.0, r.1) {
      assert HonestReply(p, r.0, r.1);
    }
  }

  lemma PublishKeepsSound(p: Pipe, e: GameResult)
    requires Sound(p) && Possible(p, Publish(e))
    ensures Sound(Do(p, Publish(e)))
  {
    assert forall r :: r in p.replies ==> HonestReply(p, r.0, r.1);
  }

  lemma BreakKeepsSound(p: Pipe, tag: Tag, e: GameResult, status: nat)
    requires Sound(p) && Possible(p, Break(tag, e, status))
    ensures Sound(Do(p, Break(tag, e, status)))
  {
    assert (tag, e).0 < p.nextTag;
    assert forall r :: r in p.replies ==> HonestReply(p, r.0, r.1);
  }

  lemma LossKeepsSound(p: Pipe, tag: Tag, e: GameResult)
    requires Sound(p)
    ensures Sound(p.(requests := p.requests - {(tag, e)}))
  {
    assert forall r :: r in p.replies ==> HonestReply(p, r.0, r.1);
  }

  /** Every action keeps the pipeline sound. */
  lemma DoKeepsSound(p: Pipe, a: Action)
    requires Sound(p) && Possible(p, a)
    ensures Sound(Do(p, a))
  {
    match a
    case Publish(e) => PublishKeepsSound(p, e);
    case Deliver(e) => DeliverKeepsSound(p, e);
    case Serve(tag, e) => ServeKeepsSound(p, tag, e);
    case Break(tag, e, status) => BreakKeepsSound(p, tag, e, status);
    case LoseRequest(tag, e) => LossKeepsSound(p, tag, e);
    case LoseReply(tag, reply) => HeardKeepsSound(p, tag, reply);
    case Settle(tag, reply) => SettleKeepsSound(p, tag, reply);
    case GiveUp(tag) => RequeueKeepsSound(p, tag);
  }

  lemma {:induction false} RunsAreSound(actions: seq<Action>)
    requires Run(actions)
    ensures Sound(After(actions))
    decreases |actions|
  {
    if actions != [] {
      var n := |actions| - 1;
      RunsAreSound(actions[..n]);
      DoKeepsSound(After(actions[..n]), actions[n]);
    }
  }

  /** A recorded result can be read back from the tables as it was sent. */
  lemma RecordedReadsBack(t: Store, e: GameResult)
    requires Recorded(t, e)
    ensures ReadBack(t, e.gameId) == e
  {
    assert ReadBack(t, e.gameId).players == e.players;
  }

  /**
   * In every interleaving, an acceptable result that reached the queue is in the queue, with a worker, or stored;
   * one that was acked is stored, and reads back as it was sent; every stored game reads back as a result that
   * arrived, so it has exactly that result's rows; and the aggregate counts exactly the stored rows.
   */
  lemma {:induction false} ExactlyOnce(actions: seq<Action>)
    requires Run(actions)
    ensures var p := After(actions);
            && (forall e :: e in p.arrived && Acceptable(e) ==>
                  e in p.queue || e in p.unacked.Values || Recorded(p.store, e))
            && (forall e :: e in p.acked && Acceptable(e) ==>
                  e.gameId in p.store.games && ReadBack(p.store, e.gameId) == e)
            && (forall g :: g in p.store.games ==> ReadBack(p.store, g) in p.arrived)
            && Consistent(p.store)
  {
    RunsAreSound(actions);
    var p := After(actions);
    forall e | e in p.acked && Acceptable(e) ensures e.gameId in p.store.games && ReadBack(p.store, e.gameId) == e {
      RecordedReadsBack(p.store, e);
    }
    forall g | g in p.store.games ensures ReadBack(p.store, g) in p.arrived {
      var e :| e in p.served && e.gameId == g && Recorded(p.store, e);
      RecordedReadsBack(p.store, e);
    }
  }

  /** A save says that the game was new if and only if no earlier save was of that game; a repeat changes nothing. */
  lemma {:induction false} FirstSaveIsNew(es: seq<GameResult>, e: GameResult)
    ensures Save(SaveAll(es), e).1 <==> forall d :: d in es ==> d.gameId != e.gameId
    ensures !Save(SaveAll(es), e).1 ==> SaveAll(es + [e]) == SaveAll(es)
  {
    SavedGames(es, e.gameId);
    SaveAllSnoc(es, e);
  }

  lemma {:induction false} SavedGames(es: seq<GameResult>, g: GameId)
    ensures g in SaveAll(es).games <==> exists d :: d in es && d.gameId == g
  {
    if es != [] {
      var front, last := es[..|es| - 1], es[|es| - 1];
      assert es == front + [last];
      SavedGames(front, g);
      SaveAllIsConsistent(front);
      SaveGames(SaveAll(front), last);
    }
  }

  // ---------------------------------------------------------------- order does not matter

  function EventsOf(es: seq<GameResult>): set<GameResult> {
    set e | e in es
  }

  predicate AllRecorded(t: Store, es: seq<GameResult>) {
    && (forall e :: e in es ==> Recorded(t, e))
    && (forall g :: g in t.games ==> exists e :: e in es && e.gameId == g)
  }

  lemma SaveRecordsOneMore(t: Store, es: seq<GameResult>, last: GameResult)
    requires Consistent(t) && AllRecorded(t, es)
    requires forall e :: e in es && e.gameId == last.gameId ==> e == last
    ensures AllRecorded(Save(t, last).0, es + [last])
  {
    var r := Save(t, last).0;
    SaveRecords(t, last);
    SaveGames(t, last);
    forall e | e in es + [last] ensures Recorded(r, e) {
      if e in es {
        SaveKeepsRecorded(t, last, e);
      }
    }
    forall g | g in r.games ensures exists e :: e in es + [last] && e.gameId == g {
      if g == last.gameId {
        assert last in es + [last];
      } else {
        var e :| e in es && e.gameId == g;
        assert e in es + [last];
      }
    }
  }

  lemma {:induction false} SaveAllRecords(es: seq<GameResult>)
    requires OneContent(EventsOf(es))
    ensures AllRecorded(SaveAll(es), es)
  {
    if es != [] {
      var n := |es| - 1;
      assert es == es[..n] + [es[n]];
      assert forall e :: e in es ==> e in EventsOf(es);
      assert forall e :: e in EventsOf(es[..n]) ==> e in EventsOf(es);
      SaveAllRecords(es[..n]);
      SaveAllIsConsistent(es[..n]);
      SaveRecordsOneMore(SaveAll(es[..n]), es[..n], es[n]);
    }
  }

  lemma {:induction false} Multiplicity(rows: seq<PlayerRow>, row: PlayerRow)
    ensures multiset(rows)[row] == multiset(RowsFor(rows, row.gameId))[row]
  {
    if rows != [] {
      var n := |rows| - 1;
      Multiplicity(rows[..n], row);
      assert rows == rows[..n] + [rows[n]];
    }
  }

  lemma StoredGames(es: seq<GameResult>, g: GameId)
    requires OneContent(EventsOf(es))
    ensures g in SaveAll(es).games <==> exists e :: e in EventsOf(es) && e.gameId == g
  {
    SaveAllRecords(es);
    if g in SaveAll(es).games {
      var e :| e in es && e.gameId == g;
      assert e in EventsOf(es);
    }
  }

  lemma {:induction false} SameRowsForAGame(es: seq<GameResult>, fs: seq<GameResult>, g: GameId)
    requires OneContent(EventsOf(es)) && EventsOf(es) == EventsOf(fs)
    ensures RowsFor(SaveAll(es).rows, g) == RowsFor(SaveAll(fs).rows, g)
    ensures g in SaveAll(es).games <==> g in SaveAll(fs).games
    ensures g in SaveAll(es).games ==> SaveAll(es).games[g] == SaveAll(fs).games[g]
  {
    StoredGames(es, g);
    StoredGames(fs, g);
    SaveAllRecords(es);
    SaveAllRecords(fs);
    SaveAllIsConsistent(es);
    SaveAllIsConsistent(fs);
    if g in SaveAll(es).games {
      var e :| e in EventsOf(es) && e.gameId == g;
      assert e in es && e in EventsOf(fs);
    } else {
      RowsForUnknownGame(SaveAll(es).rows, SaveAll(es).games, g);
      RowsForUnknownGame(SaveAll(fs).rows, SaveAll(fs).games, g);
    }
  }

  /** Deliveries of the same results, in any order and with any repeats, leave the same games and the same rows. */
  lemma SameGamesAndRows(es: seq<GameResult>, fs: seq<GameResult>)
    requires OneContent(EventsOf(es)) && EventsOf(es) == EventsOf(fs)
    ensures SaveAll(es).games == SaveAll(fs).games
    ensures multiset(SaveAll(es).rows) == multiset(SaveAll(fs).rows)
  {
    forall g ensures g in SaveAll(es).games <==> g in SaveAll(fs).games
      ensures g in SaveAll(es).games ==> SaveAll(es).games[g] == SaveAll(fs).games[g]
    {
      SameRowsForAGame(es, fs, g);
    }
    forall row ensures multiset(SaveAll(es).rows)[row] == multiset(SaveAll(fs).rows)[row] {
      SameRowsForAGame(es, fs, row.gameId);
      Multiplicity(SaveAll(es).rows, row);
      Multiplicity(SaveAll(fs).rows, row);
    }
  }

  lemma {:induction false} TallyWithout(rows: seq<PlayerRow>, k: nat, u: UserId, column: Column)
    requires k < |rows|
    ensures Tally(rows, u, column) == Tally(rows[..k] + rows[k + 1..], u, column)
                                      + if rows[k].userId == Some(u) then Worth(rows[k], column) else 0
  {
    var n := |rows| - 1;
    var rest := rows[..k] + rows[k + 1..];
    if k == n {
      assert rest == rows[..n];
    } else {
      TallyWithout(rows[..n], k, u, column);
      assert rest[..n - 1] == rows[..n][..k] + rows[..n][k + 1..];
    }
  }

  lemma {:induction false} TallyOfPermutation(xs: seq<PlayerRow>, ys: seq<PlayerRow>, u: UserId, column: Column)
    requires multiset(xs) == multiset(ys)
    ensures Tally(xs, u, column) == Tally(ys, u, column)
    decreases |xs|
  {
    if xs == [] {
      assert |multiset(ys)| == 0;
    } else {
      var n := |xs| - 1;
      assert xs == xs[..n] + [xs[n]];
      assert xs[n] in multiset(ys);
      var k :| 0 <= k < |ys| && ys[k] == xs[n];
      RemoveOne(xs, ys, k);
      TallyOfPermutation(xs[..n], ys[..k] + ys[k + 1..], u, column);
      TallyWithout(ys, k, u, column);
    }
  }

  lemma SomewhereElse(xs: seq<PlayerRow>, ys: seq<PlayerRow>, u: UserId, i: int) returns (j: int)
    requires multiset(xs) == multiset(ys) && Plays(xs, i, u)
    ensures Plays(ys, j, u) && ys[j] == xs[i]
  {
    assert xs[i] in multiset(ys);
    j :| 0 <= j < |ys| && ys[j] == xs[i];
  }

  /** The extremes of the same rows in another order are no greater. */
  lemma NoGreaterExtremes(a: Stats, xs: seq<PlayerRow>, b: Stats, ys: seq<PlayerRow>,
                           games: map<GameId, GameRow>, u: UserId)
    requires multiset(xs) == multiset(ys) && Joined(xs, games) && Joined(ys, games)
    requires CountsMatch(a, xs, games, u) && CountsMatch(b, ys, games, u)
    ensures a.bestScore <= b.bestScore && a.lastPlayedAt <= b.lastPlayedAt
  {
    var i :| Plays(xs, i, u) && xs[i].score == a.bestScore;
    var i' := SomewhereElse(xs, ys, u, i);
    var k :| Plays(xs, k, u) && TimeOf(xs, games, k) == a.lastPlayedAt;
    var k' := SomewhereElse(xs, ys, u, k);
    assert TimeOf(ys, games, k') == a.lastPlayedAt;
  }

  lemma SameNickname(a: Stats, xs: seq<PlayerRow>, b: Stats, ys: seq<PlayerRow>, games: map<GameId, GameRow>, u: UserId)
    requires multiset(xs) == multiset(ys) && Joined(xs, games) && Joined(ys, games) && DistinctTimes(xs, games, u)
    requires CountsMatch(a, xs, games, u) && CountsMatch(b, ys, games, u) && a.lastPlayedAt == b.lastPlayedAt
    requires NicknameMatches(a, xs, games, u) && NicknameMatches(b, ys, games, u)
    ensures a.nickname == b.nickname
  {
    var k :| LastArrived(xs, games, k, u) && xs[k].nickname == a.nickname;
    var l :| LastArrived(ys, games, l, u) && ys[l].nickname == b.nickname;
    LatestTime(a.lastPlayedAt, xs, games, k, u);
    LatestTime(b.lastPlayedAt, ys, games, l, u);
    var l' := SomewhereElse(ys, xs, u, l);
    assert TimeOf(xs, games, l') == TimeOf(xs, games, k);
  }

  /**
   * The same results, in any order and with any repeats, leave every member with the same numbers, and with the
   * same nickname if that member's games finished at different times.
   */
  lemma DeliveryOrderIsIrrelevant(es: seq<GameResult>, fs: seq<GameResult>, u: UserId)
    requires OneContent(EventsOf(es)) && EventsOf(es) == EventsOf(fs)
    requires u in SaveAll(es).stats
    ensures Joined(SaveAll(es).rows, SaveAll(es).games)
    ensures u in SaveAll(fs).stats
    ensures SaveAll(fs).stats[u].(nickname := SaveAll(es).stats[u].nickname) == SaveAll(es).stats[u]
    ensures DistinctTimes(SaveAll(es).rows, SaveAll(es).games, u) ==> SaveAll(fs).stats[u] == SaveAll(es).stats[u]
  {
    var s, t := SaveAll(es), SaveAll(fs);
    SaveAllIsConsistent(es);
    SaveAllIsConsistent(fs);
    SameGamesAndRows(es, fs);
    var a := s.stats[u];
    var i :| Plays(s.rows, i, u) && s.rows[i].score == a.bestScore;
    var i' := SomewhereElse(s.rows, t.rows, u, i);
    var b := t.stats[u];
    TallyOfPermutation(s.rows, t.rows, u, Count);
    TallyOfPermutation(s.rows, t.rows, u, Wins);
    TallyOfPermutation(s.rows, t.rows, u, Points);
    NoGreaterExtremes(a, s.rows, b, t.rows, s.games, u);
    NoGreaterExtremes(b, t.rows, a, s.rows, s.games, u);
    if DistinctTimes(s.rows, s.games, u) {
      SameNickname(a, s.rows, b, t.rows, s.games, u);
    }
  }

  /**
   * When finish times tie, the incremental nickname depends on the order of arrival and need not be the rebuilt one:
   * if game 1 is stored after game 2 its nickname stays, while the GROUP BY takes the nickname of game 2.
   */
  lemma TiedTimesMayDisagree()
    ensures var first := GameResult(1, "ROOM", 0, 2, [ResultPlayer(7, Some(5), "first", 10, 1)]);
            var second := GameResult(2, "ROOM", 0, 2, [ResultPlayer(8, Some(5), "second", 10, 1)]);
            var t := SaveAll([second, first]);
            && Acceptable(first) && Acceptable(second)
            && Joined(t.rows, t.games) && 5 in t.stats && t.stats[5].nickname == "first"
            && forall st :: Rebuilt(st, t.rows, t.games, 5) ==> st.nickname == "second"
  {
    var first := GameResult(1, "ROOM", 0, 2, [ResultPlayer(7, Some(5), "first", 10, 1)]);
    var second := GameResult(2, "ROOM", 0, 2, [ResultPlayer(8, Some(5), "second", 10, 1)]);
    var row1, row2 := PlayerRow(1, 7, Some(5), "first", 10, 1), PlayerRow(2, 8, Some(5), "second", 10, 1);
    SaveAllSnoc([], second);
    SaveAllSnoc([second], first);
    assert [] + [second] == [second] && [second] + [first] == [second, first];
    SaveOfOne(EMPTY, second, row2);
    SaveOfOne(SaveAll([second]), first, row1);
    var t := SaveAll([second, first]);
    assert t.rows == [] + [row2] + [row1] == [row2, row1];
    SaveAllIsConsistent([second, first]);
    assert Plays([row2, row1], 0, 5) && TimeOf(t.rows, t.games, 0) == 0 == TimeOf(t.rows, t.games, 1);
    assert forall i :: Plays([row2, row1], i, 5) ==> i == 0 || i == 1;
  }

  lemma SaveOfOne(t: Store, e: GameResult, row: PlayerRow)
    requires e.gameId !in t.games && |e.players| == 1 && row == RowOf(e, e.players[0])
    ensures Save(t, e).0 == AddRow(t.(games := t.games[e.gameId := GameRowOf(e)]), row, e.finishedAt)
  {
    var rows := RowsOf(e);
    var t' := t.(games := t.games[e.gameId := GameRowOf(e)]);
    assert rows[|rows| - 1] == row && rows[..|rows| - 1] == [];
    assert AddRows(t', rows[..|rows| - 1], e.finishedAt) == t';
  }
}
