/**
 * Who hosts a room: the room records in Redis as matchmaking (apps/matchmaking/src/index.ts) and the game-session
 * shards (occupancy.ts) write them, with expiry. Each command is atomic; so are "check the record, then open the
 * room" and "drop the room, then delete the record".
 */
module Shards {
  import opened Basics
  import opened Protocol

  const PROJECTION_TTL_MS := 60000
  const ROOM_CODE_ATTEMPTS := 5

  type ShardId = nat
  type AssignId = nat

  /** The fields capacity and playerCount, which are always written together. */
  datatype Size = Size(capacity: nat, playerCount: nat)

  /** The hash room:{code} and its time to live. `life` numbers the lives of keys: a new one each time a key appears. */
  datatype Rec = Rec(shard: Option<ShardId>, size: Option<Size>, expires: int, life: nat)

  /** An /assign request that won a code, and the life of the key it won it in. */
  datatype Claim = Claim(request: AssignId, code: RoomId, life: nat)

  datatype Cluster = Cluster(
    now: int,
    records: map<RoomId, Rec>,
    joinable: set<RoomId>,
    hosting: set<(ShardId, RoomId)>,   // rooms in the shards' memory
    claims: set<Claim>,
    nextLife: nat)

  const VOID := Cluster(0, map[], {}, {}, {}, 0)

  // ---------------------------------------------------------------- Redis

  predicate Alive(c: Cluster, code: RoomId) {
    code in c.records && c.records[code].expires > c.now
  }

  /** The hash a write works on: the live one, or a new empty one without a shard. */
  function Touched(c: Cluster, code: RoomId): Rec {
    if Alive(c, code) then c.records[code] else Rec(None, None, c.now + PROJECTION_TTL_MS, c.nextLife)
  }

  function Put(c: Cluster, code: RoomId, r: Rec): Cluster {
    c.(records := c.records[code := r], nextLife := if Alive(c, code) then c.nextLife else c.nextLife + 1)
  }

  /** HSETNX shard, EXPIRE NX: wins only if the hash has no shard, and does not prolong a living key. */
  predicate Wins(c: Cluster, code: RoomId) {
    Touched(c, code).shard.None?
  }

  function Claimed(c: Cluster, request: AssignId, code: RoomId, shard: ShardId): Cluster {
    var r := Touched(c, code);
    Put(c, code, r.(shard := Some(shard))).(claims := c.claims + {Claim(request, code, r.life)})
  }

  /** The second pipeline of /assign: HSET capacity and playerCount, EXPIRE. It may come late. */
  function Reserved(c: Cluster, code: RoomId): Cluster {
    Put(c, code, Touched(c, code).(size := Some(Size(DEFAULT_ROOM_CAPACITY, 0)), expires := c.now + PROJECTION_TTL_MS))
  }

  /** syncOccupancy: HSET of the whole projection, EXPIRE, and the joinable index. */
  function Synced(c: Cluster, shard: ShardId, code: RoomId, players: nat): Cluster {
    Put(c, code, Touched(c, code).(shard := Some(shard), size := Some(Size(DEFAULT_ROOM_CAPACITY, players)),
                                   expires := c.now + PROJECTION_TTL_MS))
      .(joinable := if players >= DEFAULT_ROOM_CAPACITY then c.joinable - {code} else c.joinable + {code})
  }

  // ---------------------------------------------------------------- what the services do

  datatype Action =
    | Assign(request: AssignId, code: RoomId, shard: ShardId)     // one attempt of claimRoomCode that wins
    | Reserve(code: RoomId)
    | Open(shard: ShardId, code: RoomId)                     // the first join, checked by isRoomAssignedHere
    | Sync(shard: ShardId, code: RoomId, players: nat)       // a join, a leave, a phase change or the heartbeat
    | Close(shard: ShardId, code: RoomId)                    // the last leave, then DELETE /rooms/:roomId
    | Crash(shard: ShardId)                                  // the process is gone; its records stay until they expire
    | Prune(codes: set<RoomId>)                              // stale members leave the joinable index
    | Pass(now: int)                                         // time passes

  predicate Possible(c: Cluster, a: Action) {
    match a
    case Assign(request, code, _) => Wins(c, code) && forall k :: k in c.claims ==> k.request != request
    case Reserve(_) => true
    case Open(shard, code) => Alive(c, code) && c.records[code].shard == Some(shard)
    case Sync(shard, code, _) => (shard, code) in c.hosting
    case Close(shard, code) => (shard, code) in c.hosting
    case Crash(_) => true
    case Prune(_) => true
    case Pass(now) =>  // a shard refreshes every room it hosts before its record expires
      now >= c.now && forall h :: h in c.hosting && h.1 in c.records ==> c.records[h.1].expires > now
  }

  function Do(c: Cluster, a: Action): Cluster
    requires Possible(c, a)
  {
    match a
    case Assign(request, code, shard) => Claimed(c, request, code, shard)
    case Reserve(code) => Reserved(c, code)
    case Open(shard, code) => Synced(c.(hosting := c.hosting + {(shard, code)}), shard, code, 1)
    case Sync(shard, code, players) => Synced(c, shard, code, players)
    case Close(shard, code) =>
      c.(hosting := c.hosting - {(shard, code)}, records := c.records - {code}, joinable := c.joinable - {code})
    case Crash(shard) => c.(hosting := set h | h in c.hosting && h.0 != shard)
    case Prune(codes) => c.(joinable := c.joinable - codes)
    case Pass(now) => c.(now := now)
  }

  predicate Run(actions: seq<Action>)
    decreases |actions|, 0
  {
    actions != [] ==>
      var n := |actions| - 1;
      Run(actions[..n]) && Possible(After(actions[..n]), actions[n])
  }

  function After(actions: seq<Action>): Cluster
    requires Run(actions)
    decreases |actions|, 1
  {
    if actions == [] then VOID else Do(After(actions[..|actions| - 1]), actions[|actions| - 1])
  }

  // ---------------------------------------------------------------- single owner

  /** The live record of every hosted room names its host. */
  predicate HostsNamed(c: Cluster) {
    forall h :: h in c.hosting ==> Alive(c, h.1) && c.records[h.1].shard == Some(h.0)
  }

  /** Lives are numbered apart, and a code is won at most once in each life of its key. */
  predicate ClaimsUnique(c: Cluster) {
    && (forall code :: code in c.records ==> c.records[code].life < c.nextLife)
    && (forall k :: k in c.claims ==> k.life < c.nextLife)
    && (forall k :: k in c.claims && Alive(c, k.code) && c.records[k.code].life == k.life ==>
          c.records[k.code].shard.Some?)
    && (forall j, k :: j in c.claims && k in c.claims && j.code == k.code && j.life == k.life ==> j == k)
  }

  predicate Sound(c: Cluster) {
    HostsNamed(c) && ClaimsUnique(c)
  }

  lemma DoKeepsHostsNamed(c: Cluster, a: Action)
    requires HostsNamed(c) && Possible(c, a)
    ensures HostsNamed(Do(c, a))
  {
  }

  lemma DoKeepsClaimsUnique(c: Cluster, a: Action)
    requires ClaimsUnique(c) && Possible(c, a)
    ensures ClaimsUnique(Do(c, a))
  {
  }

  lemma {:induction false} RunsAreSound(actions: seq<Action>)
    requires Run(actions)
    ensures Sound(After(actions))
    decreases |actions|
  {
    if actions != [] {
      var n := |actions| - 1;
      RunsAreSound(actions[..n]);
      DoKeepsHostsNamed(After(actions[..n]), actions[n]);
      DoKeepsClaimsUnique(After(actions[..n]), actions[n]);
    }
  }

  /** In every run, the live record of a hosted room names its host, so no room is hosted by two shards. */
  lemma SingleHost(actions: seq<Action>, a: ShardId, b: ShardId, code: RoomId)
    requires Run(actions) && (a, code) in After(actions).hosting
    ensures Alive(After(actions), code) && After(actions).records[code].shard == Some(a)
    ensures (b, code) in After(actions).hosting ==> a == b
  {
    RunsAreSound(actions);
    var h := (a, code);
    assert h in After(actions).hosting;
    var g := (b, code);
    assert g in After(actions).hosting ==> After(actions).records[g.1].shard == Some(g.0);
  }

  /** In every run, no two /assign requests hold the same living code. */
  lemma SingleClaim(actions: seq<Action>, j: Claim, k: Claim)
    requires Run(actions) && j in After(actions).claims && k in After(actions).claims
    requires j.code == k.code && Alive(After(actions), j.code)
    requires j.life == k.life == After(actions).records[j.code].life
    ensures j == k
  {
    RunsAreSound(actions);
  }

  // ---------------------------------------------------------------- what each command leaves

  /** No live record of the code names a shard. */
  predicate Free(c: Cluster, code: RoomId) {
    !(code in c.records && c.records[code].expires > c.now && c.records[code].shard.Some?)
  }

  /** Nothing but the record of that code and its place in the index differs. */
  predicate OnlyRecord(c: Cluster, code: RoomId, q: Cluster) {
    && q.now == c.now && code in q.records && q.records == c.records[code := q.records[code]]
    && q.joinable - {code} == c.joinable - {code}
  }

  /** A refresh writes shard, 100 places and the players for another minute; the room is offered unless it is full. */
  predicate Refreshed(c: Cluster, shard: ShardId, code: RoomId, players: nat, q: Cluster) {
    && OnlyRecord(c, code, q) && q.claims == c.claims
    && q.records[code].shard == Some(shard) && q.records[code].size == Some(Size(100, players))
    && q.records[code].expires == c.now + 60000
    && (code in q.joinable <==> players < 100)
  }

  /** What opening and refreshing a room leave behind. */
  lemma SyncPublishes(c: Cluster, shard: ShardId, code: RoomId, players: nat)
    ensures Possible(c, Sync(shard, code, players)) ==>
              var q := Do(c, Sync(shard, code, players));
              Refreshed(c, shard, code, players, q) && q.hosting == c.hosting
    ensures Possible(c, Open(shard, code)) ==>
              var q := Do(c, Open(shard, code));
              Refreshed(c, shard, code, 1, q) && q.hosting == c.hosting + {(shard, code)}
  {
  }

  /** A room that is closed is hosted no more, and neither its record nor an offer is left. */
  lemma CloseForgets(c: Cluster, shard: ShardId, code: RoomId)
    requires Possible(c, Close(shard, code))
    ensures var q := Do(c, Close(shard, code));
            && q.hosting == c.hosting - {(shard, code)}
            && code !in q.records && q.records.Keys == c.records.Keys - {code}
            && code !in q.joinable && q.joinable == c.joinable - {code}
            && forall other :: other in q.records ==> q.records[other] == c.records[other]
  {
  }

  /**
   * A code can be won exactly if it is free. The winner's shard is written, once for a life of the key; a key that is
   * alive does not live longer for it, a new one lives a minute; and the code is not offered.
   */
  lemma ClaimTakes(c: Cluster, request: AssignId, code: RoomId, shard: ShardId)
    ensures Wins(c, code) <==> Free(c, code)
    ensures Possible(c, Assign(request, code, shard)) ==>
              var q := Do(c, Assign(request, code, shard));
              && OnlyRecord(c, code, q) && q.joinable == c.joinable && q.hosting == c.hosting
              && q.records[code].shard == Some(shard) && !Free(q, code)
              && (if Alive(c, code) then q.records[code].expires == c.records[code].expires
                  else q.records[code].expires == c.now + 60000)
              && q.claims == c.claims + {Claim(request, code, q.records[code].life)}
  {
  }

  /** The reservation that follows a claim: room for 100, nobody there, one minute; whose it is does not change. */
  lemma ReserveRefreshes(c: Cluster, code: RoomId)
    ensures var q := Do(c, Reserve(code));
            && OnlyRecord(c, code, q) && q.joinable == c.joinable && q.hosting == c.hosting && q.claims == c.claims
            && q.records[code].size == Some(Size(100, 0)) && q.records[code].expires == c.now + 60000
            && q.records[code].shard == if Alive(c, code) then c.records[code].shard else None
  {
  }

  // ---------------------------------------------------------------- matchmaking's loops

  datatype RoomSummary = RoomSummary(code: RoomId, shard: ShardId, size: Option<Size>)

  /** `Number(hash.playerCount) >= Number(hash.capacity)`, which is false while the fields are missing. */
  predicate Full(r: Rec) {
    r.size.Some? && r.size.value.playerCount >= r.size.value.capacity
  }

  /** A candidate worth offering: its record lives, names a shard, and is not full. */
  predicate Offerable(c: Cluster, code: RoomId) {
    Alive(c, code) && c.records[code].shard.Some? && !Full(c.records[code])
  }

  function SummaryOf(c: Cluster, code: RoomId): RoomSummary
    requires Offerable(c, code)
  {
    var r := c.records[code];
    RoomSummary(code, r.shard.value, r.size)
  }

  /** The code is the first of the list that can be won. */
  predicate FirstFree(c: Cluster, codes: seq<RoomId>, code: RoomId) {
    exists i :: 0 <= i < |codes| && codes[i] == code && Free(c, code) && forall k :: 0 <= k < i ==> !Free(c, codes[k])
  }

  /** The offerable candidates in their order, each with the data of its record. */
  function Offers(c: Cluster, candidates: seq<RoomId>): seq<RoomSummary> {
    if candidates == [] then []
    else
      var n := |candidates| - 1;
      Offers(c, candidates[..n]) + if Offerable(c, candidates[n]) then [SummaryOf(c, candidates[n])] else []
  }

  /** The candidates that are not worth offering. */
  function Stale(c: Cluster, candidates: seq<RoomId>): set<RoomId> {
    set code | code in candidates && !Offerable(c, code)
  }

  /** A candidate leaves the index exactly if nothing could be offered for it. */
  lemma StaleAreUnbacked(c: Cluster, candidates: seq<RoomId>, code: RoomId)
    ensures code in Stale(c, candidates)
            <==> code in candidates && forall s: RoomSummary :: s.code == code ==> !Backs(c, s)
  {
    if Offerable(c, code) {
      assert Backs(c, SummaryOf(c, code));
    }
  }

  lemma OffersSnoc(c: Cluster, candidates: seq<RoomId>, code: RoomId)
    ensures Offers(c, candidates + [code])
            == Offers(c, candidates) + if Offerable(c, code) then [SummaryOf(c, code)] else []
    ensures Stale(c, candidates + [code]) == Stale(c, candidates) + if Offerable(c, code) then {} else {code}
  {
    assert (candidates + [code])[..|candidates|] == candidates;
  }

  /** The record lives, names the shard and the size of the offer, and is not known to be full. */
  predicate Backs(c: Cluster, s: RoomSummary) {
    && s.code in c.records && c.records[s.code].expires > c.now
    && c.records[s.code].shard == Some(s.shard) && c.records[s.code].size == s.size
    && (s.size.Some? ==> s.size.value.playerCount < s.size.value.capacity)
  }

  /** A room is offered exactly if it is a candidate and its record backs the offer. */
  lemma {:induction false} OffersAreLive(c: Cluster, candidates: seq<RoomId>, s: RoomSummary)
    ensures s in Offers(c, candidates) <==> s.code in candidates && Backs(c, s)
  {
    if candidates != [] {
      var n := |candidates| - 1;
      assert candidates == candidates[..n] + [candidates[n]];
      OffersAreLive(c, candidates[..n], s);
    }
  }

  /** One game-session process and the projection it keeps in Redis (occupancy.ts). */
  class Shard {
    const id: ShardId
    var cluster: Cluster

    constructor (id: ShardId, cluster: Cluster)
      ensures this.id == id && this.cluster == cluster
    {
      this.id, this.cluster := id, cluster;
    }

    /** syncOccupancy, command by command: one Sync step. */
    method SyncOccupancy(code: RoomId, players: nat)
      requires Possible(cluster, Sync(id, code, players))
      modifies this
      ensures cluster == Do(old(cluster), Sync(id, code, players))
    {
      var projection := Touched(cluster, code).(shard := Some(id), size := Some(Size(DEFAULT_ROOM_CAPACITY, players)));
      cluster := Put(cluster, code, projection);
      var expires := cluster.now + PROJECTION_TTL_MS;
      cluster := cluster.(records := cluster.records[code := cluster.records[code].(expires := expires)]);
      if players >= DEFAULT_ROOM_CAPACITY {
        cluster := cluster.(joinable := cluster.joinable - {code});
      } else {
        cluster := cluster.(joinable := cluster.joinable + {code});
      }
    }

    /** isRoomAssignedHere: exactly the codes this shard may open. */
    method IsRoomAssignedHere(code: RoomId) returns (here: bool)
      ensures here <==> code in cluster.records && cluster.records[code].expires > cluster.now
                        && cluster.records[code].shard == Some(id)
      ensures here <==> Possible(cluster, Open(id, code))
    {
      var hash := Touched(cluster, code);
      here := hash.shard == Some(id);
    }
  }

  class Matchmaking {
    var cluster: Cluster

    constructor ()
      ensures cluster == VOID
    {
      cluster := VOID;
    }

    /** claimRoomCode: up to five random codes; the first free one is claimed, in one step of the protocol. */
    method ClaimRoomCode(request: AssignId, shard: ShardId, codes: seq<RoomId>) returns (won: Option<RoomId>)
      requires |codes| == ROOM_CODE_ATTEMPTS
      requires forall k :: k in cluster.claims ==> k.request != request
      modifies this
      ensures won.Some? ==> FirstFree(old(cluster), codes, won.value)
                            && Possible(old(cluster), Assign(request, won.value, shard))
                            && cluster == Do(old(cluster), Assign(request, won.value, shard))
      ensures won.None? ==> cluster == old(cluster) && forall code :: code in codes ==> !Free(old(cluster), code)
    {
      for attempt := 0 to ROOM_CODE_ATTEMPTS
        invariant cluster == old(cluster)
        invariant forall i :: 0 <= i < attempt ==> !Free(old(cluster), codes[i])
      {
        var code := codes[attempt];
        var hash := Touched(cluster, code);
        if hash.shard.None? {
          cluster := Claimed(cluster, request, code, shard);
          return Some(code);
        }
      }
      won := None;
    }

    /**
     * readJoinableRooms: the offers among the candidates, in order; the other candidates leave the index, and nothing
     * else changes.
     */
    method ReadJoinableRooms(candidates: seq<RoomId>) returns (alive: seq<RoomSummary>)
      modifies this
      ensures alive == Offers(old(cluster), candidates)
      ensures cluster == old(cluster).(joinable := old(cluster).joinable - Stale(old(cluster), candidates))
    {
      alive := [];
      var stale: set<RoomId> := {};
      for i := 0 to |candidates|
        invariant cluster == old(cluster)
        invariant alive == Offers(cluster, candidates[..i]) && stale == Stale(cluster, candidates[..i])
      {
        var code := candidates[i];
        assert candidates[..i + 1] == candidates[..i] + [code];
        OffersSnoc(cluster, candidates[..i], code);
        if !Alive(cluster, code) || cluster.records[code].shard.None? {
          stale := stale + {code};
        } else if Full(cluster.records[code]) {
          stale := stale + {code};
        } else {
          alive := alive + [RoomSummary(code, cluster.records[code].shard.value, cluster.records[code].size)];
        }
      }
      assert candidates[..|candidates|] == candidates;
      cluster := cluster.(joinable := cluster.joinable - stale);
    }
  }
}
