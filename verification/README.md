# Gachamind: a verified model

Gachamind is a multiplayer drawing game. A room lives in one game-session process: players join over WebSockets, one of
them draws a word, the others guess it in the chat, timers end rounds, and a finished game is published to a queue. A
worker carries each result to the user service, which stores it and keeps per-member totals; other endpoints page
through a member's games and rank members. Matchmaking hands out room codes and remembers in Redis which shard hosts
which room. The browser keeps its own picture of the room from the messages it receives.

The project models these parts and proves what holds in every run of each of them.

* **One room.** `Game` is the room, the rules and the socket handlers as functions on a state that includes the clock,
  the pending timeouts, the open sockets, the mail sent and the results published. `LiveRoom` is the mutable `Room`
  object with the handlers that change it in place; each method is proved to do what the function of the same name says,
  with the shuffle and the word draw left free, and each that handles a whole event keeps a valid room valid. Runs are
  arbitrary sequences of joins, leaves, chat lines, strokes, clears, starts, timeouts, clock ticks and dying sockets.
  `Rules` says in the words of the game, as relations with the numbers written out, what each event does to the players,
  the round, the timeout and the mail; every handler follows these rules and they leave no choice. `History` adds an
  observer that remembers what the room forgets; `RoomInvariant`, `Accounting`, `Identity`, `Standings`, `Timing` and
  `Chat` prove properties of all runs.
* **The clients.** `Client` is the message reducer of the web app and `Replica` proves that folding a client's share of
  the mail gives the server's state. `Echo` adds the drawer's own client, which shows what it draws at once while the
  strokes are still on their way. `Answers` is what the page shows of solvers and of the word. `Restart` is one complete
  run after which a start leaves a client wrong.
* **Joining.** `Server` is the process with all its connections and rooms. A join suspends twice, and anything may
  happen meanwhile. Every room in it is proved to have come about by a run of a new room, so all that is proved of runs
  holds of it. `Admission` says which joins get a seat, under whose name, and to whom rooms send. `Session` is the same
  process made of objects: a `RoomManager`, the `Room` objects it holds, and the
  connection states, with one method for each stretch between two awaits and for each message.
* **The result pipeline.** `Tables` is the idempotent save with its incremental totals and the aggregate they must
  equal. `Delivery` is at-least-once delivery with crashes, timeouts, lost and late requests and replies. `EndToEnd`
  joins it to the rooms.
* **Reading.** `Paging` and `Cursor` are keyset pagination and its cursor text, and `Listing` joins them to the stored
  rows; `Leaderboard` has the two rank queries.
* **Shards.** `Shards` is the ownership of room codes through expiring Redis records.

`Basics`, `Text`, `Words`, `Ranking` and `Protocol` hold what the others share.

Some statements are exact rather than simply positive, because the plain property does not hold of the code:

* A game start resets the scores without sending them. A client that was right before shows the right scores
  afterwards if and only if nobody had points (`Replica.RestartShowsOldScores`; `Restart.RestartGoesStale` gives a run
  that ends in such a start).
* Following the cursors gives the whole listing if and only if no page ends between two rows of the same game
  (`Paging.FollowGivesAll`). Two rows of one game arise when one account plays it over two connections
  (`Paging.TiedLinesAreSkipped`).
* The rank in the leaderboard list and the rank of one member agree if and only if no better totals row lacks an
  account (`Leaderboard.RanksAgree`, `Leaderboard.OrphanShiftsRank`); they differ by exactly the number of such rows.
* The nickname kept by the incremental totals is that of the last row to arrive among a member's latest, so it equals
  the rebuilt one if and only if that row bears it (`Tables.IncrementalEqualsRebuild`,
  `Delivery.TiedTimesMayDisagree`). With distinct finish times it always does.

A comment in `saveGameResult` says that the nickname follows the most recent game even when events come out of order;
the code does that only when the finish times differ, and the model follows the code.

Assumptions: identifiers made with `randomUUID` are fresh; the clock does not run backwards; client messages have
their declared types. In `Timing` timeouts fire when due. In `Delivery` the service answers with a 4xx status other than
404 only to an event it does not accept: `deliver` drops an event on such a status, so one sent by anything in between
would lose it. In `Shards` Redis is reachable, "check the record, then open the
room" and "drop the room, then delete the record" are single steps, and a shard refreshes its records before they
expire.

## Model

| member | source | states |
|---|---|---|
| Rules.RulesHold | apps/game-session/src/game.ts:34-224 | every event, from every state that meets the room invariant, does what the rules say: who sits where with how many points, who draws what until when, which timeout is pending, and every message with its receivers; a right answer pays 10 + 90 parts of the time left to the solver and 10 to the drawer, a round lasts 60 s, a break 4 s, a game at most ten planned rounds |
| Rules.RulesDecide | apps/game-session/src/game.ts:34-224 | the rules are complete: two outcomes of one event that both follow them are the same room with the same timeout, sockets and mail |
| Rules.RoundStopsForAReason | apps/game-session/src/game.ts:91-224 | a round stops exactly when its 60 s are over, its drawer leaves, fewer than two players are left or everyone else has solved it; until then drawer, word, deadline, number and timeout stay as they are |
| RoomInvariant.StepKeepsInv | apps/game-session/src/game.ts:34-113 | every event, from any state that meets it, restores the room invariant: a game in progress has two players, an id and exactly one pending timeout, its own; a round has drawer, word, deadline and 60 s timeout together and an unsolved guesser; outside a game nothing is pending or set; the queue is duplicate-free, of present players, without the drawer |
| RoomInvariant.LeaveSettles | apps/game-session/src/game.ts:207-224 | the three-way branch after a departure (too few players, drawer gone, nobody left to guess) restores the room invariant |
| RoomInvariant.AlertSettles | apps/game-session/src/game.ts:105-112 | a timeout that is due can only fire during a game, and its callback restores the room invariant |
| RoomInvariant.SolveSettles | apps/game-session/src/game.ts:180-198 | a right answer, even the last one, restores the room invariant |
| Rules.SolveWins | apps/game-session/src/game.ts:180-198 | a right answer pays solver and drawer and nobody else, is told to everyone connected, and ends the round if and only if everyone but the drawer has now solved it |
| RoomInvariant.JoinSettles | apps/game-session/src/index.ts:107-153 | a join during any phase keeps the room invariant, capacity included |
| RoomInvariant.ChatCases | apps/game-session/src/game.ts:173-204 | in every reachable state a chat line either is the right answer of a guesser in a running round, and scores, or changes nothing but the mail |
| Accounting.RunsStayGood | apps/game-session/src/game.ts:34-224 | in every run of a new room the room invariant holds and all books balance |
| Accounting.NextKeepsBooks | apps/game-session/src/game.ts:173-224 | each event alone keeps scores, rounds, fairness of payments and the list of published games in balance |
| Accounting.ScoresAreConserved | apps/game-session/src/game.ts:180-187 | in every run the scores of the present players plus those taken away by leavers equal the sum over the right answers of 10 + the rounded 90 * remaining / 60000 for the solver and 10 for the drawer |
| Accounting.ScoresAreEarned | apps/game-session/src/game.ts:180-187 | in every run each present player holds exactly what they earned: 10 + the rounded 90 * remaining / 60000 for each of their own right answers, and 10 for each right answer in a round they drew |
| Accounting.SolverGainRounds | apps/game-session/src/game.ts:183-184 | the code's gain is 10 plus the whole number nearest to 90 * remaining / 60000, halves up; it lies between 10 and 100 and is never less for answering earlier |
| Accounting.GuessersArePaidFairly | apps/game-session/src/game.ts:176-187 | in every run nobody is paid as guesser twice in a round or in the round they draw, and each payment is between 10 and 100 |
| Accounting.RoundsAreAccountedFor | apps/game-session/src/game.ts:44-66 | in every run of a game rounds begun + queue length + departures from the queue = planned rounds + joins, one round is planned per player at the start and ten at most, and nobody draws twice |
| Accounting.OneResultPerGame | apps/game-session/src/game.ts:138-166 | in every run the published results are exactly the finished games, each once and in order, and the receiver accepts each |
| Accounting.NoRoundIdles | apps/game-session/src/game.ts:196-223 | in every run a round always has someone left to guess, and a game always has exactly one pending timeout |
| Standings.ResultsTellTheGame | apps/game-session/src/game.ts:143-165 | in every run whatever is published ends the running game and is true of it: id, time, number of rounds drawn, exactly the players present with their ranks, each with the account and name given when that player joined, and points that add up to what the right answers were worth |
| Standings.ResultsRankPlayers | apps/game-session/src/game.ts:116-136 | the result lines are the players, best first, each ranked one behind the number of strictly better lines |
| Standings.TiesKeepOrder | apps/game-session/src/game.ts:118-118 | players with equal points are listed in the order in which they joined |
| Identity.PlayersAreWhoJoined | apps/game-session/src/index.ts:114-119 | in every run everyone present has the account and the name of the join that seated them |
| Identity.NobodyChanges | apps/game-session/src/room.ts:58-66 | whoever is present after an event was there before with the same account and name, or has just joined with them |
| Standings.StepPublishes | apps/game-session/src/game.ts:138-166 | no event publishes except by ending the running game |
| Standings.EveryoneDraws | apps/game-session/src/game.ts:46-66 | in every run, when a game of at most ten starting players ends with two or more present, everyone present, newcomers included, has drawn in it, and nobody twice |
| Standings.GamesEndForAReason | apps/game-session/src/game.ts:105-113 | a game ends only with fewer than two players left or with its queue played out |
| ResultTable.ToResultPlayers | apps/game-session/src/game.ts:116-136 | the scan over the sorted players gives every player 1 + the number of strictly higher scores |
| ResultTable.RankSorted | apps/game-session/src/game.ts:120-135 | the running rank and previous score of the scan yield the counted rank at every line |
| ResultTable.PlaceOfGroup | apps/game-session/src/game.ts:124-127 | in a sorted list the index of the first of a tie group is the number of strictly higher scores |
| ResultTable.Shuffle | apps/game-session/src/game.ts:25-32 | the in-place shuffle gives the specified rearrangement for the positions drawn |
| ResultTable.EveryOrderIsDrawn | apps/game-session/src/game.ts:25-32 | every order of the players comes out for some positions that may be drawn |
| ResultTable.OrdersTellDraws | apps/game-session/src/game.ts:25-32 | different positions give different orders, so that each order has exactly one way to come out |
| Ranking.HigherOfPermutation | apps/game-session/src/game.ts:118-127 | the number of higher scores does not depend on the order of the players |
| Timing.GamesAreBounded | apps/game-session/src/game.ts:55-113 | with punctual timeouts a game lasts at most 64 s per planned round and per join during it plus 4 s per departure |
| Timing.EveryGameEnds | apps/game-session/src/game.ts:91-113 | from any good state and along any run, the number of timeouts during a game is at most its measure plus two per join, so every game ends |
| Timing.AlertLowersMeasure | apps/game-session/src/game.ts:105-112 | every timeout that does not end the game strictly lowers (queue length, round active) |
| Timing.StepLowersMeasure | apps/game-session/src/index.ts:122-122 | only a join raises the measure, by at most two |
| Chat.NoRunSpoils | apps/game-session/src/index.ts:160-177 | in every run, no event during a round sends a chat line that contains the word in any spacing or case |
| Chat.ChatNeverSpoils | apps/game-session/src/game.ts:173-204 | one line during a round sends nothing, or itself if no part of it is a spelling of the word |
| Chat.OnlySpoilersAreHeldBack | apps/game-session/src/index.ts:160-177 | a line is sent as it was said, trimmed and cut at 200 characters, if and only if something is left of it and it is not the case that a round is on and some part of it spells the word |
| Text.NormalizeConcat | packages/shared/src/index.ts:272-274 | normalising an answer distributes over concatenation |
| Text.SpellingIsCaught | packages/shared/src/index.ts:272-274 | a text that carries any spelling of the word normalises to one that includes the normalised word |
| Text.CaughtIsSpelt | packages/shared/src/index.ts:272-274 | conversely, a text that normalises to one that includes the normalised word has a part that spells it |
| Text.SpacesDoNotCount | packages/shared/src/index.ts:272-274 | white space anywhere in an answer makes no difference |
| Text.CaseDoesNotCount | packages/shared/src/index.ts:272-274 | neither does a capital for a small letter |
| Text.TheRestCounts | packages/shared/src/index.ts:272-274 | a text without white space and capitals is left as it is |
| Text.TrimTakesBlanks | apps/game-session/src/index.ts:164-164 | trimming takes away all white space at both ends and nothing else |
| Words.CandidatesAre | apps/game-session/src/words.ts:10-14 | any word not used yet may be drawn, no other, and any word once all were used |
| Words.FreshWhileAnyLeft | apps/game-session/src/words.ts:10-14 | until all words were used, the word picked is new |
| Replica.ClientsShowTheRoom | apps/web/src/features/room/useRoomSocket.ts:142-267 | in every run every connected client shows, field by field, the server's players in order with ids, names and, once a message carried them, points; phase, rounds and drawer; in a round the drawer's name, the word's length and, to the drawer alone, the word; and the picture, under the conditions of the next row |
| Replica.ClientsMirrorTheServer | apps/web/src/features/room/useRoomSocket.ts:142-267 | in every run every connected client shows the server's players in order, phase, rounds and drawer, the round's drawer name and word length, the scores once a message carried them, the word exactly if it draws, and the server's strokes as a prefix of its own, equal below 3000, unless a stroke or clear of its player arrived in the latest round |
| Replica.NextKeepsFaithful | apps/web/src/features/room/useRoomSocket.ts:142-267 | the messages one event sends bring a client that mirrored the state before to mirror the state after |
| Replica.NewcomerFaithful | apps/game-session/src/index.ts:128-153 | the snapshot and notices a newcomer receives make its client mirror the server |
| Replica.DropMirrorsEvict | apps/web/src/features/room/useRoomSocket.ts:172-174 | dropping a leaver from a client's list follows the server's list even while the scores differ |
| Replica.ScoresAtRestart | apps/game-session/src/game.ts:41-52 | a start leaves every client's list as it was while the server's scores become zero |
| Replica.RestartShowsOldScores | apps/game-session/src/game.ts:41-49 | a client that showed the right scores still does after a start if and only if nobody had points |
| Answers.AnswersAreShown | apps/web/src/features/room/useRoomSocket.ts:217-259 | while a round is on, a client that stays connected adds exactly the players who solve the word, as they do, and shows the word as soon as the round is over and not before |
| Answers.NewRoundShowsNothing | apps/web/src/features/room/useRoomSocket.ts:217-231 | when a round begins, every connected client shows no solvers and no word |
| Answers.NewcomerShowsNothing | apps/web/src/features/room/useRoomSocket.ts:146-164 | nor does the client of a newcomer |
| Restart.RestartGoesStale | apps/game-session/src/game.ts:41-49 | a run of a new room, with any word that can be drawn and typed, after which a start may happen that leaves a client, right until then, with 100 points where the server holds none |
| Echo.DrawerSeesThePicture | apps/web/src/features/room/useRoomSocket.ts:288-300 | from the beginning of a round, however the drawer draws and clears and whatever else happens, its client shows what it drew since it last cleared, and once all of that has arrived the server's picture is the same, cut off at 3000 strokes |
| Echo.DoKeepsTogether | apps/web/src/features/room/useRoomSocket.ts:288-300 | at every moment the drawer's client shows what the server handled with the strokes and clears under way on top |
| Echo.RoundKeepsStrokes | apps/game-session/src/index.ts:179-198 | while one player draws no event but that player's ink changes the picture |
| LiveRoom.Room.constructor | apps/game-session/src/room.ts:22-56 | a new room is valid and the initial state of the runs |
| LiveRoom.Room.UnsolvedGuesserCount | apps/game-session/src/room.ts:81-88 | the counting loop returns the specified number of unsolved guessers |
| LiveRoom.Room.ClearRoundTimer | apps/game-session/src/room.ts:99-104 | the pending timeout is gone and the field is empty |
| LiveRoom.Room.Broadcast | apps/game-session/src/room.ts:114-122 | one message goes to exactly the players with an open socket other than the excluded one, and nothing else changes |
| LiveRoom.Room.Send | apps/game-session/src/room.ts:106-112 | one message goes to that player if present with an open socket, and nothing else changes |
| LiveRoom.Room.StartGame | apps/game-session/src/game.ts:34-53 | keeps a valid room valid, and is the start of the runs for some permutation of the players and some candidate word |
| LiveRoom.Room.StartRound | apps/game-session/src/game.ts:55-89 | refines the round start for some candidate word |
| LiveRoom.Room.EndRound | apps/game-session/src/game.ts:91-113 | refines the round end, including the early return and the empty room |
| LiveRoom.Room.EndGame | apps/game-session/src/game.ts:138-166 | refines the game end with the ranked result published after the messages |
| LiveRoom.Room.HandleGuess | apps/game-session/src/game.ts:173-204 | refines the guess: new state and whether the line is hidden |
| LiveRoom.Room.Score | apps/game-session/src/game.ts:181-187 | refines the scoring: solver and drawer paid in place, the solver marked |
| LiveRoom.Room.HandlePlayerLeftDuringGame | apps/game-session/src/game.ts:207-224 | refines the departure branches |
| LiveRoom.Room.OnTimeout | apps/game-session/src/game.ts:88-112 | a due timeout keeps a valid room valid; both callbacks refine their step of the runs |
| LiveRoom.Room.CommitJoin | apps/game-session/src/index.ts:107-153 | a newcomer keeps a valid room valid; refines the end of a join: full room, seat, queue place, snapshot, notices in order |
| LiveRoom.Room.HandleClose | apps/game-session/src/index.ts:234-251 | the departure of a present player keeps a valid room valid; refines seat given up, others told, game settled |
| LiveRoom.Room.HandleChat | apps/game-session/src/index.ts:160-177 | any line keeps a valid room valid; refines a chat line: trimmed, cut, checked, broadcast or hidden |
| LiveRoom.Room.HandleDraw | apps/game-session/src/index.ts:179-192 | any stroke keeps a valid room valid; only the drawer's is taken, sanitised, buffered up to the limit, relayed |
| LiveRoom.Room.HandleDrawClear | apps/game-session/src/index.ts:194-198 | a clear keeps a valid room valid, and only the drawer's is taken |
| LiveRoom.RoomManager.GetOrCreate | apps/game-session/src/room.ts:132-140 | returns the room of that code, a new empty one only if there was none |
| LiveRoom.RoomManager.RemoveIfEmpty | apps/game-session/src/room.ts:147-156 | removes the room exactly if it is empty, with its timeout cleared, and can touch no other room object |
| Server.JoinsInterleaveSafely | apps/game-session/src/index.ts:70-158 | in every interleaving of joins, replies, closes and play a player is in a room exactly if its connection joined and was not closed, no two connections share a player, every room kept has between one and 100 players and meets the room invariant, and no timeout is pending for a removed room |
| Server.RoomsAreRuns | apps/game-session/src/index.ts:70-260 | in every interleaving every room of the process has come about by a run of a new room, with its books in balance and its clients mirroring it |
| Admission.JoinIsAnswered | apps/game-session/src/index.ts:80-119 | a join that goes on gets a seat at the end of its room, with no points and as whoever it is, if and only if its socket is open and its room is here or assigned here and has fewer than 100 players; otherwise no room changes, and a join that was refused loses its socket |
| Admission.JoinsOnlyOnce | apps/game-session/src/index.ts:75-76 | a join message counts only if none is under way and none succeeded |
| Admission.SeatsBearIdentities | apps/game-session/src/index.ts:80-119 | in every interleaving everyone in a room has the account and name that were found for the connection whose seat it is |
| Admission.OpenConnectionsHear | apps/game-session/src/room.ts:106-122 | in every interleaving each room sends to exactly those of its players whose connection is open |
| Server.DoKeepsSound | apps/game-session/src/index.ts:70-260 | each action alone keeps every connection and room sound |
| Server.SeatTaken | apps/game-session/src/index.ts:107-119 | a join that resumes after its awaits finds a full room and changes nothing but its own connection, or adds one player that nobody else owns to that room and nothing else |
| Server.Departed | apps/game-session/src/index.ts:234-260 | a close takes its own player from its room and nothing else, and removes the room exactly with its last player |
| Session.GameSession.OnJoin | apps/game-session/src/index.ts:70-80 | on shared room objects the handler up to the first await keeps the process valid, is one action of the protocol, and touches no room |
| Session.GameSession.OnIdentity | apps/game-session/src/index.ts:80-93 | the handler between the awaits keeps the process valid, is one action of the protocol, and can touch no room object but the one of its code |
| Session.GameSession.OnAssignment | apps/game-session/src/index.ts:93-158 | the handler after the second await keeps the process valid, is one action of the protocol, uses the object someone else opened meanwhile, and leaves every other object in place and unchanged |
| Session.GameSession.OnClose | apps/game-session/src/index.ts:234-260 | the close handler keeps the process valid, is one action of the protocol, and can change or remove no room object but its own |
| Session.GameSession.OnSocketDies | apps/game-session/src/room.ts:106-122 | a socket that stops being open changes its own room object only, and keeps the process valid |
| Session.GameSession.OnChat | apps/game-session/src/index.ts:218-221 | a chat line is played in its room object and no other, and keeps the process valid |
| Session.GameSession.OnDraw | apps/game-session/src/index.ts:222-224 | likewise a stroke |
| Session.GameSession.OnDrawClear | apps/game-session/src/index.ts:225-227 | likewise a clear |
| Session.GameSession.OnStartGame | apps/game-session/src/index.ts:228-230 | likewise a start, with a new game id |
| Session.GameSession.OnTimeout | apps/game-session/src/game.ts:88-112 | likewise a due timeout |
| Session.GameSession.RoomsAreValid | apps/game-session/src/room.ts:129-148 | in a valid process every room object is valid and distinct codes have distinct objects |
| Tables.HistoryService.SaveGameResult | apps/user/src/history/history.service.ts:38-79 | the transaction leaves the tables the specification names, and says whether the game was new |
| Tables.HistoryService.SavePlayer | apps/user/src/history/history.service.ts:50-76 | one player adds one row and, for a member, one game to the totals |
| Tables.SaveKeepsConsistent | apps/user/src/history/history.service.ts:38-79 | a save, new or repeated, keeps each member's totals equal to count, wins, sum, maximum and latest time of that member's rows, and each player count equal to the rows of its game |
| Tables.SaveAllIsConsistent | apps/user/src/history/history.service.ts:38-79 | the same after any sequence of saves |
| Tables.IncrementalEqualsRebuild | apps/user/src/migrations/1789200001000-HistoryLookup.ts:40-55 | the totals kept by the upsert equal what the GROUP BY computes in every number, and in the nickname if and only if the last row to arrive among the latest bears it, which distinct finish times guarantee |
| Tables.NicknameStays | apps/user/src/history/history.service.ts:69-72 | in any order of arrival the kept nickname is that of the last row to arrive among the rows with the latest finish time |
| Delivery.ExactlyOnce | apps/results-worker/src/index.ts:47-112 | in every interleaving an acceptable result that arrived waits, is held by a worker or is stored; an acked one reads back from the tables as sent; every stored game is one that arrived; and the totals count the stored rows |
| Delivery.RepliesDecide | apps/results-worker/src/index.ts:60-111 | a worker that hears 2xx, or 4xx other than 404, is done with the message; on anything else, and on nothing, the message goes back to the queue |
| Delivery.FirstSaveIsNew | apps/user/src/history/history.service.ts:38-48 | after any saves, the next one reports a new game if and only if none of them was of that game, and a repeat changes nothing |
| Delivery.SettleKeepsSound | apps/results-worker/src/index.ts:88-111 | acting on a reply, late or not, loses nothing: only a truthful reply acks |
| Delivery.SaveKeepsGrown | apps/user/src/history/history.service.ts:38-79 | a save, whether first or repeated, stores its result and disturbs no other |
| Delivery.RecordedReadsBack | apps/user/src/history/history.service.ts:40-55 | the rows of a stored game hold the whole event |
| Delivery.SameGamesAndRows | apps/user/src/history/history.service.ts:40-55 | deliveries of the same results in any order and with any repeats leave the same games and the same rows |
| Delivery.DeliveryOrderIsIrrelevant | apps/user/src/history/history.service.ts:47-75 | and the same totals for every member, the nickname too when the finish times are distinct |
| Delivery.TiedTimesMayDisagree | apps/user/src/history/history.service.ts:70-71 | two acceptable results with one finish time, saved in one order, leave a nickname that the rebuild would not |
| EndToEnd.ResultsReachTheTables | apps/user/src/history/dto/game-finished.dto.ts:23-65 | whatever a room's run published is accepted, never lost, and once acked reads back as published |
| EndToEnd.DistinctGamesMayPublish | apps/game-session/src/game.ts:157-164 | a room's results meet what the pipeline expects of publishers |
| Paging.FollowGivesAll | apps/user/src/history/history.service.ts:95-134 | following the cursors gives the rest of the listing in order if and only if no page ends between two rows of one key |
| Paging.FollowingEnds | apps/user/src/history/history.service.ts:123-133 | following the cursors reaches a last page after at most one page more than there are rows |
| Listing.MemberSeesTheirResults | apps/user/src/history/history.service.ts:38-150 | whatever results were saved, in any order and with any repeats: a member who played each over one connection and follows the text cursors sees exactly their own part in each (game, room, time, rounds, number of players, score, rank), newest first, none twice, for any page size asked for |
| Listing.MemberSeesAllGames | apps/user/src/history/history.service.ts:95-150 | the same from the stored tables: a line is shown if and only if a row of the member has its game, score and rank, and that game its room, time, rounds and number of players |
| Listing.BadCursorsAreRefused | apps/user/src/history/history.service.ts:100-101 | exactly a cursor that cannot be read gets no answer, and an empty one counts as none |
| Listing.BrowseFollows | apps/user/src/history/history.service.ts:100-133 | following cursors as texts is following the rows they stand for |
| Listing.LinesNewestFirst | apps/user/src/history/history.service.ts:112-119 | the listing of the stored rows is ordered as the query orders it |
| Paging.TiedLinesAreSkipped | apps/user/src/history/history.service.ts:112-133 | with one row a page, the second of two rows of one game is never shown |
| Paging.PagesAreComplete | apps/user/src/history/history.service.ts:95-134 | with one row per game the pages end and are exactly the member's games, newest first |
| Paging.WalkNeverRepeats | apps/user/src/history/history.service.ts:112-133 | with games added between pages the output stays strictly newest first, so nothing repeats |
| Paging.WalkMissesNothing | apps/user/src/history/history.service.ts:112-133 | with games added between pages every row there at the start is shown |
| Paging.NextPageIsShorter | apps/user/src/history/history.service.ts:123-133 | each cursor leaves at least a page less to read |
| Paging.PageLimit | apps/user/src/history/history.service.ts:99-99 | the page size is 20 by default, what was asked for within 1 and 50, and the nearer bound otherwise |
| Cursor.CursorRoundTrips | apps/user/src/history/history.service.ts:141-150 | decoding an encoded cursor gives back its time and game |
| Cursor.CursorsReadAre | apps/user/src/history/history.service.ts:145-150 | a cursor is read if and only if its bytes spell a time that parses, a bar and an id of 36 hexadecimal digits and dashes, perhaps with more behind another bar |
| Cursor.SextetsAreTheBits | apps/user/src/history/history.service.ts:142-142 | four letters stand for the 24 bits of three bytes in their order (section 5 of RFC 4648) |
| Cursor.BytesOfSextets | apps/user/src/history/history.service.ts:142-146 | base64url (section 5 of RFC 4648) decoding undoes encoding for every byte sequence |
| Leaderboard.TopIsTheBest | apps/user/src/history/leaderboard.service.ts:39-51 | the list shows rows of members with an account, each once, more points first and then the smaller id, and leaves such a row out only if it is full, with the number asked for between 1 and 100, and everyone shown is ahead of it |
| Leaderboard.RanksDifferByOrphans | apps/user/src/history/leaderboard.service.ts:39-70 | for every listed member and any limit, the counted rank exceeds the listed one by the number of better rows without an account |
| Leaderboard.RanksAgree | apps/user/src/history/leaderboard.service.ts:39-70 | the two ranks agree if and only if no row without an account is better |
| Leaderboard.OrphanShiftsRank | apps/user/src/history/leaderboard.service.ts:39-70 | one better row without an account makes a member first in the list and second when asked alone |
| Leaderboard.WindowRankCounts | apps/user/src/history/leaderboard.service.ts:42-46 | the window rank is 1 + the number of strictly higher rows in the listing |
| Shards.SingleHost | apps/game-session/src/occupancy.ts:26-98 | in every run the live record of a hosted room names its host, so no room is hosted by two shards |
| Shards.SingleClaim | apps/matchmaking/src/index.ts:161-216 | in every run no two requests that created a room hold the same living code |
| Shards.DoKeepsClaimsUnique | apps/matchmaking/src/index.ts:161-176 | each command alone keeps a code won at most once in each life of its key |
| Shards.Matchmaking.ClaimRoomCode | apps/matchmaking/src/index.ts:161-176 | claims the first of the five codes that is free, in one protocol step, or none was free and nothing changed |
| Shards.Matchmaking.ReadJoinableRooms | apps/matchmaking/src/index.ts:100-142 | returns the offers among the candidates in order and takes exactly the other candidates out of the index |
| Shards.OffersAreLive | apps/matchmaking/src/index.ts:111-134 | an offer is made exactly for a candidate whose record has not expired, names its shard and size, and is not known to be full |
| Shards.StaleAreUnbacked | apps/matchmaking/src/index.ts:116-136 | a candidate leaves the index exactly if no offer could be made for it |
| Shards.SyncPublishes | apps/game-session/src/occupancy.ts:26-49 | opening or refreshing a room writes its shard, 100 places, its players and one more minute, offers it if and only if it has fewer than 100 players, and touches no other record |
| Shards.CloseForgets | apps/matchmaking/src/index.ts:242-247 | closing a room leaves no host, no record and no offer of it, and everything else as it was |
| Shards.ClaimTakes | apps/matchmaking/src/index.ts:161-176 | a code can be won if and only if no live record of it names a shard; winning writes the shard, gives a new key one minute, does not prolong a live one, and offers nothing |
| Shards.ReserveRefreshes | apps/matchmaking/src/index.ts:204-212 | the reservation after a claim writes 100 places, nobody there and one minute, and does not change whose room it is |
| Shards.Shard.SyncOccupancy | apps/game-session/src/occupancy.ts:26-49 | the pipeline of commands is one refresh step of the protocol |
| Shards.Shard.IsRoomAssignedHere | apps/game-session/src/occupancy.ts:89-98 | true exactly for the codes this shard may open |

## Left out

- NormalizeConcat: case folding covers ASCII letters, one character each; in the full folding of Unicode a final sigma depends on what follows it, so the law holds there only for texts without one. String lengths count characters, not UTF-16 units.
- SpellingIsCaught: the same folding; the words themselves are Hangul, which has no case.
- SolverGainRounds: the speed bonus is rounded half up on exact integers; floating point is not modelled.
- Player objects: the players of a room are values in a sequence, so that two references to one player are not modelled.
- Clocks: in `Server` every room has its own clock; relations between the clocks of different rooms are not used.
- ClientsShowTheRoom: the deadline, the feed and the connection status of the page are not compared.
- ClientsMirrorTheServer: the same; clients whose own strokes or clears arrived in the latest round are excluded, whether the server took them or not; so is, by the nature of the fold, ink still on its way. DrawerSeesThePicture covers the drawer's client within a round.
- DrawerSeesThePicture: strokes the server would cut or clamp are excluded, and so is ink that arrives after the round is over.
- Input handling: malformed client messages, nickname trimming, room-code normalisation and generation, and the checks of identifier and date shapes in the result event.
- Publishing: a result counts as published when handed to the publisher; what the publisher does while the broker is down is not part of this model.
- Messages the worker cannot parse or does not know, which it acks and drops; only results are ever in the queue here.
- SingleHost: "check the record, then open the room" and "drop the room, then delete the record" are single steps here, while the code awaits Redis in between; an expiry or a new claim within that window is not modelled.
- IsRoomAssignedHere: the path that lets a join pass while Redis is unreachable is not modelled.
- TopIsTheBest: of the columns of an entry only rank, member and the one sorted by are modelled, and of `rankOf` only the rank of a member who has a row.
- EveryOrderIsDrawn: no probabilities; that positions are drawn evenly is left to `Math.random`.
- RulesHold: the names of timeouts, and published results, which ResultsTellTheGame covers.
- Shards: the address and load records of shards, the order in which `pickShardForNewRoom` prefers them, matching into an existing room, and the phase field of a record.
- The sorting and cutting of the room list, `getStats`, account and session handling, and the connection counts.
- Storage: column widths, `created_at` and `updated_at`, and SQL text; a transaction is one atomic step.
- CursorsReadAre: characters beyond ASCII in a decoded cursor are not decoded from UTF-8.
- CursorRoundTrips: `Date.parse` is a parameter, and the order of times and ids is that of numbers; `=` padding is skipped like any other foreign character.
- MemberSeesAllGames: writing and reading of times and ids are parameters that undo each other; a text that looks like an id without being a uuid is an error of the database and not modelled.
- GamesAreBounded: the bound needs punctual timeouts; timeouts that fire late are not bounded.
- RoundsAreAccountedFor: it does not bound `round` by `totalRounds`, because players who join during a game draw too.
- NoRoundIdles: `round-ended` may be sent again in an intermission when a departure leaves nobody unsolved; each such repetition needs a departure, which the 4 s per departure in GamesAreBounded cover.
- The wording of notices, log lines, metrics, scale-in protection, drawing on the canvas, and all transport.
