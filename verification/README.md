# A model of the game server in Dafny

The server has three stages that run as threads: a network IO thread that owns the client sockets, a router that
assigns each socket to one of four game services, and the game services, which keep 20 maps of 10 players each. The
stages are joined by locked FIFO queues, and a producer wakes a sleeping consumer by writing one byte to a socket. This
project models all four kinds of part, with the code's own branches and constants, and proves what holds of every state
and every run. `dafny verify dfyconfig.toml` checks it.

The limits (maps, players per map, service cap, number of socket ids, services) are parameters of the model. They are
instantiated with the server's values by `GameRoom.SERVICE` in `RoomFailures.EleventhClientRefused`,
`RouteAccounts.SERVER` in `RouteAccounts.Client801`, `SocketPool.MAX_SOCKET` in `SocketPool.Client32766` and
`WakeUp.SERVER` in `WakeUp.ServerWellFormed`.

## The modules

| file | part of the server |
|---|---|
| `Util.dfy` | finite sets and sequences: pigeonhole, duplicate-free lists |
| `GameRoom.dfy` | one game service as a state machine on values: its tables and what each queue message does and sends |
| `GameLogic.dfy` | the same service as it runs, a class over arrays; every method is proved against `GameRoom` |
| `RouteTable.dfy` | the views of who sits where agree, on every run |
| `RoomWorld.dfy` | the room together with the phase of each uid, every client's inbox, and runs |
| `RoomLists.dfy` | the broadcast list of each map: exactly when it is the list of playing uids |
| `Replica.dfy`, `Handshake.dfy` | every client's replica of the room: exactly when it is right, and that the handshake keeps it right |
| `Answers.dfy` | what each client is sent when a client starts, moves, leaves or closes |
| `Admission.dfy`, `Positions.dfy` | who is admitted; what a move does and which positions can be reached |
| `RoomFailures.dfy` | runs from the empty room on which lists, replicas and admission miss their intentions |
| `LockQueue.dfy`, `QueueRefinement.dfy` | the linked queue as a class; many threads interleaving push and pop |
| `WakeUp.dfy` | the three event loops with their queues and wake-up bytes |
| `Sender.dfy`, `SocketBacklog.dfy` | the buffered non-blocking sender on values, and as a linked list of blocks |
| `SocketPool.dfy`, `SocketServer.dfy` | the socket pool and id allocator on values, and as a class over an array |
| `Framing.dfy` | the length byte, the type byte, and reading them back from a fragmented stream |
| `RouteAccounts.dfy`, `Router.dfy` | the router's table on values, and as a class |
| `SessionPipeline.dfy` | sessions from the IO thread through the router to the game services, all interleavings |
| `Delivery.dfy` | the other direction: packets of the services through both queues to every client's socket, all interleavings |
| `EndToEnd.dfy` | a service and the way to one of its clients together: what the bytes received make of the room |

Code that changes state in place is a class whose methods are proved equal to functions on values; the properties are
lemmas about those functions. An access outside an array, a use of NULL or a failing `assert` in the C code is a `fault`
of the model, after which that part does nothing more.

## Where the code falls short of what it is for

The model follows the code. Where a property fails, the first lemma named here says exactly when it holds, and the
others give a run from the initial state on which it fails. Lemmas about the router and the socket pool are stated both
for the code as written and for a repaired one (`Util.Variant`): the repaired router keeps its "all full" answer, and the
repaired IO thread refuses a client for whom there is no id, skips a recipient that is not connected, and reports a write
error for the socket's own id.

- Broadcast lists and replicas. `map_player_num` counts started players, but a close counts down for anyone, the rebuilt
  list holds all attached players, and a repeated start counts twice (`service-c/game_logic.c:363`, `:506-515`, `:615`).
  `RoomLists.ListsKeptIff` and `Replica.ReplicaKeptIff` give the condition for every message, `Handshake.ReplicasConverge`
  shows that the intended handshake meets it. Failing runs: `RoomFailures.SecondStartBreaksList`,
  `RoomFailures.EarlyCloseBreaksList`, `RoomFailures.MoveDuringLoginIsMissed`.
- The author's commented-out assert in rebuild (`service-c/game_logic.c:517`) holds iff the closing uid plays and so does
  every other attached uid of its map: `RoomLists.RebuiltCountIff`. It holds at every close that follows the handshake:
  `Handshake.RebuildAssertHolds`.
- Admission. Attached players who have not started hold slots that the count does not see, so a service that is almost
  empty can refuse everybody: `Admission.AdmissionIff`, `RoomFailures.WaitingClientsBlock`.
- A partial write of exactly half a block drops the other half but keeps counting it in `remain_size`
  (`service-c/socket_server.c:426-431`), and the copy of a block stops at a NUL byte (`:91`): `Sender.ConservationIff`,
  `Sender.RemainIff`, `Sender.LiteralLosses`.
- After a write error `close_fd` has cleared the id before it is reported (`service-c/socket_server.c:420-421`,
  `:469-470`), so the router closes id 0: `SessionPipeline.PipelineKeptIff`, `SessionPipeline.WriteErrorLeavesEntry`.
  As written no "service full" event is ever sent, so every write error breaks the pipeline:
  `SessionPipeline.EveryWriteErrorBreaks`.
- The router's "all full" answer -1 becomes 255 on its way through `uint8_t` (`service-c/net_logic.c:140-159`), and the
  tables are indexed with it: `RouteAccounts.AccountsKept`, `RouteAccounts.FullHouseFails`.
- An id of -1 is not rejected (`service-c/socket_server.c:237-244`), and the allocator answers -1 although lower ids are
  free whenever none above its cursor is: `SocketPool.PoolKeptIff`, `SocketPool.EmptyServerRefuses`.
- A broadcast to a socket that is not connected any more trips an assert (`service-c/socket_server.c:454`):
  `SocketPool.BroadcastReaches`, `SocketPool.BroadcastToClosed`.
- If an id is given to the next client while the previous client's connect is still unread by the router, and the router
  then refuses that connect, the late "service full" event closes the new client: `SessionPipeline.PipelineKeptIff`,
  `SessionPipeline.LateEventHitsNextClient`.
- A wake-up write that EINTR interrupts is not repeated (`service-c/socket_server.c:528-531`): `WakeUp.StepKeepsIff`,
  `WakeUp.InterruptedWakeUpIsLost`.
- A payload of more than 254 bytes does not fit the length byte: `Framing.RoundTripIff`.
- The readers of wake-up bytes store a zero at index n of a buffer of n bytes when a read fills it, and at -1 when it
  fails (`service-c/net_logic.c:711-712`, `service-c/socket_server.c:373-374`). This is not part of the model.

## Assumptions

A game service is the only one to use a uid until it has handled the uid's close. An id is not handed out again while a
"service full" event about it waits in the queue. The message queues start empty; the code leaves their fields
uninitialised (`service-c/net_logic.c:126-135`). A wake-up write answers EAGAIN only when the socket already holds
bytes. The kernel is an oracle: writes accept any number of bytes, or answer EINTR, EAGAIN or an error, where EINTR and
writes that take nothing come finitely often; reads return any positive number of the bytes that are there.
The makefile does not define `USE_SPIN_LOCK`, so the mutex branch of `service-c/spin_lock.h` is built; the model takes
the lock as test-and-set, which has the same atomic steps.

## Model

| member | source | states |
|---|---|---|
| GameRoom.LowestMapIs | service-c/game_logic.c:270-284 | the map that is chosen is the lowest one below its limit; there is none exactly when all are at their limit |
| GameRoom.LowestFreeIs | service-c/game_logic.c:287-299 | the slot that is chosen is the lowest free one of the map; there is none exactly when all are used |
| GameLogic.GameService.constructor | service-c/game_logic.c:116-160 | a new service holds exactly the initial tables |
| GameLogic.GameService.GetMapid | service-c/game_logic.c:270-284 | the loop answers the lowest map below its limit, or -1 when the service or all maps are full |
| GameLogic.GameService.GetPlayeridInMap | service-c/game_logic.c:287-299 | the loop takes the lowest free slot and marks it used, changing nothing else, or answers -1 |
| GameLogic.GameService.RouteAppend | service-c/game_logic.c:313-354 | the new tables are those of `GameRoom.Append`, error paths included |
| GameLogic.GameService.RouteDel | service-c/game_logic.c:356-388 | the new tables are those of `GameRoom.Del`, and the old ones for an unattached uid |
| GameLogic.GameService.MapUidListRebuild | service-c/game_logic.c:495-518 | the list of the uid's map becomes the other attached uids in slot order, followed by its old tail; nothing changes for an unattached uid |
| GameLogic.GameService.UidListCpy | service-c/game_logic.c:420-426 | copies the first n entries of the map's list |
| GameLogic.GameService.BroadcastPlayerMsg | service-c/game_logic.c:529-578 | sends one message to the first map_player_num entries of the list, or faults when they do not fit the copy |
| GameLogic.GameService.SendEnemies | service-c/game_logic.c:592-598 | sends one ENEMY_MSG per list entry, and stops at the first that leads outside the tables |
| GameLogic.GameService.DisposeLoginRequest | service-c/game_logic.c:584-601 | resets the player and sends LOG_RSP, the enemies and LOGIN_END |
| GameLogic.GameService.MapUidListAppend | service-c/game_logic.c:521-526 | writes the uid at the last counted place of the list |
| GameLogic.GameService.DisposeStartRequest | service-c/game_logic.c:606-623 | broadcasts NEW_ENEMY, counts the player, appends it to the list, answers GAME_START_RSP, in this order |
| GameLogic.GameService.DisposeMoveRequest | service-c/game_logic.c:717-763 | does to the tables and sends what `GameRoom.DisposeMove` says, which `Positions.MoveIs` and `Answers.MoveHeard` state in the numbers of the code |
| GameLogic.GameService.DisposeLeaveRequest | service-c/game_logic.c:665-674 | answers and changes nothing |
| GameLogic.GameService.DisposeUserClose | service-c/game_logic.c:803-812 | rebuilds the list, detaches the uid, and broadcasts ENEMY_LEAVE to the list as it is then |
| GameLogic.GameService.DisposeQueueEvent | service-c/game_logic.c:817-852 | from tables in agreement one queue message takes the tables and the outgoing messages to exactly what `GameRoom.Handle` says, in agreement again |
| GameLogic.GameService.DrainQueue | service-c/game_logic.c:883-900 | draining a queue of any messages handles them all in order: tables and outgoing messages are those of `RoomWorld.HandleAll`, which `RoomWorld.RunHandles` and `RoomWorld.DrainReaches` tie to the runs and the inboxes of the clients |
| RoomWorld.RunHandles | service-c/game_logic.c:883-900 | the rooms of a run, which the theorems are about, are what the service's tables go through, and what it sends is, in order, what it sends for each message in the room that the messages before it have led to |
| RoomWorld.InboxSince | service-c/game_logic.c:883-900 | from any state of a run on, a client that is not attached anew gets, in order, what is addressed to it of all that the service sends |
| RoomWorld.DrainReaches | service-c/game_logic.c:883-900 | so after a queue is drained its inbox has grown by exactly what is addressed to it of the packets sent meanwhile |
| RouteTable.InitRoute | service-c/game_logic.c:116-160 | the initial tables agree |
| RouteTable.AppendKept | service-c/game_logic.c:313-354 | a connect keeps the views in agreement; it attaches exactly this uid at the lowest place or changes nothing at all, so the "map_player_socket_uid error" branch is never taken |
| RouteTable.DelKept | service-c/game_logic.c:356-388 | a close keeps the views in agreement and detaches exactly this uid; the uid is always found in its slot, so the error branch is never taken |
| RouteTable.RouteKept | service-c/game_logic.c:817-852 | every queue message, in any order and without any discipline of the clients, keeps the views in agreement |
| RouteTable.Bijection | service-c/game_logic.c:313-388 | a slot is used iff its socket uid is set iff exactly one attached uid maps to it, the one stored there; player_num is the number of used slots and of attached uids, and at most the cap |
| RoomWorld.HandleIds | service-c/game_logic.c:817-852 | only connect and close touch the uid table, and only the entry of their own uid |
| RoomWorld.WorldKept | service-c/game_logic.c:817-852 | attachment and the phase of each uid (absent, attached, logged in, playing) stay in step |
| RoomLists.FitOnMap | service-c/game_logic.c:287-299 | uids attached to one map number at most its slots |
| RoomLists.StartList | service-c/game_logic.c:606-623 | a start keeps every list exact iff the uid was not playing yet; there is always room for it |
| RoomLists.CloseList | service-c/game_logic.c:803-812 | a close keeps every list exact iff the uid was playing and no other attached uid that is not playing sits in a lower slot than one that is |
| RoomLists.RebuiltCountIff | service-c/game_logic.c:495-518 | the commented-out assert: rebuild writes map_player_num - 1 entries iff the closing uid plays and so does every other attached uid of its map |
| RoomLists.QuietList | service-c/game_logic.c:765-800 | all other messages keep every list exact |
| RoomLists.ListsKeptIff | service-c/game_logic.c:817-852 | for every message: the first map_player_num entries of every list stay duplicate-free and exactly the playing uids of the map iff the guard holds before the message |
| RoomLists.ListsOnRuns | service-c/game_logic.c:883-912 | over whole runs: the lists are exact in every state iff every step met its guard |
| RoomLists.EnemiesFound | service-c/game_logic.c:594-598 | with exact lists the login loop meets no missing player and sends each listed player's own position |
| Replica.LoginTranscript | service-c/game_logic.c:584-601 | with exact lists a login sends this uid exactly LOG_RSP with the number k, then k ENEMY_MSG for k distinct playing uids of its map with their true positions, then LOGIN_END |
| Replica.LoginReplica | service-c/game_logic.c:429-493 | after a login all replicas of playing clients equal the room iff the uid was not playing yet, or stood at the corner, or nobody else plays on the map |
| Replica.StartReplica | service-c/game_logic.c:606-623 | after a start of any attached uid all is in order (lists exact, players under their own uid, all replicas equal to the room) iff it was not playing, its slot carries its own uid, and what it was told at its login is still the truth |
| Replica.MoveReplica | service-c/game_logic.c:717-763 | after a move of any attached uid all is in order iff it plays, or what the broadcast says is true to every playing client of the map |
| Replica.CloseReplica | service-c/game_logic.c:803-812 | after a close of any attached uid all is in order iff it was playing and the players come first on its map |
| Replica.QuietReplica | service-c/game_logic.c:765-800 | messages of unattached uids, connects and leave requests change no replica |
| Replica.ReplicaKeptIff | service-c/game_logic.c:817-852 | for every message: lists exact, players under their own uid, and folding what each playing client was sent since it was attached gives the other playing uids of its map and their true positions, iff the two guards hold before the message |
| Replica.ReplicaOnRuns | service-c/game_logic.c:883-912 | the same over all runs: in order in every state iff every step met its guards |
| Handshake.DisciplineMeetsGuards | service-c/game_logic.c:606-623 | a message that follows the handshake meets the guards of the lists and of the replicas |
| Handshake.DisciplinedStep | service-c/game_logic.c:817-852 | a message that follows the handshake keeps lists, replicas and the waiting clients' knowledge right |
| Handshake.InitInStep | service-c/game_logic.c:116-160 | the initial room is in order |
| Handshake.ReplicasConverge | service-c/game_logic.c:529-623 | replica convergence: on every run from the initial room that follows the handshake, in every state, every playing client's fold of its messages, its own entry ignored, is the true map of the other players' positions, and all lists are exact |
| Handshake.RebuildAssertHolds | service-c/game_logic.c:517 | on every such run the commented-out assert of rebuild holds at every close |
| Admission.FullIffNoFreeSlot | service-c/game_logic.c:272-275 | by counting: player_num is at the cap exactly when every slot of every map is used |
| Admission.CountIsFull | service-c/game_logic.c:276-282 | when all attached players have started, a map counts 10 players exactly when all its slots are used |
| Admission.AdmissionComplete | service-c/game_logic.c:313-354 | when all attached players have started, an absent uid is admitted exactly when the service is below its cap, and gets the lowest map with a free slot and its lowest free slot |
| Admission.AdmissionIff | service-c/game_logic.c:270-354 | in every state an absent uid is admitted exactly when the service is below its cap and the lowest map that counts fewer than 10 started players has a free slot; a refusal changes nothing |
| RoomFailures.WaitingClientsBlock | service-c/game_logic.c:276-282 | any distinct clients, as many as fit on one map, connect and none starts: the next is refused whatever the number of maps |
| RoomFailures.EleventhClientRefused | service-c/game_logic.c:276-282 | in the server that is the eleventh client, whatever the ids, at 10 of 200 places |
| RoomFailures.SecondStartBreaksList | service-c/game_logic.c:606-623 | any client's connect, login, start, start: the list was exact and is not any more |
| RoomFailures.EarlyCloseBreaksList | service-c/game_logic.c:803-812 | any client's connect, close: the list was exact and is not any more |
| RoomFailures.MoveDuringLoginIsMissed | service-c/game_logic.c:584-623 | for any two clients: the one that starts after the other has moved since its login plays with a wrong replica, though all was in order before |
| Positions.ReachableExactly | service-c/game_logic.c:717-756 | the points reachable by moves after a login are exactly the multiples of 4 with 0 <= x <= 956 and 0 <= y <= 556, in both directions |
| Positions.MoveIs | service-c/game_logic.c:717-756 | a move of an attached player that steps by 4: 1 takes 4 off x iff x > 4, 2 adds 4 to x iff x + 4 < 960, 3 takes 4 off y iff y > 4, 4 adds 4 to y iff y + 4 < 560, the other coordinate stays, any other request moves nobody; the packet says the new position; no other player changes |
| Positions.HandlePlayers | service-c/game_logic.c:817-852 | a queue message moves or resets only the player of its own uid, a move as `Positions.MoveIs` says |
| Positions.PositionsOnRuns | service-c/game_logic.c:390-416 | on every run, from login to close a player stays on that grid and steps by 4, and a coordinate that has left 0 stays away from 0 until the next login |
| Answers.MoveHeard | service-c/game_logic.c:717-763 | with exact lists: a move tells the playing clients of the map, and nobody else, where the mover now is |
| Answers.StartHeard | service-c/game_logic.c:606-623 | with exact lists: a first start tells the playing clients of the map about the new player and the starter, last, that it has begun; nobody else hears anything |
| Answers.CloseHeard | service-c/game_logic.c:803-812 | with lists that stay exact: a close tells the other playing clients of the map who has gone, and nobody else anything |
| Answers.QuietHeard | service-c/game_logic.c:606-674 | a leave is answered once, to the uid in the slot; a start that does not go, a connect, and any message about a uid that is not attached send nothing; the first, the second and the last change nothing |
| Answers.LeaveAnswered | service-c/game_logic.c:625-674 | a leave of an attached client that has logged in sends exactly one LEAVE_RSP, to it, and changes nothing |
| LockQueue.Queue.Push | service-c/lock_queue.c:59-84 | on the linked list: appends exactly this node at the end; NULL is refused |
| LockQueue.Queue.Pop | service-c/lock_queue.c:92-111 | takes off the first node, NULL when there is none |
| LockQueue.Queue.IsEmpty | service-c/lock_queue.c:86-90 | answers whether the queue has no node |
| LockQueue.Queue.Destroy | service-c/lock_queue.c:114-131 | frees every node of the queue exactly once and in order |
| QueueRefinement.StepRefines | service-c/lock_queue.c:59-111 | n threads, one assignment at a time under the test-and-set lock: each step leaves the abstract queue alone or is one atomic push or pop on it; that an operation ends is `QueueRefinement.OperationEnds` |
| QueueRefinement.ReplayConserves | service-c/lock_queue.c:59-111 | in a legal history the popped nodes followed by the queue are the pushed nodes, in order |
| QueueRefinement.QueueIsAtomic | service-c/spin_lock.h:22-38 | linearizability over every interleaving: legal FIFO history, nothing lost, duplicated or reordered, mutual exclusion, and while the lock is free the list in memory is the abstract queue, ends in NULL, and tail is its last node |
| QueueRefinement.OperationEnds | service-c/lock_queue.c:59-111 | a thread in its critical section, or one that finds the lock free, finishes within five steps of its own: it is idle, the lock is free, and the log has one entry more, the push of its node or a pop of the first node of the queue, of none iff the queue is empty |
| QueueRefinement.EveryOperationCanEnd | service-c/spin_lock.h:22-38 | no deadlock: in every state of every interleaving every thread in an operation can be through with it after at most nine steps, the lock owner's and its own |
| WakeUp.ServerWellFormed | service-c/net_logic.c:773-788 | the server's queues, wake-up sockets and threads form a topology the theorems apply to, with one loop of the router over two inbound queues |
| WakeUp.StepKeepsIff | service-c/net_logic.c:739-806 | every step of every thread keeps each non-empty queue covered (its consumer is draining, or a wake byte is unread, or a producer is between push and wake) iff it is not an EINTR on a wake byte whose queue holds work, with its consumer elsewhere, no byte unread and nobody else about to write one |
| WakeUp.CoveredOnRuns | service-c/net_logic.c:739-806 | the same over all runs |
| WakeUp.NoLostWakeUp | service-c/game_logic.c:883-912 | on every run whose interrupted wake-up writes, if any, did not matter in that sense, no consumer sleeps with work in its queue unless a wake-up is still on its way |
| WakeUp.WorkIsNeverStuck | service-c/socket_server.c:690-732 | while a queue is non-empty some thread can take a step that changes something |
| WakeUp.WorkGetsDone | service-c/game_logic.c:883-912 | from any state in which all queues are covered, steps without pushes and interrupted writes lead to one where every message has been taken, every wake byte read, and every thread can sleep |
| WakeUp.InterruptedWakeUpIsLost | service-c/socket_server.c:520-539 | one wake-up write that EINTR interrupts leaves the router asleep with a message waiting |
| Sender.StrNCpyExact | service-c/socket_server.c:91 | the strncpy copy keeps the bytes to be sent iff no non-zero byte follows a NUL there |
| Sender.SubmitConserved | service-c/socket_server.c:452-491 | send_data adds exactly the submitted buffer to the stream iff its copied tail survives the copy |
| Sender.DrainConserved | service-c/socket_server.c:402-446 | send_buffer keeps the stream iff no write takes exactly half of the block it is offered |
| Sender.ConservationIff | service-c/socket_server.c:402-491 | over every sequence of sends and drains and every pattern of short writes, EINTR, EAGAIN and errors: accepted bytes followed by the backlog are the submitted buffers in order iff every event was lossless; EPOLLOUT is registered iff there is a backlog; after an error close of such a run the accepted bytes are a prefix |
| Sender.RemainIff | service-c/socket_server.c:425-440 | over every run, while the connection is open: remain_size is the sum of the sizes of the waiting blocks iff no write of a drain took exactly half of the block it was offered; otherwise it is larger |
| Sender.DrainFinishes | service-c/socket_server.c:402-446 | a drain to which the kernel answers neither EAGAIN nor an error empties the backlog after at most as many answers as there are waiting bytes, waiting blocks, and answers that are EINTR or take nothing |
| Sender.LiteralLosses | service-c/socket_server.c:426-431 | two concrete runs that lose bytes, one for each reason; the first leaves remain_size too large |
| SocketBacklog.Socket.AppendRemaindata | service-c/socket_server.c:81-108 | on the linked blocks: appends the copied tail as a new last block and adds it to remain_size |
| SocketBacklog.Socket.CloseFd | service-c/socket_server.c:259-294 | frees all blocks and clears the slot |
| SocketBacklog.Socket.SendData | service-c/socket_server.c:452-491 | head is NULL iff there is no block, tail is the last, each cursor plus size is the buffer's end; the new state is that of `Sender.SendData`; a write error reports id 0 |
| SocketBacklog.Socket.AfterWrite | service-c/socket_server.c:425-440 | what is left after a write of n bytes is `Sender.LeftOver` |
| SocketBacklog.Socket.WriteFront | service-c/socket_server.c:407-440 | one write of the inner loop: it stops on EAGAIN or an error, or the idle answers still to come, the unsent bytes, or the empty blocks become fewer |
| SocketBacklog.Socket.SendBuffer | service-c/socket_server.c:402-446 | for a kernel that answers every call, EINTR and empty writes finitely often, the nested loops end with the unsent bytes as measure, keep the structure, and reach the state of `Sender.SendBuffer`; blocks are left only after EAGAIN, the socket is closed only after an error |
| SocketPool.LowestFreeIs | service-c/socket_server.c:120-128 | the scan finds the smallest free id from its start on, if there is one |
| SocketPool.ApplyIdIs | service-c/socket_server.c:111-130 | the allocator answers the smallest free id above the cursor, -1 exactly when there is none, never 0; it appends the id to the current sweep, and only a cursor at the last id ends a sweep |
| SocketPool.EnterIs | service-c/socket_server.c:133-161 | a socket that needs an id gets the slot of the lowest free one above the cursor, untouched otherwise, and with a valid id the assert in apply_socket never fails; without one the code as written indexes the pool with -1, and the repaired code leaves it alone |
| SocketPool.AcceptKept | service-c/socket_server.c:225-256 | a failing accept changes nothing; otherwise the client ends up watched and reported, or its slot ends up free, and no other slot changes; the pool stays in order, as written unless no id above the cursor is free, repaired always |
| SocketPool.StartKept | service-c/socket_server.c:663-687 | watching a listening socket, or failing to, changes only its slot, to ADD or to free, and keeps the pool in order |
| SocketPool.CloseKept | service-c/socket_server.c:259-294 | closing a slot in use frees it and clears its id, closing a free one changes nothing; no other slot changes and the pool stays in order |
| SocketPool.ReadKept | service-c/socket_server.c:336-367 | when the bytes that arrive hold a whole frame its content is reported as DATA for the slot, otherwise the slot is freed and CLOSE reported; no other slot changes and the pool stays in order |
| SocketPool.SentKept | service-c/socket_server.c:402-491 | a send or drain changes only its slot, and on a write error frees it and reports a close, as written for id 0, repaired for the slot; the slot's sender stays the one its log of events leads to |
| SocketPool.PoolKeptIff | service-c/socket_server.c:690-769 | lifecycle: a slot in use has its index, not 0, as id; only a connected one has a backlog; a session passes NOTADD, ADD, INVALID once, with one SUCCESS first and at most one CLOSE last; every event keeps all this iff it is not, in the code as written, an id request with nothing free above the cursor or a send to an unconnected socket |
| SocketPool.WritableEvent | service-c/socket_server.c:402-446 | a writable event of a connected slot drains it: its log grows by that drain and no other slot changes; if the kernel answers enough and neither EAGAIN nor an error, nothing waits and EPOLLOUT is off, and if also no write takes exactly half a block the kernel has accepted all that it had accepted or that waited, in order |
| SocketPool.SendEvent | service-c/socket_server.c:452-491 | a broadcast's round for a connected slot: the log grows by that submission; behind waiting blocks a copy waits; otherwise what the kernel takes follows what it took before and a copy of the rest waits; a write error frees the slot; no other slot changes |
| SocketPool.ReadableEvent | service-c/socket_server.c:336-367 | a readable event of a connected slot: a length byte with as many bytes behind it is reported with exactly those bytes; anything less frees the slot and is reported as a close; no other slot changes |
| SocketPool.ExpelEvent | service-c/socket_server.c:612-617 | a "service full" event frees the slot it names and tells the router nothing; a free slot stays as it is; no other slot changes |
| SocketPool.ArrivalEvent | service-c/socket_server.c:225-256 | a client that is accepted while an id above the cursor is free gets the lowest one: connected, with one success reported, or, when epoll refuses it, free with nothing reported |
| SocketPool.OwnSocketEvents | service-c/socket_server.c:663-687 | the listening and the router's socket get the slot of the lowest free id above the cursor, and a start makes the listening one watched or, when epoll refuses it, free |
| SocketPool.PoolOnRuns | service-c/socket_server.c:898-956 | the same over whole runs |
| SocketPool.RepairedOnRuns | service-c/socket_server.c:898-956 | every state of every run of the repaired code is in order |
| SocketPool.SweepsOnRuns | service-c/socket_server.c:111-130 | on every run of the repaired code, and on every run as written without a fault: between two states either the cursor was reset, or the ids handed out continue one strictly increasing sweep, so none is handed out twice |
| SocketPool.SessionsConserve | service-c/socket_server.c:402-491 | on the same runs every connected session's accepted bytes, backlog, remain_size and EPOLLOUT flag are accounted for by what was sent to it since it was accepted |
| SocketPool.BroadcastReaches | service-c/socket_server.c:494-517 | a broadcast to any list, repeated sockets included, does to each slot what its entries do in turn and touches no other slot; as written, the assert fails iff some recipient is not connected when its turn comes |
| SocketPool.BroadcastToDistinct | service-c/socket_server.c:494-517 | for a list of distinct sockets: iff some recipient is not connected |
| SocketPool.StartupServes | service-c/socket_server.c:898-921 | the server's start leads to id 1 listening, id 2 for the router, and all others free |
| SocketPool.EmptyServerRefuses | service-c/socket_server.c:111-130 | from the server's start, after a short visit on every other id there is no client and all those ids are free; the next client makes the code as written index the pool with -1, and is refused by the repaired code, which then starts the next sweep |
| SocketPool.Client32766 | service-c/socket_server.c:111-130 | in the server that takes 32765 visits |
| SocketPool.IdsComeRound | service-c/socket_server.c:111-130 | a run of the repaired code in which the cursor comes round and the same ids are given out again, in increasing order |
| SocketPool.BroadcastToClosed | service-c/socket_server.c:452-454 | from the server's start a client connects and leaves, and a broadcast that still names it trips the assert as written, and is skipped by the repaired code |
| SocketServer.Server.constructor | service-c/socket_server.c:574-591 | a new pool has all slots free and the cursor at 0 |
| SocketServer.Server.ApplyId | service-c/socket_server.c:111-130 | the loop over the pool computes `SocketPool.ApplyId` |
| SocketServer.Server.ApplySocket | service-c/socket_server.c:133-161 | the slot is written exactly as `SocketPool.ApplySocket` says; an id outside the pool or a used slot is a fault |
| SocketServer.Server.Start | service-c/socket_server.c:663-687 | the slot becomes watched, or free when epoll refuses it |
| SocketServer.Server.Accept | service-c/socket_server.c:225-256 | accept's own failure, dispose_accept, the start and the report reach the pool of `SocketPool.Accept` on every error path |
| SocketServer.Server.CloseFd | service-c/socket_server.c:259-294 | an unused slot is left alone, any other is cleared |
| SocketServer.Server.BroadcastUserMsg | service-c/socket_server.c:494-517 | the loop over the recipients reaches the pool of `SocketPool.Broadcast` |
| SocketServer.Server.DisposeReadmessage | service-c/socket_server.c:336-367 | reading a message through `Framing.Stream`, however the reads cut it, reports its content or the close as `SocketPool.Receive` says |
| SocketServer.Server.Dispose | service-c/socket_server.c:690-769 | one event takes the pool to `SocketPool.Next`; what that is for each event, `SocketPool.WritableEvent`, `SendEvent`, `ReadableEvent`, `ExpelEvent`, `ArrivalEvent` and `OwnSocketEvents` say |
| Framing.RoundTripIff | service-c/net_logic.c:473-487 | concatenated frames decode to the list they were built from iff every payload has at most 254 bytes |
| Framing.DataPack | service-c/net_logic.c:473-487 | the output buffer is the frame: length byte, type byte, payload |
| Framing.Stream.Readn | service-c/socket_server.c:314-333 | for every fragmentation: the next n bytes of the stream, or -1 exactly when fewer are left |
| Framing.Stream.ReadMessage | service-c/socket_server.c:336-367 | reads one length byte and that many bytes, however they arrive |
| Framing.Stream.ReadAll | service-c/socket_server.c:336-357 | reading message by message gives the decoding of the whole stream for every way it is chopped into reads |
| RouteAccounts.DistributeIs | service-c/net_logic.c:140-151 | answers the lowest service below its cap; when all are full 255 as written, -1 repaired |
| RouteAccounts.SetKept | service-c/net_logic.c:154-178 | a new socket gets the lowest open service and is counted there; otherwise nothing changes, or the code as written leaves its tables |
| RouteAccounts.SendKept | service-c/net_logic.c:353-370 | a forward keeps the accounts and leaves the cursor at the socket's owner |
| RouteAccounts.ClearKept | service-c/net_logic.c:181-194 | with the cursor there, freeing the socket's entry counts down the right service |
| RouteAccounts.AccountsKept | service-c/net_logic.c:427-470 | every message leaves online_player[g] equal to the number of sockets mapped to g and within the cap, iff it is not a new socket met by the code as written when all services are full |
| RouteAccounts.FullHouseFails | service-c/net_logic.c:140-178 | from the start: any distinct clients connect until all services are full, without fault; one more makes the code as written leave its tables, and is refused by the repaired code |
| RouteAccounts.Client801 | service-c/net_logic.c:140-178 | in the server that is the 801st client, whatever the ids |
| Router.Route.DisposeNetioServiceQue | service-c/net_logic.c:427-470 | the router's tables and its outgoing messages become those of `RouteAccounts.Dispose` |
| SessionPipeline.AcceptKept | service-c/socket_server.c:818-822 | a connect of a drained id keeps the pipeline in order |
| SessionPipeline.HeardKept | service-c/socket_server.c:795-830 | data and close messages of an open id keep it in order |
| SessionPipeline.MisreportedKeptIff | service-c/socket_server.c:418-422 | a write error of an open session, reported for id 0, keeps the pipeline in order iff a "service full" event about the session is pending |
| SessionPipeline.IoTakesKept | service-c/socket_server.c:612-617 | a "service full" event closes only a session that the router does not have |
| SessionPipeline.RoutedIs | service-c/net_logic.c:427-470 | how one message changes the router's entry, the forwarded messages and the queue back, for its own id and for all others |
| SessionPipeline.PipelineKeptIff | service-c/net_logic.c:353-370 | every action in every interleaving keeps: queued messages turn the router's entry into the IO thread's open or closed status, except for a refused session awaiting its event; iff it is not one of the breaking steps; what is told about an id is `SessionPipeline.AllIsTold` |
| SessionPipeline.PipelineOnRuns | service-c/net_logic.c:739-806 | over whole runs: every state is in order iff no step breaks it |
| SessionPipeline.ServiceSeesSessions | service-c/net_logic.c:427-470 | from such a log each service alone sees a prefix of (S D* C)* |
| SessionPipeline.AllIsTold | service-c/socket_server.c:795-830 | on every run, broken or not: what the IO thread tells the router about an id is, in order, one connect per client given the id, one data message per message read from it, one close per end of it by the peer and, repaired, per write error |
| SessionPipeline.PipelineDelivers | service-c/net_logic.c:427-470 | what each service received about an id is a prefix of (S D* C)*; all deliveries are, in order, what was taken of the sessions that were not refused, each of them to one service; taken and queued messages are, in order, what happened to the id according to the actions of the run: S per accept, D per message read, C per end |
| SessionPipeline.TakesIs | service-c/socket_server.c:607-617 | the router takes its oldest message and opens or closes nothing; the IO thread takes its oldest "service full" event and closes exactly the id in it |
| SessionPipeline.QueuesRunDry | service-c/net_logic.c:739-806 | from any state in order, once the clients are quiet: router and IO thread empty both queues, and the router then knows exactly the open sessions and has taken all it was told, unless a breaking step comes first |
| SessionPipeline.WriteErrorLeavesEntry | service-c/socket_server.c:418-422 | for any id, a run from the start: accept, write error, and with all queues empty the router still has the client, who is gone |
| SessionPipeline.NeverFull | service-c/net_logic.c:154-178 | as written, no "service full" event is ever under way on a run in order |
| SessionPipeline.EveryWriteErrorBreaks | service-c/socket_server.c:418-422 | so, as written, a run with a write error has a breaking step at or before it |
| SessionPipeline.LateEventHitsNextClient | service-c/socket_server.c:612-617 | a run from the start of the repaired code, with ids in the order of `SocketPool.IdsComeRound`: the late event about a refused client closes the next client with its id, whom the router keeps, with all queues empty |
| Delivery.SendStep | service-c/game_logic.c:529-578 | a packet pushed by any service keeps the accounts: for every connected client, what was submitted to its sender and then what is under way to it is, in order, what it is owed |
| Delivery.PackStep | service-c/net_logic.c:604-668 | so does the router packing the next packet |
| Delivery.BroadcastStep | service-c/socket_server.c:494-517 | so does the broadcast of the next frame to any list of recipients, unless it trips the assert |
| Delivery.IoStep | service-c/socket_server.c:690-769 | so does any other event of the IO thread, closes and new clients with old ids included |
| Delivery.DeliveryKeptIff | service-c/net_logic.c:604-668 | every step of every thread keeps the accounts of all clients iff it leaves the IO thread's pool in order, which the repaired code always does |
| Delivery.DeliveryOnRuns | service-c/net_logic.c:604-668 | the same over all runs, from the start |
| Delivery.ClientReceives | service-c/socket_server.c:452-491 | what the kernel took for a connected client without loss is a prefix of the frames of all it is owed, in order; once nothing is under way and no block waits, it decodes to exactly the messages owed |
| Delivery.EverythingGetsThrough | service-c/net_logic.c:604-668 | from any state in order of the repaired code, for a connected client to whom nothing has been lost: draining its socket, packing all packets and broadcasting all frames leads to nothing under way, nothing waiting for it, and the kernel having taken exactly the frames of what it is owed |
| EndToEnd.RecipientsDistinct | service-c/game_logic.c:529-578 | while the lists are exact a service names no recipient of a packet twice |
| EndToEnd.MailIsAddressed | service-c/game_logic.c:529-578 | so what a socket gets out of the packets is what is addressed to its client |
| EndToEnd.InboxIsOwed | service-c/game_logic.c:883-912 | from when a client is attached with nothing owed, while it stays attached and connected: in every interleaving of its service, the other services, the router and the IO thread, its connection owes it exactly what its service has sent it, in order |
| EndToEnd.ClientSeesRoom | service-c/game_logic.c:529-623 | on such a run, once everything has come through to a playing client without loss, the bytes it has received decode to messages whose fold is the other players of its map at their true positions |
| EndToEnd.RoomCanBeSeen | service-c/net_logic.c:739-806 | and from any such state of the repaired code, its room in order and nothing lost so far, router and IO thread alone can bring a playing client to see its room |

## Left out

- Listening, connecting, epoll and select calls, and the start-up of the threads: only readiness, the EPOLLOUT flag and the results of calls are modelled.
- Protobuf packing and unpacking (`message.pb-c.*`, `proto.h`): payloads are opaque bytes; `name` of a player is not part of this model.
- malloc failures, freeing outside the queue and backlog nodes, and printed output.
- `configure.c`, `log_server.*`, `service_start.*`, `common_socket.*`, `epoll_test.c` and `test/`: plumbing, unfinished code and demos.
- Reuse of a uid by a second game service before the first has handled its close: the services share `uid_2_playid` without synchronisation, and the assumption above excludes it.
- Stale epoll events: an event may reach any slot at any time in the model; that readn then spins on EAGAIN is not modelled.
- `TYPE_EVENT_PLAYER_ERROR` is handled like "service full" in the pool; nothing in the repository sends it.
- Deadlock of blocking wake-up writes, signal timing, and liveness that needs a fair scheduler; `WakeUp.WorkGetsDone`, `QueueRefinement.EveryOperationCanEnd`, `SessionPipeline.QueuesRunDry` and `Delivery.EverythingGetsThrough` say that everything can come to its end from every state, not that the threads are scheduled so.
- Numbers are unbounded: it is assumed that no 32-bit counter overflows, although `map_player_num` falls by one with every connect and close without a start, and `remain_size` grows with a client that never reads; the uint8_t of the router's answer and the length byte are modelled.
- A wake-up write that fails otherwise, and a wake-up read that fails or finds the end, close the socket between two threads (`service-c/socket_server.c:532-535`): the wake-up sockets of the model stay open.
- Broadcasts and "service full" events share one queue; in `Delivery` the event is an event of the IO thread that can come at any time.
- Framing.DataPack: stands for the eight pack functions, which differ only in the type byte and the payload.
- SocketServer.Server.Send: runs the sender of a slot as a value; the linked blocks of `SocketBacklog.Socket` are proved equal to that value, but the pool's array does not hold them.
- Socket ids in `SessionPipeline` are opened by an abstract step; that the allocator gives a free id is `SocketPool.ApplyIdIs`.
