# Verified models of the village and session servers

This project models the concurrent core of a C++20 game server that is split into a village process and a
session process, and proves what its comments argue. Locks, atomics, the kernel and the network are modelled as
steps that can happen in any order; a claim about a run is a claim about every run.

Two kinds of files work together. A *machine* is a pure state with one step per lock-protected block or atomic
operation, an invariant every step keeps, and theorems about whole runs. An *object* is a class in the source's
own form, with its fields and loops; its methods are the lock-protected blocks, and each is tied by its
postcondition to the function the machine's step uses, or to a specification of its own.

| file | what it is about |
|---|---|
| SerialQueue.dfy | a session's jobs under one execution right that travels through a shared queue (`app::WorkerPool`, `core::JobQueue`) |
| MpscQueue.dfy | the two-step push of `core::MpscQueue`, on values and on linked nodes |
| S2sConnector.dfy | requests, re-entrant teardown, I/O contexts and reconnecting in `net::S2sConnector` |
| SessionLife.dfy | `io_count`, closing, the gone-job and the roster hold (`net::IocpServer`, the enter and gone handlers) |
| EnterHandlers.dfy | `handle_enter` and `on_session_gone` as they run, with other threads interfering |
| Replication.dfy | FullSync encoding and chunking, the connection table, and that both servers come to agree |
| Trade.dfy | the trade handlers' locked blocks: what is settled, when, and how often |
| Framing.dfy | cutting a byte stream into frames, on the server and in the client |
| SendBuffer.dfy | the send double buffer |
| Registry.dfy | `session::Registry`: registration, assignment, reservations, sweeps |
| Router.dfy | `session::Router`: outstanding requests, late replies and refusals, and link holds |
| Roster.dfy | `app::EntryTable`: roster and zone index |
| BufferPool.dfy | the frame buffer pool |
| Wire.dfy, Common.dfy | big-endian integers; options, lists without repetition, products |

`dafny verify dfyconfig.toml` checks everything.

## What the proofs found

Claims that are false of the code as it stands are kept as they are and given their exact condition:

- `WorkerPool::submit` can return true for a job that never runs, but only if the job queue has been stopped
  (`SerialQueueMachine.AcceptedJobLostAfterStop`, `SerialQueueMachine.HandOver`).
- The idle sweep reads the clock once, before its loop, and subtracts in 64-bit unsigned arithmetic
  (src/net/iocp_server.cpp:623, 637-642). The comment there holds that the last receive time cannot be later.
  It can: a message that arrives after the clock was read makes its session look as if it had been silent for
  nearly 2^64 ms, and it is closed. The verdict is right exactly if nothing has been received since (`SessionObjects.SilenceIsRightIffNotNewer`).
- `chunk_idx` is 16 bits wide, so a FullSync is exact exactly if it has at most 65536 chunks
  (`FullSyncChunks.FullSyncIsExactIff`); with one more only the last player is left (`FullSyncChunks.OneChunkTooMany`).
- Village and session server need not come to agree once a FullSync is queued, not even on a link that holds: the
  session server can lose the village's entry by Unregister, by the sweep of an orphan that still has its link, or
  because another connection from the same address revives it, and then ignores every PlayerEnter and PlayerLeave.
  Whether a step leaves them agreeing is said for every step and every agreeing state
  (`Replication.AgreementSurvivesIff`): an Unregister or a sweep exactly if nobody is inside, a lost link or an entry
  taken over exactly if nothing in flight mattered, a FullSync exactly if its chunks can be numbered, notices always
  while there is an entry, and changes by others by what they do to each player. A FullSync brings agreement back, from
  whatever state, exactly if no player inside is another entry's (`Replication.FullSyncAgreesIff`).
  `Replication.UnregisteredPlayersAreUnknown` is a run that ends in disagreement.
- A late reply to a Reserve or Kick is matched to the request it answers or to none, never to another, exactly if the
  connection's numbering has not started again since (src/session/session_router.cpp:792 drops it) and the 32-bit
  number has not come round (`LateReplies.ReplyMatchesIff`, `LateReplies.ReplyFindsItsOwnRequest`). Both can happen
  (`LateReplies.ReplyAcrossEpochsCanMatchAnother`, `LateReplies.ReplyAfterAllNumbersCanMatchAnother`).
- The trade pointers of the two sides need not agree. They agree until a session clears its trade after its partner
  has left the roster (src/app/frame_router.cpp:307-315), and that step, if it is not too late, always breaks it
  (`TradeMachine.AgreementBreaksIff`, `TradeMachine.PointersAgree`). A third session can then be in a trade its partner
  has been cleared from (`TradeMachine.PointersCanDisagree`). The settlement results hold in spite of it.
- `connections_added == connections_removed + remaining`, which src/session/registry.h:93-96 promises, leaves out
  entries that are overwritten. It is kept by a PlayerEnter exactly if the player has no entry yet, and by a FullSync
  exactly if it claims no player twice and none the server has already (`ConnectionTable.Connections.PlayerEntered`,
  `ConnectionTable.Connections.FullSyncReplace`); `ConnectionTable.EnteredTwice` breaks it.
- The cross products of `assign` fit 64 bits for every capacity exactly up to a load of 2^32 + 1
  (`Assignment.CrossProductFitsIff`).

## Model

| member | source | states |
|---|---|---|
| SerialQueueMachine.AtMostOneRight | src/app/worker_pool.cpp:90-194 | In every run, a session has at most one execution right, wherever it is (a submitter's hand, the shared queue, a worker), and `sq_scheduled` is set exactly while it has one |
| SerialQueueMachine.RunsInPushOrder | src/app/worker_pool.cpp:127-194 | A session's jobs run in push order, none twice, none skipped, and never two at a time |
| SerialQueueMachine.NothingLostBeforeStop | src/app/worker_pool.cpp:174-193 | Before stop, a session without a right has run every job pushed to it |
| SerialQueueMachine.RefusedJobNeverRuns | src/app/worker_pool.cpp:114-123 | A job for which submit returned false is never run later |
| SerialQueueMachine.HandOver | src/app/worker_pool.cpp:114-193 | Handing a right to the shared queue keeps the session alive if and only if the queue has not stopped |
| SerialQueueMachine.SettleGivesUpIff | src/app/worker_pool.cpp:165-193 | After the second look a session has a right, and its flag is up, if and only if something was queued; no job is lost by it |
| SerialQueueMachine.EveryRightIsGivenUp | src/app/worker_pool.cpp:127-194 | In every run, once nothing more is submitted, the rights make a bounded number of moves, and after them no session has a right or a flag up |
| SerialQueueMachine.SomebodyCanMove | src/app/worker_pool.cpp:127-194 | As long as some right is out, and there is a worker, one such move is possible |
| SerialQueueMachine.AcceptedJobLostAfterStop | src/app/worker_pool.cpp:100-104 | A run in which an accepted job is stranded by stop |
| SerialQueueMachine.ReachStopDuringDrain | src/app/worker_pool.cpp:186-193 | The state that run starts from is reachable from a fresh session |
| SerialQueueMachine.BoundedWait | src/core/job_queue.h:46-81 | A right with k rights ahead of it and W workers sees at most 16 * (k + W) jobs of others before it is picked up, however others submit |
| SerialQueueMachine.BoundedBatches | src/app/worker_pool.cpp:135-143 | The job at index i is taken within the session's next i / 16 + 1 batches, and once these are worked off it has run, at its place in push order |
| SerialQueueMachine.StepInv | src/app/worker_pool.cpp:90-194 | Every step of every thread keeps the invariant these results rest on |
| SerialQueueObjects.Session.TakeBatch | src/app/worker_pool.cpp:135-143 | The loop takes the oldest jobs, at most 16, and leaves the rest in order |
| SerialQueueObjects.Session.RecheckQueue | src/app/worker_pool.cpp:165-172 | The drain goes on exactly if something is queued; otherwise the flag goes down; the queue stays |
| SerialQueueObjects.Session.EnqueueJob | src/app/worker_pool.cpp:92-99 | The job goes to the back, and the submitter schedules exactly if nobody holds the right |
| SerialQueueObjects.JobQueue.Push | src/core/job_queue.h:46-58 | A stopped queue refuses, any other appends |
| SerialQueueObjects.JobQueue.TryPop | src/core/job_queue.h:71-81 | A stopped queue still hands out what it has, oldest first, and only then reports the end |
| MpscSpec.PopsInExchangeOrder | src/core/mpsc_queue.h:40-69 | For every interleaving, values come out in exchange order, each at most once, and pop finds nothing exactly if all are out or the oldest one left is not linked yet |
| MpscSpec.RunShape | src/core/mpsc_queue.h:40-69 | What has been popped is a prefix of what has been exchanged, as long as the number of pops that succeeded |
| MpscSpec.ClaimStable | src/core/mpsc_queue.h:46-50 | Only its own producer closes a gap, so what a producer is going to link stays as it found it |
| MpscHeap.MpscQueue.PushExchange | src/core/mpsc_queue.h:40-46 | The exchange keeps the heap shape and opens exactly one gap |
| MpscHeap.MpscQueue.PushLink | src/core/mpsc_queue.h:47-51 | The link closes that gap and writes no other node |
| MpscHeap.MpscQueue.TryPop | src/core/mpsc_queue.h:59-69 | The oldest value if its node is linked, else nothing; the old stub is freed, and no node of a gap is |
| MpscHeap.MpscQueue.GapIsLive | src/core/mpsc_queue.h:46-69 | Neither node a producer is about to touch has been freed |
| MpscHeap.Interleave | src/core/mpsc_queue.h:40-69 | Producers and the consumer in any order, step by step on the nodes, with any number of gaps open: what comes out is what the specification's run gives, in exchange order |
| MpscHeap.MpscQueue.Drain | src/core/mpsc_queue.h:30-34 | The destructor's loop takes everything that can be popped, in order |
| S2sConnector.Connector.ThreadMain | src/net/s2s_connector.cpp:125-158 | From start to stop, every request taken from the command queue has its callback called exactly once, unless a connection used up its 2^32 - 1 numbers |
| S2sConnector.Connector.Round | src/net/s2s_connector.cpp:128-157 | After each turn no pending request is past its deadline, a receive is posted while connected, and whatever is unsent has a send under way |
| S2sConnector.Connector.ShutdownCleanup | src/net/s2s_connector.cpp:186-233 | After at most ten completions waited for, each of them taken, nothing is open: what was pending completed as stopped, what was still queued as disconnected |
| S2sConnector.Connector.TeardownConnection | src/net/s2s_connector.cpp:734-785 | With callbacks that tear down again, every pending request completes once with the reason, nothing of the connection is left, and a second teardown changes nothing |
| S2sConnector.Connector.FailAllPending | src/net/s2s_connector.cpp:802-815 | Exactly the table's requests are completed, in any order, whatever the callbacks do |
| S2sConnector.FailTableMeans | src/net/s2s_connector.cpp:802-815 | Those told are the requests in the table, with the reason given, and nobody else |
| S2sConnector.Connector.Complete | src/net/s2s_connector.cpp:734-842 | A callback is called only for a request that is out of the table and not completed |
| S2sConnector.Connector.SweepTimeouts | src/net/s2s_connector.cpp:817-842 | Exactly the expired requests time out, also when one of their callbacks tears the connection down |
| S2sConnector.ExpiringMeans | src/net/s2s_connector.cpp:817-842 | A pending request has timed out after the sweep if and only if its deadline has come |
| S2sConnector.Connector.RegisterRequest | src/net/s2s_connector.cpp:297-305 | A request gets a free number, never 0, unless the connection has used all of them |
| S2sConnector.Connector.DrainCommands | src/net/s2s_connector.cpp:256-285 | While the connection stands, the frames of the batch are queued in order, each request under its own number, and the requests are entered with their deadlines; a send is under way for whatever is unsent. Without a connection every request of the batch has been told so |
| S2sConnector.Connector.HandleCommand | src/net/s2s_connector.cpp:287-331 | While connected a request is numbered, entered with its deadline and its frame queued under that number, a notification under 0, a response under the number it answers; otherwise a request is refused at once and the others dropped; a forced disconnect fails all that is pending |
| S2sConnector.Connector.DrainRecvFrames | src/net/s2s_connector.cpp:573-605 | Exactly the requests answered by the frames handled complete with ok; it stops at a violation or when a callback has torn the connection down |
| S2sConnector.Connector.DispatchFrame | src/net/s2s_connector.cpp:607-659 | A reply completes the request with its number and no other; a stray one completes none |
| S2sConnector.AnsweredMeans | src/net/s2s_connector.cpp:607-659 | Those answered are the requests in the table whose number some frame carries, and nobody else |
| S2sConnector.Connector.OnRecv | src/net/s2s_connector.cpp:552-571 | A receive ends the connection exactly if it failed, a violation was reached, the kernel refuses the next receive, or a callback forces it; else the next receive is posted and exactly the requests answered have completed |
| S2sConnector.Connector.HandleCompletion | src/net/s2s_connector.cpp:477-504 | A completion is acted on if and only if it belongs to the current connection |
| S2sConnector.Connector.TakeCompletion | src/net/s2s_connector.cpp:477-492 | The count goes down by one for every completion, stale or not, and stays the number of issued, uncompleted I/Os |
| S2sConnector.Connector.Issue | src/net/s2s_connector.cpp:528-549 | A context is given to the kernel only when the kernel does not have it |
| S2sConnector.Connector.MaybeReconnect | src/net/s2s_connector.cpp:844-861 | A new connection is attempted exactly if there is none, the time has come, the kernel owes no completion and the socket could be prepared |
| S2sConnector.Connector.BeginConnect | src/net/s2s_connector.cpp:359-437 | Connecting exactly if the socket could be prepared and the connect was issued |
| S2sConnector.Connector.OnConnect | src/net/s2s_connector.cpp:439-473 | The link is up exactly if the connect succeeded, the first receive was posted and the callback did not force it down; then numbers start at 1 and nothing is unsent; no request is touched |
| S2sConnector.Connector.PostSend | src/net/s2s_connector.cpp:681-714 | No unsent byte is lost or reordered, and the right to send is held exactly while a send is outstanding |
| S2sConnector.Connector.OnSend | src/net/s2s_connector.cpp:716-725 | The connection stays exactly if the send succeeded and the next one was not refused; what is unsent is what was unsent before without the bytes reported sent, and has a send under way |
| SessionWorld.CountIsExact | src/net/iocp_server.cpp:407-435 | In every run, `io_count` of every session is the number of its owners |
| SessionWorld.RemovedForGood | src/net/iocp_server.cpp:524-560 | A session is removed once, with its gone-job done, and nothing touches it afterwards |
| SessionWorld.NothingLeaks | src/net/iocp_server.cpp:572-595 | A closing session without owners is removed, or a thread is on its way to remove it |
| SessionWorld.ClosingSessionGoes | src/net/iocp_server.cpp:407-595 | In every run, once nothing new is started for a closing session, at most 10 * io_count + 27 steps and its pending removals are left for it; until it is removed one of them can be taken; when all are taken it is gone |
| SessionWorld.ClosingIffClosed | src/net/iocp_server.cpp:407-435 | A session is closing exactly if a close_session on it went through, or its first receive could not be posted |
| SessionWorld.ClosedOnce | src/net/iocp_server.cpp:407-435 | Of all the close_session calls on a session one goes through |
| SessionWorld.RosterPointsAtLiveSessions | src/app/entry_table.cpp:167-190 | Every roster entry points at a session that is not removed and is owned |
| SessionWorld.GoneSessionIsOut | src/app/frame_router.cpp:1318-1361 | For every order of close, gone-job and Enter, a drained session owns no roster entry, and its roster hold came back as often as it was taken |
| SessionWorld.NotificationsAlternate | src/app/entry_table.cpp:64-105 | Per player, enter and leave notifications alternate across all sessions, and the last one says whether the player is in the roster |
| SessionWorld.JobsBeginInOrder | src/app/worker_pool.cpp:90-194 | The jobs a session's right begins, followed by those queued, are those submitted for it, in order: frames, enters and the gone-job |
| SessionLife.StepInv | src/app/frame_router.cpp:383-428 | Every atomic step of every thread around a session keeps its invariant |
| EnterHandlers.HandleEnter | src/app/frame_router.cpp:344-442 | With other sessions changing the roster and closing being set in between: busy exactly if draining stops an Enter that is otherwise in order; accepted exactly if the id is not 0, the session has none, nothing drains, the reservation is there and not expired, and the player was not in the roster when enter looked; a reservation asked for is used up, whatever follows; an accepted session is in the roster unless it was seen closing; a refused one and its entries stay as they were |
| EnterHandlers.FinishEnter | src/app/frame_router.cpp:383-428 | The entry stays exactly if closing was not seen, and the roster hold is kept exactly while it is there |
| EnterHandlers.OnSessionGone | src/app/frame_router.cpp:1318-1361 | Afterwards the session has no entry, and its roster hold has come back if and only if it was out |
| EnterHandlers.Reservations.Consume | src/app/entry_table.cpp:52-62 | A reservation is good once, and only before it expires |
| SessionObjects.FreshMessageLooksIdle | src/net/iocp_server.cpp:623-645 | A message one tick after the clock was read looks like 90 seconds of silence |
| SessionObjects.SilenceIsRightIffNotNewer | src/net/iocp_server.cpp:623-645 | The idle test is right if and only if nothing was received after the clock was read |
| SessionObjects.IocpServer.CollectIdle | src/net/iocp_server.cpp:623-649 | Exactly the sessions the idle test picks are collected, each with one hold of its own |
| SessionObjects.IocpServer.PickForClose | src/net/iocp_server.cpp:451-473 | The session with that id is found if there is one, and a hold is taken exactly if it is not closing |
| SessionObjects.IocpServer.TryRemoveSession | src/net/iocp_server.cpp:524-560 | Removal exactly if the session is known, closing and unowned |
| SessionObjects.IocpServer.ReleaseIo | src/net/iocp_server.cpp:572-595 | One hold less; the session is gone exactly if that was the last one of a closing session |
| SessionObjects.IocpServer.MarkClosing | src/net/iocp_server.cpp:407-435 | One caller is first, and only that one takes the gone-job's hold |
| Replication.ReplayGivesEntered | src/app/s2s_link.cpp:174-437 | In every run, while a FullSync is in force (sent to an entry of this connection, numbered in 16 bits, none of its players another entry's, and since then neither link nor entry lost nor the village's set changed by others), replaying the messages in flight over the server's table gives exactly the village's entered set |
| Replication.AgreementSurvivesIff | src/session/registry.cpp:18-216 | From every state in which what the server has or will have of the village is its entered set, each kind of step leaves it so exactly under the condition stated for it |
| Replication.AgreesThroughoutIff | src/session/registry.cpp:18-216 | In every run, once they agree they go on agreeing exactly as long as every step meets its condition |
| Replication.FullSyncAgreesIff | src/app/s2s_link.cpp:372-417 | From every registered state, agreeing or not, a FullSync makes them agree exactly if it has at most 65536 chunks and no player inside is another entry's without its PlayerEnter under way |
| Replication.InForceAgreesIff | src/session/registry.cpp:18-216 | While a FullSync is in force they agree, and the next step ends that exactly if it does not meet its condition |
| FullSyncChunks.ReplayMeans | src/session/registry.cpp:133-184 | After any messages, a player is the server's exactly if the last message about it brings it, or none is about it and it was, and nobody else has it unless a PlayerEnter came |
| Replication.UnregisteredPlayersAreUnknown | src/session/registry.cpp:105-122 | A run with a FullSync in force up to an Unregister with a player inside: the link stays up, nothing is in flight, and the server knows no player of the village |
| Replication.QuietLinkAgrees | src/app/s2s_link.cpp:174-437 | While a FullSync is in force and with nothing in flight, the server's entries for the village are its entered set |
| FullSyncChunks.FullSyncIsExactIff | src/app/s2s_link.cpp:398-408 | Whatever the table held, the chunks leave exactly the snapshot if and only if there are at most 65536 |
| FullSyncChunks.ChunksAreTheSnapshot | src/app/s2s_link.cpp:395-416 | The chunks laid one after another are the snapshot; each is full but the last, and numbered from 0 in 16 bits; an empty snapshot has one |
| FullSyncChunks.OneChunkTooMany | src/app/s2s_link.cpp:401-407 | 65537 players at one per chunk: the last chunk has index 0 again and leaves its own player only |
| FullSyncChunks.ChunksEffect | src/app/s2s_link.cpp:400-414 | The first n chunks leave what was sent since the last chunk with index 0 |
| FullSyncChunks.ApplyIsEffect | src/session/registry.cpp:133-184 | What a message does to the table is what it says about the set of the village's players |
| FullSyncChunks.ReplayIsEffect | src/session/registry.cpp:133-184 | The same for a sequence of messages |
| FullSyncCodec.DecodeEncode | src/proto/s2s_packet.h:489-526 | A chunk is read back as it was sent |
| FullSyncCodec.EncodeDecode | src/proto/s2s_packet.h:510-526 | Every accepted body is the encoding of what it is read as |
| FullSyncCodec.ChunkFitsCap | src/proto/s2s_packet.h:471-494 | A chunk fits the receive cap exactly up to 510 players |
| FullSyncCodec.Encode | src/proto/s2s_packet.h:489-505 | The loop writes the encoding |
| FullSyncCodec.Decode | src/proto/s2s_packet.h:510-526 | A body is accepted exactly if its length is what its count says; the fields are where the format has them, most significant byte first |
| FullSyncCodec.DecodedLayout | src/proto/s2s_packet.h:510-526 | Byte positions of every field and of every id of an accepted body |
| ConnectionTable.ClaimMeans | src/session/registry.cpp:169-182 | Claiming players never takes one from another server and changes nobody else |
| ConnectionTable.Connections.FullSyncReplace | src/session/registry.cpp:156-184 | The loops compute the replacement; reported are, in order, exactly those of the ids that another server has; the promised balance survives exactly if no player is claimed twice or is the server's already |
| FullSyncChunks.FullSyncClaimsAnew | src/app/s2s_link.cpp:395-416 | The chunks of one snapshot claim no player twice, so a FullSync that nothing comes between keeps the promised balance |
| ConnectionTable.Connections.DropServer | src/session/registry.cpp:186-198 | Exactly the server's entries go, and their number is returned |
| ConnectionTable.Connections.PlayerLeft | src/session/registry.cpp:138-146 | An entry goes only for the server that owns it |
| ConnectionTable.Connections.PlayerEntered | src/session/registry.cpp:133-136 | The counters balance when overwritten entries are counted; without, exactly if the player had no entry |
| ConnectionTable.EnteredTwice | src/session/registry.cpp:133-136 | One player entering at two villages: two added, none removed, one left |
| VillageLink.ChunkArrivesAsCut | src/app/s2s_link.cpp:382-414 | Whatever maximum is configured, every chunk of every snapshot can be encoded, is within the server's receive cap, and is decoded as it was cut |
| VillageLink.S2sLink.SendFullSync | src/app/s2s_link.cpp:372-416 | The loop queues chunks that make up the snapshot, in order and completely, one if it is empty |
| Wire.ReadsBack | src/proto/packet.h:334-379 | Writing a big-endian integer and reading it gives the integer |
| Wire.WritesBack | src/proto/packet.h:334-379 | Every byte string is how its value is written |
| Wire.WriteU64 | src/proto/packet.h:359-368 | Eight shifts write the big-endian form in place and touch nothing else |
| Wire.ReadU64 | src/proto/packet.h:370-379 | Eight shifts read it |
| TradeMachine.SettlesAtMostOnce | src/app/frame_router.cpp:955-973 | No trade is handed to the database twice, in any interleaving |
| TradeMachine.SettlesWhatBothConfirmed | src/app/frame_router.cpp:951-973 | A settlement rests on a confirmation of each of its own two parties, not toggled since, after which nobody set a slot, and on an acceptance by the invited side before both |
| TradeMachine.SettledSlotsAreTheirOwn | src/app/frame_router.cpp:867-893 | What a settled order takes from each party is what that very party put up last, nothing if it never did |
| TradeMachine.SlotsAreLastPutUp | src/app/frame_router.cpp:873-893 | In every run, the slot of the asker is what the asker put up last in that trade, that of the asked what the asked did |
| TradeMachine.ConfirmedIffStands | src/app/frame_router.cpp:885-893 | A confirmation is up if and only if that session's latest toggle was on and nobody has set a slot since |
| TradeMachine.OpenIffAccepted | src/app/frame_router.cpp:785-807 | A trade is open if and only if the invited side has accepted it, naming its inviter |
| TradeMachine.PointsIffInTrade | src/app/frame_router.cpp:297-327 | A session's trade pointer is set exactly from the request that made the trade for it to the first decline, settlement or clearing that takes it out |
| TradeMachine.MadeByRequest | src/app/frame_router.cpp:718-733 | The two sides of a trade are those of the request that made it, when both were free |
| TradeMachine.SettlesIff | src/app/frame_router.cpp:951-973 | A step settles if and only if it switches a confirmation on, in a trade that is current and open, while the other side's is up |
| TradeMachine.SettledOrdersAreValid | src/app/frame_router.cpp:851-862 | What is settled is within the count limit and between two sessions |
| TradeMachine.AgreementBreaksIff | src/app/frame_router.cpp:297-327 | From a state in which all pointers are matched, a locked block leaves an unmatched one if and only if it is the clearing of a session whose partner has left the roster |
| TradeMachine.PointersAgree | src/app/frame_router.cpp:297-327 | In every run, all pointers are matched until that has happened |
| TradeMachine.PointersCanDisagree | src/app/frame_router.cpp:297-327 | A run after which a session points at a trade its partner has been cleared from |
| TradeObjects.Create | src/app/frame_router.cpp:718-733 | Both sessions get the new trade exactly if neither had one |
| TradeObjects.Answer | src/app/frame_router.cpp:785-807 | Refused unless the invited side answers its own inviter on a trade that is current and not open |
| TradeObjects.SetItem | src/app/frame_router.cpp:851-893 | Within the count limit and on a current, open trade, the caller's own item and count are set, a count of 0 taking the item down, the other side's stay, and both confirmations are off; otherwise nothing changes |
| TradeObjects.Confirm | src/app/frame_router.cpp:951-973 | Only the caller's own confirmation changes; when both are up, both pointers go |
| TradeObjects.Clear | src/app/frame_router.cpp:297-327 | Only the own pointer is checked; the peer's is cleared whatever it is |
| Frames.ParseInPieces | src/net/iocp_server.cpp:675-771 | Parsing may stop at any byte and go on from there: the frames are those of one look at everything |
| Frames.TilesParse | src/client/frame_codec.h:81-107 | Frames laid one after another are received as those frames |
| Frames.ParseTiles | src/client/frame_codec.h:81-107 | What is delivered are whole frames that tile the stream |
| Frames.ParseStops | src/app/frame_router.cpp:1196-1217 | Parsing stops only at an unfinished or a bad frame |
| Frames.UnfinishedLeavesRoom | src/net/iocp_server.cpp:345-372 | An unfinished frame is shorter than the receive buffer |
| Frames.Verdicts | src/app/frame_router.cpp:1196-1217 | The sizers refuse bodies over 4096 and 4092 bytes, and a frame is whole exactly if header and body are there |
| Receiving.ReceiveAll | src/net/iocp_server.cpp:300-342 | For every split of the stream into completions, the frames delivered are its one-shot parse up to the first one that pool or sink refuse, and it is closed exactly if there is such a frame or a violation |
| Receiving.Receiver.OnRecv | src/net/iocp_server.cpp:300-342 | After every completion the jobs queued are the parse of all bytes so far, or a proper part of it up to a frame that was refused |
| Receiving.Receiver.DrainFrames | src/net/iocp_server.cpp:675-771 | Draining stops early only at a violation or at a whole frame that pool or sink refuse |
| Receiving.Receiver.PrepareRecv | src/net/iocp_server.cpp:345-372 | The "recv buffer full" branch is never taken |
| Receiving.RecvBuffer.Compact | src/net/session.h:86-95 | The pending bytes are kept and moved to the front |
| ClientFraming.BuiltFrameReadsBack | src/client/frame_codec.h:49-65 | A built frame is one frame exactly if its body is within the limit, and reads back |
| ClientFraming.LyingFrameIsNotCutWhole | src/client/frame_codec.h:49-65 | A frame with a forged length is never taken for one whole frame |
| ClientFraming.SentIsParsed | src/client/frame_codec.h:81-107 | Any sequence of frames and an unfinished tail is parsed back |
| ClientFraming.ParseFrames | src/client/frame_codec.h:81-107 | The loop computes the one-shot parse |
| ClientFraming.FrameTally.Feed | src/client/socket_set.h:118-137 | Fed in any pieces, the tally is what one look at the whole stream gives |
| SendMachine.StreamIsTheQueuedMessages | src/net/iocp_server.cpp:778-963 | Wire, unsent part of front, and back are always the queued messages, whole and in order |
| SendMachine.QueuedIffItFits | src/net/iocp_server.cpp:813-850 | In every run, a message is queued if and only if back has room for all of it within 1 MiB |
| SendMachine.OneSendAtATime | src/net/iocp_server.cpp:895-963 | At most one send is outstanding, and the bytes the kernel reads do not change under it |
| SendMachine.BuffersAreBounded | src/net/session.h:57 | back stays within 1 MiB, both buffers within 2 MiB |
| SendMachine.QuietMeansSent | src/net/iocp_server.cpp:895-963 | Without a send failure, unsent bytes have exactly one thread or send working on them, and once nobody is, all is sent |
| SendMachine.EachLongRowKicksOnce | src/net/iocp_server.cpp:800-890 | Each row of dropped messages that reaches the limit closes the session once, however many senders are in it |
| SendObjects.SendBuffer.SendChunks | src/net/iocp_server.cpp:778-850 | The loop queues a message's chunks as one message exactly if they fit in 1 MiB, else drops all of it and lengthens the streak; a closing session or an empty message changes nothing |
| SendObjects.SendBuffer.TakeBatch | src/net/iocp_server.cpp:895-920 | The batch is the unsent part of front, or all of back when front has gone out; the right is given up exactly if there is nothing to send |
| SendBuffers.TakeKeepsUnsent | src/net/iocp_server.cpp:902-915 | Refilling front loses and reorders nothing |
| Assignment.Choose | src/session/registry.cpp:241-270 | The loop finds the eligible server with the smallest exact load ratio, then the smallest id; none exactly if none is eligible |
| Assignment.ChoiceIgnoresOrder | src/session/registry.cpp:241-270 | The choice does not depend on the order of the entries |
| Assignment.BestMeans | src/session/registry.cpp:241-270 | Best, spelled out: in order, and against any other in order a smaller ratio of players and unexpired reservations to capacity, or an equal one and a smaller id |
| Assignment.CrossProductFitsIff | src/session/registry.cpp:263-265 | The 64-bit products are exact for every capacity if and only if the load is at most 2^32 + 1 |
| Assignment.NoOverflow | src/session/registry.cpp:263-265 | Up to that load the 64-bit comparison is the exact one |
| Assignment.CountValid | src/session/registry.cpp:418-429 | The loop counts the unexpired reservations for a server |
| RegistryTables.Registry.RegisterServer | src/session/registry.cpp:18-90 | Re-registration, revival of the latest orphan, or a new entry, in that order; ids stay unique and a link is asked for exactly where there is none |
| RegistryTables.Registry.RegisterAndAttach | src/session/registry.cpp:343-356 | The entry says what the village said, under its old id and mode if it was there; a link is attached exactly where one was asked for, which always succeeds |
| RegistryTables.Registry.Assign | src/session/registry.cpp:218-287 | The best server after the health check gets a reservation with a number never used before |
| RegistryTables.Registry.Revoke | src/session/registry.cpp:358-366 | Only the reservation made by that very assign is removed; issued = overwritten + expired + revoked + remaining |
| RegistryTables.Registry.Unregister | src/session/registry.cpp:105-122 | The entry, its connections and its link go together; the grace is set in any case |
| RegistryTables.Registry.OnLinkDown | src/session/registry.cpp:200-216 | The link is handed back and the first orphan time is kept |
| RegistryTables.Registry.Sweep | src/session/registry.cpp:289-330 | Exactly the expired reservations and overdue orphans go; every link of those is handed back and no connection to them stays |
| RegistryTables.Registry.DetachAll | src/session/registry.cpp:332-341 | Every entry loses its link and nothing else, and the number of links is returned |
| RegistryTables.Registry.FindOrphan | src/session/registry.cpp:37-46 | The orphan of that address orphaned last; none exactly if there is none |
| RegistryTables.Registry.FullSyncReplace | src/session/registry.cpp:156-184 | Connections keep pointing at registered servers only |
| LateReplies.ReplyMatchesIff | src/session/session_router.cpp:619-636 | In every run, whenever something waits under a request's number, it is that request if and only if the connection's numbering has not started again and the number was not given out again since |
| LateReplies.ReplyFindsItsOwnRequest | src/session/session_router.cpp:857-860 | With fewer than 2^32 numbers given out since, a reply at any later moment finds its own request pending or nothing, if and only if the numbering has not started again |
| LateReplies.LateReplySeesWhatWasAsked | src/session/session_router.cpp:619-640 | The player, server and reservation the reply's handler goes by are those of the request it answers |
| LateReplies.NothingIsLost | src/session/session_router.h:91-98 | Until some connection has used all its numbers, no pending request is overwritten |
| LateReplies.RunOk | src/session/session_router.cpp:201-909 | In every run, requests sent = ended in one way + pending + overwritten, and every pending entry is the last request sent under its number |
| LateReplies.ReplyAcrossEpochsCanMatchAnother | src/session/session_router.cpp:786-793 | After it was dropped, the reply to an old request would match a new one |
| LateReplies.ReplyAfterAllNumbersCanMatchAnother | src/session/session_router.cpp:145-147 | So it would 2^32 requests later |
| RouterRequests.NumberIsFree | src/session/session_router.cpp:272-288 | While a connection has numbers left, the next one is nobody's |
| RouterRequests.SendReserveOk | src/session/session_router.cpp:272-288 | Sending keeps sent = ended + pending + overwritten, and each pending entry traceable to its request |
| RouterRequests.SendKickOk | src/session/session_router.cpp:234-252 | The same for kicks |
| RouterRequests.SetModeOk | src/session/session_router.cpp:145-147 | The same for a SetMode, which takes a number and waits for nothing |
| RouterRequests.ReserveReplyOk | src/session/session_router.cpp:619-675 | A reply moves one request from pending to one outcome |
| RouterRequests.KickReplyOk | src/session/session_router.cpp:552-596 | The same for kicks |
| RouterRequests.EndAllOk | src/session/session_router.cpp:827-869 | Timeouts count every request they end |
| RouterRequests.LinkDroppedOk | src/session/session_router.cpp:776-821 | A link that goes down counts every request it ends |
| RouterRequests.AllStoppedOk | src/session/session_router.cpp:884-909 | So does shutdown, and nothing is pending after it |
| RouterRequests.ConflictsAreKicked | src/session/session_router.cpp:461-491 | After a FullSync every player it conflicts on has a kick under way on the link |
| RouterRequests.Requests.SendKick | src/session/session_router.cpp:236-251 | At most one kick per player is pending on a link |
| RouterRequests.Requests.FindKick | src/session/session_router.cpp:201-210 | The scan answers whether one is |
| RouterRequests.Requests.Stop | src/session/session_router.cpp:884-909 | After shutdown every request sent has exactly one outcome, or was overwritten |
| SessionRouter.Router.HandleRegister | src/session/session_router.cpp:717-753 | The entry has the address, capacity, load and time reported, a link exactly if the connection is new; refused exactly if there is no room; link holds are conserved: acquired = released in four ways + held by entries + left over |
| SessionRouter.Router.OnUnregister | src/session/session_router.cpp:391-409 | That entry and its connections go and no other, the grace is set, and link holds are conserved |
| SessionRouter.Router.OnGone | src/session/session_router.cpp:776-821 | The entry stays without its link, orphaned now unless it was before; the connection's requests fail; link holds are conserved |
| SessionRouter.Router.OnSweep | src/session/session_router.cpp:827-869 | Expired reservations, overdue orphans with their connections, and overdue requests go; link holds are conserved, with every stale link returned |
| SessionRouter.Router.Shutdown | src/session/session_router.cpp:884-920 | Every entry loses its link and nothing else; every hold acquired is released or counted as left over |
| LateRefusals.RefusalTakesBackItsOwn | src/session/session_router.cpp:613-675 | In every run of logins, answers, sweeps and lost links: the refusal of the Reserve one login sent, however late, removes the reservation that very login made if it still stands and the request is pending, and otherwise nothing, while the connection's numbering stands |
| LateRefusals.NumberNamesTheLogin | src/session/registry.cpp:282-286 | A reservation has the number of a login exactly if that login made it and nothing has replaced or removed it since |
| SessionRouter.Router.HandleLogin | src/session/session_router.cpp:212-295 | A player connected through a live link, and nobody else, is busy and has a kick under way; any other login is refused exactly if, after the health check, no server is in order, and is else sent to one in order, the best while the 64-bit products are exact, with a reservation there under an issue number never used before and a Reserve over its link |
| SessionRouter.Router.OnReserveReply | src/session/session_router.cpp:613-675 | A refusal takes back the reservation it answers and no other, and marks the village draining exactly if it says so |
| SessionRouter.Router.OnKickReply | src/session/session_router.cpp:552-596 | A connection is cleared only for a matched "not found", and only if it is still that server's |
| SessionRouter.Router.OnFullSync | src/session/session_router.cpp:450-510 | The table is replaced for a registered connection only, and afterwards every player in conflict has a kick under way, while the connection's numbers last |
| SessionRouter.Router.RequestSetMode | src/session/session_router.cpp:128-156 | Exactly that server is marked, and one number is used up exactly if it has a link |
| Roster.EntryTable.MoveZone | src/app/entry_table.cpp:107-129 | Roster and zone index agree before and after |
| Roster.EntryTable.Leave | src/app/entry_table.cpp:81-105 | Only the session that entered leaves, and its bucket follows |
| Roster.EntryTable.Enter | src/app/entry_table.cpp:64-79 | Inserted exactly if the player is absent, notified exactly then |
| Roster.EntryTable.EraseFromBucket | src/app/entry_table.cpp:13-30 | Swap-and-pop removes that session's one place; an empty bucket goes |
| Roster.EntryTable.ZoneSize | src/app/entry_table.cpp:159-165 | The bucket's size is the number of entries in the zone |
| Roster.EntryTable.SnapshotZone | src/app/entry_table.cpp:131-145 | Each session in the zone once, and nobody else |
| Roster.LeaveAgrees | src/app/entry_table.cpp:91-99 | Leaving keeps every bucket exactly the zone's sessions, each once, none empty |
| Roster.PlaceAgrees | src/app/entry_table.cpp:125-127 | So does entering a zone |
| Roster.DisplaceAgrees | src/app/entry_table.cpp:119-123 | So does being taken out of one |
| Roster.OnePlayerPerSession | src/app/entry_table.cpp:159-165 | The sessions in a zone are as many as its entries |
| Roster.SwapPopRemoves | src/app/entry_table.cpp:24-25 | Swap-and-pop removes one element and keeps all others, once each |
| BufferPool.Pool.Acquire | src/core/buffer_pool.h:39-52 | Refused exactly if all buffers are lent; otherwise a buffer inside the storage that shares no byte with a lent one; the peak is the most ever lent |
| BufferPool.Pool.Release | src/core/buffer_pool.h:54-58 | The buffer can be lent again |

## Left out

- Winsock, IOCP and ConnectEx: completions are events with any outcome the API allows. Clocks are inputs.
- Weak memory: atomics are sequentially consistent.
- S2sConnector.Connector.ThreadMain: speaks of the requests drained from the command queue, because `stop` clears the running flag before it closes that queue (src/net/s2s_connector.cpp:41, 47), so a request may still be queued between the two and never be drained. The message id counts as part of a command's body, and the codec is any function of number and body. Reconnect timing, backoff and statistics are not modelled, and receiving works on frames already cut.
- SessionWorld.GoneSessionIsOut: runs end before `WorkerPool::stop`; after it jobs may stay queued and the sessions are deleted without regard to `io_count`. The idle sweep is taken not to hit a session between `add_session` and its first receive. Two sessions at the same address one after the other are different sessions here.
- Replication.ReplayGivesEntered: how soon a FullSync follows is not said; other villages, and a Kick answered "not found", are changes of the table from elsewhere. That a FullSync is answered by kicks where it conflicts is in SessionRouter.Router.OnFullSync.
- SendMachine.EachLongRowKicksOnce: does not say that the session gets closed by it alone; closing is idempotent and others may be first.
- ClientFraming.FrameTally.Feed: counts are unbounded, the source's are 32 bits wide.
- RegistryTables.Registry.RegisterServer: server ids are unbounded, the source's are 32 bits wide.
- RouterRequests.Requests.SendKick: each pending table is one map keyed by connection and number together, where the source nests two.
- SessionRouter.Router.HandleRegister: counters that the source raises after leaving the mutex are raised in the same step. The protocol version check and the wire formats of the answers are left out.
- Roster.EntryTable.SnapshotZone: the holds taken on the sessions are in SessionLife.dfy, as lookups through the roster.
- Roster.EntryTable.Enter: a session enters under one player id only, which its handler guarantees (src/app/frame_router.cpp:357-366).
- EnterHandlers.HandleEnter: the length check of the body and the wire format of the answer are left out; of `io_count` only the roster's share is counted here, all of it in SessionLife.dfy.
- TradeObjects.Create: the checks before the locks (same zone, same player, busy) only answer early and are left out; MySQL and the stored procedures are one opaque settlement.
- Chat, inventory, echo and ping handlers, bad-message scoring, configuration, logging and the client's subcommands: branches with nothing to carry over a run.
- Cross-village "one player, one place": not guaranteed while a PlayerEnter is in flight, so not stated.
