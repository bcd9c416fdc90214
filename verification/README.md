# NetNatsue: a verified model of the NetBabel client

NetNatsue is a single-threaded client for the NetBabel wire protocol: it logs in, follows which users are
online, asks the server questions under client-chosen tickets, and carries creatures between players as files
in an outbox and an inbox. This project models that client and proves what its parts promise together.

The hardest part is the inbound stream. A response does not say how long it is; only the request registered
under its ticket does. Framing therefore depends on what the client has asked, abandoned and already been told,
and the central result is that client and server nevertheless stay in lock-step over every run. The other main
results: what is on the wire always reads as one handshake and whole packets; chunk boundaries do not matter;
every answer bears the ticket of the very request it is returned for, and comes from that request's connection
but after one kind of reconnect; going only by what its calls returned, a game that minds three rules has every
watched user's state right; what the server reads is exactly what was asked and set; phases are sound and waits end on
a clock that wraps; and a creature's file listed in the outbox goes out and arrives byte for byte under a name that
tells its sender.

## How it is built

The client is modelled twice. A value, `Client.Mgr`, holds everything a manager has, and each operation is a
function on it; on these functions the laws are proved, over every state, every run and every script of
answers. The classes (`Manager.DSNetManager`, `Sockets.NetNatsueSocket`, `Hosts.Host`, the history and memory
buffers) have the program's own fields and loops, and each method is proved to do to the object exactly what the
function does to its value (`View()`), frames included, so that every law holds of the objects.

| file | what it holds |
|---|---|
| Bytes, Uins, Protocol, ServerList | integers in 32 bits, ids and spool names, packets both ways, short user data, the server list |
| Sockets, Clock, Spool | the socket as two byte queues over a kernel's answers, the wrapping clock, files |
| Tickets, Watch | the transaction table; presence, the register and the queue of changes |
| Client, Connection, Api | the packet loop, the connection phases, the public calls and runs of them |
| Acts | every public call as a script of small acts; what each act keeps, each call keeps |
| Chunking, LockStep, LockStepRun, LockStepCalls | framing and lock-step |
| Sound, Ledger, Answers, Tables, Timing, Room | what runs keep: phases, outbound stream and register; mail and virtual circuits; answers; the table offline and refused logins; time; searches that end |
| Presence, Late | no lost presence changes; answers across connections |
| Reports, Told, Replies, Meters, Leftovers | what the game is told: presence, changes, mail, answers, byte counts; and nothing left behind in the table |
| Logins, Requests, Failures | what the server is told and tells: logging in, every question and registration, refusals and losses |
| Guarantees, Warp, Outbox | what the invariants mean to the server; warp delivery, and what a scan of the outbox sends and keeps safe |
| Instances | runs from a manager as constructed that show what is not promised |
| History | the history blob, its writer and readers |
| Host, Manager | the classes |

Some fields are history: the packets sent and dispatched, every buffer accepted for writing, every request ever
asked, the last response under each ticket, on which connection each was, whom the game believes online. They are
ghost in the classes, and no operation's effect on the other fields depends on them.

The world outside is data. The kernel's answers to `send`, `recv`, `select` and `connect` are scripts in the
state, of which every theorem covers all; an exhausted script means "would block". Elapsed time is a natural
number of milliseconds that only waits and the host change, and the client sees it modulo 2^32. The disk is a map
from paths to bytes with a script of write outcomes and a directory listing.

## Claims that do not hold, and what does

- A presence change can be lost. `Instances.LosingRun` is a run from construction that does it: `AddToWWR` answers
  at once on a socket whose death was not noticed and leaves its `myPendingWWRAdds` entry behind; connecting again
  from the online phase keeps it; the next report of that user is taken for the awaited answer and not queued.
  `PresenceRuns.NoLostChangesByCalls` says what a game has to mind for it not to happen, `PresenceRuns.NoLostChanges`
  what a run has to be like; one report or login is described exactly by `Watching.UpdateMisses` and
  `Watching.RegisterMisses`. `Told.TheGameIsRight` says the same without any history, by what the calls returned.
- Unwatching a user does not take back a change already queued: `Told.RemovedIsGone`.
- A query left pending over a disconnect can take a later connection's answer, if the disconnect was a dead socket
  that `ConnectInBackground` found before a pump did: `Instances.LateRun` and, for all three polled queries,
  `Instances.LaterReplyFiled`. This is the only way (`LateAnswers.LateOnlyAfterReconnecting`), and a server that answers
  only what was asked on the connection at hand rules it out (`LateAnswers.LeftOverQueriesFail`).
- Presence keys are canonical `uid+hid` strings while callers' strings are looked up as they are:
  `PresenceRuns.OtherSpellingsNeverShow`, and `Instances.LeadingZero` for a spelling that is accepted.
- `FromString` undoes `ToString` only for ids without a negative half: `Uins.ParseToString`.
- Packing a string into a full buffer can leave its length without its bytes, and unpacking can use up a length
  and fail: `History.PackedStringReads`, `History.NetMemoryUnpack.PackOutString`.
- Being offline does not imply an empty table: `Instances.OfflineWithEntries`. `Tables.OfflineTable` says exactly what
  the table holds, and `Tables.NothingCarried` when it is empty.
- `DSNetManager::GetStatus` can return without blocking and leave its outputs as they were, where the model returns no
  report: `Instances.UnsetRun`, and exactly when in `Instances.StatusUnset`.
- A refused login need not be what the caller sees: the packets buffered behind it are still handled, and a virtual
  connect among them, or a header that makes no sense, replaces the refusal by a lost connection:
  `Instances.OverturnedRun`, and exactly when in `Tables.RefusalStands`.

## Model

| member | source | states |
|---|---|---|
| `LockStepCalls.LockStepOverCalls` | DSNetManager.cpp:620-727 | Over any run of public calls, server packets and arriving chunks, the server also sending while a call waits for its answer, with a server that answers each request of the connection at most once in that request's own form and otherwise sends known packets under unregistered tickets, and fewer than 2^32 - 1 tickets taken: no pump of any call, however deep in a wait, meets a length it finds berserk or an unknown type; every answer ever filed came in on the connection its question was asked on; and while the connection lives, every unanswered request of it, abandoned or not, is in the table with the length of its answer, the packets dispatched are exactly the first ones the server sent, and the next pump stops on a packet boundary |
| `LockStepCalls.DoAlone` | DSNetManager.cpp:1003-1025 | A call with turns of the others in its waits is, without such turns, the call |
| `LockStepRun.LockStepOverRuns` | DSNetManager.cpp:962-1025 | The same over any interleaving of the single events the calls are made of (start, poll, abandon, send, pump, connect, disconnect), with server packets and chunks arriving between any two of them, as happens inside a blocking wait |
| `LockStepRun.EventSteady` | DSNetManager.cpp:962-1001 | Each single event keeps the two sides in step |
| `LockStepCalls.MoveSteady` | DSNetManager.cpp:1091-1428 | Each public call keeps the two sides in step, the server sending in its waits, the outbox scan included, and no pump in it derails |
| `Acts.CallLeads` | DSNetManager.cpp:1091-1631 | Every public call is a script of small acts (pump, wait, ask, poll, abandon, write and so on), each done only where it is proper: questions and packets only online, to the server that logged the client in, from its own id and with just that question, a loss only on a dead socket, a record only for a question just asked; the two calls that loop, Connect and the random user without a flag, are runs of these (`Timing.ConnectIsRun`, `Timing.RandomIsRun`) |
| `LockStep.FrameWhole` | DSNetManager.cpp:641-699 | A response of any type field is framed by its ticket to header + fixed extra + further data, and an unsolicited packet by its type to its documented length, whatever follows in the buffer |
| `LockStep.FramePart` | DSNetManager.cpp:701-702 | Any proper beginning of such a packet is waited on, never taken for a packet or an error |
| `LockStep.ProcessInStep` | DSNetManager.cpp:620-727 | From a packet boundary of the server's stream, processing dispatches whole packets up to the last boundary, without a berserk-length or unknown-type disconnect; it can only lose the connection in answering a virtual connect |
| `Chunking.ChunkingDoesNotMatter` | DSNetManager.cpp:620-727 | Processing some bytes, then more, leaves the very same client as processing all of them at once, dispatched packets, tables and leftover buffer included; if the first part drops the connection the rest stays unread either way |
| `Guarantees.WireOverRuns` | DSNetManager.cpp:427-444 | Over any run of calls and any pattern of partial sends, what has reached the wire splits by the documented layout alone into the first packets sent, one handshake foremost, and a beginning of the next |
| `Guarantees.WireIsPackets` | NetNatsueSocket.cpp:270-305 | At any sound moment the bytes on the wire are whole packets and a beginning of the next packet sent |
| `Protocol.SplitBuilt` | NetNatsueProtocol.cpp:112-286 | A reference framer that knows only the layout (52 bytes plus two lengths, 36, 40 or 32 plus the further data) splits any concatenation of built packets, followed by a part of another, back into exactly those packets, field by field, and that part |
| `Protocol.BuiltFields` | NetNatsueProtocol.cpp:112-286 | Every field of every packet kind is read back from its bytes, virtual socket numbers cut to 16 bits |
| `Protocol.BuiltSize` | NetNatsueProtocol.cpp:112-286 | A built packet's own integers give its length, whatever follows |
| `Protocol.PartialPacket` | NetNatsueProtocol.cpp:112-286 | A proper beginning of a packet is never taken for a whole one |
| `Protocol.ReadWriteHeader` | NetNatsueProtocol.cpp:84-106 | All eight header fields, negative ones included, survive the little-endian encoding |
| `Bytes.GetPutInt` | NetNatsueProtocol.cpp:18-34 | Four bytes written for an int, read in unsigned steps and converted, give the int back |
| `Bytes.PutGetInt` | NetNatsueProtocol.cpp:18-34 | The int read from four bytes determines those bytes |
| `Bytes.PutIntAt` | NetNatsueProtocol.cpp:36-43 | The int can be read at the offset; nothing else of the buffer changes |
| `Protocol.RelayedMessage` | NetNatsueProtocol.cpp:235-316 | A message built for a target, with the 8 target bytes stripped by the relay, parses to sender (hid cut to 16 bits), type and contents |
| `Protocol.ParseShortUserData` | NetNatsueProtocol.cpp:318-350 | The parser, with every local an int so that no sum or difference can overflow and every index below size, agrees with the specification ParseUser |
| `Protocol.ParseUserBlob` | NetNatsueProtocol.cpp:318-350 | A blob laid out with any three names is accepted exactly if its declared total is not beyond its end, and all names are recovered, hid modulo 2^16 |
| `Protocol.ParsedUserIsBlob` | NetNatsueProtocol.cpp:318-350 | Nothing else is accepted: whatever is accepted is such a layout of the names returned |
| `Sockets.NetNatsueSocket.Write` | NetNatsueSocket.cpp:270-279 | A written buffer joins the end of the outbound queue; partial sends, would-block and errors as the kernel answers |
| `Sockets.NetNatsueSocket.FlushOutput` | NetNatsueSocket.cpp:281-305 | The send loop does what FlushSock says for any script of kernel answers |
| `Sockets.NetNatsueSocket.ReadInput` | NetNatsueSocket.cpp:307-337 | The receive loop does what ReadSock says for any script of kernel answers |
| `Sockets.NetNatsueSocket.Pump` | NetNatsueSocket.cpp:339-352 | Sends before it reads; reports whether the connection is still there |
| `Sockets.NetNatsueSocket.PumpConnect` | NetNatsueSocket.cpp:208-254 | A connection under way is established, refused or left pending as select answers |
| `Sockets.NetNatsueSocket.BeginConnect` | NetNatsueSocket.cpp:126-206 | Buffers are emptied only when a connection attempt really begins |
| `Sockets.NetNatsueSocket.Close` | NetNatsueSocket.cpp:256-268 | Unsent bytes are dropped, received ones kept |
| `Sockets.NetNatsueSocket.ConsumeInput` | NetNatsueSocket.cpp:371-379 | Removes from the front, more than there is emptying the buffer |
| `Sockets.FlushKeepsQueues` | NetNatsueSocket.cpp:281-305 | Wire ++ output stays the concatenation of everything written, and the wire only grows |
| `Sockets.WriteKeepsQueues` | NetNatsueSocket.cpp:270-279 | The same with the new buffer at the end; empty or dead-socket writes add nothing |
| `Sockets.ReadMovesData` | NetNatsueSocket.cpp:307-337 | Reading moves bytes from the kernel to the end of the input, losing and reordering none |
| `Sockets.ConsumeKeepsQueues` | NetNatsueSocket.cpp:371-379 | Consumed ++ input stays what was received |
| `Sockets.CloseKeepsQueues` | NetNatsueSocket.cpp:256-268 | Closing keeps both queues' invariants, received bytes included |
| `Guarantees.InboundOverRuns` | NetNatsueSocket.cpp:307-337 | Over any run of calls, bytes consumed ++ bytes buffered equal bytes received since the connection began, across Close |
| `Ledger.RunLedger` | DSNetManager.cpp:868-955 | Over any run: messages handed to the game, then those waiting, are exactly the well-formed non-PRAY messages dispatched, in order and once, across reconnects; and every virtual connect dispatched on a connection not yet lost has been acknowledged in order with the initiator's number and the next local one |
| `Ledger.DoLedger` | DSNetManager.cpp:1430-1444 | Each public call keeps that ledger |
| `Ledger.NextVSNIs` | DSNetManager.cpp:283-289 | The k-th virtual socket number is ((k - 1) mod 65535) + 1 |
| `Ledger.VsnDistinct` | DSNetManager.cpp:283-289 | It is never zero, and any 65535 consecutive ones are distinct |
| `Tickets.NextTicketIs` | DSNetManager.cpp:275-281 | The counter, in wrapping 32-bit arithmetic, follows a closed form over all non-zero values |
| `Tickets.TicketsRepeat` | DSNetManager.cpp:275-281 | Two tickets are equal exactly when a whole number of cycles of 2^32 - 1 lies between them |
| `Tickets.FreshTicket` | DSNetManager.cpp:275-281 | Below the first wrap the next ticket was never used before |
| `Tickets.AnsweredKeeps` | DSNetManager.cpp:810-866 | After a response every entry of the table is still the request that took its ticket, unanswered, abandoned, or holding the decoding, as its own kind, of a response that bore that ticket |
| `Tickets.AbandonKeeps` | DSNetManager.cpp:972-985 | Abandoning keeps that, as a tombstone with its length |
| `Answers.FetchAnswer` | DSNetManager.cpp:1208-1272 | A name returned for a user was decoded from a response bearing the ticket issued for that very fetch of that user; a fetch whose ticket died with its connection only fails |
| `Answers.RandomAnswer` | DSNetManager.cpp:1274-1323 | The random user returned is the one a response bearing that request's ticket names |
| `Answers.StatusAnswer` | DSNetManager.cpp:1339-1406 | A non-zero user count is the second integer of a response bearing that request's ticket; a dead ticket gives 0 |
| `Answers.RunFollows` | DSNetManager.cpp:962-1025 | Over any run below 2^32 - 1 tickets, what was asked under a ticket stays on record and a ticket once gone never comes back |
| `LateAnswers.StaleFetchFails` | DSNetManager.cpp:525-546 | A name fetch whose entry is gone from the table can only fail, however long the client runs on and reconnects |
| `LateAnswers.StaleRandomFails` | DSNetManager.cpp:525-546 | The same of a request for a random user |
| `LateAnswers.StaleStatusFails` | DSNetManager.cpp:525-546 | The same of a status query: its count is 0 |
| `LateAnswers.LateOnlyAfterReconnecting` | DSNetManager.cpp:496-500 | With any server: a question asked on this connection is answered by a later one only if a connection was begun from the online phase on a dead socket with its ticket in the table |
| `LateAnswers.LaterAnswer` | DSNetManager.cpp:488-509 | And if it was in the table unanswered when a connection began, any answer it gets is a later connection's |
| `LateAnswers.LeftOverQueriesFail` | DSNetManager.cpp:962-1025 | With a server that answers only what was asked on the connection at hand, over any run: what an earlier connection left unanswered fails, be it a name, random-user or status query, even if its entry was carried over |
| `LateAnswers.ReconnectedQueriesFail` | DSNetManager.cpp:488-509 | The same from the moment of reconnecting on: every query unanswered then fails |
| `Instances.LaterReplyFiled` | DSNetManager.cpp:496-500 | From every state in which the socket has died unnoticed while a question waits: connecting again and a response under its ticket make that response the answer, on a later connection than the question |
| `Instances.LaterNameTaken` | DSNetManager.cpp:1208-1272 | So FetchUserData returns the name in it |
| `Instances.LaterUserTaken` | DSNetManager.cpp:1274-1323 | So DSFetchRandomUser returns the user in it |
| `Instances.LaterStatusTaken` | DSNetManager.cpp:1339-1406 | So GetStatus reports the count in it |
| `Instances.LateRun` | DSNetManager.cpp:496-500 | Such a run from a manager as constructed: log in, ask, a failing write, connect again, and the later answer is returned |
| `PresenceRuns.NoLostChanges` | DSNetManager.cpp:1031-1202 | Over any run in which no AddToWWR of the user answers while its entry stays behind, and every login that starts to watch the user finds them unknown or offline: the change queue holds nobody twice, and draining it tells the game the user's state, if watched and not being added |
| `PresenceRuns.NoLostChangesByCalls` | DSNetManager.cpp:1122-1170 | What the game can do to be sure of it: not call AddToWWR offline while the user is waited for, hand ConnectInBackground only users already watched as far as this user is concerned, and not unwatch the user before that login |
| `Watching.UpdateMisses` | DSNetManager.cpp:1047-1062 | One report swallows a change exactly if the user's pending add was left behind by an AddToWWR that already answered, nothing is queued for the user, and the game believes the opposite |
| `Watching.RegisterMisses` | DSNetManager.cpp:1076-1089 | Login swallows a state exactly if it starts to watch, with no AddToWWR under way, a user already known online for whom nothing is queued |
| `Instances.LosingRun` | DSNetManager.cpp:1122-1170 | A run from a manager as constructed, packet by packet, that loses a change: log in, an add that has to wait, a failing write, the add called again, a new connection and login, and the report of the user coming online, which the game never hears of |
| `Watching.DrainedIsCurrent` | DSNetManager.cpp:1192-1202 | Draining the queue leaves the game's view equal to the presence table for every settled user whose change was not swallowed |
| `Watching.UpdateKeeps` | DSNetManager.cpp:1031-1063 | A presence report keeps the queue free of duplicates and every settled user in view or queued unless swallowed, and sets exactly that user's state |
| `Watching.FinishAddKeeps` | DSNetManager.cpp:1122-1170 | An AddToWWR that answers leaves the game in step with that user |
| `Watching.OtherSpellingsStayUnknown` | DSNetManager.cpp:1031-1048 | One report never makes a user registered under another spelling than the canonical id known |
| `PresenceRuns.OtherSpellingsNeverShow` | DSNetManager.cpp:1031-1063 | Over any run, every key of the presence table is an id as ToString prints it, so a user watched under another accepted spelling is never heard of |
| `Instances.LeadingZero` | NetNatsueProtocol.cpp:56-78 | There is one: "01+1" is accepted and is not what ToString prints |
| `Sound.RunCore` | DSNetManager.cpp:376-562 | Over any run of calls, with any kernel, clock and peer: the phase invariant, the outbound discipline and the register's invariant hold |
| `Guarantees.PhasesOverRuns` | DSNetManager.cpp:376-562 | Online implies last error OK, raw error 0 and a server uid that is not 0; failed implies an error; idle or failed implies a socket neither connected nor connecting |
| `Guarantees.PumpEnters` | DSNetManager.cpp:729-756 | A pump goes online only in a turn of the loop that handles an accepted handshake response while one is awaited |
| `Guarantees.DoEnters` | DSNetManager.cpp:488-509 | No public call goes online in any other way than by such a pump; Connect and the random user without a flag are runs of calls (`Timing.ConnectIsRun`, `Timing.RandomIsRun`) |
| `Tables.OfflineTable` | DSNetManager.cpp:525-546 | Over any run: idle, the table is empty; and outside the online phase it holds exactly the tickets carried over by the last connecting from the online phase and not taken out since, so it is empty there if and only if there are none |
| `Tables.NothingCarried` | DSNetManager.cpp:488-509 | There are none if no connection was begun from the online phase with entries in the table |
| `Instances.OfflineWithEntries` | DSNetManager.cpp:496-500 | A run from a manager as constructed that ends offline, connecting, with an entry in the table |
| `Tables.RefusalStands` | DSNetManager.cpp:714-749 | For every state whose first whole packet is a refused login: the refusal stands after ProcessInput if and only if no whole virtual connect and no broken header is buffered behind it; otherwise the connection is reported lost in its place |
| `Instances.OverturnedRun` | DSNetManager.cpp:714-749 | A run from a manager as constructed whose login is refused and whose caller sees a lost connection |
| `Instances.StatusUnset` | DSNetManager.cpp:1359-1371 | For every state: a GetStatus that does not block leaves its outputs unset if and only if it is the first call of a query, made online, and its packet cannot be written |
| `Instances.UnsetRun` | DSNetManager.cpp:1365-1371 | A run from a manager as constructed after which it does |
| `Clock.TimeAfterReal` | DSNetManager.cpp:65-80 | On 32-bit readings the test agrees with real-time order exactly while the times are within the same 2^31 ms window |
| `Timing.ConnectWithin` | DSNetManager.cpp:511-523 | On a clock that advances in steps of at most some bound, Connect ends within 30 s plus one step, or within what a connection found under way has left plus one step, decided, having begun exactly one connection, or none if it found the client online or a connection under way |
| `Timing.ConnectIsRun` | DSNetManager.cpp:511-523 | Connect is a run of ConnectInBackground calls with waits between them, so all that holds over runs of calls holds of it |
| `Timing.RandomIsRun` | DSNetManager.cpp:1325-1337 | DSFetchRandomUser without a block flag is such a run of the form with one |
| `Timing.WaitForWithin` | DSNetManager.cpp:1003-1025 | The wait for a transaction ends at most one step after its deadline |
| `Timing.QueriesUnblock` | DSNetManager.cpp:1263-1322 | A name, random-user or status query no longer blocks once its 10 s are up |
| `Timing.QueriesUnblockOverRuns` | DSNetManager.cpp:1208-1322 | From the first, blocking call of such a query on, any run that leaves it pending ends, inside the window of the clock, with a call that unblocks |
| `Timing.AddUnblocks` | DSNetManager.cpp:1150-1169 | An AddToWWR no longer blocks once its 4 s are up |
| `Timing.AddUnblocksOverRuns` | DSNetManager.cpp:1122-1170 | The same from its first, blocking call on, over any run that leaves the user waited for |
| `Warp.WarpDelivered` | DSNetManager.cpp:1461-1555 | A file of at most 32 MiB - 36 bytes put at the path handed out for a user goes out as one packet to that user; the receiver that has the relayed packet at the front of its buffer stores exactly the same contents under an unused name, from which the sender's id is read |
| `Warp.WarpReceived` | DSNetManager.cpp:874-887 | Any receiver, with anything registered and anything following, dispatches the relayed packet in one turn and keeps every other file but a stale temporary one of the new name |
| `Warp.OutboxFileSent` | DSNetManager.cpp:1522-1555 | Whatever spelling of an address its name has, the file is removed exactly if its whole packet was accepted for writing, and otherwise the disk is as before |
| `Warp.OutboxPath` | DSNetManager.cpp:1461-1482 | The path handed out is unused and reads back as the user, spelled canonically |
| `Warp.ScanOutboxIsSafe` | DSNetManager.cpp:1557-1578 | Over a scan of a directory that lists no name twice no warp file is lost: it stays, is renamed because its name has no valid address, or a write of its whole packet to the user it names was accepted |
| `Warp.TickIsSafe` | DSNetManager.cpp:1592-1602 | Over a whole tick the pump before the scan, whatever it stores, leaves every warp file alone, and the scan is safe |
| `Spool.SerialFound` | DSNetManager.cpp:1498-1508 | The search for an unused serial, from wherever it begins, ends exactly on the file systems that do not occupy every serial of this user in this directory |
| `Spool.FewFilesLeaveFree` | DSNetManager.cpp:1469-1481 | Such is any with fewer than 2^32 files |
| `Rooms.CallHasRoom` | DSNetManager.cpp:1489-1520 | Every search a call makes ends on a disk with a serial number left for every byte that can still arrive, however many messages come in while it waits |
| `Rooms.ConnectHasRoom` | DSNetManager.cpp:511-523 | The same of the blocking Connect |
| `Rooms.RandomRunHasRoom` | DSNetManager.cpp:1325-1337 | The same of DSFetchRandomUser without a block flag |
| `Spool.SpooledFile` | DSNetManager.cpp:1489-1520 | The payload lands whole under an unused name; no other file changes but a stale temporary one of that name |
| `Hosts.Host.UnusedSerial` | DSNetManager.cpp:1469-1481 | The loop ends and yields an unused path, the first free serial on from the clock's seconds |
| `Hosts.Host.WriteWholeFileAtomic` | DSNetManager.cpp:117-140 | Each failure leaves the files as the steps before it do; success puts the contents in place |
| `Uins.FromString` | NetNatsueProtocol.cpp:56-78 | The scanning loop accepts exactly digits + digits and returns what Parse says, nothing otherwise |
| `Uins.ParseToString` | NetNatsueProtocol.cpp:49-78 | FromString undoes ToString exactly for ids without a negative half |
| `Uins.ToStringParse` | NetNatsueProtocol.cpp:49-78 | For accepted input below 2^31, ToString after FromString strips leading zeros and nothing else |
| `Uins.SpoolPathUser` | DSNetManager.cpp:179-213 | For any serial and any directory made to end in a separator, the path's base name is the spool name and its user part is exactly uid+hid |
| `Uins.SpoolNameInjective` | DSNetManager.cpp:1473-1475 | Different serials give different names |
| `ServerList.ReadServers` | DSNetManager.cpp:762-800 | The parsing loop, its indices checked against the data, returns what Announced says |
| `ServerList.AnnouncedIsPrefix` | DSNetManager.cpp:762-800 | A list of 1 to 999 servers, cut at any byte after the count, yields exactly the servers wholly there |
| `ServerList.AnnouncedIsList` | DSNetManager.cpp:762-800 | Uncut, exactly the list encoded |
| `History.ReadBlob` | compat/HistoryTransferOut.h:13-25 | Reading any serialised record along the documented layout returns every field, event, index and text in order, with nothing left |
| `History.ReadBack` | compat/HistoryTransferOut.cpp:67-125 | The writer and the reader objects together: what was recorded is what is read, Remaining() is 0 |
| `History.HistoryTransferOut.Serialise` | compat/HistoryTransferOut.cpp:67-116 | The loops append exactly the blob of what was recorded; once serialised the buffer never changes |
| `History.HistoryTransferOut.GetAddress` | compat/HistoryTransferOut.cpp:118-125 | Nothing without a moniker; else the snapshot of the first call |
| `History.HistoryTransferOut.GetLength` | compat/HistoryTransferOut.cpp:127-133 | The length of the same snapshot, in 32 bits |
| `History.NetMemoryUnpack.PackOut` | NetMemoryUnpack.cpp:16-25 | Succeeds exactly if the bytes are there, and then moves on by exactly those |
| `History.NetMemoryUnpack.PackOutString` | NetMemoryUnpack.cpp:27-37 | Succeeds exactly on a whole string; a failed string still uses up its length |
| `History.NetMemoryPack.PackIn` | NetMemoryPack.cpp:22-30 | Data that does not fit is dropped whole |
| `History.PackedStringReads` | NetMemoryPack.cpp:32-38 | A packed string can be read back exactly if there was room for length and bytes together; with room for the length alone it is there without the string |
| `Manager.DSNetManager.constructor` | DSNetManager.cpp:232-248 | A fresh manager satisfies every run invariant above and is in step with any server |
| `Manager.DSNetManager.HandleTransactionResponse` | DSNetManager.cpp:810-866 | Does to the table what Answered says, decoding by the request's kind |
| `Manager.DSNetManager.HandlePacket` | DSNetManager.cpp:868-955 | Does what the specification of the same name says for every type, and reports a lost connection exactly when Drops says; what it makes of reports is `Reports.PresenceOverRuns` |
| `Manager.DSNetManager.FrameInput` | DSNetManager.cpp:641-702 | Finds the length that Frame says, on the live table |
| `Manager.DSNetManager.ProcessInput` | DSNetManager.cpp:620-727 | The loop does what Process says; each continuing turn consumes a header's worth or more |
| `Manager.DSNetManager.HandleHandshakeResponse` | DSNetManager.cpp:729-808 | Ignores strays, refuses, or logs in, as HandleHandshake says |
| `Manager.DSNetManager.SendWWRRegistrations` | DSNetManager.cpp:1076-1089 | The loop over the users stops at the first failed write and skips ids that do not parse |
| `Manager.DSNetManager.UpdatePresence` | DSNetManager.cpp:1031-1063 | Does what Update says to presence, pending adds and the change queue, its search loop included |
| `Manager.DSNetManager.MarkEveryoneOffline` | DSNetManager.cpp:1065-1074 | Everyone offline, queue and pending adds empty |
| `Manager.DSNetManager.StartConnecting` | DSNetManager.cpp:376-420 | Does what the specification of the same name says, a failure at once included |
| `Manager.DSNetManager.PumpConnectPhase` | DSNetManager.cpp:422-486 | Login, waiting for the answer and the deadline, in that order; what the login says is `Logins.GreetingOverRuns`, what the caller is told `Failures.ConnectingTells` |
| `Manager.DSNetManager.Pump` | DSNetManager.cpp:603-618 | Handles what arrived before noticing the loss |
| `Manager.DSNetManager.ConnectInBackground` | DSNetManager.cpp:488-509 | Begins, or goes on, or answers; to be called again exactly while under way |
| `Manager.DSNetManager.Connect` | DSNetManager.cpp:511-523 | Terminates, in the state Timing.Connect says |
| `Manager.DSNetManager.Disconnect` | DSNetManager.cpp:525-534 | Socket closed, table empty, everyone offline |
| `Manager.DSNetManager.ConnectionLost` | DSNetManager.cpp:536-546 | The same with the socket's error reported |
| `Manager.DSNetManager.WaitForTransaction` | DSNetManager.cpp:1003-1025 | Terminates, with the result WaitFor says |
| `Manager.DSNetManager.IsUserOnline` | DSNetManager.cpp:1091-1120 | Answers from its own id, from presence, or by asking |
| `Manager.DSNetManager.AddToWWR` | DSNetManager.cpp:1122-1170 | Does what the specification of the same name says over its first and later calls |
| `Manager.DSNetManager.RemoveFromWWR` | DSNetManager.cpp:1172-1185 | Forgets the user, and tells the server only if the id parses and the client is online |
| `Manager.DSNetManager.NextChangedUserWWR` | DSNetManager.cpp:1192-1202 | Takes the front of the queue with the user's current state, as `Told.NextIsTold` has it |
| `Manager.DSNetManager.FetchUserData` | DSNetManager.cpp:1208-1272 | Does what the specification of the same name says over its first and later calls |
| `Manager.DSNetManager.DSFetchRandomUser` | DSNetManager.cpp:1274-1323 | The same for a random user |
| `Manager.DSNetManager.DSFetchRandomUserNow` | DSNetManager.cpp:1325-1337 | The form without a block flag terminates |
| `Manager.DSNetManager.GetStatus` | DSNetManager.cpp:1339-1406 | The same for the status, with -1 in every field while offline |
| `Manager.DSNetManager.PostDirectMessage` | DSNetManager.cpp:1412-1428 | True exactly if the whole packet was accepted for writing; a failed write loses the connection |
| `Manager.DSNetManager.GetMessages` | DSNetManager.cpp:1430-1444 | Pumps and returns everything waiting, in order, as `Told.MailOverRuns` has it |
| `Manager.DSNetManager.DSFeedHistory` | DSNetManager.cpp:1609-1630 | Refuses offline or without data; a failed write loses the connection |
| `Manager.DSNetManager.ReturnUniqueOutboxFilename` | DSNetManager.cpp:1461-1482 | An unused path for the user, or nothing for a bad id or no outbox |
| `Manager.DSNetManager.SendOutboxFile` | DSNetManager.cpp:1522-1555 | Renames a badly named file, skips one that is gone, else sends and removes |
| `Manager.DSNetManager.ScanOutbox` | DSNetManager.cpp:1557-1578 | The loop over the listing stops when the connection goes; `Outbox.ScanSends` says what it sends |
| `Reports.PresenceOverRuns` | DSNetManager.cpp:899-914 | Over any run, what is held about any user is exactly what the packets dispatched said: a first byte 0x0D is online and 0x0E offline, with id and nick name from the body, 0x1D goes by fields C, D and E; lost connections take everyone offline, unwatching forgets, and a name fetch adds the name it returned |
| `Reports.LastWordCounts` | DSNetManager.cpp:1031-1074 | So, since the connection was last lost or the user unwatched, a user counts as online if and only if the last packet dispatched about them said so |
| `Reports.AddWaits` | DSNetManager.cpp:1122-1170 | AddToWWR asks to be called again if and only if the user is waited for, which is only ever until something is heard of them |
| `Reports.AddIsPatient` | DSNetManager.cpp:1157-1167 | It gives up only when its time is up, something was heard, or the connection went |
| `Told.NextIsTold` | DSNetManager.cpp:1192-1202 | NextChangedUserWWR reports the front of the queue with the state the user is in, which is what the game believes from then on; and nothing if and only if the queue is empty |
| `Told.CollectedIsQueue` | DSNetManager.cpp:1192-1202 | Called until there is nothing more, it reports everyone queued once, in order, each with their state |
| `Told.TheGameIsRight` | DSNetManager.cpp:1031-1202 | Over any run that spares the user, going only by what the calls returned (changes reported, AddToWWR finished) and by the connection, the game that then collects all changes has the user right, if they are watched and no AddToWWR is under way |
| `Told.TheGameIsRightByCalls` | DSNetManager.cpp:1122-1170 | The same where the game minds its calls |
| `Told.MailOverRuns` | DSNetManager.cpp:1430-1444 | Over any run, what the GetMessages calls returned, one after the other, and then what is still waiting, is exactly the messages that the packets dispatched brought |
| `Told.RemovedIsGone` | DSNetManager.cpp:1172-1176 | Unwatching leaves a user wholly gone if and only if no change of theirs is queued and no list waiting for the login has them |
| `Told.GoneOverRuns` | DSNetManager.cpp:1172-1202 | Such a user stays unwatched and unreported over any run that does not add or list them again |
| `Replies.OnlineKnown` | DSNetManager.cpp:1091-1103 | IsUserOnline without asking: no for a bad id or offline, yes for oneself, and else the state held |
| `Replies.OnlineReplies` | DSNetManager.cpp:1105-1120 | Asking, it says yes if and only if the client is still online and the response to that very query carries an address or sets E; it goes without a response only after 5 s |
| `Replies.HistoryReplies` | DSNetManager.cpp:1609-1630 | An upload is confirmed if and only if the client is still online and a response bears its ticket; it goes without only after 8 s |
| `Replies.NameReplies` | DSNetManager.cpp:1245-1271 | A name asked for is returned if and only if its response is there after a pump; the call is to be repeated exactly while there is none, the question stands and there is time; else it returns nothing |
| `Replies.RandomReplies` | DSNetManager.cpp:1299-1322 | The same of the random user |
| `Replies.StatusReplies` | DSNetManager.cpp:1376-1405 | The same of the number of users |
| `Meters.CountersOverRuns` | NetNatsueSocket.cpp:281-337 | Over any run, reconnects included, the counters stand at all bytes ever sent and received, in 32 bits |
| `Meters.ReportOverRuns` | DSNetManager.cpp:1384-1405 | A report made online gives those and the milliseconds since the accepted handshake response was handled |
| `Leftovers.OwnedOverRuns` | DSNetManager.cpp:962-1001 | No transaction is forgotten: over any run, each in the table is waited for by a recorded query or abandoned |
| `Logins.GreetingOverRuns` | DSNetManager.cpp:427-444 | After any run on a client that had sent nothing, the first packet a server reads off the wire is a handshake with the name and password set last, the id remembered, the version and the next ticket, all as they stood, connecting, before the call that wrote it |
| `Logins.IdentityOverRuns` | DSNetManager.cpp:729-804 | Over any run, server id, own id, server list and time of login are those the first handshake response of each connection gave, if it was accepted, and else as before |
| `Logins.OnlineIds` | DSNetManager.cpp:733-751 | Online, server id and own id are fields A, B and C, D of the first handshake response of the connection, which has no error code |
| `Logins.SettingsOverRuns` | DSNetManager.cpp:308-312 | Over any run, name, password and directories are those set last, directories made to end in a separator |
| `Requests.TalkOverRuns` | DSNetManager.cpp:962-970 | Over any run: the questions sent on the connection are exactly those on record for it, each as asked, in the order of their tickets and once; messages and registrations go to the server that logged the client in and from its own id; and online the server follows for it only whom the game watches |
| `Requests.ReadOffTheWire` | NetNatsueProtocol.cpp:112-267 | So every question read off the wire by the documented layout is on record as it stands there |
| `Requests.AddIsTold` | DSNetManager.cpp:1139-1148 | A first AddToWWR while online has the server follow the user, if the write goes through |
| `Requests.ListIsFollowed` | DSNetManager.cpp:1076-1089 | Whoever is on the list a connection was begun with is watched and followed whenever the client is online in the run after it, while the game neither unwatches them nor connects without them |
| `Failures.ConnectingTells` | DSNetManager.cpp:422-486 | A pump of a connection under way leaves it so only on a live socket and in time; a failure is told as the refusal's code, as the socket's error negated, or as 0 when time ran out |
| `Failures.OnlineTells` | DSNetManager.cpp:603-618 | A pump online leaves the client online on a live socket, or idle and told the socket's error |
| `Failures.RefusalCodes` | DSNetManager.cpp:549-562 | Which refusal codes stand for which error |
| `Outbox.TickSends` | DSNetManager.cpp:1557-1602 | Over a tick with a scan due and the client online throughout: the packets of all files the outbox lists with an address go out whole, in order and once; each such file is gone, and each without an address moved to .bad with its contents; with none due the tick is its pump |
| `Outbox.ScanSends` | DSNetManager.cpp:1557-1578 | The same of a scan |
| `Outbox.DueAgain` | DSNetManager.cpp:1562-1566 | The next scan is due 5 s later, or once something may have been put in the outbox |
| `Outbox.OneKept` | DSNetManager.cpp:144-176 | A listed name is taken exactly if something stands before the extension it ends in |
| `Outbox.KeptInOrder` | DSNetManager.cpp:144-176 | And a listing yields what its parts yield, in their order |
| `Sockets.FlushEnds` | NetNatsueSocket.cpp:281-305 | The send loop goes on until all is sent or the kernel blocks or fails, and tells its error |
| `Sockets.ReadEnds` | NetNatsueSocket.cpp:307-337 | The receive loop takes all the kernel has up to the answer that ends it, and tells its error |
| `Sockets.FirstAnswerDecides` | NetNatsueSocket.cpp:208-254 | However often a connection under way is polled, the first answer of select that decides does |
| `Spool.FailedSpool` | DSNetManager.cpp:117-142 | A message that cannot be written, or has no inbox, leaves no file and harms none but a stale temporary one of its name |

## Left out

- Sockets, name resolution, `setsockopt` and the choice of server (override, rotation, port): only their effect on
  buffers, states and error codes is modelled, through scripts; Winsock is not part of this model.
- Time within one call: the clock is read as often as the code reads it but advances only in waits; each wait
  takes at least 1 ms and less than 2^31 ms.
- Files: atomicity under crashes and failing reads of existing files are not modelled; a listing is data, and
  `Warp.ScanOutboxIsSafe` and `Outbox.ScanSends` take its names to be distinct, as a directory's are.
- Logging, action texts, accessors, the message thread and build wiring: they carry no property.
- `ProcessQueuedMessages`, `QueueMessage` and the destructor: the queued messages' code is not part of this model.
- `SetClientMode` and `SetServerList` are no calls of a run: version and server list are part of the state it starts
  from.
- HistoryStore.h is not part of this model: life events and creature histories are records of the fields read.
- C++ strings and vectors are byte sequences; ownership, allocation failure and a null `data` are not modelled.
- Overflow of signed counters (tickets, byte counts) is taken to wrap, as compilers for the platforms do.
- `atoi` is taken as a 64-bit `strtol` cut to 32 bits; the theorems only rely on values below 2^31.
- PostDirectMessage: a negative size is not modelled, because data is a sequence here.
- Byte order of the host: the packer and unpacker copy an `int` as it lies in memory; the model takes the host to be
  little-endian with ints of 4 bytes.
- NetMemoryPack and NetMemoryUnpack: sums of sizes are unbounded here, 32-bit in the source.
- The server: only its side of the bargain in the lock-step theorems and the relay's stripping of a message's
  target are modelled.
- Searches that do not end: where every serial of a user is in use the source's loop runs for ever. The methods ask for
  exactly that not to be met (`Spool.HasFree`, `Rooms.CallEnds`), and the specification functions then find nothing.
- Timing.AddUnblocks: speaks of the connection on which the add is pending, because losing it clears the entry.
