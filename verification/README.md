# Verified model of the DLT daemon's core

This project models parts of a fork of GENIVI DLT (Diagnostic Log and Trace) in
Dafny and proves what they keep over whole runs. It has four components.

- **Logging** (`Logging*.dfy`, `ByteRing*.dfy`, `Fifo.dfy`). The daemon's state
  machine: messages are broadcast to the connected clients, or queued in a ring
  buffer and drained later; refused messages are counted and reported. The steps
  re-enter each other: a failed send closes a socket, which logs and so sends
  again, and a forced send may queue an overflow notice, which is a send too.
  `LoggingSpec` has the machine as functions over an environment that decides
  every socket answer and every refusal of the ring, `LoggingDaemon` has it as a
  class with the daemon's own mutual recursion, and the two are proved equal.
  `LoggingIdeal` has a daemon without states and ring, which hands every message to
  whoever is connected or keeps it for the next client, and proves that on every run in
  which nothing is refused the daemon is that one.
  `ByteRing` has the ring buffer itself, byte by byte, and proves that it is the
  FIFO the machine takes it for.
- **Registry** (`Ids.dfy`, `Registry*.dfy`, `SlotTable.dfy`, `Levels*.dfy`,
  `LogInfo*.dfy`, `SaveLoad.dfy`, `TextLines.dfy`). The sorted tables of
  applications and contexts of one ECU, the handles they own, their log levels and
  trace statuses, the GET_LOG_INFO answer, and the text files the tables are kept in.
- **Boot-cycle sort** (`BootSort.dfy`, `Sorting.dfy`), the tool `dlt-sortbytimestamp`.
- **Rotation** (`Rotation.dfy`), size-limited output of the tool `dlt-receive`.

`dafny verify dfyconfig.toml` checks the whole project.

## Findings

Five properties one would expect turn out not to hold in general. Each has a concrete
counterexample and the exact condition under which it holds.

1. *A message answered Ok can be neither sent nor queued.* The broadcast loop goes
   through the poll table by index. When a client fails, its entry is removed and the
   next entry slides into its place, and the loop skips it. With two neighbouring
   client entries the message can reach nobody while one client stays connected.
   `TwoClientsLoseAMessage` is a run of three events. `LossIffNeighbours` says for one send that two
   neighbouring client entries are the exact condition, and `RunLossIff` says it for whole runs: some
   answers of the operating system lose a message if and only if some answers bring the run to an event
   that sends to all clients directly while two of them are neighbours (`CanLose`, a condition on the state, the
   table and the event). Draining the ring never loses anything (`DrainKeeps`). `NoLoss` is about one given run:
   nothing is lost unless a client closed by a broadcast had another client right
   behind it; runs in which nothing is refused and runs without neighbouring clients,
   which include all runs with one client at a time, are special cases.
2. *Growing an empty ring buffer breaks it.* `dlt_buffer_increase_size` takes equal
   read and write positions for a full buffer. `Push3` states the exact condition
   (the first message does not fit and the buffer grows), `GrowthOfEmptyLoses` is a
   concrete case, and `DefaultSizesSuffice` proves that the daemon's own sizes never get there.
3. *The boot-cycle sort drops and doubles messages.* Messages behind the last boundary are
   not written: `WholeInputIff` has the exact condition and `TwoCyclesDropOne` a file of two messages.
   Without any boundary the copy of the first message that stands behind the index takes part in
   the second sort. Every sort then loses a latest message and writes the first one twice
   exactly when another message is later than the first (`CertainLossIff`, `LossIs`); the output is certain to be
   the input exactly when the first message is later than all others (`CertainIff`); and
   `TwoMessagesLoseOne` is a file of two messages of which one is lost.
4. *An application-wide level request is not clamped.* With enforcement on, it keeps the
   limits whatever the handles answer exactly when it asks for no more, or when the application is unknown
   or has no contexts (`AppWideIff`). `AppWideRaises` is a run of three events that ends above the limit.
5. *The answer for a context id alone does not decode.* GET_LOG_INFO without an application id announces for every
   application the number of all its contexts, and writes only those with the id. `RoundTrip` proves for every
   request that the answer decodes to what was asked for if and only if no context is left out;
   `ReplyDecodes` says the same of the whole buffer, padding included. `OneOfTwoMisread` is a table of one
   application and two contexts.

Where code and comments disagree, the code is modelled: the gap called
FIFTY_SEC_IN_MSEC is 500000 units of 0.1 ms, and the comment beside its use speaks of 15 seconds.

## Assumptions

- Logging: mode EXTERNAL or BOTH, no serial device, no UDP, no offline storage; the ring refuses a push only
  with at least two messages queued (proved of the default sizes by `DefaultSizesSuffice`); connections
  leave only through `dlt_daemon_close_socket`.
- The drain's buffer has 10024 bytes (src/daemon/dlt-daemon.c:3370, src/daemon/dlt-daemon_cfg.h:82). What is proved
  of the ring goes further on both sides: `DefaultSizesSuffice` and `PushToDaemonRing` queue messages of up to 65535
  bytes, and `DltBuffer.Get` returns a message in full even where it is longer than the buffer of the caller, with
  a warning. The ring itself thus does not keep longer messages from the drain, and the state machine describes
  the drain only while no queued message is longer than 10024 bytes.
- Registry: ids are zero-padded 7-bit strings of four characters; descriptions are C
  strings; allocation never fails; accept() and open() hand out no descriptor below 3.
- Sort: the range begins with the first message. Rotation: renames succeed, writes are
  complete, and nobody else changes the directory.

## Model

| member | source | states |
|---|---|---|
| `LoggingRuns.ReachableShape` | src/daemon/dlt_daemon_client.c:274-302 | in every reachable state: overflow notices are never nested, BUFFER_FULL has at least two messages queued, counted losses imply a non-empty ring, SEND_DIRECT has an empty ring and nothing counted, no client means a buffering state |
| `LoggingRuns.OverflowConserved` | src/daemon/dlt-daemon.c:2603-2634 | over any run, rejected calls plus losses reported by applications equal the current counter plus the counts carried by accepted notices |
| `LoggingRuns.EveryMessageAccounted` | src/daemon/dlt_daemon_client.c:259-306 | over any run with any number of clients, accepted messages are exactly those released after a send, those queued and those lost; every released one reached a client |
| `LoggingRuns.NoLoss` | src/daemon/dlt-daemon.c:3396-3422 | over any run on any table in which no client closed by a broadcast had another client right behind it, every message answered Ok has been sent to a client or is still queued |
| `LoggingRuns.NothingRefused` | src/daemon/dlt_daemon_client.c:125-163 | a run in which nothing is refused is such a run |
| `LoggingRuns.NoLossApart` | src/daemon/dlt_daemon_client.c:125-163 | a run without neighbouring client entries is such a run and loses nothing |
| `LoggingRunLoss.RunLossIff` | src/daemon/dlt_daemon_client.c:125-163 | for any table and events, some answers make the run lose a message if and only if some answers make it meet an event that sends to all clients in SEND_DIRECT, or with timing packets after a drain, while two client entries are neighbours |
| `LoggingRunLoss.RunSafe` | src/daemon/dlt_daemon_client.c:259-306 | a run that meets no such event loses nothing, whatever the answers |
| `LoggingRunLoss.RunLoses` | src/daemon/dlt_daemon_client.c:125-163 | for a run that meets one, the answers that lose a message |
| `LoggingRunLoss.EventLoses` | src/daemon/dlt-daemon.c:2039-2145 | the answers that lose a message in one such event: a send, a reported overflow, a connect, a close or the timer |
| `LoggingScripts.StepScript` | src/daemon/dlt-daemon.c:1059-1080 | whatever an event did under some answers it does under answers that leave any given ones for the events to come |
| `LoggingRuns.RunKeeps` | src/daemon/dlt-daemon.c:3578-3588 | every run keeps the shape of the state, the conservation of counts and the accounting of messages |
| `LoggingRuns.StepKeeps` | src/daemon/dlt-daemon.c:2039-2145 | every event (connect, send, close, timer, reported overflow) keeps them |
| `LoggingRuns.ForceKeeps` | src/daemon/dlt_daemon_client.c:259-272 | a forced send of a queued message keeps them and loses none, although it may close sockets and send again; when it reports success, a client that took the message is still connected |
| `LoggingRuns.DrainKeeps` | src/daemon/dlt-daemon.c:3383-3422 | the whole drain keeps them and loses no message |
| `LoggingSpec.RingPush` | include/dlt/dlt_common.h:1368-1463 | a push appends or leaves the ring alone; it is accepted exactly when fewer than two messages are queued or the next answer says there is room |
| `LoggingSpec.DrainStepCloser` | src/daemon/dlt-daemon.c:3386-3422 | every turn of the drain loop comes closer to its end, so it terminates |
| `LoggingSpec.QuietBroadcast` | src/daemon/dlt_daemon_client.c:103-164 | a broadcast that closes nobody sends the message to every client once, in the order of the poll table, and changes nothing else but the answers still to come |
| `LoggingIdeal.QueuedOrCounted` | src/daemon/dlt_daemon_client.c:274-302 | while messages are queued, a send to all is accepted and appended exactly when the ring is not in BUFFER_FULL and has fewer than two messages or the next answer is yes; otherwise it is answered BUFFER_FULL and counted; nothing else changes |
| `LoggingIdeal.SpecificOrFailed` | src/daemon/dlt_daemon_client.c:177-206 | a send to one socket fails exactly when the socket refuses it, and changes nothing |
| `LoggingIdeal.StateTellsResult` | src/daemon/dlt_daemon_client.c:259-306 | whatever the sockets answer, the state read again after a send to all tells its result: BUFFER_FULL means refused and counted, a buffering state that the message is the newest in the ring, SEND_DIRECT that nothing is owed |
| `LoggingIdeal.ReportQueuedOrCounted` | src/daemon/dlt-daemon.c:2578-2614 | losses reported while messages are queued are announced in the ring, or counted together with the refused notice |
| `LoggingIdeal.DrainTaken` | src/daemon/dlt-daemon.c:3383-3422 | as long as nothing is refused the drain hands the ring to every client, in order, with one notice about everything discarded, and ends in SEND_DIRECT with nothing queued or counted |
| `LoggingIdeal.ConnectHandsOver` | src/daemon/dlt-daemon.c:2039-2145 | from every good state without a client, BUFFER_FULL included, the first client that takes what it is sent gets all queued messages, its greeting unless the ring was full, and the notice, in that order; then the state is SEND_DIRECT with nothing queued or counted |
| `LoggingIdeal.TimerHandsOver` | src/daemon/dlt_daemon_client.c:2255-2298 | with clients and in SEND_BUFFER or BUFFER_FULL the timer hands everything over too, and the timing message behind it |
| `LoggingIdeal.CloseAnnounces` | src/daemon/dlt-daemon.c:3562-3605 | a closed connection is announced by two messages to whoever is left; with nobody left the daemon queues them, in BUFFER even if the ring was full |
| `LoggingIdeal.WillingRunIsIdeal` | src/daemon/dlt-daemon.c:1059-1080 | on every run from the start in which nothing is refused, poll table, ring, wire, accepted messages and reported losses are those of the ideal daemon, and nothing is discarded, counted or lost |
| `LoggingIdeal.AllQueued` | src/daemon/dlt_daemon_client.c:274-306 | before a client connects and while there is room, any number of sends leaves exactly these messages in the ring, in order, and none refused |
| `LoggingRuns.QueuedBroadcast` | src/daemon/dlt_daemon_client.c:103-164 | while messages are queued, a broadcast only adds to the ring behind them, stays in a buffering state, loses nothing, and if it reached a client leaves one that it reached connected |
| `LoggingInvariants.ToAllBooks` | src/daemon/dlt_daemon_client.c:259-306 | a send to all keeps the books: accepted messages are those released, queued and lost together, and every released one, besides any still owed further up the call stack, is on the wire |
| `LoggingInvariants.BroadcastReaches` | src/daemon/dlt_daemon_client.c:125-163 | a broadcast that skips no client reaches some client or leaves none connected |
| `LoggingLoss.LossIffNeighbours` | src/daemon/dlt_daemon_client.c:125-163 | in SEND_DIRECT some answers of the sockets lose the message if and only if two client entries are neighbours |
| `LoggingLoss.NeighboursCanLose` | src/daemon/dlt_daemon_client.c:125-163 | for any such table, the answers that lose the message |
| `LoggingLoss.TwoClientsLoseAMessage` | src/daemon/dlt_daemon_event_handler.c:142-168 | a run from the start: two clients connect, the first fails, the message is lost |
| `LoggingSingleClient.FifoDelivery` | src/daemon/dlt-daemon.c:3383-3422 | with one client at a time, delivered messages followed by the ring are the accepted messages in completion order, once each |
| `LoggingSingleClient.SoloRun` | src/daemon/dlt-daemon.c:2128-2142 | the invariant behind it over any run, with connects and disconnects in between |
| `LoggingDaemon.DltDaemon.ClientSend` | src/daemon/dlt_daemon_client.c:166-306 | the imperative send is the specified one, whose results `QueuedOrCounted` and `StateTellsResult` state; its recursion terminates |
| `LoggingDaemon.DltDaemon.SendAllMultiple` | src/daemon/dlt_daemon_client.c:103-164 | the loop over the poll table is the specified broadcast |
| `LoggingDaemon.DltDaemon.SendMessageOverflow` | src/daemon/dlt-daemon.c:2616-2634 | the notice carries the counter and is a send to all one level deeper |
| `LoggingDaemon.DltDaemon.SendRingbufferToClient` | src/daemon/dlt-daemon.c:3367-3425 | the drain loop is the specified drain |
| `LoggingDaemon.DltDaemon.CloseSocket` | src/daemon/dlt-daemon.c:3562-3605 | removing an entry, the change of state and the announcements |
| `LoggingDaemon.DltDaemon.ProcessClientConnect` | src/daemon/dlt-daemon.c:2039-2145 | a new client, its greeting and the hand-over are the specified ones, which `ConnectHandsOver` and `WillingRunIsIdeal` are about |
| `LoggingDaemon.DltDaemon.ProcessUserMessageOverflow` | src/daemon/dlt-daemon.c:2578-2614 | losses reported by an application are counted and announced |
| `LoggingDaemon.DltDaemon.ProcessOneSecondTimer` | src/daemon/dlt_daemon_client.c:2255-2298 | the timer's drain and timing messages |
| `LoggingDaemon.DltDaemon.Run` | src/daemon/dlt-daemon.c:1059-1080 | any sequence of events on the object is the specified run and keeps the invariant |
| `ByteRing.DltBuffer.constructor` | src/shared/dlt_common.c:2317-2375 | a new buffer is an empty FIFO of zeroed memory |
| `ByteRing.DltBuffer.Push3` | src/shared/dlt_common.c:2620-2709 | appends the message or refuses it, exactly as it fits after growing; the buffer stays a FIFO if and only if it does not grow while empty |
| `ByteRing.DltBuffer.IncreaseSize` | src/shared/dlt_common.c:2479-2543 | one step larger if the limit allows, with the stored bytes moved to the front |
| `ByteRing.DltBuffer.MinimizeSize` | src/shared/dlt_common.c:2545-2590 | back to the minimum, still empty: the same memory if it has that size, otherwise a new and cleared one |
| `ByteRing.DltBuffer.Reset` | src/shared/dlt_common.c:2592-2613 | an empty FIFO in cleared memory |
| `ByteRing.DltBuffer.WriteBlock` | src/shared/dlt_common.c:2411-2440 | bytes written around the end of the memory |
| `ByteRing.DltBuffer.ReadBlock` | src/shared/dlt_common.c:2442-2466 | bytes read around the end of the memory |
| `ByteRing.DltBuffer.Get` | src/shared/dlt_common.c:2711-2829 | the oldest message, kept or deleted, copied in full even into a smaller buffer of the caller; minimised when it becomes empty |
| `ByteRing.DltBuffer.Copy` | src/shared/dlt_common.c:2836-2839 | the oldest message, and the FIFO is unchanged |
| `ByteRing.DltBuffer.Pull` | src/shared/dlt_common.c:2831-2834 | the oldest message, which leaves the FIFO |
| `ByteRing.DltBuffer.Remove` | src/shared/dlt_common.c:2841-2844 | the oldest message leaves the FIFO |
| `ByteRing.DltBuffer.GetMessageCount` | src/shared/dlt_common.c:2916-2927 | the number of queued messages |
| `ByteRing.DefaultSizesSuffice` | src/daemon/dlt_daemon_common.h:90-92 | with the daemon's sizes a push never grows an empty buffer and is refused only with at least two messages queued |
| `ByteRing.PushToDaemonRing` | src/daemon/dlt_daemon_client.c:274-286 | so a push on the daemon's ring meets the FIFO contract of the state machine, and is accepted exactly when all blocks fit after some steps of growth |
| `ByteRing.RefusedNearLimit` | src/shared/dlt_common.c:2665-2672 | a refused push would have come within one step of the limit |
| `ByteRing.GrowthOfEmptyLoses` | src/shared/dlt_common.c:2514-2526 | a concrete buffer and message for which the FIFO is broken |
| `ByteRingSpec.UsedAndFree` | src/shared/dlt_common.c:2891-2914 | used and free bytes of a wrapped memory, told apart by the message count |
| `ByteRingSpec.WriteExtends` | src/shared/dlt_common.c:2411-2440 | writing behind the stored bytes appends to them and disturbs none |
| `ByteRingSpec.OldestBlock` | src/shared/dlt_common.c:2769-2810 | the first block in memory is the oldest message |
| `Ids.MemcmpIsOrder` | src/daemon/dlt_daemon_common.c:92-122 | comparing ids by memcmp is comparing them as numbers, and equal numbers are equal ids |
| `Ids.StrncmpMeans` | src/daemon/dlt_daemon_client.c:1706-1720 | the comparison cast to int8_t is zero exactly on equal prefixes and positive only for greater ids |
| `RegistryTables.BlockTheorem` | src/daemon/dlt-daemon.c:3005-3012 | in consistent tables the contexts of an application are exactly the stretch of its count at the sum of the preceding counts |
| `RegistryTables.OffsetIsBelow` | src/daemon/dlt-daemon.c:3005-3009 | the sum of preceding counts is the number of contexts with smaller application ids |
| `RegistryTables.CtxNumIsOrder` | src/daemon/dlt_daemon_common.c:103-122 | the key of a context orders as application id and then context id |
| `RegistryClass.FindApplication` | src/daemon/dlt_daemon_common.c:619-651 | range check and binary search find what a linear scan would |
| `RegistryClass.FindContext` | src/daemon/dlt_daemon_common.c:992-1027 | the same for contexts by both ids |
| `RegistryClass.SettledByAnySort` | src/daemon/dlt_daemon_common.c:560-569 | any sorting routine leaves the new application in its one place |
| `RegistryClass.CtxSettledByAnySort` | src/daemon/dlt_daemon_common.c:928-937 | any sorting routine leaves the new context in its one place |
| `RegistryClass.UserList.ApplicationAdd` | src/daemon/dlt_daemon_common.c:411-572 | the table after adding is the specified one, which `AppAddIsUpdate` and `AppAddContexts` are about, and is kept consistent |
| `RegistryClass.UserList.ApplicationDel` | src/daemon/dlt_daemon_common.c:574-617 | handle reset, entries moved down |
| `RegistryClass.UserList.ContextAdd` | src/daemon/dlt_daemon_common.c:794-940 | the tables after adding, the refusal, and consistency |
| `RegistryClass.UserList.ContextDel` | src/daemon/dlt_daemon_common.c:942-990 | entries moved down, the application's count one less |
| `RegistryClass.UserList.ContextsClear` | src/daemon/dlt_daemon_common.c:1055-1087 | no contexts, all counts zero |
| `RegistryClass.UserList.InvalidateApplications` | src/daemon/dlt_daemon_common.c:328-352 | no application keeps the descriptor |
| `RegistryClass.UserList.InvalidateContexts` | src/daemon/dlt_daemon_common.c:1029-1053 | no context keeps the descriptor |
| `RegistryClass.UserList.ResetUserHandle` | src/daemon/dlt_daemon_common.c:384-409 | the handle is taken from the application and its contexts, and closed only if owned |
| `RegistryClass.UserList.UnregisterApplication` | src/daemon/dlt-daemon.c:2995-3039 | the loop that deletes by shifting indices is the specified one, and all invariants hold again, whatever the handle |
| `RegistryClass.UserList.UnregisterContext` | src/daemon/dlt-daemon.c:3060-3136 | the context is deleted unless it is predefined, and all invariants hold again |
| `RegistryMaps.FindIsLookup` | src/daemon/dlt_daemon_common.c:619-651 | finding an application is a map lookup |
| `RegistryMaps.FindCtxIsLookup` | src/daemon/dlt_daemon_common.c:992-1027 | finding a context is a map lookup |
| `RegistryMaps.AppAddIsUpdate` | src/daemon/dlt_daemon_common.c:446-572 | adding an application is a map update: it has the new process and description; its handle and its owner are the old ones if it had a handle for this process or none is given, otherwise those found for the process, or none without a process; all other ids keep their entries, but for a descriptor given to this one |
| `RegistryMaps.AppAddContexts` | src/daemon/dlt_daemon_common.c:511-558 | every context keeps everything but a handle that its application gave up or that was given away |
| `RegistryMaps.AppDelIsRemoval` | src/daemon/dlt_daemon_common.c:592-614 | deleting an application is a map removal |
| `RegistryMaps.CtxAddIsUpdate` | src/daemon/dlt_daemon_common.c:794-940 | adding a context is refused unless both ids are given, the levels are levels and the application is known; otherwise it is a map update with the new position, description and handle, the predefined mark for handle 0, and the levels clamped if forced, or kept if known and the configuration is loaded |
| `RegistryMaps.CtxDelIsRemoval` | src/daemon/dlt_daemon_common.c:961-987 | deleting a context is a map removal |
| `RegistryMaps.DelOnlyCounts` | src/daemon/dlt_daemon_common.c:961-987 | deleting a context changes nothing of the applications but the number of their contexts |
| `RegistryMaps.UnregisterCtxIsRemoval` | src/daemon/dlt-daemon.c:3060-3136 | unregistering a context is a map removal, unless it is unknown or predefined |
| `RegistryInvariants.AppAddConsistent` | src/daemon/dlt_daemon_common.c:446-572 | adding an application keeps order, known applications and exact counts |
| `RegistryInvariants.CtxAddConsistent` | src/daemon/dlt_daemon_common.c:835-940 | adding a context keeps them |
| `RegistryInvariants.CtxDelConsistent` | src/daemon/dlt_daemon_common.c:961-987 | deleting a context keeps them |
| `RegistryInvariants.AppDelConsistent` | src/daemon/dlt_daemon_common.c:592-614 | deleting an application without contexts keeps them |
| `RegistryInvariants.ClearsConsistent` | src/daemon/dlt_daemon_common.c:354-382 | clearing contexts leaves no context and zero counts and nothing else changed, clearing applications too leaves nothing, and both keep consistency |
| `RegistryHandles.UnregisterExact` | src/daemon/dlt-daemon.c:2995-3039 | unregistering removes exactly the application and its contexts; all other entries stay, in order, and unchanged if the handle is live or none |
| `RegistryHandles.OthersUntouchedIff` | src/daemon/dlt_daemon_common.c:384-409 | for any handle, all other contexts stay unchanged exactly when there is no handle or none of them holds the same one |
| `RegistryHandles.DeleteDownExact` | src/daemon/dlt-daemon.c:3011-3028 | the downward loop over shifting indices removes exactly the block |
| `RegistryHandles.AppAddOwned` | src/daemon/dlt_daemon_common.c:516-558 | no two applications share a live handle after adding one |
| `RegistryHandles.CtxAddOwned` | src/daemon/dlt-daemon.c:2865-2874 | a context added with its application's handle keeps ownership |
| `RegistryHandles.InvalidateOwned` | src/daemon/dlt-daemon.c:2069-2073 | after an accept nobody holds the new descriptor, and whoever did not hold it is unchanged |
| `LevelsRuns.ReachableBlocks` | src/daemon/dlt_daemon_common.c:446-572 | in every reachable state the tables are consistent and each application's contexts are one block |
| `LevelsRuns.ReachableHandles` | src/daemon/dlt_daemon_common.c:1392-1396 | in every reachable state no live handle is shared, and a context with a live handle has exactly its own application's |
| `LevelsRuns.ReachableUnregister` | src/daemon/dlt-daemon.c:2995-3039 | in every reachable state unregistering removes exactly what it should |
| `LevelsRuns.ForcedCeiling` | src/daemon/dlt_daemon_client.c:1750-1751 | with enforcement on, over any run of registrations, loads, requests and resets, no default, context level, trace status or sent value (without a storage level) exceeds its limit |
| `LevelsAppWide.AppWideIff` | src/daemon/dlt-daemon.c:3228-3302 | an application-wide request keeps the limits whatever the handles answer, exactly when it is within them or meets no context |
| `LevelsAppWide.AppWideRaises` | src/daemon/dlt-daemon.c:3278-3284 | a run with enforcement on: register an application, register a context, ask for verbose, and the context is above its limit |
| `LevelsRuns.StepKept` | src/daemon/dlt_daemon_common.c:1360-1396 | every event keeps consistency, ownership and limits |
| `LevelsRuns.RequestedWithin` | src/daemon/dlt_daemon_client.c:78-81 | with enforcement the value set is the smaller of request and limit; a request for "default" (255) becomes the limit |
| `LevelsProofs.ScanIsFilter` | src/daemon/dlt_daemon_client.c:1679-1725 | the scan with its early exit does what the full filter does |
| `LevelsProofs.ScanExact` | src/daemon/dlt_daemon_client.c:1679-1725 | selected contexts end with the new value or their old one, all others are untouched but for handles |
| `LevelsProofs.ScanAccepted` | src/daemon/dlt_daemon_client.c:1679-1725 | when all handles accept, exactly the selected contexts with live handles are set and told, in order, and nothing else changes |
| `LevelsProofs.RequestMeans` | src/daemon/dlt_daemon_client.c:1727-1823 | a set request concerns exactly the contexts its two patterns describe (open id, final star, or exact); the value is the byte with its sign without enforcement and the smaller of request and limit with it; if all accept exactly those contexts with live handles are set and told, in order |
| `LevelsProofs.EveryAccepted` | src/daemon/dlt_daemon_common.c:1515-1585 | when no pipe breaks, a request for all contexts sets and tells every context with a live handle, in order, takes nothing back for a failed message, and changes nothing else |
| `LevelsProofs.DefaultsAccepted` | src/daemon/dlt_daemon_common.c:1481-1513 | when no pipe breaks, a new default changes no context, and exactly the contexts that follow a default are told, in order |
| `LevelsProofs.SetOneDoes` | src/daemon/dlt_daemon_client.c:1653-1677 | the new value stays exactly when it was sent to a live handle; otherwise the old one is back |
| `LevelsMeaning.EffectiveMeans` | src/daemon/dlt_daemon_common.c:1360-1373 | what is told: over the context's handle and for its position, the larger of level and storage level if storage levels are kept up and set, otherwise the level or the default it follows, and the trace status or the default |
| `LevelsMeaning.BrokenMeans` | src/daemon/dlt_daemon_common.c:1387-1396 | a broken pipe takes the handle from the application and from every context that holds it, and changes nothing else |
| `LevelsMeaning.SetOneMeans` | src/daemon/dlt_daemon_client.c:1653-1677 | a context with a live handle is told the new value, which stays if accepted, is taken back if the message failed, and after a broken pipe the handle is gone as well; without a live handle nothing happens |
| `LevelsMeaning.SetAllMeans` | src/daemon/dlt_daemon_client.c:2035-2072 | a request for all contexts with a level or 255 sets the value asked for, clamped under enforcement, in every context with a live handle; any other request does nothing |
| `LevelsMeaning.SetDefaultMeans` | src/daemon/dlt_daemon_client.c:1998-2033 | a request with a level makes it the default, clamped under enforcement, leaves everything else of the defaults and tells who follows them; any other request does nothing |
| `LevelsMeaning.ResetMeans` | src/daemon/dlt_daemon_common.c:1467-1478 | a reset brings back the configured defaults and enforcement and tells who follows a default |
| `LevelsMeaning.BlockStepMeans` | src/daemon/dlt-daemon.c:3276-3292 | one context of an application-wide request is set and told, taken back if the message failed, and set without being told if its handle is not live |
| `LevelsMeaning.AppWideMeans` | src/daemon/dlt-daemon.c:3228-3302 | if all accept, exactly the contexts of the application are set, whether or not they can be told |
| `LevelsMeaning.RegisterAppMeans` | src/daemon/dlt-daemon.c:2636-2752 | after the table update the application is told the log state, and a broken pipe takes its handle again |
| `LevelsMeaning.RegisterCtxMeans` | src/daemon/dlt-daemon.c:2754-2958 | a context is registered exactly if its application is known and its levels are levels: with the application's handle, the position, description and storage level given, a level that was not set on default, and told its levels if one is on default |
| `LevelsMeaning.BothHold` | src/daemon/dlt-daemon.c:2865-2874 | an application that registers with a descriptor, and then a context of it, both hold that descriptor |
| `LevelsClass.LevelControl.UserSendLogLevel` | src/daemon/dlt_daemon_common.c:1341-1400 | what is sent, and the handle reset on a broken pipe |
| `LevelsClass.LevelControl.SendLogLevel` | src/daemon/dlt_daemon_client.c:1653-1677 | setting one context in place is the specified change |
| `LevelsClass.LevelControl.FindMultipleAndSend` | src/daemon/dlt_daemon_client.c:1679-1725 | the loop with its break is the specified scan |
| `LevelsClass.LevelControl.ControlSet` | src/daemon/dlt_daemon_client.c:1900-1996 | the four wildcard cases and the exact one are the specified request, which `RequestMeans` is about |
| `LevelsClass.LevelControl.SendAllUpdate` | src/daemon/dlt_daemon_common.c:1515-1585 | all contexts with live handles are set, and not taken back |
| `LevelsClass.LevelControl.SendDefaultUpdate` | src/daemon/dlt_daemon_common.c:1481-1513 | contexts on defaults are told |
| `LevelsClass.LevelControl.ControlSetAll` | src/daemon/dlt_daemon_client.c:2035-2072 | the accepted values, clamped when enforced |
| `LevelsClass.LevelControl.ControlSetDefault` | src/daemon/dlt_daemon_client.c:1998-2033 | the default, clamped when enforced, and its announcement |
| `LevelsClass.LevelControl.ResetToFactoryDefault` | src/daemon/dlt_daemon_common.c:1431-1479 | the configured defaults and their announcement |
| `LevelsClass.LevelControl.SetAppLevels` | src/daemon/dlt-daemon.c:3228-3302 | the block loop of an application's own request |
| `LevelsClass.LevelControl.RegisterApplication` | src/daemon/dlt-daemon.c:2636-2752 | the table update and the log state sent to the application, and all invariants hold again |
| `SlotTable.OneMore` | src/daemon/dlt_daemon_common.c:446-476 | the slots needed for one more entry, with growth exactly at multiples of the step |
| `SlotTable.Slots.Add` | src/daemon/dlt_daemon_common.c:446-482 | capacity stays at least (num / step + 1) * step, the copy and the new slot are in bounds, contents are appended |
| `SlotTable.Slots.DeleteAt` | src/daemon/dlt_daemon_common.c:601-613 | the move is in bounds and removes exactly one entry |
| `SlotTable.ApplyAll` | src/daemon/dlt_daemon_common.c:828-869 | any mix of additions, deletions and clearings keeps the capacity and the contents of a plain list |
| `LogInfo.NeverOverruns` | src/daemon/dlt_daemon_client.c:913-1203 | for all tables and requests the bytes written plus the trailing id are within the size computed first |
| `LogInfo.FillsExactly` | src/daemon/dlt_daemon_client.c:913-1203 | they are equal to it when an application matches, counts fit 16 bits and no context id is asked for alone; with no application they are 2 less |
| `LogInfo.CtxAloneFillsIff` | src/daemon/dlt_daemon_client.c:1120-1130 | for a context id alone they are equal exactly when every context has that id |
| `LogInfo.CtxsSizeIs` | src/daemon/dlt_daemon_client.c:951-998 | adding up contexts one by one is the product and text lengths that the first pass computes |
| `LogInfo.OffsetTotal` | src/daemon/dlt_daemon_client.c:983-998 | the counts of all applications add up to the number of contexts |
| `LogInfoDecode.RoundTrip` | src/daemon/dlt_daemon_client.c:1056-1203 | for every request that finds something, decoding the answer gives exactly the applications, contexts, levels, statuses and descriptions asked for, found by looking at all entries, if and only if no context is left out: an application is named, or no context id is, or every context has that id |
| `LogInfoDecode.StatusIff` | src/daemon/dlt_daemon_client.c:1056 | the status is the options asked for exactly when, looking at all entries, an application asked for exists and a context asked for of it, or any context if none is named; otherwise it is 8 |
| `LogInfoDecode.NothingFound` | src/daemon/dlt_daemon_client.c:1056-1203 | then the answer lists the applications asked for, if any, with the count 0 and no contexts |
| `LogInfoDecode.NeverBack` | src/daemon/dlt_daemon_client.c:1083-1130 | an answer with a context left out is never read as what was asked for, whatever bytes follow |
| `LogInfoDecode.CountIff` | src/daemon/dlt_daemon_client.c:1083-1130 | the count written for an application is the number of its contexts written exactly when none of them is left out |
| `LogInfoDecode.OneOfTwoMisread` | src/daemon/dlt_daemon_client.c:1083-1130 | one application with two contexts, of which the request names one by its id alone |
| `LogInfoDecode.WrittenIsAsked` | src/daemon/dlt_daemon_client.c:1103-1130 | for every request the contexts written from the block are those asked for |
| `LogInfoEncoder.Measure` | src/daemon/dlt_daemon_client.c:945-1027 | the first pass computes the specified size |
| `LogInfoEncoder.GetLogInfo` | src/daemon/dlt_daemon_client.c:844-1210 | options from 3 to 7 are answered, others refused; the buffer holds payload, interface id and zeros, and `StatusIff`, `NothingFound` and `ReplyDecodes` are about it |
| `LogInfoEncoder.ReplyDecodes` | src/daemon/dlt_daemon_client.c:1012-1203 | if something is found, the buffer sent, with any padding, decodes to what was asked for exactly when no context is left out; it is then full to the last byte |
| `TextLines.LinesBack` | src/daemon/dlt_daemon_common.c:678-705 | lines that fit the buffer are read back one by one |
| `TextLines.FirstToken` | src/daemon/dlt_daemon_common.c:710-716 | a field in front of a colon is the next token |
| `TextLines.IntBack` | src/daemon/dlt_daemon_common.c:1158-1164 | what %d prints, %d reads |
| `TextLines.NumberFound` | src/daemon/dlt_daemon_common.c:1158-1164 | %d skips blanks, takes either sign and ends at the first character that is no digit |
| `TextLines.LongLine` | src/daemon/dlt_daemon_common.c:678-705 | a line too long for the buffer of 255 bytes is read in pieces of 254 |
| `SaveLoad.SaveLoadRoundTrip` | src/daemon/dlt_daemon_common.c:1114-1192 | loading what was saved into an empty registry gives the same ordered tables and counts, without handles, with predefined contexts, and with levels no higher than the defaults if these are forced |
| `SaveLoad.DescBackIff` | src/daemon/dlt_daemon_common.c:1224-1238 | a description comes back as it was exactly when it is not empty |
| `SaveLoad.CtxLineMeans` | src/daemon/dlt_daemon_common.c:1148-1190 | a line with fewer than five fields is passed over; one whose context cannot be added ends the load and changes nothing |
| `SaveLoad.Save` | src/daemon/dlt_daemon_common.c:769-780 | the two texts, line by line |
| `SaveLoad.ReadApps` | src/daemon/dlt_daemon_common.c:653-743 | the loop over the lines of the application file |
| `SaveLoad.ReadCtxs` | src/daemon/dlt_daemon_common.c:1089-1197 | the loop over the lines of the context file, which ends at a refused context |
| `SaveLoad.CtxTokens` | src/daemon/dlt_daemon_common.c:1148-1190 | the five fields of a saved context are read back |
| `Sorting.OneOrder` | src/daemon/dlt_daemon_common.c:560-566 | with distinct keys a sorted permutation is unique |
| `Sorting.Qsort` | src/console/dlt-sortbytimestamp.c:417 | the contract of qsort, with equal keys in any order |
| `BootSort.SortByTimestamp` | src/console/dlt-sortbytimestamp.c:404-467 | the written messages are the flushed segments of the sorted index, or the first ones of the second sort when there is no boundary |
| `BootSort.TwoMessages` | src/console/dlt-sortbytimestamp.c:404-467 | any file of two messages at different times, the earlier first: both are written in order if their timestamps are more than 500000 or their times at least 180 apart, otherwise the second is lost if its timestamp is greater, and they change places if it is smaller |
| `BootSort.BoundaryIff` | src/console/dlt-sortbytimestamp.c:419-429 | a boundary is a gap of more than 500000 units between timestamps or of at least 180 seconds between times, in either direction |
| `BootSort.FlushCycles` | src/console/dlt-sortbytimestamp.c:419-455 | the loop with start, count and num |
| `BootSort.SegmentPermuted` | src/console/dlt-sortbytimestamp.c:428-454 | every flushed segment is a permutation of the same segment of the index |
| `BootSort.SegmentSorted` | src/console/dlt-sortbytimestamp.c:447-448 | within a segment timestamps do not fall |
| `BootSort.AcrossSegments` | src/console/dlt-sortbytimestamp.c:417-455 | across a boundary the system time does not fall |
| `BootSort.Conserved` | src/console/dlt-sortbytimestamp.c:419-455 | output and the messages behind the last boundary are the input |
| `BootSort.WholeInputIff` | src/console/dlt-sortbytimestamp.c:419-455 | everything is written exactly when there is a boundary behind the last message |
| `BootSort.OneCycleSmallest` | src/console/dlt-sortbytimestamp.c:463-467 | without a boundary the output is the smallest of all entries and the copy, sorted |
| `BootSort.OneCycleIff` | src/console/dlt-sortbytimestamp.c:463-467 | it is the input exactly when the entry left over is the copy |
| `BootSort.OneCycleIsMayWrite` | src/console/dlt-sortbytimestamp.c:463-467 | what the second sort of the program may leave is exactly what a sort of the input and its first message may leave |
| `BootSort.CertainIff` | src/console/dlt-sortbytimestamp.c:404-467 | without a boundary, every sort gives the input exactly when the first message is later than all others |
| `BootSort.CertainLossIff` | src/console/dlt-sortbytimestamp.c:404-467 | without a boundary, no sort gives the input exactly when another message is later than the first |
| `BootSort.LossIs` | src/console/dlt-sortbytimestamp.c:463-467 | if the entry left over is not the first message, it is a latest one, it is not written at all, and the first is written twice |
| `BootSort.CanLose` | src/console/dlt-sortbytimestamp.c:404-467 | without a boundary and with another message at least as late as the first, a behaviour of the program that does not write the input |
| `BootSort.TwoMessagesLoseOne` | src/console/dlt-sortbytimestamp.c:463-467 | a file of two messages: the first is written twice, the second never |
| `BootSort.TwoCyclesDropOne` | src/console/dlt-sortbytimestamp.c:419-455 | a file of two messages in two cycles: the later cycle is not written |
| `Rotation.Receiver.constructor` | src/console/dlt-receive.c:314-616 | any directory to start in; an existing output file is set aside under a new number |
| `Rotation.Receiver.NextNumber` | src/console/dlt-receive.c:244-280 | a number above all that are in use |
| `Rotation.Receiver.OpenOutputFile` | src/console/dlt-receive.c:231-299 | an existing file moves to a part number that no file has |
| `Rotation.Receiver.MessageCallback` | src/console/dlt-receive.c:671-701 | a passing message is written exactly once, into a new file if it would exceed the limit |
| `Rotation.Receiver.Receive` | src/console/dlt-receive.c:618-705 | over any run, this run's parts in number order and the current file are exactly the messages that passed; nothing that was there is overwritten; a file exceeds the limit only with one over-long message |

## Left out

- Sockets, FIFOs, poll registration, serial, UDP, timers, signals and fork: operating-system plumbing, replaced by answers of the environment.
- The INIT state, the modes INTERNAL and OFF, offline storage and the gateway.
- `dlt_message_read`, `dlt_receiver_*`, user-message framing and resynchronisation.
- Wrap-around of counters at 2^32, and allocation failures.
- Padding bytes of a block head in the ring buffer are modelled as zeros; a damaged size field is read as unsigned.
- Files with a zero byte, and the value a level keeps when a saved line has no number in its place (0 here).
- An empty table is not saved at all, so an older file stays; the round trip is about the texts that saving writes.
- Sort ranges that do not begin with the first message, and the message filter.
- `dlt-receive` without a size limit, `convert_arg_to_byte_size`, printing and filters: easy members.
- Console control tools, option parsing, JSON filters and the core dump handler.
- Rotation.Receiver.MessageCallback: a failed rename or a short write is not modelled.
