# Collaborative editor: a verified model

This project models the parts of the collaborative code editor whose correctness spans several
functions and several moments: the update log with its snapshots and compaction, the registry of
live rooms, the traffic between server instances, the file tree, the output of program runs, search,
and the browser's reconnecting connection. It proves, for every input, run or interleaving, what
those parts are for.

A Yjs document, and an encoded update, is the set of operations it carries (`Yjs.dfy`). Applying and
merging are union; the observer fires exactly when an apply adds something, with what it added.
Everything the repository itself adds to that is modelled step by step: every `await` is a boundary
between steps, and a run is a sequence of such steps in any order that the source allows.

| files | component |
|---|---|
| `DocStore`, `Compactor`, `LogProtocol` | the two tables, one compaction, and the protocol between many writers and compactors |
| `WriteBuffer`, `Cluster` | the buffer between a document and the log, and many instances sharing one log |
| `Rooms`, `RoomSteps`, `RoomRegistry`, `RoomContents`, `RoomUse`, `DocBus` | joins, leaves, evictions, pending writes and bus subscriptions of one process, and what its rooms hold |
| `Relay`, `SyncRoom`, `SyncTraffic` | frames between instances, one room with its connections, and what it sends to whom |
| `Text`, `Paths`, `FileTable`, `FileService`, `FileTree` | path rules, the flat rows, the transactions, the nested tree |
| `Utf8`, `Limits`, `RunRegistry`, `Worker` | byte budget, replay to late watchers, the one terminal frame |
| `Search`, `NameSearch`, `Ranking`, `TreeFilter`, `Highlight` | content and name search, the order of name matches, tree filtering, drawing of matches |
| `Provider` | the browser's socket, timer and backoff |

Where the source updates variables in place the model has a class or a loop, proved equal to a
specification function; the results are then proved about that function over whole runs. The client's
own copy of `ancestorPaths` (`apps/web/src/features/files/useFileTree.ts:24-33`) is the same loop as
the server's and is modelled once.
`dafny verify dfyconfig.toml` checks everything.

## What the environment is assumed to do

- Log: a document is seeded once and before anything else; stamps do not decrease along a document's
  ids; an append commits, or is abandoned, before its stamp is older than the 30 s margin; cutoffs
  are at least the margin behind the clock. `LogProtocol.Enabled` states this, and
  `LateCommitIsSeenExactlyWhen`, `SecondSeedKeepsTheFirstExactlyWhen` and
  `DeletesWhatItFoldedExactlyWhen` say exactly what each part is needed for.
- A load is atomic, except in `LogProtocol.SplitLoad`, which says exactly what a split one misses.
- Room registry: one process has the store to itself, its reads succeed or find no file, and appends
  succeed; `Cluster` has many processes and failing appends, and `WriteBuffer` failing appends. A write settles when the flush chain of its room is empty and no compaction
  of it is running, which is what `leaveRoom` awaits.
- Bus commands are applied in order and none fails. `Relay` assumes delivery without loss between
  instances that are already subscribed; `Cluster` does not.
- A connection's close arrives once, after its join.

## Where the code and its comments differ

- `apps/web/src/features/search/Highlight.tsx:12-14` says that a bad range can never drop characters or render them twice. A range
  that ends before it starts is accepted and does (`Highlight.InvertedRangeDrawsTwice`); the exact
  condition is `Highlight.RendersTheTextExactlyWhen`.
- `packages/shared/src/languages.ts:146-149` promises one exit frame on every path. The worker publishes it, but the
  registry drops it when it arrives unattached at the cap (`RunRegistry.DrainedRunEndsWithExit`).
- `apps/server/src/modules/execution/registry.ts:155-160` says a second watcher still gets the ending. A first watcher that leaves
  takes the second one's sink with it (`RunRegistry.FirstWatcherSilencesTheSecond`); exactly when the
  second gets the ending is `RunRegistry.WatcherGetsTheEndingExactlyWhen`.
- A batch put back after a failed append waits without a timer (`WriteBuffer.TimerArmedExactlyWhen`),
  is overtaken by whatever was captured behind it (`WriteBuffer.FailureKeepsOrderExactlyWhen`), and is
  stranded when that happens during eviction (`WriteBuffer.EvictionStrandsExactlyTheFailed`).
- `apps/web/src/features/search/match.ts:117-126` puts contiguous hits before scattered ones. That holds
  while the hit is not too far into the path (`Ranking.TiersHoldExactlyWhen`), and
  `Ranking.LateHitRanksBehind` has a path where it does not. `apps/web/src/features/search/match.ts:145-146`
  puts hits in the file's own name before hits in a folder; exactly when that holds is
  `Ranking.NameHitsLeadExactlyWhen`, and `Ranking.LateNameHitRanksBehind` has a path where it does not.
- `apps/runner/src/sandbox/limits.ts:33-34` calls a result truncated when the cap cut the run short; output cut after the
  timer fired is cut and not reported so (`Limits.CutAfterTimeoutIsSilent`).

## Model

| member | source | states |
|---|---|---|
| `LogProtocol.Durable` | apps/server/src/modules/persistence/postgresDocStore.ts:62-201 | At every point of every interleaving of seeding, id allocation, commit, abort, candidate read, compaction, crash and clock tick, an atomic load rebuilds exactly the seed plus every update ever committed. |
| `LogProtocol.LoadHoldsWhatCommitted` | apps/server/src/modules/persistence/postgresDocStore.ts:62-111 | The same from the steps alone: a load rebuilds exactly the content a seed step brought and the updates handed to the appends that committed; ids and rows are those of the allocations, in order. |
| `LogProtocol.WinnerDeletesWhatItFolded` | apps/server/src/modules/persistence/postgresDocStore.ts:152-201 | A compaction that wins its compare-and-set deletes exactly the rows it read and folded, leaves a snapshot equal to the history up to its boundary, and no row at or below that boundary can still commit; one that loses leaves both tables as they were. |
| `LogProtocol.AtMostOneWinner` | apps/server/src/modules/persistence/postgresDocStore.ts:158-200 | Of two compactions of one document that win, the later one held a strictly higher token, so at most one holder of any token wins, the null token included. |
| `LogProtocol.RankGrows` | apps/server/src/modules/persistence/postgresDocStore.ts:158-192 | The compare-and-set token never moves back over a whole run, null before every id: no ABA. |
| `LogProtocol.SplitLoad` | apps/server/src/modules/persistence/postgresDocStore.ts:62-86 | The two queries of a load that is not atomic: exactly what they miss is what was folded between them, and nothing when the token did not change. |
| `LogProtocol.DeletesWhatItFoldedExactlyWhen` | apps/server/src/modules/persistence/postgresDocStore.ts:130-194 | Rows are chosen by age and deleted by id: the delete matches the fold if and only if every row at or below the boundary is past the watermark and older than the cutoff. |
| `LogProtocol.HeldWasRead` | apps/server/src/modules/persistence/compactor.ts:79-98 | What a compaction is about to write is the candidate its own read found in the tables at that moment, and it has written nothing since. |
| `LogProtocol.LateCommitIsSeenExactlyWhen` | apps/server/src/modules/persistence/postgresDocStore.ts:62-86 | In any state, a row that commits is seen by later loads if and only if its id is past the watermark or what it carries is rebuilt from the rest anyway. |
| `LogProtocol.LateCommitIsHidden` | apps/server/src/modules/persistence/postgresDocStore.ts:127-194 | An instance with the steps written out: an append that gets its id first and commits after a later id was folded is lost, so commits must be faster than the age margin. |
| `LogProtocol.CountIsTheTail` | apps/server/src/modules/persistence/postgresDocStore.ts:203-205 | At every point of every run the count that decides on compaction is the number of updates a load has to apply after the snapshot. |
| `LogProtocol.SecondSeedKeepsTheFirstExactlyWhen` | apps/server/src/modules/persistence/postgresDocStore.ts:99-111 | The snapshot upsert is unguarded: after a second seed the first is rebuilt if and only if the second and the rows contain it, and over no rows if and only if the second contains it. |
| `DocStore.LoadRebuilds` | apps/server/src/modules/persistence/postgresDocStore.ts:62-86 | What a reader rebuilds from the snapshot query and the tail query is the snapshot plus every later row of that document. |
| `DocStore.LoadIsTheTail` | apps/server/src/modules/persistence/postgresDocStore.ts:62-86 | A load returns every row past the watermark in id order, says whether there is anything at all, and its last id is the highest id of the document, in the log or folded. |
| `DocStore.CompactWinsExactlyWhen` | apps/server/src/modules/persistence/postgresDocStore.ts:152-201 | A compaction wins if and only if the token is the one expected and the boundary goes past it; it never touches another document, and changes nothing when it does not win. |
| `DocStore.PostgresDocStore.Load` | apps/server/src/modules/persistence/postgresDocStore.ts:62-86 | Returns what the tables hold, and `exists` exactly when the document has a snapshot or a row. |
| `DocStore.PostgresDocStore.AppendUpdate` | apps/server/src/modules/persistence/postgresDocStore.ts:88-97 | A new row under the next id of the sequence, nothing else changed. |
| `DocStore.PostgresDocStore.WriteSnapshot` | apps/server/src/modules/persistence/postgresDocStore.ts:99-111 | Upserts one snapshot and touches no row. |
| `DocStore.PostgresDocStore.ReadForCompaction` | apps/server/src/modules/persistence/postgresDocStore.ts:113-150 | The candidate: the token, the old enough rows past the watermark in id order, and the last of their ids, or none. |
| `DocStore.PostgresDocStore.Compact` | apps/server/src/modules/persistence/postgresDocStore.ts:152-201 | The three outcomes, refused boundary, lost race and win; only a win changes anything, and what it deletes lies at or below the new watermark. |
| `DocStore.PostgresDocStore.CountUpdates` | apps/server/src/modules/persistence/postgresDocStore.ts:203-205 | Returns as many updates as a load would return if the document had no snapshot. |
| `Compactor.FoldCandidate` | apps/server/src/modules/persistence/compactor.ts:59-68 | The loop of applied updates is the union of the snapshot and every candidate update. |
| `Compactor.MaybeCompact` | apps/server/src/modules/persistence/compactor.ts:79-98 | Counting, reading, folding and compacting in order, with both early returns. |
| `Compactor.CompactingKeepsDocuments` | apps/server/src/modules/persistence/compactor.ts:59-98 | Compacting changes no document, this one or another; past the threshold the rows removed are exactly those older than the margin, otherwise none. |
| `Cluster.LogHoldsEveryDocument` | apps/server/src/modules/persistence/buffer.ts:61-130 | Any number of instances, bus frames lost or repeated, appends failing with or without having committed, crashes and compactions: once every live room of a document has nothing left to write, an atomic load contains each of their documents and nothing no room ever held; with no crash it is exactly the seed and all of them. |
| `Cluster.ClusterRunKeeps` | apps/server/src/modules/collab/syncHandler.ts:90-140 | Along every run: what a live room observed is in the log or still buffered or captured, and rows, seeds and frames carry only what some room held. |
| `Cluster.OpenedRoomHoldsTheHistory` | apps/server/src/modules/collab/room.ts:87-91 | A room opened over what is stored holds exactly the seed and every update committed by then, and keeps it. |
| `Cluster.RoomsHoldTheirRun` | apps/server/src/modules/collab/syncHandler.ts:133-140 | A room holds exactly what it was opened with, the edits on its connections and the frames delivered to it; what was published is exactly what edits changed. |
| `Cluster.UncommittedIsUnderWay` | apps/server/src/modules/persistence/buffer.ts:61-77 | An append that is over has its row in the log or nowhere: a row that has an id and is not in the log is the append some live room waits for. |
| `WriteBuffer.NothingLostOrRepeated` | apps/server/src/modules/persistence/buffer.ts:61-130 | Under any interleaving of updates, timers, flushes and appends that succeed or fail, the updates the document emitted equal buffered plus captured plus appended as multisets, and the byte counter is the sum of the buffer. |
| `WriteBuffer.RowsKeepObservationOrder` | apps/server/src/modules/persistence/buffer.ts:100-130 | As long as no append fails while a later batch is captured behind it, rows, chain and buffer concatenate to the observation order, so the rows are a prefix of it. |
| `WriteBuffer.CapturedInTime` | apps/server/src/modules/persistence/buffer.ts:113-130 | No update stays in a live buffer longer than the flush delay, unless it is in a batch that was put back after a failed append. |
| `WriteBuffer.CapturesExactlyWhen` | apps/server/src/modules/persistence/buffer.ts:100-130 | A batch is captured when the timer fires, when a flush is called, and at the very update that brings the buffer to the size limit; it is then everything buffered, and no other event captures. |
| `WriteBuffer.FullOnlyAfterFailure` | apps/server/src/modules/persistence/buffer.ts:71-77 | A buffer at or over the size limit holds a batch put back by a failed append, and no update, flush or timer came since. |
| `WriteBuffer.BelowTheLimit` | apps/server/src/modules/persistence/buffer.ts:113-120 | Without a failed append a buffer is below the size limit at every point of every run. |
| `WriteBuffer.TimerRunsFromTheFirst` | apps/server/src/modules/persistence/buffer.ts:122-129 | In a live buffer the timer is due exactly one flush delay after the oldest update that was not put back: later updates do not restart it. |
| `WriteBuffer.DetachEnds` | apps/server/src/modules/persistence/buffer.ts:136-143 | After detaching no update is observed and no timer is armed, ever. |
| `WriteBuffer.TimerArmedExactlyWhen` | apps/server/src/modules/persistence/buffer.ts:113-130 | In every reachable live buffer the timer is armed if and only if something waits that is not a batch put back by a failed append: such a batch alone waits until something else flushes. |
| `WriteBuffer.RequeuedWaits` | apps/server/src/modules/persistence/buffer.ts:68-77 | An instance: one update, a flush and a failed append leave it buffered with no timer. |
| `WriteBuffer.FailureKeepsOrderExactlyWhen` | apps/server/src/modules/persistence/buffer.ts:71-76 | A failed append keeps the order of observation if and only if the batch was empty or nothing is captured behind it. |
| `WriteBuffer.FailureReorders` | apps/server/src/modules/persistence/buffer.ts:71-76 | An instance: with two batches captured, the second reaches the log before the first. |
| `WriteBuffer.EvictionStrandsExactlyTheFailed` | apps/server/src/modules/persistence/buffer.ts:71-111 | After the final flush the buffer is empty if and only if no append of a non-empty batch failed while eviction waited. |
| `WriteBuffer.MergeUpdates` | apps/server/src/modules/persistence/buffer.ts:61-64 | A merged batch carries the updates of its parts in order. |
| `WriteBuffer.DocPersistence.OnUpdate` | apps/server/src/modules/persistence/buffer.ts:113-130 | Buffers, counts bytes, and flushes at the size limit or arms the timer once. |
| `WriteBuffer.DocPersistence.Flush` | apps/server/src/modules/persistence/buffer.ts:100-111 | Moves the whole buffer to the end of the chain and clears the timer. |
| `WriteBuffer.DocPersistence.WriteBatch` | apps/server/src/modules/persistence/buffer.ts:61-77 | Appends the first captured batch as one row, or puts it back at the front of the buffer; an empty batch does nothing. |
| `WriteBuffer.DocPersistence.Detach` | apps/server/src/modules/persistence/buffer.ts:136-143 | Stops observing and clears the timer, once. |
| `RoomRegistry.OneLiveRoom` | apps/server/src/modules/collab/room.ts:126-180 | At every interleaving: at most one live or opening room per document, the one in the map; every connection of a room belongs to the current one; an evicted room has no connection and was evicted once. |
| `RoomRegistry.ReopenedRoomSeesEverything` | apps/server/src/modules/collab/room.ts:62-113 | Once a room is past the pending write, every earlier room of its document has finished, has nothing buffered or captured, is not compacting, and everything it observed is in the log. |
| `RoomRegistry.FinalFlushIsComplete` | apps/server/src/modules/collab/room.ts:166-193 | From its eviction on a room has an empty buffer: nothing arrives after the final flush captured it, and all it ever observed is in the log or in the batches the final write waits for. |
| `RoomContents.LiveRoomHoldsEverything` | apps/server/src/modules/collab/room.ts:62-113 | A live room holds exactly what its document was ever given: what the store held at the start, the file content if it was never stored, every edit, and every frame while a room listened, in this room or an earlier one; its document is what the log has plus what waits to be written, and contains every earlier room. |
| `RoomContents.IdleLogHoldsEverything` | apps/server/src/modules/persistence/buffer.ts:61-111 | Once nothing of a document is left to write, the store holds exactly all it was ever given. |
| `RoomContents.LoadedRoomHoldsTheStore` | apps/server/src/modules/collab/room.ts:87-91 | A room that loads a stored document goes live with exactly what the store holds, and keeps it. |
| `RoomContents.SeededRoomHoldsTheFile` | apps/server/src/modules/collab/room.ts:92-107 | For a document never stored, the room holds exactly the file content until its write is done, the store holds exactly that right after, and the room keeps it. |
| `RoomContents.FrameReachesTheRoom` | apps/server/src/modules/redis/docBus.ts:133-141 | In every reachable state a frame of another instance is applied to the room that listens to its document, a frame of this instance changes nothing, and no other room nor the store changes. |
| `RoomContents.FrameWithoutRoomIsDropped` | apps/server/src/modules/redis/docBus.ts:133-141 | Without such a room the frame changes nothing. |
| `RoomUse.OnlyFilesAreOpened` | apps/server/src/modules/collab/room.ts:70-78 | A room loads, or goes live, only for a file that was found, and a promise resolves to nothing only for what was found to be no file. |
| `RoomUse.JoinOutcome` | apps/server/src/modules/collab/room.ts:135-151 | What a join comes to: a live room takes the connection, an evicted one sends it to the current promise, and a missing file ends it without leaving its promise in the map. |
| `RoomUse.ObservedRoomsAreInUse` | apps/server/src/modules/collab/room.ts:160-180 | A live room that is observed, and so subscribed, always has a connection of its document: the last to leave closes it. |
| `RoomUse.CountersCount` | apps/server/src/modules/persistence/buffer.ts:61-98 | The log gets one row for each batch that was not empty and no other, content is inserted once for each load that found nothing stored, and a compaction is under way exactly from an append to its end. |
| `RoomRegistry.SubscriptionsFollowRooms` | apps/server/src/modules/collab/room.ts:166-197 | When the command queue drains the subscribed channels are exactly the documents with an observed live room, none of the queued commands is idle, and at any time a frame reaches the current live room or none. |
| `RoomRegistry.SeededAtMostOnce` | apps/server/src/modules/collab/room.ts:87-107 | Over any number of reopen cycles file content is inserted at most once, and never over something stored. |
| `RoomRegistry.ReopeningAddsNoRow` | apps/server/src/modules/persistence/buffer.ts:61-130 | Over any stretch of a run that starts with nothing of a document left to write and has no edit and no bus frame of it, that document gets no row, whatever was edited before. |
| `RoomSteps.EventKeeps` | apps/server/src/modules/collab/room.ts:126-200 | Every step between two awaits keeps the registry invariant. |
| `RoomRegistry.Registry.JoinStart` | apps/server/src/modules/collab/room.ts:126-135 | Joins the current promise or stores a new one before anything is awaited. |
| `RoomRegistry.Registry.JoinResume` | apps/server/src/modules/collab/room.ts:135-151 | After the await: drop a missing room if it is still the current one, start over if the room was evicted, otherwise join; a joined connection is in the current room. |
| `RoomRegistry.Registry.AttachRoomObservers` | apps/server/src/modules/collab/syncHandler.ts:125-131 | Observes a room and subscribes it once. |
| `RoomRegistry.Registry.LeaveStart` | apps/server/src/modules/collab/room.ts:154-160 | Finds the room to leave, if there is one. |
| `RoomRegistry.Registry.LeaveResume` | apps/server/src/modules/collab/room.ts:160-193 | The last leaver takes the room out of the map and off the bus and registers the pending write in one uninterrupted step. |
| `RoomRegistry.Registry.WriteSettles` | apps/server/src/modules/collab/room.ts:188-192 | Forgets the pending write unless a later one took its place. |
| `DocBus.SubscribeKeeps` | apps/server/src/modules/redis/docBus.ts:152-164 | After any subscribe, draining the command queue leaves the broker delivering exactly the channels with a handler, and no command on the way is idle: each changes what the broker delivers. |
| `DocBus.UnsubscribeKeeps` | apps/server/src/modules/redis/docBus.ts:175-184 | The same after any unsubscribe, which removes just that handler. |
| `DocBus.BusClient.SubscribeDoc` | apps/server/src/modules/redis/docBus.ts:152-164 | Replaces the handler; a subscribe command only for a new channel. |
| `DocBus.BusClient.UnsubscribeDoc` | apps/server/src/modules/redis/docBus.ts:175-184 | Removes the handler and sends one command, or nothing when there is none. |
| `Relay.TrafficTerminates` | apps/server/src/modules/collab/syncHandler.ts:133-140 | Message traffic ends: no run is longer than the work at its start. |
| `Relay.PublishedExactlyOnce` | apps/server/src/modules/collab/syncHandler.ts:133-140 | What is published is, in order, one frame for each socket update that changed a document, with exactly the operations that document gained, and none for a delivered frame; no instance publishes an operation twice. |
| `Relay.InstancesAgreeAtQuiescence` | apps/server/src/modules/redis/docBus.ts:126-146 | Without loss between subscribed instances, at quiescence every instance holds exactly the seed and what connections with write access sent. |
| `SyncRoom.FramesHandledOnceInOrder` | apps/server/src/modules/collab/wsServer.ts:132-148 | Across the early, queued and live phases, what a connection handled is a prefix of what arrived, the rest waits in order, and a live connection has nothing waiting. |
| `SyncRoom.AskingClientsCatchUp` | apps/server/src/modules/collab/syncHandler.ts:221-279 | A live client whose state vector was answered holds the whole room once what was sent to it arrives: no gap between joining and being broadcast to. |
| `SyncRoom.OnlyWritersChangeTheRoom` | apps/server/src/modules/collab/syncHandler.ts:181-200 | A room holds exactly what it loaded, what the bus brought and what connections with write access sent. |
| `SyncTraffic.RoomHoldsTheRun` | apps/server/src/modules/collab/syncHandler.ts:90-103 | The same from the events: what it loaded, every bus update, and what connections with write access sent and it handled. |
| `SyncTraffic.EventSends` | apps/server/src/modules/collab/syncHandler.ts:133-215 | For every event and every connection, exactly what is put on its way: answers to its own state vectors, what others changed, and nothing else. |
| `SyncTraffic.WriteIsSentToTheOthersOnce` | apps/server/src/modules/collab/syncHandler.ts:42-49 | A write that adds something is sent once, as just what it added, to every other member, and not to its sender. |
| `SyncTraffic.NothingIsEchoed` | apps/server/src/modules/collab/syncHandler.ts:42-49 | Over a whole run a connection that asked for nothing is sent only what other connections and instances wrote, each time something new, and no operation twice. |
| `SyncTraffic.ConnectionsAreAccountedFor` | apps/server/src/modules/collab/syncHandler.ts:221-279 | From the events alone: the phase and the write access of a connection, that its frames arrive in the order sent and none is dropped before it closes, and that what is on its way to the client is what it was sent and has not taken. |
| `SyncRoom.Room.BroadcastTo` | apps/server/src/modules/collab/syncHandler.ts:42-49 | One send to every peer but the origin, in any order. |
| `SyncRoom.Room.ApplyUpdate` | apps/server/src/modules/collab/syncHandler.ts:133-134 | An update that adds something grows the document and is fanned out as just what it added. |
| `SyncRoom.Room.HandleMessage` | apps/server/src/modules/collab/syncHandler.ts:181-215 | Answers a state vector with what is missing, applies a write only with write access. |
| `SyncRoom.Room.Resume` | apps/server/src/modules/collab/syncHandler.ts:276-278 | Goes live and drains the queue in order. |
| `Paths.AssertValidPath` | apps/server/src/modules/files/paths.ts:36-65 | The sequence of checks accepts exactly the paths that are short enough, not too deep, and made of valid segments. |
| `Paths.BuiltPathIsValidExactlyWhen` | apps/server/src/modules/files/paths.ts:36-65 | A path put together from names is valid if and only if each is an allowed name, there are at most 32, and they come to at most 1024 characters with their slashes. |
| `Paths.AncestorPaths` | apps/server/src/modules/files/paths.ts:78-87 | The loop returns the joined proper prefixes of the segments, shallowest first. |
| `Paths.AncestorsAreSlashPrefixes` | apps/server/src/modules/files/paths.ts:78-95 | A path is among the ancestors if and only if the other is its descendant in the slash-bounded sense. |
| `Paths.ParentIsDeepestAncestor` | apps/server/src/modules/files/paths.ts:72-75 | The parent is an ancestor below every other ancestor; without one the path has no ancestors. |
| `Paths.NameIsLastSegment` | apps/server/src/modules/files/paths.ts:67-75 | A name is the last segment, and parent and name together are the path. |
| `Paths.ValidPathsStayInside` | apps/server/src/modules/files/paths.ts:36-65 | Followed segment by segment from the project root, a valid path leads to exactly the place its segments name, so never outside, and two different valid paths never to the same place. |
| `Paths.ReplaceKeepsSuffix` | apps/server/src/modules/files/paths.ts:97-99 | Replacing a prefix keeps the rest of the path, stays under the new directory, and is undone by replacing back. |
| `Paths.AncestorsAfterReplace` | apps/server/src/modules/files/paths.ts:93-99 | The ancestors of a moved path are the new directory, its ancestors, and the moved images of the ancestors inside. |
| `FileTable.RunKeepsTree` | apps/server/src/modules/files/service.ts:143-263 | Every sequence of creates, moves and deletes, failures included, keeps the tree: unique paths, every ancestor a directory row, valid segments. |
| `FileTable.EveryTableIsATree` | apps/server/src/modules/files/service.ts:143-263 | So whatever was done to a project since it was empty, its rows are a tree. |
| `FileTable.NothingUnderAFile` | apps/server/src/modules/files/service.ts:226-233 | Files are leaves. |
| `FileTable.CreateKeepsTree` | apps/server/src/modules/files/service.ts:143-177 | Creating adds the row, directories at missing ancestors, and changes nothing else; a failure changes nothing. |
| `FileTable.CreateSucceedsExactlyWhen` | apps/server/src/modules/files/service.ts:148-173 | Creating succeeds if and only if the path is valid, free and not under a file. |
| `FileTable.MoveKeepsTree` | apps/server/src/modules/files/service.ts:179-241 | A move keeps the tree; moved rows keep id, kind and the rest of their path; other rows stay; only missing parents of the new path are added. |
| `FileTable.MoveSucceedsExactlyWhen` | apps/server/src/modules/files/service.ts:184-233 | A move to another path succeeds if and only if the new path is valid, free, not under a file, and not inside the moved directory. |
| `FileTable.OutcomeIs` | apps/server/src/modules/files/service.ts:143-233 | Which error a create or a move reports when several would do: each outcome if and only if its condition holds and no earlier one does. |
| `FileTable.CollidesExactlyWhenTaken` | apps/server/src/modules/files/service.ts:218-224 | Scanning the targets of a whole subtree finds a collision exactly when the new path itself is taken. |
| `FileTable.RewriteNeverCollides` | apps/server/src/modules/files/service.ts:235-237 | The one-row-at-a-time rewrite never holds a path twice, whichever subset of rows was updated first. |
| `FileTable.MoveBackRestores` | apps/server/src/modules/files/service.ts:193-239 | Moving back succeeds if and only if the old path passes validation, and then every original row is as it was; only created directories remain. |
| `FileTable.DeleteKeepsTree` | apps/server/src/modules/files/service.ts:243-263 | Deleting removes the row and exactly what lies under it, and keeps the tree. |
| `FileService.SnapshotIsCurrent` | apps/server/src/modules/files/service.ts:226-233 | Looking each ancestor up in the rows read at the start gives the same answer as the table would while parents are being created. |
| `FileService.FindCollision` | apps/server/src/modules/files/service.ts:218-224 | The scan over the targets, in any order, finds a collision exactly when there is one. |
| `FileService.FileStore.CreateFile` | apps/server/src/modules/files/service.ts:143-177 | The transaction ends as the specification says, rolled back when a parent is a file, and keeps the tree. |
| `FileService.FileStore.CreateParents` | apps/server/src/modules/files/service.ts:162-173 | Creates missing ancestors in order, stops at a file. |
| `FileService.FileStore.CreateMissing` | apps/server/src/modules/files/service.ts:226-233 | The same from the rows read at the start. |
| `FileService.FileStore.RewritePaths` | apps/server/src/modules/files/service.ts:235-237 | One update at a time in any order, each meeting the unique constraint, adds up to the whole rewrite. |
| `FileService.FileStore.MoveFile` | apps/server/src/modules/files/service.ts:179-241 | All checks in order, rollback included; ends as specified and keeps the tree. |
| `FileService.FileStore.DeleteFile` | apps/server/src/modules/files/service.ts:243-263 | Deletes a file alone or a directory with its descendants, and reports the ids. |
| `FileTree.BuildTree` | apps/server/src/modules/files/service.ts:59-81 | The two passes over a map of mutable nodes and the sorts produce exactly the specified nested tree. |
| `FileTree.Attach` | apps/server/src/modules/files/service.ts:68-75 | Every node ends among the children of its parent row, or among the roots when there is none. |
| `FileTree.FlattenIsPermutation` | apps/server/src/modules/files/service.ts:59-81 | For any rows with unique paths, flattening the tree gives every row exactly once, rows without a parent row included. |
| `FileTree.ChildrenAreTheRowsBelow` | apps/server/src/modules/files/service.ts:52-81 | The children of a node are exactly the rows one level below it, without repeats, directories first and then in collation order. |
| `FileTree.LevelsAreOrdered` | apps/server/src/modules/files/service.ts:52-81 | The roots are exactly the rows whose parent has no row, each once; and roots and children alike stand with all directories before all files, each by name. |
| `FileTree.SortIsStable` | apps/server/src/modules/files/service.ts:77-78 | Siblings that compare alike keep the order of the listing. |
| `FileTree.SubtreeIdsAreTheDeletedRows` | apps/web/src/features/files/useFileTree.ts:45-64 | The ids the client collects from its tree are exactly the ids the server deletes, each once. |
| `FileTree.SubtreeIdsOfAnUnknownId` | apps/web/src/features/files/useFileTree.ts:60-64 | An id the tree does not hold is its own answer. |
| `RunRegistry.FramesOnceInOrder` | apps/server/src/modules/execution/registry.ts:99-190 | Under any interleaving of receive, attach, detach and close, frames handed over followed by frames buffered are the received ones in order, minus those that arrived unattached at the cap; the byte counter is the size of what is buffered. |
| `RunRegistry.FramesGoToTheWatcher` | apps/server/src/modules/execution/registry.ts:99-153 | Every frame goes to one client: a replayed one to the client attaching, an arriving one to the client attached last with no detach or close since; nothing is handed over at any other time. |
| `RunRegistry.DrainedRunEndsWithExit` | apps/server/src/modules/execution/registry.ts:108-153 | For whoever drains the run there is one exit frame, last, if and only if it did not arrive unattached at the cap, and then the entry is gone; otherwise nobody is ever handed one. |
| `RunRegistry.ExitCanBeLost` | apps/server/src/modules/execution/registry.ts:108-128 | A concrete run whose exit frame is dropped although a client drains it. |
| `RunRegistry.WatcherGetsTheEndingExactlyWhen` | apps/server/src/modules/execution/registry.ts:155-164 | For an open unfinished run watched by a second client, with nobody attaching later: the exit frame is handed to it if and only if there was no detach and no close in between. |
| `RunRegistry.FirstWatcherSilencesTheSecond` | apps/server/src/modules/execution/registry.ts:161-164 | Detaching names the run and not the client: when the first of two watchers leaves an unfinished run, the second is not handed the ending, whatever happens before it short of a new attach. |
| `RunRegistry.Registry.Open` | apps/server/src/modules/execution/registry.ts:65-97 | A fresh entry under its job id. |
| `RunRegistry.Registry.Receive` | apps/server/src/modules/execution/registry.ts:99-129 | Hands over, buffers or drops; an exit ends the entry only when someone is attached; other runs are untouched. |
| `RunRegistry.Registry.Attach` | apps/server/src/modules/execution/registry.ts:137-153 | Replays the buffer in order to the new sink and drops a finished entry. |
| `RunRegistry.Registry.Detach` | apps/server/src/modules/execution/registry.ts:161-164 | Clears the sink of a known run. |
| `RunRegistry.Registry.Remove` | apps/server/src/modules/execution/registry.ts:183-190 | Takes the entry out of the map and clears its sink, once. |
| `Worker.RunJob.Handle` | apps/runner/src/worker.ts:54-125 | Whatever happens, the output frames are published in order and then exactly one exit frame: the result of the run, or an error with no exit code when the run threw. |
| `Worker.RunJob.SendExit` | apps/runner/src/worker.ts:70-74 | Only the first of the three call sites publishes. |
| `Worker.SmallRunsAreComplete` | apps/server/src/modules/execution/registry.ts:108-115 | A run whose payloads stay below the cap never finds its entry full: every message is kept. |
| `Worker.OutputReachesTheClient` | apps/runner/src/worker.ts:87-113 | Limits, worker and registry together: if the payloads stay below the cap, whoever drains the run is handed the first bytes of its output and then its result. |
| `Limits.ForwardsTheFirstBytes` | apps/runner/src/sandbox/limits.ts:65-86 | For every chunk sequence and every moment of the timer, accepted bytes are the first min(total, limit), the forwarded text is their decoding, whole characters and at most one U+FFFD, and takes at most two bytes more than the limit. |
| `Limits.ForwardsClippedPieces` | apps/runner/src/sandbox/limits.ts:65-86 | Pieces keep their order and stream, and only the one that crosses the budget is cut. |
| `Limits.FirstReasonWins` | apps/runner/src/sandbox/limits.ts:50-54 | The recorded reason is timeout exactly when the timer fired within the budget, output exactly when the budget was crossed first, and the container is told to stop once. |
| `Limits.ResultMeans` | apps/runner/src/sandbox/limits.ts:90-119 | The whole result in terms of what the program wrote, when the timer fired and how the container ended: status; the exit code of the program unless it timed out or failed; duration; message; truncated if and only if the output passed the limit before the timer. |
| `Limits.CutAfterTimeoutIsSilent` | apps/runner/src/sandbox/limits.ts:93-109 | A chunk past the limit that arrives after the timer fired is cut, and the result is not marked truncated. |
| `Limits.LimitedRun.OnOutput` | apps/runner/src/sandbox/limits.ts:65-86 | The byte accounting of one chunk. |
| `Limits.LimitedRun.AbortWith` | apps/runner/src/sandbox/limits.ts:50-54 | First writer wins. |
| `Limits.LimitedRun.Finish` | apps/runner/src/sandbox/limits.ts:90-119 | The result of a run that ended or failed. |
| `Utf8.CutText` | apps/runner/src/sandbox/limits.ts:76-80 | Encoded text cut after n bytes decodes to the characters that fit whole and one U+FFFD if one was cut (section 3 of RFC 3629), at most n + 2 bytes when encoded again. |
| `Utf8.DecodeOfEncode` | apps/runner/src/sandbox/limits.ts:68-80 | Decoding undoes encoding. |
| `Utf8.DecodesCleanlyExactlyWhen` | apps/runner/src/sandbox/limits.ts:68-80 | Decoding shows no U+FFFD exactly when the bytes are the encoding of a text that has none: nothing malformed passes as text. |
| `Search.MatchContent` | apps/web/src/features/search/match.ts:215-269 | The single pass returns the first occurrence on each of the first `limit` matching lines, as a line-by-line search would. |
| `Search.ResultsAreTrue` | apps/web/src/features/search/match.ts:229-266 | Every result has the true offset and line number of the first occurrence on its line, on ever later lines. |
| `Search.HighlightsSpellExactlyWhenTrimmed` | apps/web/src/features/search/match.ts:247-262 | The highlighted range spells the query on every text if and only if the query does not begin with white space. |
| `Search.SpellsExactlyWhen` | apps/web/src/features/search/match.ts:244-262 | On one line: if and only if the match does not begin in the indentation. |
| `Search.SnippetShowsTheLine` | apps/web/src/features/search/match.ts:244-262 | The snippet is the one piece of the line that reaches at most 32 characters before the match, not into the indentation, and at most 120 after it, with an ellipsis where and only where more is cut off; a short line is shown whole. |
| `NameSearch.GreedyFindsExactlySubsequences` | apps/web/src/features/search/match.ts:164-189 | The greedy search succeeds if and only if the needle is a subsequence. |
| `NameSearch.GreedyIsEarliest` | apps/web/src/features/search/match.ts:164-189 | Its choice is at every character no later than any other way to pick the needle. |
| `NameSearch.RangesSpell` | apps/web/src/features/search/match.ts:179-186 | The merged ranges are in order, apart, in bounds, and spell exactly the needle. |
| `NameSearch.SubsequenceRanges` | apps/web/src/features/search/match.ts:164-189 | The loop returns those ranges and the number of unmatched characters between. |
| `NameSearch.MatchPath` | apps/web/src/features/search/match.ts:135-160 | A match if and only if the query is a subsequence of the path; its ranges spell the query; a contiguous hit is reported as its first occurrence, then a pick from the name, then one from the whole path, with the score of its tier. |
| `Ranking.TiersHoldExactlyWhen` | apps/web/src/features/search/match.ts:117-157 | A contiguous hit scores better than every scattered match of the same query in any path if and only if the query is one character long or the score of the hit is at most the base of the scattered tier, 1000, or 2000 for a query with a slash. |
| `Ranking.ScatteredScores` | apps/web/src/features/search/match.ts:143-157 | Every scattered match scores above the base of its tier, and needs a query of two characters. |
| `Ranking.BestScattered` | apps/web/src/features/search/match.ts:143-157 | For every longer query some path is a scattered match one above the base. |
| `Ranking.LateHitRanksBehind` | apps/web/src/features/search/match.ts:117-157 | A valid path whose contiguous hit scores 1068 and a valid path whose scattered match of the same query scores 1001. |
| `Ranking.NameHitsLeadExactlyWhen` | apps/web/src/features/search/match.ts:142-148 | A hit at the start of a name comes before every hit inside a name if and only if the name starts within the first 100 characters of its path; a hit in a name comes before every hit in a folder if and only if it scores below 300. |
| `Ranking.LateNameHitRanksBehind` | apps/web/src/features/search/match.ts:142-148 | A valid path whose hit in its own name scores 301, behind a hit in a folder that scores 300. |
| `Ranking.NamePicksLeadExactlyWhen` | apps/web/src/features/search/match.ts:151-157 | A match picked out of a name comes before every one that needs the whole path if and only if it leaves out at most 1000 characters. |
| `Highlight.Parts` | apps/web/src/features/search/Highlight.tsx:19-30 | The loop over ranges produces the specified parts. |
| `Highlight.RendersTheTextExactlyWhen` | apps/web/src/features/search/Highlight.tsx:19-30 | The drawn text is the given text if and only if every accepted range leads forward. |
| `Highlight.OffsetsLeadForwardExactlyWhen` | apps/web/src/features/search/Highlight.tsx:22-28 | For ranges of offsets that means that no accepted range ends before it starts and before the text does. |
| `Highlight.InvertedRangeDrawsTwice` | apps/web/src/features/search/Highlight.tsx:12-28 | A range that ends before it starts is not skipped and draws text twice, against the comment. |
| `Highlight.OrderedRangesAreMarked` | apps/web/src/features/search/Highlight.tsx:19-30 | Ranges in order and in bounds are all marked and the whole text is drawn. |
| `Highlight.OrderedPartsAreNotEmpty` | apps/web/src/features/search/Highlight.tsx:19-30 | Ranges in order and in bounds make no empty part. |
| `Highlight.NameMatchesAreDrawnWhole` | apps/web/src/features/search/Highlight.tsx:16-45 | A name match is drawn as the whole path with the query marked in it. |
| `Highlight.ContentMatchesAreDrawnWhole` | apps/web/src/features/search/Highlight.tsx:16-45 | A content match is drawn as the whole snippet with the query marked in it. |
| `TreeFilter.FilterKeepsExactly` | apps/web/src/features/search/match.ts:283-309 | On a project tree a row stays if and only if its name matches, or it lies under or above a row whose name matches. |
| `TreeFilter.FilteredTreeIsACut` | apps/web/src/features/search/match.ts:283-309 | The filtered tree is the tree cut down to those rows: every node that stays has its place, and its children that stay in their order. |
| `TreeFilter.WalkKeepsTheShown` | apps/web/src/features/search/match.ts:287-306 | The same on any part of any tree whose files have no children, by parent chains. |
| `TreeFilter.HitIsANameMatch` | apps/web/src/features/search/match.ts:291 | The filter and the name search agree on what a match is. |
| `TreeFilter.FilterOnlyDrops` | apps/web/src/features/search/match.ts:283-285 | Filtering adds nothing, and a blank query keeps the tree. |
| `TreeFilter.FlattenTree` | apps/web/src/features/search/match.ts:32-50 | Depth first and in order. |
| `Provider.AtMostOneSocketAndTimer` | apps/web/src/features/collab/CollabProvider.ts:114-283 | Over every event sequence: one heard socket at most; one armed timer at most, which is the one the provider can still clear, waits only after the socket closed, and is below the ceiling of its attempt; a provider that has not given up has a socket or a timer alive, and an open connection has announced its state vector. |
| `Provider.AttemptCountsCloses` | apps/web/src/features/collab/CollabProvider.ts:259-283 | The attempt counter is the number of retryable closes since the last sync message: neither opening nor coming online resets it. |
| `Provider.ReadyAndClosedStay` | apps/web/src/features/collab/CollabProvider.ts:164-173 | `ready` never reverts; after a terminal close the status stays closed and no socket is opened. |
| `Provider.NothingAfterDestroy` | apps/web/src/features/collab/CollabProvider.ts:137-162 | After `destroy` no timer, no heard socket and no new socket, ever, and every socket was told to close. |
| `Provider.DelayBelowCeiling` | apps/web/src/features/collab/reconnect.ts:51-54 | A sampled delay is below min(15000, 500 times two to the attempt). |
| `Provider.CeilingIs` | apps/web/src/features/collab/reconnect.ts:44-53 | The ceilings are 500, 1000, 2000, 4000 and 8000 ms, and 15000 ms from the sixth attempt on. |
| `Provider.SamplesFillTheWindow` | apps/web/src/features/collab/reconnect.ts:51-54 | Every delay below the ceiling is that of one sample and of no other: the whole window is used. |
| `Provider.CloseArmsTheDelay` | apps/web/src/features/collab/CollabProvider.ts:259-283 | A retryable close arms one timer, for the delay its sample drew in the window of the closes since the last sync; a terminal one arms none; a protocol code is never terminal. |
| `Provider.StatusFollowsTheEvents` | apps/web/src/features/collab/CollabProvider.ts:164-173 | Status, close code, readiness and destruction at any point are those of the last sync message or close heard, of the first sync or filled local store, and of the destroy call. |
| `Provider.RetryOpensASocket` | apps/web/src/features/collab/CollabProvider.ts:215-223 | The timer, or the network coming back while reconnecting, opens a new socket and leaves no timer. |
| `Provider.CollabProvider.constructor` | apps/web/src/features/collab/CollabProvider.ts:69-112 | Starts with one connecting socket. |
| `Provider.CollabProvider.Connect` | apps/web/src/features/collab/CollabProvider.ts:114-125 | Opens a socket unless destroyed. |
| `Provider.CollabProvider.DetachSocket` | apps/web/src/features/collab/CollabProvider.ts:127-135 | Stops hearing the current socket and closes it. |
| `Provider.CollabProvider.HandleOpen` | apps/web/src/features/collab/CollabProvider.ts:201-213 | Announces the state vector on the current open socket. |
| `Provider.CollabProvider.HandleMessage` | apps/web/src/features/collab/CollabProvider.ts:225-257 | A sync message makes the document ready, resets the backoff and marks it synced. |
| `Provider.CollabProvider.HandleClose` | apps/web/src/features/collab/CollabProvider.ts:259-283 | Gives up on a terminal code, otherwise arms one retry. |
| `Provider.CollabProvider.ClearRetry` | apps/web/src/features/collab/CollabProvider.ts:175-179 | Disarms the timer that was last armed. |
| `Provider.CollabProvider.RetryFires` | apps/web/src/features/collab/CollabProvider.ts:278-282 | The timer that fires is gone, and the socket is replaced. |
| `Provider.CollabProvider.HandleOnline` | apps/web/src/features/collab/CollabProvider.ts:215-223 | Replaces the socket at once, only while reconnecting. |
| `Provider.CollabProvider.DestroyProvider` | apps/web/src/features/collab/CollabProvider.ts:137-162 | Clears the timer and detaches the socket, once. |

## Left out

- Yjs, y-protocols and lib0: the merge algorithm, encodings, pending structures and awareness clocks are library code; a document is a set of operations.
- Awareness states and the ids a connection announced: a presence frame is carried in order but has no effect in `SyncRoom`.
- The bus envelope: encoding and decoding a frame, `docChannel`, and `closeDocBus`.
- Malformed frames and the closes they cause, and a connection whose access check fails.
- `deleteDoc`, which removes a document's snapshot and with it the compare-and-set token.
- `materializeContent`: the text it writes may include edits made after the append it follows, so no claim relates it to the log.
- A rejected `createRoom`, whose promise stays in the map, and a process that dies between inserting file content and writing the seed snapshot.
- Revocation of sockets, within one instance or across them, and a role change during a join.
- RoomRegistry.ReopenedRoomSeesEverything: holds while no append fails, as the source's final flush only logs a failure; `WriteBuffer.EvictionStrandsExactlyTheFailed` says what a failure leaves behind.
- Relay.InstancesAgreeAtQuiescence: frames may be reordered but not lost; loss is repaired only by the log, which `Cluster` covers.
- FileTable.RunKeepsTree: one project's rows, transactions one after another; total length and depth are checked for a moved root only, so they are no part of the invariant for what moves with it.
- Paths.AssertValidPath: a string is a sequence of Unicode scalar values, so lengths count those and not UTF-16 units; the non-string input is not modelled.
- FileTree.BuildTree: `localeCompare` is any total order with ties, given as a real-valued key; a node's name is its path's base name.
- The cap of 20 active runs, which is checked before an await, and the time to live of an entry as a clock: closing an entry is an event that may come at any time.
- That an aborted container really stops, which is Docker's part, as are staging and the reaper.
- Search.MatchContent: stated for queries without a newline and case folding that works character by character and keeps white space; a character outside the basic plane counts as one.
- Ranking.TiersHoldExactlyWhen: case folding is assumed to leave lower-case letters and digits alone and to make a slash of a slash only.
- `directoryPaths`, `isContentSearchable` and `looksBinary`: simple filters.
- The provider's document and awareness listeners, the local store beyond the moment it has loaded, and malformed messages.
- Express routes, validation schemas, Prisma, cookies, tokens, origin checks, React components and the load harness.
