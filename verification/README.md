# A model of harana-matrix's core protocols

The repository wraps a Matrix client SDK for other languages. This project
models the parts of it whose correctness is about more than one function: the
linked chunk that stores a timeline and the way its changes are observed, the
FFI observers that replicate a list, iterators, builders and delegates shared
between threads, the crypto-store migration, interactive verification, and the
header consolidation of the Swift packaging.

* `ChunkUpdates.dfy`, `LinkedChunks.dfy`: a `LinkedChunk` keeps items and gaps in
  chunks of bounded size. Each operation describes itself as updates. `AsVector`
  turns those into diffs of a flat list, knowing only the lengths of the chunks.
  `Valid` says that an observer which maps all updates it has not taken yet, and
  applies the diffs, arrives at exactly the items of the chunks. Every operation
  keeps it, so it holds after every sequence of operations, and `AsVector.Take`
  turns it into a promise about the diffs. `View` is the sequence of items and
  gaps, independent of how it is cut into chunks; the operations are specified on
  it. `WorksOn` is the state in the middle of an operation, with some items
  detached.
* `Relational.dfy`, `RelationalLoading.dfy`, `RelationalLinkedChunks.dfy`: the
  tables a memory store keeps linked chunks in. `Holds` says that the tables are
  exactly the chunks; `ChunkLog` reads updates as changes of the chunks. Writing
  the log of a linked chunk and loading it back, last chunk first, is the
  identity. Several linked chunks share the tables.
* `UpdateReaders.dfy`: the buffer behind it, with several readers, garbage
  collection and wake-ups. For each reader, what it has not read evolves by
  exactly the push, clear and take that the field `updates` of the linked chunk
  stands for.
* `ListReplication.dfy`: snapshot and diffs over the FFI, with indices cast to
  `u32`, and what a listener can rebuild from the calls.
* `ChunkIterator.dfy`, `ArcHeap.dfy`, `ClientBuilder.dfy`, `ClientDelegates.dfy`,
  `RoomSettings.dfy`: concurrent calls are state machines whose steps are the
  lock phases or the reads and writes of the code; statements are about all
  interleavings.
* `Migration.dfy`: the migration is a script of steps that report and write; a run
  carries out the script up to the first failing step.
* `Verification.dfy`: the listener loops, and the request as a value shared
  between tasks.
* `Modulemap.dfy`, `SwiftTargets.dfy`, `Logger.dfy`, `NotificationSettings.dfy`,
  `CreateRoom.dfy`: the remaining components, one module each.
* `Sequences.dfy`: shared helpers, among them "the last write wins" for any fold.

Where a property one would expect is false of the code, the project has the exact
condition under which it holds: indices past 2^32 (`FaithfulIffNarrow`), progress
that goes back (`DataProgressMonotone`), totals past 2^31
(`DataProgressWithinTotal`), empty chunks under concurrency
(`EmptyChunkIffOvertaken`), requests that come back (`LiveMovesBackIff`), a panic
in a conversion (`TransitionedConverts`), controllers that are replaced
(`KeepsOwnControllerIff`), settings lost to an overlapping call
(`SettingKeptIff`), handlers left behind (`HandlerAccounting`,
`InterleavedAccounting`), listeners that subscribe with an old copy
(`SubscribersAreReplicatedIff`), header lines lost to the directory order
(`OrderIrrelevantIff`), carriage returns (`IdempotentIff`), replaced items that
reach another room or panic on its gap (`ReplaceStoredIff`,
`ReplaceStaysOwnIff`), items with the same identifier (`PushStoredIff`), updates
read in two goes (`CutIsSafeIff`), numbers the SDK types cannot hold
(`ToSdkKeepsMeaningIff`) and refused insertions that leave a dangling link
(`RefusedInsertIsCleanIff`; a comment in the code says they leave none).

For each of them a lemma gives an input or a run that shows it.

`dafny verify dfyconfig.toml` checks the whole project.

## Model

| member | source | states |
|---|---|---|
| `LinkedChunks.LinkedChunk.PushItems` | crates/client-common/src/linked_chunk/mod.rs:1507-1582 | In each of its three modes (plain, while items are detached, while they are put back) pushing puts exactly the new items after what chunk `j` ended with, in order, touches no other chunk, keeps identifiers distinct and every chunk within its capacity, and an observer that followed all updates still follows. Terminates for every chunk that is a gap, full or partly filled. |
| `LinkedChunks.LinkedChunk.InsertNext` | crates/client-common/src/linked_chunk/mod.rs:1588-1629 | The new chunk has an identifier above all handed out since the last clear, sits right after chunk `j`, and the update it announces (with its neighbours' identifiers) keeps the observer in step even while items are detached. |
| `LinkedChunks.LinkedChunk.EnsureFirst` | crates/client-common/src/linked_chunk/mod.rs:201-217 | The lazily created first chunk is announced once and changes neither items nor gaps. |
| `LinkedChunks.LinkedChunk.FindChunk` | crates/client-common/src/linked_chunk/mod.rs:284-294 | The backward walk finds the chunk with an identifier exactly when there is one. |
| `LinkedChunks.LinkedChunk.Check` | crates/client-common/src/linked_chunk/mod.rs:480-496 | A position is accepted or refused with exactly the error the code gives for an unknown chunk, a gap chunk or an index out of bounds. |
| `LinkedChunks.LinkedChunk.PushItemsBack` | crates/client-common/src/linked_chunk/mod.rs:423-448 | The items and gaps afterwards are those before followed by the pushed items, however many chunks that takes; the observer still follows. |
| `LinkedChunks.LinkedChunk.PushGapBack` | crates/client-common/src/linked_chunk/mod.rs:452-464 | Same with one gap. |
| `LinkedChunks.LinkedChunk.InsertItemsAt` | crates/client-common/src/linked_chunk/mod.rs:470-551 | For every position: the exact error and nothing changed, or the items stand at that place of the whole sequence of items and gaps and everything else is as it was; detaching and reattaching leaves the observer with exactly that list. |
| `LinkedChunks.LinkedChunk.InsertInside` | crates/client-common/src/linked_chunk/mod.rs:503-536 | The branch in the middle of a chunk: detach, push, reattach ends with the detached items after the new ones and nothing detached any more. |
| `LinkedChunks.LinkedChunk.RemoveItemAt` | crates/client-common/src/linked_chunk/mod.rs:560-618 | Returns the item at the position and removes just it; the chunk goes away exactly when it became empty and is not the first. |
| `LinkedChunks.LinkedChunk.ReplaceItemAt` | crates/client-common/src/linked_chunk/mod.rs:624-659 | One entry of the whole sequence is replaced, nothing else; exact errors. |
| `LinkedChunks.LinkedChunk.InsertGapAt` | crates/client-common/src/linked_chunk/mod.rs:665-771 | The gap stands at the position among all items and gaps, whether the chunk is split or the gap goes in front of it; index 0 is accepted on an empty chunk, other indices only below the length. |
| `LinkedChunks.LinkedChunk.RemoveEmptyChunkAt` | crates/client-common/src/linked_chunk/mod.rs:781-827 | The four outcomes exactly: only chunk left, unknown, not empty, or removed with no item lost; the returned position is the start of the next chunk, if any. |
| `LinkedChunks.LinkedChunk.ReplaceGapAt` | crates/client-common/src/linked_chunk/mod.rs:836-914 | The one gap is replaced by the items in place; the returned chunk is the first new one. |
| `LinkedChunks.LinkedChunk.Clear` | crates/client-common/src/linked_chunk/mod.rs:402-416 | Dropping all pending updates in favour of a single clear still brings every observer to the (empty) list, whatever it had missed. |
| `LinkedChunks.AsVector.constructor` | crates/client-common/src/linked_chunk/as_vector.rs:60-72 | A new observer starts in step with the chunks: what was pending is drained and the lengths are those of the chunks. |
| `LinkedChunks.AsVector.Take` | crates/client-common/src/linked_chunk/as_vector.rs:78-85 | The diffs can all be applied to the list the observer had, and turn it into exactly the items of the chunks, after any operations on the linked chunk since the last time. |
| `UpdateMapping.UpdateToVectorDiff.MapToOffset` | crates/client-common/src/linked_chunk/as_vector.rs:513-542 | The offset of a position is its index plus the lengths of all chunks before the one looked for. |
| `UpdateMapping.UpdateToVectorDiff.MapUpdates` | crates/client-common/src/linked_chunk/as_vector.rs:210-500 | The loop computes the mapping `MapAll`, flags local to the call, on every batch on which the code reaches neither its `unreachable!` nor a failing debug assertion. |
| `ChunkSync.PushMoves` | crates/client-common/src/linked_chunk/as_vector.rs:389-417 | Mapping a push: appended, inserted before what is detached, or silent when it puts detached items back; in all three the observer's list is again the chunks' items with the detached ones after the chunk pushed to. |
| `ChunkSync.InsertMoves` | crates/client-common/src/linked_chunk/as_vector.rs:305-368 | Mapping a new chunk changes no list, and what is detached then waits after the new chunk. |
| `ChunkSync.DetachMoves` | crates/client-common/src/linked_chunk/as_vector.rs:449-474 | Detaching emits nothing: the observer keeps the items, which now count as detached. |
| `ChunkSync.RemoveItemMoves` | crates/client-common/src/linked_chunk/as_vector.rs:431-447 | Mapping a removed item removes just that item from the observer's list. |
| `ChunkSync.ReplaceItemMoves` | crates/client-common/src/linked_chunk/as_vector.rs:419-429 | Mapping a replaced item sets just that item in the observer's list. |
| `ChunkSync.RemoveEmptyMoves` | crates/client-common/src/linked_chunk/as_vector.rs:370-387 | Removing a chunk without items emits nothing and forgets its length. |
| `ChunkSync.TracksOneMore` | crates/client-common/src/linked_chunk/as_vector.rs:210-500 | Following is preserved update by update: if an observer follows all updates so far, and the next one moves chunks and list together, it follows that one too. |
| `LinkedChunks.OrderTracker.Ordering` | crates/client-common/src/linked_chunk/order_tracker.rs:138-162 | A flushed tracker gives a position an order exactly when there is an item at it, and the order is the item's index in the flat list. |
| `LinkedChunks.OrderIsIndex` | crates/client-common/src/linked_chunk/order_tracker.rs:138-162 | The order computed from chunk lengths alone is the index of the item in the flattened list. |
| `LinkedChunks.OrderIsLexicographic` | crates/client-common/src/linked_chunk/order_tracker.rs:30-38 | Comparing orders is comparing chunk places first and indices second. |
| `UpdateReaders.UpdatesInner.TakeWithToken` | crates/client-common/src/linked_chunk/updates.rs:326-340 | After a take the reader has got exactly what was due to it since it registered, in order, nothing twice; what is due to the others is untouched. |
| `UpdateReaders.UpdatesInner.GarbageCollect` | crates/client-common/src/linked_chunk/updates.rs:359-370 | Dropping from the buffer loses nothing for any reader, and leaves nothing that everyone has read. |
| `UpdateReaders.UpdatesInner.Push` | crates/client-common/src/linked_chunk/updates.rs:286-293 | A pushed update becomes due to every reader, and everyone who waits is woken. |
| `UpdateReaders.UpdatesInner.ClearPending` | crates/client-common/src/linked_chunk/updates.rs:296-306 | Withdraws exactly what was not read yet, from every reader. |
| `UpdateReaders.UpdatesInner.NewReaderToken` | crates/client-common/src/linked_chunk/updates.rs:193-204 | The token is new, and the reader starts with what the buffer happens to hold. |
| `UpdateReaders.UpdatesInner.PollNext` | crates/client-common/src/linked_chunk/updates.rs:401-421 | The stream ends exactly when the updates were dropped; before that it is pending exactly when nothing new is due, and then registered to be woken; a reader registered to be woken never has anything unread, so no wake-up is lost. |
| `UpdateReaders.UpdatesInner.DropUpdates` | crates/client-common/src/linked_chunk/updates.rs:375-405 | Dropping the updates wakes nobody: a reader that waits hears of the end only when something else polls it. |
| `UpdateReaders.UpdatesInner.Unsubscribe` | crates/client-common/src/linked_chunk/updates.rs:425-437 | A dropped subscriber no longer holds back the buffer; the others are unaffected; nothing happens once the updates are gone. |
| `LinkedChunks.RunThenTake` | crates/client-common/src/linked_chunk/as_vector.rs:34-39 | For every sequence of operations, successful or refused, between two takes: the diffs apply, and turn the list of the last time into the items of the chunks. |
| `ChunkSync.FollowsTwice` | crates/client-common/src/linked_chunk/as_vector.rs:78-85 | Reading the updates in two goes or at once leads to the same list, wherever the cut is made while nothing is detached. |
| `ChunkSync.CutIsSafeIff` | crates/client-common/src/linked_chunk/as_vector.rs:300-497 | For every state of an observer: reading on in a new call leads to the same list, whatever updates follow, if and only if nothing is detached at the cut, that is, no items are being put back and either the observer is not detaching or its list is no longer than the chunks. |
| `LinkedChunks.PlainWorkFollows` | crates/client-common/src/linked_chunk/mod.rs:1507-1582 | Such cuts exist inside an operation too: in the middle of one, while nothing is detached, the updates so far lead an observer to exactly the chunks' items. |
| `ChunkSync.CutWhileDetached` | crates/client-common/src/linked_chunk/as_vector.rs:300-302 | A cut while items are detached is not safe, because the two flags are local to one call: the three updates of one insertion, read in two goes, give `a, b, x` instead of `a, x, b`. |
| `ChunkLog.PushLogs` | crates/client-common/src/linked_chunk/updates.rs:36-118 | With its companions for the other updates: an update, read as a change of the chunks themselves, is exactly the change the linked chunk made, so the updates are a faithful log. |
| `RelationalStore.LogHolds` | crates/client-common/src/linked_chunk/relational.rs:157-308 | Persistence: tables that hold the chunks of a linked chunk accept any log of it and hold the chunks afterwards, links, entries and contents, provided identifiers agree and replaced rows are found. |
| `RelationalStore.SoleLogHolds` | crates/client-common/src/linked_chunk/relational.rs:157-308 | For a linked chunk that has the tables for itself agreeing identifiers are all it takes. |
| `RelationalStore.EffectHolds` | crates/client-common/src/linked_chunk/relational.rs:157-308 | One update of the log: nothing is refused, nothing panics, and the tables follow the chunks. |
| `RelationalStore.InsertHolds` | crates/client-common/src/linked_chunk/relational.rs:310-365 | A new chunk's row, and the links of its two neighbours, are those of the chunk list with the chunk inserted. |
| `RelationalStore.RemoveChunkHolds` | crates/client-common/src/linked_chunk/relational.rs:367-411 | Removing a chunk links its neighbours to each other and drops its rows, and nothing else. |
| `RelationalStore.RemoveItemHolds` | crates/client-common/src/linked_chunk/relational.rs:239-269 | Removing an item moves up exactly the rows after it in its chunk. |
| `RelationalStore.DetachHolds` | crates/client-common/src/linked_chunk/relational.rs:271-296 | Detaching drops exactly the rows from the position on. |
| `RelationalStore.PushStoredIff` | crates/client-common/src/linked_chunk/relational.rs:205-219 | A push is stored exactly when items with the same identifier are the same afterwards: contents are kept by identifier. |
| `RelationalStore.ReplaceStoredIff` | crates/client-common/src/linked_chunk/relational.rs:221-237 | For every replacement of a stored item: it panics exactly when the first row at its position, of any linked chunk, is a gap; and it is stored exactly when identifiers agree afterwards and that row is its own, or is an item and the identifier does not change. |
| `RelationalStore.ReplaceStaysOwnIff` | crates/client-common/src/linked_chunk/relational.rs:221-237 | For every table and position: a replacement panics exactly when there is no row at the position or the first is a gap; otherwise it leaves the other linked chunks alone exactly when that row is its own or already says the same, and the entry it changes is that of the row's owner. |
| `RelationalStore.ReplaceReachesAnotherRoom` | crates/client-common/src/linked_chunk/relational.rs:221-226 | Two rooms stored in the same tables, where replacing the item of one changes what the other has stored. |
| `RelationalStore.ReplacePanicsOnAnotherRoomsGap` | crates/client-common/src/linked_chunk/relational.rs:222-230 | Two rooms, both correctly stored, where replacing an item of one panics because of a gap of the other. |
| `RelationalStore.SameIdentifierIsNotStored` | crates/client-common/src/linked_chunk/relational.rs:205-219 | A stored list and a pushed item with the identifier of another one: the push is accepted and the list is no longer stored. |
| `RelationalStore.OthersUntouched` | crates/client-common/src/linked_chunk/relational.rs:157-308 | Every other update, accepted or refused, leaves all other linked chunks as they were. |
| `RelationalStore.OthersHold` | crates/client-common/src/linked_chunk/relational.rs:157-308 | Whole logs: whatever one linked chunk logs, under the same condition on replacements, is accepted and leaves every other linked chunk stored. |
| `RelationalStore.LogSparesOthers` | crates/client-common/src/linked_chunk/relational.rs:157-308 | And leaves every row, entry and content of the others exactly as it was, stored correctly or not. |
| `RelationalStore.SoleLogSuits` | crates/client-common/src/linked_chunk/relational.rs:221-237 | The condition on the updates of a log holds by itself for a linked chunk that has the tables for itself and whose identifiers agree. |
| `RelationalStore.RefusedInsertIsCleanIff` | crates/client-common/src/linked_chunk/relational.rs:317-352 | An insertion is refused exactly when the chunk is already there or one of its neighbours is not, with the error for the first of these; a refused one leaves the table untouched except when only the next chunk is unknown: then the previous one points to a chunk that does not exist. |
| `RelationalStore.RefusedInsertLeavesDanglingLink` | crates/client-common/src/linked_chunk/relational.rs:317-352 | A table on which that happens: the only chunk ends up pointing to a chunk that has no row. |
| `RelationalLinkedChunks.RelationalLinkedChunk.ApplyUpdates` | crates/client-common/src/linked_chunk/relational.rs:157-308 | The loops compute exactly `ApplyLog`: all updates, or those before the first that is refused or panics. |
| `RelationalLinkedChunks.RelationalLinkedChunk.Persist` | crates/client-common/src/linked_chunk/relational.rs:155-161 | What is taken from a linked chunk is stored, after any operations on it and beside any others in the same tables: nothing is refused, the tables hold its chunks, and every other linked chunk is as it was and stays stored. |
| `RelationalLoading.LoadsChunk` | crates/client-common/src/linked_chunk/relational.rs:608-703 | Every stored chunk loads back with its contents in order and its links, from rows in any order. |
| `RelationalLoading.LoadsLast` | crates/client-common/src/linked_chunk/relational.rs:513-573 | The last chunk is the one that loads, and nothing for an empty linked chunk; the malformed case does not arise. |
| `RelationalLoading.LoadsPrevious` | crates/client-common/src/linked_chunk/relational.rs:575-591 | Before a chunk loads the one before it, and before the first nothing. |
| `RelationalLinkedChunks.RelationalLinkedChunk.LoadLastChunk` | crates/client-common/src/linked_chunk/relational.rs:513-573 | The row without a next chunk, and the largest identifier in use, after which new ones are generated. |
| `RelationalLoading.GoesOnWithPrevious` | crates/client-common/src/linked_chunk/lazy_loader.rs:72-187 | None of the loader's five consistency checks fails on chunks that were stored. |
| `RelationalLinkedChunks.RelationalLinkedChunk.Reload` | crates/client-common/src/linked_chunk/lazy_loader.rs:24-187 | Round trip: loading a stored linked chunk lazily, last chunk first, gives back exactly its chunks, and an identifier above all of theirs. |
| `ListReplication.FaithfulIffNarrow` | bindings/client-matrix-ffi/src/room_directory_search.rs:171-198 | A diff survives the FFI on every list it can be emitted for if and only if its index or length is below 2^32: the cast to `u32` is the only loss. |
| `ListReplication.WideDiverges` | bindings/client-matrix-ffi/src/live_locations_observer.rs:178-187 | For every diff with a wider index, a list on which the converted diff changes the wrong place. |
| `ListReplication.NarrowCommutes` | bindings/client-matrix-ffi/src/live_locations_observer.rs:168-195 | Replaying the converted diff on the converted list is converting the changed list. |
| `ListReplication.LengthBoundGivesNarrow` | bindings/client-matrix-ffi/src/room_directory_search.rs:183-190 | A source that stays below 2^32 elements never emits an index the cast changes. |
| `ListReplication.BatchingIsIrrelevant` | bindings/client-matrix-ffi/src/room_directory_search.rs:149-153 | How a stream of diffs is cut into calls does not change where the list ends up. |
| `ListReplication.Results` | bindings/client-matrix-ffi/src/room_directory_search.rs:139-154 | The listener gets one `Reset` with the snapshot and then one call per batch, in order. |
| `ListReplication.ResultsAreReplicated` | bindings/client-matrix-ffi/src/room_directory_search.rs:139-154 | Whatever the listener's copy was, after each of those calls it is the converted source list at that point. |
| `ListReplication.ShortResultsAreReplicated` | bindings/client-matrix-ffi/src/room_directory_search.rs:139-154 | The same for every source that stays below 2^32 elements, with no condition on the diffs. |
| `ListReplication.Subscribe` | bindings/client-matrix-ffi/src/live_locations_observer.rs:118-132 | As `Results`, without the call for an empty snapshot. |
| `ListReplication.SubscribersAreReplicatedIff` | bindings/client-matrix-ffi/src/live_locations_observer.rs:118-132 | Whatever the listener held: after subscribing its copy is the converted source list exactly when the snapshot was not empty or the copy was, and then it is after every batch. |
| `ListReplication.ShortSubscribersAreReplicatedIff` | bindings/client-matrix-ffi/src/live_locations_observer.rs:118-132 | The same for every source that stays below 2^32 elements, with no condition on the diffs. |
| `ListReplication.StaleCopyStays` | bindings/client-matrix-ffi/src/live_locations_observer.rs:121-130 | A listener that held something and subscribed to an empty list keeps it in front of what arrives. |
| `ChunkIterator.ChunkIterator.Next` | bindings/client-matrix-ffi/src/chunk_iterator.rs:35-55 | One call alone: `None` on nothing left, else the first items, at most as many as asked for, and the rest stays. |
| `ChunkIterator.ChunkShape` | bindings/client-matrix-ffi/src/chunk_iterator.rs:35-55 | Draining with size `k` gives `ceil(n/k)` chunks, all of size `k` but the last, which concatenate to the items. |
| `ChunkIterator.SerialDrain` | bindings/client-matrix-ffi/src/chunk_iterator.rs:35-55 | With calls of size 0 mixed in anywhere, the non-empty chunks are the first of those. |
| `ChunkIterator.SerialDrainEnds` | bindings/client-matrix-ffi/src/chunk_iterator.rs:36-40 | A call returns `None` exactly when `ceil(n/k)` calls of size `k` came before. |
| `ChunkIterator.Conservation` | bindings/client-matrix-ffi/src/chunk_iterator.rs:35-55 | In every interleaving of the two lock phases of concurrent calls, nothing is lost, duplicated or reordered. |
| `ChunkIterator.LinearizableButForEmptyChunks` | bindings/client-matrix-ffi/src/chunk_iterator.rs:35-55 | Every interleaving is the serial run of its calls in finishing order, except that a call may return an empty chunk where the serial one returns `None`. |
| `ChunkIterator.EmptyChunkIffOvertaken` | bindings/client-matrix-ffi/src/chunk_iterator.rs:36-54 | That happens exactly when another thread took the last items between the call's check and its split. |
| `ChunkIterator.OvertakenCall` | bindings/client-matrix-ffi/src/chunk_iterator.rs:36-54 | A run of two calls on one item in which the second returns an empty chunk, where the serial one returns `None`. |
| `ChunkIterator.NoneIsFinal` | bindings/client-matrix-ffi/src/chunk_iterator.rs:36-37 | After the items are gone every call returns `None`. |
| `BuilderValues.LastSetterWins` | bindings/client-matrix-ffi/src/client_builder.rs:250-505 | After any sequence of the 28 setters each field holds what the last setter about it wrote, or its initial value. |
| `BuilderValues.BuildObeysLastHomeserverSetter` | bindings/client-matrix-ffi/src/client_builder.rs:557-575 | The homeserver chosen at build time is the one of the last of the four setters about it. |
| `BuilderValues.BuildNeedsHomeserverSetter` | bindings/client-matrix-ffi/src/client_builder.rs:557-575 | Building fails for want of a homeserver exactly when none of the four was called. |
| `ArcHeap.Arcs.UnwrapOrCloneArc` | bindings/client-matrix-ffi/src/helpers.rs:17-19 | The caller gets the builder; the cell is freed exactly when this was its only handle; no other handle sees a change. |
| `ArcHeap.Arcs.CallSetter` | bindings/client-matrix-ffi/src/client_builder.rs:250-254 | A setter call replaces its handle by a new one and changes what no other handle sees. |
| `ArcHeap.StepKeepsInv` | bindings/client-matrix-ffi/src/helpers.rs:17-19 | Every step of interleaved clones, drops and setter calls keeps reference counts equal to the number of holders. |
| `ArcHeap.RunRefines` | bindings/client-matrix-ffi/src/client_builder.rs:250-505 | Every interleaving on shared, counted cells behaves like the program on immutable values. |
| `ArcHeap.HandlesAreImmutable` | bindings/client-matrix-ffi/src/client_builder.rs:250-505 | No step of anyone changes what another handle sees, whether the cell was moved out of or copied. |
| `ArcHeap.NothingLeaks` | bindings/client-matrix-ffi/src/helpers.rs:17-19 | When no handle and no call is left, every cell was freed. |
| `ClientBuilderHandles.HandleShowsLastSetter` | bindings/client-matrix-ffi/src/client_builder.rs:250-505 | In every interleaving, a field seen through a handle is what the last setter on the way to that handle wrote. |
| `Migration.Migrator.CollectSessions` | bindings/client-crypto-ffi/src/lib.rs:423-532 | Reports one step per session counted from the given step, in order, and gives up at the first that does not restore. |
| `Migration.Migrator.MigrateData` | bindings/client-crypto-ffi/src/lib.rs:221-335 | Progress and writes of every run are those of the script up to the first failing step; `Ok` exactly if no step fails. |
| `Migration.Migrator.MigrateSessionData` | bindings/client-crypto-ffi/src/lib.rs:382-420 | The same for sessions alone. |
| `Migration.DataProgress` | bindings/client-crypto-ffi/src/lib.rs:239-334 | Every run, failing anywhere, shows the listener a prefix of the successful trace, and all of it exactly when it returns `Ok`. |
| `Migration.SessionProgress` | bindings/client-crypto-ffi/src/lib.rs:388-419 | The same for sessions alone. |
| `Migration.DataProgressMonotone` | bindings/client-crypto-ffi/src/lib.rs:271-302 | The progress a run reports, failing or not, never goes back exactly when there is at most one session or the run stops before the counter restarts (and before it wraps): the counter is passed by value, so steps counted while collecting are counted again. |
| `Migration.SessionProgressMonotone` | bindings/client-crypto-ffi/src/lib.rs:406-419 | The same for sessions alone. |
| `Migration.TwoSessionsGoBack` | bindings/client-crypto-ffi/src/lib.rs:271-302 | A successful run with two sessions, which reports 1, 2, 3, 4, 3, 4, 5. |
| `Migration.DataProgressWithinTotal` | bindings/client-crypto-ffi/src/lib.rs:239-243 | No value a run reports, failing or not, exceeds the reported total exactly when the total is below 2^31 or wraps to the largest `i32`, or the run stops before the counter passes what the total was cast to. |
| `Migration.SessionProgressWithinTotal` | bindings/client-crypto-ffi/src/lib.rs:388-392 | The same for sessions alone, whose first two steps report nothing. |
| `Migration.LargeTotalTurnsNegative` | bindings/client-crypto-ffi/src/lib.rs:239-243 | A total of 2^31 is reported as a negative number. |
| `Migration.DataPersisted` | bindings/client-crypto-ffi/src/lib.rs:304-334 | In every run the store holds a prefix of tracked users, account, changes, and all three exactly when the run returns `Ok`. |
| `Migration.FailingPickleSavesNothing` | bindings/client-crypto-ffi/src/lib.rs:271-281 | One pickle that does not restore makes the run fail with nothing written. |
| `Migration.SavedSessionsAreTheImages` | bindings/client-crypto-ffi/src/lib.rs:423-532 | On success the saved sessions are the images of the pickles, one for one and in order. |
| `VerificationListeners.SasListener` | bindings/client-crypto-ffi/src/verification.rs:258-275 | The callback gets a prefix of the stream, converted; a done or cancelled state is reported once and last, and nothing after it. |
| `VerificationListeners.QrListener` | bindings/client-crypto-ffi/src/verification.rs:440-459 | The same for QR verification. |
| `VerificationRequests.RunAgrees` | crates/client-crypto/src/verification/requests.rs:697-728 | In every run all method lists in play, live, held by a start or by the listener, are the same. |
| `VerificationRequests.LiveMovesBackIff` | crates/client-crypto/src/verification/requests.rs:947-1007 | The live request moves backwards in exactly one situation: a start that read it earlier writes after it was done or cancelled. |
| `VerificationRequests.CancelledRequestComesBack` | crates/client-crypto/src/verification/requests.rs:421-438 | A run in which a cancelled request becomes live again. |
| `VerificationRequests.DeliveredNeverMovesBack` | bindings/client-crypto-ffi/src/verification.rs:796-819 | What the callback gets never moves backwards, and a done or cancelled state comes once and last, although the live request can go back. |
| `VerificationRequests.NothingAfterTheEnd` | bindings/client-crypto-ffi/src/verification.rs:796-819 | Once the listener stopped nothing is delivered. |
| `VerificationRequests.TransitionedConverts` | bindings/client-crypto-ffi/src/verification.rs:757-794 | Converting a queued `Transitioned` panics exactly when the live request was done or cancelled by then; otherwise the client gets the lists it was queued with. |
| `VerificationRequests.QueuedItemCanPanic` | bindings/client-crypto-ffi/src/verification.rs:757-794 | A run that reaches that panic. |
| `RoomSettings.OlmMachine.SetRoom` | bindings/client-crypto-ffi/src/machine.rs:652-698 | A setter makes its one setting of its one room what was asked, leaves the other setting, the rotation fields and all other rooms alone, or fails and changes nothing. |
| `RoomSettings.SerialRunKeepsLastWrite` | bindings/client-crypto-ffi/src/machine.rs:652-698 | After any serial run each setting of each room holds the value last written to it. |
| `RoomSettings.OtherFieldsUntouched` | bindings/client-crypto-ffi/src/machine.rs:652-698 | The settings no setter is about stay what they were. |
| `RoomSettings.SettersCommute` | bindings/client-crypto-ffi/src/machine.rs:652-698 | Setters of different settings or rooms commute. |
| `RoomSettings.UnclobberedSurvives` | bindings/client-crypto-ffi/src/machine.rs:652-698 | In every interleaving a written value stays as long as no later save on the room wrote that setting or came from a call that loaded before. |
| `RoomSettings.SettingKeptIff` | bindings/client-crypto-ffi/src/machine.rs:652-698 | In every interleaving a setting holds, at every moment, the value last written to it, exactly when each save of the other setting on the room was loaded when the last written value was the same as at the save. The condition reads only the actions. |
| `RoomSettings.OverlapRestoresLoadedValue` | bindings/client-crypto-ffi/src/machine.rs:652-698 | And an overlapping save of the other setting does undo it: the value returns to what that call had loaded. |
| `RoomSettings.OverlapLosesAlgorithm` | bindings/client-crypto-ffi/src/machine.rs:652-698 | A run of two overlapping calls in which the algorithm that was set, and acknowledged, is the default again. |
| `ClientDelegates.InstalledForGood` | bindings/client-matrix-ffi/src/client.rs:1299-1346 | A delegate, once installed, is never replaced, in any interleaving. |
| `ClientDelegates.FirstInstallDecides` | bindings/client-matrix-ffi/src/client.rs:1299-1346 | The first call to install decides which delegate it is. |
| `ClientDelegates.OwnDelegateInstalledIffFirst` | bindings/client-matrix-ffi/src/client.rs:1350-1385 | Of the calls that return `Ok` with a delegate, exactly the first to install has its own in place. |
| `ClientDelegates.TwoInstallersOverlap` | bindings/client-matrix-ffi/src/client.rs:1299-1385 | Two calls that both return `Ok` with a delegate overlapped: each checked before the other installed. |
| `ClientDelegates.LaterCallsFail` | bindings/client-matrix-ffi/src/client.rs:1299-1306 | Once one is installed every call that starts fails. |
| `VerificationController.KeepsOwnControllerIff` | bindings/client-matrix-ffi/src/client.rs:1656-1682 | The controller a call created is still the shared one exactly when no other call wrote since. |
| `VerificationController.ControllerReplaced` | bindings/client-matrix-ffi/src/client.rs:1656-1682 | Two overlapping calls, each returning its own controller, after which the slot holds only the second. |
| `VerificationController.SecondWriterOverlapped` | bindings/client-matrix-ffi/src/client.rs:1656-1682 | Only a call that read the empty slot before the first write can replace a controller. |
| `VerificationController.SlotIsStable` | bindings/client-matrix-ffi/src/client.rs:1656-1682 | The slot never empties, and keeps its controller while nobody writes. |
| `VerificationController.LateCallsAgree` | bindings/client-matrix-ffi/src/client.rs:1656-1682 | Calls that start after the last write all return the same controller. |
| `Modulemap.ConsolidateModulemapFiles` | xtask/src/swift.rs:757-809 | The text written for any directory listing is the joined `Consolidated` of its modulemap files; no such file is the error. |
| `Modulemap.CollectHeaders` | xtask/src/swift.rs:770-778 | After any number of files the extra headers are the distinct ones, each at its first occurrence. |
| `Modulemap.DistinctIsFirstOccurrences` | xtask/src/swift.rs:771-777 | That list has the same elements, none twice, in order of first appearance. |
| `Modulemap.WithoutBlockIsBase` | xtask/src/swift.rs:786-806 | Taking the inserted block out again leaves the first file, line by line, with its module lines renamed. |
| `Modulemap.SurvivingHeaders` | xtask/src/swift.rs:757-809 | The headers of the result are all headers of all files if the first file has one, and none otherwise. |
| `Modulemap.OrderIrrelevantIff` | xtask/src/swift.rs:757-809 | The order in which the directory lists its files is irrelevant to the resulting headers exactly when all of them have a header line or none has. |
| `Modulemap.HeaderLostToOrder` | xtask/src/swift.rs:757-809 | Two files whose header survives in one order and is lost in the other. |
| `Modulemap.SecondRun` | xtask/src/swift.rs:757-809 | A second run over the result strips one carriage return from each line and changes nothing else. |
| `Modulemap.IdempotentIff` | xtask/src/swift.rs:757-809 | So consolidating again changes nothing exactly when, in the first file, only module lines end in a carriage return, and, if it has a header line, no header line of the other files does. |
| `Modulemap.CarriageReturnsAreNotIdempotent` | xtask/src/swift.rs:757-809 | An input on which it does. |
| `SwiftTargets.RunBuilds` | xtask/src/swift.rs:607-647 | Sequentially or in two batches, the commands up to the first failing one are run; on success every target was built exactly once, with its tier's toolchain. |
| `SwiftTargets.GroupByPlatform` | xtask/src/swift.rs:651-656 | There is a group for exactly the platforms with a target, holding its paths in target order. |
| `SwiftTargets.LipoPlatformLibraries` | xtask/src/swift.rs:684-707 | One library per platform, each platform once: the only path as it is, several merged; fails exactly when a needed merge fails. |
| `Logger.VisitedFields` | bindings/client-crypto-ffi/src/logger.rs:150-162 | Of several values recorded under one name the last stays; `message` is never a field. |
| `Logger.MessageIsJoined` | bindings/client-crypto-ffi/src/logger.rs:152-157 | The message is its parts joined by spaces, except that empty parts at the front leave no space. |
| `Logger.SpanHoldsLatest` | bindings/client-crypto-ffi/src/logger.rs:103-135 | A span holds under each name the value recorded last since it was created. |
| `Logger.SpansHoldNoMessage` | bindings/client-crypto-ffi/src/logger.rs:103-135 | No span ever holds a `message` field. |
| `Logger.MergedValue` | bindings/client-crypto-ffi/src/logger.rs:83-91 | The value logged under a name is the event's own, else that of the outermost span with one, else none. |
| `Logger.LoggerLayer.OnEvent` | bindings/client-crypto-ffi/src/logger.rs:76-101 | One line per event, with the message and the merged fields. |
| `Logger.LoggerLayer.OnRecord` | bindings/client-crypto-ffi/src/logger.rs:117-135 | Recording on a span continues its history, and its fields are those of the history. |
| `Logger.LoggerLayer.OnNewSpan` | bindings/client-crypto-ffi/src/logger.rs:103-115 | A new span starts with the fields of its attributes. |
| `Logger.LoggedFields` | bindings/client-crypto-ffi/src/logger.rs:76-135 | End to end over any span history: which value a logged field has, and that `message` is not among them. |
| `NotificationHandlers.NotificationSettings.SetDelegate` | bindings/client-matrix-ffi/src/notification_settings.rs:468-487 | Setting tracks a handler not registered before and leaves behind all that was registered; unsetting removes the tracked one and nothing else. In both cases as many are left behind as the history set over another. |
| `NotificationHandlers.NotificationSettings.Drop` | bindings/client-matrix-ffi/src/notification_settings.rs:457-464 | Dropping a clone removes the tracked handler, which the slot still names, and nothing else: what stays registered is what was left behind before. |
| `NotificationHandlers.HandlerAccounting` | bindings/client-matrix-ffi/src/notification_settings.rs:457-487 | After any history the handlers left behind are as many as the times a delegate was set directly over another. |
| `NotificationHandlers.SecondDelegateLeavesFirst` | bindings/client-matrix-ffi/src/notification_settings.rs:468-487 | Setting twice and unsetting leaves the first handler registered with nothing tracking it. |
| `NotificationHandlers.InterleavedAccounting` | bindings/client-matrix-ffi/src/notification_settings.rs:457-487 | In every interleaving of adding and tracking by concurrent calls, the same count holds, read off the order in which the slot was written. |
| `NotificationHandlers.TrackedIsLastWriter` | bindings/client-matrix-ffi/src/notification_settings.rs:468-487 | In every interleaving the tracked handler is the one added by the call that wrote the slot last, and it is the newest of that moment exactly when no other call added its own between that addition and that write. |
| `NotificationHandlers.TrackedIff` | bindings/client-matrix-ffi/src/notification_settings.rs:468-487 | The slot names a handler exactly when the last write to it was of one. |
| `NotificationHandlers.OlderHandlerTracked` | bindings/client-matrix-ffi/src/notification_settings.rs:468-487 | A run of two overlapping calls after which the older handler is tracked and the newer left behind. |
| `PushConditions.SdkRoundTrip` | bindings/client-matrix-ffi/src/notification_settings.rs:182-236 | SDK to FFI and back is the identity, between two separate types, and fails exactly on a list with an unsupported condition. |
| `PushConditions.FfiRoundTrip` | bindings/client-matrix-ffi/src/notification_settings.rs:102-122 | FFI to SDK and back never fails, replaces just the numbers the SDK types cannot hold, is the identity exactly on lists without any, and is idempotent. |
| `PushConditions.ToFfiKeepsMeaning` | bindings/client-matrix-ffi/src/notification_settings.rs:182-207 | A converted condition applies in exactly the situations the SDK one applies in. |
| `PushConditions.ToSdkKeepsMeaningIff` | bindings/client-matrix-ffi/src/notification_settings.rs:209-236 | And the other way: a condition of the FFI applies in the same situations once converted if and only if the SDK types can hold its number. |
| `CreateRoom.InitialState` | bindings/client-matrix-ffi/src/client.rs:3230-3259 | The implied events in order and then the caller's, or an error exactly if a join rule, a history visibility or a content does not convert. |
| `CreateRoom.CallerWins` | bindings/client-matrix-ffi/src/client.rs:3255-3259 | In the resulting room state a caller's event wins over the implied one of the same type and key, its last over its earlier ones, and where it has none the implied event stands. |

## Left out

- Pointers of the linked chunk: chunks are a sequence in a field that the methods reassign; the raw `previous`, `next`, `first` and `last` pointers, and freeing unlinked chunks, are not modelled.
- Lazy loading is modelled as far as rebuilding the chunks; operations on a partly loaded linked chunk, the updates emitted while loading, `replace_with` and a linked chunk without update history are not.
- RelationalLinkedChunks.RelationalLinkedChunk.Persist: requires of each update that items with the same identifier are the same afterwards and that a replaced row is found (`SuitsAt`); `PushStoredIff` and `ReplaceStoredIff` say that it goes wrong without, and `SoleLogSuits` when the second part holds by itself.
- RelationalStore: the position kept beside an item's contents, out-of-band items, `clear_room` and the metadata variants of the loading functions are left out; removed items' contents stay, as in the code.
- RelationalLoading.SortByIndex: an insertion sort stands for `sort_unstable_by_key`; with distinct indices every sort gives the same.
- LinkedChunks.LinkedChunk.constructor: requires a capacity above 0; with capacity 0 the code recurses without end at the first push.
- UpdateMapping.UpdateToVectorDiff.MapUpdates: requires updates on which the code does not panic; `Tracks` shows that the updates of a linked chunk always are.
- ChunkSync.FollowsTwice: requires the updates read first to end with nothing detached; `CutIsSafeIff` says that this is needed. That the code allows such a cut only to a reader on another thread is not modelled.
- LinkedChunks.OrderTracker.Ordering: requires the tracker to be flushed, as the code asserts.
- LinkedChunks.OrderTracker.FlushUpdates: models `flush_updates(false)`; ignoring updates is part of lazy loading.
- Running out of 2^64 chunk identifiers, which panics, is not modelled.
- UpdateReaders.UpdatesInner.TakeWithToken: requires a registered token; the code panics otherwise. Poisoned locks are not modelled here or elsewhere.
- The element conversions of the list observers are a function parameter; what `From` does to a room description or a location share is not modelled.
- The foreign listener is its sequence of calls; a listener that drops its handle just sees fewer of them.
- ChunkIterator.ChunkIterator.Len: `None` stands for the panic above `u32::MAX` items.
- BuilderValues: the setters behind feature flags and what the built SDK client does with the values are not modelled; values the setters only store are opaque.
- Migration: pickles, parsing and the store are functions and outcomes given as parameters; no cryptography, SQLite or zeroizing, no `migrate_room_settings`, no synchronous wrappers.
- VerificationRequests: one listener per request; messages on the wire, key exchange and time-outs are left out; a start is a read and a later write of the request.
- RoomSettings: the store is a map whose reads and writes can fail.
- Modulemap: file names, deleting the input files and reading and writing them are left out; a directory is the sequence in which it is listed.
- SwiftTargets: shell commands and `lipo` are outcomes given as parameters.
- CreateRoom: the request's other fields, and the server's own rules for a new room, are left out.
- HTTP, sync, push gateways, UI services, search and the bindings' plain conversions.
