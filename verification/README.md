# A verified model of the durable point-cloud store

The server turns streams of lidar batches into chunks of fused voxels. A batch is appended to a
per-session log, then fused into resident accumulators; chunks reach disk piecemeal, through
threshold flushes, evictions and bounded checkpoint sweeps, and no transaction covers them. Pose
corrections may arrive later and move batches that were already fused. Viewers receive chunks at a
level of detail as keyframes and append-only deltas. This project models that machinery in Dafny and
proves what makes it trustworthy.

How the files fit together:

- `Voxels`, `LogHistory`, `Sums`: voxel accumulators in insertion order, the sidecar, grids; the meaning
  of a log, the fold of its batches over one chunk; and what that fold adds up to.
- `StoreMachine`, `ChunkLife`, `StoreSafety`, `Recovery`, `Counters`: the store as a state machine of
  disk and memory with a crash step, its invariant, and exact recovery, checkpoint safety and
  observation counters over every run.
- `Residency`, `WriteBack`, `Fusing`, `ChunkStore`: the `ChunkStore` class with its own fields and
  loops. Each method hands back the run of machine steps it amounts to, so every result about runs, and
  about dying inside them, applies to the methods.
- `RebuildSpec`, `Rebuild`, `PartialSpec`, `PartialRebuild`, `ViewAdjust`: re-fusing a session under
  corrected poses, wholesale or only where a correction moved something; `Orphans`, `Misjudged`: inputs
  on which the store falls short.
- `Lod`, `Filters`, `DeltaProtocol`, `LodServer`, `LodViewer`, `LodMirror`, `LodSelect`, `Overlay`:
  derivations at a level and the filter on them, the delta protocol, server and viewer as two classes
  joined by a FIFO of messages, level selection, and the live overlay's culling and thinning.
- `BatchLog`, `LogTail`, `LogFormat`: the log as bytes, the alignment sidecar's resumable parser of it,
  and the format its readers share, byte by byte.
- `SessionStore`, `Journal`, `Publisher`, `Inlet`: session records; one session's log and chunks behind
  the store, and what dying inside it leaves; a publisher's connection, from its messages through the
  session and the journal to disk and back; and the pub/sub inlet that turns at-least-once delivery
  into an exactly-once log and exactly-once chunks.
- `Poses`, `RigidMotion`, `PoseCorrections`: poses, quaternion algebra, and corrections.

Coordinates and sums are reals, so rounding is outside the model. Everything fusion depends on besides
the batches (transform, chunk grid, voxel grid, field of view, corrections) is a `Setting` of arbitrary
functions; the only thing asked of it is that a mean stays in its voxel, which
`PoseCorrections.StandardIsStable` establishes for the geometry the server uses.

What the proofs found:

- A crash inside the first persist of a chunk, after its sidecar and before its row, can lose the
  chunk's observation counters for good: replay skips the batches because the sidecar holds them, and
  the chunk stays clean. Only a later write of the chunk inserts the row again: one because a later
  record made it dirty, or, when the crash also came before the point file, one because the chunk is
  evicted (`evictChunk`, src/chunk-store.ts:1721-1730, persists a clean chunk whose point file is
  missing). A recovery without such an eviction loses the counters if and only if no logged record past
  the one the persist writes touches the chunk (`Counters.PersistCrashLosesIffVulnerable`);
  `Orphans.CrashLosesScan` is an input. Voxels are not affected.
- A partial rebuild whose populated chunks exceed the resident budget forgets the cells of rebuilt
  chunks that were evicted on the way, although their files are right; `PartialRebuild.RebuildBatches`
  states the exact condition and `Misjudged.RebuildForgets` an input.
- A full rebuild deletes files by row, so the sidecar such a crash leaves without a row survives it,
  and replay then skips the records it holds. The rebuilt session is right if and only if every such
  sidecar already held what the corrected log says (`Rebuild.RebuildRestoresIffLeftoversMatch`);
  `Orphans.RebuildKeepsMovedBatch` is an input where a batch corrected away stays where it was. Runs
  without such a crash leave no such sidecar (`Orphans.RunLeavesNoOrphans`), and the partial rebuild
  does not depend on it.
- The adjustment of untouched chunks' opportunities charges moved batches from before a chunk existed
  and stops at zero; `ViewAdjust.AdjustedIsRecountIff` says for any set of moves when the errors cancel, and
  `Misjudged.CountTakenBack` is an input on which they do not.
- Appending accepts records that replay does not (a header over 64 KiB);
  `BatchLog.WalkRecoversIffInBounds` is the exact condition under which replay recovers everything,
  and `BatchLog.LongHeaderIsLost` an input it shuts out.
  The results about the store and about a publisher's connection take every appended batch to be
  within those bounds; `Inlets.Proper` asks it of a topic.
- Under a hits-only filter the count test decides the set of cells, not their order
  (`DeltaProtocol.DivergenceIsExact`, `DeltaProtocol.OrderMayDiffer`); at the finest level it decides
  both (`DeltaProtocol.FinestDeltaKeepsOrder`).
- The sidecar's parser has no such bounds and checks the frame in another order, but reads whatever
  replay visits (`LogTail.ReadsWhatReplayVisits`).

Check the project with `dafny verify dfyconfig.toml`.

## Model

| member | source | states |
|---|---|---|
| Voxels.AddPointsAppendOnly | src/chunk-store.ts:468-481 | Fusing only appends: the old voxels stay, in their order, keep their baseline, and never lose a hit. |
| Voxels.AddPointsCancel | src/chunk-store.ts:468-481 | Two chunks that hold the same voxels after fusing the same points held the same before: what a chunk missed or held wrongly never heals by itself. |
| Voxels.ReloadIdentity | src/chunk-store.ts:1627-1646 | Writing a chunk's accumulators and re-keying them by their mean on load gives back the same keys, order and sums. |
| Voxels.MeanStaysInCell | src/chunk-store.ts:1737-1741 | The mean of points of one half-open cell lies in that cell, at any edge length. |
| Voxels.GridIsStable | src/chunk-store.ts:1644-1644 | So the voxel grid satisfies what ReloadIdentity and every store result ask of it. |
| LogHistory.HistoryGrows | src/chunk-store.ts:457-461 | Opportunities and existence never go back along a log. |
| LogHistory.KnownIffTouched | src/chunk-store.ts:681-689 | A chunk is registered exactly when some batch put a point in it. |
| LogHistory.QuietKeepsVoxels | src/chunk-store.ts:464-466 | Batches that put nothing in a chunk leave its voxels alone, so skipping them by sequence loses nothing. |
| Sums.AddPointsSums | src/chunk-store.ts:468-481 | Each component of a voxel (position, colours, intensity, hits) grows by the plain sum of that component over the points of its cell; a new voxel starts at nothing with the current count as baseline. |
| Sums.HistorySums | src/chunk-store.ts:429-481 | Over a whole log, a voxel exists exactly when some point fell in it, and each component is the sum over the points of all batches, placed by their effective poses, with their own colours. |
| Sums.HistoryCounts | src/chunk-store.ts:451-461 | A chunk exists once a batch put a point in it, and its opportunities number the batches that did or that could see it after one had. |
| Sums.HistoryBirths | src/chunk-store.ts:468-476 | A voxel's baseline is the chunk's count at the batch that first put a point in it. |
| StoreMachine.LandPerChunk | src/chunk-store.ts:429-485 | Fusing the interleaved points of a batch does to each chunk what adding its own points in order would. |
| StoreMachine.FusePerChunk | src/chunk-store.ts:406-508 | The whole effect of fusing a batch on one chunk: counted once, points added once, stamped, or left alone when it already held the batch. |
| ChunkLife.StepIsLocal | src/chunk-store.ts:226-250 | Every step of the store, crashes included, acts on each chunk by itself. |
| StoreSafety.WrittenOk | src/chunk-store.ts:1652-1709 | What a persist writes is the log's history up to the chunk's applied sequence and covers every offset already fused. |
| StoreSafety.StepKeepsChunk | src/chunk-store.ts:941-981 | Appends, fuses, persists, releases, sweep steps, torn appends and crashes each keep a chunk's files, cache and checkpoint consistent with the log. |
| StoreSafety.StepKeepsInv | src/chunk-store.ts:949-981 | The same for the whole store. |
| StoreSafety.RunKeepsInv | src/chunk-store.ts:1392-1457 | And over every run, of any length, from any consistent state. |
| Recovery.LogIsWhatWasAppended | src/batch-log.ts:72-83 | No flush, eviction, sweep, replay or crash adds, drops or reorders a logged batch. |
| Recovery.CaughtUpIsExact | src/chunk-store.ts:359-397 | After any run, a session replayed to its log's end holds every appended batch exactly once in every chunk: same voxels, order and sums. |
| Recovery.CheckpointIsSafe | src/chunk-store.ts:941-981 | Every record before the checkpoint that touches a chunk is already in that chunk's sidecar, and the sidecar is a faithful prefix of the history. |
| Recovery.CrashRecoveryIsExact | src/chunk-store.ts:1392-1457 | Die anywhere (between steps, mid-append, inside a persist), restart and replay from the checkpoint: the cache holds every appended batch exactly once. |
| Recovery.CrashInsideRunIsExact | src/chunk-store.ts:362-364 | The same for a process that dies after any number of the steps one of the store's methods takes. |
| Recovery.ExecPrefix | src/chunk-store.ts:345-398 | Every prefix of a run is a run, so a death part of the way through is always a state covered above. |
| Fusings.RestoredSums | src/chunk-store.ts:1392-1457 | So a recovered session holds, in every voxel of every chunk, the plain sums of its log's points. |
| Counters.StepKeepsCounters | src/chunk-store.ts:691-711 | Rows, cells and sidecars keep describing the same moment through every step, unless a crash falls inside the first persist of a chunk that no later record touches. |
| Counters.CountersStayExact | src/chunk-store.ts:457-461 | From any state whose counters are in order, one left by a rebuild included, every run without such a crash ends, when replayed to the log's end, with each cell's opportunities and each voxel's baseline as if counted once without interruption. |
| Counters.CountersAreExact | src/chunk-store.ts:457-461 | In particular from an empty disk: replay restores each cell's opportunities and each voxel's baseline to the uninterrupted values, and registers exactly the right cells. |
| Counters.FirstPersistCrashLosesCell | src/chunk-store.ts:1661-1665 | From every consistent state, caught up or replaying, in which the persist of a chunk without a row is interrupted and no later record touches the chunk, an ordinary recovery can follow after which the cell and all its counted opportunities are gone. |
| Counters.PersistCrashLosesIffVulnerable | src/chunk-store.ts:1661-1665 | From every state whose counters are in order, a crash inside a persist can cost a chunk its counters if and only if the chunk has no row and no logged record past what the persist writes touches it; otherwise no continuation loses anything. |
| WriteBack.KeepsContent | src/chunk-store.ts:1721-1730 | Persisting, releasing, flushing counters and sweeping leave what the store holds for a chunk as it was, wherever it is kept. |
| WriteBack.RunKeepsSaved | src/chunk-store.ts:691-711 | In every run, crashes included, a cell whose counters are not marked for saving has exactly them in its row. |
| ChunkStores.ChunkStore.constructor | src/chunk-store.ts:1392-1457 | Opening the store on what a dead process left replays every log, drops torn tails, checkpoints, and ends with every chunk exact and nothing left to replay. |
| ChunkStores.ChunkStore.DyingIsRecoverable | src/chunk-store.ts:1389-1391 | Whenever a store in order dies, what it leaves is something it can be opened on again. |
| ChunkStores.ChunkStore.PersistChunk | src/chunk-store.ts:1652-1709 | Writes sidecar, points and row in that order, and is one step of the state machine. |
| ChunkStores.ChunkStore.ReleaseChunk | src/chunk-store.ts:1729-1729 | Drops a clean chunk from memory and from the eviction order. |
| ChunkStores.ChunkStore.EvictChunk | src/chunk-store.ts:1721-1730 | Writes an unsaved or never-written chunk before dropping it, so no point leaves memory unsaved. |
| ChunkStores.ChunkStore.EnforceActiveLimit | src/chunk-store.ts:1711-1719 | Leaves exactly the most recently used chunks that fit the budget. |
| ChunkStores.ChunkStore.PrepareActiveCapacity | src/chunk-store.ts:1493-1512 | Makes exactly the room a batch needs, evicting nothing when it fits and never one of the batch's own chunks, and terminates. |
| ChunkStores.ChunkStore.FindVictim | src/chunk-store.ts:1501-1509 | The oldest chunk outside the batch; the search never comes up empty, so the error behind it is never raised. |
| ChunkStores.ChunkStore.FlushCellStats | src/chunk-store.ts:694-711 | Saves the counters of every cell whose chunk on disk is current, and of no dirty resident one. |
| ChunkStores.ChunkStore.CheckpointSession | src/chunk-store.ts:949-981 | Snapshot, bounded sweep, and checkpoint move, as a run of the state machine with at most the allowed writes; it reports true exactly when nothing is left to sweep and the checkpoint is at the log's end, and an unbounded call gets there. |
| ChunkStores.ChunkStore.SweepPending | src/chunk-store.ts:960-972 | Works off the snapshot within its budget of writes, stopping only when done or out of budget, and changes neither the offset nor other sessions. |
| ChunkStores.ChunkStore.SweepOne | src/chunk-store.ts:961-968 | Takes one chunk off the snapshot, writing it only if it is still dirty. |
| ChunkStores.ChunkStore.ApplyFieldOfView | src/chunk-store.ts:571-583 | Counts a batch once for every registered cell its pose can see, and for no other. |
| ChunkStores.ChunkStore.ActivateChunk | src/chunk-store.ts:1525-1554 | Registers a cell once and seeds a resident chunk from its sidecar. |
| ChunkStores.ChunkStore.LandPoints | src/chunk-store.ts:429-485 | The point loop, with its same-chunk shortcut, computes the per-point specification and reports exactly the chunks spanned and those that accepted the batch. |
| ChunkStores.ChunkStore.StampTouched | src/chunk-store.ts:489-497 | Stamps and refreshes the accepting chunks in order and persists those past the threshold; stamping late is the same as stamping all at once. |
| ChunkStores.ChunkStore.FuseBatch | src/chunk-store.ts:406-508 | Reports exactly the spanned chunks that did not hold the batch yet; every voxel of one that stays resident has grown component by component by the batch's points in it, its unsaved points by as many unless the threshold had it written, and other residents are as they were; then at most the budget remains, most recently touched last. |
| ChunkStores.ChunkStore.RecordFusedBatch | src/chunk-store.ts:513-549 | Writes the row of the record: its sequences, offset, logged and fused poses and chunks, and leaves all others. |
| ChunkStores.ChunkStore.FuseNext | src/chunk-store.ts:1415-1419 | Replays one record: one fusing step plus write-backs, indexed. |
| ChunkStores.ChunkStore.ChunkKeysForPayload | src/chunk-store.ts:1460-1491 | The chunks a payload spans, or refusal exactly when they are too many. |
| ChunkStores.ChunkStore.StoreAcceptedBatchDurably | src/chunk-store.ts:359-397 | Refuses a batch exactly when its logged pose spreads it past either limit and then changes nothing; otherwise logs it, fuses it, indexes it, stays within the budget, reports every chunk it spans and no other, and leaves each voxel of the session, wherever kept, with the batch's share more and every chunk not reported as it was. |
| ChunkStores.ChunkStore.ReplayLog | src/chunk-store.ts:1415-1432 | Replays to the end of the log and drops the torn tail. |
| RebuildSpec.ResetKeepsRatios | src/chunk-store.ts:843-852 | Restarting a known cell's count from zero changes neither voxels nor any voxel's opportunities since birth. |
| RebuildSpec.SamePointsSameVoxels | src/chunk-store.ts:762-765 | A chunk no batch brings different points to keeps its voxels under a correction. |
| Rebuild.RebuildSession | src/chunk-store.ts:894-925 | From any store whose log is in order and whose chunks are coherent, however earlier rebuilds left it, every chunk ends with what replay adds to whatever sidecar the deletion left it; the session holds the corrected log once, and is in order, if and only if each such leftover already matched the corrected log; with none left, voxels, baselines, counters and cells are exactly those of fusing the corrected log once, and the store's counters stay in order for every later run. |
| Rebuild.DropSession | src/chunk-store.ts:895-913 | Forgets everything resident and every file and row of a chunk that has a row, rewinds the log, and leaves other sessions and sidecars without a row alone. |
| Rebuild.RunKeepsOrderly | src/chunk-store.ts:894-925 | What a full rebuild asks of the store survives every step and crash, so a session can be rebuilt at any time and any number of times. |
| Rebuild.RebuildRestoresIffLeftoversMatch | src/chunk-store.ts:901-905 | The exact condition for a full rebuild to be right: sidecars the deletion by row misses make replay skip the records they hold, so each must already hold what the corrected log says. |
| Rebuild.ResumedIsFoldIffMatches | src/chunk-store.ts:464-466 | Adding only the records past a seed's sequence ends where fusing the whole log does exactly when the seed matches the log up to that sequence. |
| Orphans.RunLeavesNoOrphans | src/chunk-store.ts:1652-1709 | Any run in which no crash interrupts the persist that creates a row leaves every sidecar with a row, so its rebuilds are exact. |
| Orphans.SavedSessionHasNoOrphans | src/chunk-store.ts:949-981 | After a run that loses no counters, a session replayed to its log's end with nothing unsaved has no sidecar without a row either. |
| Orphans.OrphanKeepsOldVoxels | src/chunk-store.ts:894-925 | A complete sidecar without a row comes through a rebuild unchanged: the chunk keeps the voxels of the uncorrected log. |
| Orphans.RebuildKeepsMovedBatch | src/chunk-store.ts:894-925 | An input where that happens: one scan logged, fused, interrupted before its row, replayed, then corrected a hundred metres away; the rebuild leaves its old voxel in the old chunk. |
| Orphans.CrashLosesScan | src/chunk-store.ts:1661-1665 | An input where the counters are lost: one scan logged, fused and interrupted between its sidecar and its row; after recovery the cell is gone although the log still counts it. |
| PartialSpec.UnaffectedSamePoints | src/chunk-store.ts:773-796 | A chunk outside the affected set gets the same points from every batch as before. |
| PartialSpec.TouchingIsReplayed | src/chunk-store.ts:804-819 | Every batch that now touches an affected chunk is among those replayed. |
| PartialSpec.MidwayStep | src/chunk-store.ts:864-878 | Walking one more index row keeps each rebuilt chunk equal to the corrected fold of the rows walked. |
| PartialSpec.CrowdFuse | src/chunk-store.ts:499-501 | Evictions during a rebuild take every other chunk first, so rebuilt chunks stay resident while they fit. |
| PartialRebuild.AffectedChunks | src/chunk-store.ts:773-796 | Exactly the chunks changed batches used to span plus those they now span. |
| PartialRebuild.AdjustViews | src/chunk-store.ts:827-845 | The adjusted counters of every cell left alone, moved batch by moved batch. |
| PartialRebuild.DropAffected | src/chunk-store.ts:847-861 | Affected chunks lose files, rows and residency, their cells are emptied, and the log is rewound; other chunks are untouched. |
| PartialRebuild.RebuildBatches | src/chunk-store.ts:766-889 | Every chunk ends with the corrected log's voxels, order and sums and rebuilt voxels with their opportunities since birth; others keep their content, with adjusted counters marked for saving until their rows have them; the registered cells are right if and only if the populated rebuilt chunks fit the resident budget. |
| PartialRebuild.PartialEqualsFull | src/chunk-store.ts:760-765 | A partial rebuild and a full one agree chunk by chunk on voxels, sums, order, opportunities since birth, and registered cells. |
| Misjudged.PopulatedPastBudget | src/chunk-store.ts:864-889 | An input: two one-point batches on the standard grid, the first corrected into the next chunk; each batch spans one chunk, yet two rebuilt chunks are populated. |
| Misjudged.RebuildForgets | src/chunk-store.ts:766-889 | With a resident budget of one, the partial rebuild of that session ends without the right cells registered. |
| PartialRebuild.RebuildChanged | src/chunk-store.ts:740-760 | Compares each row's fused pose with its new effective one: nothing is done exactly when none differs; everything for an empty index, whatever the log holds, or more than half differing; otherwise the chunks those batches spanned and now span. The session ends with the corrected content if and only if the choice was not the full one or every sidecar its deletion misses matches the correction. |
| PartialRebuild.CorrectAgain | src/chunk-store.ts:745-754 | A correction applied a second time finds nothing to do and changes nothing. |
| PartialRebuild.NothingMoved | src/chunk-store.ts:752-754 | When no batch moved, leaving the store untouched is already right. |
| ViewAdjust.AdjustedIsRecountIff | src/chunk-store.ts:820-845 | For any set of moved batches and any chunk left alone, the adjusted count is the recount if and only if the credits and debits for moved batches from before the chunk existed, plus the debits that found zero, add up to nothing. |
| ViewAdjust.AdjustedPartWay | src/chunk-store.ts:827-845 | After any number of index rows the adjusted count is the old count recounted so far, off by exactly that sum. |
| ViewAdjust.AdjustedIsRecount | src/chunk-store.ts:820-845 | So it is the recount when every moved batch saw the chunk alike before and after or came after the chunk existed. |
| ViewAdjust.OneMoveIsRecountIffAccountable | src/chunk-store.ts:820-845 | For a single moved batch nothing can cancel, so the adjusted count is the recount exactly when that batch did so. |
| Misjudged.CountTakenBack | src/chunk-store.ts:827-845 | An input of two batches: the first, from before the chunk existed, is moved out of view of it; the chunk's one opportunity is taken back and the adjusted count is zero where a recount gives one. |
| Lod.DeriveChunk | src/chunk-store.ts:1207-1267 | The loops compute the full derivation or the part since a version; at the finest level that is the points of exactly the voxels with the hits, and the hits for their opportunities since birth, that the filter asks, in order, and the total counts all of those. |
| Lod.DeriveFinest | src/chunk-store.ts:1221-1238 | At the finest level, the passing voxels from the version on and the count of all passing ones. |
| Lod.DeriveCoarse | src/chunk-store.ts:1240-1266 | At a coarser level, the averages of the cells first seen since the version and the count of all cells. |
| Filters.CoarseServes | src/chunk-store.ts:1240-1266 | At a coarser level the cells are exactly those holding such a voxel, each once, and each point averages, component by component, the points of those voxels in its cell, each counted once. |
| Filters.StaysUntilOutgrown | src/chunk-store.ts:1304-1311 | With hits enough, a voxel passes a ratio bound exactly until its opportunities since birth exceed its hits divided by the ratio. |
| Filters.StandingStillDrops | src/chunk-store.ts:1304-1311 | So one whose hits stand still drops out. |
| Filters.HitEveryTimePasses | src/chunk-store.ts:1304-1311 | One hit at every opportunity passes any ratio up to one. |
| Filters.RepAverages | src/chunk-store.ts:1798-1813 | The point sent for a voxel is its mean position with each colour and the intensity rounded to the nearest value of their own sums, within their fields. |
| Filters.LevelsDouble | src/chunk-store.ts:1184-1188 | The finest level has the fusing edge and each coarser one twice the next. |
| DeltaProtocol.GridNests | src/chunk-store.ts:1181-1188 | A fine voxel's coarse cell is fixed by its fine cell at every level, since edges are power-of-two multiples. |
| DeltaProtocol.DerivedCells | src/chunk-store.ts:1199-1206 | A derivation since a version holds exactly the level's cells that were not there at that version, in order, and its total counts the full level. |
| DeltaProtocol.DeltaCompletesKeyframe | src/chunk-store.ts:1199-1206 | Without a filter, what was held plus the delta is, cell for cell and in order, the full derivation now, so the divergence test never fires. |
| DeltaProtocol.DivergenceIsExact | src/server.ts:955-962 | For a filter on hits alone the count test fires exactly when held plus delta differs as a set of cells from the full filtered derivation, at every level. |
| DeltaProtocol.HeldOrderIsFullOrderIff | src/chunk-store.ts:1240-1266 | When the counts agree, held plus delta is in the order of the full derivation exactly when the held cells were already in the order the full derivation now gives them. |
| DeltaProtocol.FinestDeltaKeepsOrder | src/chunk-store.ts:1221-1238 | At the finest level they always are: a delta that passes the count test completes the filtered derivation in order. |
| DeltaProtocol.OrderMayDiffer | src/chunk-store.ts:1240-1266 | On a coarser level they need not be: a chunk of three voxels that gains one hit, served under a two-hit filter, passes the count test with the right cells in another order. |
| DeltaProtocol.PassingStays | src/chunk-store.ts:1304-1311 | With no ratio bound a voxel that passes keeps passing while the chunk grows. |
| LodServers.RefreshedTracks | src/server.ts:935-981 | Whatever a refresh sends, applying it turns what the viewer had into what the new record says it has. |
| LodServers.DeltaShowsCells | src/server.ts:955-981 | Under a hits-only filter, appending a delta that passes the count test leaves one point in each cell of the filtered derivation now. |
| LodServers.LodServer.SendKeyframe | src/server.ts:998-1019 | Sends a chunk in full and records it, or drops it when nothing passes. |
| LodServers.LodServer.RefreshChunk | src/server.ts:935-981 | Drop, keyframe, version bump or delta, by the code's own tests, keeping record and viewer in step: what the viewer holds always begins with a keyframe of a stage whose voxels have not doubled since, no message is empty, and each carries the record's level and version. |
| LodServers.LodServer.OnViewerView | src/server.ts:864-882 | After a camera move each chunk held is at the level the view calls for, one already there is left alone, culled chunks are gone, nothing is said about a chunk whose record stands, and viewer and record stay in step. |
| LodServers.LodServer.RefreshLiveBases | src/server.ts:905-930 | Brings exactly the dirty registered chunks up to date and clears the dirty set. |
| LodServers.LodServer.NotifySessionRebuilt | src/server.ts:333-345 | After a rebuild, record and viewer are both empty and every chunk is dirty. |
| LodViewers.BaseChunk.constructor | public/viewer.js:375-395 | A chunk's buffer holds its points with half as much room again, and at least 64. |
| LodViewers.BaseChunk.Append | public/viewer.js:397-425 | Appended points follow the old ones; the buffer is replaced only when full, by one at least twice as large. |
| LodViewers.Viewer.IngestBaseChunk | public/viewer.js:375-395 | Replaces one chunk and keeps the point count the sum over chunks. |
| LodViewers.Viewer.AppendBaseChunk | public/viewer.js:397-425 | Extends one chunk, or takes the delta as a keyframe, leaving other buffers alone. |
| LodViewers.Viewer.DisposeBaseChunk | public/viewer.js:427-434 | Removes one chunk and its share of the point count. |
| LodViewers.Viewer.ResetCloud | public/viewer.js:505-517 | Leaves no chunk and a zero point count. |
| LodMirror.Serve | src/server.ts:838-981 | Over every run of views, refreshes, fused batches, rebuilds and deliveries, once the connection is drained the viewer holds exactly the chunks in the record, with equal counts within capacity and their sum as its point count; under any filter its points of a chunk begin with the chunk in full as of the recorded keyframe version, and the recorded version is less than twice that; without a filter they lie in the cells of the recorded version in order, and under a hits-only filter one in each cell of the filtered derivation at the chunk's last refresh. |
| LodMirror.FusingGrows | src/chunk-store.ts:468-481 | Fusing a batch is a growth in the sense the delta protocol relies on. |
| LodMirror.RefreshCostIsAmortised | src/server.ts:960-981 | However often a growing chunk is refreshed at one level, keyframes carry at most twice its final voxels and deltas at most its final cells. |
| BatchLog.EncodedIsIntact | src/batch-log.ts:46-54 | An encoded record reads back wherever it lies, exactly when its header and payload are within replay's bounds. |
| BatchLog.TornIsNotIntact | src/batch-log.ts:146-164 | A record missing its last bytes never reads as one. |
| BatchLog.WalkVisits | src/batch-log.ts:145-180 | From any record boundary the walk visits the records up to the first out-of-bounds one, never the torn tail. |
| BatchLog.WalkRecoversIffInBounds | src/batch-log.ts:145-180 | Replay recovers everything appended if and only if every record is within the bounds, which appending does not check. |
| BatchLog.LongHeaderIsLost | src/batch-log.ts:145-180 | An input, under a codec that meets every hypothesis: a header past 64 KiB is appended, and replay stops before it and loses the record behind it too. |
| LogFormat.RecordLayout | src/batch-log.ts:46-54 | A record on disk is the letters PCVL, the two lengths and the checksum of all that follows in little-endian words, the header's JSON, and the payload. |
| LogFormat.ReplaysExactly | src/batch-log.ts:145-172 | Replay takes bytes for a record exactly when they have that layout, a header of at most 64 KiB that is not empty, a payload below 2 GiB, and the right checksum. |
| LogFormat.WalksExactly | src/batch-log.ts:145-180 | On any bytes, replay visits such records back to back and stops at the first bytes that do not hold one. |
| LogFormat.ReadsExactly | src/batch-log.ts:96-120 | Reading one record back fails with exactly the first thing that is wrong. |
| BatchLog.VisitedReadsBack | src/batch-log.ts:96-120 | Every visited record reads back the same at its offset, before and after truncation. |
| BatchLog.RepresentsIsWalk | src/batch-log.ts:122-124 | Bytes that hold some records and part of another walk to exactly those records. |
| BatchLog.RepresentsOne | src/batch-log.ts:122-124 | So a file stands for at most one log, torn or not. |
| BatchLog.BytesFollowSteps | src/batch-log.ts:72-83 | Appending a record, or dying part of the way through, changes the file as the store's append and torn-append steps change the log. |
| BatchLog.TruncationCutsTheTail | src/batch-log.ts:178-184 | Replay's truncation changes the file as the store's truncation step changes the log. |
| BatchLog.ReplayLog | src/batch-log.ts:125-189 | Visits exactly the intact records and truncates exactly what follows them. |
| BatchLog.BatchLogWriter.Append | src/batch-log.ts:72-83 | Appends exactly the encoded record however the writes are split, and nothing once closed. |
| BatchLog.RecoverTorn | src/batch-log.ts:122-124 | After a torn append, replay from any boundary visits exactly the remaining records and cuts exactly the tail; a second replay cuts nothing. |
| LogTail.ParseRecords | alignment/pcv_align/log.py:148-178 | The parser's loop computes its specification, exceptions included. |
| LogFormat.SidecarReadsExactly | alignment/pcv_align/log.py:148-178 | The sidecar waits, stops and raises for exactly the bytes the layout says are missing, wrong, or whole but unreadable. |
| LogTail.ParseContinues | alignment/pcv_align/log.py:148-151 | Parsing all of it is parsing the front and then the remainder with the rest behind it. |
| LogTail.SplitInvariant | alignment/pcv_align/cli.py:131-134 | However the bytes are cut into reads, the batches, the bytes left over and whether it raises are as for one parse of the whole. |
| LogTail.LogTailer.Read | alignment/pcv_align/cli.py:131-134 | One read of the tailing loop. |
| LogTail.ReadsWhatReplayVisits | alignment/pcv_align/log.py:148-178 | Unless it raises, the sidecar reads whatever the server's replay visits, first and in the same order. |
| LogTail.WaitsAtTornTail | alignment/pcv_align/log.py:161-162 | At a torn tail the parser waits for the rest. |
| SessionStores.SessionStore.RestoreSessions | src/session-store.ts:67-78 | Restores every row without its poses. |
| SessionStores.SessionStore.ApplyPoseUpdate | src/session-store.ts:150-168 | Accepts exactly the next sequence of an open, owned session and keeps exactly the latest poses within the limit. |
| SessionStores.PoseForFinds | src/session-store.ts:196-201 | Every retained pose is found under its own sequence. |
| Publishers.LoggedBelowCount | src/session-store.ts:361-369 | Messages numbered without gaps log increasing sequences, none above the last accepted number; so an accepted batch is always ahead of the log, as the store asks. |
| Publishers.NothingWhileShut | src/session-store.ts:371-375 | Between an accepted close and the next accepted numbered message there is always a resume. |
| Publishers.RetainedIffSentLately | src/session-store.ts:155-163 | A pose is found under its sequence if and only if it was sent since poses were last dropped, with fewer than the limit after it. |
| Publishers.BatchPoseWasSent | src/session-store.ts:196-201 | Every accepted batch has a pose the publisher sent under that sequence, since the last resume or restart, among the latest retained. |
| Publishers.RecountCatchesUp | src/chunk-store.ts:1410-1448 | Replay brings a row that missed the last logged batch, and only such a row, up to the log. |
| Publishers.Publisher.OnPose | src/server.ts:478-485 | Accepts a pose exactly when it carries the next number of the publisher's open session and the process lives to save it; nothing else changes. |
| Journals.PrefixLeavesBehind | src/chunk-store.ts:359-397 | Dying after any number of the steps the store takes for a batch leaves one of the disks the results below allow. |
| Journals.LeftIsRecoverable | src/chunk-store.ts:1389-1391 | Any such disk can be opened on again, and its logs are the old ones, the session's with or without the batch. |
| Journals.Journal.Append | src/chunk-store.ts:359-397 | Logs and fuses a batch exactly when it does not spread too far, keeping the store in order, exact and openable. |
| Journals.Journal.DieStoring | src/chunk-store.ts:359-397 | Whatever disk a death in the middle leaves, the session's log has gained the batch or nothing. |
| Journals.Journal.Reopen | src/chunk-store.ts:1392-1457 | Opening on what is left loses no record and ends with every chunk exact. |
| Publishers.Publisher.OnBatch | src/server.ts:517-542 | Accepts a batch exactly when it carries the next number, names a retained pose and fits, with that pose, and then counts it and nothing else in the session; dying while the store handles it accepts it exactly when it reached the log, and dying before its row is saved leaves it logged and counted again at restart. |
| Publishers.Publisher.OnClose | src/server.ts:502-513 | At the session's next number, and only there, closes it in memory and on disk, unless the process dies first and nothing is saved. |
| Publishers.Publisher.OnResume | src/server.ts:458-477 | Reopens the session and drops its poses exactly when its publisher asks and is not ahead; a refused resume changes nothing. |
| Publishers.Publisher.Restart | src/chunk-store.ts:1392-1457 | From whatever a dead process left, brings the row up to the log, opens the store and restores the session without poses. |
| Publishers.ServePublisher | src/server.ts:517-542 | Over every run of publisher messages, resumes, checkpoints, deaths (inside the store's handling of a batch included) and restarts: numbers have no gaps, nothing is accepted between a close and the next resume, every batch has the pose accepted under its pose sequence, the log is the accepted batches with increasing sequences, and while the process is up the session is closed or not as accepted, the counters are the log's and every chunk holds each batch once. |
| Inlets.PublishedRecordArrives | src/iggy-consumer.ts:147-172 | A published record arrives as sent; one with bytes missing is refused and never taken for a control message. |
| LogFormat.ArrivesExactly | src/iggy-consumer.ts:147-172 | A message is a batch exactly when it is one whole checked record and nothing more, and control exactly when it does not begin with the mark. |
| Inlets.LogIsBetween | src/session-store.ts:231-233 | A valid batch is at or below the session's last sequence exactly when it has been logged. |
| Inlets.LogReplaysWhole | src/batch-log.ts:125-189 | The bytes of the resulting log, torn tail or not, replay to all of its records. |
| Inlets.RecountCatchesUp | src/chunk-store.ts:1410-1448 | Replay over a row that lags the log counts exactly the records not counted yet. |
| Inlets.Follower.OnBatch | src/server.ts:558-575 | Stores a batch exactly when it is ahead of a known session, well formed and not too wide, counting it, noting its pose sequence and opening the session; drops any other without effect; and survives dying before, inside or after the store's handling of it. |
| Inlets.Follower.StoreDurably | src/server.ts:563-574 | Hands the batch to the chunk store, then saves the row, then commits in memory; dying before, between or inside any of them neither loses nor doubles the batch. |
| Inlets.Follower.OnControl | src/server.ts:577-596 | A create opens an unknown session and reopens a known one for its own publisher, a close closes a known one, anything else has no effect; what changed is saved in the row unless the process dies, and the log is untouched. |
| Inlets.Follower.Tick | src/iggy-consumer.ts:70-95 | Consumes a page and stores the offset of its last message, in that order. |
| Inlets.Follower.Restart | src/chunk-store.ts:1392-1457 | Brings the counters up to the log, opens the chunk store and resumes at the stored offset, surviving dying on the way. |
| Inlets.FollowTopic | src/iggy-consumer.ts:10-12 | Over every run of pages, checkpoints, deaths (inside the store's handling of a batch included) and restarts the log holds exactly the valid batches dealt with, once each and in order, and whenever the process is up the session's counters are those of the log and every chunk holds each of those batches exactly once. |
| RigidMotion.ComposedPoseIsSequential | src/pose-corrections.ts:55-73 | For unit quaternions, applying a composed pose is applying the inner one, then the outer one. |
| RigidMotion.RotationsCompose | src/pose-corrections.ts:75-92 | Rotating by a Hamilton product is rotating by its factors in turn. |
| RigidMotion.RotationKeepsLength | src/pose-corrections.ts:75-92 | Rotation preserves squared length. |
| RigidMotion.ConjugateUndoes | src/chunk-store.ts:610-610 | Rotating by the conjugate undoes the rotation. |
| RigidMotion.TranslationAdds | src/chunk-store.ts:429-449 | A pose without a rotation adds its translation. |
| RigidMotion.QuarterTurn | src/pose-corrections.ts:75-92 | Rotations are right-handed: a quarter turn about z takes x to y. |
| RigidMotion.OffsetIsLocal | src/chunk-store.ts:604-612 | The field-of-view test's rotated world offset is the point in the sensor's own frame. |
| PoseCorrections.PoseCorrectionMap.constructor | src/pose-corrections.ts:30-37 | The filled map finds each listed sequence's own correction and knows the last one. |
| PoseCorrections.PoseCorrectionMap.Apply | src/pose-corrections.ts:42-51 | A listed sequence gets its own correction, tail or no tail; one past every listed sequence gets the tail when there is one; any other keeps its logged pose. |
| PoseCorrections.EffectiveIsRigid | src/pose-corrections.ts:42-51 | Corrected poses stay unit quaternions. |
| PoseCorrections.TailMovesWorldPoints | src/pose-corrections.ts:7-10 | Fusing past the last correction is fusing the raw world points moved by the tail. |
| PoseCorrections.StandardIsStable | src/chunk-store.ts:429-449 | The store's concrete transform and grids satisfy the hypothesis of every result above. |
| Overlay.Thin | src/server.ts:789-797 | In-place even-stride thinning never reads a slot it has overwritten. |
| Overlay.SelectRows | src/server.ts:773-799 | The rows sent are in order, all in view, all of them when they fit the cap, and otherwise exactly cap of them, the j-th being the last at or before j parts in cap of the way. |
| LodSelect.ContainsAabb | src/lod-select.ts:132-142 | The loop over planes tests the far corner against each. |
| LodSelect.RejectsOnlyUnseen | src/lod-select.ts:129-142 | A plane rejects a box exactly when every point of the box is behind it. |
| LodSelect.VisibleBoxIsKept | src/lod-select.ts:145-152 | A box holding a visible point is never culled by the planes. |
| LodSelect.LevelIsCoarsestThatFits | src/lod-select.ts:162-173 | The chosen level is the coarsest whose edge is at most the desired size, or the finest when none is. |
| LodSelect.LevelFallsWithDistance | src/lod-select.ts:178-194 | At a fixed view the level never rises with distance. |
| LodSelect.DesiredFollowsDistance | src/lod-select.ts:178-194 | The desired edge grows in proportion to the distance and stops shrinking at the near plane. |

## Left out

- A fuse step of the state machine is one step, and so is each persist apart from the crash points between its writes; the process cannot die between two points of a batch, which changes memory only.
- Log offsets in the store machine count records; BatchLog.BytesFollowSteps and its neighbours say how the file's bytes follow the machine's steps, but the two are not one state.
- Agreement of the served point file and the row with the sidecar after a crash between the writes of a persist; recovery is stated over accumulators, and a crash between the point file and the row is covered as a crash with the point file written.
- Accumulator files of the older version, and chunks that have only a point file, are not seeded; a sidecar with a zero-sample record, which the loader rejects with an error, seeds an empty chunk here, and the invariant shows no such record is ever written.
- Crashes inside a rebuild, and rebuilds that re-fuse batches whose pose moved by less than the tolerance; both rebuild results assume unchanged batches are fused where they were.
- posesDiffer itself, whose rotation part needs an arc cosine: RebuildChanged takes the test as a parameter and asks that batches it does not pick have equal poses.
- flushSession, checkpointTick and flushAll, which repeat checkpointing and eviction over chunks and sessions.
- Continuing after a storage failure: the server means to stop, so a failed write is a death of the process.
- fsync, power loss, the database's own durability, IEEE rounding, CRC collisions and JSON beyond parse after stringify.
- The validity checks of a batch's format, length, time, pose and point values enter as one predicate per batch.
- A publisher's connection follows one session from its creation on; create_session itself, the rule of one publisher per session, acknowledgements, and other sessions' messages are not part of it. The checkpoint a close also makes is a separate event, here and in the inlet.
- Publishers.ServePublisher, Inlets.FollowTopic: a death inside a checkpoint or inside the replay at a restart is not one of their events; Recovery.CrashInsideRunIsExact covers its effect on the log and the chunks.
- Inlets.FollowTopic: keeps the log twice, as the records counted and as the batches fused, in step after every message; the bytes of the former are those of Inlets.LogReplaysWhole.
- Counters.CountersStayExact: covers sessions rebuilt in full; the opportunities a partial rebuild leaves are those of PartialRebuild.AdjustViews and RebuildBatches.
- PartialRebuild.RebuildBatches: asks for a session in order and caught up, where a full rebuild asks only for coherent chunks; a session left with a mismatching sidecar has to be rebuilt in full first.
- The inlet follows one topic; topics share only the moment the process dies. Polling, back-off and discovery timers are not modelled.
- Viewer agreement across a filter change or a session switch, the 100 ms view throttle, back-pressure closing a slow connection, and the quantised wire format.
- Filters with a ratio bound get the counts and the keyframe part of LodMirror.Serve only: voxels may start and stop passing together.
- LodSelect.LevelIsCoarsestThatFits: takes the integer part of the binary logarithm as an argument characterised by its bounds, because Dafny has no logarithm.
- Building a frustum from a camera, and the far-distance cull, which needs square roots and is not conservative by design.
- Validation of uploaded corrections (normalising quaternions, sorting), whose result PoseCorrections.Validated describes.
- Point codecs, calibration, spin assembly, registration and optimisation, HTTP, sockets and rendering.
