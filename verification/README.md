# A verified model of the sync protocol

This project models the parts of the sync that decide whether a note survives: the
three-way merge, the server's store with its change log, blobs and collection, the device's
sync engine, the encryption of a vault in place, the rename queue, resumable downloads and
sealed path names. `dafny verify dfyconfig.toml` checks all of it (Dafny 4.11).

## What is modelled

**The merge.** `Lcs` defines longest common subsequences and edit distances on a grid.
`Myers` has the greedy O(ND) search as a recursion over rows of furthest endpoints, shown optimal
against the grid; `MyersArray` has it as the program, with one frontier array, a snapshot per round
and the walk back, and the program computes what the recursion says.
`Diff3` is the merge as regions and as the loop; `MergeLaws` proves what merging keeps.
`Lines` and `Pieces` split and join texts.

**The server.** `Store` gives every SQL transaction as a function on a snapshot of the three
tables and as a method of the class `Tables` that runs it. `StoreLaws` has the invariant of
every run and the laws of retries, renames and collection; `StoreWrites` says field by field what is written and
how long a deletion lasts. `ChangeLog` has the delta, the
paging loop, and a reader among arbitrary writers, page reads, partial pages and restarts.
`Vault` adds the content-addressed blobs, the sweep and the requests that touch both, and `VaultRequests` what a
device finds after its own request.

**The device.** `Engine` says what each engine step makes of a world: disk, index,
conflicts, cursor, server; `EngineSteps`, `EngineMerge` and `EngineScope` tell the same steps by files, entries and
tables alone, down to the revision a merge starts from and the paths that are left out. `Device` is the class whose methods carry the steps out on its own
fields and whose `Sync` runs a whole pass from any state, to its end or until it is stopped.
`EngineSafety` proves, for every run of user changes, other devices' writes, steps and crashes, that no
step loses a content; `EngineStored` that what left the disk stays in a stored revision unless a collection
takes it by policy; `EngineTrace` and `EngineEnds` that a pass is such a run and ends.
`EngineQuiet` and `EnginePass` prove that a pass with nobody else writing ends in agreement and that
edits beat deletions, `EngineEdits` what becomes of every other edit in such a pass, `EngineFates` what becomes
of the files without one, `EngineStill` when a pass has nothing left to do, `EngineRetry` what entries kept from
an earlier pass add, and `EngineKilled` what is left of a pass that is killed; `EngineWhole` puts these
together. `EngineLife` is the time between passes, and `DeviceLife` lives it: a program that changes files,
serves other devices, passes, saves and crashes in any order. `TwoDevices` has two devices pass in turn until they are the same.
`Marker` is the migration marker and what it holds off; `Migration` and `MigrationRun` are the encryption of a
vault in place, stopped and restarted anywhere, with other devices' requests before every step. `RenameQueue` and
`RenameLanding` are the queue of local moves and what sending it makes of the index; `Slices`, `Sealing`, `VaultNames` and `PathCipher` are the smaller pieces. `Examples` and `CrashExamples` have a
short history of a new device for each property of engine and migration that holds only under a condition,
ending where it fails.

A hash is a constructor around a content and a sealed envelope a constructor around key and
content, so that SHA-256 has no collisions and encryption is deterministic and opens only with
its key. SQL transactions, file operations and requests are atomic. Clocks are parameters.

## What the proofs assume, because the code needs it

- An engine step on one path is not interleaved with a user's edit of that path.
- The name of a conflict copy is not in use; the real name has minute resolution
  (src/paths.ts:23-33).
- A path the device tracks is not forgotten by the server. `EngineQuiet.ForgottenPathFailsExactly`
  says what happens otherwise.
- A page of the change log is one atomic read. `ChangeLog.SplitReadExactly` says what happens
  when it is not (server/internal/store/store.go:180-188).
- A sweep does not run between an upload's blob and its row. `Vault.SweepDuringUpload` says
  what happens when it does (server/internal/api/api.go:394-414).
- For agreement after a pass only: contents on the server open with the device's key, there are no
  folder rows, every entry that waits to be retried is past or still the row of its path, and every local
  change was marked.
- For the vault being encrypted in place only: no other device of the vault has this device's name, and none
  takes the marker over or clears it. `Marker.ProtectedExactly` and `Marker.StopsProtectingExactly` say that the
  protection needs both and nothing else. What the run does to the disk is loss-free without this.
- Names on the server that open are names the cipher makes. `PathCipher.NameIsMintedExactly` says which do not.

## Where the code and its documentation part

Where a lemma is named, it gives the exact condition under which the code does what is promised.

- The purge of deleted files is meant to erase every tombstone; one whose recorded time is the
  largest 64-bit number stays (`StoreLaws.PurgeErasesAll`, `StoreLaws.PurgeCanMiss`).
- A deleted file is meant to stay restorable for a number of days (README.md:20, server/internal/store/gc.go:84-90). Its
  tombstone has the time of the last write, so a file that was old when it was deleted is forgotten at once
  (`StoreWrites.ExpiresByWriteExactly`, `StoreWrites.DeletionIsForgottenEarly`).
- A write that commits between the two queries of an empty page is never delivered
  (`ChangeLog.SplitReadExactly`, `ChangeLog.SplitReadSkips`).
- A file created and deleted here before it was sent hides another device's file of the same name
  (`EngineQuiet.UnsentDeletionHidesFile`, `Examples.UnsentDeletionHides`).
- A deletion undone after a newer revision went by leaves the device on the old content, marked clean
  (`EngineQuiet.ChangedBackSettlesExactly`, `Examples.ChangedBackStaysOld`). It takes a pass cut off between its two
  halves: after complete passes there is nothing to bring back (`DeviceLife.OrderlyIsReady`).
- A path the server forgot can neither be sent nor deleted; the 404 branch of a deletion, which is
  there to end such failures, is never reached with a revision above 0
  (`EngineQuiet.ForgottenPathFailsExactly`, `Examples.ForgottenPathFails`).
- A deferred entry tried again after its path was deleted brings the old content back
  (`EngineQuiet.RetryRollsBackExactly`, `Examples.RetryBringsBack`); a deferred rename takes along a file that was
  created under the old name since, with the same content (`EngineRetry.RetrySightsExactly`,
  `CrashExamples.RetryTakesFile`).
- A kill is meant to cost nothing but a replay (src/sync-engine.ts:519-522). An edit that was noticed but not yet saved
  stays unsent until the file is touched again (`EngineLife.CrashStaysCoherentExactly`, `CrashExamples.CrashForgetsEdit`); and where another device
  writes between pull and push, a rename read before the kill can take a file away for good
  (`EngineKilled.TurnStandsExactly`, `CrashExamples.KillTakesFile`). Neither happens to a kill in a pass
  that began right after a save, with nobody else writing (`DeviceLife.KillCostsNothing`).
- A moved file is meant to keep its unsent edit (src/sync-engine.ts:986-990). Moved onto a name that a file queued before it
  has left, it loses the mark when the queue is sent, and the edit stays unsent (`RenameLanding.EditSurvivesExactly`,
  `RenameLanding.ChainDropsEdit`).
- Two files that trade names are queued as two moves of which the server refuses the first
  (`RenameQueue.SwapIsRefused`).
- Encryption in place: a rerun can replace an edit by the older readable content, a file deleted here and
  edited elsewhere is erased with the readable copies, and a run that merged a file on the way in cannot
  finish (`Migration.RerunKeepsEditExactly`, `Migration.LeftBehindExactly`, `Migration.MergeStallsRunExactly`;
  `Examples.RerunDropsEdit`, `Examples.LeavesBehind`, `Examples.MergeStalls`).
- Nothing is meant to be erased that was not sent again (src/sync-engine.ts:342-346); a readable file whose path this
  device excludes is erased with the rest and never sealed (`MigrationRun.VanishesExactly`, `Examples.ErasesExcluded`).
- The marker is said to keep every other writer out until the run is over; any device may take it over or clear it,
  and is served from then on (server/internal/api/api.go:545-546, 583-590; `Marker.TakenOverLetsIn`). A device is
  only its name, and devices are "desktop" or "phone" until they are given one (src/main.ts:253-254): another
  device of that name is served all along (`Marker.ProtectedExactly`, `Marker.SameNameLetsIn`).
- Readable files from before the encryption are meant to pass through it; one that begins like an envelope
  is taken for one (`Sealing.PassesThroughExactly`, `Sealing.LooksSealed`).
- A comment says conflict copies are never uploaded (src/sync-engine.ts:1232-1234); the adoption of unknown
  files that follows the pull queues them (src/sync-engine.ts:949-964). A copy goes up in its own pass exactly when
  the pull made it and its name is not excluded (`EngineEdits.EditsEnd`).
- Decrypting a name the cipher would not have made spoils the name cache (`PathCipher.CachedCipher.Decrypt`,
  `PathCipher.NameIsMintedExactly`, `PathCipher.PaddedNameOpens`).

## Model

| member | source | states |
|---|---|---|
| `MyersArray.CommonLines` | src/diff3.ts:34-94 | the array program returns strictly increasing in-range pairs of equal lines, as many as the longest common subsequence has, and 2·matches = n + m − d for the number d of the round it stopped in |
| `MyersArray.Search` | src/diff3.ts:41-63 | the forward loop stops in the round of the minimal number of edits, and every snapshot it pushed is the frontier before its round |
| `MyersArray.WalkBack` | src/diff3.ts:65-94 | walking the snapshots back from the corner collects the matches of the path the search took |
| `Myers.NextIsGood` | src/diff3.ts:46-61 | each round's endpoints are the furthest any path with that many edits reaches on each diagonal, the grid's edge included |
| `Myers.CornerReached` | src/diff3.ts:44-62 | on the diagonal of the far corner the endpoint falls short of it in every round before the number of edits and is the corner in that round |
| `Myers.StopsAtCorner` | src/diff3.ts:61 | a furthest point with x ≥ n and y ≥ m is the corner itself, in the round of the minimal number of edits, although other points may leave the grid |
| `Myers.PathIsLongest` | src/diff3.ts:65-93 | the path the rows lead back along to an endpoint has as many matches as the longest common subsequence of the two prefixes |
| `Myers.MatchesAreLongest` | src/diff3.ts:34-94 | the matches are a common subsequence of length LCS, and 2·LCS = n + m − edits |
| `Myers.EndpointFits` | src/diff3.ts:38-60 | every endpoint of round d lies between 0 and n + d, inside the 32-bit cells of any array that can be allocated |
| `Lines.RoundTrip` | src/diff3.ts:103-114 | splitting and joining gives the text back exactly when it is not empty |
| `Lines.TextKeepsLines` | src/diff3.ts:103-114 | every non-blank line that is joined into a text is split out of it again, as often |
| `Lines.LinesPartExactly` | src/diff3.ts:103-108 | lines part at line feeds, and a final line feed begins no further line |
| `Lines.JoinsExactly` | src/diff3.ts:110-114 | joined lines end as the sample does, and nothing at all becomes one line feed |
| `Diff3.MatchMap` | src/diff3.ts:97-101 | the lookup built from the matches is an increasing map from base lines to equal lines |
| `Diff3.Merge3` | src/diff3.ts:122-183 | the loop, its two index guards included, returns what cutting into regions and resolving each one gives |
| `Diff3.Emit` | src/diff3.ts:204-244 | one chunk is appended resolved, and counted as a conflict exactly when its three versions are pairwise different |
| `Diff3.CutStep` | src/diff3.ts:149-155 | where both sides carry a base line, neither match lies before what was already consumed, so the guards never fire |
| `MergeLaws.RegionsTile` | src/diff3.ts:137-180 | the regions, concatenated, are exactly base, mine and theirs, and the stable ones are the base lines both comparisons kept |
| `MergeLaws.CleanIffDecided` | src/diff3.ts:182-244 | the merge is clean exactly when no chunk has three different versions, and the count is the number of such chunks |
| `MergeLaws.OutKeeps` | src/diff3.ts:204-244 | each line occurs in the merged list at least as often as in mine less base, and in theirs less base |
| `MergeLaws.MergeKeepsLines` | src/diff3.ts:122-244 | the same of the merged text, for every non-blank line and through every shortcut |
| `MergeLaws.NewLineSurvives` | src/diff3.ts:122-244 | a non-blank line only one side has is in the merged text |
| `MergeLaws.ConflictHoldsBoth` | src/diff3.ts:238-243 | between its markers a conflict holds both versions whole; the markers are written out, each side's with its label and the last with "end" |
| `MergeLaws.MarkersDiffer` | src/diff3.ts:239-243 | two sides with different labels have different markers |
| `MergeLaws.QuoteLengthExactly` | src/diff3.ts:191-199 | the quote prefix of a line runs past the last of its leading quote markers and one space after it, and is empty without one |
| `MergeLaws.SpacesAreThese` | src/diff3.ts:194 | the characters that count as spaces there, one by one |
| `MergeLaws.MarkerContinuesBlock` | src/diff3.ts:184-198 | a marker is quoted exactly as deep as the first quoted line of its chunk, counting mine, theirs and base in this order, and not at all when no line is quoted |
| `MergeLaws.MergeIsSymmetric` | src/diff3.ts:122-244 | swapping mine and theirs gives the same verdict, the same count and, when clean, the same text up to the final newline, and the same text when both sides end alike |
| `MergeLaws.UnchangedMineTakesTheirs` | src/diff3.ts:133-134 | cutting into regions would give the other side's lines when one side is the base, as the shortcut does |
| `MergeLaws.SameChangeTwice` | src/diff3.ts:133 | and the common lines when both sides are equal |
| `MergeLaws.ShortcutsAgree` | src/diff3.ts:133-135 | whenever a shortcut is taken, cutting into regions finds no conflict and gives the lines of the text the shortcut returns |
| `MergeLaws.OneSidedMerge` | src/diff3.ts:133-135 | where one side is the base, or both are the same, the text is returned exactly as it was written |
| `MergeLaws.MergeEndsLikeTheirs` | src/diff3.ts:182-183 | otherwise the text is the resolved regions and ends as theirs does, or as mine where theirs is empty |
| `Store.Tables.NextSeq` | server/internal/store/store.go:120-132 | the counter goes up by one and its new value is returned |
| `Store.Tables.UpsertRow` | server/internal/store/store.go:307-327 | the row replaces its path's row; its revision is recorded unless it already is |
| `Store.Tables.PutFile` | server/internal/store/store.go:209-294 | the transaction leaves the tables and answers as the content write on snapshots does |
| `Store.Tables.DeleteFile` | server/internal/store/store.go:228-294 | the same for a deletion, the retry of a deletion included |
| `Store.Tables.RenameFile` | server/internal/store/store.go:340-399 | the same for a rename, each refusal in its order |
| `Store.Tables.CollectHistory` | server/internal/store/gc.go:37-82 | pruning and forgetting in one transaction; a dry run leaves everything |
| `Store.Tables.ForgetDeletedBefore` | server/internal/store/gc.go:107-126 | expired tombstones go, with every revision of their paths |
| `Store.Tables.CollectLive` | server/internal/store/gc.go:133-158 | exactly the hashes named by a row or by a revision |
| `StoreLaws.EveryRunIsSound` | server/internal/store/store.go:120-399 | after every run of writes, renames and collections: rows stand under their path, their revision is recorded with the same hash, revisions belong to rows, and numbers are distinct and ordered as the revisions are |
| `StoreLaws.StepKeepsInv` | server/internal/store/store.go:209-399 | each transaction keeps that invariant |
| `StoreLaws.NextRevisionIsFresh` | server/internal/store/store.go:324-326 | the insert of a revision never meets an existing one |
| `StoreLaws.LogNumbersAreDistinct` | server/internal/store/store.go:120-132 | no two rows share a number and none is ahead of the counter |
| `StoreLaws.EveryStateStaysFetchable` | server/internal/store/store.go:402-417 | whatever a path held at any moment of an uncollected run can be fetched at its end by its revision |
| `StoreLaws.StepMovesForward` | server/internal/store/store.go:250-294 | while its row stands a path's revision never falls, and a changed row has a number beyond the old counter |
| `StoreLaws.PutAgain` | server/internal/store/store.go:204-226 | replaying an accepted write, with any base, changes nothing, the counter included |
| `StoreLaws.DeleteAgain` | server/internal/store/store.go:228-245 | replaying an accepted deletion likewise |
| `StoreLaws.RefusedChangesNothing` | server/internal/store/store.go:250-294 | a refused transaction leaves every table as it was |
| `StoreLaws.PutConflictsExactly` | server/internal/store/store.go:209-276 | a write is refused exactly when it is news and its base is not the current revision, and an accepted one stands as the path's row |
| `StoreLaws.RenameMoves` | server/internal/store/store.go:340-399 | an accepted rename moves one live content to a name that was not live, touches no other, and numbers the destination before the tombstone |
| `StoreLaws.RenameNeverHides` | server/internal/store/store.go:369-398 | whatever prefix of the log a reader has, and whatever else it knows or does not, if it knew the file at its old name it sees the renamed content at one of the two paths |
| `StoreLaws.StepKeepsRenamesOrdered` | server/internal/store/store.go:369-398 | at all times the source of a rename comes after its destination in the log |
| `StoreLaws.CollectSpares` | server/internal/store/gc.go:32-76 | collection keeps every live row and, of every path that keeps its row, live or deleted, exactly the revisions that are current, within the depth or young |
| `StoreLaws.CollectForgetsExactly` | server/internal/store/gc.go:64-76 | a path disappears exactly when it is a tombstone older than the cutoff, with all its revisions |
| `StoreLaws.PurgeErasesAll` | server/internal/store/gc.go:97-126 | the purge leaves no tombstone exactly when none carries the largest time, and no live row is touched |
| `StoreLaws.PurgeCanMiss` | server/internal/store/gc.go:103-126 | a two-write vault whose purge leaves its tombstone |
| `StoreWrites.PutWrites` | server/internal/store/store.go:209-226 | an accepted content write finds its content there or writes every field it was given, on top of the revision it names |
| `StoreWrites.DeleteWrites` | server/internal/store/store.go:229-245 | an accepted deletion finds a tombstone or writes one that keeps the file's time |
| `StoreWrites.RenameWrites` | server/internal/store/store.go:340-399 | an accepted rename writes the file's content, size and time under the new name, and then a tombstone |
| `StoreWrites.RefusalNamesRow` | server/internal/store/store.go:270-277 | a refusal names the row that stands in the way, field by field |
| `StoreWrites.RefusalsAre` | server/internal/store/store.go:209-368 | exactly when each transaction answers not found, invalid or conflict |
| `StoreWrites.ExpiresByWriteExactly` | server/internal/store/gc.go:84-126 | whenever a file is deleted, the deletion has expired exactly when the file's last write was before the cutoff |
| `StoreWrites.DeletionIsForgottenEarly` | server/internal/store/gc.go:84-126 | a file written on day 1 and deleted on day 100 is forgotten by a window of 90 days on day 101 |
| `ChangeLog.LogIsComplete` | server/internal/store/store.go:159-179 | the log between two numbers holds exactly the rows of that range, once each and in order |
| `ChangeLog.PageIsComplete` | server/internal/store/store.go:161-191 | a page holds exactly the rows up to its next cursor, and a last page leaves none behind |
| `ChangeLog.PageIsFull` | server/internal/store/store.go:161-191 | a page has as many rows as were asked for, 500 where that is no number from 1 to 5000, or all that are left |
| `ChangeLog.PullAll` | src/sync-engine.ts:532-571 | with writers stopped, paging from any cursor with any page size applies the rest of the log and stops |
| `ChangeLog.CursorIsSound` | src/sync-engine.ts:532-571 | for any interleaving of writers, page reads, partial pages and restarts, the cursor never passes the counter and every row at or before it was delivered in its current form |
| `ChangeLog.NewReaderIsSound` | src/index-store.ts:139-157 | a new device starts out sound on any vault |
| `ChangeLog.SplitReadExactly` | server/internal/store/store.go:180-188 | the second query of an empty page is harmless exactly when no row written between the two is still in the log |
| `ChangeLog.SplitReadSkips` | server/internal/store/store.go:180-188 | one write between the queries is skipped for good |
| `Vault.BlobStore.PutBlob` | server/internal/blob/blob.go:47-89 | content lands under its own hash unless it is too large, and stored content stays as it is |
| `Vault.BlobStore.Sweep` | server/internal/blob/blob.go:123-152 | exactly the named blobs outside the live set go, and the number of them is returned; a dry run only counts |
| `Vault.ServeAllKeepsSound` | server/internal/api/api.go:372-493 | after any requests each blob is under its own hash and each hash named by a row or revision has its blob |
| `Vault.EveryRevisionOpens` | server/internal/api/api.go:319-370 | after any requests from the empty server each row and each revision that names a hash is answered with that very content |
| `Vault.SweepKeepsSound` | server/internal/blob/blob.go:117-152 | a sweep after the metadata shrank leaves exactly the referenced blobs |
| `Vault.PurgeLeavesReferenced` | server/internal/api/api.go:598-619 | the purge leaves exactly the blobs something still names |
| `Vault.CollectionSweeps` | server/cmd/sync-server/gc.go:64-72 | collection by hand prunes and sweeps, and a dry run does neither |
| `Vault.RetentionSweeps` | server/internal/vault/sweeper.go:59-86 | the retention sweep forgets, and sweeps exactly when it forgot something |
| `Vault.NoContentAnswers` | server/internal/api/api.go:319-357 | which answer is given where there is no content: unknown, deleted, a folder, no such revision |
| `VaultRequests.UploadIsServed` | server/internal/api/api.go:372-425 | an accepted upload is answered from then on, under the revision the answer named |
| `VaultRequests.FolderIsServed` | server/internal/api/api.go:372-425 | a folder leaves a row and no content |
| `VaultRequests.RemovalIsServed` | server/internal/api/api.go:427-460 | a removed file is gone, and its revisions are answered as before |
| `VaultRequests.MoveIsServed` | server/internal/api/api.go:462-493 | a moved file is answered under its new name and gone under the old one |
| `Vault.SweepDuringUpload` | server/internal/api/api.go:394-414 | a sweep between blob and row is harmless exactly when the content was already named or the write is not on top of the current revision |
| `EngineSafety.EveryRunNeverLoses` | src/sync-engine.ts:618-807 | in every run of user changes, others' writes, pulls of any logged entry, pushes, checkpoints and crashes, whatever a step takes off the disk is in a revision the server accepted, elsewhere on disk, or was merged cleanly, from the ancestor its index entry named before the step, into what replaced it, with no line of either side lost against that ancestor |
| `EngineStored.EveryRunKeepsForGood` | server/internal/store/gc.go:32-82 | in a run without collection the same holds with the revisions the server still stores |
| `EngineStored.GoneOnlyByCollection` | server/internal/store/gc.go:32-126 | in any run an accepted revision that the tables no longer have was taken by a collection along the way |
| `EngineStored.DropsExactly` | server/internal/store/gc.go:48-82 | an operation removes a stored revision exactly when it collects and the revision is not current, below the depth and before the cutoff, or its path a tombstone before its own; no other is changed |
| `EngineSafety.ApplyRemoteIsSafe` | src/sync-engine.ts:618-807 | applying any entry of the log, old or new, loses nothing in that sense and keeps the index backed by the server |
| `EngineSafety.ReconcileIsSafe` | src/sync-engine.ts:1147-1204 | merging from the indexed ancestor or keeping both loses nothing |
| `EngineSafety.PushOneIsSafe` | src/sync-engine.ts:1015-1056 | sending a path loses nothing |
| `EngineSafety.NewDeviceIsOk` | src/index-store.ts:95-106 | a new device beside any vault is a start from which no run loses anything |
| `EngineMerge.MergesFromBase` | src/sync-engine.ts:1156-1203 | texts of at most a megabyte are merged from the text of the revision named as their base, or from nothing at revision 0, under this device's label and "server"; a clean merge is on disk and sent on the server's revision, any other leaves both versions and a conflict on record |
| `EngineMerge.KeepsBothOtherwise` | src/sync-engine.ts:1166-1187 | what is no such text, or has lost its base, is kept in both versions, recorded as not mergeable |
| `EngineMerge.FailsWhole` | src/sync-engine.ts:1156-1187 | a revision that does not open stops the reconciliation before anything is touched |
| `EngineMerge.PullMergesFromIndex` | src/sync-engine.ts:754-761 | an edit met by the pull is merged from the revision its entry stands at |
| `EngineMerge.PushMergesFromIndex` | src/sync-engine.ts:1080-1104 | so is an edit that is sent and refused |
| `EngineMerge.SizeOfText` | src/sync-engine.ts:1169-1170 | the size compared with the limit is that of the UTF-8 form |
| `EngineSteps.OpensExactly` | src/crypto.ts:249-263 | an envelope opens exactly with its own key, and other bytes are themselves |
| `EngineSteps.DeletionTakesExactly` | src/sync-engine.ts:763-807 | a deletion takes the file exactly when either hash of its entry is the file's, and otherwise leaves an edit on top of it |
| `EngineSteps.RenameMovesExactly` | src/sync-engine.ts:652-715 | a rename moves the file along exactly when it is here, unexcluded, with the renamed content, and the new name is free |
| `EngineSteps.MissingIsFetched` | src/sync-engine.ts:717-728 | a missing content is fetched whole or not at all, unless it was deleted here |
| `EngineSteps.PresentIsTaken` | src/sync-engine.ts:730-752 | a content that is here is entered, and one the entry vouches for is replaced |
| `EngineSteps.EditGoesUp` | src/sync-engine.ts:1080-1104 | an edit is sent under this device's name on its own base, or on the tombstone that turns out to be current |
| `EngineSteps.NothingToSend` | src/sync-engine.ts:1028-1046 | a file as its entry remembers it is only unmarked, and one that never went up and is gone only forgotten |
| `EngineSteps.DeletionGoesUp` | src/sync-engine.ts:1106-1139 | a deletion is sent on its own base; refused, the server's content comes back as read |
| `EngineSteps.EveryRunKeepsWhole` | src/sync-engine.ts:618-1139 | after every run an entry has both hashes or neither, and both if it is not marked |
| `EngineScope.ExcludedExactly` | src/sync-engine.ts:275-277 | a path is excluded exactly when it begins with one of the excluded prefixes |
| `EngineScope.AdoptsExactly` | src/sync-engine.ts:949-964 | an unknown file is queued exactly when it begins with no excluded prefix, and nothing else changes |
| `EngineScope.TurnPassesOver` | src/sync-engine.ts:543-547 | a row of an excluded path moves the cursor and nothing else |
| `EngineScope.TurnLeavesOut` | src/sync-engine.ts:533-561 | no row, of whatever path, changes entry or row of an excluded path |
| `EngineScope.PushLeavesOut` | src/sync-engine.ts:1006-1056 | nor does anything that is sent |
| `EngineScope.TurnRecords` | src/sync-engine.ts:533-561 | no applied row takes a conflict off the record |
| `Device.SyncEngine.FetchRevision` | src/sync-engine.ts:815-834 | the revision's content opened, missing, or not opening |
| `Device.SyncEngine.DownloadFile` | src/sync-engine.ts:926-936 | disk and index become what a download makes of them, or nothing changes |
| `Device.SyncEngine.SendFile` | src/sync-engine.ts:906-924 | the upload's effect on server and index, and the server's answer |
| `Device.SyncEngine.KeepBothFiles` | src/sync-engine.ts:1213-1247 | both versions on disk, the copy untracked, the conflict recorded |
| `Device.SyncEngine.ReconcileFile` | src/sync-engine.ts:1147-1204 | the whole new world of a reconciliation, with the merge computed by the merging program |
| `Device.SyncEngine.ApplyEntry` | src/sync-engine.ts:618-761 | the whole new world of applying an entry |
| `Device.SyncEngine.ApplyRemoteDeletion` | src/sync-engine.ts:763-807 | the whole new world of applying a tombstone |
| `Device.SyncEngine.AdoptUnknownFiles` | src/sync-engine.ts:949-964 | exactly the unknown files that are not excluded are queued |
| `Device.SyncEngine.UploadFile` | src/sync-engine.ts:1080-1104 | the whole new world of an upload, the resend over a tombstone included |
| `Device.SyncEngine.PushDeletionOf` | src/sync-engine.ts:1106-1139 | the whole new world of sending a deletion |
| `Device.SyncEngine.PushPath` | src/sync-engine.ts:1015-1056 | the whole new world of sending one path |
| `Device.SyncEngine.PullEntry` | src/sync-engine.ts:533-561 | an entry is applied or kept for later, and the cursor moves on either way |
| `Device.SyncEngine.RetryEntry` | src/sync-engine.ts:596-616 | a kept entry is skipped when the index is past it and applied otherwise |
| `Device.SyncEngine.RetryDeferred` | src/sync-engine.ts:596-616 | kept entries are tried in any order; where each is past or still the row of its path none fails, the pull has what it needs afterwards, and files neither kept nor moved by a kept rename are as they were |
| `Device.SyncEngine.Pull` | src/sync-engine.ts:518-575 | from any state the pull ends and is a run of engine steps; from one that a pass needs, whether stopped or not, it keeps coherence, every edit and every other file on its way and what a kill would need, and when not stopped has not read only this device's own settled writes |
| `Device.SyncEngine.Push` | src/sync-engine.ts:995-1078 | from any state the push ends and is a run of engine steps; after a pull it settles or stops tracking every queued path and decides every edit, whatever the order, and what is left when it is stopped is still as the pull left it |
| `Device.SyncEngine.Sync` | src/sync-engine.ts:285-331 | from any state a pass ends, is a run of engine steps none of which loses a content, and moves the server only forward. With nobody else writing, from what a pass needs, stopped anywhere, it leaves what the next one needs and what a restart from before it needs. Not stopped, every tracked file not excluded agrees with the server in content and revision and nothing is dirty; every edit on top of the server's revision or against a deletion is live as it is; every other edit is merged from its true ancestor or stands whole beside the server's content, and its copy goes up exactly when the pull made it; a file without an edit is the server's, whose row stands, and one deleted on either side is gone from both; every live server file is on the device unless it was lost sight of before; and a device without edits writes nothing. In every case entry and server row of an excluded path stay as they are, and a conflict whose copy is on disk stays on record |
| `EngineQuiet.ReconcileSettles` | src/sync-engine.ts:1147-1247 | reconciling with the current revision never fails and always settles the path |
| `EngineQuiet.RemoteApplies` | src/sync-engine.ts:618-807 | applying a path's current row never fails, leaves nothing unseen there, and each write it makes removes a disagreement |
| `EngineQuiet.PushSettles` | src/sync-engine.ts:1015-1139 | sending a path never fails and settles it or stops tracking it |
| `EngineQuiet.PushWins` | src/sync-engine.ts:1080-1139 | an edit on top of the server's revision or waiting against a deletion is live with its content after its path is sent |
| `EngineQuiet.RemoteWaits` | src/sync-engine.ts:719-726 | applying the rival row first does not lose the edit |
| `EngineQuiet.UnsentDeletionHidesFile` | src/sync-engine.ts:1028-1033 | a live file is lost sight of exactly when its entry was never sent and its file is gone |
| `EngineQuiet.ChangedBackSettlesExactly` | src/sync-engine.ts:1041-1046 | a path found unchanged is settled exactly when no newer revision went by |
| `EngineQuiet.ForgottenPathFailsExactly` | src/sync-engine.ts:1080-1139 | sending a tracked path fails and changes nothing exactly when the server has forgotten it |
| `EngineQuiet.RetryRollsBackExactly` | src/sync-engine.ts:596-616 | retrying an older entry, a rename included, changes nothing exactly when the path is still indexed and the index is past it or there is nothing to move; if the path is gone a deleted content returns |
| `EnginePass.TurnKeepsPulling` | src/sync-engine.ts:533-561 | one turn of the pull loop keeps the index coherent, the rest of the page current, own writes settled and every waiting edit waiting |
| `EnginePass.PushIsOver` | src/sync-engine.ts:995-1078 | with nothing left queued, device and server agree and every waiting edit has won |
| `EngineEdits.ReconcileMeets` | src/sync-engine.ts:1147-1247 | an edit that meets a live content leaves their clean merge from the indexed ancestor, or the server's content with the edit whole at the copy the conflict names |
| `EngineEdits.TurnKeepsEdits` | src/sync-engine.ts:533-561 | one turn of the pull keeps every edit of the device untouched, on its way up, or met |
| `EngineEdits.EditsEnd` | src/sync-engine.ts:1205-1247 | with nothing left queued every edit the pass started with is live as it is, merged, or set aside whole, and the copy set aside is live on the server exactly when the pull made it and its name is not excluded |
| `EngineFates.TurnKeepsFates` | src/sync-engine.ts:618-807 | one turn of the pull keeps every file without an edit at its row, every deletion made here undisturbed, and every deletion made elsewhere on its way |
| `EngineFates.FatesEnd` | src/sync-engine.ts:285-331 | with nothing left queued, files without an edit are the server's at the row the pass found, and what was deleted here at the server's revision or there without an edit is gone from disk, index and server |
| `EngineStill.PushKeepsStill` | src/sync-engine.ts:1006-1056 | a device whose files are all as indexed sends nothing; one with new files at most sends them as they are, without a conflict |
| `EngineStill.TurnKeepsStill` | src/sync-engine.ts:618-807 | nor does the pull of such a device write anything or leave an edit behind |
| `EngineEnds.RemoteLands` | src/sync-engine.ts:618-807 | from any state, applying a path's row adds no disagreement, and each write it makes takes one away |
| `EngineEnds.TurnLands` | src/sync-engine.ts:533-561 | so a turn leaves the rest of its page as it was read and the loop gets nearer its end |
| `EngineTrace.OwnRunForward` | src/sync-engine.ts:285-331 | what a device does by itself leaves every row standing or replaced by a later revision with a later number |
| `EngineRetry.RetryGoesOn` | src/sync-engine.ts:596-616 | the retry of an entry that is past or still the row of its path succeeds, and the others wait as before |
| `EngineRetry.RetrySightsExactly` | src/sync-engine.ts:596-616 | a retry loses sight of a live file exactly when it is a rename that moves away a file whose own row was read before |
| `EngineKilled.TurnStandsExactly` | src/sync-engine.ts:533-561 | a turn leaves the clean entries of the pass's beginning right about the disk exactly when it takes no file away under an entry that still stands at its row |
| `EngineKilled.TurnSurvives` | src/sync-engine.ts:518-529 | and it takes none away if no rename to be read did so when the pass began |
| `EngineKilled.PushSurvives` | src/sync-engine.ts:1015-1056 | nor does sending a path |
| `EngineWhole.PassIsOver` | src/sync-engine.ts:285-331 | what the loops of a pass carry gives, with nothing left queued, agreement, the end of every edit and of every other file, and rest for a device that had new files at most |
| `DeviceLife.Living.LiveOne` | src/main.ts:738-776 | the program changes a file and marks it, serves another device, passes to the end or until stopped, saves, or is killed: each, unless it resurrects a file, loses a mark or is unreadable, leaves what the next pass needs |
| `DeviceLife.Living.Live` | src/main.ts:738-776 | so it lives any history up to the first happening that is hindered, and in each moment of it a pass may start |
| `DeviceLife.OrderlyIsReady` | src/sync-engine.ts:519-529 | where each pass is complete or killed after a save, every moment outside a pass is ready for one that ends in agreement |
| `DeviceLife.KillCostsNothing` | src/sync-engine.ts:519-529 | and a kill anywhere in such a pass loses no mark and leaves the device ready |
| `DeviceLife.OrderlyIsNeverHindered` | src/main.ts:738-776 | nothing but another device's operation can hinder such a history |
| `EngineLife.CrashStaysCoherentExactly` | src/sync-engine.ts:519-529 | index and cursor of an earlier save, with the later disk and server, are what the next pass needs exactly when no mark was lost with the crash |
| `EngineLife.KilledIsReady` | src/sync-engine.ts:519-529 | a pass killed anywhere leaves, with what was saved before it, a device ready for the next one |
| `EngineLife.ForwardStaysAble` | src/sync-engine.ts:533-571 | whatever another device's pass does to the server, this one is able as before |
| `EngineLife.ChangeStaysCoherentExactly` | src/main.ts:753-776 | a marked change leaves the next pass what it needs exactly when it does not bring back a file whose newer revision went by |
| `EngineLife.ChangeMarks` | src/main.ts:753-776 | a change marks its entry and keeps all else of it, makes a new one where there is a file to send, and none under an excluded path |
| `EngineLife.OthersStayReady` | src/sync-engine.ts:533-571 | any readable write, rename or collection by others keeps the device ready unless it forgets a tracked path |
| `EngineLife.TwoDevicesAgree` | src/sync-engine.ts:285-331 | two devices that agree with the same server track the same files and hold the same contents |
| `TwoDevices.Converge` | src/sync-engine.ts:285-331 | after five passes in turn two devices with nobody else writing hold the same files with the same contents under every path neither excludes, and neither has an edit left |
| `TwoDevices.StayInStep` | src/sync-engine.ts:285-331 | and from then on no pass of either changes the server or those files |
| `EngineLife.NewDeviceIsReady` | src/index-store.ts:95-106 | a new device is ready beside any readable vault |
| `Marker.ServesExactly` | server/internal/api/api.go:561-577 | uploads, deletions and moves are carried out exactly where the marker is free or has the sender's name |
| `Marker.ServesAnyone` | server/internal/api/api.go:539-619 | erasing deleted files, taking over and clearing are served whoever asks |
| `Marker.ProtectedExactly` | server/internal/api/api.go:561-577 | no other device can write exactly while the marker stands and no other device has the name in it |
| `Marker.SameNameLetsIn` | server/internal/api/api.go:148-159 | two devices that kept the name they were given: the write of one is served under the marker of the other |
| `Marker.StopsProtectingExactly` | server/internal/api/api.go:539-590 | a request of another device, whatever its name, ends the protection exactly when it takes the marker over or clears it |
| `Marker.TrafficThins` | server/internal/api/api.go:561-619 | whatever else devices of other names and the retention sweep ask meanwhile, the marker stands, every live file keeps its row and its revisions, and nothing is new |
| `Marker.TakenOverLetsIn` | server/internal/api/api.go:539-559 | a write refused before a takeover is served after it |
| `Migration.PulledOrLeft` | src/sync-engine.ts:383-391 | once an entry was applied the disk has the row's content, its clean merge with what was here, or what this device made of its own revision, unless the file is left behind |
| `Migration.MergesInExactly` | src/sync-engine.ts:735-761 | taking a current row in writes to the server exactly when the file is here, is no echo, is neither the row's content nor known to the index, and merges cleanly into news; then the revision moves on by one |
| `MigrationRun.Migrator.OthersAct` | server/internal/api/api.go:561-619 | the requests ahead of a step reach server and marker one by one as the gate lets them, and while the marker is held touch no live file |
| `MigrationRun.Migrator.Listing` | src/sync-engine.ts:363-384 | exactly the live readable rows and the live sealed rows, the latter under their local names |
| `MigrationRun.Migrator.PullReadable` | src/sync-engine.ts:383-391 | its effect on the world is that of other devices' requests and pulls of listed files; while the marker is held sealed rows stay as listed and readable ones live, and finished each file is brought to disk or left behind; in an ordinary vault it is not refused |
| `MigrationRun.Migrator.SealOne` | src/sync-engine.ts:409-440 | the whole new world of sealing one file, and whether the server took it |
| `MigrationRun.Migrator.SealAll` | src/sync-engine.ts:398-455 | stopped anywhere, nothing readable is erased; finished, every file on disk is live under its sealed name and indexed there; in an ordinary vault it is not refused |
| `MigrationRun.Migrator.EraseReadable` | src/sync-engine.ts:457-466 | stopped anywhere, every file on disk is still sealed; finished, no readable row is live and the last number is the newest; in an ordinary vault it is refused only for a file that was merged |
| `MigrationRun.TakingGoesOn` | src/sync-engine.ts:383-391 | one turn of the pull keeps all that; in an ordinary vault it does not fail, and afterwards the file's revision has moved on if it merged and stands if it did not |
| `MigrationRun.ErasingGoesOn` | src/sync-engine.ts:457-466 | one erasure keeps every file on disk sealed and succeeds if the file did not merge |
| `MigrationRun.Migrator.EncryptInPlace` | src/sync-engine.ts:352-487 | from any index, with any requests of other devices before every step: each change of the disk is the pull of a listed file and no step loses a content. While the marker is not taken over or cleared and no other device has this one's name: wherever the run ends, a readable file is gone from the server only where its content, merge or successor is on disk and live under its sealed name, unless it was left behind; finished, this holds of every file readable at the start, exactly the files on disk that are not excluded have been sealed in addition, the marker is gone, the cursor is past the run's own work, and no row or revision has a readable name unless its time is the largest there is. A run that is allowed enough steps ends by itself, in an ordinary vault without refusal if no file merges in, and with one if a file does that nobody renamed away |
| `MigrationRun.Migrator.Finish` | src/sync-engine.ts:467-475 | with nothing readable live, the index, the purge, the marker and the cursor in this order, stopped between any two |
| `Migration.RerunKeepsEditExactly` | src/sync-engine.ts:387-390 | in a rerun an edit sealed before survives on disk exactly when the readable copy has it |
| `Migration.LeftBehindExactly` | src/sync-engine.ts:387-390 | with a coherent index a readable file stays off the disk, and so unsealed, exactly when it was gone and dirty or taken for this device's own echo |
| `Migration.MergeStallsRunExactly` | src/sync-engine.ts:460-463 | the listed revision of a readable file can be erased exactly when the file does not merge in |
| `MigrationRun.VanishesExactly` | src/sync-engine.ts:398-466 | after a run that ended by itself a file readable at the start is live under neither name exactly when it was not sealed before and is excluded here or not on disk; if it is not excluded, the pull had to leave it behind |
| `Examples.UnsentDeletionHides` | src/sync-engine.ts:1028-1033 | four actions of a new device after which a live file is lost sight of |
| `Examples.ChangedBackStaysOld` | src/sync-engine.ts:1041-1046 | six actions after which the device stays on an old content, marked clean |
| `Examples.ForgottenPathFails` | src/sync-engine.ts:1080-1139 | five actions after which an edit can never be sent |
| `Examples.RetryBringsBack` | src/sync-engine.ts:596-616 | a write and a deletion by another device after which a retry brings the content back as current |
| `Examples.RerunDropsEdit` | src/sync-engine.ts:387-390 | three actions and a sealing after which a rerun replaces a sealed edit on disk by the older content |
| `Examples.LeavesBehind` | src/sync-engine.ts:719-726 | four actions after which the run leaves another device's edit off the disk |
| `Examples.MergeStalls` | src/sync-engine.ts:460-463 | two actions after which a run that is not stopped is refused |
| `Examples.ErasesExcluded` | src/sync-engine.ts:398-466 | the program encrypts a vault whose one file is excluded here: it finishes, and the file is live under neither name |
| `CrashExamples.CrashForgetsEdit` | src/main.ts:753-776 | five actions after which an edit is on disk, nothing is dirty, and neither pull nor adoption notices |
| `CrashExamples.KillTakesFile` | src/sync-engine.ts:518-561 | eleven actions after which a live file is indexed and clean but not on disk |
| `CrashExamples.RetryTakesFile` | src/sync-engine.ts:596-616 | eight actions after which the retry of a kept rename takes away a live file whose row was read |
| `RenameQueue.LocalIndex.QueueRename` | src/index-store.ts:190-200 | a move that continues a queued one extends it, any other is appended |
| `RenameQueue.LocalIndex.FileRenamed` | src/main.ts:778-795 | index and queue after the user moved a file |
| `RenameQueue.LocalIndex.FlushRenames` | src/sync-engine.ts:966-993 | the server and the index after the whole queue, and the queue is empty |
| `RenameQueue.QueueIsComposition` | src/index-store.ts:190-200 | after any moves onto free names the queue, read as a map, is their composition, with distinct sources and distinct targets |
| `RenameQueue.SyncedTracks` | src/sync-engine.ts:966-993 | with the queue empty, every tracked name is its own, which is where the composition starts |
| `RenameQueue.QueueAcceptedExactly` | src/sync-engine.ts:966-993 | the server accepts the whole queue exactly when each source is live at its revision and each target is free or freed by an earlier move |
| `RenameQueue.SentMovesAll` | src/sync-engine.ts:966-993 | accepted whole, the queue carries every live content to where its file is |
| `RenameQueue.MovesReachServer` | src/main.ts:778-795 | the user's moves, queued and accepted, put each content under its file's present name |
| `RenameLanding.MovesTakeEntry` | src/main.ts:778-795 | over any moves of the user a file the server has takes its whole entry along, its mark included |
| `RenameLanding.UnknownIsMarked` | src/main.ts:788-793 | a file the server never had is marked under its new name instead |
| `RenameLanding.EntriesArrive` | src/sync-engine.ts:973-991 | sent, each moved file is indexed at the server's revision and hash with its mark and content hash as before, and as a file without either exactly when an earlier move left the name it takes |
| `RenameLanding.LeftIsDropped` | src/sync-engine.ts:991 | a name that was left and not taken again is not indexed any more |
| `RenameLanding.RefusedIsForgotten` | src/sync-engine.ts:993-998 | a refused move changes neither side and is not tried again |
| `RenameLanding.EditSurvivesExactly` | src/sync-engine.ts:966-993 | an edit made before a move is still marked after it was sent exactly when the file was not moved onto a name that a file queued before it had left |
| `RenameLanding.ChainDropsEdit` | src/sync-engine.ts:973-991 | two moves, both accepted, after which the edit of the second file is not marked any more |
| `RenameQueue.SwapIsRefused` | src/sync-engine.ts:966-993 | two live files that trade names are queued as moves the server does not accept |
| `Slices.SlicesPartition` | src/sync-engine.ts:879-890 | the inclusive ranges cut the file into consecutive pieces, for every size and slice length |
| `Slices.SliceLength` | src/sync-engine.ts:879-890 | every slice but the last has the chosen length |
| `Slices.SliceDir.FetchInSlices` | src/sync-engine.ts:850-893 | cut off anywhere the slices on disk stay right and each attempt gets further; the attempt that finishes has the revision's bytes, and it finishes exactly when its budget covers what was missing |
| `Slices.SliceDir.Join` | src/sync-engine.ts:888-891 | setting each slice at its offset gives the whole content |
| `Sealing.EnvelopeOpens` | src/crypto.ts:235-263 | encrypting and decrypting gives any content back, at a fixed overhead of 32 bytes |
| `Sealing.SealsAs` | src/crypto.ts:235-247 | an envelope is its four bytes, twelve bytes of the content's own HMAC, and the content locked under them |
| `Sealing.EnvelopesDiffer` | src/crypto.ts:235-269 | equal contents have equal envelopes and different contents different ones |
| `Sealing.PassesThroughExactly` | src/crypto.ts:249-255 | bytes come through a decryption unchanged exactly when they do not look like an envelope |
| `Sealing.LooksSealed` | src/crypto.ts:249-255 | a readable content of 32 bytes that does not come through |
| `PathCipher.Base64Back` | src/crypto.ts:408-423 | bytes come back from their base64 form |
| `PathCipher.AlphabetIs` | src/crypto.ts:381-391 | the digits are those of RFC 4648, and the two url-safe ones of its section 5 |
| `PathCipher.DigitsAreBits` | src/crypto.ts:408-423 | four digits are the 24 bits of three bytes |
| `PathCipher.GroupsAre` | src/crypto.ts:408-423 | the base64 form is group after group, the last one padded |
| `PathCipher.SpaceIsPassedOver` | src/crypto.ts:414-423 | decoding a name passes over white space wherever it stands |
| `PathCipher.OthersAreRefused` | src/crypto.ts:414-423 | and refuses anything but digits, pad signs and white space |
| `PathCipher.UrlOfBytes` | src/crypto.ts:381-391 | and from the unpadded url-safe form, which never has a slash |
| `PathCipher.SegmentBack` | src/crypto.ts:369-399 | a sealed segment opens to what it was and is a single segment |
| `PathCipher.PathBack` | src/crypto.ts:344-362 | a sealed path opens to the path and has as many segments |
| `PathCipher.FolderIsPrefix` | src/crypto.ts:325-334 | a folder's sealed name is a prefix of the sealed names of what is in it |
| `PathCipher.CanonicalExactly` | src/crypto.ts:381-423 | of the names that decode to given bytes exactly the one in url-safe digits, unpadded and with no bits left over is what the bytes encode to |
| `PathCipher.MintedExactly` | src/crypto.ts:369-399 | of the segments that open to a text exactly the one that is canonical, carries the nonce of its content and holds the text's own encoding is the text's segment |
| `PathCipher.NameIsMintedExactly` | src/crypto.ts:344-367 | a name that opens is the cipher's own exactly when each segment is |
| `PathCipher.PaddedNameOpens` | src/crypto.ts:381-391 | a sealed name with padding added opens to the same text |
| `PathCipher.NamesAreHonest` | src/crypto.ts:344-362 | the cipher's names are ones the encryption in place can rely on |
| `PathCipher.CachedCipher.Encrypt` | src/crypto.ts:344-352 | with or without the cache, the name the cipher makes, and the caches stay right |
| `PathCipher.CachedCipher.Decrypt` | src/crypto.ts:354-367 | with or without the cache, what the name opens to; the caches stay right exactly when it opens to nothing or each of its segments has the marks of one the cipher makes |

## Left out

- Folders, changes of letter case only, NFC normalisation, empty parents, trash and byte-order marks.
- Decoding bytes as UTF-8: a content is text or it is not.
- The server's file times and the index's `mtime` and `local_hash`, which decide nothing in the engine.
- The name of a conflict copy: any unused name is taken, where the source builds one from path, device and minute.
- Edits made while an upload of the same path is in flight, and two uploads interleaved within one step.
- The order in which a push sends its files; every order is covered.
- Waiting times and attempt counts of deferred entries; an entry that fails is kept and tried at every later pull.
- Renames made here are not part of the runs of `EngineSafety` and `EnginePass`; `RenameQueue` models them on its own.
- Device.SyncEngine.Sync: passes that overlap another device's writes are covered for safety by `EngineSafety.EveryRunNeverLoses` and for delivery by `ChangeLog.CursorIsSound`, not for agreement.
- Device.SyncEngine.Sync: a kept entry that is neither past nor the row of its path, or whose source is kept itself, is covered for safety only.
- DeviceLife.Living.LiveOne: saves lie between passes; a kill back to a save in the middle of the same pass is covered by `EngineLife.CrashStaysCoherentExactly`.
- TwoDevices.Converge: more than two devices, and renames made on them.
- EngineSafety.EveryRunNeverLoses: a content counts as safe once it was accepted; `EngineStored` says when it is still stored.
- MigrationRun.Migrator.EncryptInPlace: user edits during a run, and a history collected by hand on the server during one; the listing is read in one go; names on the server that open are taken to be names the cipher makes.
- MigrationRun.Migrator.EncryptInPlace: once another device has the marker, the run is refused before its next step that may write, where the source would still take in files that need no write.
- MigrationRun.Migrator.EncryptInPlace: a file that merges in, and that another device renamed away with the very content it has here, may or may not refuse the run.
- MigrationRun.Migrator.EncryptInPlace: the sweep that follows the purge is part of `Vault`, not of the run.
- MyersArray.CommonLines: the labelled break of the search is a returned flag, and the loops are split into methods of their own.
- Slices.SliceDir.FetchInSlices: a server that answers a range with fewer bytes than asked, and the hash check of the joined bytes.
- PathCipher.CachedCipher.Decrypt: the authenticated cipher, its nonce function and the text encoding are parameters with their usual laws.
- Byte totals of a sweep, tokens and join codes, routing and JSON, settings and user interface, key derivation.
- Resolving a conflict, restoring a deleted file, the reset of the cursor when encryption changes.
