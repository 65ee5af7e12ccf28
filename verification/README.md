# Verified model of the Typvia core

Typvia is a snippet library with end-to-end encrypted sync, a managed text-expansion engine, full-text and
semantic search, and a browser bridge. These Dafny modules model the parts of it that carry state or
arithmetic and prove what they promise.

- **Sync client and server** (`Sync*.dfy`, `Merge.dfy`). A client database holds rows, an outbox, one shadow base
  per entity, parked records and a pull watermark. `SyncModel` has one function per database operation;
  `SyncEngine` is the engine as an object whose methods run the source's loops and transactions and are proved
  against those functions, next to a `RecordServer` with the server's two-pass push. What the tables accept and
  the supply of ids are arbitrary functions (`Env`), and so is what a device can verify and open (`Access`),
  which every step that opens records brings along: keys and trust may change between any two of them. Every
  theorem holds for all of these.
  - *Basis*: what an entity shows equals its newest unsent document, or its shadow document when nothing is
    unsent. Each operation is proved to leave an entity at its basis exactly under a condition on the state
    before it, and to move of the other entities exactly those the schema's foreign keys take along.
    `RunsKeepBasis` carries that through every run against an arbitrary remote side: an entity is at its basis
    unless one of the named hazards hit it since it was last repaired. `SafeRunsKeepBasis` says when none can:
    each step meets a condition its caller can check first. `SyncRound` shows that for a whole round: from an
    orderly queue, and with at most one record on its way for an entity that has anything unsent, every entity
    ends at its basis that no arriving deletion can reach.
  - *Meeting edits* (`SyncCopies.dfy`): where the local and the arriving body are after a conflict, in the tables and
    in the queue, over the merge rules stated field by field in `Merge`.
  - *Acceptance* (`SyncFresh.dfy`): the versions a device gives are those the server takes, so edits nobody overtook
    are stored at the first push, and what a merge sends after a refusal at the next.
  - *Convergence*: any number of devices over one server, every interleaving of local changes, unobserved
    changes, uses, catch-up passes, batches sent, answers heard or lost, and pulls with whatever keys (`SyncFlight.dfy`
    holds what a device can rely on before an answer comes). A device with nothing of an entity left to send, park or pull
    shows the server's latest state of it if and only if the entity is at its basis there; two such devices
    then agree.
  - *Runs told in full*, failing ones (`SyncBroken.dfy`, `SyncStale.dfy`, `SyncLeft.dfy`) and one whose key comes late
    (`SyncKeys.dfy`), go move by move from an empty system of two
    devices (`SyncMoves.dfy`, `SyncStory.dfy`), with documents as the payload codec demands them (`SyncSamples.dfy`).
- **Codecs.** Base32 (`Base32.dfy`), the bytes certificates are signed over (`SignedBytes.dfy`), the espanso match
  file (`EspansoYaml.dfy`) and native-messaging frames (`Frames.dfy`), each with its exact inverse and with the order
  of its bits, bytes or fields.
- **Trust** (`Trust.dfy`). Certificate chains as paths grown from the pinned root, and the trust state a directory
  yields. Signature checking is an arbitrary function; `AcceptedWasIssued` adds the assumption that a check
  succeeds only on messages the key holder signed, and injectivity of the encodings does the rest.
- **Engine supervisor** (`Supervisor.dfy`). Starts, stops and monitor threads as atomic critical sections in every
  interleaving.
- **Vector index** (`Quantize.dfy`, `VectorIndex.dfy`). The error bound of int8 quantization over the reals, exact
  top-k over the flat matrix, and what an answer says of the cosines of the vectors as they were given.
- **Full-text index** (`Segment.dfy`, `SearchIndex.dfy`, `LibraryUse.dfy`). Han segmentation, the index as a mirror of
  the library, what a query finds in it, and the write use cases with what each re-indexes and leaves to be found.

`Wrappers.dfy`, `Bytes.dfy` and `Chars.dfy` are shared. Proofs that would otherwise meet many definitions at once hide
the ones they do not need (`hide`), and products are kept behind named functions for the same reason.

## Where the code does not do what its text says

Each of these is stated as a lemma about the code as it is, with the exact condition or a concrete run.

1. A record parked by a 409 stays in the outbox when a later edit of the same entity is pushed and accepted
   first. It is then the newest unsent record although it is older than what the server has (`AckBasis` says
   from the queue exactly when, `StaleAfterAck` is a run). When it is a deletion, the next remote edit sends the
   restored snippet to the recycle bin (`StaleDeletionWins`).
2. When two remote versions of an entity with a parked conflict arrive in one pull, the first is merged and
   queued, the second is then applied plainly over the merge result (`PlainBasis`, `OvertakenMerge`).
3. The catch-up pass does not repair an entity that was deleted before any of its content was accepted, nor the
   dependents of a recycled snippet (`ReconcileRestores`, `VanishedBeforeAccepted`, `DependentUnvisited`).
4. The comment on the cycle bound says that it keeps a hostile server from spinning the client
   (crates/sync/src/engine.rs:57-60). The push loop inside a cycle has no bound: an answer that names nothing
   pending leaves the queue as it was and the same batch is sent again (`ConflictProgress`, `AckProgress`).
5. The merge documents itself as symmetric apart from rule 3. It also is not when both sides carry the same
   clock and device and rule 2 has something to decide (`MergeSymmetric`, `SameDeviceAsymmetric`); the engine
   never merges such sides, because it skips its own records (`DevicesMergeAlike`). With no base it promises
   that every differing field counts as changed on both sides; a field one side holds as null does not
   (`NoBaseObeysClock`, `NoBaseRevivesClearedField`).
6. Writing a row while announcing the opposite (a change for a row in the recycle bin, a deletion for one
   outside) takes the entity off its basis; the update use cases can announce a change of a recycled snippet
   (`WriteKeepsBasis`, `RecycledEditAnnounced`).
7. A start whose spawn fails while an engine runs retires its monitor and leaves the state: when the engine then
   exits, nobody notices and the supervisor goes on showing it as running (`WatchedExactly`,
   `ExitGoesUnnoticed`, `UnwatchedIsFrozen`).
8. Renaming or deleting a tag re-indexes nothing; the index stays a mirror exactly when no snippet outside the
   recycle bin carries the tag, or the new name is indexed like the old one (`UseCaseMirrors`,
   `TagChangeGoesStale`).
9. A directory that lists a device twice keeps only the later row's revocation time, even when it is the later
   time: a certificate the device issued in between is then trusted (`EarliestListed`, `LaterRowHides`).
10. Deleting a folder, a tag or a snippet takes other rows along or unlinks them, and only the deletion itself is
    announced, on the ground that both sides run the same cascade (crates/host-service/src/service.rs:820-822). The
    moved entities keep a shadow and a server head from before: exactly they lose their basis (`WriteKeepsBasis`,
    `LandKeepsBasis`), and a device that is quiet about such a snippet shows something else than the server's
    latest state (`DeletedFolderDiverges`).
11. Inserting or copying a snippet counts the use in its row, a field its document carries and the merge has a rule
    for, and announces nothing (crates/core/src/repo/snippet_repo.rs:626-636; called from
    apps/desktop/src-tauri/src/service.rs:55, 86, 100, 270, 287 and apps/mobile/src-tauri/src/pasteboard.rs:289,
    314, 332). Every use of a snippet outside the recycle bin takes it off its basis until the catch-up pass
    (`UseUnannounced`, `UseGoesUnannounced`).
12. The round's report lists the snippets touched by application, and the host re-indexes these
    (crates/sync/src/engine.rs:201-203). It lists those a record or a conflict copy landed on. A snippet that a landed
    deletion takes along or unlinks shows something else and is not listed, so it stays indexed under the name of a
    folder that was deleted elsewhere (`ReportNamesMoved`, `DisplacedUnreported`).

## Model

| member | source | states |
|---|---|---|
| Merge.MergeDocuments | crates/sync/src/merge.rs:72-170 | the merge loop over field groups and remaining fields yields exactly the field-wise result whose rules the rows below spell out by field name |
| Merge.MergeSymmetric | crates/sync/src/merge.rs:18-19 | swapping the sides gives the same document if and only if rule 3 does not fire and, with equal clock and device, rule 2 has nothing to decide |
| Merge.DevicesMergeAlike | crates/sync/src/merge.rs:18-19 | between two devices only rule 3 breaks the symmetry |
| SyncBroken.SameDeviceAsymmetric | crates/sync/src/merge.rs:18-19 | two renames under one clock by one device: each direction keeps the other one |
| Merge.OneWinner | crates/sync/src/merge.rs:218-220 | the clock with its device tie-break picks exactly one side unless both coincide |
| Merge.BodyBlockWhole | crates/sync/src/merge.rs:21-26 | both content columns, the type and the security level of the merged snippet are one side's: the side's that alone edited them, the remote one's otherwise; a conflict is reported if and only if both edited them, differently |
| Merge.LocalBodyNeverLost | crates/sync/src/merge.rs:14-16 | a local edit of one of those four fields is in the merged document if and only if no conflict is reported |
| Merge.TriggerPairWhole | crates/sync/src/merge.rs:110-124 | trigger and mode go together to the side that edited them, and to the later one when both did |
| Merge.FieldByItself | crates/sync/src/merge.rs:147-165 | every field outside the nine of the snippet groups goes by itself to the side that edited it, and to the later one when both did; no field appears or disappears |
| Merge.UsageIsLargest | crates/sync/src/merge.rs:126-132 | usage count and last use are the larger of the two sides, a side without a number giving way |
| Merge.VersionMovesOn | crates/sync/src/merge.rs:134-145 | the merged version is one past the larger of the two, unless that is the last; the merge fails if and only if a snippet has none on either side |
| Merge.StringLessIs | crates/sync/src/merge.rs:215-220 | the device tie-break is the larger id: the one that goes on where the other ends, or has the larger character where they first differ |
| Merge.OneSidedEdit | crates/sync/src/merge.rs:11-12 | with the remote side untouched the local document survives, usage counters and version aside |
| Merge.NoBaseObeysClock | crates/sync/src/merge.rs:69-71 | without a base the clock's winner prevails on a differing field if and only if its value is not null |
| SyncBroken.NoBaseRevivesClearedField | crates/sync/src/merge.rs:69-71 | a merge of two complete folder documents without base where the later clearing of the parent is undone |
| Merge.MergeKeepsLive | crates/sync/src/merge.rs:72-170 | two documents outside the recycle bin merge into one outside it |
| Merge.ConflictCopy | crates/sync/src/merge.rs:177-213 | a copy exists exactly when the source has id and title, and is never in the recycle bin |
| Merge.CopyKeepsLocalBody | crates/sync/src/merge.rs:177-213 | the copy keeps those four fields and every field that is not part of its new identity, names its source and has its own id |
| Merge.CopyStartsAnew | crates/sync/src/merge.rs:193-211 | the copy has the device's name in its title, the given folder, no trigger, no usage, version 1 and the time of its making, and is outside the recycle bin |
| SyncCascade.FelledLeast | crates/core/migrations/0001_initial_schema.up.sql:4-83 | the rows a deletion takes along are the least set that holds the deleted ones and everything its members own |
| SyncCascade.RemovalMoves | crates/core/migrations/0001_initial_schema.up.sql:4-83 | of the other entities a deletion moves on screen exactly those taken along or unlinked |
| SyncCascade.RemovalKeepsIntact | crates/core/migrations/0006_conflict_marker.up.sql:1-6 | a deletion leaves no reference dangling |
| SyncCascade.UprootedReach | crates/core/migrations/0001_initial_schema.up.sql:4-83 | a folder moves folders and snippets, a tag links, a snippet its copies and what hangs off it, anything else nothing |
| SyncBasis.EnqueueEffect | crates/sync/src/engine.rs:210-252 | sealing a change makes it the entity's basis, one version beyond everything known, and moves no other entity |
| SyncBasis.WriteKeepsBasis | crates/host-service/src/service.rs:156-210 | a write announced in its own transaction leaves the entity at its basis if and only if the announcement says what happened to the row, and takes of the others exactly those off that the deletion moves |
| SyncBasis.SettleEffect | crates/sync/src/engine.rs:1318-1324 | adopting the server head drops exactly the entity's parked conflict and leaves its newest pending document, or the head's, as basis |
| SyncBasis.DeletionResolved | crates/sync/src/engine.rs:1231-1265 | a local deletion against a remote edit ends deleted as basis, and on screen if and only if no structural row is left |
| SyncBasis.EditsResolved | crates/sync/src/engine.rs:1266-1339 | after a three-way merge the merged row is the basis, on screen if and only if its deletion mark merged to none; the copy is at its own and no other entity moved (what the two rows hold: `SyncCopies`) |
| SyncBasis.CopyEffect | crates/sync/src/engine.rs:1347-1393 | the conflict copy is one new row at its basis |
| SyncBasis.MergeResolves | crates/sync/src/engine.rs:1177-1342 | every successful resolution adopts the head, leaves no conflict, moves of the others exactly what a deletion takes along, and leaves the entity at its basis if and only if a condition on the state before it holds (what the rows hold: `SyncCopies`) |
| SyncResolve.ResolutionOutcome | crates/sync/src/engine.rs:1177-1342 | from any state: if either side deleted, nothing or exactly one tombstone past the head is queued; otherwise exactly one content record past the head, or nothing when no row was left; what was pending keeps waiting beside it |
| SyncCopies.EditsMeet | crates/sync/src/engine.rs:1266-1339 | the row after two edits met is their merge over the shadow document, under the clocks of the unsent and the arriving record, and is queued; a copy is made if and only if the bodies conflict and one is wanted, and keeps the local body |
| SyncCopies.LocalBodyKept | crates/sync/src/engine.rs:1371-1377 | whenever edits of a snippet meet, the edited local body is afterwards the entity's own or that of a new snippet naming it as source in the same folder, stored and queued; the copy is made if and only if the other side edited the body too, differently, and the entity then has the other body |
| SyncCopies.RemoteBodyAdopted | crates/sync/src/merge.rs:94-109 | with the local body unedited the arriving one is adopted and no copy made |
| SyncCopies.EditReachesBin | crates/sync/src/engine.rs:1196-1265 | an edit that meets a deletion, from either side, is in the recycle bin as it was edited; a local deletion is queued once more |
| SyncCopies.PlainRow | crates/sync/src/engine.rs:1469-1480 | without a conflict the arriving document is the row; a deletion marks a snippet with its own time and removes anything else |
| SyncRuns.PlainBasis | crates/sync/src/engine.rs:1469-1492 | a plain application leaves the entity at its basis if and only if what it shows is what is still pending or, with nothing pending, the document itself, recycled documents included |
| SyncRuns.LandKeepsBasis | crates/sync/src/engine.rs:1093-1146 | over all branches a landed record leaves its entity at its basis if and only if it lands well, a condition on the state before; of the others exactly those move that a deletion takes along |
| SyncRuns.ApplyOneKeepsBasis | crates/sync/src/engine.rs:1041-1147 | only a landed record moves rows, queue or shadows, never at or below the applied head; an entity at its basis loses it exactly in the hazard |
| SyncRuns.PageKeepsBasis | crates/sync/src/engine.rs:1004-1037 | a whole page keeps every basis outside the hazards met on the way |
| SyncRounds.PageCalm | crates/sync/src/engine.rs:1004-1037 | a page with nothing pending for its own entities, no second record of an entity with anything unsent and no recycled document meets no hazard beyond what an arriving deletion can take along or unlink, and leaves the next page the same |
| SyncReferences.LandStems | crates/sync/src/engine.rs:1093-1146 | after a landing every reference to a folder or a tag was in the tables before, comes with the arriving document, or is its repetition in a conflict copy |
| SyncRounds.FalloutEnclosed | crates/core/migrations/0001_initial_schema.up.sql:4-83 | an arriving deletion moves nothing outside a set that holds whatever refers to a row that may go |
| SyncRounds.RetryCalm | crates/sync/src/engine.rs:801-878 | the same for the parked list, with the keys of the moment of the retry |
| SyncRounds.AcceptedCalm | crates/sync/src/engine.rs:938-967 | a batch of pending records answered in order moves no basis when no entity has both a conflict and something pending, and keeps that |
| SyncRounds.ConflictCalm | crates/sync/src/engine.rs:968-984 | neither does a 409, whatever it names |
| SyncRounds.SafeRunsKeepBasis | crates/sync/src/engine.rs:210-1165 | over every run of steps that meet a condition checkable beforehand, with any keys at any step, every entity stays at its basis |
| SyncRuns.AckBasis | crates/sync/src/engine.rs:938-967 | acknowledging what was sent moves the entity's basis if and only if the record is its newest unsent one and the newest of the others in the queue says something else; no other basis moves |
| SyncRuns.AckOneKeepsBasis | crates/sync/src/engine.rs:938-967 | one result of any answer moves exactly the bases that the queue and the batch before it tell |
| SyncRuns.AckKeepsBasis | crates/sync/src/engine.rs:938-967 | a whole acknowledgement, from any server, keeps every basis outside those |
| SyncRuns.HeadsKeepBasis | crates/core/src/repo/sync_outbox_repo.rs:151-166 | parking entities named by a 409 moves no basis |
| SyncPull.PullsAdvance | crates/sync/src/engine.rs:1004-1037 | over any pages, valid or not, each opened with its own keys, neither the watermark nor a shadow version falls |
| SyncPull.AcceptedIsIncreasing | crates/sync/src/replay.rs:56-62 | an accepted page has strictly increasing sequence numbers beyond the cursor and ends at its last |
| SyncPull.IncreasingIsAccepted | crates/sync/src/replay.rs:56-62 | such a page is never refused when every foreign record of it is fit for parking |
| SyncPull.ReapplyIsIdle | crates/sync/src/engine.rs:1025-1027 | applying a settled page again, with whatever keys by then, changes nothing and counts every record as own or replayed |
| SyncPull.ParkKeepsRecord | crates/core/src/repo/sync_state_repo.rs:84-115 | parking fails exactly for a record without entity id or beyond the storable range; otherwise a record beyond the watermark enters the table unless its id is already there |
| SyncPull.ApplyKeepsParked | crates/sync/src/engine.rs:1041-1147 | what is parked stays parked unless a record with its id landed, at which point the shadow has its version |
| SyncPull.RetryKeepsParked | crates/sync/src/engine.rs:801-878 | a retried record leaves the table exactly when the entity's shadow reaches its version; a blocked one changes nothing |
| SyncPull.ReportAddsUp | crates/sync/src/engine.rs:1406-1416 | each record moves exactly one of four counters; merges are among the applied, copies among the merged |
| SyncPull.ReportCounts | crates/sync/src/engine.rs:180-200 | each counter is the number of records with its fates: applied those that landed, merged those that met a conflict, parked, skipped and own ones |
| SyncPull.ReportNames | crates/sync/src/engine.rs:1406-1416 | a snippet is named if and only if a record of it landed or it is a new conflict copy |
| SyncPull.ReportNamesMoved | crates/sync/src/engine.rs:201-203 | every snippet that shows something else after a page is named, unless a deletion on the page took it along or unlinked it |
| SyncPull.DisplacedUnreported | crates/sync/src/engine.rs:201-203 | a snippet a landed deletion moves shows something else and is not named |
| SyncReconcile.ReconcileRestores | crates/sync/src/engine.rs:577-665 | after the pass an entity is at its basis if and only if it was visited, was there already, or is gone with a surviving shadow document |
| SyncReconcile.UntouchedQueuesNothing | crates/sync/src/engine.rs:571-573 | the pass queues nothing if and only if every visited and every gone entity is at its basis |
| SyncReconcile.SecondReconcileIdle | crates/sync/src/engine.rs:572-573 | a second pass queues nothing |
| SyncTrace.RunsKeepBasis | crates/sync/src/engine.rs:210-1165 | over every run against any server, with keys and trust changing at will, entities untouched by a hazard, a use or a cascade are at their basis |
| SyncTrace.UseUnannounced | crates/core/src/repo/snippet_repo.rs:626-636 | counting a use takes a snippet off its basis if and only if it is shown |
| SyncKeys.KeyArrivesLater | crates/sync/src/engine.rs:745-771 | a run in which a record is parked for its key, stays through a retry without it, and lands on the retry with it, leaving the database an open pull would have left |
| SyncBroken.OvertakenMerge | crates/sync/src/engine.rs:1093-1146 | two remote versions in one page of a run from empty: the merge result is overwritten while its record waits |
| SyncStale.StaleAfterAck | crates/sync/src/engine.rs:938-967 | a run in which an accepted restore leaves an older parked deletion as the newest unsent record |
| SyncStale.StaleDeletionWins | crates/sync/src/engine.rs:1231-1265 | going on, the next remote edit puts the snippet into the recycle bin |
| SyncLeft.DeletedFolderDiverges | crates/host-service/src/service.rs:814-829 | a run after which a quiet device shows a snippet outside the deleted folder its server head still names |
| SyncLeft.VanishedBeforeAccepted | crates/sync/src/engine.rs:577-665 | a run after which the catch-up pass leaves a vanished folder queued as content |
| SyncLeft.DependentUnvisited | crates/sync/src/engine.rs:577-665 | a run after which it leaves the changed field of a recycled snippet unsent |
| SyncLeft.RecycledEditAnnounced | crates/host-service/src/service.rs:156-210 | a run that announces the edit of a recycled snippet and takes it off its basis |
| SyncLeft.UseGoesUnannounced | apps/desktop/src-tauri/src/service.rs:45-57 | a run in which a use leaves the snippet shown different from the one queued |
| SyncServer.SimulationIsExact | apps/sync-server/internal/store/record_push.go:80-123 | without conflicts the simulated heads are the stored heads, with no gap in any entity's versions |
| SyncServer.PushKeepsLog | apps/sync-server/internal/store/record_push.go:65-158 | an accepted batch is stored whole; a refused one changes nothing and names entities of the batch |
| SyncServer.AcceptedExactly | apps/sync-server/internal/store/record_push.go:80-158 | a batch is stored if and only if the log stays without gaps with its new records behind it |
| SyncServer.RefusalNames | apps/sync-server/internal/store/record_push.go:108-135 | a refusal names an entity if and only if its own new records do not continue the log |
| SyncServer.RepushIsIdempotent | apps/sync-server/internal/store/record_push.go:65-158 | sending an accepted batch again, whatever others stored meanwhile, stores nothing and reports the same sequence numbers |
| SyncServer.VersionsAscend | apps/sync-server/internal/store/record_push.go:80-123 | an entity's versions ascend along the log |
| SyncServer.SameVersion | apps/sync-server/internal/store/record_push.go:108-119 | a version names one record of an entity's history |
| SyncFresh.WriteFits | crates/sync/src/engine.rs:210-252 | every local write of a device nobody overtook is the entity's next version on the server, under the clock of the write, this device's name and the row written, and keeps the whole queue fitting |
| SyncFresh.QueueAccepted | apps/sync-server/internal/store/record_push.go:80-158 | such a queue is stored whole, whatever batches it is sent in |
| SyncFresh.MergeFits | crates/sync/src/engine.rs:1318-1339 | after a refused edit or deletion was resolved with the server's newest record of the entity, what is queued fits again, the conflict copy included |
| SyncPushed.AckAll | crates/sync/src/engine.rs:938-967 | the answer to a batch of pending records settles every one of them and moves each shadow to its entity's last record of the batch |
| SyncFlight.SendKeepsWire | apps/sync-server/internal/store/record_push.go:65-158 | once the server has answered a batch, first sent or sent again, every own stored record is settled, still queued or given up, and what the device does not know to be stored is newer than its entity's shadow |
| SyncFlight.AppendKeepsWire | crates/sync/src/engine.rs:920-922 | so it stays while the host writes with the batch on the wire |
| SyncFlight.AcceptedKeepsWire | crates/sync/src/engine.rs:938-967 | and when the acceptance arrives, however late: no shadow falls back, and everything received or sent is still accounted for |
| SyncFlight.RefusedKeepsWire | crates/sync/src/engine.rs:968-984 | and when the refusal does, whatever it names |
| SyncFlight.LandingKeepsWire | crates/sync/src/engine.rs:1093-1146 | and when records land after that, except that own stored records can be given up whose parked copies a merge drops below their version |
| SyncFlight.DrainedAnswered | crates/sync/src/engine.rs:923-930 | with nothing pending no answer is missing |
| SyncSystem.ReceiveOne | crates/sync/src/engine.rs:1041-1147 | the next stored record is landed, own, parked or given up, and nothing known before is forgotten |
| SyncSystem.ReceivePage | crates/sync/src/engine.rs:1004-1037 | the same for a whole page |
| SyncConverge.RunsKeepSystem | crates/sync/src/engine.rs:714-787 | every interleaving of moves by any devices, with answers late or lost, host writes while a batch is on the wire, and any keys at any time, keeps the system invariant |
| SyncConverge.EmptySystemOk | crates/sync/src/engine.rs:714-787 | the empty system has it |
| SyncConverge.QuietDevicesConverge | crates/sync/src/engine.rs:714-787 | after any such run a device quiet about an entity shows the server's latest state of it if and only if the entity is at its basis there, as it is outside the ledger; two quiet devices then show the same |
| SyncEngine.RecordServer.PushRecords | apps/sync-server/internal/store/record_push.go:65-158 | the two loops over the batch compute the whole-batch answer and the new log |
| SyncEngine.RecordServer.PullRecords | apps/sync-server/internal/service/records.go:173-206 | one page strictly after a sequence number, and whether more follows |
| SyncEngine.Engine.EnqueueChange | crates/sync/src/engine.rs:210-252 | seals at write: the new state is the specified one, or nothing changed |
| SyncEngine.Engine.CreateConflictCopy | crates/sync/src/engine.rs:1347-1393 | the copy's row and queued record |
| SyncEngine.Engine.ResolveEdits | crates/sync/src/engine.rs:1266-1339 | the edit-against-edit branch in order; what it leaves is in `SyncCopies.EditsMeet` |
| SyncEngine.Engine.ResolveDeletion | crates/sync/src/engine.rs:1231-1265 | the deletion-against-edit branch in order |
| SyncEngine.Engine.ResolveConflict | crates/sync/src/engine.rs:1177-1342 | the four merge cases; what they leave is in `SyncCopies` |
| SyncEngine.Engine.LandRecord | crates/sync/src/engine.rs:1093-1146 | merge or apply under a savepoint; a failure restores everything |
| SyncEngine.Engine.ParkRecord | crates/sync/src/engine.rs:1149-1165 | parks once per record id and sequence number, and fails for a record the tables do not take |
| SyncEngine.Engine.ApplyRecord | crates/sync/src/engine.rs:1041-1147 | the fate of one pulled record, its effect and its one counter |
| SyncEngine.Engine.ApplyPulledPage | crates/sync/src/engine.rs:1012-1031 | all records of a page and the watermark, or the state before it |
| SyncEngine.Engine.PullAll | crates/sync/src/engine.rs:993-1038 | a run of pages that ends at the server's head and succeeds when log and queue are storable, keeps committed pages on failure, leaves the outbox alone when nothing merged, and keeps every basis when what is on its way is calm |
| SyncEngine.Engine.RetryRecord | crates/sync/src/engine.rs:814-875 | one parked record is released, landed or left |
| SyncEngine.Engine.RetryParked | crates/sync/src/engine.rs:801-878 | the parked list once, in order |
| SyncEngine.Engine.ListPending | crates/core/src/repo/sync_outbox_repo.rs:77-99 | the longest prefix of the pending records within both bounds, and one record at least unless none is pending |
| SyncEngine.Engine.Acknowledge | crates/sync/src/engine.rs:938-967 | settles an accepted batch in one transaction or not at all |
| SyncEngine.Engine.ParkConflicts | crates/sync/src/engine.rs:968-984 | parks every entity a 409 names |
| SyncEngine.Engine.PushAll | crates/sync/src/engine.rs:913-987 | a run of answers that ends with the queue drained and succeeds for an ordered, storable queue; it sends nothing but that queue and moves no basis of an orderly one |
| SyncEngine.Engine.RunCycle | crates/sync/src/engine.rs:728-790 | push, then pull and retry with the keys that came in between: keeps what the round has so far, and tells whether anything merged |
| SyncEngine.Engine.SyncRound | crates/sync/src/engine.rs:728-793 | a run of steps that succeeds when log and queue are storable and ends at the server's head with nothing pending, unless each of the four cycles merged, whatever access each cycle reads with; from a ready state every entity ends at its basis outside what arriving deletions can reach, and when they reach nothing every step was safe |
| SyncEngine.Engine.Reconcile | crates/sync/src/engine.rs:577-665 | the two sweeps in one transaction: the specified queue, or the one before |
| SyncEngine.AckProgress | crates/sync/src/engine.rs:938-967 | an acknowledgement shrinks the pending queue if and only if it holds a result; an empty one changes nothing |
| SyncEngine.ConflictProgress | crates/sync/src/engine.rs:968-984 | a 409 shrinks the pending queue if and only if it names an entity with something pending; otherwise it changes nothing |
| Base32.EncodeNoPad | crates/sync/src/base32.rs:14-32 | the accumulator loop writes the byte string's number, shifted over the padding, in base 32 |
| Base32.DecodeNoPad | crates/sync/src/base32.rs:36-62 | the loop accepts exactly the canonical texts and returns their bytes; its inner bound check never fires |
| Base32.EncodeThenDecode | crates/sync/src/base32.rs:14-62 | every byte string comes back |
| Base32.DecodeThenEncode | crates/sync/src/base32.rs:14-62 | whatever decodes is the canonical text of what it decodes to |
| Base32.AcceptedTexts | crates/sync/src/base32.rs:34-62 | a text is accepted for a size if and only if it is the text of that many bytes |
| Base32.TextRegroupsBits | crates/sync/src/base32.rs:14-32 | the bits of the text, five to a letter, are the bits of the bytes, eight to a byte, both highest first, and then zeros (RFC 4648, section 6) |
| Base32.AlphabetInOrder | crates/sync/src/base32.rs:11 | the letters stand for 0 to 31 in the order of the alphabet |
| SignedBytes.RootSignedBytes | crates/sync/src/cert.rs:165-171 | the buffer built field by field is the specified encoding, refused exactly for an interior zero byte |
| SignedBytes.CertSignedBytes | crates/sync/src/cert.rs:173-185 | the same for certificates |
| SignedBytes.SignedBuffer.PushText | crates/sync/src/cert.rs:197-207 | appends the field and its terminator, or nothing when it holds a zero byte |
| SignedBytes.SignedBuffer.PushSubject | crates/sync/src/cert.rs:187-195 | appends the six subject fields |
| SignedBytes.SubjectUnique | crates/sync/src/cert.rs:187-195 | a message starting with a subject's fields determines the subject and the rest |
| SignedBytes.RootBytesUnique | crates/sync/src/cert.rs:165-171 | root encodings are injective and prefix-free |
| SignedBytes.CertBytesUnique | crates/sync/src/cert.rs:173-185 | certificate encodings are injective and prefix-free |
| SignedBytes.RootIsNeverCert | crates/sync/src/cert.rs:25-26 | no root encoding begins like a certificate encoding |
| SignedBytes.RootOnWire | crates/sync/src/cert.rs:165-171 | the context of a root statement, letter by letter, then the subject |
| SignedBytes.CertOnWire | crates/sync/src/cert.rs:173-185 | the context of a certificate, the subject, the time of issue, the issuer and its end |
| SignedBytes.SubjectOnWire | crates/sync/src/cert.rs:187-195 | which of the six subject fields stands where |
| SignedBytes.TimeOnWire | crates/sync/src/cert.rs:193-193 | times are eight bytes in two's complement, lowest first |
| Trust.VerifyCertificateChain | crates/sync/src/cert.rs:120-151 | accepts exactly the trusted paths from the pinned root, and names the first complaint of the first bad link |
| Trust.TrustedPrefix | crates/sync/src/cert.rs:120-151 | every nonempty prefix of an accepted chain is accepted |
| Trust.PathLinks | crates/sync/src/cert.rs:134-149 | a path is a chain whose every link is vouched for by its predecessor |
| Trust.RevocationsTakeAway | crates/sync/src/cert.rs:140-144 | acceptance under revocations is acceptance without any plus each certificate issued strictly before its issuer's revocation |
| Trust.RevocationsAntitone | crates/sync/src/cert.rs:140-144 | more or earlier revocations never make a chain acceptable |
| Trust.AcceptedWasIssued | crates/sync/src/cert.rs:111-119 | with unforgeable signatures each accepted link is word for word a certificate its predecessor's key signed |
| Trust.WithRoot | crates/sync/src/directory.rs:195-226 | fails exactly on a bad root or an unparsable chain; chains and revocation times per device are the last row's and the earliest |
| Trust.FromDirectory | crates/sync/src/directory.rs:178-187 | the directory's root is used only when it is the pinned one |
| Trust.EarliestListed | crates/sync/src/directory.rs:210-220 | the recorded time is a listed one, and the earliest listed if and only if no earlier time is hidden by a later row |
| Trust.UniqueRowsHideNothing | crates/sync/src/directory.rs:210-220 | with one row per device none is |
| Trust.LaterRowHides | crates/sync/src/directory.rs:195-226 | the state built from a directory that lists a device twice trusts a chain with a certificate issued after a listed revocation |
| Trust.NothingIssuedAfterRevocation | crates/sync/src/directory.rs:195-226 | nothing on an accepted chain was issued at or after a revocation the directory lists for its issuer, unless a later row hides it |
| Trust.VerifiedDeviceKeys | crates/sync/src/directory.rs:254-267 | returns the root's keys or those of the leaf of a trusted chain ending at the device, and nothing otherwise |
| Trust.KeysWereCertified | crates/sync/src/directory.rs:248-253 | keys of another device were certified under its id by the end of a path from the root, whatever the server put in its rows |
| Supervisor.EngineSupervisor.Start | crates/espanso-adapter/src/lifecycle.rs:150-169 | the critical section of a start, failed spawn included |
| Supervisor.EngineSupervisor.Stop | crates/espanso-adapter/src/lifecycle.rs:172-182 | the critical section of a stop and the pid it terminates |
| Supervisor.EngineSupervisor.NeedsStart | crates/espanso-adapter/src/lifecycle.rs:141-146 | whether a start follows |
| Supervisor.MonitorThread.ChildExited | crates/espanso-adapter/src/lifecycle.rs:207-222 | the monitor's step after an exit; what it leads to is in `ExitAnswered` |
| Supervisor.MonitorThread.DelayOver | crates/espanso-adapter/src/lifecycle.rs:224-252 | the monitor's step after a delay; what it leads to is in `DelayAnswered` |
| Supervisor.EveryRun | crates/espanso-adapter/src/lifecycle.rs:90-96 | in every interleaving the state is running with a pid exactly when that pid is recorded, retries stay in the budget, and one live monitor at most is current |
| Supervisor.OnlyCurrentActs | crates/espanso-adapter/src/lifecycle.rs:210-212 | a monitor's step changes the guarded state if and only if it is current |
| Supervisor.StoppedPersists | crates/espanso-adapter/src/lifecycle.rs:172-182 | a stopped engine stays stopped until a start spawns a child |
| Supervisor.WatchedExactly | crates/espanso-adapter/src/lifecycle.rs:155-160 | a claimed engine stays watched except after a failed start over one |
| Supervisor.ExitGoesUnnoticed | crates/espanso-adapter/src/lifecycle.rs:155-160 | a run in which the engine exits and is shown as running |
| Supervisor.UnwatchedIsFrozen | crates/espanso-adapter/src/lifecycle.rs:205-253 | from there only a stop or a spawning start moves the state |
| Supervisor.SpawnsBounded | crates/espanso-adapter/src/lifecycle.rs:205-253 | in no run does one start spawn more than one child beyond the number of delays |
| Supervisor.ExitAnswered | crates/espanso-adapter/src/lifecycle.rs:207-222 | in every run the exit of the current child leads to the announced retry, numbered by the children spawned so far, with the monitor asleep, or to failure when these are one more than the budget |
| Supervisor.DelayAnswered | crates/espanso-adapter/src/lifecycle.rs:224-252 | in every run the end of the delay leads to the spawned child running under the same monitor, or to failure when none could be spawned |
| Supervisor.GivenUpExactly | crates/espanso-adapter/src/lifecycle.rs:205-253 | the state becomes failed if and only if the last child the budget allows exits or a restart cannot be spawned |
| Supervisor.BudgetUsedUp | crates/espanso-adapter/src/lifecycle.rs:205-253 | for every budget and any pids there is a run in which one start spawns one child more than there are delays, each running in its turn, before the state is failed |
| Quantize.ComponentError | crates/semantic/src/quant.rs:29-43 | above the cut-off the clamp changes nothing and each component is at most half a step off |
| Quantize.ScoreError | crates/semantic/src/quant.rs:49-58 | the rescaled int8 dot product is within n * Ma * Mb / 127 of the true one |
| Quantize.Normalize | crates/semantic/src/quant.rs:19-26 | in place: divided by the length, or unchanged when that is below the cut-off |
| Quantize.UnitLength | crates/semantic/src/quant.rs:19-26 | the result has length one and a largest component above the cut-off |
| Quantize.ScoreIsCosine | crates/semantic/src/quant.rs:8-9 | the score of normalized vectors approximates the cosine of the originals with that bound |
| Quantize.ScoreTells | crates/semantic/src/quant.rs:8-58 | on the vectors as given: the score is their cosine up to the dimension over 127 times both largest components relative to the lengths, or zero when one is too short to have a direction |
| Quantize.AccumulatorFits | crates/semantic/src/index.rs:81-85 | every dot product of a dimension fits 32 bits if and only if the dimension is at most 133144 |
| VectorIndex.Index.constructor | crates/semantic/src/index.rs:34-54 | rows are the normalized, quantized entries of the right dimension in order, in one flat matrix; what a search over them answers is in the rows below |
| VectorIndex.Index.RowInRange | crates/semantic/src/index.rs:80-81 | every row's slice lies within the matrix |
| VectorIndex.Index.RowDot | crates/semantic/src/index.rs:80-85 | the accumulated product is the dot product |
| VectorIndex.Index.TopK | crates/semantic/src/index.rs:69-97 | exactly the best k candidates, sorted, with nothing better left out; nothing for another dimension |
| VectorIndex.QualifyingIn | crates/semantic/src/index.rs:86-92 | the candidates are exactly the rows whose score reaches the minimum |
| VectorIndex.HitsTell | crates/semantic/src/index.rs:31-97 | every hit over an index built from entries names an entry of the right dimension and reaches the minimum, and its score tells the cosine of entry and query as given |
| VectorIndex.EntriesCompete | crates/semantic/src/index.rs:31-97 | every entry of the right dimension has a score that tells its cosine; once that reaches the minimum the entry is returned, unless k hits are that come before it |
| VectorIndex.CloseEntriesFound | crates/semantic/src/index.rs:67-97 | an entry whose cosine is above the minimum by the tolerance is found, unless k hits score at least its cosine less the tolerance |
| VectorIndex.AnswerOrder | crates/semantic/src/index.rs:68-68 | higher scores first, equal scores by the smaller id |
| VectorIndex.SortHits | crates/semantic/src/index.rs:94-94 | a sorted permutation |
| VectorIndex.BestUnique | crates/semantic/src/index.rs:69-70 | that promise leaves no choice |
| VectorIndex.SameRowsSameAnswer | crates/semantic/src/index.rs:69-70 | the same rows in any order answer every query alike |
| VectorIndex.ScanFits | crates/semantic/src/index.rs:81-85 | no prefix of a row's product overflows up to that dimension |
| VectorIndex.IndexedLevels | crates/semantic/src/index.rs:45-48 | every stored value is an int8 level |
| Segment.SegmentText | crates/search/src/segment.rs:30-44 | one pass puts a space between exactly the neighbours that must not touch |
| Segment.HanStandsAlone | crates/search/src/segment.rs:28-44 | every Han character has white space or an end on both sides |
| Segment.SeparatedIsFixed | crates/search/src/segment.rs:30-44 | segmenting leaves exactly the separated texts alone |
| Segment.IndexTwice | crates/search/src/segment.rs:30-44 | segmenting twice changes nothing more |
| Segment.IndexKeepsText | crates/search/src/segment.rs:30-44 | nothing but white space is added |
| Segment.PlainUnchanged | crates/search/src/segment.rs:30-44 | text without ideographs is indexed as it stands |
| Segment.StretchTokens | crates/search/src/segment.rs:9-15 | a stretch of Han characters keeps its tokens as a contiguous run |
| Segment.HanPhraseFound | crates/search/src/segment.rs:9-15 | a Han query matches a column if and only if the column's text holds it, white space between characters aside |
| Segment.QueryPhraseReadsBack | crates/search/src/segment.rs:46-52 | the quoted phrase reads as the segmented term, operators and quotes included |
| SearchIndex.SensitiveStaysOut | crates/search/src/index.rs:127-156 | a sensitive snippet's body, trigger, folder and language never reach its index row |
| SearchIndex.EntryFinds | crates/search/src/index.rs:127-160 | a Han query hits a column of a live snippet's row if and only if the snippet's own text holds it, white space aside: title, description and each tag always, body, trigger, language and folder name unless it is sensitive |
| SearchIndex.SyncedSearchable | crates/search/src/index.rs:57-77 | after a synchronisation the table holds such a row for the snippet, or none when it is missing or in the recycle bin |
| SearchIndex.MirrorsSearchable | crates/search/src/index.rs:92-109 | so it does for every snippet when it mirrors the library, as after a rebuild |
| SearchIndex.SyncEffect | crates/search/src/index.rs:57-77 | the row the table holds for the snippet is its entry, and no other moves; what an entry finds is in `EntryFinds` |
| SearchIndex.TouchedSuffices | crates/search/src/index.rs:53-56 | re-indexing the touched snippets suffices if and only if no other entry changed |
| SearchIndex.RebuildMirrors | crates/search/src/index.rs:95-109 | a rebuild mirrors the library, and so finds every snippet by its own words (`MirrorsSearchable`) |
| SearchIndex.MirrorsIsRebuild | crates/search/src/index.rs:92-109 | the index mirrors the library if and only if it holds the rows a rebuild would write |
| LibraryUse.UseCaseMirrors | crates/host-service/src/service.rs:104-2012 | after a use case the index is a mirror again if and only if it did not rename or delete a tag in use |
| LibraryUse.RenameKeepsEntries | crates/host-service/src/service.rs:857-863 | renaming a tag changes no entry if and only if no live snippet carries it or the names are indexed alike |
| LibraryUse.TagDeleteKeepsEntries | crates/host-service/src/service.rs:865-871 | deleting a tag changes no entry if and only if no live snippet carries it |
| LibraryUse.TagChangeGoesStale | crates/host-service/src/service.rs:857-871 | a library whose freshly rebuilt index is stale after its tag is renamed or deleted |
| LibraryUse.OthersKept | crates/host-service/src/service.rs:104-2012 | every other use case changes only the entries it re-indexes |
| LibraryUse.ImportUseCase | crates/host-service/src/service.rs:1283-1313 | an import changes only the entries it inserted |
| LibraryUse.ResolveUseCase | crates/host-service/src/service.rs:1954-2012 | resolving a conflict pair changes only the entries it re-indexes, also when its second step fails |
| LibraryUse.FolderUseCase | crates/host-service/src/service.rs:757-829 | a folder's name reaches the entries of its own snippets only |
| LibraryUse.OutcomeKeepsValid | crates/core/migrations/0001_initial_schema.up.sql:4-59 | every use case keeps keys unique and references resolved |
| LibraryUse.UpdateKeepsForest | crates/core/src/repo/folder_repo.rs:55-81 | moving a folder never closes a circle |
| LibraryUse.RunsMirror | crates/search/src/index.rs:53-109 | over every run of harmless use cases the maintained index is what a rebuild would give |
| LibraryUse.UseCaseSeen | crates/host-service/src/service.rs:104-2012 | which snippets a search can come upon after a use case and with which words: trashed, deleted and reset ones are gone, restored ones back, a resolved copy stays only when both are kept, and no use case hides any other |
| LibraryUse.UseCaseFiles | crates/host-service/src/service.rs:667-871 | exactly the named snippets move or get the tag, deleting a folder unfiles exactly the snippets of its subtree, renaming a folder or a tag gives it the new name, and a deleted tag is on no snippet |
| LibraryUse.DrainPages | crates/host-service/src/service.rs:1325-1340 | bounded pages add up to the whole listing |
| LibraryUse.Host.SyncSnippet | crates/search/src/index.rs:57-77 | deletes the row and inserts the current one: the snippet is afterwards found by its own words, or not at all |
| LibraryUse.Host.Rebuild | crates/search/src/index.rs:92-109 | afterwards the index mirrors the library, every live snippet is found by its own words, and the count is its size |
| LibraryUse.Host.ReindexSnippets | crates/host-service/src/service.rs:2014-2023 | the given snippets one after the other |
| LibraryUse.Host.SubtreeIds | crates/host-service/src/service.rs:734-755 | the stack walk ends and returns exactly the live snippets of the subtree |
| LibraryUse.Host.FolderUpdate | crates/host-service/src/service.rs:777-812 | keeps the mirror through a rename, and refuses exactly what the tables refuse |
| LibraryUse.Host.FolderDelete | crates/host-service/src/service.rs:816-829 | keeps the mirror through the cascade |
| EspansoYaml.CompileSnippets | crates/espanso-adapter/src/compile.rs:58-70 | fails exactly on a blank trigger of an eligible snippet, naming the first; otherwise writes the eligible snippets' matches |
| EspansoYaml.QuoteScalar | crates/espanso-adapter/src/compile.rs:178-196 | the loop writes the escaped scalar |
| EspansoYaml.EmitYaml | crates/espanso-adapter/src/compile.rs:147-173 | the loop writes the document |
| EspansoYaml.QuotedReadsBack | crates/espanso-adapter/src/compile.rs:175-196 | every string reads back by sections 5.7 and 7.3.1 of YAML 1.2.2, wherever it stands |
| EspansoYaml.DocumentReadsBack | crates/espanso-adapter/src/compile.rs:147-173 | the file reads back as its matches, in order, with kind, text, replacement and word flag |
| EspansoYaml.IneligibleIsInvisible | crates/espanso-adapter/src/compile.rs:99-140 | adding, removing or changing an ineligible snippet changes no byte |
| EspansoYaml.FileHoldsOnlyEligible | crates/espanso-adapter/src/compile.rs:9-12 | read back, the file lists, in snippet order, one match for each enabled snippet of normal security with a readable body, a trigger and a mode, with the kind and word flag of that mode, and nothing else |
| Frames.Reader.ReadFrame | apps/browser-host/src/protocol.rs:39-55 | what is read and what is left, for every stream |
| Frames.Writer.WriteFrame | apps/browser-host/src/protocol.rs:58-65 | appends the length and at most the cap of the payload |
| Frames.SentIsReceived | apps/browser-host/src/protocol.rs:39-55 | any whole frame is received as itself or dropped whole, and the next read starts behind it |
| Frames.ReadInvertsWrite | apps/browser-host/src/protocol.rs:39-65 | reading inverts writing up to the cap |
| Frames.PrefixOnWire | apps/browser-host/src/protocol.rs:58-65 | the length is four bytes, lowest first |
| Frames.Serve | apps/browser-host/src/main.rs:45-68 | the loop ends on every stream and writes one reply per frame read |
| Frames.StreamStaysAligned | apps/browser-host/src/main.rs:44-68 | for any frames, oversized ones included, exactly one reply each, in order, from that frame and the store alone |
| Frames.RepliesReadBack | apps/browser-host/src/protocol.rs:39-65 | the browser reads back exactly the replies within its cap |

## Left out

- Cryptography: sealing, opening, signing, fingerprints and key wrapping are arbitrary functions; opening what was sealed gives the document back.
- Sealing, delivery and checking of key updates, pairing and recovery: their effect is an access that may differ from step to step, with a second verifier that may accept.
- Reopening this device's own records when they are acknowledged: a failure there rolls the acknowledgement back, which is an answer that never comes.
- JSON text, canonical bytes and base64: a document is a map from field names to values, a directory row carries its parsed chain or the parse error.
- Transport: tokens, retries, backoff and network failures; a failed request is an answer that never comes.
- Writes that fall inside a round, between its push and its pull: they are ordinary steps of a run (`RunsKeepBasis`, `SafeRunsKeepBasis`), not of `SyncRound`.
- Request validation and size limits of the server beyond the push rule.
- Reading a row back as the document that was applied is assumed: an update leaves a folder's and a tag's creation time and a rule's snippet alone, and the documents of one entity are taken to agree on them. Version history is not modelled in the sync rows.
- Table acceptance of a document or deletion is an arbitrary predicate instead of the SQL constraints.
- Malformed link ids, app-rule evaluation and template rendering.
- WebDAV sync and the contents of backup documents; restoring one appears only as a write of all its rows.
- SyncEngine.Engine.SyncRound: what key updates, directory and recovery marker yield is a parameter, one access for each cycle; how they yield it is not modelled.
- SyncEngine.Engine.PushAll: termination is proved against the modelled server only, because against an arbitrary one it does not hold (item 4 above); that server answers at once, and late and lost answers are in `SyncConverge`.
- SyncConverge.RunsKeepSystem: a device pulls and retries only when no answer is missing, because the engine does so only after a push that ran to its end; before that an older record could still be acknowledged over a newer shadow.
- SyncConverge.QuietDevicesConverge: says nothing of an entity of which a device has given up on the newest record, because such a device need not agree.
- Supervisor.EngineSupervisor.Start: does not model directory preparation, the pid file, residue clean-up and the 64-bit wrap of the generation counter; nothing is claimed about the number of processes alive.
- Quantize.ScoreIsCosine: is over the reals with an exact square root, because single-precision rounding is not modelled.
- VectorIndex.Index.TopK: the library sort is modelled as an insertion sort; scores are reals, so no value is unordered.
- SearchIndex.TouchedSuffices: index writes are assumed to succeed once the library write has committed.
- LibraryUse.UseCaseMirrors: pulled sync records are excluded; what the host re-indexes after a pull is what the report names (item 12 above). The order in which tag names are concatenated is not modelled, so a phrase that runs from one tag name into the next is not either.
- SearchIndex.EntryFinds: queries of Han characters only; how the tokenizer folds and splits other words is not modelled.
- LibraryUse.Host.FolderDelete: the cascade of the tables is one step.
- Frames.Serve: read and write errors other than a stream that ends inside a payload are not modelled; a payload beyond the outbound cap is cut, as in a release build.
- EspansoYaml.DocumentReadsBack: reads the block layout this writer uses, not all of YAML.
- Desktop, mobile and browser interfaces, platform services, model loading and build scripts.
