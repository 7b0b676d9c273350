# Verified model of the material upload system

A Mac keeps a library of uploaded materials; phones send files to it over WebRTC sessions that may
be lost at any moment. This project models the parts of that system whose correctness depends on the
order of separate effects, and proves what every run of them keeps.

**The material library.** `LibraryDisk` is everything that survives a restart: the SQLite rows, the
files with their synced and unsynced bytes, the manifests and the free space. `LibrarySteps` cuts the
asynchronous operations (append, complete, cancel, reconcile) at every await; `LibraryWorld` interleaves
them over many uploads with creations, failed operations, power losses that tear unsynced bytes, and
outside changes to files. Five invariants are proved over all its runs: of the tables (`LibraryRows`),
of each upload's state sequence (`LibraryStates`), of the files (`LibraryFiles`), of publication
(`LibraryPublication`) and of free space (`LibraryCapacity`). `LibraryRecovery` and `LibraryReconcile`
prove that reconciliation completes, loses nothing and is idempotent; `LibraryReconcileRun` that it is
itself such a run, and `LibraryRace` that two uploads of one content do race to their publication.
`LibraryVerdict` says what each reconciliation and completion reports for what it finds, files changed from
outside included, and `LibraryTransfer` how an upload leaves transfer.

In those runs a file that is created, renamed or unlinked has its new name for good. The
`LibraryDirectory` modules drop that: entries, those of made directories included, are visible at once and
durable later, and a power loss may take back any that have not reached the disk. `LibraryDirectory` is the machine, over the same library;
`LibraryDirectoryLoss` and `LibraryDirectoryRun` prove exactly which losses the file invariant survives,
`LibraryDirectoryTrust` and `LibraryDirectoryKeeps` exactly when a published file or an acknowledged chunk
is there for good, `LibraryDirectorySpace` what losses do to the free space, `LibraryDirectoryRisk` exactly
when the storage promise survives them, and `LibraryDirectoryRecovery` that every run of the library is one
of these runs.

`SqliteMaterialLibrary` has the library in the form the server runs it, a store, a volume and the
operations composed from them, each proved equal to the machine's steps run alone.
`ChunkPacking`, `UploadGuards` and `UploadAdmission` hold the arithmetic all this rests on.

**A transfer from end to end.** `ChunkSender` is the phone's loop and its resume position, `TransferTable`
the chunk table it builds, `TransferSession` the machine of phone, sessions and library together, with
work of closed sessions still queued on the Mac. `TransferSafety`, `TransferSteps` and `TransferRun`
prove that the sender is never refused and that what completion finds is the file. `IncomingUploadReceiver`
is the Mac's handler object, `TransferLoop` ties it and the phone's loop to the machine, `DataChunkPacket`
is the binary frame with its buffer loops, and `AuthorizationPayload` the bytes a phone signs.

**Schedulers and registries.** `OperationQueues` (per-upload and creation queues), `ConcurrentTaskQueue`,
`TransferControlInbox`, `MobileState` (serialized read-modify-write), `UploadSessions` with
`UploadTransferService` (session replacement), `NativeUploadQueue` (the Rust queue and its bindings) and
`NativeCloseFrames` (its close frames, interrupted) are small-step systems over promise callbacks or faults,
with the objects that take the steps.

SHA-256 is a parameter, so the theorems hold for any function; only the last clause of
`TransferRun.ConfirmedFileIsPublished` speaks of collisions. Fresh identifiers, the free bytes of the
volume, the length of each write and the moment of each failure are parameters as well.

Where the code does less than one might expect, that is stated as it is, with the exact condition and a
run that shows it.

- Recovery takes a blob file without a staging file for a finished rename and syncs nothing. If the rename
  had not reached the disk, a power loss leaves a ready upload without its file
  (`LibraryDirectoryRecovery.ReadyUploadLosesItsFile`, exactly when:
  `LibraryDirectoryKeeps.PublishedFileStaysIff` and `LibraryDirectoryTrust.LibraryKeepsTrustIff`).
- The directory made for a prefix of hashes, and `blobs` and `.staging` themselves, are never synced, so even
  an ordinary publication can go with its directory (`LibraryDirectoryRecovery.OrdinaryPublicationIsLost`,
  exactly when: `LibraryDirectoryKeeps.SightedPublishedFilesStayIff`).
- The creation of a staging file is never synced, so acknowledged chunks can go with its name
  (`LibraryDirectoryRecovery.AcknowledgedChunkIsLost`, `LibraryDirectoryKeeps.ChunksSurviveIff`); nor is an
  unlink, so freed space can return (`LibraryDirectorySpace.AdmittedUploadFindsNoSpace`,
  `LibraryDirectoryRisk.CapacitySurvivesIff`, `LibraryDirectoryRisk.AdmissionStaysCoveredIff`).
- A completion that loses a race for its hash ends in a constraint error and waits for the next
  reconciliation (`LibraryRace.SecondPublicationFails`, `LibraryRace.PublicationFailsIff`,
  `LibraryReconcile.LostRaceKeepsPublication`).
- A native queue operation that reported failure may still surface after a restart
  (`NativeUploadQueue.FailedMutationSurfacesIff`), and what a process restart shows may be undone by a later
  power loss (`NativeUploadQueue.RestartShowsWhatPowerLossUndoes`, `NativeUploadQueue.RestartShowsDurableIff`,
  `NativeUploadQueue.FinalStatesAreFinal`).
- Of two overlapping close frames of one session the second may remove a binding made in between
  (`NativeCloseFrames.OverlappingFramesUnbindAnother`, `NativeCloseFrames.FramesRemoveTheirOwnIff`).
- The signaling gateway may hold the connection of a session that was replaced
  (`UploadSessions.ClosedSessionMayStayConnected`, `UploadSessions.EndedSessionMayConnectIff`).
- A second wait on the phone's inbox loses the first (`TransferControlInbox.DisplacedWaitIsLost`,
  `TransferControlInbox.EveryOtherWaitIsSettledIff`).
- Texts with unpaired surrogates can share an authorization payload
  (`AuthorizationPayload.UnpairedSurrogatesCollide`, `AuthorizationPayload.PayloadEquality`).

`dafny verify dfyconfig.toml` checks the whole project.

## Model

| member | source | states |
|---|---|---|
| ChunkPacking.TotalMeasuresCoverage | apps/server/src/uploads/material-upload-commit.ts:27-32 | For chunks that lie inside [0, expected] and never overlap, the running total never passes the expected size and equals it exactly when every byte position is covered: the size-only test at completion is a coverage test. |
| ChunkPacking.FilledCount | apps/server/src/uploads/material-upload-guards.ts:11-30 | The total of the recorded sizes is the number of distinct byte positions filled. |
| UploadGuards.FindChunk | apps/server/src/uploads/sqlite-material-library.ts:259-262 | The duplicate lookup finds a recorded chunk of that index, and finds none only when there is none. |
| UploadGuards.AcceptedStaysPacked | apps/server/src/uploads/material-upload-guards.ts:11-30 | A chunk the guards accept keeps the table packed and its indices distinct, in any arrival order. |
| UploadGuards.AcceptedIffStillPacked | apps/server/src/uploads/material-upload-guards.ts:11-58 | A chunk with a true checksum is accepted if and only if the table stays packed with it, its index is new and its end is addressable. |
| UploadGuards.VerdictsAreExact | apps/server/src/uploads/sqlite-material-library.ts:253-267 | Each verdict holds exactly for what it names, in the order of the checks: state, checksum, replay of a recorded chunk, another chunk under its index, a range that would not stay packed, an end past the addressable range. |
| UploadAdmission.AssessAdmission | packages/domain/src/upload-admission.ts:19-35 | An upload is admitted exactly when its size and everything reserved fit in the available bytes; the reservation is its size. |
| Bytes.Overlay | apps/server/src/uploads/material-layout.ts:137-167 | The bytes of a file after a positioned write: the data in its range, the old bytes elsewhere, zeros in a gap. |
| Bytes.OverlayAppend | apps/server/src/uploads/material-layout.ts:151-162 | Two adjacent short writes are one write of both pieces. |
| MaterialFiles.TornKeepsHeld | apps/server/src/uploads/material-layout.ts:163 | A range that was synced keeps its bytes over a power loss that tears everything unsynced. |
| MaterialFiles.StableSurvivesCrash | apps/server/src/uploads/material-layout.ts:163 | A fully synced file is byte for byte the same after a power loss. |
| MaterialFiles.WriteKeepsHeld | apps/server/src/uploads/material-layout.ts:152-157 | A write beside a synced range leaves it synced and unchanged. |
| LibraryRows.ApplyRows | apps/server/src/uploads/material-library-schema.ts:7-10 | Every event of interleaved creates, appends, completes, cancels and reconciles, with failures, crashes and outside changes to files, keeps the tables consistent: packed chunks, counters, one reference per ready upload, blob rows at their own path. |
| LibraryRows.RunKeepsRows | apps/server/src/uploads/material-library-store.ts:119-190 | The same over every run, of any length, from any consistent state. |
| LibraryRows.AdvanceRows | apps/server/src/uploads/material-upload-commit.ts:22-149 | Each step of an operation changes only its own upload's row and leaves the operation at a point its row allows. |
| LibraryStates.LeadsFollowsEdges | apps/server/src/uploads/material-upload-commit.ts:118-149 | The reachability relation between states is exactly the closure of the single-step graph. |
| LibraryStates.ApplyMoves | apps/server/src/uploads/material-library-store.ts:291-297 | Although the state update is unguarded, every event moves a row at most one edge of the graph, keeps its identity and only appends to its chunks. |
| LibraryStates.RunMoves | apps/server/src/uploads/sqlite-material-library.ts:121-137 | Over every run an upload's state sequence is a path of the graph with absorbing ends, rows are never deleted, and acknowledged chunks and counters never regress. |
| LibraryStates.NewRowsTransfer | apps/server/src/uploads/material-library-store.ts:91-105 | A row that appears starts in transfer with no chunks, epoch zero and zero received bytes. |
| LibraryStates.ReadyIffOneReference | apps/server/src/uploads/material-library-store.ts:154-190 | In every run an upload is ready if and only if a reference names it, never more than one does, the reference carries its hash and target, and its blob row exists at the hash's path. |
| LibraryStates.CountersMeasureCoverage | apps/server/src/uploads/material-library-store.ts:119-152 | In every run the epoch counts the chunk rows, the received bytes are their total and at most the expected size, and reach it exactly when every byte is covered. |
| LibraryFiles.FullStagingIsStable | apps/server/src/uploads/material-upload-commit.ts:27-38 | When the running total reaches the expected size, the staging file has exactly that length and every byte is synced. |
| LibraryFiles.ApplyFiles | apps/server/src/uploads/material-layout.ts:137-167 | Every event without outside changes keeps the files: recorded chunks synced and true to their checksums, blobs true to their names, no verified upload without its bytes. |
| LibraryFiles.RunKeepsFiles | apps/server/src/uploads/material-upload-commit.ts:22-116 | The same over every run, crashes at any step included. |
| LibraryFiles.PublishedBlobsAreSound | apps/server/src/uploads/material-upload-commit.ts:91-116 | In every untampered run whose directory entries reach the disk, every file under a blob path hashes to its name and is synced, every blob row has its file, and a ready upload has both. Runs with lost entries: `LibraryDirectoryRun.SpareRunsKeepBlobs`. |
| LibraryFiles.AcknowledgedChunksAreDurable | apps/server/src/uploads/sqlite-material-library.ts:253-286 | In every such run each recorded chunk of an upload in transfer is on stable storage and hashes to its checksum, short writes and crashes between write and row notwithstanding. Exactly when its file keeps its name: `LibraryDirectoryKeeps.ChunksSurviveIff`. |
| LibraryPublication.ApplyDestined | apps/server/src/uploads/material-upload-commit.ts:54-89 | An upload staged with the right bytes, or further on, can only move towards ready: no event marks it in error. |
| LibraryPublication.RunKeepsDestined | apps/server/src/uploads/material-library-recovery.ts:72-140 | The same over every untampered run. |
| LibraryRecovery.AdvanceRanks | apps/server/src/uploads/material-library-recovery.ts:33-140 | Every operation ends: each step lowers a rank. |
| LibraryRecovery.DriveSound | apps/server/src/uploads/material-library-recovery.ts:33-70 | An operation run alone from a sound disk leaves a sound disk and touches only its own upload. |
| LibraryRecovery.DrivePublishes | apps/server/src/uploads/material-library-recovery.ts:72-140 | From every point a destined upload can stop at, the operation run to its end publishes it with its manifest saved. |
| LibraryReconcile.MismatchedStaged | apps/server/src/uploads/material-library-recovery.ts:81-85 | A staged upload with other bytes is marked in error, its manifest saved and nothing else changed. |
| LibraryReconcile.QuietReconcile | apps/server/src/uploads/material-library-recovery.ts:40-63 | Uploads in transfer or in a final state only get their manifest, and a cancelled one loses its staging file. |
| LibraryReconcile.ReconcileOne | apps/server/src/uploads/material-library-recovery.ts:33-70 | One reconciliation never throws on a sound disk and takes the upload to its resolved state, settled. |
| LibraryReconcile.ReconcileCompletes | apps/server/src/uploads/material-library-recovery.ts:24-31 | Reconciling any list of uploads completes and takes each to its resolved state with its manifest equal to row and chunks, however many share one hash; others are untouched. |
| LibraryReconcile.ReconcileIsIdempotent | apps/server/src/uploads/material-library-recovery.ts:24-140 | A second reconciliation changes no row, file or manifest. |
| LibraryReconcile.RecoveryLosesNothing | apps/server/src/uploads/material-library-recovery.ts:24-140 | After any untampered run whose directory entries reach the disk, wherever crashes stopped it, the next reconciliation completes, leaves every upload in transfer, ready, in error or cancelled, and makes ready exactly the uploads whose bytes were staged and hash as expected. Runs with lost entries: `LibraryDirectoryRun.SpareRunsRecover`. |
| LibraryReconcile.LostRaceKeepsPublication | apps/server/src/uploads/material-upload-commit.ts:104-108 | When the second of two uploads of one hash comes to insert the blob row, the transaction violates the primary key and changes nothing, and the upload stays committed and destined for ready. |
| LibraryVerdict.ReconciledIs | apps/server/src/uploads/material-library-recovery.ts:33-140 | On any disk the reconciliation of one upload, cut at its awaits, is the recovery code in one piece, branch by branch. |
| LibraryVerdict.ReconcileFindings | apps/server/src/uploads/material-library-recovery.ts:33-140 | On any files under consistent tables it never throws, and each outcome, every error reason among them, is reported exactly for what was found: a missing staging file, a missing or wrong blob, wrong staged bytes; a failure is recorded and a publication has its row, reference and blob. |
| LibraryVerdict.ReconcileInOrder | apps/server/src/uploads/material-library-recovery.ts:24-31 | The loop takes uploads from the front and stops at the first that throws. |
| LibraryVerdict.AnyRunReconciles | apps/server/src/uploads/material-library-recovery.ts:24-140 | After every run, outside changes to files included, the next reconciliation completes, loses no row and leaves each upload in transfer or in a final state with its manifest equal to row and chunks. |
| LibraryVerdict.CompletedMeans | apps/server/src/uploads/material-upload-commit.ts:38-128 | Whatever the disk: what follows a full completion ends published, with the upload ready and the reference it reports, or failed with the error recorded and never as incomplete, or thrown. |
| LibraryVerdict.CompletionEndsAsRecovery | apps/server/src/uploads/material-upload-commit.ts:33-51 | A full completion whose staging file is there ends, on any disk, as the reconciliation of the upload it has just staged would, with the same outcome and reason. |
| LibraryTransfer.TransferEndsExactly | apps/server/src/uploads/material-upload-commit.ts:22-38 | Without outside changes an upload in transfer is staged exactly by a completion that finds every byte received, cancelled exactly by a cancel, and otherwise stays in transfer; no step marks it in error. |
| LibraryTransfer.TransferNeverErrs | apps/server/src/uploads/sqlite-material-library.ts:288-310 | The same at every step of every untampered run from an empty library whose directory entries reach the disk. |
| LibraryTransfer.PrematureCompletionIsHarmless | apps/server/src/uploads/material-upload-commit.ts:27-32 | A completion that comes early ends as incomplete and changes nothing, so every missing chunk is judged as before. |
| LibraryRace.PublicationFailsIff | apps/server/src/uploads/material-library-store.ts:154-190 | The publishing transaction fails if and only if it means to insert a blob row that is there, or the drawn reference identifier is taken. |
| LibraryRace.CreateRun | apps/server/src/uploads/sqlite-material-library.ts:221-251 | From any library with room, a creation is a legal run of the machine that leaves a new row in transfer with an empty staging file, and everything of other uploads as it was. |
| LibraryRace.AppendRun | apps/server/src/uploads/sqlite-material-library.ts:253-286 | Receiving the whole content in one chunk is a legal run that fills the staging file, raises the counters, takes exactly its length of the free bytes and touches no other upload. |
| LibraryRace.CompleteRun | apps/server/src/uploads/material-upload-commit.ts:22-108 | Completing an upload whose bytes are all there is a legal run up to the publishing transaction, with the other uploads untouched. |
| LibraryRace.RacingUploadsCollide | apps/server/src/uploads/material-upload-commit.ts:54-108 | The race happens: from an empty library with room for both, two uploads of one content completed side by side reach the point where one is ready and the other is about to insert the blob row that is there. |
| LibraryRace.SecondPublicationFails | apps/server/src/uploads/material-upload-commit.ts:104-108 | And there the second transaction fails, whatever identifier it draws. |
| LibraryReconcileRun.DriveIsRun | apps/server/src/uploads/material-library-recovery.ts:33-70 | An operation run alone is a legal run of the interleaved machine with the same result. |
| LibraryReconcileRun.ReconcileIsRun | apps/server/src/uploads/material-library-recovery.ts:24-31 | The whole reconciliation is such a run too, so the invariants of runs hold at each of its steps. |
| LibraryCapacity.ApplyCapacity | apps/server/src/uploads/sqlite-material-library.ts:221-251 | Every event keeps the outstanding promise of admitted uploads within the free bytes, although the reservation is read before an await. |
| LibraryCapacity.RunKeepsCapacity | apps/server/src/uploads/upload-operation-queue.ts:4-15 | The same over every untampered run with one creation at a time. |
| LibraryCapacity.CapacityHolds | apps/server/src/uploads/material-library-store.ts:271-281 | In every run from an empty library whose directory entries reach the disk, the expected sizes less the distinct bytes already written, summed over uploads in transfer, are at most the free bytes. Runs with lost entries: `LibraryDirectoryRisk.CapacitySurvivesIff`. |
| LibraryDirectory.StepKeepsFolders | apps/server/src/uploads/material-layout.ts:50-67 | Every step keeps the directories: each file has the ones above it, pending ones exist, the layout is there while the server runs, and with `.staging` gone nothing returns to it. |
| LibraryDirectory.StepKeepsClothed | apps/server/src/uploads/material-layout.ts:112-119 | No event, synced entry, power loss or lost entry takes the file from a blob path whose pending renames all found a file there before them and whose directories have reached the disk. |
| LibraryDirectory.ClothedStays | apps/server/src/uploads/material-layout.ts:112-119 | The same over every continuation. |
| LibraryDirectoryLoss.StepKeepsTrack | apps/server/src/uploads/material-layout.ts:112-135 | Every step keeps the record of pending entries true: renames of verified uploads whose staging name is gone, unlinks of cancelled uploads or of copies, what lies below a rename a sound blob, and the directories as above. |
| LibraryDirectoryLoss.LossKeepsFilesIff | apps/server/src/uploads/material-layout.ts:95-135 | Exactly which lost entries the library survives: taking one back keeps every fact about files if and only if it is spare (the staging file is not needed, the rename had a file below it or nobody relies on the path, nobody relies on a file in the directory; an unlink always is). |
| LibraryDirectoryRun.LibraryKeepsFilesIff | apps/server/src/uploads/material-library-recovery.ts:24-140 | Over every run from an empty library, with power losses taking back any pending entries, the file invariant holds throughout if and only if every entry taken back was spare. |
| LibraryDirectoryRun.SpareRunsRecover | apps/server/src/uploads/material-library-recovery.ts:24-140 | After any such run with spare losses the next reconciliation completes, settles every upload and makes ready exactly those whose bytes were staged and hash as expected. |
| LibraryDirectoryRun.SpareRunsKeepBlobs | apps/server/src/uploads/material-upload-commit.ts:91-116 | In any such run every blob file hashes to its name, every blob row has its file and a ready upload has both. |
| LibraryDirectoryTrust.StepKeepsTrustIff | apps/server/src/uploads/material-library-recovery.ts:108-123 | Which steps keep the files and leave no committed or ready upload on a rename over an empty path that has not reached the disk: all but a recovery that takes up such a file, the loss of a staging file some upload still needs, and that of a directory with a file relied on. |
| LibraryDirectoryTrust.LibraryKeepsTrustIff | apps/server/src/uploads/material-library-recovery.ts:93-124 | The same, as an equivalence, over every run from an empty library. |
| LibraryDirectoryKeeps.PublishedFileStaysIff | apps/server/src/uploads/material-layout.ts:116-118 | A committed or ready upload keeps its file through every continuation, any number of power losses included, if and only if no pending rename put the file on an empty path and the directories above it have reached the disk. |
| LibraryDirectoryKeeps.SightedPublishedFilesStayIff | apps/server/src/uploads/material-upload-commit.ts:83-89 | So in a run without such a recovery or loss every committed or ready upload keeps its file for good if and only if `blobs` and the directory of its prefix have reached the disk; no step of the library waits for either. |
| LibraryDirectoryKeeps.ChunksSurviveIff | apps/server/src/uploads/material-layout.ts:95-98 | The acknowledged chunks of an upload in transfer survive every power loss, whatever entries it takes back, if and only if the creations of its staging file and of `.staging` have reached the disk; no step of the library waits for that. |
| LibraryDirectoryRecovery.LibraryRunsAreVolumeRuns | apps/server/src/uploads/material-layout.ts:112-119 | Every untampered run of the library, crashes included, is a run over directory entries in which they reach the disk in time. |
| LibraryDirectoryRecovery.RecoveryPublishesBlindly | apps/server/src/uploads/material-library-recovery.ts:108-123 | From the turn that renames: when the operation ends before its directory sync, the next reconciliation publishes the upload although the rename has not reached the disk. |
| LibraryDirectoryRecovery.ReadyUploadLosesItsFile | apps/server/src/uploads/material-library-recovery.ts:108-123 | The failing run, from an empty library with room for the content: such a publication followed by a power loss leaves a ready upload and a blob row without the file. |
| LibraryDirectoryRecovery.OrdinaryPublicationIsLost | apps/server/src/uploads/material-layout.ts:116-118 | The failing run without any failure or recovery, from an empty library with room and a durable layout: the upload is received, completed, its rename synced, and published; a power loss takes the directory made for its prefix, and the ready upload has no file. |
| LibraryDirectoryRecovery.AcknowledgedChunkIsLost | apps/server/src/uploads/material-layout.ts:95-98 | The failing run: every byte of an upload is acknowledged, and a power loss takes back the name of its staging file. |
| LibraryDirectorySpace.LossTakes | apps/server/src/uploads/material-layout.ts:112-135 | Each lost entry changes the bytes free of claims by exactly the storage that comes back, or that lost staging files give up with their claims. |
| LibraryDirectoryRisk.LossKeepsBalance | apps/server/src/uploads/material-layout.ts:112-135 | What a lost unlink or rename takes from the slack is exactly what it had at risk; a lost creation or directory takes nothing. |
| LibraryDirectoryRisk.CapacitySurvivesIff | apps/server/src/uploads/sqlite-material-library.ts:221-251 | At every moment: what admitted uploads still have to write fits after every power loss and every set of entries it takes back, if and only if the files of all pending unlinks and below all pending renames fit in the slack there is now. |
| LibraryDirectoryRisk.AdmissionStaysCoveredIff | apps/server/src/uploads/sqlite-material-library.ts:221-251 | An approved creation leaves a library whose promise survives every power loss if and only if its size and everything at risk fit together in the slack; with nothing at risk every admission does. |
| LibraryDirectorySpace.AdmittedUploadFindsNoSpace | apps/server/src/uploads/material-layout.ts:133-135 | The failing run: an upload admitted on the space of a cancelled one finds none when a power loss takes the unlink back. |
| LibraryCapacity.AdmittedUploadsNeverRunOutOfSpace | apps/server/src/uploads/sqlite-material-library.ts:225-232 | No step of a running operation ever needs more space than is free. |
| SqliteMaterialLibrary.MaterialLibraryStore.CreateUploadRecord | apps/server/src/uploads/material-library-store.ts:91-105 | The row and its empty chunk list are inserted, and nothing else; a taken identifier changes nothing. |
| SqliteMaterialLibrary.MaterialLibraryStore.PersistChunk | apps/server/src/uploads/material-library-store.ts:119-152 | One transaction appends the chunk and raises both counters, which are what is acknowledged; an unknown upload or a taken chunk index changes nothing. |
| SqliteMaterialLibrary.MaterialLibraryStore.CreateReadyReference | apps/server/src/uploads/material-library-store.ts:154-190 | The transaction commits exactly when no key or unique column is violated, and then inserts blob and reference and marks the upload ready; otherwise nothing changes. |
| SqliteMaterialLibrary.MaterialLibraryStore.ReservedUploadBytes | apps/server/src/uploads/material-library-store.ts:271-281 | The fold returns the expected sizes of all uploads in transfer, added up. |
| SqliteMaterialLibrary.MaterialVolume.EnsureEmptyStagingFile | apps/server/src/uploads/material-layout.ts:95-98 | Creates an empty synced file, and fails without effect when one exists. |
| SqliteMaterialLibrary.MaterialVolume.MoveFileWithinMaterialRoot | apps/server/src/uploads/material-layout.ts:112-119 | The file changes its path, replacing what was there and freeing its space; a missing source changes nothing. When the rename becomes durable is the subject of `LibraryDirectory`. |
| SqliteMaterialLibrary.MaterialVolume.RemoveStagingFile | apps/server/src/uploads/material-layout.ts:133-135 | The file is gone and its space free; a missing file is no error. |
| SqliteMaterialLibrary.MaterialVolume.WriteSome | apps/server/src/uploads/material-layout.ts:152-157 | A write may be short; what it wrote is a prefix of the data at the position given. |
| SqliteMaterialLibrary.MaterialVolume.WriteChunkAtOffset | apps/server/src/uploads/material-layout.ts:137-167 | The loop over short writes ends in exactly one synced write of all the bytes; an end past the addressable range or a missing file changes nothing, and a write of nothing stops it with an error. |
| SqliteMaterialLibrary.Library.CreateUpload | apps/server/src/uploads/sqlite-material-library.ts:221-251 | Rejected for space, rejected for an existing staging file, or staging file, row and manifest created; both rejections change nothing. |
| SqliteMaterialLibrary.Library.PersistUploadManifest | apps/server/src/uploads/material-manifest.ts:14-25 | The manifest becomes the upload's row and chunks; files and free space stay as they are. |
| SqliteMaterialLibrary.Library.UpdateStateAndPersist | apps/server/src/uploads/material-upload-commit.ts:130-149 | The row takes the state and the manifest follows; chunks, files and everything else stay. |
| SqliteMaterialLibrary.Library.MarkRecoverableError | apps/server/src/uploads/material-upload-commit.ts:118-128 | Equals the interleaved machine's steps from the same point, run alone. |
| SqliteMaterialLibrary.Library.FinishCommittedUpload | apps/server/src/uploads/material-upload-commit.ts:91-116 | Equals the machine's steps from the probe of the final blob, run alone, aborted insert included. |
| SqliteMaterialLibrary.Library.CommitHashVerifiedUpload | apps/server/src/uploads/material-upload-commit.ts:54-89 | Equals the machine's steps from the blob lookup, run alone. |
| SqliteMaterialLibrary.Library.VerifyAndCommit | apps/server/src/uploads/material-upload-commit.ts:38-51 | Equals the machine's steps from the hash of the staged file, run alone. |
| SqliteMaterialLibrary.Library.CompleteUpload | apps/server/src/uploads/sqlite-material-library.ts:288-298 | An unknown upload, another state than transfer and an incomplete upload are three errors that change nothing; a full one is staged, mirrored and taken through the recovery's own steps. A failure other than incomplete leaves the error state, a publication a ready row with the reference it reports. |
| SqliteMaterialLibrary.Library.CancelUpload | apps/server/src/uploads/sqlite-material-library.ts:300-310 | Only an upload in transfer is cancelled: its state, its manifest, then its staging file; any other cancel is an error that changes nothing. |
| SqliteMaterialLibrary.Library.AppendChunk | apps/server/src/uploads/sqlite-material-library.ts:253-286 | Unknown uploads and each refusal of the guards draw their own error and change nothing; a replay is acknowledged with the stored counters and nothing written; a fresh chunk is acknowledged only written, synced and recorded, and a failed one leaves at most a proper prefix of its bytes in the staging file. |
| SqliteMaterialLibrary.Library.StoreAccepted | apps/server/src/uploads/sqlite-material-library.ts:268-285 | An accepted chunk is written, synced, recorded and mirrored, and only then acknowledged with the new counters; a missing file changes nothing, and a stalled write leaves a proper prefix of the chunk at its offset and no other change. |
| SqliteMaterialLibrary.Library.RecordWritten | apps/server/src/uploads/sqlite-material-library.ts:273-285 | The chunk row, both counters and the manifest follow from one transaction, and the acknowledgement carries the new counters. |
| SqliteMaterialLibrary.Library.ReconcileOneUpload | apps/server/src/uploads/material-library-recovery.ts:33-70 | Equals the machine's reconciliation of one upload, run alone. |
| SqliteMaterialLibrary.Library.ReconcileVerifiedUpload | apps/server/src/uploads/material-library-recovery.ts:93-124 | Equals the machine's steps from the probe of a verified upload, run alone. |
| SqliteMaterialLibrary.Library.ReconcileCommittedUpload | apps/server/src/uploads/material-library-recovery.ts:126-140 | Equals the machine's steps from the decision on a committed upload, run alone. |
| SqliteMaterialLibrary.Library.ReconcileMaterialLibrary | apps/server/src/uploads/material-library-recovery.ts:24-31 | The loop equals the reconciliation function over all uploads in insertion order, and tells whether it completed. |
| DataChunkPacket.NumberOfBigEndian | packages/contracts/src/transfer-protocol.ts:140-153 | Reading back a big-endian number gives it, for every number that fits the width. |
| DataChunkPacket.BigEndianOfNumber | packages/contracts/src/transfer-protocol.ts:140-153 | Writing what was read gives the same bytes. |
| DataChunkPacket.BigEndianAt | packages/contracts/src/transfer-protocol.ts:148-153 | Byte i is the base-256 digit of its weight, the heaviest first. |
| DataChunkPacket.UnhexHex | packages/contracts/src/transfer-protocol.ts:155-175 | Hexadecimal text of bytes parses to those bytes. |
| DataChunkPacket.HexAt | packages/contracts/src/transfer-protocol.ts:155-161 | Each byte prints as its high digit and then its low one. |
| DataChunkPacket.HexUnhex | packages/contracts/src/transfer-protocol.ts:155-175 | Lower-case hexadecimal text is what its bytes print as. |
| DataChunkPacket.DecodeInvertsEncode | packages/contracts/src/transfer-protocol.ts:94-138 | The frame has its four parts in their places, and decoding it gives the packet, over the full 64-bit ranges. |
| DataChunkPacket.EncodeInvertsDecode | packages/contracts/src/transfer-protocol.ts:94-138 | A frame decodes exactly when it is longer than its 48-byte header, and then it is the encoding of a valid packet, the one decoded. |
| DataChunkPacket.ReadUint64 | packages/contracts/src/transfer-protocol.ts:140-146 | The accumulating loop computes the big-endian value of the eight bytes. |
| DataChunkPacket.WriteUint64 | packages/contracts/src/transfer-protocol.ts:148-153 | The backwards loop stores the value's big-endian bytes and nothing else. |
| DataChunkPacket.BytesToHex | packages/contracts/src/transfer-protocol.ts:155-161 | The loop prints the bytes in hexadecimal. |
| DataChunkPacket.WriteHex | packages/contracts/src/transfer-protocol.ts:163-175 | The loop stores the parsed bytes in their 32 places and nothing else. |
| DataChunkPacket.EncodeDataChunkPacket | packages/contracts/src/transfer-protocol.ts:113-138 | Fails with the first violated check, whose error it names, or returns a new buffer that is the packet's frame. |
| DataChunkPacket.DecodeDataChunkPacket | packages/contracts/src/transfer-protocol.ts:94-110 | Computes the decoding of the input; a frame shorter than its header and an empty payload have their own errors. |
| AuthorizationPayload.ByteLengthCountsUtf8 | apps/server/src/transfers/paired-device-authorization.ts:37 | The byte length counted over UTF-16 code units is the length of the UTF-8 encoding, unpaired surrogates included. |
| AuthorizationPayload.PhoneAndMacAgree | apps/mobile-upload/src/lib/webrtc-transfer-protocol.ts:39-59 | The phone signs and the Mac rebuilds the same bytes. |
| AuthorizationPayload.EncodeScalarsInjective | apps/server/src/transfers/paired-device-authorization.ts:27-39 | UTF-8 loses no scalar value. |
| AuthorizationPayload.ScalarsInjective | apps/server/src/transfers/paired-device-authorization.ts:27-39 | Texts without unpaired surrogates are determined by their scalar values. |
| AuthorizationPayload.ParseInvertsDecimal | apps/server/src/transfers/paired-device-authorization.ts:37 | Every decimal length prefix parses to the length it was printed from. |
| AuthorizationPayload.ReadInvertsFrames | apps/server/src/transfers/paired-device-authorization.ts:27-39 | The reference decoder recovers any fields from their length-delimited frames, whatever bytes they hold. |
| AuthorizationPayload.PayloadIsReadable | apps/server/src/transfers/paired-device-authorization.ts:20-40 | The decoder recovers the UTF-8 bytes of version label, device, session, upload, grant and fingerprint from the payload, in that order, even with digits, colons and bars in them. |
| AuthorizationPayload.PayloadEquality | apps/server/src/transfers/paired-device-authorization.ts:20-40 | Two authorizations have the same payload if and only if their fields hold the same scalar values; without unpaired surrogates, if and only if they are the same. |
| AuthorizationPayload.UnpairedSurrogatesCollide | apps/server/src/transfers/paired-device-authorization.ts:20-40 | On arbitrary strings the encoding is not injective: an unpaired surrogate signs as U+FFFD does. |
| ChunkSender.ResumesAtWholeChunks | apps/mobile-upload/src/lib/webrtc-resume-position.ts:3-21 | A resume position is accepted exactly when the received bytes are a whole number of leading chunks, and the loop continues at the first missing chunk. |
| ChunkSender.SendFrom | apps/mobile-upload/src/lib/webrtc-file-transfer.ts:185-207 | The loop sends consecutive chunks in order; it ends well exactly with every frame acknowledged and the payloads adding up to the rest of the file, and otherwise on a last frame that was not, as a failed connection when no reply came and as a refusal when one did. |
| ChunkSender.TransferChunks | apps/mobile-upload/src/lib/webrtc-file-transfer.ts:165-232 | The same from the Mac's received count; an empty file or a refused position sends nothing. |
| TransferTable.ChunkSurvivesTheWire | apps/mobile-upload/src/lib/webrtc-transfer-protocol.ts:24-37 | A sent chunk is a valid packet and the Mac decodes exactly it. |
| TransferTable.ChunkVerdict | apps/server/src/uploads/sqlite-material-library.ts:256-267 | A chunk of the file at most one past the table is taken if next, recognised if old, and refused only when the upload left transfer. |
| TransferTable.FullPrefix | apps/server/src/uploads/material-upload-commit.ts:27-32 | The running total of a prefix table reaches the file size exactly with the last chunk. |
| TransferTable.PrefixTotal | apps/mobile-upload/src/lib/webrtc-resume-position.ts:3-21 | The received count of a table of k leading chunks is k chunks, cut at the file size. |
| TransferTable.FullStagingIsTheFile | apps/server/src/uploads/material-upload-commit.ts:38 | With every chunk recorded and matching, the staging file is the file that was sent. |
| TransferSteps.ResumeIsAccepted | apps/mobile-upload/src/lib/webrtc-resume-position.ts:8-16 | In every reachable state the reported count is an acceptable resume position. |
| TransferSteps.AckIsExpected | apps/mobile-upload/src/lib/webrtc-file-transfer.ts:222-231 | In every reachable state the acknowledgement on its way is the one the loop insists on. |
| TransferRun.StepKeepsTransfer | apps/server/src/transfers/incoming-upload-receiver.ts:77-99 | Every step of phone, sessions, Mac and the rest of the library keeps the invariant of the transfer. |
| TransferRun.RunKeepsTransfer | apps/mobile-upload/src/lib/webrtc-file-transfer.ts:165-208 | The same over every run with any number of lost sessions, left-over messages, failures and crashes. |
| TransferRun.CreatedUploadIsFresh | apps/server/src/uploads/sqlite-material-library.ts:233-250 | A created upload satisfies everything the first session relies on. |
| TransferRun.InFlightChunksAreExpected | apps/mobile-upload/src/lib/webrtc-file-transfer.ts:185-207 | In every run the chunk table is a prefix of the file, and the packet in flight and every packet of a closed session is a chunk of the file at an index no greater than the persisted count. |
| TransferRun.ChunksAreNeverMisjudged | apps/server/src/uploads/sqlite-material-library.ts:253-267 | No such packet draws a range, checksum or replay-mismatch error; it is refused only when the upload left transfer. |
| TransferRun.SenderIsNeverRefused | apps/mobile-upload/src/lib/webrtc-file-transfer.ts:210-232 | In every run the resume position is accepted, each acknowledgement is the expected one, and data is only sent authorized. |
| TransferRun.CompletionFindsTheFile | apps/server/src/transfers/incoming-upload-receiver.ts:136-150 | Completion is never answered as incomplete, and a staged upload's file is byte for byte the file sent, for any hash function; it is then destined for publication. |
| TransferRun.ConfirmedFileIsPublished | apps/server/src/transfers/incoming-upload-receiver.ts:136-150 | When the phone hears that the upload is ready, exactly one reference names it and the blob has the file's digest, hence is the file unless the digest collides. |
| TransferRun.InterruptedCompletionIsPublished | apps/server/src/uploads/material-library-recovery.ts:24-140 | A completion of such a transfer cut short after staging is finished by the next reconciliation. |
| IncomingUploadReceiver.Receiver.constructor | apps/server/src/transfers/incoming-upload-receiver.ts:68-75 | A session starts unauthorized. |
| IncomingUploadReceiver.Receiver.ReceiveData | apps/server/src/transfers/incoming-upload-receiver.ts:77-99 | Without authorization data changes nothing; malformed packets, unknown uploads and each refusal of the guards get their own reply with nothing changed; a replay is acknowledged with the counters as they stand; a stalled write is refused with a proper prefix of the chunk written; an acknowledgement means the chunk is in the table and reports its epoch and received bytes. |
| IncomingUploadReceiver.Receiver.ReceiveControl | apps/server/src/transfers/incoming-upload-receiver.ts:101-166 | Only an accepted authorization for this upload opens the gate; resume and accepted authorizations report the row's epoch and received bytes; an early or repeated completion is refused and changes nothing, any other leaves the library as the machine does, ready answers naming a reference of the upload and refusals leaving it in error; a cancel of an upload in transfer leaves it cancelled, mirrored and without staging file, any other cancel changes nothing. |
| TransferLoop.SessionHearsReceiver | apps/server/src/transfers/incoming-upload-receiver.ts:77-99 | Whatever an operation's outcome, the session machine's phone hears what the receiver's reply means to it. |
| TransferLoop.CompletionAnswersAsReceiver | apps/server/src/transfers/incoming-upload-receiver.ts:136-150 | A completion taken up in its session and run without interruption leaves the library as the receiver's method does, and the phone hears exactly that method's reply. |
| TransferLoop.AuthorizationAnswersAsReceiver | apps/server/src/transfers/incoming-upload-receiver.ts:157-166 | The phone an authorization leaves in the session is the one that heard the receiver's reply: it stands at the reported count, or is refused. |
| TransferLoop.ReportedCountersResume | apps/mobile-upload/src/lib/webrtc-file-transfer.ts:138-179 | At any moment of any run a resume or an accepted authorization is answered with the number of chunks in the table and the bytes they hold, and the phone accepts that count and stands where the first missing chunk begins. |
| TransferLoop.SessionSendsInOrder | apps/mobile-upload/src/lib/webrtc-file-transfer.ts:185-207 | Over any run within one session the frames sent are those of the loop: contiguous from the resume position, whole chunks but for the last. |
| TransferLoop.ResumeStandsAtStart | apps/mobile-upload/src/lib/webrtc-file-transfer.ts:174-179 | An accepted resume position is where the phone then stands with nothing sent; a refused one ends the session. |
| TransferLoop.ResumedSessionSendsInOrder | apps/mobile-upload/src/lib/webrtc-file-transfer.ts:165-208 | From the reported count on, over any run within the session, the frames sent are the loop's from the accepted position, and none if it is refused. |
| TransferLoop.LoopAndSessionSendTheSame | apps/mobile-upload/src/lib/webrtc-file-transfer.ts:185-207 | Frames in that order are determined by their number: of loop and session, one sends a prefix of what the other does. |
| TransferLoop.SessionAcceptsAsLoop | apps/mobile-upload/src/lib/webrtc-file-transfer.ts:222-231 | The phone goes on after an acknowledgement exactly when the loop accepts it for the frame it sent. |
| IncomingUploadReceiver.Receiver.Acknowledgement | apps/server/src/transfers/incoming-upload-receiver.ts:126-134 | An acknowledgement of the row's epoch and received bytes, or the error for an unknown upload. |
| IncomingUploadReceiver.Receiver.Complete | apps/server/src/transfers/incoming-upload-receiver.ts:136-150 | Ready is answered only with a reference of this upload, which is then ready; a refusal leaves it in transfer when it was incomplete and in error otherwise; errors are thrown on. |
| IncomingUploadReceiver.Receiver.Cancel | apps/server/src/transfers/incoming-upload-receiver.ts:152-155 | An upload in transfer ends cancelled, mirrored and without staging file; for any other the error is thrown on with nothing changed. |
| OperationQueues.ApplyKeeps | apps/server/src/uploads/upload-operation-queue.ts:18-35 | Every call, start, settlement and callback keeps the chain invariant of the queue. |
| OperationQueues.RunsKeepQueue | apps/server/src/uploads/upload-operation-queue.ts:4-35 | The same over every interleaving of both queues. |
| OperationQueues.OneAtATimeInOrder | apps/server/src/uploads/upload-operation-queue.ts:21-34 | In every interleaving at most one operation of a key is active and none begins before all earlier ones have settled. |
| OperationQueues.FailureNeverBlocks | apps/server/src/uploads/upload-operation-queue.ts:23-27 | While an operation waits, one of its key's can move, however earlier ones ended. |
| OperationQueues.DeletionIsSafe | apps/server/src/uploads/upload-operation-queue.ts:29-33 | An entry is deleted only when it is the last of its key and everything before it has settled. |
| OperationQueues.IdleQueueIsEmpty | apps/server/src/uploads/upload-operation-queue.ts:29-33 | Once every callback has run the map is empty. |
| OperationQueues.UploadOperationQueue.RunOperation | apps/server/src/uploads/upload-operation-queue.ts:21-28 | The new operation is chained behind the tail found in the map and becomes the tail, with nothing else changed; if it may start at once, everything earlier of its key is over. |
| OperationQueues.UploadOperationQueue.StartOperation | apps/server/src/uploads/upload-operation-queue.ts:23 | When an operation starts, everything earlier of its key has settled and nothing later has begun. |
| OperationQueues.UploadOperationQueue.ResultSettled | apps/server/src/uploads/upload-operation-queue.ts:23 | When an operation settles, either way, no operation of its key is left at work. |
| OperationQueues.UploadOperationQueue.TailCallback | apps/server/src/uploads/upload-operation-queue.ts:24-27 | When the tail settles, the operation chained behind it could not start before and can now, however this one ended. |
| OperationQueues.UploadOperationQueue.FinallyCallback | apps/server/src/uploads/upload-operation-queue.ts:29-33 | The entry is deleted exactly when it is still this operation's tail, and then everything of its key has settled. |
| OperationQueues.CreationOperationQueue.RunOperation | apps/server/src/uploads/upload-operation-queue.ts:7-14 | A creation is chained behind the one tail and becomes it; if it may start at once, all earlier creations are over. |
| OperationQueues.OneCreationAtATime | apps/server/src/uploads/upload-operation-queue.ts:3-15 | In every interleaving creations run one at a time in call order. |
| ConcurrentTaskQueue.Queue.constructor | apps/mobile-upload/src/lib/concurrent-task-queue.ts:20-24 | A new queue has nothing pending, running or settled. |
| ConcurrentTaskQueue.Queue.StartedCount | apps/mobile-upload/src/lib/concurrent-task-queue.ts:33-54 | At rest the number of started tasks is the smaller of all that arrived and all that settled plus the bound. |
| ConcurrentTaskQueue.Queue.NothingForgotten | apps/mobile-upload/src/lib/concurrent-task-queue.ts:33-54 | Once nothing waits, the tasks started are exactly the tasks taken on, nested ones at any depth included. |
| ConcurrentTaskQueue.Queue.Enqueue | apps/mobile-upload/src/lib/concurrent-task-queue.ts:26-31 | Whether called from inside or outside a running task, the new one arrives last, the invariant holds (active count is the running tasks and within the bound, pending is exactly what has not started, in order), no slot is free while a task waits, and the queue has taken on exactly that task and all it will enqueue. |
| ConcurrentTaskQueue.Queue.StartAvailableTasks | apps/mobile-upload/src/lib/concurrent-task-queue.ts:33-42 | The loop starts tasks in arrival order until none waits or every slot is full, whatever the started tasks enqueue or throw: of those exactly the ones that throw at once have settled, and what was taken on is started or waits, nothing twice and nothing dropped. |
| ConcurrentTaskQueue.Queue.Run | apps/mobile-upload/src/lib/concurrent-task-queue.ts:44-47 | The synchronous part starts what was taken from the queue, and everything it enqueues is taken on; exactly a task that throws there has settled when it returns. |
| ConcurrentTaskQueue.Queue.Release | apps/mobile-upload/src/lib/concurrent-task-queue.ts:48-54 | A settlement frees exactly one slot and the next tasks start; nothing else settles but tasks started then that throw at once. |
| TransferControlInbox.FindFirst | apps/mobile-upload/src/lib/transfer-control-inbox.ts:59-61 | The stored message found matches and is the oldest that does; none is found only if none matches. |
| TransferControlInbox.ApplyKeeps | apps/mobile-upload/src/lib/transfer-control-inbox.ts:32-108 | Every message, wait, rejection and timeout keeps the inbox invariant. |
| TransferControlInbox.RunKeepsInbox | apps/mobile-upload/src/lib/transfer-control-inbox.ts:32-108 | The same over every run. |
| TransferControlInbox.NoLostWakeup | apps/mobile-upload/src/lib/transfer-control-inbox.ts:42-48 | A registered waiter never matches a stored message, and none is registered after the final error. |
| TransferControlInbox.DeliveredOnceInOrder | apps/mobile-upload/src/lib/transfer-control-inbox.ts:51-70 | A message is delivered to at most one wait, which it matches, and only after every earlier match was delivered. |
| TransferControlInbox.FirstErrorIsFinal | apps/mobile-upload/src/lib/transfer-control-inbox.ts:89-100 | The first error never changes, no waiter stays, and every later wait is refused with it. |
| TransferControlInbox.TerminalIsFirstError | apps/mobile-upload/src/lib/transfer-control-inbox.ts:32-100 | The final error of a run is that of its first invalid message, rejection or timeout, and there is none without one. |
| TransferControlInbox.OnlyOpenWaitsAreTimed | apps/mobile-upload/src/lib/transfer-control-inbox.ts:71-108 | In every run only waits still open have a timer, so a settled wait never times the inbox out. |
| TransferControlInbox.DisplacedExactlyBy | apps/mobile-upload/src/lib/transfer-control-inbox.ts:79-85 | The registered wait leaves the inbox unsettled exactly in a wait that finds no final error, no stored match and a waiter already there. |
| TransferControlInbox.EveryOtherWaitIsSettledIff | apps/mobile-upload/src/lib/transfer-control-inbox.ts:71-86 | Over every run, every wait but the registered one is settled and no stray timer is left if and only if no wait of the run displaced another. |
| TransferControlInbox.DisplacedWaitIsLost | apps/mobile-upload/src/lib/transfer-control-inbox.ts:79-85 | A displaced wait stays open in every continuation, whatever arrives, fails or times out; its own timer is never cleared, and when it fires it ends the inbox. |
| TransferControlInbox.Inbox.Receive | apps/mobile-upload/src/lib/transfer-control-inbox.ts:32-49 | A matching message settles exactly the waiter and clears its timer, any other is stored last, and an invalid one ends the inbox as invalid. |
| TransferControlInbox.Inbox.WaitFor | apps/mobile-upload/src/lib/transfer-control-inbox.ts:51-87 | The new wait is refused with the final error, takes the oldest stored match and only it, or becomes the waiter with a timer when nothing matches. |
| TransferControlInbox.Inbox.RejectWith | apps/mobile-upload/src/lib/transfer-control-inbox.ts:89-100 | Only the first error counts; it refuses the waiter and no other wait, and leaves the stored messages. |
| TransferControlInbox.Inbox.TimerFires | apps/mobile-upload/src/lib/transfer-control-inbox.ts:71-78 | The callback of a wait's timer ends the inbox as timed out, unless it had ended before. |
| MobileState.ApplyKeeps | apps/mobile-upload/src/lib/mobile-state.ts:155-173 | Every enqueue, read, write, failure and app kill keeps the tasks serial and the stored list their outcome. |
| MobileState.StoredIsOutcome | apps/mobile-upload/src/lib/serial-task-queue.ts:9-13 | At every moment of every interleaving the stored list is the successful mutations applied in enqueue order. |
| MobileState.SomeTaskCanMove | apps/mobile-upload/src/lib/serial-task-queue.ts:9-13 | However earlier tasks ended: while a task is unsettled, it or one enqueued before it can move. |
| MobileState.LastMutationWins | apps/mobile-upload/src/lib/mobile-state.ts:155-173 | Whether an upload is listed, and with what, is decided by its last successful mutation. |
| MobileState.LatestSaveIsFirst | apps/mobile-upload/src/lib/mobile-state.ts:158-161 | The upload saved last stands first in the list. |
| MobileState.WithoutConcat | apps/mobile-upload/src/lib/mobile-state.ts:160 | Filtering works element by element, so what stays keeps its order. |
| MobileState.ListedExactlyAsLastMutated | apps/mobile-upload/src/lib/mobile-state.ts:143-173 | Over every interleaving no upload appears twice and each is listed as last mutated. |
| MobileState.ResumableUploads.EnqueueMutation | apps/mobile-upload/src/lib/mobile-state.ts:155-156 | The mutation joins the end of the queue and leaves the list alone; it may start at once only when everything earlier is over. |
| MobileState.ResumableUploads.StartTask | apps/mobile-upload/src/lib/serial-task-queue.ts:10 | A task starts alone: everything enqueued earlier has settled, and nothing later has begun. |
| MobileState.ResumableUploads.ContinueWithList | apps/mobile-upload/src/lib/mobile-state.ts:157-171 | After its read it holds the list that every earlier success and its own mutation make, or fails. |
| MobileState.ResumableUploads.Filter | apps/mobile-upload/src/lib/mobile-state.ts:160 | The filter keeps exactly the other uploads, in order. |
| MobileState.ResumableUploads.FinishWrite | apps/mobile-upload/src/lib/mobile-state.ts:181-186 | The write replaces the whole list with one that misses no earlier success, or leaves it; a list without duplicates stays so. |
| UploadSessions.ApplyKeeps | apps/server/src/transfers/upload-transfer-service.ts:61-133 | Every create, failure, expiry, message and close keeps: a live session is the one its upload's entry names, and no two entries name one session. |
| UploadSessions.RunKeepsRegistry | apps/server/src/transfers/upload-transfer-service.ts:61-133 | The same over every interleaving. |
| UploadSessions.OneLiveSessionPerUpload | apps/server/src/transfers/upload-transfer-service.ts:66-71 | At every await point an upload has at most one live session, the one in the service's map. |
| UploadSessions.SessionEndsExactlyWhen | apps/server/src/transfers/upload-session-coordinator.ts:178-250 | A live session ends exactly when it is named by a failure, close or closing message, replaced by a create for its upload, or found expired. |
| UploadSessions.ReplacementSurvives | apps/server/src/transfers/upload-transfer-service.ts:110-133 | Whatever happens to superseded sessions later, their late failures included, the replacement stays live and current. |
| UploadSessions.EndedSessionIsDisconnected | apps/server/src/transfers/upload-transfer-service.ts:87-124 | A failure, close or replacement that ends a session also ends its registered connection and its entry, and no other connection. |
| UploadSessions.ConnectionsMoveExactly | apps/server/src/transfers/upload-transfer-service.ts:61-124 | For live and ended sessions alike: a connection is registered after a step exactly when it was, or its connect completes, and the gateway does not close it in that step; a connect is awaited from the session's create to its end. |
| UploadSessions.SessionsAppearExactly | apps/server/src/transfers/upload-session-coordinator.ts:123-176 | A session appears only with its own create, for that upload and with that expiry. |
| UploadSessions.EntriesMoveExactly | apps/server/src/transfers/upload-transfer-service.ts:66-91 | An upload's entry is set by its create, deleted exactly when the session it names is forgotten, and otherwise stays. |
| UploadSessions.EndedSessionHoldsConnectionIff | apps/server/src/transfers/session-signaling-gateway.ts:57-85 | Over every continuation, an ended session holds a connection exactly when its awaited connect completed, or it held one before, with no close of it by the gateway since; only a connect awaited at its end can complete. |
| UploadSessions.EndedSessionMayConnectIff | apps/server/src/transfers/session-signaling-gateway.ts:57-85 | At the moment a session ends: some continuation leaves it connected if and only if its connection is registered or its connect is still awaited; after a close, a failure or a replacement, the awaited connect alone decides. |
| UploadSessions.ClosedSessionMayStayConnected | apps/server/src/transfers/session-signaling-gateway.ts:57-76 | So from every reachable registry a session created and replaced while its connect is awaited is connected once that completes, and not live. |
| UploadTransferService.UploadSessionCoordinator.CloseExpired | apps/server/src/transfers/upload-session-coordinator.ts:239-250 | The deleting loop removes exactly the expired sessions and counts them. |
| UploadTransferService.UploadSessionCoordinator.Create | apps/server/src/transfers/upload-session-coordinator.ts:123-176 | Expired sessions go first; a session is added unless the upload or device is refused or the expiry is not a safe integer. |
| UploadTransferService.UploadSessionCoordinator.Accept | apps/server/src/transfers/upload-session-coordinator.ts:178-208 | A message is accepted exactly by a known, unexpired session; a close or an expiry removes it. |
| UploadTransferService.SessionSignalingGateway.ForwardClose | apps/server/src/transfers/session-signaling-gateway.ts:87-103 | A close announcement ends its own connection, delivered or not. |
| UploadTransferService.Service.ForgetSession | apps/server/src/transfers/upload-transfer-service.ts:126-133 | The loop removes the one entry that names the session. |
| UploadTransferService.Service.CloseSession | apps/server/src/transfers/upload-transfer-service.ts:87-91 | The session leaves coordinator, gateway and map, and nothing else does. |
| UploadTransferService.Service.Create | apps/server/src/transfers/upload-transfer-service.ts:61-71 | Up to its second await a create is one registry event: the new session replaces the old in the same turn. |
| UploadTransferService.Service.AcceptInbound | apps/server/src/transfers/upload-transfer-service.ts:93-108 | An accepted message that does not close leaves sessions and connections as they were; any other ends the session it names and the connection it came over. |
| UploadTransferService.Service.CloseFailedDirectSession | apps/server/src/transfers/upload-session-coordinator.ts:285-293 | A failed direct connection ends its session and, if that was live, its connection, but leaves the upload's entry. |
| NativeUploadQueue.StepKeeps | apps/mobile-shell/src-tauri/src/upload_queue.rs:288-306 | Every mutation, bind, close frame, process restart and power loss, with persistence stopped at any step, keeps every possible document whole, the one in memory among them, and the visible one equal to the memory or one mutation ahead. |
| NativeUploadQueue.RunKeepsQueue | apps/mobile-shell/src-tauri/src/upload_queue.rs:288-404 | The same over every run. |
| NativeUploadQueue.MutationIsAtomic | apps/mobile-shell/src-tauri/src/upload_queue.rs:288-306 | After an error memory is the prior snapshot; after success memory, document and all a power loss could leave agree; whatever a power loss leaves is one whole snapshot, possible before or the one being written. |
| NativeUploadQueue.FailedMutationSurfacesIff | apps/mobile-shell/src-tauri/src/upload_queue.rs:402-403 | A mutation that reported failure, and was not pending before, can appear after a restart exactly when only the directory sync failed. |
| NativeUploadQueue.FinalStatesAreFinal | apps/mobile-shell/src-tauri/src/upload_queue.rs:309-327 | From every reachable state, an entry is never lost, a cancelled one stays cancelled and a completed one completed without progress over every continuation, if and only if every document a power loss could leave now says so. |
| NativeUploadQueue.CleanRunsKeepFinalStates | apps/mobile-shell/src-tauri/src/upload_queue.rs:288-404 | After any run in which no process restart came while a rename waited for its directory sync, every entry in memory is kept that way, whatever follows. |
| NativeUploadQueue.RestartShowsDurableIff | apps/mobile-shell/src-tauri/src/upload_queue.rs:217-224 | What a restart shows can be undone by no power loss if and only if no rename was waiting for its directory sync. |
| NativeUploadQueue.RunShowsDurableIff | apps/mobile-shell/src-tauri/src/upload_queue.rs:217-224 | The same along every run: all restarts show only durable state if and only if all of them are clean. |
| NativeUploadQueue.RestartShowsWhatPowerLossUndoes | apps/mobile-shell/src-tauri/src/upload_queue.rs:380-405 | The failing run, for every accepted mutation at every durable state: stopped between rename and directory sync, shown by the restart, and taken back by a power loss. |
| NativeUploadQueue.ProgressOnlyInTransfer | apps/mobile-shell/src-tauri/src/upload_queue.rs:242-257 | In every run each step keeps all entries, follows the allowed transitions and changes progress only of an entry in transfer, a power loss exactly if the document it leaves does. |
| NativeUploadQueue.TransitionsAre | apps/mobile-shell/src-tauri/src/upload_queue.rs:309-327 | The allowed status transitions, status by status. |
| NativeUploadQueue.StepTells | apps/mobile-shell/src-tauri/src/upload_queue.rs:227-275 | A successful enqueue, acknowledgement, status change or close frame makes of an entry's progress and status exactly what it tells, and a failed one makes nothing of them. |
| NativeUploadQueue.EntriesSayWhatWasTold | apps/mobile-shell/src-tauri/src/upload_queue.rs:227-306 | Over every run without restart or power loss, the progress and status of an entry are the ones last told with success. |
| NativeUploadQueue.CancelledOnlyBy | apps/mobile-shell/src-tauri/src/transfer_control.rs:154-186 | An entry becomes cancelled only by a successful cancellation of it or a cancel frame of a session bound to it. |
| NativeUploadQueue.CloseTouchesOnlyItsUpload | apps/mobile-shell/src-tauri/src/transfer_control.rs:154-186 | A close frame changes only its bound upload, keeps the binding on error and removes it on success; an unbound one does nothing. |
| NativeUploadQueue.BindingsAreNeverRedirected | apps/mobile-shell/src-tauri/src/transfer_control.rs:130-151 | A binding stays until a close frame of its session or a restart. |
| NativeUploadQueue.BindingsMoveExactly | apps/mobile-shell/src-tauri/src/transfer_control.rs:130-186 | A session becomes bound exactly by a bind and keeps that upload; the binding goes exactly with a close frame of it that succeeds, a restart or a power loss. |
| NativeUploadQueue.UploadQueue.constructor | apps/mobile-shell/src-tauri/src/upload_queue.rs:217-224 | Opening loads the document and is the machine's restart: memory is the stored snapshot, or empty when there is no document. |
| NativeUploadQueue.UploadQueue.PersistSnapshot | apps/mobile-shell/src-tauri/src/upload_queue.rs:380-405 | Temporary file, sync, rename, directory sync, in that order, up to the step that fails: before the rename nothing a power loss could show changes, after it the new document may show, and in the end only it. |
| NativeUploadQueue.UploadQueue.MutateSnapshot | apps/mobile-shell/src-tauri/src/upload_queue.rs:288-306 | On success exactly the one entry has its new content, progress or status, in memory and in every possible document; a violated guard has its own error, a persistence stopped before its end is the persistence error, and after both memory is the prior snapshot. |
| NativeUploadQueue.UploadQueue.ChangeInPlace | apps/mobile-shell/src-tauri/src/upload_queue.rs:227-275 | Enqueue stores its entry, an acknowledgement exactly the progress, a status change exactly the status; each error is returned exactly under its guard and changes nothing. |
| NativeUploadQueue.TransferControl.Bind | apps/mobile-shell/src-tauri/src/transfer_control.rs:130-151 | Binding is idempotent and refuses another upload for the same session. |
| NativeUploadQueue.TransferControl.ConsumeClose | apps/mobile-shell/src-tauri/src/transfer_control.rs:154-186 | Run without interruption it equals the machine's close frame: a failed connection pauses the bound upload with NETWORK_UNAVAILABLE, a cancel cancels it, a finished transfer changes no entry; an unbound session does nothing, and the binding goes exactly on success. |
| NativeCloseFrames.UninterruptedFrameIsAtomic | apps/mobile-shell/src-tauri/src/transfer_control.rs:154-186 | Lookup, status change and removal of one frame in a row are that one step. |
| NativeCloseFrames.InterleavingsAreQueueRuns | apps/mobile-shell/src-tauri/src/transfer_control.rs:154-186 | However the three parts of close frames interleave with other calls, failures, restarts and power losses, the queue and its document go through a run of the queue's own machine. |
| NativeCloseFrames.InterleavingsKeepFinalStates | apps/mobile-shell/src-tauri/src/transfer_control.rs:154-186 | So over every interleaving an entry that every possible document secures is kept for good. |
| NativeCloseFrames.FramesRemoveTheirOwnIff | apps/mobile-shell/src-tauri/src/transfer_control.rs:184 | Over every interleaving no frame is ever about to remove the binding of an upload it did not look up, if and only if no session is bound to another upload while one of its frames is on its way. |
| NativeCloseFrames.OverlappingFramesUnbindAnother | apps/mobile-shell/src-tauri/src/transfer_control.rs:184 | The failing run: two frames of one session overlap, the session is bound anew between their removals, and the second removes the new binding. |

## Left out

- A manifest's replacement is one durable step; a lost manifest entry is not modelled (the next reconciliation writes every manifest again).
- Lost directory entries: a rename is taken back as a whole or not at all, making a directory and the rename into it are one visible step, the material root and the database's own file never go, and the transfer machine takes the library of `LibraryWorld`, whose entries all reach the disk.
- LibraryFiles.PublishedBlobsAreSound: covers runs whose directory entries reach the disk; `LibraryDirectoryRun.SpareRunsKeepBlobs` and `LibraryDirectoryKeeps.PublishedFileStaysIff` cover the others.
- LibraryFiles.AcknowledgedChunksAreDurable: covers those runs too; `LibraryDirectoryKeeps.ChunksSurviveIff` is the exact condition for the others.
- LibraryReconcile.RecoveryLosesNothing: covers those runs too; `LibraryDirectoryRun.SpareRunsRecover` and `LibraryDirectoryRun.LibraryKeepsFilesIff` cover the others.
- LibraryCapacity.CapacityHolds: covers those runs too; `LibraryDirectoryRisk.CapacitySurvivesIff` is the exact condition for the others.
- Free space counts staging and blob files; manifests, the database, directories and rounding to blocks are not in it, and what a torn write allocated stays allocated.
- SQLite itself: transactions are atomic steps with the primary keys and unique columns, and a committed one is taken as durable, although with write-ahead logging a power loss may take back the last commits; the schema migration is not part of this model.
- Paths are constructors of the upload or the hash, so distinct names are distinct files; symbolic links and the path checks of the layout are not part of this model.
- Project targets are one opaque value of a row; project keys, their bindings, token verification and paired-device records only appear as an accepted or refused input.
- WebRTC, ICE, DTLS, WebSockets and the worker rooms: a session is an ordered source of messages that may end at any moment.
- Ed25519 signatures, random identifiers and grants; HTTP routes, JSON, zod schemas and runtime configuration; Vue components and Tauri commands.
- SqliteMaterialLibrary.MaterialVolume.WriteSome: how much a short write stores is left open, since the file system decides it; the space check of a write is an event of `LibraryWorld`.
- ChunkSender.TransferChunks: a chunk size of zero is excluded, since the session constructor refuses it; reading the source file never fails, and progress callbacks are not modelled.
- TransferSession uses one chunk size for all sessions, as the server's one constant does; a file whose digest was wrong when the upload was created is covered by the library's runs, not by those of a transfer.
- A reconcile may interleave with other operations in `LibraryWorld`, which allows more runs than a server that reconciles before it accepts work.
- ConcurrentTaskQueue.Queue.constructor: a bound below one is excluded; the source throws INVALID_CONCURRENCY for it.
- OperationQueues proves nothing about time: that a settled promise's callbacks run at all is the event loop's promise.
- NativeUploadQueue.UploadQueue.constructor: only a missing or whole document is opened (no run leaves another); an unsupported schema version and poisoned locks are not modelled, nor is the JSON form of a snapshot.
- UploadSessions leaves the connection map free apart from closing; local candidates and descriptions sent over it are not modelled.
- MobileState covers the list of resumable uploads only; destinations and the device identity are stored without a queue in the source and are not part of this model.
- NativeUploadQueue.TransferControl.ConsumeClose: one uninterrupted call, as a method is here; what may come between its three parts is proved in `NativeCloseFrames` on values.
- SqliteMaterialLibrary.MaterialVolume.MoveFileWithinMaterialRoot: rename and directory sync are one call here; what happens between them is proved in `LibraryDirectory` on values.
