/**
 The library's asynchronous operations, cut at every point where the event loop may turn to another
 operation or the process may die. A `Pc` is what an operation remembers across such a point.
 */
module LibrarySteps {
  import opened Bytes
  import opened UploadRecords
  import opened UploadGuards
  import opened LibraryDisk

  datatype CompletionError = UploadIncomplete | Sha256Mismatch | BlobMissing | StagingFileMissing

  datatype LibraryError =
    | UploadNotFound
    | UploadStateError
    | AppendRefused(error: AppendError)
    | WriteStalled
    | FileMissing
    | ConstraintViolated
    | StorageReservationRefused
    | StagingFileExists

  datatype Outcome =
    | Done
    | Acknowledged(ackEpoch: nat, received: nat)
    | Published(material: MaterialId, path: Path)
    | Failed(reason: CompletionError)
    | Threw(error: LibraryError)

  datatype Pc =
    | Finished(outcome: Outcome)
    | Mirror(manifest: Manifest, next: Pc)
      // appendChunk
    | WriteChunk(input: AppendInput, written: nat)
    | PersistChunk(input: AppendInput)
      // cancelUpload
    | DropStaging
      // completeUpload
    | HashStaged
    | StagedHashed(hash: Hash)
    | FindBlob
    | ProbeBlob(path: Path)
    | ProbeStagingCopy(path: Path)
    | RemoveStagingCopy(path: Path)
    | ProbeStaging
    | MoveStaging
    | RecordCommitted(path: Path, createBlob: bool)
    | ProbeFinal(path: Path, createBlob: bool)
    | HashFinal(path: Path, createBlob: bool)
    | PublishReference(path: Path, createBlob: bool)
    | MarkError(reason: CompletionError)
      // reconcile
    | ProbeTransferring
    | ProbeStaged
    | ProbeVerified
    | HashVerifiedStaging
    | ProbeOrphanBlob
    | RecordRecovered
    | DecideRecovered
    | DecideCommitted
    | CleanCancelled

  function Enter(disk: Disk, upload: UploadId, state: UploadState, next: Pc): (Disk, Pc)
    requires Known(disk, upload)
  {
    var changed := SetState(disk, upload, state);
    (changed, Mirror(ManifestOf(changed, upload), next))
  }

  function BeginAppend(sha: Sha256, disk: Disk, upload: UploadId, input: AppendInput): Pc {
    if !(upload in disk.rows && upload in disk.chunks) then
      Finished(Threw(UploadNotFound))
    else
      var row := disk.rows[upload];
      match JudgeAppend(sha, row, disk.chunks[upload], input)
      case Accepted => WriteChunk(input, 0)
      case Duplicate => Finished(Acknowledged(row.ackEpoch, row.received))
      case Refused(StateInvalid) => Finished(Threw(UploadStateError))
      case Refused(error) => Finished(Threw(AppendRefused(error)))
  }

  function BeginComplete(disk: Disk, upload: UploadId): (Disk, Pc) {
    if !(upload in disk.rows && upload in disk.chunks) then
      (disk, Finished(Threw(UploadNotFound)))
    else
      var row := disk.rows[upload];
      if row.state != Transferring then (disk, Finished(Threw(UploadStateError)))
      else if row.received != row.expected then (disk, Finished(Failed(UploadIncomplete)))
      else Enter(disk, upload, Staged, HashStaged)
  }

  function BeginCancel(disk: Disk, upload: UploadId): (Disk, Pc) {
    if !(upload in disk.rows && upload in disk.chunks) then (disk, Finished(Threw(UploadNotFound)))
    else if disk.rows[upload].state != Transferring then (disk, Finished(Threw(UploadStateError)))
    else Enter(disk, upload, Cancelled, DropStaging)
  }

  function BeginReconcile(disk: Disk, upload: UploadId): Pc
    requires Known(disk, upload)
  {
    match disk.rows[upload].state
    case Transferring => ProbeTransferring
    case Staged => ProbeStaged
    case HashVerified => ProbeVerified
    case Committed => DecideCommitted
    case Ready => Mirror(ManifestOf(disk, upload), Finished(Done))
    case RecoverableError => Mirror(ManifestOf(disk, upload), Finished(Done))
    case Cancelled => CleanCancelled
  }

  /**
   One turn of an operation: what it does between two awaits. `wrote` is the byte count the file
   system reports for a write, `material` the identifier drawn for a new reference.
   */
  function Advance(sha: Sha256, disk: Disk, upload: UploadId, pc: Pc, wrote: nat, material: MaterialId): (Disk, Pc)
    requires Known(disk, upload)
  {
    var row := disk.rows[upload];
    var staging := StagingPath(upload);
    match pc
    case Finished(_) => (disk, pc)
    case Mirror(manifest, next) => (SaveManifest(disk, upload, manifest), next)

    case WriteChunk(input, written) => AdvanceWrite(disk, upload, input, written, wrote)
    case PersistChunk(input) =>
      var changed := InsertChunk(disk, upload, RecordOf(input));
      (changed,
       Mirror(ManifestOf(changed, upload),
              Finished(Acknowledged(changed.rows[upload].ackEpoch, changed.rows[upload].received))))
    case DropStaging => (RemoveFile(disk, staging), Finished(Done))

    case HashStaged =>
      if staging !in disk.files then (disk, Finished(Threw(FileMissing)))
      else (disk, StagedHashed(sha(disk.files[staging].bytes)))
    case StagedHashed(hash) =>
      if hash != row.sha then (disk, MarkError(Sha256Mismatch))
      else Enter(disk, upload, HashVerified, FindBlob)
    case FindBlob =>
      (disk, if row.sha in disk.blobs then ProbeBlob(disk.blobs[row.sha].path) else ProbeStaging)
    case ProbeBlob(path) =>
      (disk, if path in disk.files then ProbeStagingCopy(path) else MarkError(BlobMissing))
    case ProbeStagingCopy(path) =>
      (disk, if staging in disk.files then RemoveStagingCopy(path) else RecordCommitted(path, false))
    case RemoveStagingCopy(path) => (RemoveFile(disk, staging), RecordCommitted(path, false))
    case ProbeStaging =>
      (disk, if staging in disk.files then MoveStaging else MarkError(StagingFileMissing))
    case MoveStaging =>
      if staging !in disk.files then (disk, Finished(Threw(FileMissing)))
      else (MoveFile(disk, staging, BlobPath(row.sha)), RecordCommitted(BlobPath(row.sha), true))
    case RecordCommitted(path, createBlob) => Enter(disk, upload, Committed, ProbeFinal(path, createBlob))
    case ProbeFinal(path, createBlob) =>
      (disk, if path in disk.files then HashFinal(path, createBlob) else MarkError(BlobMissing))
    case HashFinal(path, createBlob) =>
      if path !in disk.files then (disk, Finished(Threw(FileMissing)))
      else if sha(disk.files[path].bytes) != row.sha then (disk, MarkError(Sha256Mismatch))
      else (disk, PublishReference(path, createBlob))
    case PublishReference(path, createBlob) =>
      if PublishBlocked(disk, upload, createBlob, material) then
        (disk, Finished(Threw(ConstraintViolated)))
      else
        var changed := Publish(disk, upload, path, createBlob, material);
        (changed, Mirror(ManifestOf(changed, upload), Finished(Published(material, path))))
    case MarkError(reason) => Enter(disk, upload, RecoverableError, Finished(Failed(reason)))

    case ProbeTransferring =>
      (disk, if staging in disk.files then Mirror(ManifestOf(disk, upload), Finished(Done))
             else MarkError(StagingFileMissing))
    case ProbeStaged =>
      (disk, if staging in disk.files then HashStaged else MarkError(StagingFileMissing))
    case ProbeVerified =>
      (disk, if staging in disk.files then HashVerifiedStaging else ProbeOrphanBlob)
    case HashVerifiedStaging =>
      if staging !in disk.files then (disk, Finished(Threw(FileMissing)))
      else if sha(disk.files[staging].bytes) != row.sha then (disk, MarkError(Sha256Mismatch))
      else (disk, FindBlob)
    case ProbeOrphanBlob =>
      (disk, if BlobPath(row.sha) in disk.files then RecordRecovered else MarkError(StagingFileMissing))
    case RecordRecovered => Enter(disk, upload, Committed, DecideRecovered)
    case DecideRecovered => (disk, ProbeFinal(BlobPath(row.sha), row.sha !in disk.blobs))
    case DecideCommitted =>
      (disk, if row.sha in disk.blobs then ProbeFinal(disk.blobs[row.sha].path, false)
             else ProbeFinal(BlobPath(row.sha), true))
    case CleanCancelled => (RemoveFile(disk, staging), Mirror(ManifestOf(disk, upload), Finished(Done)))
  }

  /** One round of the write loop, or the sync that ends it. */
  function AdvanceWrite(disk: Disk, upload: UploadId, input: AppendInput, written: nat, wrote: nat): (Disk, Pc) {
    var staging := StagingPath(upload);
    if staging !in disk.files then
      (disk, Finished(Threw(FileMissing)))
    else if written < |input.bytes| && 0 <= input.offset then
      var count := Min(wrote, |input.bytes| - written);
      if count == 0 then
        (disk, Finished(Threw(WriteStalled)))
      else
        (WriteFile(disk, staging, input.offset + written, input.bytes[written..written + count]),
         WriteChunk(input, written + count))
    else
      (SyncFile(disk, staging), PersistChunk(input))
  }
}
