/**
 What an operation that runs alone makes of any disk, tampered ones included: the error it records, the
 reference it publishes, and that a reconciliation always completes.
 */
module LibraryVerdict {
  import opened Bytes
  import opened UploadRecords
  import opened UploadGuards
  import opened LibraryDisk
  import opened LibrarySteps
  import opened LibraryWorld
  import opened LibraryRows
  import opened LibraryStates
  import opened LibraryRecovery
  import opened LibraryReconcile

  // The operations in one piece

  predicate Unstored(disk: Disk, hash: Hash) {
    hash !in disk.blobs
  }

  function Failing(disk: Disk, upload: UploadId, reason: CompletionError): (r: (Disk, Outcome))
    requires Known(disk, upload)
  {
    (Entered(disk, upload, RecoverableError), Failed(reason))
  }

  /** `finishCommittedUpload`: the blob must be there and hash to its name; then the row and the reference. */
  function Finishing(sha: Sha256, disk: Disk, upload: UploadId, path: Path, createBlob: bool, material: MaterialId): (Disk, Outcome)
    requires Known(disk, upload)
  {
    var hash := disk.rows[upload].sha;
    if path !in disk.files then Failing(disk, upload, BlobMissing)
    else if sha(disk.files[path].bytes) != hash then Failing(disk, upload, Sha256Mismatch)
    else if (createBlob && hash in disk.blobs) || material in disk.references || Referenced(disk.references, upload) then
      (disk, Threw(ConstraintViolated))
    else
      var published := Publish(disk, upload, path, createBlob, material);
      (SaveManifest(published, upload, ManifestOf(published, upload)), Published(material, path))
  }

  /** `commitHashVerifiedUpload`: a copy of a known blob goes, a new one takes its path. */
  function Committing(sha: Sha256, disk: Disk, upload: UploadId, material: MaterialId): (Disk, Outcome)
    requires Known(disk, upload)
  {
    var hash, staging := disk.rows[upload].sha, StagingPath(upload);
    if hash in disk.blobs then
      var path := disk.blobs[hash].path;
      if path !in disk.files then Failing(disk, upload, BlobMissing)
      else Finishing(sha, Entered(RemoveFile(disk, staging), upload, Committed), upload, path, false, material)
    else if staging !in disk.files then Failing(disk, upload, StagingFileMissing)
    else Finishing(sha, Entered(MoveFile(disk, staging, BlobPath(hash)), upload, Committed), upload, BlobPath(hash), true, material)
  }

  /** A completion or reconciliation of a staged upload, from its hash on. */
  function Completed(sha: Sha256, disk: Disk, upload: UploadId, material: MaterialId): (Disk, Outcome)
    requires Known(disk, upload)
  {
    var staging := StagingPath(upload);
    if staging !in disk.files then (disk, Threw(FileMissing))
    else if sha(disk.files[staging].bytes) != disk.rows[upload].sha then Failing(disk, upload, Sha256Mismatch)
    else Committing(sha, Entered(disk, upload, HashVerified), upload, material)
  }

  /** `reconcileUpload`, by the stored state. */
  function Reconciled(sha: Sha256, disk: Disk, upload: UploadId, material: MaterialId): (Disk, Outcome)
    requires Known(disk, upload)
  {
    var row, staging := disk.rows[upload], StagingPath(upload);
    var own := BlobPath(row.sha);
    match row.state
    case Transferring =>
      if staging in disk.files then (SaveManifest(disk, upload, ManifestOf(disk, upload)), Done)
      else Failing(disk, upload, StagingFileMissing)
    case Staged =>
      if staging in disk.files then Completed(sha, disk, upload, material) else Failing(disk, upload, StagingFileMissing)
    case HashVerified =>
      if staging in disk.files then
        if sha(disk.files[staging].bytes) != row.sha then Failing(disk, upload, Sha256Mismatch)
        else Committing(sha, disk, upload, material)
      else if own !in disk.files then Failing(disk, upload, StagingFileMissing)
      else Finishing(sha, Entered(disk, upload, Committed), upload, own, Unstored(disk, row.sha), material)
    case Committed =>
      Finishing(sha, disk, upload, if row.sha in disk.blobs then disk.blobs[row.sha].path else own,
                Unstored(disk, row.sha), material)
    case Cancelled =>
      (SaveManifest(RemoveFile(disk, staging), upload, ManifestOf(disk, upload)), Done)
    case _ => (SaveManifest(disk, upload, ManifestOf(disk, upload)), Done)
  }

  // They are the machine's turns run alone

  lemma DriveFinished(sha: Sha256, disk: Disk, upload: UploadId, outcome: Outcome, material: MaterialId)
    requires Known(disk, upload)
    ensures Drive(sha, disk, upload, Finished(outcome), 0, material) == (disk, outcome)
  {
  }

  lemma DriveExistingBlob(sha: Sha256, disk: Disk, upload: UploadId, material: MaterialId)
    requires Known(disk, upload) && disk.rows[upload].sha in disk.blobs
    ensures Drive(sha, disk, upload, FindBlob, 0, material) == (
              var path := disk.blobs[disk.rows[upload].sha].path;
              if path in disk.files then
                Drive(sha, RemoveFile(disk, StagingPath(upload)), upload, RecordCommitted(path, false), 0, material)
              else
                Drive(sha, disk, upload, MarkError(BlobMissing), 0, material))
  {
    hide Drive;
    var path := disk.blobs[disk.rows[upload].sha].path;
    DriveStep(sha, disk, upload, FindBlob, 0, material);
    DriveStep(sha, disk, upload, ProbeBlob(path), 0, material);
    if path in disk.files {
      DriveStep(sha, disk, upload, ProbeStagingCopy(path), 0, material);
      if StagingPath(upload) in disk.files {
        DriveStep(sha, disk, upload, RemoveStagingCopy(path), 0, material);
      }
    }
  }

  lemma DriveNewBlob(sha: Sha256, disk: Disk, upload: UploadId, material: MaterialId)
    requires Known(disk, upload) && disk.rows[upload].sha !in disk.blobs
    ensures Drive(sha, disk, upload, FindBlob, 0, material) == (
              var staging, path := StagingPath(upload), BlobPath(disk.rows[upload].sha);
              if staging in disk.files then
                Drive(sha, MoveFile(disk, staging, path), upload, RecordCommitted(path, true), 0, material)
              else
                Drive(sha, disk, upload, MarkError(StagingFileMissing), 0, material))
  {
    hide Drive;
    DriveStep(sha, disk, upload, FindBlob, 0, material);
    DriveStep(sha, disk, upload, ProbeStaging, 0, material);
    if StagingPath(upload) in disk.files {
      DriveStep(sha, disk, upload, MoveStaging, 0, material);
    }
  }

  lemma BlockedMeans(disk: Disk, upload: UploadId, createBlob: bool, material: MaterialId)
    requires Known(disk, upload)
    ensures PublishBlocked(disk, upload, createBlob, material) <==>
            || (createBlob && disk.rows[upload].sha in disk.blobs)
            || material in disk.references
            || Referenced(disk.references, upload)
  {
  }

  lemma DrivePublish(sha: Sha256, disk: Disk, upload: UploadId, path: Path, createBlob: bool, material: MaterialId)
    requires Known(disk, upload)
    ensures Drive(sha, disk, upload, PublishReference(path, createBlob), 0, material) == (
              if PublishBlocked(disk, upload, createBlob, material) then
                (disk, Threw(ConstraintViolated))
              else
                var published := Publish(disk, upload, path, createBlob, material);
                (SaveManifest(published, upload, ManifestOf(published, upload)), Published(material, path)))
  {
    hide Drive, AdvanceWrite, PublishBlocked;
    DriveStep(sha, disk, upload, PublishReference(path, createBlob), 0, material);
    if PublishBlocked(disk, upload, createBlob, material) {
      DriveFinished(sha, disk, upload, Threw(ConstraintViolated), material);
    } else {
      var published := Publish(disk, upload, path, createBlob, material);
      DriveMirror(sha, published, upload, ManifestOf(published, upload), Published(material, path), 0, material);
    }
  }

  lemma DriveFinal(sha: Sha256, disk: Disk, upload: UploadId, path: Path, createBlob: bool, material: MaterialId)
    requires Known(disk, upload)
    ensures Drive(sha, disk, upload, ProbeFinal(path, createBlob), 0, material)
         == if path !in disk.files then
              Drive(sha, disk, upload, MarkError(BlobMissing), 0, material)
            else if sha(disk.files[path].bytes) != disk.rows[upload].sha then
              Drive(sha, disk, upload, MarkError(Sha256Mismatch), 0, material)
            else
              Drive(sha, disk, upload, PublishReference(path, createBlob), 0, material)
  {
    hide Drive, AdvanceWrite, PublishBlocked, Publish;
    DriveStep(sha, disk, upload, ProbeFinal(path, createBlob), 0, material);
    if path in disk.files {
      DriveStep(sha, disk, upload, HashFinal(path, createBlob), 0, material);
    }
  }

  lemma DriveRecovered(sha: Sha256, disk: Disk, upload: UploadId, material: MaterialId)
    requires Known(disk, upload)
    ensures Drive(sha, disk, upload, RecordRecovered, 0, material) == (
              var changed := SetState(disk, upload, Committed);
              Drive(sha, SaveManifest(changed, upload, ManifestOf(changed, upload)), upload, DecideRecovered, 0, material))
  {
    hide Drive, AdvanceWrite;
    var changed := SetState(disk, upload, Committed);
    DriveStep(sha, disk, upload, RecordRecovered, 0, material);
    DriveStep(sha, changed, upload, Mirror(ManifestOf(changed, upload), DecideRecovered), 0, material);
  }

  lemma VerifiedTurns(sha: Sha256, disk: Disk, upload: UploadId, material: MaterialId)
    requires Known(disk, upload)
    ensures Advance(sha, disk, upload, ProbeVerified, 0, material)
         == (disk, if StagingPath(upload) in disk.files then HashVerifiedStaging else ProbeOrphanBlob)
    ensures StagingPath(upload) in disk.files ==>
              var same := sha(disk.files[StagingPath(upload)].bytes) == disk.rows[upload].sha;
              Advance(sha, disk, upload, HashVerifiedStaging, 0, material)
              == (disk, if same then FindBlob else MarkError(Sha256Mismatch))
    ensures Advance(sha, disk, upload, ProbeOrphanBlob, 0, material)
         == (disk, if BlobPath(disk.rows[upload].sha) in disk.files then RecordRecovered else MarkError(StagingFileMissing))
  {
    hide AdvanceWrite, SetState, Publish, InsertChunk, PublishBlocked;
  }

  lemma DriveVerified(sha: Sha256, disk: Disk, upload: UploadId, material: MaterialId)
    requires Known(disk, upload)
    ensures var next := if StagingPath(upload) in disk.files then
                          if sha(disk.files[StagingPath(upload)].bytes) == disk.rows[upload].sha then FindBlob
                          else MarkError(Sha256Mismatch)
                        else if BlobPath(disk.rows[upload].sha) in disk.files then RecordRecovered
                        else MarkError(StagingFileMissing);
            Drive(sha, disk, upload, ProbeVerified, 0, material) == Drive(sha, disk, upload, next, 0, material)
  {
    hide Drive, Advance;
    VerifiedTurns(sha, disk, upload, material);
    DriveStep(sha, disk, upload, ProbeVerified, 0, material);
    if StagingPath(upload) in disk.files {
      DriveStep(sha, disk, upload, HashVerifiedStaging, 0, material);
    } else {
      DriveStep(sha, disk, upload, ProbeOrphanBlob, 0, material);
    }
  }

  lemma FailingIs(sha: Sha256, disk: Disk, upload: UploadId, reason: CompletionError, material: MaterialId)
    requires Known(disk, upload)
    ensures Drive(sha, disk, upload, MarkError(reason), 0, material) == Failing(disk, upload, reason)
  {
    hide Drive;
    DriveStep(sha, disk, upload, MarkError(reason), 0, material);
    var changed := SetState(disk, upload, RecoverableError);
    DriveMirror(sha, changed, upload, ManifestOf(changed, upload), Failed(reason), 0, material);
  }

  lemma FinishingIs(sha: Sha256, disk: Disk, upload: UploadId, path: Path, createBlob: bool, material: MaterialId)
    requires Known(disk, upload)
    ensures Drive(sha, disk, upload, ProbeFinal(path, createBlob), 0, material)
         == Finishing(sha, disk, upload, path, createBlob, material)
  {
    hide Drive, Failing, PublishBlocked, Publish;
    DriveFinal(sha, disk, upload, path, createBlob, material);
    FailingIs(sha, disk, upload, BlobMissing, material);
    FailingIs(sha, disk, upload, Sha256Mismatch, material);
    DrivePublish(sha, disk, upload, path, createBlob, material);
    BlockedMeans(disk, upload, createBlob, material);
  }

  /** A state change with its manifest, and then the rest. */
  lemma EnteringIs(sha: Sha256, disk: Disk, upload: UploadId, pc: Pc, state: UploadState, next: Pc, material: MaterialId)
    requires Known(disk, upload) && !pc.Finished?
    requires Advance(sha, disk, upload, pc, 0, material) == Enter(disk, upload, state, next)
    ensures Drive(sha, disk, upload, pc, 0, material) == Drive(sha, Entered(disk, upload, state), upload, next, 0, material)
  {
    hide Drive, Advance;
    DriveStep(sha, disk, upload, pc, 0, material);
    var changed := SetState(disk, upload, state);
    MirroringIs(sha, changed, upload, ManifestOf(changed, upload), next, material);
  }

  lemma MirroringIs(sha: Sha256, disk: Disk, upload: UploadId, manifest: Manifest, next: Pc, material: MaterialId)
    requires Known(disk, upload)
    ensures Known(SaveManifest(disk, upload, manifest), upload)
    ensures Drive(sha, disk, upload, Mirror(manifest, next), 0, material)
         == Drive(sha, SaveManifest(disk, upload, manifest), upload, next, 0, material)
  {
    hide Drive;
    DriveStep(sha, disk, upload, Mirror(manifest, next), 0, material);
  }

  lemma CommittingIs(sha: Sha256, disk: Disk, upload: UploadId, material: MaterialId)
    requires Known(disk, upload)
    ensures Drive(sha, disk, upload, FindBlob, 0, material) == Committing(sha, disk, upload, material)
  {
    hide Drive, Failing, Finishing, Entered, Publish, PublishBlocked, AdvanceWrite, InsertChunk;
    var hash, staging := disk.rows[upload].sha, StagingPath(upload);
    if hash in disk.blobs {
      var path := disk.blobs[hash].path;
      DriveExistingBlob(sha, disk, upload, material);
      FailingIs(sha, disk, upload, BlobMissing, material);
      var removed := RemoveFile(disk, staging);
      EnteringIs(sha, removed, upload, RecordCommitted(path, false), Committed, ProbeFinal(path, false), material);
      EnteredKnown(removed, upload, Committed);
      FinishingIs(sha, Entered(removed, upload, Committed), upload, path, false, material);
    } else {
      DriveNewBlob(sha, disk, upload, material);
      FailingIs(sha, disk, upload, StagingFileMissing, material);
      if staging in disk.files {
        var path := BlobPath(hash);
        var moved := MoveFile(disk, staging, path);
        EnteringIs(sha, moved, upload, RecordCommitted(path, true), Committed, ProbeFinal(path, true), material);
        EnteredKnown(moved, upload, Committed);
        FinishingIs(sha, Entered(moved, upload, Committed), upload, path, true, material);
      }
    }
  }

  lemma EnteredKnown(disk: Disk, upload: UploadId, state: UploadState)
    requires Known(disk, upload)
    ensures Known(Entered(disk, upload, state), upload)
  {
  }

  lemma CompletedIs(sha: Sha256, disk: Disk, upload: UploadId, material: MaterialId)
    requires Known(disk, upload)
    ensures Drive(sha, disk, upload, HashStaged, 0, material) == Completed(sha, disk, upload, material)
  {
    hide Drive, Failing, Committing, Entered, Publish, PublishBlocked, AdvanceWrite, InsertChunk, MoveFile;
    DriveStep(sha, disk, upload, HashStaged, 0, material);
    if StagingPath(upload) !in disk.files {
      DriveFinished(sha, disk, upload, Threw(FileMissing), material);
    } else {
      var hash := sha(disk.files[StagingPath(upload)].bytes);
      DriveStep(sha, disk, upload, StagedHashed(hash), 0, material);
      FailingIs(sha, disk, upload, Sha256Mismatch, material);
      if hash == disk.rows[upload].sha {
        EnteringIs(sha, disk, upload, StagedHashed(hash), HashVerified, FindBlob, material);
        EnteredKnown(disk, upload, HashVerified);
        CommittingIs(sha, Entered(disk, upload, HashVerified), upload, material);
      }
    }
  }

  lemma RecoveredIs(sha: Sha256, disk: Disk, upload: UploadId, material: MaterialId)
    requires Known(disk, upload)
    ensures Known(Entered(disk, upload, Committed), upload)
    ensures Drive(sha, disk, upload, RecordRecovered, 0, material)
         == Finishing(sha, Entered(disk, upload, Committed), upload, BlobPath(disk.rows[upload].sha),
                      Unstored(disk, disk.rows[upload].sha), material)
  {
    hide Drive, Failing, Finishing, Entered, Publish, PublishBlocked, AdvanceWrite, InsertChunk, MoveFile, ManifestOf;
    var entered := Entered(disk, upload, Committed);
    EnteredRows(disk, upload);
    EnteringIs(sha, disk, upload, RecordRecovered, Committed, DecideRecovered, material);
    DriveStep(sha, entered, upload, DecideRecovered, 0, material);
    FinishingIs(sha, entered, upload, BlobPath(disk.rows[upload].sha), Unstored(disk, disk.rows[upload].sha), material);
  }

  lemma VerifiedIs(sha: Sha256, disk: Disk, upload: UploadId, material: MaterialId)
    requires Known(disk, upload) && disk.rows[upload].state == HashVerified
    ensures Drive(sha, disk, upload, ProbeVerified, 0, material) == Reconciled(sha, disk, upload, material)
  {
    hide Drive, Advance, Failing, Finishing, Committing, Entered;
    DriveVerified(sha, disk, upload, material);
    FailingIs(sha, disk, upload, Sha256Mismatch, material);
    FailingIs(sha, disk, upload, StagingFileMissing, material);
    CommittingIs(sha, disk, upload, material);
    RecoveredIs(sha, disk, upload, material);
  }

  lemma EnteredRows(disk: Disk, upload: UploadId)
    requires Known(disk, upload)
    ensures (var entered := Entered(disk, upload, Committed);
             Known(entered, upload) && entered.rows[upload].sha == disk.rows[upload].sha && entered.blobs == disk.blobs)
  {
  }

  /** The whole reconciliation of one upload, in one piece, on any disk. */
  lemma ReconciledIs(sha: Sha256, disk: Disk, upload: UploadId, material: MaterialId)
    requires Known(disk, upload)
    ensures ReconcileUpload(sha, disk, upload, material) == Reconciled(sha, disk, upload, material)
  {
    hide Drive, Failing, Finishing, Committing, Completed, Entered, Publish, PublishBlocked, AdvanceWrite, InsertChunk;
    match disk.rows[upload].state {
      case Transferring =>
        DriveStep(sha, disk, upload, ProbeTransferring, 0, material);
        FailingIs(sha, disk, upload, StagingFileMissing, material);
        DriveMirror(sha, disk, upload, ManifestOf(disk, upload), Done, 0, material);
      case Staged =>
        DriveStep(sha, disk, upload, ProbeStaged, 0, material);
        FailingIs(sha, disk, upload, StagingFileMissing, material);
        CompletedIs(sha, disk, upload, material);
      case HashVerified => VerifiedIs(sha, disk, upload, material);
      case Committed =>
        var row := disk.rows[upload];
        DriveStep(sha, disk, upload, DecideCommitted, 0, material);
        FinishingIs(sha, disk, upload, if row.sha in disk.blobs then disk.blobs[row.sha].path else BlobPath(row.sha),
                    Unstored(disk, row.sha), material);
      case Cancelled =>
        DriveStep(sha, disk, upload, CleanCancelled, 0, material);
        DriveMirror(sha, RemoveFile(disk, StagingPath(upload)), upload, ManifestOf(disk, upload), Done, 0, material);
      case _ => DriveMirror(sha, disk, upload, ManifestOf(disk, upload), Done, 0, material);
    }
  }

  // What it finds

  /** The file is there and hashes as expected. */
  ghost predicate Right(sha: Sha256, disk: Disk, path: Path, hash: Hash) {
    path in disk.files && sha(disk.files[path].bytes) == hash
  }

  /** What an operation on one upload may leave: an error recorded, or the upload published with its reference. */
  ghost predicate Told(after: Disk, upload: UploadId, outcome: Outcome, material: MaterialId) {
    && Known(after, upload) && MirrorSaved(after, upload)
    && (outcome.Failed? ==> after.rows[upload].state == RecoverableError)
    && (outcome.Published? ==>
          && after.rows[upload].state == Ready && outcome.material == material
          && material in after.references && after.references[material].upload == upload)
  }

  lemma FailingTells(disk: Disk, upload: UploadId, reason: CompletionError, material: MaterialId)
    requires Known(disk, upload)
    ensures Told(Failing(disk, upload, reason).0, upload, Failed(reason), material)
  {
  }

  lemma FinishingTells(sha: Sha256, disk: Disk, upload: UploadId, path: Path, createBlob: bool, material: MaterialId)
    requires Known(disk, upload) && material !in disk.references && !Referenced(disk.references, upload)
    requires createBlob ==> disk.rows[upload].sha !in disk.blobs
    ensures (var (after, outcome) := Finishing(sha, disk, upload, path, createBlob, material);
             && Told(after, upload, outcome, material)
             && outcome == if path !in disk.files then Failed(BlobMissing)
                           else if !Right(sha, disk, path, disk.rows[upload].sha) then Failed(Sha256Mismatch)
                           else Published(material, path))
  {
    hide Failing, Referenced;
    FailingTells(disk, upload, BlobMissing, material);
    FailingTells(disk, upload, Sha256Mismatch, material);
    FailingOutcome(disk, upload, BlobMissing);
    FailingOutcome(disk, upload, Sha256Mismatch);
  }

  lemma FailingOutcome(disk: Disk, upload: UploadId, reason: CompletionError)
    requires Known(disk, upload)
    ensures Failing(disk, upload, reason).1 == Failed(reason)
  {
  }

  /** What an upload with its right bytes staged ends in. */
  lemma CommittingTells(sha: Sha256, disk: Disk, upload: UploadId, material: MaterialId)
    requires Known(disk, upload) && BlobPathsOk(disk)
    requires material !in disk.references && !Referenced(disk.references, upload)
    requires Right(sha, disk, StagingPath(upload), disk.rows[upload].sha)
    ensures (var (after, outcome) := Committing(sha, disk, upload, material);
             var own := BlobPath(disk.rows[upload].sha);
             var stored := disk.rows[upload].sha in disk.blobs;
             && Told(after, upload, outcome, material)
             && outcome == if stored && own !in disk.files then Failed(BlobMissing)
                           else if stored && !Right(sha, disk, own, disk.rows[upload].sha) then Failed(Sha256Mismatch)
                           else Published(material, own))
  {
    hide Failing, Finishing, Told, Referenced, BlobPathsOk;
    var own, staging := BlobPath(disk.rows[upload].sha), StagingPath(upload);
    if disk.rows[upload].sha in disk.blobs {
      OwnPath(disk, disk.rows[upload].sha);
      FailingTells(disk, upload, BlobMissing, material);
      FailingOutcome(disk, upload, BlobMissing);
      FinishingTells(sha, Entered(RemoveFile(disk, staging), upload, Committed), upload, own, false, material);
    } else {
      FinishingTells(sha, Entered(MoveFile(disk, staging, own), upload, Committed), upload, own, true, material);
    }
  }

  lemma OwnPath(disk: Disk, hash: Hash)
    requires BlobPathsOk(disk) && hash in disk.blobs
    ensures disk.blobs[hash].path == BlobPath(hash)
  {
  }

  lemma CompletedTells(sha: Sha256, disk: Disk, upload: UploadId, material: MaterialId)
    requires Known(disk, upload) && BlobPathsOk(disk) && StagingPath(upload) in disk.files
    requires material !in disk.references && !Referenced(disk.references, upload)
    ensures (var (after, outcome) := Completed(sha, disk, upload, material);
             var hash, own := disk.rows[upload].sha, BlobPath(disk.rows[upload].sha);
             && Told(after, upload, outcome, material)
             && outcome == if !Right(sha, disk, StagingPath(upload), hash) then Failed(Sha256Mismatch)
                           else if hash in disk.blobs && own !in disk.files then Failed(BlobMissing)
                           else if hash in disk.blobs && !Right(sha, disk, own, hash) then Failed(Sha256Mismatch)
                           else Published(material, own))
  {
    hide Failing, Committing, Told, Referenced;
    FailingTells(disk, upload, Sha256Mismatch, material);
    FailingOutcome(disk, upload, Sha256Mismatch);
    if Right(sha, disk, StagingPath(upload), disk.rows[upload].sha) {
      CommittingTells(sha, Entered(disk, upload, HashVerified), upload, material);
    }
  }

  /** Whatever the disk: a publication made the upload ready and inserted its reference, a failure recorded the error. */
  lemma CompletedMeans(sha: Sha256, disk: Disk, upload: UploadId, material: MaterialId)
    requires Known(disk, upload)
    ensures (var (after, outcome) := Completed(sha, disk, upload, material);
             && upload in after.rows
             && (outcome.Published? || outcome.Failed? || outcome.Threw?)
             && (outcome.Failed? ==> after.rows[upload].state == RecoverableError && !outcome.reason.UploadIncomplete?)
             && (outcome.Published? ==>
                   && after.rows[upload].state == Ready
                   && outcome.material in after.references && after.references[outcome.material].upload == upload))
  {
    hide Referenced, ManifestOf;
  }

  /**
   On any disk with consistent tables, whatever happened to its files: a reconciliation of one upload never
   throws, saves its manifest, and ends exactly as the files say. It publishes if and only if the bytes are
   right where they are staged or, with none staged, where they were placed, and a stored blob is right too.
   */
  lemma ReconcileFindings(sha: Sha256, disk: Disk, upload: UploadId, material: MaterialId)
    requires TablesOk(disk) && Known(disk, upload) && material !in disk.references
    ensures (var (after, outcome) := ReconcileUpload(sha, disk, upload, material);
             var state, hash, staging := disk.rows[upload].state, disk.rows[upload].sha, StagingPath(upload);
             var own, stored, staged := BlobPath(hash), hash in disk.blobs, state == Staged || state == HashVerified;
             && Told(after, upload, outcome, material)
             && (outcome.Done? || outcome.Failed? || outcome.Published?)
             && (outcome.Done? ==> after.rows[upload] == disk.rows[upload])
             && (outcome.Done? <==>
                 (state == Transferring && staging in disk.files) || state in {Ready, RecoverableError, Cancelled})
             && (outcome == Failed(StagingFileMissing) <==>
                 staging !in disk.files
                 && (state == Transferring || state == Staged || (state == HashVerified && own !in disk.files)))
             && (outcome == Failed(BlobMissing) <==>
                 own !in disk.files
                 && (state == Committed || (staged && Right(sha, disk, staging, hash) && stored)))
             && (outcome == Published(material, own) <==>
                 || (staged && Right(sha, disk, staging, hash) && (stored ==> Right(sha, disk, own, hash)))
                 || (state == HashVerified && staging !in disk.files && Right(sha, disk, own, hash))
                 || (state == Committed && Right(sha, disk, own, hash)))
             && (outcome == Failed(Sha256Mismatch) <==>
                 || (staged && staging in disk.files && !Right(sha, disk, staging, hash))
                 || (staged && Right(sha, disk, staging, hash) && stored && own in disk.files && !Right(sha, disk, own, hash))
                 || (state == HashVerified && staging !in disk.files && own in disk.files && !Right(sha, disk, own, hash))
                 || (state == Committed && own in disk.files && !Right(sha, disk, own, hash))))
  {
    hide TablesOk, Drive, ReconcileUpload, Failing, Finishing, Committing, Completed, Told, Referenced;
    ReconciledIs(sha, disk, upload, material);
    var hash, own := disk.rows[upload].sha, BlobPath(disk.rows[upload].sha);
    TablesFacts(disk, upload);
    FailingTells(disk, upload, StagingFileMissing, material);
    FailingOutcome(disk, upload, StagingFileMissing);
    FailingTells(disk, upload, Sha256Mismatch, material);
    FailingOutcome(disk, upload, Sha256Mismatch);
    match disk.rows[upload].state {
      case Staged =>
        if StagingPath(upload) in disk.files {
          CompletedTells(sha, disk, upload, material);
        }
      case HashVerified =>
        if Right(sha, disk, StagingPath(upload), hash) {
          CommittingTells(sha, disk, upload, material);
        } else if StagingPath(upload) !in disk.files && own in disk.files {
          FinishingTells(sha, Entered(disk, upload, Committed), upload, own, Unstored(disk, hash), material);
        }
      case Committed =>
        FinishingTells(sha, disk, upload, own, Unstored(disk, hash), material);
      case _ => SavingTells(disk, upload, material);
    }
  }

  /**
   A full completion ends as the reconciliation of the upload it has just staged would, so it reports
   what `ReconcileFindings` says of that.
   */
  lemma CompletionEndsAsRecovery(sha: Sha256, disk: Disk, upload: UploadId, material: MaterialId)
    requires Known(disk, upload) && StagingPath(upload) in disk.files
    requires disk.rows[upload].state == Transferring && disk.rows[upload].received == disk.rows[upload].expected
    ensures (var (begun, pc) := BeginComplete(disk, upload);
             && Known(begun, upload)
             && Drive(sha, begun, upload, pc, 0, material)
                == ReconcileUpload(sha, Entered(disk, upload, Staged), upload, material))
  {
    hide Drive, ReconcileUpload, Completed;
    var changed := SetState(disk, upload, Staged);
    DriveStep(sha, changed, upload, Mirror(ManifestOf(changed, upload), HashStaged), 0, material);
    CompletedIs(sha, Entered(disk, upload, Staged), upload, material);
    ReconciledIs(sha, Entered(disk, upload, Staged), upload, material);
  }

  lemma TablesFacts(disk: Disk, upload: UploadId)
    requires TablesOk(disk) && Known(disk, upload)
    ensures BlobPathsOk(disk)
    ensures disk.rows[upload].sha in disk.blobs ==>
              disk.blobs[disk.rows[upload].sha].path == BlobPath(disk.rows[upload].sha)
    ensures disk.rows[upload].state != Ready ==> !Referenced(disk.references, upload)
  {
    hide RowsOk, ReferencesOk, OneReferenceEach, KeysOk;
    if disk.rows[upload].state != Ready {
      NotYetReferenced(disk, upload);
    }
  }

  lemma SavingTells(disk: Disk, upload: UploadId, material: MaterialId)
    requires Known(disk, upload)
    ensures (var saved := SaveManifest(disk, upload, ManifestOf(disk, upload));
             Told(saved, upload, Done, material) && saved.rows == disk.rows)
    ensures (var removed := RemoveFile(disk, StagingPath(upload));
             && Known(removed, upload)
             && (var saved := SaveManifest(removed, upload, ManifestOf(disk, upload));
                 Told(saved, upload, Done, material) && saved.rows == disk.rows))
  {
  }

  // A reconciliation always completes

  /** Only `upload`'s row, chunks and manifest changed, and at most `material` was added. */
  ghost predicate TableLocal(before: Disk, after: Disk, upload: UploadId, material: MaterialId) {
    && OnlyTouches(before, after, upload)
    && (forall v :: v in before.manifests && v != upload ==> v in after.manifests && after.manifests[v] == before.manifests[v])
    && after.references.Keys <= before.references.Keys + {material}
  }

  lemma TableLocalTransitive(a: Disk, b: Disk, c: Disk, upload: UploadId, material: MaterialId)
    requires TableLocal(a, b, upload, material) && TableLocal(b, c, upload, material)
    ensures TableLocal(a, c, upload, material)
  {
    assert forall v | v in a.rows && v != upload :: v in b.rows && c.rows[v] == a.rows[v];
    assert forall v | v in a.chunks && v != upload :: v in b.chunks && c.chunks[v] == a.chunks[v];
  }

  lemma {:induction false} DriveTables(sha: Sha256, disk: Disk, upload: UploadId, pc: Pc, wrote: nat, material: MaterialId)
    requires TablesOk(disk) && Known(disk, upload) && PcOk(sha, disk, upload, pc)
    ensures (var after := Drive(sha, disk, upload, pc, wrote, material).0;
             TablesOk(after) && TableLocal(disk, after, upload, material))
    decreases Rank(pc)
  {
    hide TablesOk, PcOk, Advance, OnlyTouches, Rank;
    if pc.Finished? {
      NothingTouched(disk, upload);
    } else {
      AdvanceRanks(sha, disk, upload, pc, wrote, material);
      AdvanceRows(sha, disk, upload, pc, wrote, material);
      AdvanceManifests(sha, disk, upload, pc, wrote, material);
      var (after, next) := Advance(sha, disk, upload, pc, wrote, material);
      DriveTables(sha, after, upload, next, wrote, material);
      TableLocalTransitive(disk, after, Drive(sha, after, upload, next, wrote, material).0, upload, material);
    }
  }

  lemma NothingTouched(disk: Disk, upload: UploadId)
    ensures OnlyTouches(disk, disk, upload)
  {
  }

  /** What a reconciliation leaves of an upload: a final state or one in transfer, with its manifest saved. */
  ghost predicate AtRest(disk: Disk, upload: UploadId) {
    && Known(disk, upload) && MirrorSaved(disk, upload)
    && disk.rows[upload].state in {Transferring, Ready, RecoverableError, Cancelled}
  }

  lemma ReconcileRests(sha: Sha256, disk: Disk, upload: UploadId, material: MaterialId)
    requires TablesOk(disk) && Known(disk, upload) && material !in disk.references
    ensures (var (after, outcome) := ReconcileUpload(sha, disk, upload, material);
             && !outcome.Threw? && AtRest(after, upload)
             && TablesOk(after) && TableLocal(disk, after, upload, material))
  {
    hide TablesOk, PcOk, Drive, TableLocal, Right;
    StartRows(sha, disk, upload, AppendInput(0, 0, [], ""));
    ReconcileFindings(sha, disk, upload, material);
    DriveTables(sha, disk, upload, BeginReconcile(disk, upload), 0, material);
  }

  lemma RestFrame(before: Disk, after: Disk, upload: UploadId, other: UploadId, material: MaterialId)
    requires TableLocal(before, after, other, material) && upload != other && Known(before, upload)
    ensures Known(after, upload) && after.rows[upload] == before.rows[upload]
    ensures AtRest(before, upload) ==> AtRest(after, upload)
  {
  }

  lemma {:induction false} ReconcileAlwaysCompletes(sha: Sha256, disk: Disk, uploads: seq<UploadId>, materials: UploadId -> MaterialId)
    requires TablesOk(disk) && Distinct(uploads) && FreshMaterials(disk, uploads, materials)
    requires forall u :: u in uploads ==> Known(disk, u)
    ensures (var (after, completed) := ReconcileAll(sha, disk, uploads, materials);
             && completed && TablesOk(after) && after.order == disk.order && after.rows.Keys == disk.rows.Keys
             && (forall u :: u in uploads ==> AtRest(after, u))
             && (forall u :: Known(disk, u) && u !in uploads ==>
                   Known(after, u) && after.rows[u] == disk.rows[u] && (AtRest(disk, u) ==> AtRest(after, u))))
    decreases |uploads|
  {
    hide TablesOk, AtRest, ReconcileUpload, FreshMaterials, Distinct, TableLocal;
    if uploads != [] {
      var first, material := uploads[0], materials(uploads[0]);
      FreshFirst(disk, uploads, materials);
      ReconcileRests(sha, disk, first, material);
      var after := ReconcileUpload(sha, disk, first, material).0;
      RestKeys(disk, after, first, material);
      StillFresh(disk, after, uploads, materials);
      forall u | Known(disk, u) && u != first
        ensures Known(after, u) && after.rows[u] == disk.rows[u] && (AtRest(disk, u) ==> AtRest(after, u))
      {
        RestFrame(disk, after, u, first, material);
      }
      forall u | u in uploads[1..] ensures Known(after, u) && u != first && u in uploads {
        assert u in uploads;
      }
      assert uploads == [first] + uploads[1..];
      ReconcileAlwaysCompletes(sha, after, uploads[1..], materials);
    }
  }

  lemma RestKeys(before: Disk, after: Disk, upload: UploadId, material: MaterialId)
    requires TableLocal(before, after, upload, material)
    ensures after.order == before.order && after.rows.Keys == before.rows.Keys
  {
  }

  lemma StillFresh(before: Disk, after: Disk, uploads: seq<UploadId>, materials: UploadId -> MaterialId)
    requires uploads != [] && Distinct(uploads) && FreshMaterials(before, uploads, materials)
    requires TableLocal(before, after, uploads[0], materials(uploads[0]))
    ensures Distinct(uploads[1..]) && FreshMaterials(after, uploads[1..], materials)
    ensures uploads[0] !in uploads[1..]
  {
    forall u | u in uploads[1..] ensures materials(u) !in after.references {
      assert u in uploads && u != uploads[0];
    }
  }

  /** The loop takes uploads from the front and stops at the first that throws. */
  lemma {:induction false} ReconcileInOrder(sha: Sha256, disk: Disk, front: seq<UploadId>, back: seq<UploadId>,
                                            materials: UploadId -> MaterialId)
    ensures (var (after, completed) := ReconcileAll(sha, disk, front, materials);
             ReconcileAll(sha, disk, front + back, materials)
             == if completed then ReconcileAll(sha, after, back, materials) else (after, false))
    ensures forall u :: Known(disk, u) ==>
              ReconcileAll(sha, disk, [u], materials)
              == (ReconcileUpload(sha, disk, u, materials(u)).0, !ReconcileUpload(sha, disk, u, materials(u)).1.Threw?)
    decreases |front|
  {
    hide ReconcileUpload;
    if front == [] {
      assert front + back == back;
    } else {
      assert (front + back)[1..] == front[1..] + back;
      if Known(disk, front[0]) {
        ReconcileInOrder(sha, ReconcileUpload(sha, disk, front[0], materials(front[0])).0, front[1..], back, materials);
      }
    }
  }

  /**
   After any run whatever, files changed from outside included, the next reconciliation completes: it never
   throws, and every upload is in transfer or in a final state with its manifest equal to row and chunks.
   */
  lemma AnyRunReconciles(sha: Sha256, capacity: int, events: seq<Event>, materials: UploadId -> MaterialId)
    requires Legal(sha, Begin(capacity), events)
    requires (var disk := After(sha, Begin(capacity), events).disk; FreshMaterials(disk, disk.order, materials))
    ensures (var disk := After(sha, Begin(capacity), events).disk;
             var (after, completed) := ReconcileAll(sha, disk, disk.order, materials);
             completed && after.rows.Keys == disk.rows.Keys && forall u :: u in disk.rows ==> AtRest(after, u))
  {
    hide FreshMaterials, ReconcileAll, RowsOk, ReferencesOk, OneReferenceEach, BlobPathsOk, PcOk, AtRest;
    BeginRows(sha, capacity);
    RunKeepsRows(sha, Begin(capacity), events);
    var disk := After(sha, Begin(capacity), events).disk;
    ReconcileAlwaysCompletes(sha, disk, disk.order, materials);
  }
}
