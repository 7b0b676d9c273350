/**
 Reconciliation after a restart: every upload in turn is driven to the end of its recovery operation,
 with nothing else running. It is total, loses no publication, and a second pass changes nothing.
 */
module LibraryRecovery {
  import opened Bytes
  import opened MaterialFiles
  import opened UploadRecords
  import opened UploadGuards
  import opened LibraryDisk
  import opened LibrarySteps
  import opened LibraryWorld
  import opened LibraryRows
  import opened LibraryFiles
  import opened LibraryPublication

  /** An upper bound on the turns an operation still takes. */
  function Rank(pc: Pc): nat {
    match pc
    case Finished(_) => 0
    case Mirror(_, next) => 1 + Rank(next)
    case WriteChunk(input, written) => 4 + if written < |input.bytes| then |input.bytes| - written else 0
    case PersistChunk(_) => 2
    case DropStaging => 1
    case HashStaged => 15
    case StagedHashed(_) => 14
    case FindBlob => 12
    case ProbeBlob(_) => 11
    case ProbeStagingCopy(_) => 10
    case RemoveStagingCopy(_) => 9
    case ProbeStaging => 11
    case MoveStaging => 10
    case RecordCommitted(_, _) => 8
    case ProbeFinal(_, _) => 6
    case HashFinal(_, _) => 5
    case PublishReference(_, _) => 3
    case MarkError(_) => 2
    case ProbeTransferring => 3
    case ProbeStaged => 16
    case ProbeVerified => 14
    case HashVerifiedStaging => 13
    case ProbeOrphanBlob => 11
    case RecordRecovered => 10
    case DecideRecovered => 8
    case DecideCommitted => 8
    case CleanCancelled => 3
  }

  lemma AdvanceKnown(sha: Sha256, disk: Disk, upload: UploadId, pc: Pc, wrote: nat, material: MaterialId)
    requires Known(disk, upload)
    ensures Known(Advance(sha, disk, upload, pc, wrote, material).0, upload)
  {
    hide PublishBlocked, Write, Sync;
  }

  lemma AdvanceRanks(sha: Sha256, disk: Disk, upload: UploadId, pc: Pc, wrote: nat, material: MaterialId)
    requires Known(disk, upload) && !pc.Finished?
    ensures Known(Advance(sha, disk, upload, pc, wrote, material).0, upload)
    ensures Rank(Advance(sha, disk, upload, pc, wrote, material).1) < Rank(pc)
  {
    hide Advance, Rank;
    AdvanceKnown(sha, disk, upload, pc, wrote, material);
    if WritesTables(pc) {
      TableTurnRanks(sha, disk, upload, pc, wrote, material);
    } else if WritesFiles(pc) || pc.Mirror? {
      FileTurnRanks(sha, disk, upload, pc, wrote, material);
    } else {
      LookTurnRanks(sha, disk, upload, pc, wrote, material);
    }
  }

  lemma TableTurnRanks(sha: Sha256, disk: Disk, upload: UploadId, pc: Pc, wrote: nat, material: MaterialId)
    requires Known(disk, upload) && WritesTables(pc)
    ensures Rank(Advance(sha, disk, upload, pc, wrote, material).1) < Rank(pc)
  {
    hide PublishBlocked, SetState, Publish, InsertChunk, AdvanceWrite, MoveFile, RemoveFile;
    AdvanceKnown(sha, disk, upload, pc, wrote, material);
  }

  lemma FileTurnRanks(sha: Sha256, disk: Disk, upload: UploadId, pc: Pc, wrote: nat, material: MaterialId)
    requires Known(disk, upload) && (WritesFiles(pc) || pc.Mirror?)
    ensures Rank(Advance(sha, disk, upload, pc, wrote, material).1) < Rank(pc)
  {
    hide WriteFile, SyncFile, MoveFile, RemoveFile, SetState, Publish, PublishBlocked, InsertChunk;
  }

  lemma LookTurnRanks(sha: Sha256, disk: Disk, upload: UploadId, pc: Pc, wrote: nat, material: MaterialId)
    requires Known(disk, upload) && !WritesTables(pc) && !WritesFiles(pc) && !pc.Mirror? && !pc.Finished?
    ensures Rank(Advance(sha, disk, upload, pc, wrote, material).1) < Rank(pc)
  {
    hide Advance, Rank;
    if Reconciling(pc) {
      ReconcileTurnRanks(sha, disk, upload, pc, wrote, material);
    } else {
      CompleteTurnRanks(sha, disk, upload, pc, wrote, material);
    }
  }

  /** The turns only a reconciliation takes, but for the two that change something. */
  predicate Reconciling(pc: Pc) {
    || pc.ProbeTransferring? || pc.ProbeStaged? || pc.ProbeVerified? || pc.HashVerifiedStaging?
    || pc.ProbeOrphanBlob? || pc.DecideRecovered? || pc.DecideCommitted?
  }

  lemma ReconcileTurnRanks(sha: Sha256, disk: Disk, upload: UploadId, pc: Pc, wrote: nat, material: MaterialId)
    requires Known(disk, upload) && Reconciling(pc)
    ensures Rank(Advance(sha, disk, upload, pc, wrote, material).1) < Rank(pc)
  {
    hide AdvanceWrite, MoveFile, RemoveFile, SetState, Publish, PublishBlocked, InsertChunk, SaveManifest, ManifestOf;
  }

  lemma CompleteTurnRanks(sha: Sha256, disk: Disk, upload: UploadId, pc: Pc, wrote: nat, material: MaterialId)
    requires Known(disk, upload) && !Reconciling(pc)
    requires !WritesTables(pc) && !WritesFiles(pc) && !pc.Mirror? && !pc.Finished?
    ensures Rank(Advance(sha, disk, upload, pc, wrote, material).1) < Rank(pc)
  {
    hide AdvanceWrite, MoveFile, RemoveFile, SetState, Publish, PublishBlocked, InsertChunk, SaveManifest, ManifestOf;
  }

  /** Runs one operation to its end with nothing interleaved. */
  function Drive(sha: Sha256, disk: Disk, upload: UploadId, pc: Pc, wrote: nat, material: MaterialId): (r: (Disk, Outcome))
    requires Known(disk, upload)
    ensures Known(r.0, upload)
    decreases Rank(pc)
  {
    if pc.Finished? then
      (disk, pc.outcome)
    else
      AdvanceRanks(sha, disk, upload, pc, wrote, material);
      var (after, next) := Advance(sha, disk, upload, pc, wrote, material);
      Drive(sha, after, upload, next, wrote, material)
  }

  function ReconcileUpload(sha: Sha256, disk: Disk, upload: UploadId, material: MaterialId): (r: (Disk, Outcome))
    requires Known(disk, upload)
    ensures Known(r.0, upload)
  {
    Drive(sha, disk, upload, BeginReconcile(disk, upload), 0, material)
  }

  /** The loop over the stored uploads; an operation that throws ends the reconciliation. */
  function ReconcileAll(sha: Sha256, disk: Disk, uploads: seq<UploadId>, materials: UploadId -> MaterialId): (Disk, bool)
    decreases |uploads|
  {
    if uploads == [] then
      (disk, true)
    else if !(uploads[0] in disk.rows && uploads[0] in disk.chunks) then
      (disk, false)
    else
      var (after, outcome) := ReconcileUpload(sha, disk, uploads[0], materials(uploads[0]));
      if outcome.Threw? then (after, false) else ReconcileAll(sha, after, uploads[1..], materials)
  }

  // What one turn leaves alone

  ghost predicate Sound(sha: Sha256, disk: Disk) {
    TablesOk(disk) && DiskFilesOk(sha, disk)
  }

  /** Nothing but `upload`'s own row, chunks, manifest and staging file changed; at most `material` was added. */
  ghost predicate Local(before: Disk, after: Disk, upload: UploadId, material: MaterialId) {
    && OnlyTouches(before, after, upload)
    && FilesTouch(before, after, upload)
    && (forall v :: v in before.manifests && v != upload ==> v in after.manifests && after.manifests[v] == before.manifests[v])
    && after.references.Keys <= before.references.Keys + {material}
  }

  lemma LocalTransitive(a: Disk, b: Disk, c: Disk, upload: UploadId, material: MaterialId)
    requires Local(a, b, upload, material) && Local(b, c, upload, material)
    ensures Local(a, c, upload, material)
  {
    assert forall v | v in a.rows && v != upload :: v in b.rows && c.rows[v] == a.rows[v];
    assert forall v | v in a.chunks && v != upload :: v in b.chunks && c.chunks[v] == a.chunks[v];
  }

  lemma LocalItself(disk: Disk, upload: UploadId, material: MaterialId)
    ensures Local(disk, disk, upload, material)
  {
  }

  lemma AdvanceManifests(sha: Sha256, disk: Disk, upload: UploadId, pc: Pc, wrote: nat, material: MaterialId)
    requires Known(disk, upload)
    ensures var after := Advance(sha, disk, upload, pc, wrote, material).0;
            && (forall v :: v in disk.manifests && v != upload ==>
                  v in after.manifests && after.manifests[v] == disk.manifests[v])
            && after.references.Keys <= disk.references.Keys + {material}
  {
    hide PublishBlocked, ManifestOf, RecordOf, AdvanceWrite;
    if pc.WriteChunk? {
      WriteKeepsManifests(disk, upload, pc.input, pc.written, wrote);
    }
  }

  lemma WriteKeepsManifests(disk: Disk, upload: UploadId, input: AppendInput, written: nat, wrote: nat)
    ensures var after := AdvanceWrite(disk, upload, input, written, wrote).0;
            after.manifests == disk.manifests && after.references == disk.references
  {
  }

  lemma AdvanceSound(sha: Sha256, disk: Disk, upload: UploadId, pc: Pc, wrote: nat, material: MaterialId)
    requires Sound(sha, disk) && Known(disk, upload)
    requires PcOk(sha, disk, upload, pc) && PcFileOk(sha, disk, upload, pc)
    ensures var (after, next) := Advance(sha, disk, upload, pc, wrote, material);
            && Sound(sha, after) && Local(disk, after, upload, material)
            && Known(after, upload) && PcOk(sha, after, upload, next) && PcFileOk(sha, after, upload, next)
  {
    hide TablesOk, PcOk, PcFileOk, Advance, BlobFilesOk, Durable, FileOk;
    AdvanceRows(sha, disk, upload, pc, wrote, material);
    AdvanceFiles(sha, disk, upload, pc, wrote, material);
    AdvanceManifests(sha, disk, upload, pc, wrote, material);
    var after := Advance(sha, disk, upload, pc, wrote, material).0;
    forall u | u in after.rows && u in after.chunks ensures FileOk(sha, after, u) {
      if u != upload {
        FileOkFrame(sha, disk, after, u, upload);
      }
    }
  }

  /** Driving an operation to its end keeps the disk sound and touches only its own upload. */
  lemma {:induction false} DriveSound(sha: Sha256, disk: Disk, upload: UploadId, pc: Pc, wrote: nat, material: MaterialId)
    requires Sound(sha, disk) && Known(disk, upload)
    requires PcOk(sha, disk, upload, pc) && PcFileOk(sha, disk, upload, pc)
    ensures Sound(sha, Drive(sha, disk, upload, pc, wrote, material).0)
    ensures Local(disk, Drive(sha, disk, upload, pc, wrote, material).0, upload, material)
    decreases Rank(pc)
  {
    hide Sound, PcOk, PcFileOk, Advance, Local, Rank;
    if pc.Finished? {
      LocalItself(disk, upload, material);
    } else {
      AdvanceRanks(sha, disk, upload, pc, wrote, material);
      AdvanceSound(sha, disk, upload, pc, wrote, material);
      var (after, next) := Advance(sha, disk, upload, pc, wrote, material);
      DriveSound(sha, after, upload, next, wrote, material);
      LocalTransitive(disk, after, Drive(sha, after, upload, next, wrote, material).0, upload, material);
    }
  }

  // Publication always completes when nothing is interleaved

  ghost predicate MirrorSaved(disk: Disk, upload: UploadId)
    requires Known(disk, upload)
  {
    upload in disk.manifests && disk.manifests[upload] == ManifestOf(disk, upload)
  }

  /** The operation is on a path that ends with the upload `Ready` and its manifest saved. */
  ghost predicate Publishing(disk: Disk, upload: UploadId, pc: Pc, material: MaterialId)
    requires Known(disk, upload)
  {
    var unstored := disk.rows[upload].sha !in disk.blobs;
    match pc
    case Finished(outcome) => outcome.Published? && disk.rows[upload].state == Ready && MirrorSaved(disk, upload)
    case Mirror(_, Finished(outcome)) => outcome.Published? && disk.rows[upload].state == Ready
    case Mirror(_, next) => Publishing(disk, upload, next, material)
    case ProbeStaging => material !in disk.references && unstored
    case MoveStaging => material !in disk.references && unstored
    case RecordCommitted(_, createBlob) => material !in disk.references && (createBlob ==> unstored)
    case ProbeFinal(_, createBlob) => material !in disk.references && (createBlob ==> unstored)
    case HashFinal(_, createBlob) => material !in disk.references && (createBlob ==> unstored)
    case PublishReference(_, createBlob) => material !in disk.references && (createBlob ==> unstored)
    case HashStaged | StagedHashed(_) | ProbeStaged => material !in disk.references
    case FindBlob | ProbeBlob(_) | ProbeStagingCopy(_) | RemoveStagingCopy(_) => material !in disk.references
    case ProbeVerified | HashVerifiedStaging | ProbeOrphanBlob => material !in disk.references
    case RecordRecovered | DecideRecovered | DecideCommitted => material !in disk.references
    case _ => false
  }

  lemma NotYetReferenced(disk: Disk, upload: UploadId)
    requires TablesOk(disk) && Known(disk, upload) && disk.rows[upload].state != Ready
    ensures !Referenced(disk.references, upload)
  {
    hide ChunkTableOk, OrderOk;
    assert RowOk(disk, upload);
  }

  lemma SoundFacts(sha: Sha256, disk: Disk, upload: UploadId)
    requires Sound(sha, disk) && Known(disk, upload)
    ensures BlobFilesOk(sha, disk) && BlobPathsOk(disk) && FileOk(sha, disk, upload)
    ensures disk.rows[upload].state != Ready ==> !Referenced(disk.references, upload)
  {
    hide BlobFilesOk, BlobPathsOk, FileOk, Durable, ChunkTableOk, OrderOk;
    OneFileOk(sha, disk, upload);
    if disk.rows[upload].state != Ready {
      NotYetReferenced(disk, upload);
    }
  }

  lemma MirrorTurnPublishes(sha: Sha256, disk: Disk, upload: UploadId, pc: Pc, wrote: nat, material: MaterialId)
    requires Known(disk, upload) && pc.Mirror? && PcOk(sha, disk, upload, pc)
    requires Publishing(disk, upload, pc, material)
    ensures var (after, next) := Advance(sha, disk, upload, pc, wrote, material);
            Known(after, upload) && Publishing(after, upload, next, material)
  {
    var after := SaveManifest(disk, upload, pc.manifest);
    if !pc.next.Finished? {
      PublishingFrame(disk, after, upload, pc.next, material);
    }
  }

  lemma {:induction false} PublishingFrame(before: Disk, after: Disk, upload: UploadId, pc: Pc, material: MaterialId)
    requires Known(before, upload) && Known(after, upload)
    requires before.rows == after.rows && before.blobs == after.blobs && before.references == after.references
    requires !pc.Finished? && Publishing(before, upload, pc, material)
    ensures Publishing(after, upload, pc, material)
  {
    if pc.Mirror? && !pc.next.Finished? {
      PublishingFrame(before, after, upload, pc.next, material);
    }
  }

  predicate Checking(pc: Pc) {
    || pc.HashStaged? || pc.StagedHashed? || pc.ProbeStaged?
    || pc.ProbeVerified? || pc.HashVerifiedStaging? || pc.ProbeOrphanBlob?
  }

  predicate Placing(pc: Pc) {
    || pc.FindBlob? || pc.ProbeBlob? || pc.ProbeStagingCopy?
    || pc.RemoveStagingCopy? || pc.ProbeStaging? || pc.MoveStaging?
  }

  lemma CheckingPublishes(sha: Sha256, disk: Disk, upload: UploadId, pc: Pc, wrote: nat, material: MaterialId)
    requires Sound(sha, disk) && Destined(sha, disk, upload)
    requires PcOk(sha, disk, upload, pc) && PcFileOk(sha, disk, upload, pc)
    requires Checking(pc)
    requires Publishing(disk, upload, pc, material)
    ensures var (after, next) := Advance(sha, disk, upload, pc, wrote, material);
            Known(after, upload) && Publishing(after, upload, next, material)
  {
    hide Sound, ChunkHeld, StagingOk, JudgeAppend, Torn, Stable, AdvanceWrite, RemoveFile, MoveFile;
    SoundFacts(sha, disk, upload);
  }

  lemma PlacingPublishes(sha: Sha256, disk: Disk, upload: UploadId, pc: Pc, wrote: nat, material: MaterialId)
    requires Sound(sha, disk) && Destined(sha, disk, upload)
    requires PcOk(sha, disk, upload, pc) && PcFileOk(sha, disk, upload, pc)
    requires Placing(pc)
    requires Publishing(disk, upload, pc, material)
    ensures var (after, next) := Advance(sha, disk, upload, pc, wrote, material);
            Known(after, upload) && Publishing(after, upload, next, material)
  {
    hide Sound, PcOk, FileOk, BlobFilesOk, BlobPathsOk, Advance;
    SoundFacts(sha, disk, upload);
    if pc.RemoveStagingCopy? || pc.MoveStaging? {
      MovingPublishes(sha, disk, upload, pc, wrote, material);
    } else {
      LookingPublishes(sha, disk, upload, pc, wrote, material);
    }
  }

  /** A removed copy or a moved file changes no table. */
  lemma MovingPublishes(sha: Sha256, disk: Disk, upload: UploadId, pc: Pc, wrote: nat, material: MaterialId)
    requires Known(disk, upload) && PcFileOk(sha, disk, upload, pc) && Publishing(disk, upload, pc, material)
    requires pc.RemoveStagingCopy? || pc.MoveStaging?
    ensures var (after, next) := Advance(sha, disk, upload, pc, wrote, material);
            Known(after, upload) && Publishing(after, upload, next, material)
  {
  }

  lemma LookingPublishes(sha: Sha256, disk: Disk, upload: UploadId, pc: Pc, wrote: nat, material: MaterialId)
    requires Known(disk, upload) && BlobFilesOk(sha, disk) && BlobPathsOk(disk)
    requires PcOk(sha, disk, upload, pc) && PcFileOk(sha, disk, upload, pc) && Publishing(disk, upload, pc, material)
    requires pc.FindBlob? || pc.ProbeBlob? || pc.ProbeStagingCopy? || pc.ProbeStaging?
    ensures var (after, next) := Advance(sha, disk, upload, pc, wrote, material);
            Known(after, upload) && Publishing(after, upload, next, material)
  {
    hide RemoveFile, MoveFile;
  }

  lemma RecordingPublishes(sha: Sha256, disk: Disk, upload: UploadId, pc: Pc, wrote: nat, material: MaterialId)
    requires Sound(sha, disk) && Destined(sha, disk, upload)
    requires PcOk(sha, disk, upload, pc) && PcFileOk(sha, disk, upload, pc)
    requires !Checking(pc) && !Placing(pc) && !pc.Finished? && !pc.Mirror?
    requires Publishing(disk, upload, pc, material)
    ensures var (after, next) := Advance(sha, disk, upload, pc, wrote, material);
            Known(after, upload) && Publishing(after, upload, next, material)
  {
    hide Sound, ChunkHeld, StagingOk, JudgeAppend, Torn, Stable, AdvanceWrite, RemoveFile, MoveFile;
    SoundFacts(sha, disk, upload);
  }

  lemma StepPublishes(sha: Sha256, disk: Disk, upload: UploadId, pc: Pc, wrote: nat, material: MaterialId)
    requires Sound(sha, disk) && Destined(sha, disk, upload)
    requires PcOk(sha, disk, upload, pc) && PcFileOk(sha, disk, upload, pc)
    requires !pc.Finished? && !pc.Mirror? && Publishing(disk, upload, pc, material)
    ensures var (after, next) := Advance(sha, disk, upload, pc, wrote, material);
            Known(after, upload) && Publishing(after, upload, next, material)
  {
    hide *;
    if Checking(pc) {
      CheckingPublishes(sha, disk, upload, pc, wrote, material);
    } else if Placing(pc) {
      PlacingPublishes(sha, disk, upload, pc, wrote, material);
    } else {
      RecordingPublishes(sha, disk, upload, pc, wrote, material);
    }
  }

  lemma {:induction false} DrivePublishes(sha: Sha256, disk: Disk, upload: UploadId, pc: Pc, wrote: nat, material: MaterialId)
    requires Sound(sha, disk) && Destined(sha, disk, upload)
    requires PcOk(sha, disk, upload, pc) && PcFileOk(sha, disk, upload, pc)
    requires Publishing(disk, upload, pc, material)
    ensures var (after, outcome) := Drive(sha, disk, upload, pc, wrote, material);
            outcome.Published? && after.rows[upload].state == Ready && MirrorSaved(after, upload)
    decreases Rank(pc)
  {
    hide Sound, Destined, PcOk, PcFileOk, Advance, Local, Rank;
    if !pc.Finished? {
      hide Publishing;
      DestinedKnown(sha, disk, upload);
      AdvanceRanks(sha, disk, upload, pc, wrote, material);
      AdvanceSound(sha, disk, upload, pc, wrote, material);
      AdvanceDestined(sha, disk, upload, pc, wrote, material);
      if pc.Mirror? {
        MirrorTurnPublishes(sha, disk, upload, pc, wrote, material);
      } else {
        StepPublishes(sha, disk, upload, pc, wrote, material);
      }
      var (after, next) := Advance(sha, disk, upload, pc, wrote, material);
      DrivePublishes(sha, after, upload, next, wrote, material);
    }
  }
}
