/** The whole reconciliation: what it leaves behind, that it loses nothing, and that it is idempotent. */
module LibraryReconcile {
  import opened Bytes
  import opened UploadRecords
  import opened UploadGuards
  import opened LibraryDisk
  import opened LibrarySteps
  import opened LibraryWorld
  import opened LibraryRows
  import opened LibraryStates
  import opened LibraryFiles
  import opened LibraryPublication
  import opened LibraryRecovery

  /** Nothing is left for a reconciliation to do on this upload. */
  ghost predicate Settled(disk: Disk, upload: UploadId) {
    && Known(disk, upload)
    && disk.rows[upload].state in {Transferring, Ready, RecoverableError, Cancelled}
    && MirrorSaved(disk, upload)
    && (disk.rows[upload].state == Transferring ==> StagingPath(upload) in disk.files)
    && (disk.rows[upload].state == Cancelled ==> StagingPath(upload) !in disk.files)
  }

  /** Where a reconciliation takes an upload: to `Ready` exactly when its bytes are the expected ones. */
  ghost function Resolved(sha: Sha256, disk: Disk, upload: UploadId): UploadState
    requires Known(disk, upload)
  {
    match disk.rows[upload].state
    case Staged => if Destined(sha, disk, upload) then Ready else RecoverableError
    case HashVerified => Ready
    case Committed => Ready
    case other => other
  }

  lemma DriveStep(sha: Sha256, disk: Disk, upload: UploadId, pc: Pc, wrote: nat, material: MaterialId)
    requires Known(disk, upload) && !pc.Finished?
    ensures Known(Advance(sha, disk, upload, pc, wrote, material).0, upload)
    ensures var (after, next) := Advance(sha, disk, upload, pc, wrote, material);
            Drive(sha, disk, upload, pc, wrote, material) == Drive(sha, after, upload, next, wrote, material)
  {
    hide Advance, Rank;
    AdvanceKnown(sha, disk, upload, pc, wrote, material);
  }

  lemma DriveMirror(sha: Sha256, disk: Disk, upload: UploadId, manifest: Manifest, outcome: Outcome, wrote: nat, material: MaterialId)
    requires Known(disk, upload)
    ensures Drive(sha, disk, upload, Mirror(manifest, Finished(outcome)), wrote, material)
         == (SaveManifest(disk, upload, manifest), outcome)
  {
    DriveStep(sha, disk, upload, Mirror(manifest, Finished(outcome)), wrote, material);
  }

  lemma BeginReconcileMayStand(sha: Sha256, disk: Disk, upload: UploadId)
    requires Sound(sha, disk) && Known(disk, upload)
    ensures PcOk(sha, disk, upload, BeginReconcile(disk, upload))
    ensures PcFileOk(sha, disk, upload, BeginReconcile(disk, upload))
  {
    hide TablesOk, DiskFilesOk;
    StartRows(sha, disk, upload, AppendInput(0, 0, [], ""));
    StartFiles(sha, disk, upload, AppendInput(0, 0, [], ""));
  }

  lemma MismatchedStaged(sha: Sha256, disk: Disk, upload: UploadId, material: MaterialId)
    requires Sound(sha, disk) && Known(disk, upload)
    requires disk.rows[upload].state == Staged && !Destined(sha, disk, upload)
    ensures ReconcileUpload(sha, disk, upload, material) == (
              var changed := SetState(disk, upload, RecoverableError);
              (SaveManifest(changed, upload, ManifestOf(changed, upload)), Failed(Sha256Mismatch)))
  {
    hide Sound, Drive, StagingOk;
    SoundFacts(sha, disk, upload);
    DriveStep(sha, disk, upload, ProbeStaged, 0, material);
    DriveStep(sha, disk, upload, HashStaged, 0, material);
    DriveStep(sha, disk, upload, StagedHashed(sha(disk.files[StagingPath(upload)].bytes)), 0, material);
    MarkErrorDrive(sha, disk, upload, material);
  }

  lemma MarkErrorDrive(sha: Sha256, disk: Disk, upload: UploadId, material: MaterialId)
    requires Known(disk, upload)
    ensures Drive(sha, disk, upload, MarkError(Sha256Mismatch), 0, material) == (
              var changed := SetState(disk, upload, RecoverableError);
              (SaveManifest(changed, upload, ManifestOf(changed, upload)), Failed(Sha256Mismatch)))
  {
    hide Drive;
    DriveStep(sha, disk, upload, MarkError(Sha256Mismatch), 0, material);
    var changed := SetState(disk, upload, RecoverableError);
    DriveMirror(sha, changed, upload, ManifestOf(changed, upload), Failed(Sha256Mismatch), 0, material);
  }

  /** Uploads whose state already is a final one only get their manifest, and a leftover file removed. */
  lemma QuietReconcile(sha: Sha256, disk: Disk, upload: UploadId, material: MaterialId)
    requires Sound(sha, disk) && Known(disk, upload)
    requires disk.rows[upload].state in {Transferring, Ready, RecoverableError, Cancelled}
    ensures ReconcileUpload(sha, disk, upload, material) == (
              var cleaned := if disk.rows[upload].state == Cancelled then RemoveFile(disk, StagingPath(upload)) else disk;
              (SaveManifest(cleaned, upload, ManifestOf(disk, upload)), Done))
  {
    hide Sound, Drive, StagingOk;
    SoundFacts(sha, disk, upload);
    if disk.rows[upload].state == Transferring {
      DriveStep(sha, disk, upload, ProbeTransferring, 0, material);
      DriveMirror(sha, disk, upload, ManifestOf(disk, upload), Done, 0, material);
    } else if disk.rows[upload].state == Cancelled {
      DriveStep(sha, disk, upload, CleanCancelled, 0, material);
      DriveMirror(sha, RemoveFile(disk, StagingPath(upload)), upload, ManifestOf(disk, upload), Done, 0, material);
    } else {
      DriveMirror(sha, disk, upload, ManifestOf(disk, upload), Done, 0, material);
    }
  }

  lemma ReconcileOne(sha: Sha256, disk: Disk, upload: UploadId, material: MaterialId)
    requires Sound(sha, disk) && Known(disk, upload) && material !in disk.references
    ensures var (after, outcome) := ReconcileUpload(sha, disk, upload, material);
            && !outcome.Threw?
            && Sound(sha, after) && Local(disk, after, upload, material)
            && Settled(after, upload)
            && after.rows[upload].state == Resolved(sha, disk, upload)
  {
    hide Sound, PcOk, PcFileOk, Drive, Local, Publish, Advance;
    BeginReconcileMayStand(sha, disk, upload);
    DriveSound(sha, disk, upload, BeginReconcile(disk, upload), 0, material);
    if disk.rows[upload].state in {Transferring, Ready, RecoverableError, Cancelled} {
      QuietReconcile(sha, disk, upload, material);
      KeepsStaging(sha, disk, upload);
    } else if Destined(sha, disk, upload) {
      DrivePublishes(sha, disk, upload, BeginReconcile(disk, upload), 0, material);
    } else {
      MismatchedStaged(sha, disk, upload, material);
    }
  }

  lemma KeepsStaging(sha: Sha256, disk: Disk, upload: UploadId)
    requires Sound(sha, disk) && Known(disk, upload)
    ensures disk.rows[upload].state == Transferring ==> StagingPath(upload) in disk.files
  {
    hide Sound, StagingOk;
    SoundFacts(sha, disk, upload);
  }

  /** A settled upload is a fixed point: no row, file or manifest changes. */
  lemma ReconcileSettled(sha: Sha256, disk: Disk, upload: UploadId, material: MaterialId)
    requires Sound(sha, disk) && Settled(disk, upload)
    ensures ReconcileUpload(sha, disk, upload, material) == (disk, Done)
  {
    hide Sound;
    QuietReconcile(sha, disk, upload, material);
    assert disk.manifests[upload := disk.manifests[upload]] == disk.manifests;
  }

  lemma SettledFrame(before: Disk, after: Disk, upload: UploadId, other: UploadId, material: MaterialId)
    requires Local(before, after, other, material) && upload != other
    ensures Settled(before, upload) ==> Settled(after, upload)
  {
  }

  lemma ResolvedFrame(sha: Sha256, before: Disk, after: Disk, upload: UploadId, other: UploadId, material: MaterialId)
    requires Local(before, after, other, material) && upload != other && Known(before, upload)
    ensures Known(after, upload) && after.rows[upload] == before.rows[upload]
    ensures Resolved(sha, after, upload) == Resolved(sha, before, upload)
  {
  }

  ghost predicate Distinct(uploads: seq<UploadId>) {
    forall i, j :: 0 <= i < j < |uploads| ==> uploads[i] != uploads[j]
  }

  /** The identifiers drawn for new references are fresh and differ from one another. */
  ghost predicate FreshMaterials(disk: Disk, uploads: seq<UploadId>, materials: UploadId -> MaterialId) {
    && (forall u :: u in uploads ==> materials(u) !in disk.references)
    && (forall u, v :: u in uploads && v in uploads && materials(u) == materials(v) ==> u == v)
  }

  lemma ReferencesFrame(before: Disk, after: Disk, uploads: seq<UploadId>, materials: UploadId -> MaterialId)
    requires uploads != [] && Distinct(uploads) && FreshMaterials(before, uploads, materials)
    requires Local(before, after, uploads[0], materials(uploads[0]))
    ensures Distinct(uploads[1..]) && FreshMaterials(after, uploads[1..], materials)
    ensures uploads[0] !in uploads[1..]
  {
    forall u | u in uploads[1..] ensures materials(u) !in after.references {
      assert u in uploads && u != uploads[0];
    }
  }

  /**
   Reconciliation from any sound disk completes, and takes every upload to its resolved state with its
   manifest saved, however many uploads share one hash; other uploads are untouched.
   */
  lemma {:induction false} ReconcileCompletes(sha: Sha256, disk: Disk, uploads: seq<UploadId>, materials: UploadId -> MaterialId)
    requires Sound(sha, disk) && Distinct(uploads) && FreshMaterials(disk, uploads, materials)
    requires forall u :: u in uploads ==> Known(disk, u)
    ensures var (after, completed) := ReconcileAll(sha, disk, uploads, materials);
            && completed && Sound(sha, after)
            && after.order == disk.order && after.rows.Keys == disk.rows.Keys
            && (forall u :: u in uploads ==> Settled(after, u) && after.rows[u].state == Resolved(sha, disk, u))
            && (forall u :: Known(disk, u) && u !in uploads ==>
                  Known(after, u) && after.rows[u] == disk.rows[u] && (Settled(disk, u) ==> Settled(after, u)))
    decreases |uploads|
  {
    hide Sound, Settled, ReconcileUpload, Resolved, FreshMaterials, Distinct, Local;
    if uploads != [] {
      var first, material := uploads[0], materials(uploads[0]);
      FreshFirst(disk, uploads, materials);
      ReconcileOne(sha, disk, first, material);
      var after := ReconcileUpload(sha, disk, first, material).0;
      LocalKeys(disk, after, first, material);
      ReferencesFrame(disk, after, uploads, materials);
      forall u | Known(disk, u) && u != first
        ensures Known(after, u) && after.rows[u] == disk.rows[u]
        ensures Resolved(sha, after, u) == Resolved(sha, disk, u) && (Settled(disk, u) ==> Settled(after, u))
      {
        ResolvedFrame(sha, disk, after, u, first, material);
        SettledFrame(disk, after, u, first, material);
      }
      forall u | u in uploads[1..] ensures Known(after, u) && u != first && u in uploads {
        assert u in uploads;
      }
      assert uploads == [first] + uploads[1..];
      ReconcileCompletes(sha, after, uploads[1..], materials);
    }
  }

  lemma FreshFirst(disk: Disk, uploads: seq<UploadId>, materials: UploadId -> MaterialId)
    requires uploads != [] && FreshMaterials(disk, uploads, materials)
    ensures materials(uploads[0]) !in disk.references
  {
  }

  lemma LocalKeys(before: Disk, after: Disk, upload: UploadId, material: MaterialId)
    requires Local(before, after, upload, material)
    ensures after.order == before.order && after.rows.Keys == before.rows.Keys && after.chunks.Keys == before.chunks.Keys
  {
  }

  lemma {:induction false} ReconcileSettledAll(sha: Sha256, disk: Disk, uploads: seq<UploadId>, materials: UploadId -> MaterialId)
    requires Sound(sha, disk) && forall u :: u in uploads ==> Settled(disk, u)
    ensures ReconcileAll(sha, disk, uploads, materials) == (disk, true)
    decreases |uploads|
  {
    hide Sound, ReconcileUpload, MirrorSaved;
    if uploads != [] {
      ReconcileSettled(sha, disk, uploads[0], materials(uploads[0]));
      ReconcileSettledAll(sha, disk, uploads[1..], materials);
    }
  }

  /** A second reconciliation changes no row, file or manifest. */
  lemma ReconcileIsIdempotent(sha: Sha256, disk: Disk, materials: UploadId -> MaterialId, again: UploadId -> MaterialId)
    requires Sound(sha, disk) && FreshMaterials(disk, disk.order, materials)
    ensures var after := ReconcileAll(sha, disk, disk.order, materials).0;
            ReconcileAll(sha, after, after.order, again) == (after, true)
  {
    hide FreshMaterials, ReconcileAll, DiskFilesOk, RowsOk, ReferencesOk, OneReferenceEach, BlobPathsOk;
    hide Settled, Resolved;
    ReconcileCompletes(sha, disk, disk.order, materials);
    var after := ReconcileAll(sha, disk, disk.order, materials).0;
    ReconcileSettledAll(sha, after, after.order, again);
  }

  /**
   Total, lossless recovery. After any untampered run that ends with nothing running (a crash may have
   struck at any step, recovery's own steps included), the next reconciliation completes; every upload
   is then settled; every upload whose bytes were staged and hash as expected is `Ready`, and no other
   unfinished one is.
   */
  lemma RecoveryLosesNothing(sha: Sha256, capacity: int, events: seq<Event>, materials: UploadId -> MaterialId)
    requires Legal(sha, Begin(capacity), events) && Untampered(events)
    requires var disk := After(sha, Begin(capacity), events).disk; FreshMaterials(disk, disk.order, materials)
    ensures var disk := After(sha, Begin(capacity), events).disk;
            var (after, completed) := ReconcileAll(sha, disk, disk.order, materials);
            && completed && after.rows.Keys == disk.rows.Keys
            && (forall u :: u in disk.rows ==>
                  && Settled(after, u) && Known(disk, u)
                  && after.rows[u].state in {Transferring, Ready, RecoverableError, Cancelled}
                  && (after.rows[u].state == Ready <==> Destined(sha, disk, u)))
  {
    hide FreshMaterials, ReconcileAll, DiskFilesOk, RowsOk, ReferencesOk, OneReferenceEach, BlobPathsOk, PcOk, PcFileOk;
    BeginRows(sha, capacity);
    BeginFiles(sha, capacity);
    RunKeepsFiles(sha, Begin(capacity), events);
    var disk := After(sha, Begin(capacity), events).disk;
    ReconcileCompletes(sha, disk, disk.order, materials);
  }

  /**
   Two uploads of one hash may both have found no blob row. The one that publishes second violates the
   primary key: its operation ends with nothing changed, and the upload stays destined for `Ready`.
   */
  lemma LostRaceKeepsPublication(sha: Sha256, world: World, upload: UploadId, path: Path, wrote: nat, material: MaterialId)
    requires RowInv(sha, world) && FileInv(sha, world)
    requires upload in world.running && world.running[upload] == PublishReference(path, true)
    requires Known(world.disk, upload) && world.disk.rows[upload].sha in world.disk.blobs
    ensures Enabled(sha, world, Turn(upload, wrote, material))
    ensures var next := Apply(sha, world, Turn(upload, wrote, material));
            && next.disk == world.disk && upload !in next.running
            && Advance(sha, world.disk, upload, PublishReference(path, true), wrote, material).1
               == Finished(Threw(ConstraintViolated))
            && next.disk.rows[upload].state == Committed && Destined(sha, next.disk, upload)
  {
    hide TablesOk, DiskFilesOk, PcFileOk, Referenced;
    assert PcOk(sha, world.disk, upload, world.running[upload]);
  }
}
