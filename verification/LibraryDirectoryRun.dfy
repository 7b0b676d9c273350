/** Runs with power losses that take directory entries back: exactly those that keep the file invariant. */
module LibraryDirectoryRun {
  import opened Bytes
  import opened MaterialFiles
  import opened UploadRecords
  import opened UploadGuards
  import opened LibraryDisk
  import opened LibrarySteps
  import opened LibraryRows
  import opened LibraryStates
  import opened LibraryFiles
  import opened LibraryPublication
  import opened LibraryRecovery
  import opened LibraryReconcile
  import opened LibraryDirectory
  import opened LibraryDirectoryLoss
  import L = LibraryWorld

  lemma OtherStepsKeepFiles(sha: Sha256, v: Volume, step: Step)
    requires TrackInv(sha, v) && FileInv(sha, v.world) && Enabled(sha, v, step) && !Loses(step)
    ensures FileInv(sha, Apply(sha, v, step).world)
  {
    hide RowInv, FileInv, NamesOk, FoldersOk, L.Apply, L.Enabled, Tracked, MovesOf, Plain;
    match step {
      case Visible(event) => ApplyFiles(sha, v.world, event);
      case PowerLoss(files) => ApplyFiles(sha, v.world, L.Crash(files));
      case CreationReaches(_) | RemovalReaches(_) | MovesReach(_, _) | FolderReaches(_) | PowerBack =>
    }
  }

  /** The file invariant holds before every step of the run and at its end. */
  ghost predicate FilesThroughout(sha: Sha256, v: Volume, steps: seq<Step>)
    requires Legal(sha, v, steps)
    decreases |steps|
  {
    && FileInv(sha, v.world)
    && (steps == [] || FilesThroughout(sha, Apply(sha, v, steps[0]), steps[1..]))
  }

  /** Every entry that a power loss takes back in this run was spare. */
  ghost predicate AllSpare(sha: Sha256, v: Volume, steps: seq<Step>)
    requires Legal(sha, v, steps)
    decreases |steps|
  {
    steps == [] || (Spare(v, steps[0]) && AllSpare(sha, Apply(sha, v, steps[0]), steps[1..]))
  }

  lemma {:induction false} RunKeepsFilesIff(sha: Sha256, v: Volume, steps: seq<Step>)
    requires TrackInv(sha, v) && FileInv(sha, v.world) && Legal(sha, v, steps)
    ensures FilesThroughout(sha, v, steps) <==> AllSpare(sha, v, steps)
    decreases |steps|
  {
    hide TrackInv, FileInv, Enabled, Apply, Spare;
    if steps != [] {
      StepKeepsTrack(sha, v, steps[0]);
      if Loses(steps[0]) {
        LossKeepsFilesIff(sha, v, steps[0]);
      } else {
        OtherStepsKeepFiles(sha, v, steps[0]);
        OthersAreSpare(v, steps[0]);
      }
      var next := Apply(sha, v, steps[0]);
      if Spare(v, steps[0]) {
        RunKeepsFilesIff(sha, next, steps[1..]);
      } else {
        BrokenIsNotThroughout(sha, next, steps[1..]);
      }
    }
  }

  lemma OthersAreSpare(v: Volume, step: Step)
    requires !Loses(step)
    ensures Spare(v, step)
  {
  }

  lemma BrokenIsNotThroughout(sha: Sha256, v: Volume, steps: seq<Step>)
    requires Legal(sha, v, steps) && !FileInv(sha, v.world)
    ensures !FilesThroughout(sha, v, steps)
  {
  }

  lemma BeginIsTracked(sha: Sha256, capacity: int)
    ensures TrackInv(sha, Begin(capacity)) && FileInv(sha, Begin(capacity).world)
  {
    BeginRows(sha, capacity);
    BeginFiles(sha, capacity);
  }

  /**
   Over every run from an empty library, with power losses taking back any pending entries: the facts
   about files (chunks held, blobs true to their names, ready uploads with their blob) hold throughout
   if and only if every entry taken back was spare.
   */
  lemma LibraryKeepsFilesIff(sha: Sha256, capacity: int, steps: seq<Step>)
    requires Legal(sha, Begin(capacity), steps)
    ensures FilesThroughout(sha, Begin(capacity), steps) <==> AllSpare(sha, Begin(capacity), steps)
  {
    BeginIsTracked(sha, capacity);
    RunKeepsFilesIff(sha, Begin(capacity), steps);
  }

  lemma {:induction false} FilesAtEnd(sha: Sha256, v: Volume, steps: seq<Step>)
    requires Legal(sha, v, steps) && FilesThroughout(sha, v, steps) && TrackInv(sha, v)
    ensures TrackInv(sha, After(sha, v, steps)) && FileInv(sha, After(sha, v, steps).world)
    decreases |steps|
  {
    hide TrackInv, FileInv, Enabled, Apply;
    if steps != [] {
      StepKeepsTrack(sha, v, steps[0]);
      FilesAtEnd(sha, Apply(sha, v, steps[0]), steps[1..]);
    }
  }

  /** What the invariants of tables and files say of the volume's disk. */
  lemma SpareRunEnd(sha: Sha256, capacity: int, steps: seq<Step>)
    requires Legal(sha, Begin(capacity), steps) && AllSpare(sha, Begin(capacity), steps)
    ensures RowInv(sha, After(sha, Begin(capacity), steps).world)
    ensures FileInv(sha, After(sha, Begin(capacity), steps).world)
  {
    hide RowInv, FileInv, NamesOk, FoldersOk, Plain, Legal, After, AllSpare, FilesThroughout;
    LibraryKeepsFilesIff(sha, capacity, steps);
    BeginIsTracked(sha, capacity);
    FilesAtEnd(sha, Begin(capacity), steps);
  }

  /**
   Total, lossless recovery, when the entries that power losses took back were spare: the next
   reconciliation completes, settles every upload, and makes ready exactly those whose bytes were staged
   and hash as expected.
   */
  lemma SpareRunsRecover(sha: Sha256, capacity: int, steps: seq<Step>, materials: UploadId -> MaterialId)
    requires Legal(sha, Begin(capacity), steps) && AllSpare(sha, Begin(capacity), steps)
    requires (var disk := After(sha, Begin(capacity), steps).world.disk; FreshMaterials(disk, disk.order, materials))
    ensures (var disk := After(sha, Begin(capacity), steps).world.disk;
             var (after, completed) := ReconcileAll(sha, disk, disk.order, materials);
             && completed && after.rows.Keys == disk.rows.Keys
             && (forall u :: u in disk.rows ==>
                   && Settled(after, u) && Known(disk, u)
                   && after.rows[u].state in {Transferring, Ready, RecoverableError, Cancelled}
                   && (after.rows[u].state == Ready <==> Destined(sha, disk, u))))
  {
    hide Legal, After, AllSpare, FreshMaterials, ReconcileAll, RowsOk, ReferencesOk, OneReferenceEach, BlobPathsOk;
    hide PcOk, PcFileOk, DiskFilesOk;
    SpareRunEnd(sha, capacity, steps);
    var disk := After(sha, Begin(capacity), steps).world.disk;
    ReconcileCompletes(sha, disk, disk.order, materials);
  }

  /** And until then every blob file hashes to its name, and every blob row and ready upload has its file. */
  lemma SpareRunsKeepBlobs(sha: Sha256, capacity: int, steps: seq<Step>)
    requires Legal(sha, Begin(capacity), steps) && AllSpare(sha, Begin(capacity), steps)
    ensures (var disk := After(sha, Begin(capacity), steps).world.disk;
             && (forall s :: BlobPath(s) in disk.files ==>
                   sha(disk.files[BlobPath(s)].bytes) == s && Stable(disk.files[BlobPath(s)]))
             && (forall s :: s in disk.blobs ==> disk.blobs[s].path == BlobPath(s) && BlobPath(s) in disk.files)
             && (forall u :: u in disk.rows && disk.rows[u].state == Ready ==>
                   disk.rows[u].sha in disk.blobs && BlobPath(disk.rows[u].sha) in disk.files))
  {
    hide Legal, After, AllSpare, Stable, RowsOk, OneReferenceEach, PcOk, PcFileOk, FileOk;
    SpareRunEnd(sha, capacity, steps);
    var world := After(sha, Begin(capacity), steps).world;
    forall u | u in world.disk.rows && world.disk.rows[u].state == Ready
      ensures world.disk.rows[u].sha in world.disk.blobs
    {
      ReferencesOfRow(sha, world, u);
    }
  }
}
