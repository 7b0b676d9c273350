/**
 No publication is lost: an upload whose staged bytes hash to the expected value can only move towards
 `Ready`, wherever a crash, a failure or a race with another upload of the same hash stops it.
 */
module LibraryPublication {
  import opened Bytes
  import opened MaterialFiles
  import opened UploadRecords
  import opened UploadGuards
  import opened LibraryDisk
  import opened LibrarySteps
  import opened LibraryWorld
  import opened LibraryRows
  import opened LibraryFiles

  /** The upload has reached `Staged` with the right bytes, or gone further. */
  ghost predicate Destined(sha: Sha256, disk: Disk, upload: UploadId) {
    && Known(disk, upload)
    && (var row := disk.rows[upload];
        match row.state
        case Staged => StagingPath(upload) in disk.files && sha(disk.files[StagingPath(upload)].bytes) == row.sha
        case HashVerified => true
        case Committed => true
        case Ready => true
        case _ => false)
  }

  lemma AdvanceDestined(sha: Sha256, disk: Disk, upload: UploadId, pc: Pc, wrote: nat, material: MaterialId)
    requires Destined(sha, disk, upload)
    requires PcOk(sha, disk, upload, pc) && PcFileOk(sha, disk, upload, pc)
    ensures Destined(sha, Advance(sha, disk, upload, pc, wrote, material).0, upload)
  {
    hide PublishBlocked, FindChunk, ChunkHeld, PrefixWritten;
  }

  lemma DestinedFrame(sha: Sha256, before: Disk, after: Disk, upload: UploadId, other: UploadId)
    requires Destined(sha, before, upload) && upload != other
    requires OnlyTouches(before, after, other) && FilesTouch(before, after, other)
    ensures Destined(sha, after, upload)
  {
  }

  lemma BeginDestined(sha: Sha256, disk: Disk, upload: UploadId)
    requires Destined(sha, disk, upload)
    ensures Destined(sha, BeginComplete(disk, upload).0, upload)
    ensures Destined(sha, BeginCancel(disk, upload).0, upload)
  {
  }

  lemma ApplyDestined(sha: Sha256, world: World, event: Event, upload: UploadId)
    requires RowInv(sha, world) && FileInv(sha, world)
    requires Enabled(sha, world, event) && !event.Tamper?
    requires Destined(sha, world.disk, upload)
    ensures Destined(sha, Apply(sha, world, event).disk, upload)
  {
    hide OrderOk, RowsOk, ReferencesOk, OneReferenceEach, BlobPathsOk, DiskFilesOk, PcOk, PcFileOk, Destined;
    hide OnlyTouches, FilesTouch, Advance, BeginAppend, BeginComplete, BeginCancel, BeginReconcile, FreeAfter, Torn;
    var disk := world.disk;
    match event {
      case Turn(other, wrote, material) =>
        var pc := world.running[other];
        if other == upload {
          AdvanceDestined(sha, disk, upload, pc, wrote, material);
        } else {
          AdvanceRows(sha, disk, other, pc, wrote, material);
          AdvanceFiles(sha, disk, other, pc, wrote, material);
          DestinedFrame(sha, disk, Advance(sha, disk, other, pc, wrote, material).0, upload, other);
        }
      case StartComplete(other) =>
        if other == upload {
          BeginDestined(sha, disk, upload);
        } else {
          StartRows(sha, disk, other, AppendInput(0, 0, [], ""));
          StartsKeepFiles(disk, other);
          SameFiles(sha, disk, BeginComplete(disk, other).0, other);
          DestinedFrame(sha, disk, BeginComplete(disk, other).0, upload, other);
        }
      case StartCancel(other) =>
        if other == upload {
          BeginDestined(sha, disk, upload);
        } else {
          StartRows(sha, disk, other, AppendInput(0, 0, [], ""));
          StartsKeepFiles(disk, other);
          SameFiles(sha, disk, BeginCancel(disk, other).0, other);
          DestinedFrame(sha, disk, BeginCancel(disk, other).0, upload, other);
        }
      case Crash(files) =>
        CrashDestined(sha, disk, files, upload);
      case OpenStaging(other) =>
        DestinedKnown(sha, disk, upload);
        DestinedSame(sha, disk, CreateFile(disk, StagingPath(other)), upload);
      case InsertCreated =>
        DestinedKnown(sha, disk, upload);
        DestinedSame(sha, disk, Apply(sha, world, event).disk, upload);
      case _ =>
    }
  }

  lemma DestinedKnown(sha: Sha256, disk: Disk, upload: UploadId)
    requires Destined(sha, disk, upload)
    ensures Known(disk, upload)
  {
  }

  lemma DestinedSame(sha: Sha256, before: Disk, after: Disk, upload: UploadId)
    requires Destined(sha, before, upload) && Known(after, upload)
    requires after.rows[upload] == before.rows[upload]
    requires StagingPath(upload) in before.files ==>
               StagingPath(upload) in after.files && after.files[StagingPath(upload)] == before.files[StagingPath(upload)]
    ensures Destined(sha, after, upload)
  {
  }

  lemma CrashDestined(sha: Sha256, disk: Disk, files: map<Path, File>, upload: UploadId)
    requires TablesOk(disk) && DiskFilesOk(sha, disk) && Destined(sha, disk, upload)
    requires files.Keys == disk.files.Keys && forall p :: p in files ==> Torn(disk.files[p], files[p])
    ensures Destined(sha, disk.(files := files), upload)
  {
    hide TablesOk, BlobFilesOk, FileOk, Torn, Stable;
    if disk.rows[upload].state == Staged {
      StagedStable(sha, disk, upload);
      StableSurvivesCrash(disk.files[StagingPath(upload)], files[StagingPath(upload)]);
    }
  }

  /** Over any untampered run, a destined upload stays destined: it is never marked in error. */
  lemma {:induction false} RunKeepsDestined(sha: Sha256, world: World, events: seq<Event>, upload: UploadId)
    requires RowInv(sha, world) && FileInv(sha, world) && Destined(sha, world.disk, upload)
    requires Legal(sha, world, events) && Untampered(events)
    ensures Destined(sha, After(sha, world, events).disk, upload)
    decreases |events|
  {
    hide RowInv, FileInv, Apply, Enabled, Destined;
    if events != [] {
      assert events[0] in events;
      ApplyDestined(sha, world, events[0], upload);
      ApplyRows(sha, world, events[0]);
      ApplyFiles(sha, world, events[0]);
      RunKeepsDestined(sha, Apply(sha, world, events[0]), events[1..], upload);
    }
  }
}
