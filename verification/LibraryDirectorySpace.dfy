/** What lost directory entries do to the storage promise: the space they take back, and a run in which it is too much. */
module LibraryDirectorySpace {
  import opened Bytes
  import opened MaterialFiles
  import opened UploadRecords
  import opened UploadGuards
  import opened LibraryDisk
  import opened LibrarySteps
  import opened LibraryRows
  import opened LibraryStates
  import opened LibraryFiles
  import opened LibraryCapacity
  import opened LibraryDirectory
  import opened LibraryDirectoryLoss
  import opened LibraryDirectoryRun
  import opened LibraryDirectoryKeeps
  import opened LibraryDirectoryRecovery
  import LibraryReconcileRun
  import Race = LibraryRace
  import L = LibraryWorld

  /** The free bytes that no upload in transfer has a claim on. */
  function Slack(disk: Disk): int {
    disk.free - SumOver(disk.order, DebtIn(disk))
  }

  /** The space a lost entry takes back: a file that returns has its blocks again, one that goes gives them up. */
  function Takes(v: Volume, step: Step): int
    requires step.LoseFolder? ==> forall p :: p in step.lost ==> p in v.world.disk.files
  {
    var disk := v.world.disk;
    match step
    case LoseCreation(upload) =>
      if StagingPath(upload) !in disk.files then 0
      else if upload in disk.rows && disk.rows[upload].state == Transferring then 0 - disk.rows[upload].expected
      else -|disk.files[StagingPath(upload)].blocks|
    case LoseRemoval(upload, file) => |file.blocks|
    case LoseMove(hash, below) =>
      if MovesOf(v.names, hash) != [] && LastMove(v.names, hash).below.Some? then |below.blocks| else 0
    case LoseFolder(folder, lost) =>
      0 - BlocksOf(disk.files, lost) - if folder.StagingFolder? then SumOver(disk.order, DebtIn(disk)) else 0
    case _ => 0
  }

  ghost predicate AllInRange(disk: Disk) {
    forall u :: u in disk.order ==> BlocksInRange(disk, u)
  }

  /** Only a staging file of an upload in transfer counts as debt. */
  lemma QuietDebts(before: Disk, after: Disk, upload: UploadId)
    requires after.order == before.order && after.rows == before.rows
    requires forall u :: u != upload ==> (StagingPath(u) in after.files <==> StagingPath(u) in before.files)
    requires forall u :: u != upload && StagingPath(u) in before.files ==>
               after.files[StagingPath(u)] == before.files[StagingPath(u)]
    requires upload in before.rows ==> before.rows[upload].state != Transferring
    ensures SumOver(after.order, DebtIn(after)) == SumOver(before.order, DebtIn(before))
    ensures AllInRange(before) ==> AllInRange(after)
  {
    forall u | u in before.order ensures DebtIn(before)(u) == DebtIn(after)(u) {
    }
    forall u | u in after.order && AllInRange(before) ensures BlocksInRange(after, u) {
      assert BlocksInRange(before, u);
    }
    SumSame(before.order, DebtIn(before), DebtIn(after));
  }

  /** A staging file that goes takes its upload's debt with it. */
  lemma LostFileDebts(before: Disk, upload: UploadId)
    requires OrderOk(before.order, before.rows.Keys) && upload in before.rows && before.rows[upload].state == Transferring
    requires StagingPath(upload) in before.files
    ensures (var after := RemoveFile(before, StagingPath(upload));
             && SumOver(after.order, DebtIn(after)) == SumOver(before.order, DebtIn(before)) - DebtIn(before)(upload)
             && (AllInRange(before) ==> AllInRange(after)))
  {
    var after := RemoveFile(before, StagingPath(upload));
    forall u | u in before.order && u != upload ensures DebtIn(before)(u) == DebtIn(after)(u) {
    }
    forall u | u in after.order && AllInRange(before) ensures BlocksInRange(after, u) {
      assert BlocksInRange(before, u);
    }
    SumChange(before.order, DebtIn(before), DebtIn(after), upload);
  }

  lemma LostCreationTakes(sha: Sha256, v: Volume, upload: UploadId)
    requires TrackInv(sha, v) && Enabled(sha, v, LoseCreation(upload))
    ensures (var after := Apply(sha, v, LoseCreation(upload)).world.disk;
             && Slack(after) == Slack(v.world.disk) - Takes(v, LoseCreation(upload))
             && (AllInRange(v.world.disk) ==> AllInRange(after)))
  {
    hide RowsOk, ReferencesOk, OneReferenceEach, BlobPathsOk, PcOk, Plain, NamesOk, FoldersOk, BlocksInRange, AllInRange;
    var disk := v.world.disk;
    if upload in disk.rows && disk.rows[upload].state == Transferring {
      LostFileDebts(disk, upload);
    } else {
      QuietDebts(disk, RemoveFile(disk, StagingPath(upload)), upload);
    }
  }

  lemma LostRemovalTakes(sha: Sha256, v: Volume, upload: UploadId, file: File)
    requires TrackInv(sha, v) && Enabled(sha, v, LoseRemoval(upload, file))
    ensures (var after := Apply(sha, v, LoseRemoval(upload, file)).world.disk;
             && Slack(after) == Slack(v.world.disk) - Takes(v, LoseRemoval(upload, file))
             && (AllInRange(v.world.disk) ==> AllInRange(after)))
  {
    hide RowInv, MoveOk, Torn, Plain, Verified, BlocksInRange, AllInRange, DebtIn;
    assert RemovedOk(sha, v.world.disk, v.names, upload);
    QuietDebts(v.world.disk, Apply(sha, v, LoseRemoval(upload, file)).world.disk, upload);
  }

  lemma LostMoveTakes(sha: Sha256, v: Volume, hash: Hash, below: File)
    requires TrackInv(sha, v) && Enabled(sha, v, LoseMove(hash, below))
    ensures (var after := Apply(sha, v, LoseMove(hash, below)).world.disk;
             && Slack(after) == Slack(v.world.disk) - Takes(v, LoseMove(hash, below))
             && (AllInRange(v.world.disk) ==> AllInRange(after)))
  {
    hide RowInv, RemovedOk, Torn, Plain, Verified, BlocksInRange, AllInRange, DebtIn;
    assert MoveOk(sha, v.world.disk, v.names, hash, |MovesOf(v.names, hash)| - 1);
    QuietDebts(v.world.disk, Apply(sha, v, LoseMove(hash, below)).world.disk, LastMove(v.names, hash).upload);
  }

  lemma {:induction false} SumZero(uploads: seq<UploadId>, f: UploadId -> int)
    requires forall u :: u in uploads ==> f(u) == 0
    ensures SumOver(uploads, f) == 0
  {
    if uploads != [] {
      SumZero(uploads[..|uploads| - 1], f);
    }
  }

  /** With `.staging` every claim goes; a directory of blobs holds none. */
  lemma LostFolderTakes(sha: Sha256, v: Volume, folder: Folder, lost: seq<Path>)
    requires Enabled(sha, v, LoseFolder(folder, lost))
    ensures (var after := Apply(sha, v, LoseFolder(folder, lost)).world.disk;
             && Slack(after) == Slack(v.world.disk) - Takes(v, LoseFolder(folder, lost))
             && (AllInRange(v.world.disk) ==> AllInRange(after)))
  {
    hide BlocksOf, WithoutFolder, Positions;
    var disk, after := v.world.disk, Apply(sha, v, LoseFolder(folder, lost)).world.disk;
    LostFilesAre(disk, folder, lost);
    assert after.free == disk.free + BlocksOf(disk.files, lost);
    forall u | u in after.order && AllInRange(disk) ensures BlocksInRange(after, u) {
      assert BlocksInRange(disk, u);
    }
    if folder.StagingFolder? {
      forall u | u in after.order ensures DebtIn(after)(u) == 0 {
        assert Within(StagingPath(u), folder);
      }
      SumZero(after.order, DebtIn(after));
    } else {
      forall u | u in disk.order ensures DebtIn(disk)(u) == DebtIn(after)(u) {
        assert !Within(StagingPath(u), folder);
      }
      SumSame(disk.order, DebtIn(disk), DebtIn(after));
    }
  }

  lemma LossTakes(sha: Sha256, v: Volume, step: Step)
    requires TrackInv(sha, v) && Enabled(sha, v, step) && Loses(step)
    ensures step.LoseFolder? ==> forall p :: p in step.lost ==> p in v.world.disk.files
    ensures Slack(Apply(sha, v, step).world.disk) == Slack(v.world.disk) - Takes(v, step)
    ensures AllInRange(v.world.disk) ==> AllInRange(Apply(sha, v, step).world.disk)
  {
    hide TrackInv, Apply, Slack, Takes, AllInRange;
    match step {
      case LoseCreation(upload) => LostCreationTakes(sha, v, upload);
      case LoseRemoval(upload, file) => LostRemovalTakes(sha, v, upload, file);
      case LoseMove(hash, below) => LostMoveTakes(sha, v, hash, below);
      case LoseFolder(folder, lost) => LostFolderTakes(sha, v, folder, lost);
    }
  }

  // A run in which it is too much

  lemma CancelRun(sha: Sha256, world: L.World, upload: UploadId)
    requires Known(world.disk, upload) && upload !in world.running && world.disk.rows[upload].state == Transferring
    requires 0 <= world.disk.free
    ensures (var events := [L.StartCancel(upload), L.Turn(upload, 0, "")];
             && L.Legal(sha, world, events)
             && L.After(sha, world, events)
                == Race.At(world, upload, Entered(world.disk, upload, Cancelled), DropStaging))
  {
    hide L.Legal, L.After, ManifestOf, L.Enabled, L.Apply;
    var changed := SetState(world.disk, upload, Cancelled);
    var entered := Entered(world.disk, upload, Cancelled);
    var mirror := Mirror(ManifestOf(changed, upload), DropStaging);
    StartCancelIs(sha, world, upload);
    Race.LeadsNone(sha, Race.At(world, upload, entered, DropStaging), upload);
    Race.LeadsOneAt(sha, world, upload, changed, mirror, entered, DropStaging, 0,
                    Race.At(world, upload, entered, DropStaging));
    OneTurn(upload);
    Race.RunPrepend(sha, world, L.StartCancel(upload), [L.Turn(upload, 0, "")]);
    assert [L.StartCancel(upload)] + [L.Turn(upload, 0, "")] == [L.StartCancel(upload), L.Turn(upload, 0, "")];
  }

  lemma OneTurn(upload: UploadId)
    ensures Race.Turns(upload, 1) == [L.Turn(upload, 0, "")]
  {
    assert Race.Turns(upload, 0) == [];
  }

  lemma StartCancelIs(sha: Sha256, world: L.World, upload: UploadId)
    requires Known(world.disk, upload) && upload !in world.running && world.disk.rows[upload].state == Transferring
    ensures L.Enabled(sha, world, L.StartCancel(upload))
    ensures (var changed := SetState(world.disk, upload, Cancelled);
             && Known(changed, upload)
             && L.Apply(sha, world, L.StartCancel(upload))
                == Race.At(world, upload, changed, Mirror(ManifestOf(changed, upload), DropStaging)))
  {
    hide ManifestOf;
  }

  /** The turn that unlinks a cancelled upload's staging file gives its blocks back. */
  lemma DropIs(sha: Sha256, v: Volume, upload: UploadId)
    requires !v.dark && Known(v.world.disk, upload) && 0 <= v.world.disk.free
    requires upload in v.world.running && v.world.running[upload] == DropStaging
    requires StagingPath(upload) in v.world.disk.files
    ensures Enabled(sha, v, Visible(L.Turn(upload, 0, "")))
    ensures (var file, after := v.world.disk.files[StagingPath(upload)], Apply(sha, v, Visible(L.Turn(upload, 0, "")));
             && !after.dark && after.world.creation == v.world.creation
             && after.world.running == v.world.running - {upload}
             && after.world.disk.rows == v.world.disk.rows && after.world.disk.order == v.world.disk.order
             && after.world.disk.chunks == v.world.disk.chunks
             && after.world.disk.files == v.world.disk.files - {StagingPath(upload)}
             && after.world.disk.free == v.world.disk.free + |file.blocks|
             && upload in after.names.removed && after.names.removed[upload] == file)
  {
    hide MovesOf;
  }

  lemma UnlinkCanBeLost(sha: Sha256, v: Volume, upload: UploadId) returns (steps: seq<Step>)
    requires TrackInv(sha, v) && FileInv(sha, v.world) && !v.dark && upload in v.names.removed
    ensures Legal(sha, v, steps)
    ensures (var after := After(sha, v, steps).world.disk;
             after.rows == v.world.disk.rows && after.free == v.world.disk.free - |v.names.removed[upload].blocks|)
  {
    hide RowInv, FoldersOk, BlobFilesOk, FileOk, PcFileOk, Torn, Legal, After, Enabled, Apply, MoveOk, Plain, Verified;
    var files, file := SettledFiles(v.world.disk.files), v.names.removed[upload];
    PowerCanGo(sha, v);
    PowerLossIs(sha, v, files);
    var dark := Apply(sha, v, PowerLoss(files));
    assert RemovedOk(sha, v.world.disk, v.names, upload);
    SettledIsTorn(file);
    LoseRemovalIs(sha, dark, upload, Settled(file));
    var after := Apply(sha, dark, LoseRemoval(upload, Settled(file)));
    StepsOfNone(sha, after);
    StepsPrepend(sha, dark, LoseRemoval(upload, Settled(file)), []);
    StepsPrepend(sha, v, PowerLoss(files), [LoseRemoval(upload, Settled(file))] + []);
    steps := [PowerLoss(files)] + ([LoseRemoval(upload, Settled(file))] + []);
  }

  lemma LoseRemovalIs(sha: Sha256, v: Volume, upload: UploadId, file: File)
    requires v.dark && upload in v.names.removed && StagingPath(upload) !in v.world.disk.files
    requires Returns(v.names.removed[upload], file)
    ensures Enabled(sha, v, LoseRemoval(upload, file))
    ensures (var after := Apply(sha, v, LoseRemoval(upload, file)).world.disk;
             after.rows == v.world.disk.rows && after.free == v.world.disk.free - |file.blocks|)
  {
    hide Torn;
  }

  function RunToCancelled(sha: Sha256, data: seq<Byte>, upload: UploadId, target: string): seq<L.Event> {
    RunToAcknowledged(sha, data, upload, target) + [L.StartCancel(upload), L.Turn(upload, 0, "")]
  }

  /** One upload is all there is, and its staging file fills the volume. */
  ghost predicate Alone(world: L.World, upload: UploadId, size: nat) {
    && Known(world.disk, upload) && world.disk.rows.Keys == {upload} && world.disk.order == [upload]
    && world.creation.NoCreation? && world.disk.free == 0
    && (forall u :: StagingPath(u) in world.disk.files <==> u == upload)
    && |world.disk.files[StagingPath(upload)].blocks| == size
  }

  lemma RunReachesReceived(sha: Sha256, data: seq<Byte>, upload: UploadId, target: string)
    requires 0 < |data| <= MAX_SAFE_INTEGER
    ensures L.Legal(sha, L.Begin(|data|), RunToAcknowledged(sha, data, upload, target))
    ensures (var after := L.After(sha, L.Begin(|data|), RunToAcknowledged(sha, data, upload, target));
             Alone(after, upload, |data|) && after.disk.rows[upload].state == Transferring && after.running == map[])
  {
    hide L.Enabled, L.Apply, L.Legal, L.After, Race.CreateEvents, Race.AppendEvents, Race.SameBlobFiles, Reserved;
    var request, input := L.CreateRequest(|data|, sha(data), target), AppendInput(0, 0, data, sha(data));
    var w0 := L.Begin(|data|);
    Race.ReservedOfNone(|data|);
    Race.CreateRun(sha, w0, upload, request);
    var w1 := L.After(sha, w0, Race.CreateEvents(upload, request));
    Race.AppendRun(sha, w1, upload, data);
    LibraryReconcileRun.RunConcat(sha, w0, Race.CreateEvents(upload, request), Race.AppendEvents(upload, input));
  }

  lemma CancelKeepsAlone(world: L.World, upload: UploadId, size: nat)
    requires Alone(world, upload, size) && world.running == map[]
    ensures (var after := Race.At(world, upload, Entered(world.disk, upload, Cancelled), DropStaging);
             && Alone(after, upload, size) && after.disk.rows[upload].state == Cancelled
             && after.running == map[upload := DropStaging])
  {
    hide ManifestOf;
  }

  /** A full library of one upload, received and then cancelled, just before its staging file goes. */
  lemma RunReachesCancelled(sha: Sha256, data: seq<Byte>, upload: UploadId, target: string)
    requires 0 < |data| <= MAX_SAFE_INTEGER
    ensures L.Legal(sha, L.Begin(|data|), RunToCancelled(sha, data, upload, target))
    ensures L.Untampered(RunToCancelled(sha, data, upload, target))
    ensures (var after := L.After(sha, L.Begin(|data|), RunToCancelled(sha, data, upload, target));
             && Alone(after, upload, |data|) && after.disk.rows[upload].state == Cancelled
             && after.running == map[upload := DropStaging])
  {
    hide L.Enabled, L.Apply, L.Legal, L.After, RunToAcknowledged, Entered, Race.At;
    RunReachesReceived(sha, data, upload, target);
    var received := L.After(sha, L.Begin(|data|), RunToAcknowledged(sha, data, upload, target));
    CancelRun(sha, received, upload);
    LibraryReconcileRun.RunConcat(sha, L.Begin(|data|), RunToAcknowledged(sha, data, upload, target),
                                  [L.StartCancel(upload), L.Turn(upload, 0, "")]);
    CancelKeepsAlone(received, upload, |data|);
    AcknowledgedRunIsClean(sha, data, upload, target);
  }

  lemma ReservedOfCancelled(disk: Disk, upload: UploadId)
    requires disk.order == [upload] && upload in disk.rows && disk.rows[upload].state == Cancelled
    ensures Reserved(disk) == 0
  {
    var promised := PromisedIn(disk);
    assert [upload][..0] == [];
    assert SumOver([], promised) == 0;
    assert SumOver([upload], promised) == promised(upload);
  }

  lemma CreateEventsAreOwn(upload: UploadId, request: L.CreateRequest, other: UploadId)
    requires other != upload
    ensures L.Untampered(Race.CreateEvents(upload, request))
    ensures forall e :: e in Race.CreateEvents(upload, request) ==> !e.Crash? && !(e.Turn? && e.upload == other)
  {
  }

  /**
   An admitted upload can find the volume full. In a library with room for one content: a first upload
   of it is received and cancelled, a second one is admitted on the space that the first gave back, and
   a power loss takes the unlink back. Nothing of the second is written, and no byte is free.
   */
  lemma AdmittedUploadFindsNoSpace(sha: Sha256, data: seq<Byte>, first: UploadId, second: UploadId, target: string)
    returns (steps: seq<Step>)
    requires first != second && 0 < |data| <= MAX_SAFE_INTEGER
    ensures Legal(sha, Begin(|data|), steps)
    ensures (var disk := After(sha, Begin(|data|), steps).world.disk;
             && second in disk.rows && disk.rows[second].state == Transferring
             && disk.rows[second].expected == |data| && disk.rows[second].received == 0 && disk.free == 0)
  {
    hide TrackInv, FileInv, Enabled, Apply, Legal, After, L.Enabled, L.Apply, L.Legal, L.After, Reserved;
    hide RunToCancelled, Race.CreateEvents, Race.SameBlobFiles, NewFoldersStay;
    var begin, request := Begin(|data|), L.CreateRequest(|data|, sha(data), target);
    RunReachesCancelled(sha, data, first, target);
    var before := ShownRun(sha, |data|, RunToCancelled(sha, data, first, target));
    var v := After(sha, begin, before);
    var drop := Visible(L.Turn(first, 0, ""));
    DropIs(sha, v, first);
    var dropped := Apply(sha, v, drop);
    StepKeepsTrack(sha, v, drop);
    OtherStepsKeepFiles(sha, v, drop);
    ReservedOfCancelled(dropped.world.disk, first);
    Race.CreateRun(sha, dropped.world, second, request);
    CreateEventsAreOwn(second, request, first);
    var create := LibraryRunsAreVolumeRuns(sha, dropped, Race.CreateEvents(second, request));
    var admitted := After(sha, dropped, create);
    RunWithoutLosses(sha, dropped, create);
    var loss := UnlinkCanBeLost(sha, admitted, first);
    StepsConcat(sha, dropped, create, loss);
    StepsPrepend(sha, v, drop, create + loss);
    StepsConcat(sha, begin, before, [drop] + (create + loss));
    steps := before + ([drop] + (create + loss));
  }
}
