/**
 Every run of the library is a run over directory entries that all reach the disk in time; and the runs
 in which they do not: a ready upload without its file, an acknowledged chunk without its staging file.
 */
module LibraryDirectoryRecovery {
  import opened Bytes
  import opened MaterialFiles
  import opened UploadRecords
  import opened UploadGuards
  import opened LibraryDisk
  import opened LibrarySteps
  import opened LibraryRows
  import opened LibraryStates
  import opened LibraryFiles
  import opened LibraryDirectory
  import opened LibraryDirectoryLoss
  import opened LibraryDirectoryRun
  import opened LibraryDirectoryTrust
  import opened LibraryDirectoryKeeps
  import LibraryReconcileRun
  import Race = LibraryRace
  import L = LibraryWorld

  // Runs of the library, seen with their directory entries

  /** The blob path whose renames must be durable before the event. */
  function AwaitedBy(world: L.World, event: L.Event): Hash {
    if event.Turn? && event.upload in world.disk.rows then world.disk.rows[event.upload].sha else ""
  }

  /** Directories made since then are pending, and so are those that were. */
  ghost predicate NewFoldersStay(before: Names, after: Names) {
    && before.folders <= after.folders && before.newFolders <= after.newFolders
    && after.folders <= before.folders + after.newFolders
  }

  lemma ShowTurn(sha: Sha256, v: Volume, event: L.Event)
    requires !v.dark && L.Enabled(sha, v.world, event) && !event.Crash? && !event.Tamper?
    ensures (var hash := AwaitedBy(v.world, event);
             var settle := MovesReach(hash, |MovesOf(v.names, hash)|);
             && Enabled(sha, v, settle)
             && (var settled := Apply(sha, v, settle);
                 && settled.world == v.world && settled.names.created == v.names.created && !settled.dark
                 && Enabled(sha, settled, Visible(event))
                 && (var after := Apply(sha, settled, Visible(event));
                     && after.world == L.Apply(sha, v.world, event) && !after.dark
                     && (forall u :: u in v.names.created || event == L.OpenStaging(u) ==> u in after.names.created)
                     && (forall u :: u in v.names.removed && !(event.Turn? && event.upload == u) ==>
                           u in after.names.removed && after.names.removed[u] == v.names.removed[u])
                     && NewFoldersStay(v.names, after.names))))
  {
    hide L.Enabled, L.Apply;
    var hash := AwaitedBy(v.world, event);
    assert MovesOf(v.names, hash)[|MovesOf(v.names, hash)|..] == [];
  }

  predicate Shows(step: Step, events: seq<L.Event>) {
    match step
    case Visible(event) => event in events
    case MovesReach(_, _) => true
    case PowerLoss(files) => L.Crash(files) in events
    case PowerBack => exists e :: e in events && e.Crash?
    case _ => false
  }

  lemma ShowCrash(sha: Sha256, v: Volume, files: map<Path, File>)
    requires !v.dark && L.Enabled(sha, v.world, L.Crash(files))
    ensures Enabled(sha, v, PowerLoss(files)) && Enabled(sha, Apply(sha, v, PowerLoss(files)), PowerBack)
    ensures (var after := Apply(sha, Apply(sha, v, PowerLoss(files)), PowerBack);
             after.world == L.Apply(sha, v.world, L.Crash(files)) && !after.dark)
  {
    hide L.Enabled, L.Apply;
  }

  lemma TwoSteps(sha: Sha256, v: Volume, first: Step, second: Step, rest: seq<Step>)
    requires Enabled(sha, v, first) && Enabled(sha, Apply(sha, v, first), second)
    requires Legal(sha, Apply(sha, Apply(sha, v, first), second), rest)
    ensures Legal(sha, v, [first] + ([second] + rest))
    ensures After(sha, v, [first] + ([second] + rest)) == After(sha, Apply(sha, Apply(sha, v, first), second), rest)
  {
    hide Enabled, Apply, Legal, After;
    StepsPrepend(sha, Apply(sha, v, first), second, rest);
    StepsPrepend(sha, v, first, [second] + rest);
  }

  /**
   Directory entries add behaviour and take none away: every run of the library without outside
   tampering, crashes included, is a run here in which the entries reach the disk before they matter.
   */
  lemma {:induction false} LibraryRunsAreVolumeRuns(sha: Sha256, v: Volume, events: seq<L.Event>) returns (steps: seq<Step>)
    requires !v.dark && L.Legal(sha, v.world, events) && L.Untampered(events)
    ensures Legal(sha, v, steps)
    ensures After(sha, v, steps).world == L.After(sha, v.world, events) && !After(sha, v, steps).dark
    ensures forall s :: s in steps ==> Shows(s, events)
    ensures (forall e :: e in events ==> !e.Crash?) ==> NewFoldersStay(v.names, After(sha, v, steps).names)
    ensures (forall e :: e in events ==> !e.Crash?) ==>
              forall u :: u in v.names.created || L.OpenStaging(u) in events ==> u in After(sha, v, steps).names.created
    ensures (forall e :: e in events ==> !e.Crash?) ==>
              forall u :: u in v.names.removed && (forall e :: e in events ==> !(e.Turn? && e.upload == u)) ==>
                u in After(sha, v, steps).names.removed
                && After(sha, v, steps).names.removed[u] == v.names.removed[u]
    decreases |events|
  {
    hide Enabled, Apply, Legal, After, L.Enabled, L.Apply;
    if events == [] {
      steps := [];
      StepsOfNone(sha, v);
    } else {
      var event := events[0];
      assert event in events && forall e :: e in events[1..] ==> e in events;
      var first, second;
      if event.Crash? {
        first, second := PowerLoss(event.files), PowerBack;
        ShowCrash(sha, v, event.files);
      } else {
        var hash := AwaitedBy(v.world, event);
        first, second := MovesReach(hash, |MovesOf(v.names, hash)|), Visible(event);
        ShowTurn(sha, v, event);
      }
      var next := Apply(sha, Apply(sha, v, first), second);
      var rest := LibraryRunsAreVolumeRuns(sha, next, events[1..]);
      TwoSteps(sha, v, first, second, rest);
      steps := [first] + ([second] + rest);
      forall s | s in steps ensures Shows(s, events) {
        if s == second && event.Crash? {
          assert event in events && event.Crash?;
        } else if s in rest {
          assert Shows(s, events[1..]);
        }
      }
    }
  }

  // A rename that recovery takes for granted

  /** `count` turns of the upload's operation, and nothing else, lead from one volume to the other. */
  ghost predicate Leads(sha: Sha256, v: Volume, upload: UploadId, count: nat, after: Volume) {
    Legal(sha, v, SeenTurns(upload, count)) && After(sha, v, SeenTurns(upload, count)) == after
  }

  function SeenTurns(upload: UploadId, count: nat): seq<Step> {
    if count == 0 then [] else [Visible(L.Turn(upload, 0, ""))] + SeenTurns(upload, count - 1)
  }

  function At(v: Volume, upload: UploadId, disk: Disk, pc: Pc): Volume {
    v.(world := Race.At(v.world, upload, disk, pc))
  }

  /** Neither a rename, nor an unlink, nor the step that follows a synced rename. */
  predicate KeepsNames(pc: Pc) {
    !Unlinks(pc) && !pc.MoveStaging? && !Recording(pc)
  }

  lemma SeenTurnIs(sha: Sha256, v: Volume, upload: UploadId, before: Disk, pc: Pc, material: MaterialId, disk: Disk, next: Pc)
    requires !v.dark && Known(before, upload) && KeepsNames(pc) && !next.Finished? && 0 <= disk.free
    requires Advance(sha, before, upload, pc, 0, material) == (disk, next)
    ensures Enabled(sha, At(v, upload, before, pc), Visible(L.Turn(upload, 0, material)))
    ensures Apply(sha, At(v, upload, before, pc), Visible(L.Turn(upload, 0, material))) == At(v, upload, disk, next)
  {
    hide Advance;
    var here := At(v, upload, before, pc);
    Race.TurnIs(sha, here.world, upload, 0, material, disk, next);
    assert here.world.running[upload := next] == v.world.running[upload := next];
  }

  lemma LeadsOne(sha: Sha256, v: Volume, upload: UploadId, before: Disk, pc: Pc, disk: Disk, next: Pc,
                 count: nat, after: Volume)
    requires !v.dark && Known(before, upload) && KeepsNames(pc) && !next.Finished? && 0 <= disk.free
    requires Advance(sha, before, upload, pc, 0, "") == (disk, next)
    requires Leads(sha, At(v, upload, disk, next), upload, count, after)
    ensures Leads(sha, At(v, upload, before, pc), upload, count + 1, after)
  {
    hide Advance, Enabled, Apply, Legal, After, KeepsNames;
    SeenTurnIs(sha, v, upload, before, pc, "", disk, next);
    StepsPrepend(sha, At(v, upload, before, pc), Visible(L.Turn(upload, 0, "")), SeenTurns(upload, count));
  }

  lemma LeadsNone(sha: Sha256, v: Volume, upload: UploadId)
    ensures Leads(sha, v, upload, 0, v)
  {
  }

  lemma RecoveryEnds(sha: Sha256, v: Volume, upload: UploadId, disk: Disk)
    requires !v.dark && Known(disk, upload) && 0 <= disk.free && disk.rows[upload].sha !in disk.blobs
    requires BlobPath(disk.rows[upload].sha) in disk.files
    requires sha(disk.files[BlobPath(disk.rows[upload].sha)].bytes) == disk.rows[upload].sha
    ensures Leads(sha, At(v, upload, disk, DecideRecovered), upload, 3,
                  At(v, upload, disk, PublishReference(BlobPath(disk.rows[upload].sha), true)))
  {
    hide Leads;
    var blob := BlobPath(disk.rows[upload].sha);
    var last := At(v, upload, disk, PublishReference(blob, true));
    LeadsNone(sha, last, upload);
    LeadsOne(sha, v, upload, disk, HashFinal(blob, true), disk, PublishReference(blob, true), 0, last);
    LeadsOne(sha, v, upload, disk, ProbeFinal(blob, true), disk, HashFinal(blob, true), 1, last);
    LeadsOne(sha, v, upload, disk, DecideRecovered, disk, ProbeFinal(blob, true), 2, last);
  }

  /** Recovery of a verified upload without a staging file, up to the publishing transaction. */
  lemma RecoveryRun(sha: Sha256, v: Volume, upload: UploadId, disk: Disk)
    requires !v.dark && Known(disk, upload) && 0 <= disk.free
    requires StagingPath(upload) !in disk.files && disk.rows[upload].sha !in disk.blobs
    requires BlobPath(disk.rows[upload].sha) in disk.files
    requires sha(disk.files[BlobPath(disk.rows[upload].sha)].bytes) == disk.rows[upload].sha
    ensures (var blob := BlobPath(disk.rows[upload].sha);
             Leads(sha, At(v, upload, disk, ProbeVerified), upload, 7,
                   At(v, upload, Entered(disk, upload, Committed), PublishReference(blob, true))))
  {
    hide Leads, ManifestOf;
    var blob := BlobPath(disk.rows[upload].sha);
    var changed := SetState(disk, upload, Committed);
    var committed := Entered(disk, upload, Committed);
    var last := At(v, upload, committed, PublishReference(blob, true));
    var mirror := Mirror(ManifestOf(changed, upload), DecideRecovered);
    RecoveryEnds(sha, v, upload, committed);
    LeadsOne(sha, v, upload, changed, mirror, committed, DecideRecovered, 3, last);
    LeadsOne(sha, v, upload, disk, RecordRecovered, changed, mirror, 4, last);
    LeadsOne(sha, v, upload, disk, ProbeOrphanBlob, disk, RecordRecovered, 5, last);
    LeadsOne(sha, v, upload, disk, ProbeVerified, disk, ProbeOrphanBlob, 6, last);
  }

  lemma PublishIs(sha: Sha256, v: Volume, upload: UploadId, disk: Disk, material: MaterialId)
    requires !v.dark && Known(disk, upload) && 0 <= disk.free
    requires disk.rows[upload].sha !in disk.blobs && material !in disk.references
    requires !Referenced(disk.references, upload)
    ensures (var blob := BlobPath(disk.rows[upload].sha);
             var here := At(v, upload, disk, PublishReference(blob, true));
             && Enabled(sha, here, Visible(L.Turn(upload, 0, material)))
             && (var after := Apply(sha, here, Visible(L.Turn(upload, 0, material)));
                 && after.names == v.names && !after.dark
                 && upload in after.world.disk.rows
                 && after.world.disk.rows[upload] == disk.rows[upload].(state := Ready)
                 && disk.rows[upload].sha in after.world.disk.blobs))
  {
    hide ManifestOf, Referenced;
    var blob := BlobPath(disk.rows[upload].sha);
    var changed := Publish(disk, upload, blob, true, material);
    var next := Mirror(ManifestOf(changed, upload), Finished(Published(material, blob)));
    SeenTurnIs(sha, v, upload, disk, PublishReference(blob, true), material, changed, next);
  }

  /** The volume right after the rename: nothing has synced the directory. */
  lemma RenameIs(sha: Sha256, v: Volume, upload: UploadId)
    requires TrackInv(sha, v) && FileInv(sha, v.world) && !v.dark && 0 <= v.world.disk.free
    requires upload in v.world.running && v.world.running[upload] == MoveStaging
    requires upload in v.world.disk.rows && BlobPath(v.world.disk.rows[upload].sha) !in v.world.disk.files
    ensures Known(v.world.disk, upload) && StagingPath(upload) in v.world.disk.files
    ensures (var hash := v.world.disk.rows[upload].sha;
             var moved := MoveFile(v.world.disk, StagingPath(upload), BlobPath(hash));
             && Enabled(sha, v, Visible(L.Turn(upload, 0, "")))
             && (var after := Apply(sha, v, Visible(L.Turn(upload, 0, "")));
                 && after.world == Race.At(v.world, upload, moved, RecordCommitted(BlobPath(hash), true))
                 && Naked(after.names, hash) && !after.dark
                 && sha(moved.files[BlobPath(hash)].bytes) == hash))
  {
    hide RowInv, NamesOk, FoldersOk, BlobFilesOk, L.Enabled, L.Apply, Plain;
    var disk, hash := v.world.disk, v.world.disk.rows[upload].sha;
    MovingUpload(sha, v.world, upload);
    var moved := MoveFile(disk, StagingPath(upload), BlobPath(hash));
    Race.TurnIs(sha, v.world, upload, 0, "", moved, RecordCommitted(BlobPath(hash), true));
    var event := L.Turn(upload, 0, "");
    TrackedMoves(v.world, v.names, event, hash);
    var moves := MovesOf(Tracked(v.world, v.names, event), hash);
    assert moves[|moves| - 1].below.None?;
  }

  lemma MovingUpload(sha: Sha256, world: L.World, upload: UploadId)
    requires RowInv(sha, world) && FileInv(sha, world)
    requires upload in world.running && world.running[upload] == MoveStaging
    ensures Known(world.disk, upload) && world.disk.rows[upload].state == HashVerified
    ensures StagingPath(upload) in world.disk.files
    ensures sha(world.disk.files[StagingPath(upload)].bytes) == world.disk.rows[upload].sha
    ensures !Referenced(world.disk.references, upload)
  {
    hide OrderOk, BlobPathsOk, BlobFilesOk, ChunkTableOk, OneReferenceEach;
    assert PcOk(sha, world.disk, upload, world.running[upload]);
    KnownRows(sha, world, upload);
    assert PcFileOk(sha, world.disk, upload, world.running[upload]);
    assert FileOk(sha, world.disk, upload);
    assert RowOk(world.disk, upload);
  }

  /** The operation ends before its directory sync; the next start reconciles the upload. */
  lemma ForgottenIs(sha: Sha256, v: Volume, upload: UploadId, disk: Disk, pc: Pc)
    requires !v.dark && Known(disk, upload) && disk.rows[upload].state == HashVerified
    ensures (var here := At(v, upload, disk, pc);
             && Enabled(sha, here, Visible(L.Fail(upload)))
             && (var failed := Apply(sha, here, Visible(L.Fail(upload)));
                 && Enabled(sha, failed, Visible(L.StartReconcile(upload)))
                 && Apply(sha, failed, Visible(L.StartReconcile(upload))) == At(v, upload, disk, ProbeVerified)))
  {
  }

  lemma {:induction false} RunWithoutLosses(sha: Sha256, v: Volume, steps: seq<Step>)
    requires TrackInv(sha, v) && FileInv(sha, v.world) && Legal(sha, v, steps)
    requires forall s :: s in steps ==> !Loses(s)
    ensures TrackInv(sha, After(sha, v, steps)) && FileInv(sha, After(sha, v, steps).world)
    decreases |steps|
  {
    hide TrackInv, FileInv, Enabled, Apply;
    if steps != [] {
      assert steps[0] in steps;
      StepKeepsTrack(sha, v, steps[0]);
      OtherStepsKeepFiles(sha, v, steps[0]);
      RunWithoutLosses(sha, Apply(sha, v, steps[0]), steps[1..]);
    }
  }

  lemma {:induction false} SeenTurnsLoseNothing(upload: UploadId, count: nat)
    ensures forall s :: s in SeenTurns(upload, count) ==> !Loses(s)
  {
    if count > 0 {
      SeenTurnsLoseNothing(upload, count - 1);
    }
  }

  function BlindRecovery(upload: UploadId, material: MaterialId): seq<Step> {
    [Visible(L.Turn(upload, 0, ""))] + ([Visible(L.Fail(upload))] + ([Visible(L.StartReconcile(upload))] +
    (SeenTurns(upload, 7) + [Visible(L.Turn(upload, 0, material))])))
  }

  lemma BlindRecoveryLosesNothing(upload: UploadId, material: MaterialId)
    ensures forall s :: s in BlindRecovery(upload, material) ==> !Loses(s)
  {
    SeenTurnsLoseNothing(upload, 7);
  }

  /**
   From the turn that renames, an operation that ends before its directory sync, and the reconciliation
   of the next start, publish the upload on a file whose name has not reached the disk.
   */
  lemma RecoveryPublishesBlindly(sha: Sha256, v: Volume, upload: UploadId, material: MaterialId)
    requires TrackInv(sha, v) && FileInv(sha, v.world) && !v.dark && 0 <= v.world.disk.free
    requires upload in v.world.running && v.world.running[upload] == MoveStaging
    requires upload in v.world.disk.rows && material !in v.world.disk.references
    requires v.world.disk.rows[upload].sha !in v.world.disk.blobs
    requires BlobPath(v.world.disk.rows[upload].sha) !in v.world.disk.files
    ensures Legal(sha, v, BlindRecovery(upload, material))
    ensures (var after, row := After(sha, v, BlindRecovery(upload, material)), v.world.disk.rows[upload];
             && upload in after.world.disk.rows && after.world.disk.rows[upload] == row.(state := Ready)
             && row.sha in after.world.disk.blobs && Naked(after.names, row.sha))
  {
    hide TrackInv, FileInv, Enabled, Apply, Legal, After, Naked, MoveFile, Entered, L.Enabled, L.Apply;
    var disk, hash := v.world.disk, v.world.disk.rows[upload].sha;
    var blob := BlobPath(hash);
    TrackedRows(sha, v);
    MovingUpload(sha, v.world, upload);
    RenameIs(sha, v, upload);
    var moved := MoveFile(disk, StagingPath(upload), blob);
    MoveFileIs(disk, upload, blob);
    var v1 := Apply(sha, v, Visible(L.Turn(upload, 0, "")));
    var base := v1.(world := v.world);
    ForgottenIs(sha, base, upload, moved, RecordCommitted(blob, true));
    var v2 := Apply(sha, v1, Visible(L.Fail(upload)));
    var v3 := Apply(sha, v2, Visible(L.StartReconcile(upload)));
    RecoveryRun(sha, base, upload, moved);
    EnteredIs(moved, upload);
    var committed := Entered(moved, upload, Committed);
    var v4 := At(base, upload, committed, PublishReference(blob, true));
    LeadsIs(sha, v3, upload, 7, v4);
    PublishIs(sha, base, upload, committed, material);
    var last := Visible(L.Turn(upload, 0, material));
    StepsOfNone(sha, Apply(sha, v4, last));
    StepsPrepend(sha, v4, last, []);
    assert [last] + [] == [last];
    StepsConcat(sha, v3, SeenTurns(upload, 7), [last]);
    var rest := SeenTurns(upload, 7) + [last];
    TwoSteps(sha, v1, Visible(L.Fail(upload)), Visible(L.StartReconcile(upload)), rest);
    StepsPrepend(sha, v, Visible(L.Turn(upload, 0, "")),
                 [Visible(L.Fail(upload))] + ([Visible(L.StartReconcile(upload))] + rest));
  }

  lemma LeadsIs(sha: Sha256, v: Volume, upload: UploadId, count: nat, after: Volume)
    requires Leads(sha, v, upload, count, after)
    ensures Legal(sha, v, SeenTurns(upload, count)) && After(sha, v, SeenTurns(upload, count)) == after
  {
  }

  lemma MoveFileIs(disk: Disk, upload: UploadId, blob: Path)
    requires Known(disk, upload) && StagingPath(upload) in disk.files && blob.BlobPath? && blob !in disk.files
    ensures (var moved := MoveFile(disk, StagingPath(upload), blob);
             && Known(moved, upload) && moved.rows == disk.rows && moved.blobs == disk.blobs
             && moved.references == disk.references && moved.free == disk.free
             && StagingPath(upload) !in moved.files && blob in moved.files)
  {
  }

  lemma EnteredIs(disk: Disk, upload: UploadId)
    requires Known(disk, upload)
    ensures (var entered := Entered(disk, upload, Committed);
             && Known(entered, upload) && entered.rows[upload] == disk.rows[upload].(state := Committed)
             && entered.blobs == disk.blobs && entered.references == disk.references && entered.free == disk.free)
  {
    hide ManifestOf;
  }

  /**
   A ready upload can lose its only file. From an empty library with room for the content: the upload is
   created, received and completed, its operation ends between the rename and the directory sync, the
   next start publishes it, and a power loss takes the rename back.
   */
  lemma ReadyUploadLosesItsFile(sha: Sha256, capacity: nat, data: seq<Byte>, upload: UploadId, target: string,
                                material: MaterialId) returns (steps: seq<Step>)
    requires 0 < |data| <= MAX_SAFE_INTEGER && |data| <= capacity
    ensures Legal(sha, Begin(capacity), steps)
    ensures (var disk := After(sha, Begin(capacity), steps).world.disk;
             && upload in disk.rows && disk.rows[upload].state == Ready && disk.rows[upload].sha == sha(data)
             && sha(data) in disk.blobs && BlobPath(sha(data)) !in disk.files)
  {
    hide TrackInv, FileInv, Enabled, Apply, Legal, After, Naked, L.Enabled, L.Apply, L.Legal, L.After, RunToRename;
    hide BlindRecovery;
    var begin := Begin(capacity);
    RunReachesRename(sha, capacity, data, upload, target);
    var events := RunToRename(sha, data, upload, target);
    BeginIsTracked(sha, capacity);
    BeginRows(sha, capacity);
    BeginFiles(sha, capacity);
    var before := ShownRun(sha, capacity, events);
    var v := After(sha, begin, before);
    RecoveryPublishesBlindly(sha, v, upload, material);
    var ready := After(sha, v, BlindRecovery(upload, material));
    BlindRecoveryLosesNothing(upload, material);
    RunWithoutLosses(sha, v, BlindRecovery(upload, material));
    var loss := NakedCanBeLost(sha, ready, sha(data));
    StepsConcat(sha, v, BlindRecovery(upload, material), loss);
    StepsConcat(sha, begin, before, BlindRecovery(upload, material) + loss);
    steps := before + (BlindRecovery(upload, material) + loss);
  }

  /** A run of the library without a crash, over directory entries that all reach the disk in time. */
  lemma ShownRun(sha: Sha256, capacity: int, events: seq<L.Event>) returns (steps: seq<Step>)
    requires L.Legal(sha, L.Begin(capacity), events) && L.Untampered(events)
    ensures Legal(sha, Begin(capacity), steps)
    ensures (var after := After(sha, Begin(capacity), steps);
             && after.world == L.After(sha, L.Begin(capacity), events) && !after.dark
             && TrackInv(sha, after) && FileInv(sha, after.world)
             && ((forall e :: e in events ==> !e.Crash?) ==>
                   NewFoldersStay(Begin(capacity).names, after.names)
                   && forall u :: L.OpenStaging(u) in events ==> u in after.names.created))
    ensures forall s :: s in steps ==> Shows(s, events)
  {
    hide TrackInv, FileInv, Enabled, Apply, Legal, After, L.Enabled, L.Apply, L.Legal, L.After;
    BeginIsTracked(sha, capacity);
    steps := LibraryRunsAreVolumeRuns(sha, Begin(capacity), events);
    RunWithoutLosses(sha, Begin(capacity), steps);
  }

  function RunToRename(sha: Sha256, data: seq<Byte>, upload: UploadId, target: string): seq<L.Event> {
    var request, input := L.CreateRequest(|data|, sha(data), target), AppendInput(0, 0, data, sha(data));
    Race.CreateEvents(upload, request) + (Race.AppendEvents(upload, input) +
    ([L.StartComplete(upload)] + Race.Turns(upload, 6)))
  }

  /** Completion up to the rename: hashed, verified, no blob row, staging file there. */
  lemma RenameNext(sha: Sha256, world: L.World, upload: UploadId)
    requires Known(world.disk, upload) && upload !in world.running && 0 <= world.disk.free
    requires (var row := world.disk.rows[upload];
              && row.state == Transferring && row.received == row.expected && row.sha !in world.disk.blobs)
    requires StagingPath(upload) in world.disk.files
    requires sha(world.disk.files[StagingPath(upload)].bytes) == world.disk.rows[upload].sha
    ensures (var events := [L.StartComplete(upload)] + Race.Turns(upload, 6);
             && L.Legal(sha, world, events)
             && (var after := L.After(sha, world, events);
                 && upload in after.running && after.running[upload] == MoveStaging
                 && upload in after.disk.rows && after.disk.rows[upload].sha == world.disk.rows[upload].sha
                 && after.disk.blobs == world.disk.blobs && after.disk.references == world.disk.references
                 && after.disk.files == world.disk.files && 0 <= after.disk.free))
  {
    hide Race.Leads, ManifestOf, L.Enabled, L.Apply, L.Legal, L.After, SetState, SaveManifest;
    var changed := SetState(world.disk, upload, Staged);
    Race.VerifyRun(sha, world, upload);
    var verified := Entered(Entered(world.disk, upload, Staged), upload, HashVerified);
    Race.EnteredTwice(world.disk, upload);
    var start := Race.At(world, upload, changed, Mirror(ManifestOf(changed, upload), HashStaged));
    var last := Race.At(world, upload, verified, MoveStaging);
    LookForBlob(sha, world, upload, verified);
    Race.LeadsOn(sha, start, Race.At(world, upload, verified, FindBlob), last, upload, 4, 2);
    Race.StartCompleteIs(sha, world, upload);
    Race.LeadsIs(sha, start, upload, 6, last);
    Race.RunPrepend(sha, world, L.StartComplete(upload), Race.Turns(upload, 6));
  }

  lemma LookForBlob(sha: Sha256, world: L.World, upload: UploadId, disk: Disk)
    requires Known(disk, upload) && 0 <= disk.free
    requires StagingPath(upload) in disk.files && disk.rows[upload].sha !in disk.blobs
    ensures Race.Leads(sha, Race.At(world, upload, disk, FindBlob), upload, 2, Race.At(world, upload, disk, MoveStaging))
  {
    hide Race.Leads;
    var last := Race.At(world, upload, disk, MoveStaging);
    Race.LeadsNone(sha, last, upload);
    Race.LeadsOneAt(sha, world, upload, disk, ProbeStaging, disk, MoveStaging, 0, last);
    Race.LeadsOneAt(sha, world, upload, disk, FindBlob, disk, ProbeStaging, 1, last);
  }

  lemma RunReachesRename(sha: Sha256, capacity: nat, data: seq<Byte>, upload: UploadId, target: string)
    requires 0 < |data| <= MAX_SAFE_INTEGER && |data| <= capacity
    ensures L.Legal(sha, L.Begin(capacity), RunToRename(sha, data, upload, target))
    ensures L.Untampered(RunToRename(sha, data, upload, target))
    ensures (var after := L.After(sha, L.Begin(capacity), RunToRename(sha, data, upload, target));
             && upload in after.running && after.running[upload] == MoveStaging
             && upload in after.disk.rows && after.disk.rows[upload].sha == sha(data)
             && sha(data) !in after.disk.blobs && after.disk.references == map[]
             && BlobPath(sha(data)) !in after.disk.files && 0 <= after.disk.free)
  {
    hide L.Enabled, L.Apply, L.Legal, L.After, Race.CreateEvents, Race.AppendEvents, Race.Turns, Reserved;
    var request, input := L.CreateRequest(|data|, sha(data), target), AppendInput(0, 0, data, sha(data));
    var w0 := L.Begin(capacity);
    Race.ReservedOfNone(capacity);
    Race.CreateRun(sha, w0, upload, request);
    var w1 := L.After(sha, w0, Race.CreateEvents(upload, request));
    Race.AppendRun(sha, w1, upload, data);
    var w2 := L.After(sha, w1, Race.AppendEvents(upload, input));
    RenameNext(sha, w2, upload);
    var tail := [L.StartComplete(upload)] + Race.Turns(upload, 6);
    LibraryReconcileRun.RunConcat(sha, w1, Race.AppendEvents(upload, input), tail);
    LibraryReconcileRun.RunConcat(sha, w0, Race.CreateEvents(upload, request), Race.AppendEvents(upload, input) + tail);
    RenameRunIsClean(sha, data, upload, target);
  }

  lemma RenameRunIsClean(sha: Sha256, data: seq<Byte>, upload: UploadId, target: string)
    ensures L.Untampered(RunToRename(sha, data, upload, target))
  {
    TurnsAreClean(upload, 6);
  }

  lemma {:induction false} TurnsAreClean(upload: UploadId, count: nat)
    ensures forall e :: e in Race.Turns(upload, count) ==> e.Turn?
  {
    if count > 0 {
      TurnsAreClean(upload, count - 1);
    }
  }

  // An ordinary publication whose directory goes

  function RunToPublish(sha: Sha256, data: seq<Byte>, upload: UploadId, target: string): seq<L.Event> {
    var request, input := L.CreateRequest(|data|, sha(data), target), AppendInput(0, 0, data, sha(data));
    Race.CreateEvents(upload, request) + (Race.AppendEvents(upload, input) + Race.CompleteEvents(upload))
  }

  lemma PublishRunIsClean(sha: Sha256, data: seq<Byte>, upload: UploadId, target: string)
    ensures forall e :: e in RunToPublish(sha, data, upload, target) ==> Ordinary(e)
  {
    TurnsAreClean(upload, 11);
  }

  /** No failure, no crash, no outside change, and no recovery. */
  predicate Ordinary(event: L.Event) {
    !event.Fail? && !event.FailCreate? && !event.Crash? && !event.Tamper? && !event.StartReconcile?
  }

  predicate OrdinaryStep(step: Step) {
    match step
    case Visible(event) => Ordinary(event)
    case MovesReach(_, _) => true
    case FolderReaches(folder) => folder in LAYOUT
    case _ => false
  }

  /** An empty library has room for the content: created, received and completed up to the publishing transaction. */
  lemma RunReachesPublish(sha: Sha256, capacity: nat, data: seq<Byte>, upload: UploadId, target: string)
    requires 0 < |data| <= MAX_SAFE_INTEGER && |data| <= capacity
    ensures L.Legal(sha, L.Begin(capacity), RunToPublish(sha, data, upload, target))
    ensures (var after := L.After(sha, L.Begin(capacity), RunToPublish(sha, data, upload, target));
             && upload in after.running && after.running[upload] == PublishReference(BlobPath(sha(data)), true)
             && Known(after.disk, upload) && after.disk.rows[upload].sha == sha(data)
             && after.disk.rows[upload].state == Committed
             && sha(data) !in after.disk.blobs && after.disk.references == map[] && 0 <= after.disk.free)
  {
    hide L.Enabled, L.Apply, L.Legal, L.After, Race.CreateEvents, Race.AppendEvents, Race.CompleteEvents, Reserved;
    var request, input := L.CreateRequest(|data|, sha(data), target), AppendInput(0, 0, data, sha(data));
    var w0 := L.Begin(capacity);
    Race.ReservedOfNone(capacity);
    Race.CreateRun(sha, w0, upload, request);
    var w1 := L.After(sha, w0, Race.CreateEvents(upload, request));
    Race.AppendRun(sha, w1, upload, data);
    var w2 := L.After(sha, w1, Race.AppendEvents(upload, input));
    Race.CompleteRun(sha, w2, upload);
    LibraryReconcileRun.RunConcat(sha, w1, Race.AppendEvents(upload, input), Race.CompleteEvents(upload));
    LibraryReconcileRun.RunConcat(sha, w0, Race.CreateEvents(upload, request),
                                  Race.AppendEvents(upload, input) + Race.CompleteEvents(upload));
  }

  /** A library whose layout directories have reached the disk. */
  function LaidOut(capacity: int): Volume {
    Volume(L.Begin(capacity), Names({}, map[], map[], {}, LAYOUT), false)
  }

  lemma LayoutReaches(sha: Sha256, capacity: int)
    ensures (var first, second := FolderReaches(StagingFolder), FolderReaches(BlobFolder);
             && Enabled(sha, Begin(capacity), first) && Enabled(sha, Apply(sha, Begin(capacity), first), second)
             && Apply(sha, Apply(sha, Begin(capacity), first), second) == LaidOut(capacity))
    ensures TrackInv(sha, LaidOut(capacity)) && FileInv(sha, LaidOut(capacity).world)
  {
    hide TrackInv, FileInv;
    var first, second := FolderReaches(StagingFolder), FolderReaches(BlobFolder);
    var v1 := Apply(sha, Begin(capacity), first);
    BeginIsTracked(sha, capacity);
    StepKeepsTrack(sha, Begin(capacity), first);
    assert Enabled(sha, v1, second) && v1.world == Begin(capacity).world;
    StepKeepsTrack(sha, v1, second);
    assert Apply(sha, v1, second).names.newFolders == {};
  }

  /** The publishing transaction with everything it waits for on the disk: ready, and no rename pending. */
  lemma OrdinaryPublish(sha: Sha256, v: Volume, upload: UploadId, hash: Hash, material: MaterialId)
    requires TrackInv(sha, v) && FileInv(sha, v.world) && !v.dark && 0 <= v.world.disk.free
    requires upload in v.world.running && v.world.running[upload] == PublishReference(BlobPath(hash), true)
    requires Known(v.world.disk, upload) && v.world.disk.rows[upload].sha == hash
    requires v.world.disk.rows[upload].state == Committed
    requires hash !in v.world.disk.blobs && v.world.disk.references == map[]
    ensures (var settle, publish := MovesReach(hash, |MovesOf(v.names, hash)|), Visible(L.Turn(upload, 0, material));
             && Enabled(sha, v, settle) && Enabled(sha, Apply(sha, v, settle), publish)
             && (var after := Apply(sha, Apply(sha, v, settle), publish);
                 && !after.dark && !Naked(after.names, hash)
                 && after.names.newFolders == v.names.newFolders
                 && upload in after.world.disk.rows && after.world.disk.rows[upload].sha == hash
                 && after.world.disk.rows[upload].state == Ready && hash in after.world.disk.blobs
                 && TrackInv(sha, after) && FileInv(sha, after.world)))
  {
    hide TrackInv, FileInv, L.Enabled, L.Apply, SyncDone, Tracked;
    var settle, publish := MovesReach(hash, |MovesOf(v.names, hash)|), Visible(L.Turn(upload, 0, material));
    var settled := Apply(sha, v, settle);
    assert MovesOf(settled.names, hash) == [];
    StepKeepsTrack(sha, v, settle);
    PublishIs(sha, settled, upload, settled.world.disk, material);
    AtIsHere(settled, upload);
    StepKeepsTrack(sha, settled, publish);
    OtherStepsKeepFiles(sha, settled, publish);
  }

  lemma AtIsHere(v: Volume, upload: UploadId)
    requires upload in v.world.running
    ensures At(v, upload, v.world.disk, v.world.running[upload]) == v
  {
    assert v.world.running[upload := v.world.running[upload]] == v.world.running;
  }

  lemma CommittedIsHoused(sha: Sha256, v: Volume, upload: UploadId)
    requires TrackInv(sha, v) && FileInv(sha, v.world) && upload in v.world.disk.rows
    requires v.world.disk.rows[upload].state == Committed
    ensures BlobPath(v.world.disk.rows[upload].sha) in v.world.disk.files
    ensures PrefixFolder(PrefixOf(v.world.disk.rows[upload].sha)) in v.names.folders
  {
    hide FileInv, RowInv, NamesOk;
    assert ReliedOn(v.world.disk, v.world.disk.rows[upload].sha);
    ReliedHasBlob(sha, v.world, v.world.disk.rows[upload].sha);
  }

  /** The ordinary run itself: the layout reaches the disk, and the first upload of a content is published. */
  lemma OrdinaryPublication(sha: Sha256, capacity: nat, data: seq<Byte>, upload: UploadId, target: string,
                            material: MaterialId) returns (steps: seq<Step>)
    requires 0 < |data| <= MAX_SAFE_INTEGER && |data| <= capacity
    ensures Legal(sha, Begin(capacity), steps) && (forall s :: s in steps ==> OrdinaryStep(s))
    ensures (var v := After(sha, Begin(capacity), steps);
             && TrackInv(sha, v) && FileInv(sha, v.world)
             && upload in v.world.disk.rows && v.world.disk.rows[upload].sha == sha(data)
             && v.world.disk.rows[upload].state == Ready && sha(data) in v.world.disk.blobs
             && !Naked(v.names, sha(data)) && PrefixFolder(PrefixOf(sha(data))) in v.names.newFolders)
  {
    hide TrackInv, FileInv, Enabled, Apply, Legal, After, Naked, L.Enabled, L.Apply, L.Legal, L.After, RunToPublish;
    var first, second := FolderReaches(StagingFolder), FolderReaches(BlobFolder);
    var events := RunToPublish(sha, data, upload, target);
    RunReachesPublish(sha, capacity, data, upload, target);
    PublishRunIsClean(sha, data, upload, target);
    LayoutReaches(sha, capacity);
    var shown := LibraryRunsAreVolumeRuns(sha, LaidOut(capacity), events);
    ShownIsOrdinary(shown, events);
    RunWithoutLosses(sha, LaidOut(capacity), shown);
    var v := After(sha, LaidOut(capacity), shown);
    CommittedIsHoused(sha, v, upload);
    OrdinaryPublish(sha, v, upload, sha(data), material);
    var settle := MovesReach(sha(data), |MovesOf(v.names, sha(data))|);
    var publish := Visible(L.Turn(upload, 0, material));
    StepsOfNone(sha, Apply(sha, Apply(sha, v, settle), publish));
    TwoSteps(sha, v, settle, publish, []);
    StepsConcat(sha, LaidOut(capacity), shown, [settle] + ([publish] + []));
    TwoSteps(sha, Begin(capacity), first, second, shown + ([settle] + ([publish] + [])));
    steps := [first] + ([second] + (shown + ([settle] + ([publish] + []))));
  }

  lemma ShownIsOrdinary(steps: seq<Step>, events: seq<L.Event>)
    requires (forall s :: s in steps ==> Shows(s, events)) && (forall e :: e in events ==> Ordinary(e))
    ensures forall s :: s in steps ==> OrdinaryStep(s) && !Loses(s)
  {
  }

  /**
   An ordinary publication can be lost. From an empty library with room for the content and a layout that
   has reached the disk, without any failure: the upload is created, received and completed, its rename
   is synced and it is published; then a power loss takes the directory that was made for its prefix.
   */
  lemma OrdinaryPublicationIsLost(sha: Sha256, capacity: nat, data: seq<Byte>, upload: UploadId, target: string,
                                  material: MaterialId) returns (ordinary: seq<Step>, loss: seq<Step>)
    requires 0 < |data| <= MAX_SAFE_INTEGER && |data| <= capacity
    ensures Legal(sha, Begin(capacity), ordinary) && (forall s :: s in ordinary ==> OrdinaryStep(s))
    ensures (var v := After(sha, Begin(capacity), ordinary);
             && upload in v.world.disk.rows && v.world.disk.rows[upload].sha == sha(data)
             && v.world.disk.rows[upload].state == Ready && !Naked(v.names, sha(data)))
    ensures Legal(sha, Begin(capacity), ordinary + loss)
    ensures (var disk := After(sha, Begin(capacity), ordinary + loss).world.disk;
             && upload in disk.rows && disk.rows[upload].sha == sha(data) && disk.rows[upload].state == Ready
             && sha(data) in disk.blobs && BlobPath(sha(data)) !in disk.files)
  {
    hide TrackInv, FileInv, Enabled, Apply, Legal, After, Naked;
    ordinary := OrdinaryPublication(sha, capacity, data, upload, target, material);
    var v := After(sha, Begin(capacity), ordinary);
    loss := FolderCanBeLost(sha, v, PrefixFolder(PrefixOf(sha(data))));
    StepsConcat(sha, Begin(capacity), ordinary, loss);
  }

  // An acknowledged chunk whose staging file goes

  function RunToAcknowledged(sha: Sha256, data: seq<Byte>, upload: UploadId, target: string): seq<L.Event> {
    var request, input := L.CreateRequest(|data|, sha(data), target), AppendInput(0, 0, data, sha(data));
    Race.CreateEvents(upload, request) + Race.AppendEvents(upload, input)
  }

  lemma AcknowledgedRunIsClean(sha: Sha256, data: seq<Byte>, upload: UploadId, target: string)
    ensures L.OpenStaging(upload) in RunToAcknowledged(sha, data, upload, target)
    ensures forall e :: e in RunToAcknowledged(sha, data, upload, target) ==> !e.Crash? && !e.Tamper?
  {
    var request := L.CreateRequest(|data|, sha(data), target);
    assert RunToAcknowledged(sha, data, upload, target)[2] == Race.CreateEvents(upload, request)[2];
  }

  /**
   An acknowledged chunk can be lost: the upload is created and all its bytes are written, synced and
   recorded, and a power loss takes back the name of its staging file. The row still counts every byte.
   */
  lemma AcknowledgedChunkIsLost(sha: Sha256, capacity: nat, data: seq<Byte>, upload: UploadId, target: string)
    returns (steps: seq<Step>)
    requires 0 < |data| <= MAX_SAFE_INTEGER && |data| <= capacity
    ensures Legal(sha, Begin(capacity), steps)
    ensures (var disk := After(sha, Begin(capacity), steps).world.disk;
             && upload in disk.rows && disk.rows[upload].state == Transferring
             && disk.rows[upload].received == disk.rows[upload].expected == |data|
             && StagingPath(upload) !in disk.files)
  {
    hide TrackInv, FileInv, Enabled, Apply, Legal, After, L.Enabled, L.Apply, L.Legal, L.After, Reserved, HoldsChunks;
    hide Race.CreateEvents, Race.AppendEvents;
    var request, input := L.CreateRequest(|data|, sha(data), target), AppendInput(0, 0, data, sha(data));
    var w0 := L.Begin(capacity);
    Race.ReservedOfNone(capacity);
    Race.CreateRun(sha, w0, upload, request);
    var w1 := L.After(sha, w0, Race.CreateEvents(upload, request));
    Race.AppendRun(sha, w1, upload, data);
    LibraryReconcileRun.RunConcat(sha, w0, Race.CreateEvents(upload, request), Race.AppendEvents(upload, input));
    AcknowledgedRunIsClean(sha, data, upload, target);
    var before := ShownRun(sha, capacity, RunToAcknowledged(sha, data, upload, target));
    var v := After(sha, Begin(capacity), before);
    var files := CreationCanBeLost(sha, v, upload);
    StepsConcat(sha, Begin(capacity), before, [PowerLoss(files)] + [LoseCreation(upload)]);
    steps := before + ([PowerLoss(files)] + [LoseCreation(upload)]);
  }
}
