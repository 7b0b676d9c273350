/**
 Which entries a power loss may take back without breaking the library's files: the exact condition for
 each kind, and for the free space.
 */
module LibraryDirectoryLoss {
  import opened Bytes
  import opened MaterialFiles
  import opened UploadRecords
  import opened LibraryDisk
  import opened LibrarySteps
  import opened LibraryRows
  import opened LibraryStates
  import opened LibraryFiles
  import opened LibraryPublication
  import opened LibraryRecovery
  import opened LibraryCapacity
  import opened LibraryDirectory
  import L = LibraryWorld

  predicate Placed(state: UploadState) {
    state == HashVerified || state == Committed || state == Ready
  }

  /** A pending rename: its upload is past verification, without a staging file, and what lay below is sound. */
  ghost predicate MoveOk(sha: Sha256, disk: Disk, names: Names, hash: Hash, i: nat)
    requires i < |MovesOf(names, hash)|
  {
    var moves := MovesOf(names, hash);
    && moves[i].upload in disk.rows
    && disk.rows[moves[i].upload].sha == hash
    && Placed(disk.rows[moves[i].upload].state)
    && StagingPath(moves[i].upload) !in disk.files
    && moves[i].upload !in names.removed
    && BlobPath(hash) in disk.files
    && (moves[i].below.Some? ==> Verified(sha, moves[i].below.value, hash))
    && (0 < i ==> moves[i].below.Some?)
    && (forall j :: 0 <= j < i ==> moves[j].upload != moves[i].upload)
  }

  /** A pending unlink: of a cancelled upload, or of a copy of a blob that has its row. */
  ghost predicate RemovedOk(sha: Sha256, disk: Disk, names: Names, upload: UploadId)
    requires upload in names.removed
  {
    var file := names.removed[upload];
    && upload in disk.rows
    && StagingPath(upload) !in disk.files
    && file.durable <= |file.bytes|
    && (var row := disk.rows[upload];
        && (row.state == Cancelled || Placed(row.state))
        && (row.state == HashVerified ==> Verified(sha, file, row.sha) && row.sha in disk.blobs))
  }

  /** The next turn records a rename that was just made. */
  predicate Recording(pc: Pc) {
    pc.RecordCommitted? && pc.createBlob
  }

  /** No operation waits for a manifest before it records a rename. */
  predicate Plain(pc: Pc) {
    pc.Mirror? ==> !pc.next.RecordCommitted? && Plain(pc.next)
  }

  ghost predicate NamesOk(sha: Sha256, disk: Disk, names: Names) {
    && (forall hash, i: nat :: i < |MovesOf(names, hash)| ==> MoveOk(sha, disk, names, hash, i))
    && (forall u :: u in names.removed ==> RemovedOk(sha, disk, names, u))
  }

  ghost predicate TrackInv(sha: Sha256, v: Volume) {
    && RowInv(sha, v.world)
    && FoldersOk(v)
    && NamesOk(sha, v.world.disk, v.names)
    && (forall u :: u in v.world.running ==> Plain(v.world.running[u]))
    && (v.dark ==> v.world.running == map[] && v.world.creation == L.NoCreation)
  }

  // What one event of the library does to staging names and states

  lemma FileTurnStaging(sha: Sha256, disk: Disk, upload: UploadId, pc: Pc, wrote: nat, material: MaterialId, other: UploadId)
    requires Known(disk, upload) && WritesFiles(pc)
    ensures (var after := Advance(sha, disk, upload, pc, wrote, material).0;
             StagingPath(other) in after.files <==>
             StagingPath(other) in disk.files && !(other == upload && (Unlinks(pc) || pc.MoveStaging?)))
  {
  }

  lemma TurnStaging(sha: Sha256, disk: Disk, upload: UploadId, pc: Pc, wrote: nat, material: MaterialId, other: UploadId)
    requires Known(disk, upload)
    ensures var after := Advance(sha, disk, upload, pc, wrote, material).0;
            StagingPath(other) in after.files <==>
            StagingPath(other) in disk.files && !(other == upload && (Unlinks(pc) || pc.MoveStaging?))
  {
    if WritesFiles(pc) {
      hide Advance;
      FileTurnStaging(sha, disk, upload, pc, wrote, material, other);
    } else {
      hide Advance;
      OtherTurnFiles(sha, disk, upload, pc, wrote, material);
    }
  }

  /** Staging names appear only with a creation and go only with their own upload's unlink or rename. */
  lemma EventStaging(sha: Sha256, world: L.World, event: L.Event, other: UploadId)
    requires L.Enabled(sha, world, event) && !event.Tamper?
    ensures StagingPath(other) in L.Apply(sha, world, event).disk.files <==>
            event == L.OpenStaging(other) ||
            (StagingPath(other) in world.disk.files
             && !(event.Turn? && event.upload == other
                  && (Unlinks(world.running[other]) || world.running[other].MoveStaging?)))
  {
    hide BeginAppend, BeginComplete, BeginCancel, BeginReconcile, Advance, L.FreeAfter, Torn;
    if event.Turn? {
      TurnStaging(sha, world.disk, event.upload, world.running[event.upload], event.wrote, event.material, other);
    } else if event.StartComplete? || event.StartCancel? {
      StartsKeepFiles(world.disk, event.upload);
    }
  }

  /** An upload past verification stays past verification. */
  lemma PlacedStays(sha: Sha256, world: L.World, event: L.Event, upload: UploadId)
    requires RowInv(sha, world) && FileInv(sha, world) && L.Enabled(sha, world, event) && !event.Tamper?
    requires upload in world.disk.rows && Placed(world.disk.rows[upload].state)
    ensures upload in L.Apply(sha, world, event).disk.rows
    ensures Placed(L.Apply(sha, world, event).disk.rows[upload].state)
    ensures L.Apply(sha, world, event).disk.rows[upload].sha == world.disk.rows[upload].sha
    ensures L.Apply(sha, world, event).disk.rows[upload].state == HashVerified ==>
              world.disk.rows[upload].state == HashVerified
  {
    hide RowInv, FileInv, L.Apply, L.Enabled;
    ApplyMoves(sha, world, event, upload);
    assert Destined(sha, world.disk, upload);
    ApplyDestined(sha, world, event, upload);
  }

  lemma BlobRowsStay(sha: Sha256, world: L.World, event: L.Event, hash: Hash)
    requires RowInv(sha, world) && L.Enabled(sha, world, event) && hash in world.disk.blobs
    ensures hash in L.Apply(sha, world, event).disk.blobs
  {
    hide OrderOk, RowsOk, ReferencesOk, OneReferenceEach, BlobPathsOk, PcOk;
    hide Advance, BeginAppend, BeginComplete, BeginCancel, BeginReconcile, L.FreeAfter, Torn;
    if event.Turn? {
      AdvanceRows(sha, world.disk, event.upload, world.running[event.upload], event.wrote, event.material);
    } else if event.StartComplete? || event.StartCancel? {
      StartsKeepFiles(world.disk, event.upload);
    }
  }

  lemma TablePlain(sha: Sha256, disk: Disk, upload: UploadId, pc: Pc, wrote: nat, material: MaterialId)
    requires Known(disk, upload) && Plain(pc) && WritesTables(pc)
    ensures Plain(Advance(sha, disk, upload, pc, wrote, material).1)
    ensures Recording(Advance(sha, disk, upload, pc, wrote, material).1) ==>
              pc.MoveStaging? && StagingPath(upload) in disk.files
  {
    hide PublishBlocked, ManifestOf, Publish, InsertChunk;
    AdvanceKnown(sha, disk, upload, pc, wrote, material);
  }

  lemma OtherPlain(sha: Sha256, disk: Disk, upload: UploadId, pc: Pc, wrote: nat, material: MaterialId)
    requires Known(disk, upload) && Plain(pc) && !WritesTables(pc)
    ensures Plain(Advance(sha, disk, upload, pc, wrote, material).1)
    ensures Recording(Advance(sha, disk, upload, pc, wrote, material).1) ==>
              pc.MoveStaging? && StagingPath(upload) in disk.files
  {
    hide PublishBlocked, ManifestOf, SetState, Publish, InsertChunk, MoveFile, RemoveFile, WriteFile, SyncFile;
    AdvanceKnown(sha, disk, upload, pc, wrote, material);
  }

  lemma AdvancePlain(sha: Sha256, disk: Disk, upload: UploadId, pc: Pc, wrote: nat, material: MaterialId)
    requires Known(disk, upload) && Plain(pc)
    ensures Plain(Advance(sha, disk, upload, pc, wrote, material).1)
    ensures Recording(Advance(sha, disk, upload, pc, wrote, material).1) ==>
              pc.MoveStaging? && StagingPath(upload) in disk.files
  {
    hide Advance, Plain;
    if WritesTables(pc) {
      TablePlain(sha, disk, upload, pc, wrote, material);
    } else {
      OtherPlain(sha, disk, upload, pc, wrote, material);
    }
  }

  // Events of the library keep the record of pending entries

  lemma OldMoveOk(sha: Sha256, world: L.World, names: Names, event: L.Event, hash: Hash, i: nat)
    requires RowInv(sha, world) && FileInv(sha, world) && L.Enabled(sha, world, event) && !event.Tamper?
    requires i < |MovesOf(names, hash)| && MoveOk(sha, world.disk, names, hash, i)
    ensures i < |MovesOf(Tracked(world, names, event), hash)|
    ensures MoveOk(sha, L.Apply(sha, world, event).disk, Tracked(world, names, event), hash, i)
  {
    hide RowInv, FileInv, L.Apply, Tracked, MovesOf, Verified;
    var x := MovesOf(names, hash)[i].upload;
    TrackedMoves(world, names, event, hash);
    PlacedStays(sha, world, event, x);
    EventStaging(sha, world, event, x);
    TrackedRemoved(world, names, event, x);
    BlobPathsStay(sha, world, event, hash);
  }

  lemma RenameTurn(sha: Sha256, world: L.World, event: L.Event, hash: Hash)
    requires RowInv(sha, world) && FileInv(sha, world) && L.Enabled(sha, world, event) && Renames(world, event, hash)
    ensures (var after := L.Apply(sha, world, event).disk;
             && event.upload in after.rows && after.rows[event.upload].sha == hash
             && after.rows[event.upload].state == HashVerified
             && StagingPath(event.upload) !in after.files && BlobPath(hash) in after.files)
    ensures BelowNow(world.disk, hash).Some? ==> Verified(sha, BelowNow(world.disk, hash).value, hash)
  {
    hide TablesOk, Verified, PcFileOk, FileOk, L.FreeAfter;
    assert PcOk(sha, world.disk, event.upload, MoveStaging);
  }

  lemma RemovedHasNoStaging(sha: Sha256, disk: Disk, names: Names, upload: UploadId)
    requires upload in names.removed && RemovedOk(sha, disk, names, upload)
    ensures StagingPath(upload) !in disk.files
  {
  }

  lemma RenameIsNoUnlink(world: L.World, event: L.Event, hash: Hash)
    requires Renames(world, event, hash)
    ensures !Unlinks(world.running[event.upload])
  {
  }

  lemma NewMoveOk(sha: Sha256, world: L.World, names: Names, event: L.Event, hash: Hash)
    requires RowInv(sha, world) && FileInv(sha, world) && L.Enabled(sha, world, event) && !event.Tamper?
    requires Renames(world, event, hash) && NamesOk(sha, world.disk, names)
    ensures |MovesOf(names, hash)| < |MovesOf(Tracked(world, names, event), hash)|
    ensures MoveOk(sha, L.Apply(sha, world, event).disk, Tracked(world, names, event), hash, |MovesOf(names, hash)|)
  {
    hide RowInv, FileInv, L.Apply, L.Enabled, Tracked, MovesOf, Verified, RemovedOk;
    TrackedMoves(world, names, event, hash);
    TrackedRemoved(world, names, event, event.upload);
    RenameTurn(sha, world, event, hash);
    if event.upload in names.removed {
      assert RemovedOk(sha, world.disk, names, event.upload);
      RemovedHasNoStaging(sha, world.disk, names, event.upload);
    }
    RenameIsNoUnlink(world, event, hash);
    forall j | 0 <= j < |MovesOf(names, hash)| ensures MovesOf(names, hash)[j].upload != event.upload {
      assert MoveOk(sha, world.disk, names, hash, j);
    }
    if 0 < |MovesOf(names, hash)| {
      assert MoveOk(sha, world.disk, names, hash, 0);
    }
  }

  lemma TrackedRemoved(world: L.World, names: Names, event: L.Event, upload: UploadId)
    ensures (var before, after := names.removed, Tracked(world, names, event).removed;
             if event.Turn? && event.upload == upload && upload in world.running && upload in world.disk.rows
                && Unlinks(world.running[upload]) && StagingPath(upload) in world.disk.files
             then upload in after && after[upload] == world.disk.files[StagingPath(upload)]
             else (upload in after <==> upload in before) && (upload in before ==> after[upload] == before[upload]))
  {
  }

  lemma UnlinkTurn(sha: Sha256, world: L.World, event: L.Event, upload: UploadId)
    requires RowInv(sha, world) && FileInv(sha, world) && L.Enabled(sha, world, event)
    requires event.Turn? && event.upload == upload && Unlinks(world.running[upload])
    requires StagingPath(upload) in world.disk.files
    ensures upload in world.disk.rows
    ensures (var after, file := L.Apply(sha, world, event).disk, world.disk.files[StagingPath(upload)];
             && upload in after.rows && StagingPath(upload) !in after.files
             && file.durable <= |file.bytes|
             && (after.rows[upload].state == Cancelled || Placed(after.rows[upload].state))
             && (after.rows[upload].state == HashVerified ==>
                   Verified(sha, file, after.rows[upload].sha) && after.rows[upload].sha in after.blobs))
  {
    hide OrderOk, RowsOk, ReferencesOk, OneReferenceEach, BlobPathsOk, BlobFilesOk, PcFileOk, StagingOk, Stable;
    hide L.FreeAfter;
    assert PcOk(sha, world.disk, upload, world.running[upload]);
    assert FileOk(sha, world.disk, upload);
  }

  lemma CancelledStays(sha: Sha256, world: L.World, event: L.Event, upload: UploadId)
    requires RowInv(sha, world) && L.Enabled(sha, world, event)
    requires upload in world.disk.rows && world.disk.rows[upload].state == Cancelled
    ensures upload in L.Apply(sha, world, event).disk.rows
    ensures L.Apply(sha, world, event).disk.rows[upload].state == Cancelled
  {
    hide RowInv, L.Apply, L.Enabled;
    ApplyMoves(sha, world, event, upload);
  }

  lemma TrackedRemovedOk(sha: Sha256, world: L.World, names: Names, event: L.Event, upload: UploadId)
    requires RowInv(sha, world) && FileInv(sha, world) && L.Enabled(sha, world, event) && !event.Tamper?
    requires upload in names.removed ==> RemovedOk(sha, world.disk, names, upload)
    requires upload in Tracked(world, names, event).removed
    ensures RemovedOk(sha, L.Apply(sha, world, event).disk, Tracked(world, names, event), upload)
  {
    hide RowInv, FileInv, L.Apply, Tracked, Verified;
    TrackedRemoved(world, names, event, upload);
    EventStaging(sha, world, event, upload);
    if event.Turn? && event.upload == upload && Unlinks(world.running[upload]) && StagingPath(upload) in world.disk.files {
      UnlinkTurn(sha, world, event, upload);
    } else if world.disk.rows[upload].state == Cancelled {
      CancelledStays(sha, world, event, upload);
    } else {
      PlacedStays(sha, world, event, upload);
      if world.disk.rows[upload].sha in world.disk.blobs {
        BlobRowsStay(sha, world, event, world.disk.rows[upload].sha);
      }
    }
  }

  lemma VisibleKeepsNames(sha: Sha256, world: L.World, names: Names, event: L.Event)
    requires RowInv(sha, world) && FileInv(sha, world) && L.Enabled(sha, world, event) && !event.Tamper?
    requires NamesOk(sha, world.disk, names)
    ensures NamesOk(sha, L.Apply(sha, world, event).disk, Tracked(world, names, event))
  {
    hide RowInv, FileInv, L.Apply, L.Enabled, Tracked, MovesOf, MoveOk, RemovedOk;
    var after := Tracked(world, names, event);
    forall hash, i: nat | i < |MovesOf(after, hash)| ensures MoveOk(sha, L.Apply(sha, world, event).disk, after, hash, i) {
      TrackedMoves(world, names, event, hash);
      if i < |MovesOf(names, hash)| {
        OldMoveOk(sha, world, names, event, hash, i);
      } else {
        NewMoveOk(sha, world, names, event, hash);
      }
    }
    forall u | u in after.removed ensures RemovedOk(sha, L.Apply(sha, world, event).disk, after, u) {
      TrackedRemovedOk(sha, world, names, event, u);
    }
  }

  lemma VisibleKeepsPlain(sha: Sha256, world: L.World, event: L.Event)
    requires RowInv(sha, world) && L.Enabled(sha, world, event)
    requires forall u :: u in world.running ==> Plain(world.running[u])
    ensures forall u :: u in L.Apply(sha, world, event).running ==> Plain(L.Apply(sha, world, event).running[u])
  {
    hide TablesOk, PcOk, Advance, L.FreeAfter, Torn;
    match event {
      case Turn(upload, wrote, material) =>
        AdvancePlain(sha, world.disk, upload, world.running[upload], wrote, material);
      case _ =>
    }
  }

  // What may be lost

  /** A lost creation costs nothing: nobody expects the staging file any more. */
  ghost predicate SpareCreation(disk: Disk, upload: UploadId) {
    upload in disk.rows ==>
      var row := disk.rows[upload];
      && row.state != Transferring && row.state != Staged
      && (row.state == HashVerified ==> BlobPath(row.sha) in disk.files)
  }

  /** The blob path is relied on: by a blob row, a committed or ready upload, or one without its staging file. */
  ghost predicate Relied(disk: Disk, hash: Hash, except: Option<UploadId>) {
    || hash in disk.blobs
    || (exists u :: u in disk.rows && disk.rows[u].sha == hash
                    && (disk.rows[u].state == Committed || disk.rows[u].state == Ready
                        || (disk.rows[u].state == HashVerified && except != Some(u) && StagingPath(u) !in disk.files)))
  }

  /** A lost rename costs nothing: something was below it, or nobody relies on the path. */
  ghost predicate SpareMove(v: Volume, hash: Hash)
    requires MovesOf(v.names, hash) != []
  {
    var last := LastMove(v.names, hash);
    last.below.Some? || !Relied(v.world.disk, hash, Some(last.upload))
  }

  /** A lost directory costs nothing: no staging file in it is needed, and nobody relies on a blob path in it. */
  ghost predicate SpareFolder(disk: Disk, folder: Folder) {
    && (folder.StagingFolder? ==> forall u :: StagingPath(u) in disk.files ==> SpareCreation(disk, u))
    && (forall h :: BlobPath(h) in disk.files && Within(BlobPath(h), folder) ==> !Relied(disk, h, None))
  }

  ghost predicate Spare(v: Volume, step: Step) {
    match step
    case LoseFolder(folder, _) => SpareFolder(v.world.disk, folder)
    case LoseCreation(upload) => SpareCreation(v.world.disk, upload)
    case LoseMove(hash, _) => MovesOf(v.names, hash) != [] ==> SpareMove(v, hash)
    case _ => true
  }

  lemma QuietFileInv(sha: Sha256, world: L.World)
    requires world.running == map[] && world.creation.NoCreation?
    ensures FileInv(sha, world) <==> DiskFilesOk(sha, world.disk)
  {
    hide DiskFilesOk;
  }

  lemma KnownRows(sha: Sha256, world: L.World, upload: UploadId)
    requires RowInv(sha, world) && upload in world.disk.rows
    ensures Known(world.disk, upload)
  {
    hide OrderOk, RowsOk, ReferencesOk, OneReferenceEach, BlobPathsOk, PcOk;
  }

  lemma LostCreationFiles(sha: Sha256, disk: Disk, upload: UploadId)
    requires DiskFilesOk(sha, disk) && disk.rows.Keys == disk.chunks.Keys && StagingPath(upload) in disk.files
    ensures DiskFilesOk(sha, RemoveFile(disk, StagingPath(upload))) <==> SpareCreation(disk, upload)
  {
    hide StagingOk, Verified;
    var after := RemoveFile(disk, StagingPath(upload));
    forall u | u in disk.rows && u != upload ensures FileOk(sha, disk, u) <==> FileOk(sha, after, u) {
      assert u in disk.chunks;
    }
    if upload in disk.rows {
      assert FileOk(sha, disk, upload);
      assert FileOk(sha, after, upload) <==> SpareCreation(disk, upload);
    }
  }

  lemma ReturnedVerified(sha: Sha256, before: File, after: File, hash: Hash)
    requires Verified(sha, before, hash) && Returns(before, after)
    ensures Verified(sha, after, hash) && after.durable <= |after.bytes|
  {
    hide Stable, Torn;
    StableSurvivesCrash(before, after);
    TornIsDurable(before, after);
  }

  lemma LostRemovalFiles(sha: Sha256, disk: Disk, names: Names, upload: UploadId, file: File, free: int)
    requires DiskFilesOk(sha, disk) && disk.rows.Keys == disk.chunks.Keys
    requires upload in names.removed && RemovedOk(sha, disk, names, upload) && Returns(names.removed[upload], file)
    ensures DiskFilesOk(sha, disk.(files := disk.files[StagingPath(upload) := file], free := free))
  {
    hide StagingOk, Verified, Torn;
    var after := disk.(files := disk.files[StagingPath(upload) := file], free := free);
    TornIsDurable(names.removed[upload], file);
    if disk.rows[upload].state == HashVerified {
      ReturnedVerified(sha, names.removed[upload], file, disk.rows[upload].sha);
    }
    forall u | u in disk.rows ensures FileOk(sha, after, u) {
      assert u in disk.chunks && FileOk(sha, disk, u);
    }
  }

  lemma LostMoveKeeps(sha: Sha256, v: Volume, hash: Hash, below: File)
    requires DiskFilesOk(sha, v.world.disk) && v.world.disk.rows.Keys == v.world.disk.chunks.Keys
    requires NamesOk(sha, v.world.disk, v.names) && Enabled(sha, v, LoseMove(hash, below))
    requires SpareMove(v, hash)
    ensures DiskFilesOk(sha, MovedBack(v.world.disk, hash, LastMove(v.names, hash), below))
  {
    hide StagingOk, Verified, Torn, RemovedOk;
    var disk, last := v.world.disk, LastMove(v.names, hash);
    var after := MovedBack(disk, hash, last, below);
    assert MoveOk(sha, disk, v.names, hash, |MovesOf(v.names, hash)| - 1);
    VerifiedIsDurable(sha, disk, hash);
    if last.below.Some? {
      ReturnedVerified(sha, last.below.value, below, hash);
    }
    forall u | u in disk.rows ensures FileOk(sha, after, u) {
      assert u in disk.chunks && FileOk(sha, disk, u);
    }
  }

  lemma VerifiedIsDurable(sha: Sha256, disk: Disk, hash: Hash)
    requires DiskFilesOk(sha, disk) && BlobPath(hash) in disk.files
    ensures Verified(sha, disk.files[BlobPath(hash)], hash)
    ensures disk.files[BlobPath(hash)].durable <= |disk.files[BlobPath(hash)].bytes|
  {
  }

  lemma LostMoveBreaks(sha: Sha256, v: Volume, hash: Hash, below: File)
    requires v.world.disk.rows.Keys == v.world.disk.chunks.Keys
    requires Enabled(sha, v, LoseMove(hash, below)) && !SpareMove(v, hash)
    ensures !DiskFilesOk(sha, MovedBack(v.world.disk, hash, LastMove(v.names, hash), below))
  {
    hide StagingOk, Verified, Torn;
    var disk, last := v.world.disk, LastMove(v.names, hash);
    var after := MovedBack(disk, hash, last, below);
    assert BlobPath(hash) !in after.files;
    if hash !in disk.blobs {
      var u :| u in disk.rows && disk.rows[u].sha == hash
               && (disk.rows[u].state == Committed || disk.rows[u].state == Ready
                   || (disk.rows[u].state == HashVerified && u != last.upload && StagingPath(u) !in disk.files));
      assert u in disk.chunks && !FileOk(sha, after, u);
    }
  }

  lemma LostFilesAre(disk: Disk, folder: Folder, lost: seq<Path>)
    requires Lists(disk.files, folder, lost)
    ensures (var after := WithoutFiles(disk, lost);
             && (forall p :: p in after.files <==> p in disk.files && !Within(p, folder))
             && (forall p :: p in after.files ==> after.files[p] == disk.files[p])
             && SameTables(disk, after) && after.manifests == disk.manifests)
  {
    hide BlocksOf;
  }

  lemma LostFolderKeeps(sha: Sha256, disk: Disk, folder: Folder, lost: seq<Path>)
    requires DiskFilesOk(sha, disk) && disk.rows.Keys == disk.chunks.Keys && Lists(disk.files, folder, lost)
    requires SpareFolder(disk, folder)
    ensures DiskFilesOk(sha, WithoutFiles(disk, lost))
  {
    hide StagingOk, Verified, WithoutFiles;
    var after := WithoutFiles(disk, lost);
    LostFilesAre(disk, folder, lost);
    forall s | s in after.blobs ensures BlobPath(s) in after.files {
      assert BlobPath(s) in disk.files && Relied(disk, s, None);
    }
    forall u | u in after.rows && u in after.chunks ensures FileOk(sha, after, u) {
      assert u in disk.chunks && FileOk(sha, disk, u);
      StillFileOk(sha, disk, after, folder, u);
    }
  }

  lemma StillFileOk(sha: Sha256, disk: Disk, after: Disk, folder: Folder, u: UploadId)
    requires Known(disk, u) && FileOk(sha, disk, u) && SameTables(disk, after) && SpareFolder(disk, folder)
    requires forall p :: p in after.files <==> p in disk.files && !Within(p, folder)
    requires forall p :: p in after.files ==> after.files[p] == disk.files[p]
    ensures FileOk(sha, after, u)
  {
    hide StagingOk, Verified;
    var row := disk.rows[u];
    if row.state == Committed || row.state == Ready || (row.state == HashVerified && StagingPath(u) !in disk.files) {
      assert Relied(disk, row.sha, None);
    }
    if StagingPath(u) in disk.files && folder.StagingFolder? {
      assert SpareCreation(disk, u);
    }
  }

  lemma LostFolderBreaks(sha: Sha256, disk: Disk, folder: Folder, lost: seq<Path>)
    requires disk.rows.Keys == disk.chunks.Keys && Lists(disk.files, folder, lost)
    requires !SpareFolder(disk, folder)
    ensures !DiskFilesOk(sha, WithoutFiles(disk, lost))
  {
    hide StagingOk, Verified, WithoutFiles;
    var after := WithoutFiles(disk, lost);
    LostFilesAre(disk, folder, lost);
    if folder.StagingFolder? && exists u :: StagingPath(u) in disk.files && !SpareCreation(disk, u) {
      var u :| StagingPath(u) in disk.files && !SpareCreation(disk, u);
      assert u in disk.chunks && !FileOk(sha, after, u);
    } else {
      var h :| BlobPath(h) in disk.files && Within(BlobPath(h), folder) && Relied(disk, h, None);
      assert BlobPath(h) !in after.files;
      if h !in disk.blobs {
        var u :| u in disk.rows && disk.rows[u].sha == h
                 && (disk.rows[u].state == Committed || disk.rows[u].state == Ready
                     || (disk.rows[u].state == HashVerified && StagingPath(u) !in disk.files));
        assert u in disk.chunks && !FileOk(sha, after, u);
      }
    }
  }

  /**
   Exactly which losses the library's files survive: in the dark, taking back one pending entry keeps
   every file fact, of chunks, blobs and verified uploads, if and only if the entry is spare.
   */
  lemma LossKeepsFilesIff(sha: Sha256, v: Volume, step: Step)
    requires TrackInv(sha, v) && FileInv(sha, v.world) && Enabled(sha, v, step) && Loses(step)
    ensures FileInv(sha, Apply(sha, v, step).world) <==> Spare(v, step)
  {
    hide RowInv, DiskFilesOk, NamesOk, FoldersOk, SpareCreation, SpareMove, SpareFolder, Torn, MovedBack, MovesOf, RemoveFile;
    hide WithoutFiles, WithoutFolder, Lists;
    QuietFileInv(sha, v.world);
    QuietFileInv(sha, Apply(sha, v, step).world);
    SameKeys(sha, v.world);
    match step {
      case LoseCreation(upload) => LostCreationFiles(sha, v.world.disk, upload);
      case LoseRemoval(upload, file) =>
        RemovedIsOk(sha, v, upload);
        LostRemovalFiles(sha, v.world.disk, v.names, upload, file, v.world.disk.free - |file.blocks|);
      case LoseMove(hash, below) =>
        if SpareMove(v, hash) {
          LostMoveKeeps(sha, v, hash, below);
        } else {
          LostMoveBreaks(sha, v, hash, below);
        }
      case LoseFolder(folder, lost) =>
        if SpareFolder(v.world.disk, folder) {
          LostFolderKeeps(sha, v.world.disk, folder, lost);
        } else {
          LostFolderBreaks(sha, v.world.disk, folder, lost);
        }
    }
  }

  lemma SameKeys(sha: Sha256, world: L.World)
    requires RowInv(sha, world)
    ensures world.disk.rows.Keys == world.disk.chunks.Keys
  {
    hide OrderOk, RowsOk, ReferencesOk, OneReferenceEach, BlobPathsOk, PcOk;
  }

  lemma RemovedIsOk(sha: Sha256, v: Volume, upload: UploadId)
    requires NamesOk(sha, v.world.disk, v.names) && upload in v.names.removed
    ensures RemovedOk(sha, v.world.disk, v.names, upload)
  {
  }

  // Every step keeps the record

  lemma QuietRows(sha: Sha256, world: L.World, after: Disk)
    requires RowInv(sha, world) && SameTables(world.disk, after) && world.running == map[]
    ensures RowInv(sha, world.(disk := after))
  {
    hide TablesOk, PcOk;
    KeepRows(sha, world, world.(disk := after));
  }

  lemma LoseMoveKeepsNames(sha: Sha256, v: Volume, hash: Hash, below: File)
    requires NamesOk(sha, v.world.disk, v.names) && Enabled(sha, v, LoseMove(hash, below))
    ensures NamesOk(sha, Apply(sha, v, LoseMove(hash, below)).world.disk, Apply(sha, v, LoseMove(hash, below)).names)
  {
    hide Verified, Torn;
    var disk, names, moves := v.world.disk, v.names, MovesOf(v.names, hash);
    var next := Apply(sha, v, LoseMove(hash, below));
    var last := |moves| - 1;
    assert MoveOk(sha, disk, names, hash, last);
    assert MovesOf(next.names, hash) == moves[..last];
    forall h, i: nat | i < |MovesOf(next.names, h)| ensures MoveOk(sha, next.world.disk, next.names, h, i) {
      assert MovesOf(next.names, h) == if h == hash then moves[..last] else MovesOf(names, h);
      assert MovesOf(next.names, h)[i] == MovesOf(names, h)[i];
      assert MoveOk(sha, disk, names, h, i);
      assert MovesOf(names, h)[i].upload != moves[last].upload;
    }
    forall u | u in next.names.removed ensures RemovedOk(sha, next.world.disk, next.names, u) {
      assert RemovedOk(sha, disk, names, u);
    }
  }

  lemma LoseRemovalKeepsNames(sha: Sha256, v: Volume, upload: UploadId, file: File)
    requires NamesOk(sha, v.world.disk, v.names) && Enabled(sha, v, LoseRemoval(upload, file))
    ensures NamesOk(sha, Apply(sha, v, LoseRemoval(upload, file)).world.disk, Apply(sha, v, LoseRemoval(upload, file)).names)
  {
    hide Verified, Torn;
    var next := Apply(sha, v, LoseRemoval(upload, file));
    forall h, i: nat | i < |MovesOf(next.names, h)| ensures MoveOk(sha, next.world.disk, next.names, h, i) {
      assert MovesOf(next.names, h) == MovesOf(v.names, h);
      assert MoveOk(sha, v.world.disk, v.names, h, i);
    }
    forall u | u in next.names.removed ensures RemovedOk(sha, next.world.disk, next.names, u) {
      assert RemovedOk(sha, v.world.disk, v.names, u);
    }
  }

  lemma LoseCreationKeepsNames(sha: Sha256, v: Volume, upload: UploadId)
    requires NamesOk(sha, v.world.disk, v.names) && Enabled(sha, v, LoseCreation(upload))
    ensures NamesOk(sha, Apply(sha, v, LoseCreation(upload)).world.disk, Apply(sha, v, LoseCreation(upload)).names)
  {
    hide Verified;
    var next := Apply(sha, v, LoseCreation(upload));
    forall h, i: nat | i < |MovesOf(next.names, h)| ensures MoveOk(sha, next.world.disk, next.names, h, i) {
      assert MovesOf(next.names, h) == MovesOf(v.names, h);
      assert MoveOk(sha, v.world.disk, v.names, h, i);
    }
    forall u | u in next.names.removed ensures RemovedOk(sha, next.world.disk, next.names, u) {
      assert RemovedOk(sha, v.world.disk, v.names, u);
    }
  }

  lemma LoseFolderKeepsNames(sha: Sha256, v: Volume, folder: Folder, lost: seq<Path>)
    requires NamesOk(sha, v.world.disk, v.names) && Enabled(sha, v, LoseFolder(folder, lost))
    ensures (var next := Apply(sha, v, LoseFolder(folder, lost)); NamesOk(sha, next.world.disk, next.names))
  {
    hide Verified, WithoutFiles, Lists;
    var next := Apply(sha, v, LoseFolder(folder, lost));
    LostFilesAre(v.world.disk, folder, lost);
    forall h, i: nat | i < |MovesOf(next.names, h)| ensures MoveOk(sha, next.world.disk, next.names, h, i) {
      assert MovesOf(next.names, h) == MovesOf(v.names, h) && !Within(BlobPath(h), folder);
      assert MoveOk(sha, v.world.disk, v.names, h, i);
    }
    forall u | u in next.names.removed ensures RemovedOk(sha, next.world.disk, next.names, u) {
      assert RemovedOk(sha, v.world.disk, v.names, u);
    }
  }

  /** Entries that reached the disk are forgotten; a rename that stays pending stays on top of something. */
  lemma MovesReachKeepsNames(sha: Sha256, disk: Disk, names: Names, hash: Hash, count: nat)
    requires NamesOk(sha, disk, names) && count <= |MovesOf(names, hash)|
    ensures NamesOk(sha, disk, names.(moves := names.moves[hash := MovesOf(names, hash)[count..]]))
  {
    hide Verified;
    var after := names.(moves := names.moves[hash := MovesOf(names, hash)[count..]]);
    forall h, i: nat | i < |MovesOf(after, h)| ensures MoveOk(sha, disk, after, h, i) {
      var at := if h == hash then count + i else i;
      assert MovesOf(after, h)[i] == MovesOf(names, h)[at];
      assert MoveOk(sha, disk, names, h, at);
      forall j | 0 <= j < i ensures MovesOf(after, h)[j].upload != MovesOf(after, h)[i].upload {
        assert MovesOf(after, h)[j] == MovesOf(names, h)[if h == hash then count + j else j];
      }
    }
    forall u | u in after.removed ensures RemovedOk(sha, disk, after, u) {
      assert RemovedOk(sha, disk, names, u);
    }
  }

  lemma FewerNamesOk(sha: Sha256, disk: Disk, names: Names, after: Names)
    requires NamesOk(sha, disk, names) && after.moves == names.moves
    requires forall u :: u in after.removed ==> u in names.removed && after.removed[u] == names.removed[u]
    ensures NamesOk(sha, disk, after)
  {
    hide Verified;
    forall h, i: nat | i < |MovesOf(after, h)| ensures MoveOk(sha, disk, after, h, i) {
      assert MoveOk(sha, disk, names, h, i);
    }
    forall u | u in after.removed ensures RemovedOk(sha, disk, after, u) {
      assert RemovedOk(sha, disk, names, u);
    }
  }

  lemma SameEntriesNamesOk(sha: Sha256, before: Disk, after: Disk, names: Names)
    requires NamesOk(sha, before, names)
    requires after.rows == before.rows && after.blobs == before.blobs && after.files.Keys == before.files.Keys
    ensures NamesOk(sha, after, names)
  {
    hide Verified;
    forall h, i: nat | i < |MovesOf(names, h)| ensures MoveOk(sha, after, names, h, i) {
      assert MoveOk(sha, before, names, h, i);
    }
    forall u | u in names.removed ensures RemovedOk(sha, after, names, u) {
      assert RemovedOk(sha, before, names, u);
    }
  }

  lemma NoNamesOk(sha: Sha256, disk: Disk, names: Names)
    ensures NamesOk(sha, disk, Restarted(names))
  {
  }

  predicate Loses(step: Step) {
    step.LoseCreation? || step.LoseRemoval? || step.LoseMove? || step.LoseFolder?
  }

  lemma LossKeepsTrack(sha: Sha256, v: Volume, step: Step)
    requires TrackInv(sha, v) && Enabled(sha, v, step) && Loses(step)
    ensures TrackInv(sha, Apply(sha, v, step))
  {
    hide RowInv, NamesOk, FoldersOk, MovesOf, RemoveFile, MovedBack, WithoutFiles, WithoutFolder, Lists, Torn, Plain;
    StepKeepsFolders(sha, v, step);
    match step {
      case LoseCreation(upload) => LoseCreationKeepsNames(sha, v, upload);
      case LoseRemoval(upload, file) => LoseRemovalKeepsNames(sha, v, upload, file);
      case LoseMove(hash, below) => LoseMoveKeepsNames(sha, v, hash, below);
      case LoseFolder(folder, lost) => LoseFolderKeepsNames(sha, v, folder, lost);
    }
    LoseTables(sha, v, step);
    QuietRows(sha, v.world, Apply(sha, v, step).world.disk);
  }

  lemma StepKeepsTrack(sha: Sha256, v: Volume, step: Step)
    requires TrackInv(sha, v) && FileInv(sha, v.world) && Enabled(sha, v, step)
    ensures TrackInv(sha, Apply(sha, v, step))
  {
    hide RowInv, FileInv, NamesOk, FoldersOk, L.Apply, L.Enabled, Tracked, MovesOf, RemoveFile, MovedBack, Torn, Plain;
    hide WithoutFiles, WithoutFolder, Lists;
    StepKeepsFolders(sha, v, step);
    match step {
      case Visible(event) =>
        ApplyRows(sha, v.world, event);
        VisibleKeepsNames(sha, v.world, v.names, event);
        VisibleKeepsPlain(sha, v.world, event);
      case PowerLoss(files) => PowerLossKeepsTrack(sha, v, files);
      case LoseCreation(_) | LoseRemoval(_, _) | LoseMove(_, _) | LoseFolder(_, _) => LossKeepsTrack(sha, v, step);
      case CreationReaches(_) | RemovalReaches(_) | FolderReaches(_) =>
        FewerNamesOk(sha, v.world.disk, v.names, Apply(sha, v, step).names);
      case MovesReach(hash, count) => MovesReachKeepsNames(sha, v.world.disk, v.names, hash, count);
      case PowerBack => NoNamesOk(sha, v.world.disk, v.names);
    }
  }

  lemma LoseTables(sha: Sha256, v: Volume, step: Step)
    requires Enabled(sha, v, step) && Loses(step)
    ensures SameTables(v.world.disk, Apply(sha, v, step).world.disk)
    ensures Apply(sha, v, step).world == v.world.(disk := Apply(sha, v, step).world.disk)
  {
    hide Torn, BlocksOf;
  }

  lemma PowerLossKeepsTrack(sha: Sha256, v: Volume, files: map<Path, File>)
    requires TrackInv(sha, v) && Enabled(sha, v, PowerLoss(files))
    ensures TrackInv(sha, Apply(sha, v, PowerLoss(files)))
  {
    hide RowInv, NamesOk, FoldersOk, Torn, Plain;
    StepKeepsFolders(sha, v, PowerLoss(files));
    ApplyRows(sha, v.world, L.Crash(files));
    SameEntriesNamesOk(sha, v.world.disk, v.world.disk.(files := files), v.names);
  }
}
