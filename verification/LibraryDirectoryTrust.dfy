/**
 Which files a library can rely on although their directory entries are pending: the condition every
 step keeps, and the one step of recovery that breaks it.
 */
module LibraryDirectoryTrust {
  import opened Bytes
  import opened MaterialFiles
  import opened UploadRecords
  import opened UploadGuards
  import opened LibraryDisk
  import opened LibrarySteps
  import opened LibraryRows
  import opened LibraryStates
  import opened LibraryFiles
  import opened LibraryDirectory
  import opened LibraryDirectoryLoss
  import opened LibraryDirectoryRun
  import L = LibraryWorld

  /** A blob row, a committed or a ready upload stands on the blob path. */
  ghost predicate ReliedOn(disk: Disk, hash: Hash) {
    || hash in disk.blobs
    || (exists u :: u in disk.rows && disk.rows[u].sha == hash
                    && (disk.rows[u].state == Committed || disk.rows[u].state == Ready))
  }

  ghost predicate TrustInv(v: Volume) {
    var disk, names := v.world.disk, v.names;
    && (forall hash :: ReliedOn(disk, hash) ==> !Naked(names, hash))
    && (forall u :: u in disk.rows && disk.rows[u].state == HashVerified && Naked(names, disk.rows[u].sha) ==>
          StagingPath(u) in disk.files || Moving(names, disk.rows[u].sha, u))
    && (forall u :: u in v.world.running && u in disk.rows && Recording(v.world.running[u]) ==>
          !Naked(names, disk.rows[u].sha) || Moving(names, disk.rows[u].sha, u))
  }

  /** `reconcileVerifiedUpload` takes up a blob file whose rename has not reached the disk. */
  ghost predicate Blind(v: Volume, step: Step) {
    && step.Visible? && step.event.Turn?
    && step.event.upload in v.world.running && step.event.upload in v.world.disk.rows
    && v.world.running[step.event.upload].RecordRecovered?
    && Naked(v.names, v.world.disk.rows[step.event.upload].sha)
  }

  /** No blind recovery, no staging file lost that an upload still needs, and no directory with a file that one relies on. */
  ghost predicate Sighted(v: Volume, step: Step) {
    && !Blind(v, step)
    && (step.LoseCreation? ==>
          && SpareCreation(v.world.disk, step.upload)
          && (step.upload in v.world.disk.rows && v.world.disk.rows[step.upload].state == HashVerified ==>
                !Naked(v.names, v.world.disk.rows[step.upload].sha)))
    && (step.LoseFolder? ==> SpareFolder(v.world.disk, step.folder))
  }

  lemma ReliedHasBlob(sha: Sha256, world: L.World, hash: Hash)
    requires RowInv(sha, world) && FileInv(sha, world) && ReliedOn(world.disk, hash)
    ensures BlobPath(hash) in world.disk.files
  {
    hide OrderOk, RowsOk, ReferencesOk, OneReferenceEach, BlobPathsOk, PcOk, StagingOk, Verified, PcFileOk;
    if hash !in world.disk.blobs {
      var u :| u in world.disk.rows && world.disk.rows[u].sha == hash
               && (world.disk.rows[u].state == Committed || world.disk.rows[u].state == Ready);
      assert u in world.disk.chunks && FileOk(sha, world.disk, u);
    }
  }

  /** What a turn may make `upload` rely on, and when it verifies it. */
  ghost predicate TurnTrust(before: Disk, after: Disk, upload: UploadId, pc: Pc)
    requires Known(before, upload)
  {
    && upload in after.rows && after.rows[upload].sha == before.rows[upload].sha
    && (forall h :: h in after.blobs && h !in before.blobs ==>
          h == before.rows[upload].sha && before.rows[upload].state == Committed)
    && ((after.rows[upload].state == Committed || after.rows[upload].state == Ready) ==>
          before.rows[upload].state == Committed || before.rows[upload].state == Ready
          || pc.RecordRecovered? || Recording(pc) || before.rows[upload].sha in before.blobs)
    && (after.rows[upload].state == HashVerified && before.rows[upload].state != HashVerified ==>
          pc.StagedHashed? && after.files == before.files)
  }

  lemma TableTurnTrust(sha: Sha256, disk: Disk, upload: UploadId, pc: Pc, wrote: nat, material: MaterialId)
    requires Known(disk, upload) && PcOk(sha, disk, upload, pc) && WritesTables(pc)
    ensures TurnTrust(disk, Advance(sha, disk, upload, pc, wrote, material).0, upload, pc)
  {
    hide PublishBlocked, ManifestOf, JudgeAppend, AdvanceWrite;
  }

  lemma TurnRelies(sha: Sha256, disk: Disk, upload: UploadId, pc: Pc, wrote: nat, material: MaterialId)
    requires BlobPathsOk(disk) && Known(disk, upload) && PcOk(sha, disk, upload, pc)
    ensures TurnTrust(disk, Advance(sha, disk, upload, pc, wrote, material).0, upload, pc)
  {
    hide PcOk, BlobPathsOk;
    if WritesTables(pc) {
      TableTurnTrust(sha, disk, upload, pc, wrote, material);
    } else if !pc.Mirror? {
      hide Advance;
      QuietTurn(sha, disk, upload, pc, wrote, material);
    }
  }

  /** Only two turns make an upload rely on a blob path that nobody relied on. */
  lemma EventRelies(sha: Sha256, world: L.World, event: L.Event, hash: Hash)
    requires RowInv(sha, world) && L.Enabled(sha, world, event)
    requires ReliedOn(L.Apply(sha, world, event).disk, hash) && !ReliedOn(world.disk, hash)
    ensures event.Turn? && event.upload in world.disk.rows && world.disk.rows[event.upload].sha == hash
    ensures event.upload in world.running
    ensures world.running[event.upload].RecordRecovered? || Recording(world.running[event.upload])
  {
    hide OrderOk, RowsOk, ReferencesOk, OneReferenceEach, BlobPathsOk, PcOk, OnlyTouches;
    hide Advance, BeginAppend, BeginComplete, BeginCancel, BeginReconcile, L.FreeAfter, Torn;
    var disk, after := world.disk, L.Apply(sha, world, event).disk;
    match event {
      case Turn(upload, wrote, material) =>
        AdvanceRows(sha, disk, upload, world.running[upload], wrote, material);
        TurnRelies(sha, disk, upload, world.running[upload], wrote, material);
        TouchedRelies(disk, after, upload, hash);
      case StartComplete(upload) =>
        StartRows(sha, disk, upload, AppendInput(0, 0, [], ""));
        BeginRelies(disk, upload);
        TouchedRelies(disk, after, upload, hash);
      case StartCancel(upload) =>
        StartRows(sha, disk, upload, AppendInput(0, 0, [], ""));
        BeginRelies(disk, upload);
        TouchedRelies(disk, after, upload, hash);
      case InsertCreated =>
        InsertedRelies(sha, world, hash);
      case _ =>
    }
  }

  lemma InsertedRelies(sha: Sha256, world: L.World, hash: Hash)
    requires L.Enabled(sha, world, L.InsertCreated) && world.creation.upload !in world.disk.rows
    ensures ReliedOn(L.Apply(sha, world, L.InsertCreated).disk, hash) ==> ReliedOn(world.disk, hash)
  {
    var after := L.Apply(sha, world, L.InsertCreated).disk;
    if ReliedOn(after, hash) && hash !in after.blobs {
      var u :| u in after.rows && after.rows[u].sha == hash
               && (after.rows[u].state == Committed || after.rows[u].state == Ready);
      assert u in world.disk.rows && world.disk.rows[u] == after.rows[u];
    }
  }

  lemma BeginRelies(disk: Disk, upload: UploadId)
    ensures BeginComplete(disk, upload).0.blobs == disk.blobs && BeginCancel(disk, upload).0.blobs == disk.blobs
    ensures NoNewTrust(disk, BeginComplete(disk, upload).0, upload)
    ensures NoNewTrust(disk, BeginCancel(disk, upload).0, upload)
  {
  }

  predicate NoNewTrust(before: Disk, after: Disk, upload: UploadId) {
    upload in after.rows && (after.rows[upload].state == Committed || after.rows[upload].state == Ready) ==>
      upload in before.rows && after.rows[upload] == before.rows[upload]
  }

  /** A change to one upload's row can only make that upload rely on something new. */
  lemma TouchedRelies(before: Disk, after: Disk, upload: UploadId, hash: Hash)
    requires OnlyTouches(before, after, upload)
    requires ReliedOn(after, hash) && !ReliedOn(before, hash)
    ensures hash in after.blobs || (upload in after.rows && after.rows[upload].sha == hash
              && (after.rows[upload].state == Committed || after.rows[upload].state == Ready))
  {
    if hash !in after.blobs {
      var u :| u in after.rows && after.rows[u].sha == hash
               && (after.rows[u].state == Committed || after.rows[u].state == Ready);
      assert u == upload;
    }
  }

  lemma EventVerifies(sha: Sha256, world: L.World, event: L.Event, upload: UploadId)
    requires RowInv(sha, world) && L.Enabled(sha, world, event)
    requires (var after := L.Apply(sha, world, event).disk;
              upload in after.rows && after.rows[upload].state == HashVerified)
    requires upload in world.disk.rows ==> world.disk.rows[upload].state != HashVerified
    ensures event.Turn? && event.upload == upload && upload in world.running && world.running[upload].StagedHashed?
    ensures L.Apply(sha, world, event).disk.files == world.disk.files
  {
    hide OrderOk, RowsOk, ReferencesOk, OneReferenceEach, BlobPathsOk, PcOk;
    hide Advance, BeginAppend, BeginReconcile, L.FreeAfter, Torn;
    match event {
      case Turn(other, wrote, material) =>
        AdvanceRows(sha, world.disk, other, world.running[other], wrote, material);
        TurnRelies(sha, world.disk, other, world.running[other], wrote, material);
      case _ =>
    }
  }

  // Trust is kept by everything but a blind recovery

  lemma MovingStays(world: L.World, names: Names, event: L.Event, hash: Hash, upload: UploadId)
    requires Moving(names, hash, upload)
    ensures Moving(Tracked(world, names, event), hash, upload)
  {
    hide Tracked, MovesOf;
    TrackedMoves(world, names, event, hash);
    var i :| 0 <= i < |MovesOf(names, hash)| && MovesOf(names, hash)[i].upload == upload;
    assert MovesOf(Tracked(world, names, event), hash)[i].upload == upload;
  }

  lemma RenameMoves(world: L.World, names: Names, event: L.Event, hash: Hash)
    requires Renames(world, event, hash)
    ensures Moving(Tracked(world, names, event), hash, event.upload)
  {
    hide Tracked, MovesOf;
    TrackedMoves(world, names, event, hash);
    assert MovesOf(Tracked(world, names, event), hash)[|MovesOf(names, hash)|].upload == event.upload;
  }

  /** A path becomes naked only by a rename onto it that finds nothing there. */
  lemma BecomesNaked(world: L.World, names: Names, event: L.Event, hash: Hash)
    requires !Naked(names, hash) && Naked(Tracked(world, names, event), hash)
    ensures Renames(world, event, hash) && BlobPath(hash) !in world.disk.files
  {
    hide Tracked, MovesOf;
    TrackedMoves(world, names, event, hash);
  }

  lemma VisibleKeepsRelied(sha: Sha256, v: Volume, event: L.Event, hash: Hash)
    requires TrackInv(sha, v) && FileInv(sha, v.world) && TrustInv(v)
    requires Enabled(sha, v, Visible(event)) && !Blind(v, Visible(event))
    requires ReliedOn(L.Apply(sha, v.world, event).disk, hash)
    ensures !Naked(Tracked(v.world, v.names, event), hash)
  {
    hide RowInv, FileInv, NamesOk, FoldersOk, L.Apply, L.Enabled, Tracked, ReliedOn, Plain, Naked;
    if ReliedOn(v.world.disk, hash) {
      ReliedHasBlob(sha, v.world, hash);
      TrackedStaysClothed(v.world, v.names, event, hash);
    } else {
      EventRelies(sha, v.world, event, hash);
      assert !Naked(v.names, hash);
      NotARename(v.world, event, hash);
      if Naked(Tracked(v.world, v.names, event), hash) {
        BecomesNaked(v.world, v.names, event, hash);
      }
    }
  }

  lemma NotARename(world: L.World, event: L.Event, hash: Hash)
    requires event.Turn? && event.upload in world.running
    requires world.running[event.upload].RecordRecovered? || Recording(world.running[event.upload])
    ensures !Renames(world, event, hash)
  {
  }

  lemma HashVerifiedStanding(sha: Sha256, world: L.World, upload: UploadId)
    requires RowInv(sha, world) && FileInv(sha, world)
    requires upload in world.disk.rows && world.disk.rows[upload].state == HashVerified
    ensures StagingPath(upload) in world.disk.files || BlobPath(world.disk.rows[upload].sha) in world.disk.files
  {
    hide OrderOk, RowsOk, ReferencesOk, OneReferenceEach, BlobPathsOk, PcOk, Verified, PcFileOk, BlobFilesOk;
    assert upload in world.disk.chunks && FileOk(sha, world.disk, upload);
  }

  lemma VisibleKeepsVerified(sha: Sha256, v: Volume, event: L.Event, u: UploadId)
    requires TrackInv(sha, v) && FileInv(sha, v.world) && TrustInv(v)
    requires Enabled(sha, v, Visible(event)) && !Blind(v, Visible(event))
    requires (var after := L.Apply(sha, v.world, event).disk;
              && u in after.rows && after.rows[u].state == HashVerified
              && Naked(Tracked(v.world, v.names, event), after.rows[u].sha))
    ensures (var after := L.Apply(sha, v.world, event).disk;
             StagingPath(u) in after.files || Moving(Tracked(v.world, v.names, event), after.rows[u].sha, u))
  {
    hide RowInv, FileInv, NamesOk, FoldersOk, L.Apply, L.Enabled, Tracked, Plain, Naked, Moving;
    var disk, names, after := v.world.disk, v.names, L.Apply(sha, v.world, event).disk;
    EventStaging(sha, v.world, event, u);
    if u in disk.rows && disk.rows[u].state == HashVerified {
      PlacedStays(sha, v.world, event, u);
      var hash := disk.rows[u].sha;
      if Naked(names, hash) {
        if Moving(names, hash, u) {
          MovingStays(v.world, names, event, hash, u);
        } else {
          StandingUpload(sha, v, event, u);
        }
      } else {
        BecomesNaked(v.world, names, event, hash);
        HashVerifiedStanding(sha, v.world, u);
        StandingUpload(sha, v, event, u);
      }
    } else {
      EventVerifies(sha, v.world, event, u);
      StagedHashedHasStaging(sha, v.world, u);
    }
  }

  lemma StagedHashedHasStaging(sha: Sha256, world: L.World, upload: UploadId)
    requires RowInv(sha, world) && FileInv(sha, world) && upload in world.running && world.running[upload].StagedHashed?
    ensures StagingPath(upload) in world.disk.files
  {
    hide OrderOk, RowsOk, ReferencesOk, OneReferenceEach, BlobPathsOk, DiskFilesOk;
    assert PcOk(sha, world.disk, upload, world.running[upload]);
    KnownRows(sha, world, upload);
    assert PcFileOk(sha, world.disk, upload, world.running[upload]);
  }

  /** A verified upload with a staging file over a naked path keeps it, or renames it. */
  lemma StandingUpload(sha: Sha256, v: Volume, event: L.Event, u: UploadId)
    requires TrackInv(sha, v) && FileInv(sha, v.world) && TrustInv(v) && Enabled(sha, v, Visible(event))
    requires u in v.world.disk.rows && v.world.disk.rows[u].state == HashVerified
    requires StagingPath(u) in v.world.disk.files
    requires Naked(Tracked(v.world, v.names, event), v.world.disk.rows[u].sha)
    ensures StagingPath(u) in L.Apply(sha, v.world, event).disk.files
            || Moving(Tracked(v.world, v.names, event), v.world.disk.rows[u].sha, u)
  {
    hide RowInv, FileInv, NamesOk, FoldersOk, L.Apply, Tracked, Plain, Naked, Moving, ReliedOn;
    var hash := v.world.disk.rows[u].sha;
    EventStaging(sha, v.world, event, u);
    if event.Turn? && event.upload == u {
      var pc := v.world.running[u];
      if pc.MoveStaging? {
        RenameMoves(v.world, v.names, event, hash);
      } else if Unlinks(pc) {
        UnlinkHasBlobRow(sha, v.world, u);
        ReliedHasBlob(sha, v.world, hash);
        TrackedStaysClothed(v.world, v.names, event, hash);
      }
    }
  }

  lemma UnlinkHasBlobRow(sha: Sha256, world: L.World, upload: UploadId)
    requires RowInv(sha, world) && upload in world.running && Unlinks(world.running[upload])
    requires upload in world.disk.rows && world.disk.rows[upload].state == HashVerified
    ensures world.disk.rows[upload].sha in world.disk.blobs && ReliedOn(world.disk, world.disk.rows[upload].sha)
  {
    hide OrderOk, RowsOk, ReferencesOk, OneReferenceEach, BlobPathsOk;
    assert PcOk(sha, world.disk, upload, world.running[upload]);
  }

  lemma RecordingHasBlob(sha: Sha256, world: L.World, upload: UploadId)
    requires RowInv(sha, world) && FileInv(sha, world) && upload in world.running && Recording(world.running[upload])
    ensures upload in world.disk.rows && BlobPath(world.disk.rows[upload].sha) in world.disk.files
  {
    hide OrderOk, RowsOk, ReferencesOk, OneReferenceEach, BlobPathsOk, DiskFilesOk;
    assert PcOk(sha, world.disk, upload, world.running[upload]);
    KnownRows(sha, world, upload);
    assert PcFileOk(sha, world.disk, upload, world.running[upload]);
  }

  /** An operation is about to record a rename only if it was so before, or has just renamed. */
  lemma RecordingBefore(sha: Sha256, world: L.World, event: L.Event, u: UploadId)
    requires RowInv(sha, world) && L.Enabled(sha, world, event)
    requires forall w :: w in world.running ==> Plain(world.running[w])
    requires u in L.Apply(sha, world, event).running && Recording(L.Apply(sha, world, event).running[u])
    ensures u in world.disk.rows && u in world.running
    ensures (world.running[u] == L.Apply(sha, world, event).running[u] && !(event.Turn? && event.upload == u))
            || (Renames(world, event, world.disk.rows[u].sha) && event.upload == u)
  {
    hide TablesOk, PcOk, Advance, L.FreeAfter, Torn;
    match event {
      case Turn(upload, wrote, material) =>
        AdvancePlain(sha, world.disk, upload, world.running[upload], wrote, material);
      case _ =>
    }
  }

  lemma RowShaStays(sha: Sha256, world: L.World, event: L.Event, u: UploadId)
    requires RowInv(sha, world) && L.Enabled(sha, world, event) && u in world.disk.rows
    ensures u in L.Apply(sha, world, event).disk.rows
    ensures L.Apply(sha, world, event).disk.rows[u].sha == world.disk.rows[u].sha
  {
    hide RowInv, L.Apply, L.Enabled;
    ApplyMoves(sha, world, event, u);
  }

  lemma VisibleKeepsRecording(sha: Sha256, v: Volume, event: L.Event, u: UploadId)
    requires TrackInv(sha, v) && FileInv(sha, v.world) && TrustInv(v) && Enabled(sha, v, Visible(event))
    requires u in L.Apply(sha, v.world, event).running && Recording(L.Apply(sha, v.world, event).running[u])
    ensures u in L.Apply(sha, v.world, event).disk.rows
    ensures (var hash := L.Apply(sha, v.world, event).disk.rows[u].sha;
             !Naked(Tracked(v.world, v.names, event), hash) || Moving(Tracked(v.world, v.names, event), hash, u))
  {
    hide RowInv, FileInv, NamesOk, FoldersOk, L.Apply, Tracked, Plain, Naked, Moving;
    RecordingBefore(sha, v.world, event, u);
    RowShaStays(sha, v.world, event, u);
    var hash := v.world.disk.rows[u].sha;
    if Renames(v.world, event, hash) && event.upload == u {
      RenameMoves(v.world, v.names, event, hash);
    } else if Moving(v.names, hash, u) {
      MovingStays(v.world, v.names, event, hash, u);
    } else if Naked(Tracked(v.world, v.names, event), hash) {
      RecordingHasBlob(sha, v.world, u);
      TrackedStaysClothed(v.world, v.names, event, hash);
    }
  }

  lemma VisibleKeepsTrust(sha: Sha256, v: Volume, event: L.Event)
    requires TrackInv(sha, v) && FileInv(sha, v.world) && TrustInv(v)
    requires Enabled(sha, v, Visible(event)) && !Blind(v, Visible(event))
    ensures TrustInv(Apply(sha, v, Visible(event)))
  {
    hide TrackInv, FileInv, L.Apply, L.Enabled, Tracked, Naked, Moving, ReliedOn, Blind, SyncDone;
    var next := Apply(sha, v, Visible(event));
    forall hash | ReliedOn(next.world.disk, hash) ensures !Naked(next.names, hash) {
      VisibleKeepsRelied(sha, v, event, hash);
    }
    forall u | u in next.world.disk.rows && next.world.disk.rows[u].state == HashVerified
               && Naked(next.names, next.world.disk.rows[u].sha)
      ensures StagingPath(u) in next.world.disk.files || Moving(next.names, next.world.disk.rows[u].sha, u)
    {
      VisibleKeepsVerified(sha, v, event, u);
    }
    forall u | u in next.world.running && u in next.world.disk.rows && Recording(next.world.running[u])
      ensures !Naked(next.names, next.world.disk.rows[u].sha) || Moving(next.names, next.world.disk.rows[u].sha, u)
    {
      VisibleKeepsRecording(sha, v, event, u);
    }
  }

  // The other steps

  lemma SameMoves(names: Names, after: Names)
    requires after.moves == names.moves
    ensures forall hash :: Naked(after, hash) <==> Naked(names, hash)
    ensures forall hash, u :: Moving(after, hash, u) <==> Moving(names, hash, u)
  {
    assert forall hash :: MovesOf(after, hash) == MovesOf(names, hash);
  }

  /** Trust carries over when rows stay, no path becomes naked and no pending rename is forgotten over one. */
  lemma TrustCarries(v: Volume, w: Volume)
    requires TrustInv(v)
    requires w.world.disk.rows == v.world.disk.rows && w.world.disk.blobs == v.world.disk.blobs
    requires w.world.running == v.world.running || w.world.running == map[]
    requires forall u :: StagingPath(u) in v.world.disk.files ==> StagingPath(u) in w.world.disk.files
    requires forall hash :: Naked(w.names, hash) ==> Naked(v.names, hash)
    requires forall hash, u :: Naked(w.names, hash) && Moving(v.names, hash, u) ==>
               Moving(w.names, hash, u) || (StagingPath(u) in w.world.disk.files && w.world.running == map[])
    ensures TrustInv(w)
  {
    hide Naked, Moving;
    forall hash | ReliedOn(w.world.disk, hash) ensures !Naked(w.names, hash) {
      assert ReliedOn(v.world.disk, hash);
    }
  }

  lemma ReachedMoves(sha: Sha256, v: Volume, hash: Hash, count: nat)
    requires NamesOk(sha, v.world.disk, v.names) && count <= |MovesOf(v.names, hash)|
    ensures (var after := v.names.(moves := v.names.moves[hash := MovesOf(v.names, hash)[count..]]);
             forall h :: Naked(after, h) ==>
               Naked(v.names, h) && (forall u :: Moving(v.names, h, u) ==> Moving(after, h, u)))
  {
    var before := MovesOf(v.names, hash);
    var after := v.names.(moves := v.names.moves[hash := before[count..]]);
    forall h | Naked(after, h)
      ensures Naked(v.names, h) && (forall u :: Moving(v.names, h, u) ==> Moving(after, h, u))
    {
      if h == hash {
        var i :| 0 <= i < |MovesOf(after, hash)| && MovesOf(after, hash)[i].below.None?;
        assert before[count + i].below.None? && MoveOk(sha, v.world.disk, v.names, hash, count + i);
        assert MovesOf(after, hash) == before;
      } else {
        assert MovesOf(after, h) == MovesOf(v.names, h);
      }
    }
  }

  lemma ShortenedMoves(v: Volume, hash: Hash)
    requires MovesOf(v.names, hash) != []
    ensures (var moves := MovesOf(v.names, hash);
             var after := v.names.(moves := v.names.moves[hash := moves[..|moves| - 1]]);
             && (forall h :: Naked(after, h) ==> Naked(v.names, h))
             && (forall h, u :: Moving(v.names, h, u) && !(h == hash && u == LastMove(v.names, hash).upload) ==>
                   Moving(after, h, u)))
  {
    var moves := MovesOf(v.names, hash);
    var after := v.names.(moves := v.names.moves[hash := moves[..|moves| - 1]]);
    assert forall h :: MovesOf(after, h) == if h == hash then moves[..|moves| - 1] else MovesOf(v.names, h);
    forall h, u | Moving(v.names, h, u) && !(h == hash && u == LastMove(v.names, hash).upload)
      ensures Moving(after, h, u)
    {
      var i :| 0 <= i < |MovesOf(v.names, h)| && MovesOf(v.names, h)[i].upload == u;
      assert MovesOf(after, h)[i].upload == u;
    }
  }

  /** Under trust every lost rename is spare. */
  lemma TrustSparesMoves(sha: Sha256, v: Volume, hash: Hash)
    requires NamesOk(sha, v.world.disk, v.names) && TrustInv(v) && MovesOf(v.names, hash) != []
    ensures SpareMove(v, hash)
  {
    hide RemovedOk, Verified;
    var disk, moves := v.world.disk, MovesOf(v.names, hash);
    var last := |moves| - 1;
    if moves[last].below.None? {
      assert Naked(v.names, hash) && !ReliedOn(disk, hash);
      assert MoveOk(sha, disk, v.names, hash, last);
      forall u | u in disk.rows && disk.rows[u].sha == hash && disk.rows[u].state == HashVerified
                 && StagingPath(u) !in disk.files
        ensures u == moves[last].upload
      {
        assert Moving(v.names, hash, u);
      }
    }
  }

  lemma LoseMoveKeepsTrust(sha: Sha256, v: Volume, hash: Hash, below: File)
    requires TrackInv(sha, v) && TrustInv(v) && Enabled(sha, v, LoseMove(hash, below))
    ensures TrustInv(Apply(sha, v, LoseMove(hash, below)))
  {
    hide RowInv, NamesOk, FoldersOk, TrustInv, Torn, Naked, Moving, MovesOf;
    ShortenedMoves(v, hash);
    TrustCarries(v, Apply(sha, v, LoseMove(hash, below)));
  }

  lemma LoseCreationTrustIff(sha: Sha256, v: Volume, upload: UploadId)
    requires TrackInv(sha, v) && TrustInv(v) && Enabled(sha, v, LoseCreation(upload))
    ensures TrustInv(Apply(sha, v, LoseCreation(upload))) <==>
            (upload in v.world.disk.rows && v.world.disk.rows[upload].state == HashVerified ==>
               !Naked(v.names, v.world.disk.rows[upload].sha))
  {
    hide RowInv, NamesOk, FoldersOk, ReliedOn, Naked, Moving;
    var w := Apply(sha, v, LoseCreation(upload));
    SameMoves(v.names, w.names);
    forall hash ensures ReliedOn(w.world.disk, hash) <==> ReliedOn(v.world.disk, hash) {
      SameRowsRely(v.world.disk, w.world.disk, hash);
    }
    if upload in v.world.disk.rows {
      StandingIsNotMoving(sha, v, v.world.disk.rows[upload].sha, upload);
    }
  }

  lemma SameRowsRely(before: Disk, after: Disk, hash: Hash)
    requires after.rows == before.rows && after.blobs == before.blobs
    ensures ReliedOn(after, hash) <==> ReliedOn(before, hash)
  {
  }

  lemma StandingIsNotMoving(sha: Sha256, v: Volume, hash: Hash, upload: UploadId)
    requires NamesOk(sha, v.world.disk, v.names) && StagingPath(upload) in v.world.disk.files
    ensures !Moving(v.names, hash, upload)
  {
    forall i | 0 <= i < |MovesOf(v.names, hash)| ensures MovesOf(v.names, hash)[i].upload != upload {
      assert MoveOk(sha, v.world.disk, v.names, hash, i);
    }
  }

  lemma BlindBreaksTrust(sha: Sha256, v: Volume, event: L.Event)
    requires Enabled(sha, v, Visible(event)) && Blind(v, Visible(event))
    ensures !TrustInv(Apply(sha, v, Visible(event)))
  {
    hide Naked, Tracked, L.FreeAfter, ManifestOf;
    var hash, w := v.world.disk.rows[event.upload].sha, Apply(sha, v, Visible(event));
    NotARename(v.world, event, hash);
    StillNaked(v.world, v.names, event, hash);
    assert w.world.disk.rows[event.upload].state == Committed && ReliedOn(w.world.disk, hash);
  }

  lemma StillNaked(world: L.World, names: Names, event: L.Event, hash: Hash)
    requires Naked(names, hash) && !Renames(world, event, hash)
    ensures Naked(Tracked(world, names, event), hash)
  {
    hide Tracked, MovesOf;
    TrackedMoves(world, names, event, hash);
  }

  lemma QuietStepsKeepTrust(sha: Sha256, v: Volume, step: Step)
    requires TrackInv(sha, v) && TrustInv(v) && Enabled(sha, v, step)
    requires !step.Visible? && !Loses(step)
    ensures TrustInv(Apply(sha, v, step))
  {
    hide RowInv, NamesOk, FoldersOk, TrustInv, L.Enabled, Torn, Naked, Moving, Plain;
    var w := Apply(sha, v, step);
    match step {
      case MovesReach(hash, count) => ReachedMoves(sha, v, hash, count);
      case PowerBack => NothingNaked(v.names);
      case PowerLoss(files) => CrashKeepsNames(sha, v.world, files);
      case CreationReaches(_) | RemovalReaches(_) | FolderReaches(_) => SameMoves(v.names, w.names);
    }
    TrustCarries(v, w);
  }

  lemma CrashKeepsNames(sha: Sha256, world: L.World, files: map<Path, File>)
    requires L.Enabled(sha, world, L.Crash(files))
    ensures files.Keys == world.disk.files.Keys
  {
  }

  lemma NothingNaked(names: Names)
    ensures forall hash :: !Naked(Restarted(names), hash)
  {
  }

  /** With a directory below `blobs` the renames onto its paths go; with `.staging` no rename can come back. */
  lemma LoseFolderKeepsTrust(sha: Sha256, v: Volume, folder: Folder, lost: seq<Path>)
    requires TrustInv(v) && Enabled(sha, v, LoseFolder(folder, lost))
    ensures TrustInv(Apply(sha, v, LoseFolder(folder, lost)))
  {
    hide ReliedOn, WithoutFiles, Lists, Naked, Moving;
    var w := Apply(sha, v, LoseFolder(folder, lost));
    LostFilesAre(v.world.disk, folder, lost);
    FewerMoves(v.names, folder);
    if !folder.StagingFolder? {
      hide TrustInv;
      TrustCarries(v, w);
    } else {
      forall hash | ReliedOn(w.world.disk, hash) ensures !Naked(w.names, hash) {
      }
    }
  }

  lemma FewerMoves(names: Names, folder: Folder)
    ensures (var after := WithoutFolder(names, folder);
             && (folder.StagingFolder? ==> forall hash :: !Naked(after, hash))
             && (forall hash :: Naked(after, hash) ==>
                   Naked(names, hash) && (forall u :: Moving(names, hash, u) ==> Moving(after, hash, u))))
  {
    var after := WithoutFolder(names, folder);
    assert forall hash :: MovesOf(after, hash) == MovesOf(names, hash) || MovesOf(after, hash) == [];
    assert folder.StagingFolder? ==> forall hash :: MovesOf(after, hash) == [];
  }

  lemma LoseRemovalKeepsTrust(sha: Sha256, v: Volume, upload: UploadId, file: File)
    requires TrustInv(v) && Enabled(sha, v, LoseRemoval(upload, file))
    ensures TrustInv(Apply(sha, v, LoseRemoval(upload, file)))
  {
    hide TrustInv, Torn, Naked, Moving;
    var w := Apply(sha, v, LoseRemoval(upload, file));
    SameMoves(v.names, w.names);
    TrustCarries(v, w);
  }

  /**
   Exactly which steps keep the files and the trust in their renames: all but a recovery that takes up a
   file whose rename is pending over an empty path, the loss of a staging file some upload still needs,
   and the loss of a directory with a file that somebody relies on.
   */
  lemma StepKeepsTrustIff(sha: Sha256, v: Volume, step: Step)
    requires TrackInv(sha, v) && FileInv(sha, v.world) && TrustInv(v) && Enabled(sha, v, step)
    ensures FileInv(sha, Apply(sha, v, step).world) && TrustInv(Apply(sha, v, step)) <==> Sighted(v, step)
  {
    hide RowInv, FileInv, NamesOk, FoldersOk, TrustInv, L.Apply, L.Enabled, Tracked, MovesOf, MovedBack, RemoveFile;
    hide Apply, Enabled, Naked, SpareCreation, SpareMove, SpareFolder;
    if Loses(step) {
      LossKeepsFilesIff(sha, v, step);
    } else {
      OtherStepsKeepFiles(sha, v, step);
    }
    match step {
      case Visible(event) =>
        if Blind(v, step) {
          BlindBreaksTrust(sha, v, event);
        } else {
          VisibleKeepsTrust(sha, v, event);
        }
      case LoseCreation(upload) => LoseCreationTrustIff(sha, v, upload);
      case LoseRemoval(upload, file) => LoseRemovalKeepsTrust(sha, v, upload, file);
      case LoseMove(hash, below) =>
        LoseMoveHasMoves(sha, v, hash, below);
        TrustSparesMoves(sha, v, hash);
        LoseMoveKeepsTrust(sha, v, hash, below);
      case LoseFolder(folder, lost) => LoseFolderKeepsTrust(sha, v, folder, lost);
      case _ => QuietStepsKeepTrust(sha, v, step);
    }
  }

  lemma LoseMoveHasMoves(sha: Sha256, v: Volume, hash: Hash, below: File)
    requires Enabled(sha, v, LoseMove(hash, below))
    ensures MovesOf(v.names, hash) != []
  {
    hide Returns;
  }

  // Runs

  ghost predicate TrustedThroughout(sha: Sha256, v: Volume, steps: seq<Step>)
    requires Legal(sha, v, steps)
    decreases |steps|
  {
    && FileInv(sha, v.world) && TrustInv(v)
    && (steps == [] || TrustedThroughout(sha, Apply(sha, v, steps[0]), steps[1..]))
  }

  ghost predicate AllSighted(sha: Sha256, v: Volume, steps: seq<Step>)
    requires Legal(sha, v, steps)
    decreases |steps|
  {
    steps == [] || (Sighted(v, steps[0]) && AllSighted(sha, Apply(sha, v, steps[0]), steps[1..]))
  }

  lemma {:induction false} RunKeepsTrustIff(sha: Sha256, v: Volume, steps: seq<Step>)
    requires TrackInv(sha, v) && FileInv(sha, v.world) && TrustInv(v) && Legal(sha, v, steps)
    ensures TrustedThroughout(sha, v, steps) <==> AllSighted(sha, v, steps)
    decreases |steps|
  {
    hide TrackInv, FileInv, TrustInv, Enabled, Apply, Sighted;
    if steps != [] {
      StepKeepsTrack(sha, v, steps[0]);
      StepKeepsTrustIff(sha, v, steps[0]);
      if Sighted(v, steps[0]) {
        RunKeepsTrustIff(sha, Apply(sha, v, steps[0]), steps[1..]);
      } else {
        BrokenIsNotTrusted(sha, Apply(sha, v, steps[0]), steps[1..]);
      }
    }
  }

  lemma BrokenIsNotTrusted(sha: Sha256, v: Volume, steps: seq<Step>)
    requires Legal(sha, v, steps) && !(FileInv(sha, v.world) && TrustInv(v))
    ensures !TrustedThroughout(sha, v, steps)
  {
  }

  lemma BeginIsTrusted(capacity: int)
    ensures TrustInv(Begin(capacity))
  {
  }

  /**
   Over every run from an empty library, with power losses taking back any pending entries: the files
   hold and no committed or ready upload ever stands on a pending rename over an empty path, if and only
   if no recovery was blind and no needed staging file or relied-on directory was lost.
   */
  lemma LibraryKeepsTrustIff(sha: Sha256, capacity: int, steps: seq<Step>)
    requires Legal(sha, Begin(capacity), steps)
    ensures TrustedThroughout(sha, Begin(capacity), steps) <==> AllSighted(sha, Begin(capacity), steps)
  {
    BeginIsTracked(sha, capacity);
    BeginIsTrusted(capacity);
    RunKeepsTrustIff(sha, Begin(capacity), steps);
  }
}
