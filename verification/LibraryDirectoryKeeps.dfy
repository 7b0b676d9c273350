/** Which files survive whatever follows: published files, and the staging files of uploads in transfer. */
module LibraryDirectoryKeeps {
  import opened Bytes
  import opened MaterialFiles
  import opened UploadRecords
  import opened UploadGuards
  import opened LibraryDisk
  import opened LibrarySteps
  import opened LibraryRows
  import opened LibraryStates
  import opened LibraryFiles
  import opened LibraryDirectory
  import opened LibraryDirectoryLoss
  import opened LibraryDirectoryRun
  import opened LibraryDirectoryTrust
  import L = LibraryWorld

  // Runs

  lemma StepsPrepend(sha: Sha256, v: Volume, step: Step, rest: seq<Step>)
    requires Enabled(sha, v, step) && Legal(sha, Apply(sha, v, step), rest)
    ensures Legal(sha, v, [step] + rest)
    ensures After(sha, v, [step] + rest) == After(sha, Apply(sha, v, step), rest)
  {
    hide Enabled, Apply;
    assert ([step] + rest)[1..] == rest;
  }

  lemma StepsOfNone(sha: Sha256, v: Volume)
    ensures Legal(sha, v, []) && After(sha, v, []) == v
  {
  }

  lemma {:induction false} StepsConcat(sha: Sha256, v: Volume, first: seq<Step>, second: seq<Step>)
    requires Legal(sha, v, first) && Legal(sha, After(sha, v, first), second)
    ensures Legal(sha, v, first + second)
    ensures After(sha, v, first + second) == After(sha, After(sha, v, first), second)
    decreases |first|
  {
    hide Enabled, Apply;
    if first == [] {
      assert first + second == second;
    } else {
      StepsConcat(sha, Apply(sha, v, first[0]), first[1..], second);
      assert first + second == [first[0]] + (first[1..] + second);
      StepsPrepend(sha, v, first[0], first[1..] + second);
    }
  }

  // Published files

  /** Whatever happens from here on, the blob path keeps a file. */
  ghost predicate KeepsBlob(sha: Sha256, v: Volume, hash: Hash) {
    forall steps :: Legal(sha, v, steps) ==> BlobPath(hash) in After(sha, v, steps).world.disk.files
  }

  function Settled(file: File): File {
    File(file.bytes, {}, |file.bytes|, file.blocks)
  }

  lemma SettledIsTorn(file: File)
    requires file.durable <= |file.bytes|
    ensures Torn(file, Settled(file)) && Returns(file, Settled(file))
  {
  }

  /** In the dark, the renames onto a naked path can all be taken back. */
  lemma {:induction false} UndoMoves(sha: Sha256, v: Volume, hash: Hash) returns (steps: seq<Step>)
    requires v.dark && NamesOk(sha, v.world.disk, v.names) && Naked(v.names, hash)
    ensures Legal(sha, v, steps) && BlobPath(hash) !in After(sha, v, steps).world.disk.files
    ensures After(sha, v, steps).world.disk.rows == v.world.disk.rows
    ensures After(sha, v, steps).world.disk.blobs == v.world.disk.blobs
    decreases |MovesOf(v.names, hash)|
  {
    hide NamesOk, MoveOk, Torn, Legal, After;
    var moves := MovesOf(v.names, hash);
    var last := LastMove(v.names, hash);
    var below := if last.below.Some? then Settled(last.below.value) else EMPTY_FILE;
    var step := LoseMove(hash, below);
    LastCanGo(sha, v, hash);
    var next := Apply(sha, v, step);
    LoseMoveKeepsNames(sha, v, hash, below);
    assert MovesOf(next.names, hash) == moves[..|moves| - 1];
    var rest := [];
    if last.below.None? {
      StepsOfNone(sha, next);
    } else {
      assert Naked(next.names, hash) by {
        var i :| 0 <= i < |moves| && moves[i].below.None?;
        assert MovesOf(next.names, hash)[i].below.None?;
      }
      rest := UndoMoves(sha, next, hash);
    }
    StepsPrepend(sha, v, step, rest);
    steps := [step] + rest;
  }

  lemma LastCanGo(sha: Sha256, v: Volume, hash: Hash)
    requires v.dark && NamesOk(sha, v.world.disk, v.names) && MovesOf(v.names, hash) != []
    ensures (var last := LastMove(v.names, hash);
             Enabled(sha, v, LoseMove(hash, if last.below.Some? then Settled(last.below.value) else EMPTY_FILE)))
  {
    hide RemovedOk, Torn;
    var last := LastMove(v.names, hash);
    assert MoveOk(sha, v.world.disk, v.names, hash, |MovesOf(v.names, hash)| - 1);
    if last.below.Some? {
      SettledIsTorn(last.below.value);
    }
  }

  function SettledFiles(files: map<Path, File>): map<Path, File> {
    map p | p in files :: Settled(files[p])
  }

  lemma PowerCanGo(sha: Sha256, v: Volume)
    requires !v.dark && L.Durable(v.world.disk)
    ensures Enabled(sha, v, PowerLoss(SettledFiles(v.world.disk.files)))
  {
    hide Torn;
    forall p | p in v.world.disk.files ensures Torn(v.world.disk.files[p], SettledFiles(v.world.disk.files)[p]) {
      SettledIsTorn(v.world.disk.files[p]);
    }
  }

  /** A file on a naked path can be lost: the power goes and takes its renames back. */
  lemma NakedCanBeLost(sha: Sha256, v: Volume, hash: Hash) returns (steps: seq<Step>)
    requires TrackInv(sha, v) && FileInv(sha, v.world) && Naked(v.names, hash)
    ensures Legal(sha, v, steps) && BlobPath(hash) !in After(sha, v, steps).world.disk.files
    ensures After(sha, v, steps).world.disk.rows == v.world.disk.rows
    ensures After(sha, v, steps).world.disk.blobs == v.world.disk.blobs
  {
    hide RowInv, NamesOk, FoldersOk, BlobFilesOk, FileOk, PcFileOk, Torn, Naked, Enabled, Apply, Legal, After;
    if v.dark {
      steps := UndoMoves(sha, v, hash);
    } else {
      var files := SettledFiles(v.world.disk.files);
      PowerCanGo(sha, v);
      StepKeepsTrack(sha, v, PowerLoss(files));
      var dark := Apply(sha, v, PowerLoss(files));
      PowerLossIs(sha, v, files);
      var rest := UndoMoves(sha, dark, hash);
      StepsPrepend(sha, v, PowerLoss(files), rest);
      steps := [PowerLoss(files)] + rest;
    }
  }

  lemma PowerLossIs(sha: Sha256, v: Volume, files: map<Path, File>)
    requires Enabled(sha, v, PowerLoss(files))
    ensures (var after := Apply(sha, v, PowerLoss(files));
             after == Volume(L.World(v.world.disk.(files := files), map[], L.NoCreation), v.names, true))
    ensures files.Keys == v.world.disk.files.Keys
  {
    hide Torn;
  }

  lemma {:induction false} ListSet(paths: set<Path>) returns (list: seq<Path>)
    ensures forall p :: p in list <==> p in paths
    ensures forall i, j :: 0 <= i < j < |list| ==> list[i] != list[j]
    decreases |paths|
  {
    if paths == {} {
      list := [];
    } else {
      var p :| p in paths;
      var rest := ListSet(paths - {p});
      list := rest + [p];
    }
  }

  /** A directory whose entry is pending can be lost, and every file below it. */
  lemma FolderCanBeLost(sha: Sha256, v: Volume, folder: Folder) returns (steps: seq<Step>)
    requires TrackInv(sha, v) && FileInv(sha, v.world) && folder in v.names.newFolders
    ensures Legal(sha, v, steps)
    ensures (var after := After(sha, v, steps).world.disk;
             && after.rows == v.world.disk.rows && after.blobs == v.world.disk.blobs
             && (forall p :: p in after.files <==> p in v.world.disk.files && !Within(p, folder)))
  {
    hide RowInv, NamesOk, FoldersOk, BlobFilesOk, FileOk, PcFileOk, Torn, Enabled, Apply, Legal, After, Lists;
    var dark, before := v, [];
    if v.dark {
      StepsOfNone(sha, v);
    } else {
      var files := SettledFiles(v.world.disk.files);
      PowerCanGo(sha, v);
      PowerLossIs(sha, v, files);
      dark, before := Apply(sha, v, PowerLoss(files)), [PowerLoss(files)];
      StepsOfNone(sha, dark);
      StepsPrepend(sha, v, PowerLoss(files), []);
      assert [PowerLoss(files)] + [] == [PowerLoss(files)];
    }
    var lost := ListSet(set p | p in dark.world.disk.files && Within(p, folder));
    LoseFolderIs(sha, dark, folder, lost);
    var step := LoseFolder(folder, lost);
    StepsOfNone(sha, Apply(sha, dark, step));
    StepsPrepend(sha, dark, step, []);
    assert [step] + [] == [step];
    StepsConcat(sha, v, before, [step]);
    steps := before + [step];
  }

  lemma LoseFolderIs(sha: Sha256, v: Volume, folder: Folder, lost: seq<Path>)
    requires v.dark && folder in v.names.newFolders
    requires forall p :: p in lost <==> p in v.world.disk.files && Within(p, folder)
    requires forall i, j :: 0 <= i < j < |lost| ==> lost[i] != lost[j]
    ensures Enabled(sha, v, LoseFolder(folder, lost))
    ensures (var after := Apply(sha, v, LoseFolder(folder, lost)).world.disk;
             && after.rows == v.world.disk.rows && after.blobs == v.world.disk.blobs
             && (forall p :: p in after.files <==> p in v.world.disk.files && !Within(p, folder)))
  {
    hide WithoutFiles, WithoutFolder;
    LostFilesAre(v.world.disk, folder, lost);
  }

  /**
   A file on a blob path stays through everything that may follow if and only if its renames found a file
   there before or have reached the disk, and both directories above it have reached the disk too.
   */
  lemma KeepsBlobIff(sha: Sha256, v: Volume, hash: Hash)
    requires TrackInv(sha, v) && FileInv(sha, v.world) && BlobPath(hash) in v.world.disk.files
    ensures KeepsBlob(sha, v, hash) <==> !Naked(v.names, hash) && Housed(v.names, hash)
  {
    hide TrackInv, FileInv, Naked, Legal, After;
    if Naked(v.names, hash) {
      var steps := NakedCanBeLost(sha, v, hash);
      assert !KeepsBlob(sha, v, hash);
    } else if !Housed(v.names, hash) {
      var folder := if BlobFolder in v.names.newFolders then BlobFolder else PrefixFolder(PrefixOf(hash));
      var steps := FolderCanBeLost(sha, v, folder);
      assert !KeepsBlob(sha, v, hash);
    } else {
      hide Housed;
      TrackedRows(sha, v);
      forall steps | Legal(sha, v, steps) ensures BlobPath(hash) in After(sha, v, steps).world.disk.files {
        ClothedStays(sha, v, steps, hash);
      }
    }
  }

  /**
   A committed or ready upload keeps its file through everything that may follow, any number of power
   losses included, exactly when no pending rename put the file on an empty path and the directories it
   is in have reached the disk.
   */
  lemma PublishedFileStaysIff(sha: Sha256, v: Volume, upload: UploadId)
    requires TrackInv(sha, v) && FileInv(sha, v.world) && upload in v.world.disk.rows
    requires v.world.disk.rows[upload].state == Committed || v.world.disk.rows[upload].state == Ready
    ensures KeepsBlob(sha, v, v.world.disk.rows[upload].sha) <==>
            !Naked(v.names, v.world.disk.rows[upload].sha) && Housed(v.names, v.world.disk.rows[upload].sha)
  {
    hide TrackInv, FileInv, Naked, Housed, KeepsBlob;
    var hash := v.world.disk.rows[upload].sha;
    assert ReliedOn(v.world.disk, hash);
    TrackedRows(sha, v);
    ReliedHasBlob(sha, v.world, hash);
    KeepsBlobIff(sha, v, hash);
  }

  lemma TrackedRows(sha: Sha256, v: Volume)
    requires TrackInv(sha, v)
    ensures RowInv(sha, v.world) && NamesOk(sha, v.world.disk, v.names) && FoldersOk(v)
  {
  }

  /**
   So in a run without a blind recovery every published file is there for good if and only if the
   directories above it have reached the disk, which no step of the library waits for.
   */
  lemma SightedPublishedFilesStayIff(sha: Sha256, capacity: int, steps: seq<Step>, upload: UploadId)
    requires Legal(sha, Begin(capacity), steps) && AllSighted(sha, Begin(capacity), steps)
    requires upload in After(sha, Begin(capacity), steps).world.disk.rows
    requires (var state := After(sha, Begin(capacity), steps).world.disk.rows[upload].state;
              state == Committed || state == Ready)
    ensures (var v := After(sha, Begin(capacity), steps);
             KeepsBlob(sha, v, v.world.disk.rows[upload].sha) <==> Housed(v.names, v.world.disk.rows[upload].sha))
  {
    hide TrackInv, FileInv, Naked, Housed, KeepsBlob, Legal, After, AllSighted, TrustedThroughout;
    var v := After(sha, Begin(capacity), steps);
    LibraryKeepsTrustIff(sha, capacity, steps);
    BeginIsTracked(sha, capacity);
    TrustAtEnd(sha, Begin(capacity), steps);
    assert ReliedOn(v.world.disk, v.world.disk.rows[upload].sha);
    PublishedFileStaysIff(sha, v, upload);
  }

  lemma {:induction false} TrustAtEnd(sha: Sha256, v: Volume, steps: seq<Step>)
    requires Legal(sha, v, steps) && TrustedThroughout(sha, v, steps) && TrackInv(sha, v)
    ensures (var after := After(sha, v, steps);
             TrackInv(sha, after) && FileInv(sha, after.world) && TrustInv(after))
    decreases |steps|
  {
    hide TrackInv, FileInv, TrustInv, Enabled, Apply;
    if steps != [] {
      StepKeepsTrack(sha, v, steps[0]);
      TrustAtEnd(sha, Apply(sha, v, steps[0]), steps[1..]);
    }
  }

  // Acknowledged chunks

  predicate OnlyLosses(steps: seq<Step>) {
    forall s :: s in steps ==> Loses(s)
  }

  /** After any power loss, and any entries it takes back, the upload's chunks are in its staging file. */
  ghost predicate ChunksSurvive(sha: Sha256, v: Volume, upload: UploadId)
    requires Known(v.world.disk, upload)
  {
    forall files, steps :: Legal(sha, v, [PowerLoss(files)] + steps) && OnlyLosses(steps) ==>
      HoldsChunks(sha, After(sha, v, [PowerLoss(files)] + steps).world.disk, upload, v.world.disk.chunks[upload])
  }

  ghost predicate HoldsChunks(sha: Sha256, disk: Disk, upload: UploadId, chunks: seq<ChunkRow>) {
    StagingPath(upload) in disk.files && ChunksHeld(sha, disk.files[StagingPath(upload)], chunks)
  }

  /** Losses of other entries leave a staging file alone. */
  lemma {:induction false} LossesKeepStaging(sha: Sha256, v: Volume, steps: seq<Step>, upload: UploadId)
    requires Legal(sha, v, steps) && OnlyLosses(steps)
    requires upload !in v.names.created && StagingFolder !in v.names.newFolders
    requires StagingPath(upload) in v.world.disk.files
    ensures (var after := After(sha, v, steps).world.disk.files;
             StagingPath(upload) in after && after[StagingPath(upload)] == v.world.disk.files[StagingPath(upload)])
    decreases |steps|
  {
    hide Enabled, Apply;
    if steps != [] {
      assert steps[0] in steps;
      LossKeepsStaging(sha, v, steps[0], upload);
      LossesKeepStaging(sha, Apply(sha, v, steps[0]), steps[1..], upload);
    }
  }

  lemma LossKeepsStaging(sha: Sha256, v: Volume, step: Step, upload: UploadId)
    requires Enabled(sha, v, step) && Loses(step)
    requires upload !in v.names.created && StagingFolder !in v.names.newFolders
    requires StagingPath(upload) in v.world.disk.files
    ensures (var after := Apply(sha, v, step);
             && upload !in after.names.created && StagingFolder !in after.names.newFolders
             && StagingPath(upload) in after.world.disk.files
             && after.world.disk.files[StagingPath(upload)] == v.world.disk.files[StagingPath(upload)])
  {
    hide Returns, BlocksOf;
    if step.LoseFolder? {
      LostFilesAre(v.world.disk, step.folder, step.lost);
      assert !Within(StagingPath(upload), step.folder);
    }
  }

  lemma TransferHoldsChunks(sha: Sha256, world: L.World, upload: UploadId)
    requires FileInv(sha, world) && Known(world.disk, upload) && world.disk.rows[upload].state == Transferring
    ensures HoldsChunks(sha, world.disk, upload, world.disk.chunks[upload])
  {
    hide BlobFilesOk, ChunksHeld, PcFileOk;
    assert FileOk(sha, world.disk, upload);
  }

  /**
   The acknowledged chunks of an upload in transfer survive every power loss if and only if the creation
   of its staging file and that of `.staging` have reached the disk, which nothing in the library waits for.
   */
  lemma ChunksSurviveIff(sha: Sha256, v: Volume, upload: UploadId)
    requires TrackInv(sha, v) && FileInv(sha, v.world) && !v.dark
    requires Known(v.world.disk, upload) && v.world.disk.rows[upload].state == Transferring
    ensures ChunksSurvive(sha, v, upload) <==>
            upload !in v.names.created && StagingFolder !in v.names.newFolders
  {
    hide TrackInv, FileInv, HoldsChunks, Legal, After, OnlyLosses;
    if upload in v.names.created {
      var files := CreationCanBeLost(sha, v, upload);
      assert !ChunksSurvive(sha, v, upload);
    } else if StagingFolder in v.names.newFolders {
      var files, lost := StagingCanBeLost(sha, v, upload);
      assert !ChunksSurvive(sha, v, upload);
    } else {
      forall files, steps | Legal(sha, v, [PowerLoss(files)] + steps) && OnlyLosses(steps)
        ensures HoldsChunks(sha, After(sha, v, [PowerLoss(files)] + steps).world.disk, upload,
                            v.world.disk.chunks[upload])
      {
        PowerLossKeepsChunks(sha, v, files, steps, upload);
      }
    }
  }

  lemma StagingCanBeLost(sha: Sha256, v: Volume, upload: UploadId) returns (files: map<Path, File>, lost: seq<Path>)
    requires TrackInv(sha, v) && FileInv(sha, v.world) && !v.dark && StagingFolder in v.names.newFolders
    requires Known(v.world.disk, upload)
    ensures (var losses := [LoseFolder(StagingFolder, lost)];
             && Legal(sha, v, [PowerLoss(files)] + losses) && OnlyLosses(losses)
             && !HoldsChunks(sha, After(sha, v, [PowerLoss(files)] + losses).world.disk, upload,
                             v.world.disk.chunks[upload]))
  {
    hide RowInv, NamesOk, FoldersOk, BlobFilesOk, FileOk, PcFileOk, Torn, Legal, After, Enabled, Apply, ChunksHeld;
    files := SettledFiles(v.world.disk.files);
    PowerCanGo(sha, v);
    PowerLossIs(sha, v, files);
    var dark := Apply(sha, v, PowerLoss(files));
    lost := ListSet(set p | p in dark.world.disk.files && Within(p, StagingFolder));
    LoseFolderIs(sha, dark, StagingFolder, lost);
    var step := LoseFolder(StagingFolder, lost);
    StepsOfNone(sha, Apply(sha, dark, step));
    StepsPrepend(sha, dark, step, []);
    assert [step] + [] == [step];
    StepsPrepend(sha, v, PowerLoss(files), [step]);
  }

  lemma CreationCanBeLost(sha: Sha256, v: Volume, upload: UploadId) returns (files: map<Path, File>)
    requires TrackInv(sha, v) && FileInv(sha, v.world) && !v.dark && upload in v.names.created
    requires Known(v.world.disk, upload) && v.world.disk.rows[upload].state == Transferring
    ensures Legal(sha, v, [PowerLoss(files)] + [LoseCreation(upload)]) && OnlyLosses([LoseCreation(upload)])
    ensures !HoldsChunks(sha, After(sha, v, [PowerLoss(files)] + [LoseCreation(upload)]).world.disk, upload,
                         v.world.disk.chunks[upload])
    ensures (var after := After(sha, v, [PowerLoss(files)] + [LoseCreation(upload)]).world.disk;
             after.rows == v.world.disk.rows && StagingPath(upload) !in after.files)
  {
    hide RowInv, NamesOk, FoldersOk, BlobFilesOk, PcFileOk, Torn, Legal, After, Enabled, Apply;
    TransferHoldsChunks(sha, v.world, upload);
    files := SettledFiles(v.world.disk.files);
    PowerCanGo(sha, v);
    PowerLossIs(sha, v, files);
    var dark := Apply(sha, v, PowerLoss(files));
    LoseCreationIs(sha, dark, upload);
    StepsOfNone(sha, Apply(sha, dark, LoseCreation(upload)));
    StepsPrepend(sha, dark, LoseCreation(upload), []);
    assert [LoseCreation(upload)] + [] == [LoseCreation(upload)];
    StepsPrepend(sha, v, PowerLoss(files), [LoseCreation(upload)]);
  }

  lemma LoseCreationIs(sha: Sha256, v: Volume, upload: UploadId)
    requires v.dark && upload in v.names.created && StagingPath(upload) in v.world.disk.files
    ensures Enabled(sha, v, LoseCreation(upload))
    ensures (var after := Apply(sha, v, LoseCreation(upload)).world.disk;
             after.rows == v.world.disk.rows && StagingPath(upload) !in after.files)
  {
  }

  lemma PowerLossKeepsChunks(sha: Sha256, v: Volume, files: map<Path, File>, steps: seq<Step>, upload: UploadId)
    requires TrackInv(sha, v) && FileInv(sha, v.world)
    requires upload !in v.names.created && StagingFolder !in v.names.newFolders
    requires Known(v.world.disk, upload) && v.world.disk.rows[upload].state == Transferring
    requires Legal(sha, v, [PowerLoss(files)] + steps) && OnlyLosses(steps)
    ensures HoldsChunks(sha, After(sha, v, [PowerLoss(files)] + steps).world.disk, upload, v.world.disk.chunks[upload])
  {
    hide TrackInv, FileInv, HoldsChunks, Enabled, Apply, OnlyLosses;
    var all := [PowerLoss(files)] + steps;
    assert all[0] == PowerLoss(files) && all[1..] == steps;
    var dark := Apply(sha, v, PowerLoss(files));
    PowerLossIs(sha, v, files);
    CrashKeepsFiles(sha, v, files);
    TransferHoldsChunks(sha, dark.world, upload);
    HeldIsThere(sha, dark.world.disk, upload, v.world.disk.chunks[upload]);
    LossesKeepStaging(sha, dark, steps, upload);
    HeldElsewhere(sha, dark.world.disk, After(sha, dark, steps).world.disk, upload, v.world.disk.chunks[upload]);
  }

  lemma CrashKeepsFiles(sha: Sha256, v: Volume, files: map<Path, File>)
    requires TrackInv(sha, v) && FileInv(sha, v.world) && Enabled(sha, v, PowerLoss(files))
    ensures FileInv(sha, Apply(sha, v, PowerLoss(files)).world)
  {
    hide RowInv, NamesOk, FoldersOk, FileInv, L.Apply, L.Enabled, Torn, Plain;
    ApplyFiles(sha, v.world, L.Crash(files));
  }

  lemma HeldIsThere(sha: Sha256, disk: Disk, upload: UploadId, chunks: seq<ChunkRow>)
    requires HoldsChunks(sha, disk, upload, chunks)
    ensures StagingPath(upload) in disk.files
  {
  }

  lemma HeldElsewhere(sha: Sha256, before: Disk, after: Disk, upload: UploadId, chunks: seq<ChunkRow>)
    requires HoldsChunks(sha, before, upload, chunks) && StagingPath(upload) in after.files
    requires after.files[StagingPath(upload)] == before.files[StagingPath(upload)]
    ensures HoldsChunks(sha, after, upload, chunks)
  {
    hide ChunksHeld;
  }
}
