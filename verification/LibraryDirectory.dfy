/**
 Directory entries of the material volume: visible at once, durable later. Creating, unlinking and
 renaming a file and making a directory change what a reader sees; a power loss may take any of them back
 until the entry has reached the disk. `LibraryWorld` is what readers see.
 */
module LibraryDirectory {
  import opened Bytes
  import opened MaterialFiles
  import opened UploadRecords
  import opened LibraryDisk
  import opened LibrarySteps
  import opened LibraryRows
  import L = LibraryWorld

  /** One rename of a staging file onto a blob path, and the file that was there before it. */
  datatype Move = Move(upload: UploadId, below: Option<File>)

  /** `.staging`, `blobs`, and the directory below `blobs` that holds the hashes of one prefix. */
  datatype Folder = StagingFolder | BlobFolder | PrefixFolder(prefix: string)

  /** The directories that the server makes when it starts. */
  const LAYOUT := {StagingFolder, BlobFolder}

  function PrefixOf(hash: Hash): string {
    if |hash| < 2 then hash else hash[..2]
  }

  predicate Within(path: Path, folder: Folder) {
    match folder
    case StagingFolder => path.StagingPath?
    case BlobFolder => path.BlobPath?
    case PrefixFolder(prefix) => path.BlobPath? && PrefixOf(path.sha) == prefix
  }

  /**
   The entries that have not reached the disk: staging files created, staging files unlinked (with the
   file that would come back), renames onto each blob path, oldest first, and directories made.
   `folders` are the directories that a reader finds.
   */
  datatype Names = Names(
    created: set<UploadId>,
    removed: map<UploadId, File>,
    moves: map<Hash, seq<Move>>,
    newFolders: set<Folder>,
    folders: set<Folder>)

  /** `dark` is the time between a power loss and the next start, when it shows which entries were lost. */
  datatype Volume = Volume(world: L.World, names: Names, dark: bool)

  datatype Step =
    | Visible(event: L.Event)
    | CreationReaches(upload: UploadId)
    | RemovalReaches(upload: UploadId)
    | MovesReach(sha: Hash, count: nat)
    | FolderReaches(folder: Folder)
    | PowerLoss(files: map<Path, File>)
    | LoseCreation(upload: UploadId)
    | LoseRemoval(upload: UploadId, file: File)
    | LoseMove(sha: Hash, below: File)
    | LoseFolder(folder: Folder, lost: seq<Path>)
    | PowerBack

  function MovesOf(names: Names, sha: Hash): seq<Move> {
    if sha in names.moves then names.moves[sha] else []
  }

  predicate Moving(names: Names, sha: Hash, upload: UploadId) {
    exists i :: 0 <= i < |MovesOf(names, sha)| && MovesOf(names, sha)[i].upload == upload
  }

  ghost predicate Returns(before: File, after: File) {
    before.durable <= |before.bytes| && Torn(before, after)
  }

  /** `lost` lists the files below the directory, each once. */
  ghost predicate Lists(files: map<Path, File>, folder: Folder, lost: seq<Path>) {
    && (forall p :: p in lost <==> p in files && Within(p, folder))
    && (forall i, j :: 0 <= i < j < |lost| ==> lost[i] != lost[j])
  }

  /** `moveFileWithinMaterialRoot` goes on only after the directory sync that makes its rename durable. */
  ghost predicate SyncDone(v: Volume, event: L.Event) {
    event.Turn? && event.upload in v.world.running && event.upload in v.world.disk.rows
    && v.world.running[event.upload].RecordCommitted? && v.world.running[event.upload].createBlob ==>
      !Moving(v.names, v.world.disk.rows[event.upload].sha, event.upload)
  }

  ghost predicate Enabled(sha: Sha256, v: Volume, step: Step) {
    var files := v.world.disk.files;
    match step
    case Visible(event) =>
      !v.dark && !event.Crash? && !event.Tamper? && L.Enabled(sha, v.world, event) && SyncDone(v, event)
    case CreationReaches(upload) => upload in v.names.created
    case RemovalReaches(upload) => upload in v.names.removed
    case MovesReach(hash, count) => count <= |MovesOf(v.names, hash)|
    case FolderReaches(folder) => folder in v.names.newFolders
    case PowerLoss(after) => !v.dark && L.Enabled(sha, v.world, L.Crash(after))
    case LoseCreation(upload) => v.dark && upload in v.names.created && StagingPath(upload) in files
    case LoseRemoval(upload, file) =>
      v.dark && upload in v.names.removed && StagingPath(upload) !in files && Returns(v.names.removed[upload], file)
    case LoseMove(hash, below) =>
      && v.dark && MovesOf(v.names, hash) != [] && BlobPath(hash) in files
      && (var last := LastMove(v.names, hash);
          StagingPath(last.upload) !in files && (last.below.Some? ==> Returns(last.below.value, below)))
    case LoseFolder(folder, lost) => v.dark && folder in v.names.newFolders && Lists(files, folder, lost)
    case PowerBack => v.dark
  }

  function LastMove(names: Names, sha: Hash): Move
    requires MovesOf(names, sha) != []
  {
    var moves := MovesOf(names, sha);
    moves[|moves| - 1]
  }

  predicate Unlinks(pc: Pc) {
    pc.DropStaging? || pc.CleanCancelled? || pc.RemoveStagingCopy?
  }

  /** The directory that a rename onto the blob path needs; `mkdir` makes it where it is missing. */
  function Made(names: Names, hash: Hash): Names {
    var folder := PrefixFolder(PrefixOf(hash));
    names.(newFolders := names.newFolders + ({folder} - names.folders), folders := names.folders + {folder})
  }

  /** The entries an event of the library changes. */
  function Tracked(world: L.World, names: Names, event: L.Event): Names {
    var disk := world.disk;
    match event
    case OpenStaging(upload) => names.(created := names.created + {upload})
    case Turn(upload, _, _) =>
      if upload in world.running && upload in disk.rows && StagingPath(upload) in disk.files then
        var pc, staging, hash := world.running[upload], StagingPath(upload), disk.rows[upload].sha;
        if Unlinks(pc) then names.(removed := names.removed[upload := disk.files[staging]])
        else if pc.MoveStaging? then
          var below := if BlobPath(hash) in disk.files then Some(disk.files[BlobPath(hash)]) else None;
          Made(names, hash).(moves := names.moves[hash := MovesOf(names, hash) + [Move(upload, below)]])
        else names
      else names
    case _ => names
  }

  /** What a lost rename leaves: the staging file has its name back, and the blob path what it had before. */
  function MovedBack(disk: Disk, hash: Hash, last: Move, below: File): Disk
    requires BlobPath(hash) in disk.files
  {
    var blob := BlobPath(hash);
    var moved := disk.files[blob];
    var rest := if last.below.Some? then disk.files[blob := below] else disk.files - {blob};
    disk.(files := rest[StagingPath(last.upload) := moved],
          free := disk.free - if last.below.Some? then |below.blocks| else 0)
  }

  function BlocksOf(files: map<Path, File>, paths: seq<Path>): nat
    requires forall p :: p in paths ==> p in files
  {
    if paths == [] then 0 else BlocksOf(files, paths[..|paths| - 1]) + |files[paths[|paths| - 1]].blocks|
  }

  /** A directory whose entry is lost goes with every file below it. */
  function WithoutFiles(disk: Disk, lost: seq<Path>): Disk
    requires forall p :: p in lost ==> p in disk.files
  {
    disk.(files := map p | p in disk.files && p !in lost :: disk.files[p],
          free := disk.free + BlocksOf(disk.files, lost))
  }

  predicate GoesWith(folder: Folder, lost: Folder) {
    folder == lost || (folder.PrefixFolder? && lost.BlobFolder?)
  }

  /** No entry below a lost directory is pending any more, and renames out of it can no longer come back. */
  function WithoutFolder(names: Names, lost: Folder): Names {
    Names(if lost.StagingFolder? then {} else names.created,
          if lost.StagingFolder? then map[] else names.removed,
          map h | h in names.moves && !lost.StagingFolder? && !Within(BlobPath(h), lost) :: names.moves[h],
          set f | f in names.newFolders && !GoesWith(f, lost),
          set f | f in names.folders && !GoesWith(f, lost))
  }

  /** What is on the disk when the server starts again is durable; a missing layout directory is made anew. */
  function Restarted(names: Names): Names {
    Names({}, map[], map[], LAYOUT - names.folders, names.folders + LAYOUT)
  }

  function WithDisk(v: Volume, disk: Disk): Volume {
    v.(world := v.world.(disk := disk))
  }

  function Apply(sha: Sha256, v: Volume, step: Step): Volume
    requires Enabled(sha, v, step)
  {
    var disk, names := v.world.disk, v.names;
    match step
    case Visible(event) => v.(world := L.Apply(sha, v.world, event), names := Tracked(v.world, names, event))
    case CreationReaches(upload) => v.(names := names.(created := names.created - {upload}))
    case RemovalReaches(upload) => v.(names := names.(removed := names.removed - {upload}))
    case MovesReach(hash, count) =>
      v.(names := names.(moves := names.moves[hash := MovesOf(names, hash)[count..]]))
    case FolderReaches(folder) => v.(names := names.(newFolders := names.newFolders - {folder}))
    case PowerLoss(files) => Volume(L.Apply(sha, v.world, L.Crash(files)), names, true)
    case LoseCreation(upload) =>
      WithDisk(v, RemoveFile(disk, StagingPath(upload))).(names := names.(created := names.created - {upload}))
    case LoseRemoval(upload, file) =>
      WithDisk(v, disk.(files := disk.files[StagingPath(upload) := file], free := disk.free - |file.blocks|))
        .(names := names.(removed := names.removed - {upload}))
    case LoseMove(hash, below) =>
      var moves := MovesOf(names, hash);
      WithDisk(v, MovedBack(disk, hash, LastMove(names, hash), below))
        .(names := names.(moves := names.moves[hash := moves[..|moves| - 1]]))
    case LoseFolder(folder, lost) => WithDisk(v, WithoutFiles(disk, lost)).(names := WithoutFolder(names, folder))
    case PowerBack => v.(names := Restarted(names), dark := false)
  }

  ghost predicate Legal(sha: Sha256, v: Volume, steps: seq<Step>)
    decreases |steps|
  {
    steps == [] || (Enabled(sha, v, steps[0]) && Legal(sha, Apply(sha, v, steps[0]), steps[1..]))
  }

  ghost function After(sha: Sha256, v: Volume, steps: seq<Step>): Volume
    requires Legal(sha, v, steps)
    decreases |steps|
  {
    if steps == [] then v else After(sha, Apply(sha, v, steps[0]), steps[1..])
  }

  /** An empty library whose layout has just been made. */
  function Begin(capacity: int): Volume {
    Volume(L.Begin(capacity), Names({}, map[], map[], LAYOUT, LAYOUT), false)
  }

  // Blob paths, whatever else happens

  /** Some rename onto the blob path found nothing there and has not reached the disk. */
  predicate Naked(names: Names, sha: Hash) {
    exists i :: 0 <= i < |MovesOf(names, sha)| && MovesOf(names, sha)[i].below.None?
  }

  /** The library itself never takes a file away from a blob path. */
  lemma BlobPathsStay(sha: Sha256, world: L.World, event: L.Event, hash: Hash)
    requires L.Enabled(sha, world, event) && !event.Tamper?
    ensures BlobPath(hash) in world.disk.files ==> BlobPath(hash) in L.Apply(sha, world, event).disk.files
  {
    hide BeginAppend, BeginComplete, BeginCancel, BeginReconcile, Advance, L.FreeAfter, Torn;
    if event.Turn? {
      TurnBlobPaths(sha, world.disk, event.upload, world.running[event.upload], event.wrote, event.material, hash);
    } else if event.StartComplete? || event.StartCancel? {
      StartsKeepBlobPaths(world.disk, event.upload);
    }
  }

  lemma StartsKeepBlobPaths(disk: Disk, upload: UploadId)
    ensures BeginComplete(disk, upload).0.files == disk.files && BeginCancel(disk, upload).0.files == disk.files
  {
  }

  lemma OtherTurnFiles(sha: Sha256, disk: Disk, upload: UploadId, pc: Pc, wrote: nat, material: MaterialId)
    requires Known(disk, upload) && !WritesFiles(pc)
    ensures Advance(sha, disk, upload, pc, wrote, material).0.files == disk.files
  {
    hide PublishBlocked, ManifestOf, AdvanceWrite, RemoveFile, MoveFile;
  }

  lemma FileTurnBlobPaths(sha: Sha256, disk: Disk, upload: UploadId, pc: Pc, wrote: nat, material: MaterialId, hash: Hash)
    requires Known(disk, upload) && WritesFiles(pc)
    ensures BlobPath(hash) in Advance(sha, disk, upload, pc, wrote, material).0.files <==>
            BlobPath(hash) in disk.files
            || (pc.MoveStaging? && disk.rows[upload].sha == hash && StagingPath(upload) in disk.files)
  {
  }

  lemma TurnBlobPaths(sha: Sha256, disk: Disk, upload: UploadId, pc: Pc, wrote: nat, material: MaterialId, hash: Hash)
    requires Known(disk, upload)
    ensures BlobPath(hash) in Advance(sha, disk, upload, pc, wrote, material).0.files <==>
            BlobPath(hash) in disk.files
            || (pc.MoveStaging? && disk.rows[upload].sha == hash && StagingPath(upload) in disk.files)
  {
    hide Advance;
    if WritesFiles(pc) {
      FileTurnBlobPaths(sha, disk, upload, pc, wrote, material, hash);
    } else {
      OtherTurnFiles(sha, disk, upload, pc, wrote, material);
    }
  }

  function BelowNow(disk: Disk, hash: Hash): Option<File> {
    if BlobPath(hash) in disk.files then Some(disk.files[BlobPath(hash)]) else None
  }

  /** The turn renames its upload's staging file onto the blob path of `hash`. */
  predicate Renames(world: L.World, event: L.Event, hash: Hash) {
    && event.Turn? && event.upload in world.running && world.running[event.upload].MoveStaging?
    && event.upload in world.disk.rows && world.disk.rows[event.upload].sha == hash
    && StagingPath(event.upload) in world.disk.files
  }

  lemma TrackedMoves(world: L.World, names: Names, event: L.Event, hash: Hash)
    ensures MovesOf(Tracked(world, names, event), hash)
         == if Renames(world, event, hash) then MovesOf(names, hash) + [Move(event.upload, BelowNow(world.disk, hash))]
            else MovesOf(names, hash)
  {
  }

  // Directories

  /** Every file has its directories, the layout is there while the server runs, and without `.staging` nothing returns to it. */
  ghost predicate FoldersOk(v: Volume) {
    var files, names := v.world.disk.files, v.names;
    && (forall u :: StagingPath(u) in files ==> StagingFolder in names.folders)
    && (forall h :: BlobPath(h) in files ==> BlobFolder in names.folders && PrefixFolder(PrefixOf(h)) in names.folders)
    && names.newFolders <= names.folders
    && (!v.dark ==> LAYOUT <= names.folders)
    && (StagingFolder !in names.folders ==> names.removed == map[] && forall h :: MovesOf(names, h) == [])
  }

  /** A file has a blob path only from a rename onto it. */
  lemma BlobPathsAreMoved(sha: Sha256, world: L.World, event: L.Event, hash: Hash)
    requires L.Enabled(sha, world, event) && !event.Tamper?
    requires BlobPath(hash) in L.Apply(sha, world, event).disk.files
    ensures BlobPath(hash) in world.disk.files || Renames(world, event, hash)
  {
    hide BeginAppend, BeginComplete, BeginCancel, BeginReconcile, Advance, L.FreeAfter, Torn;
    if event.Turn? {
      TurnBlobPaths(sha, world.disk, event.upload, world.running[event.upload], event.wrote, event.material, hash);
    } else if event.StartComplete? || event.StartCancel? {
      StartsKeepBlobPaths(world.disk, event.upload);
    }
  }

  /** What a rename does to the directories, and that nothing else the library does changes them. */
  lemma TrackedFolders(world: L.World, names: Names, event: L.Event)
    requires names.newFolders <= names.folders
    ensures (var after := Tracked(world, names, event);
             && names.folders <= after.folders && after.newFolders <= after.folders
             && (forall f :: f in after.newFolders <==>
                   f in names.newFolders || (f in after.folders && f !in names.folders))
             && (forall hash :: Renames(world, event, hash) ==> PrefixFolder(PrefixOf(hash)) in after.folders)
             && (forall f :: f in after.folders && f !in names.folders ==> f.PrefixFolder?))
  {
  }

  lemma VisibleKeepsFolders(sha: Sha256, v: Volume, event: L.Event)
    requires FoldersOk(v) && Enabled(sha, v, Visible(event))
    ensures FoldersOk(Apply(sha, v, Visible(event)))
  {
    hide L.Apply, L.Enabled, SyncDone, Tracked;
    var after := Apply(sha, v, Visible(event));
    TrackedFolders(v.world, v.names, event);
    forall h | BlobPath(h) in after.world.disk.files
      ensures BlobFolder in after.names.folders && PrefixFolder(PrefixOf(h)) in after.names.folders
    {
      BlobPathsAreMoved(sha, v.world, event, h);
    }
  }

  lemma StepKeepsFolders(sha: Sha256, v: Volume, step: Step)
    requires FoldersOk(v) && Enabled(sha, v, step)
    ensures FoldersOk(Apply(sha, v, step))
  {
    hide L.Apply, Returns, Tracked, Torn, BlocksOf;
    match step {
      case Visible(event) => VisibleKeepsFolders(sha, v, event);
      case PowerLoss(files) => CrashKeepsPaths(sha, v.world, files);
      case LoseFolder(folder, lost) => LostFolderKeepsFolders(sha, v, folder, lost);
      case LoseMove(hash, below) => LostMoveKeepsFolders(sha, v, hash, below);
      case LoseRemoval(upload, file) => assert v.names.removed != map[];
      case CreationReaches(_) | RemovalReaches(_) | FolderReaches(_) | LoseCreation(_) | PowerBack | MovesReach(_, _) =>
        assert forall h :: MovesOf(v.names, h) == [] ==> MovesOf(Apply(sha, v, step).names, h) == [];
    }
  }

  lemma LostMoveKeepsFolders(sha: Sha256, v: Volume, hash: Hash, below: File)
    requires FoldersOk(v) && Enabled(sha, v, LoseMove(hash, below))
    ensures FoldersOk(Apply(sha, v, LoseMove(hash, below)))
  {
    hide Returns;
    assert MovesOf(v.names, hash) != [];
  }

  lemma CrashKeepsPaths(sha: Sha256, world: L.World, files: map<Path, File>)
    requires L.Enabled(sha, world, L.Crash(files))
    ensures files.Keys == world.disk.files.Keys && L.Apply(sha, world, L.Crash(files)).disk.files == files
  {
    hide Torn;
  }

  lemma LostFolderKeepsFolders(sha: Sha256, v: Volume, folder: Folder, lost: seq<Path>)
    requires FoldersOk(v) && Enabled(sha, v, LoseFolder(folder, lost))
    ensures FoldersOk(Apply(sha, v, LoseFolder(folder, lost)))
  {
    hide BlocksOf;
    var after := Apply(sha, v, LoseFolder(folder, lost));
    forall p | p in after.world.disk.files ensures p in v.world.disk.files && !Within(p, folder) {
      assert p !in lost;
    }
    if folder.StagingFolder? {
      assert after.names.moves == map[];
    } else {
      assert forall h :: MovesOf(after.names, h) == MovesOf(v.names, h) || MovesOf(after.names, h) == [];
    }
  }

  // Files that stay

  /** The directories of a blob path have reached the disk. */
  predicate Housed(names: Names, hash: Hash) {
    BlobFolder !in names.newFolders && PrefixFolder(PrefixOf(hash)) !in names.newFolders
  }

  /** The blob path has a file; its renames found one there before, and its directories have reached the disk. */
  ghost predicate Clothed(v: Volume, hash: Hash) {
    BlobPath(hash) in v.world.disk.files && !Naked(v.names, hash) && Housed(v.names, hash)
  }

  lemma TrackedStaysClothed(world: L.World, names: Names, event: L.Event, hash: Hash)
    requires BlobPath(hash) in world.disk.files && !Naked(names, hash)
    ensures !Naked(Tracked(world, names, event), hash)
  {
    hide Tracked, MovesOf;
    TrackedMoves(world, names, event, hash);
  }

  lemma TrackedStaysHoused(v: Volume, event: L.Event, hash: Hash)
    requires FoldersOk(v) && BlobPath(hash) in v.world.disk.files && Housed(v.names, hash)
    ensures Housed(Tracked(v.world, v.names, event), hash)
  {
    hide Tracked;
    TrackedFolders(v.world, v.names, event);
  }

  lemma LostFolderStaysClothed(sha: Sha256, v: Volume, folder: Folder, lost: seq<Path>, hash: Hash)
    requires FoldersOk(v) && Clothed(v, hash) && Enabled(sha, v, LoseFolder(folder, lost))
    ensures Clothed(Apply(sha, v, LoseFolder(folder, lost)), hash)
  {
    hide BlocksOf;
    var after := Apply(sha, v, LoseFolder(folder, lost));
    assert !Within(BlobPath(hash), folder);
    assert BlobPath(hash) !in lost;
    assert MovesOf(after.names, hash) == if folder.StagingFolder? then [] else MovesOf(v.names, hash);
  }

  lemma StepKeepsClothed(sha: Sha256, v: Volume, step: Step, hash: Hash)
    requires FoldersOk(v) && Enabled(sha, v, step) && Clothed(v, hash)
    ensures Clothed(Apply(sha, v, step), hash)
  {
    hide L.Apply, L.Enabled, Torn, SyncDone, Tracked, FoldersOk, BlocksOf, Lists;
    match step {
      case Visible(event) =>
        BlobPathsStay(sha, v.world, event, hash);
        TrackedStaysClothed(v.world, v.names, event, hash);
        TrackedStaysHoused(v, event, hash);
      case PowerLoss(files) => BlobPathsStay(sha, v.world, L.Crash(files), hash);
      case LoseMove(other, below) =>
        var before, after := MovesOf(v.names, hash), MovesOf(Apply(sha, v, step).names, hash);
        assert after == if other == hash then before[..|before| - 1] else before;
        assert other == hash ==> before[|before| - 1].below.Some?;
      case MovesReach(other, count) =>
        var before, after := MovesOf(v.names, hash), MovesOf(Apply(sha, v, step).names, hash);
        assert forall i :: 0 <= i < |after| ==> after[i] == before[if other == hash then count + i else i];
      case CreationReaches(_) | RemovalReaches(_) | FolderReaches(_) | LoseCreation(_) | LoseRemoval(_, _) =>
        assert MovesOf(Apply(sha, v, step).names, hash) == MovesOf(v.names, hash);
      case LoseFolder(folder, lost) => LostFolderStaysClothed(sha, v, folder, lost, hash);
      case PowerBack =>
        RestartStaysHoused(v, hash);
        assert MovesOf(Apply(sha, v, step).names, hash) == [];
    }
  }

  lemma RestartStaysHoused(v: Volume, hash: Hash)
    requires FoldersOk(v) && BlobPath(hash) in v.world.disk.files
    ensures Housed(Restarted(v.names), hash)
  {
  }

  /**
   A file under a blob path stays for good once its directories have reached the disk and its renames
   have too, or found a file there before them.
   */
  lemma {:induction false} ClothedStays(sha: Sha256, v: Volume, steps: seq<Step>, hash: Hash)
    requires FoldersOk(v) && Legal(sha, v, steps) && Clothed(v, hash)
    ensures Clothed(After(sha, v, steps), hash)
    decreases |steps|
  {
    hide Enabled, Apply, Clothed, FoldersOk;
    if steps != [] {
      StepKeepsFolders(sha, v, steps[0]);
      StepKeepsClothed(sha, v, steps[0], hash);
      ClothedStays(sha, Apply(sha, v, steps[0]), steps[1..], hash);
    }
  }
}
