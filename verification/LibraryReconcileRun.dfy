/** The sequential reconciliation is one of the machine's own runs, so a crash inside it is covered too. */
module LibraryReconcileRun {
  import opened Bytes
  import opened UploadRecords
  import opened LibraryDisk
  import opened LibrarySteps
  import opened LibraryWorld
  import opened LibraryRecovery

  lemma {:induction false} RunConcat(sha: Sha256, world: World, first: seq<Event>, second: seq<Event>)
    requires Legal(sha, world, first) && Legal(sha, After(sha, world, first), second)
    ensures Legal(sha, world, first + second)
    ensures After(sha, world, first + second) == After(sha, After(sha, world, first), second)
    decreases |first|
  {
    hide Enabled, Apply;
    if first == [] {
      assert first + second == second;
    } else {
      RunConcat(sha, Apply(sha, world, first[0]), first[1..], second);
      assert (first + second)[1..] == first[1..] + second;
    }
  }

  /** Operations that write no chunk never take space. */
  predicate Spaceless(pc: Pc) {
    !pc.WriteChunk? && (pc.Mirror? ==> Spaceless(pc.next))
  }

  lemma AdvanceSpaceless(sha: Sha256, disk: Disk, upload: UploadId, pc: Pc, material: MaterialId)
    requires Known(disk, upload) && Spaceless(pc)
    ensures var (after, next) := Advance(sha, disk, upload, pc, 0, material);
            disk.free <= after.free && Spaceless(next)
  {
    hide PublishBlocked, ManifestOf, AdvanceWrite;
  }

  ghost function Alone(disk: Disk, upload: UploadId, pc: Pc): World {
    World(disk, Resume(map[], upload, pc), NoCreation)
  }

  function DriveEvents(sha: Sha256, disk: Disk, upload: UploadId, pc: Pc, material: MaterialId): seq<Event>
    requires Known(disk, upload)
    decreases Rank(pc)
  {
    if pc.Finished? then
      []
    else
      AdvanceRanks(sha, disk, upload, pc, 0, material);
      var (after, next) := Advance(sha, disk, upload, pc, 0, material);
      [Turn(upload, 0, material)] + DriveEvents(sha, after, upload, next, material)
  }

  lemma {:induction false} DriveIsRun(sha: Sha256, disk: Disk, upload: UploadId, pc: Pc, material: MaterialId)
    requires Known(disk, upload) && Spaceless(pc)
    ensures var events := DriveEvents(sha, disk, upload, pc, material);
            && Legal(sha, Alone(disk, upload, pc), events)
            && After(sha, Alone(disk, upload, pc), events)
               == World(Drive(sha, disk, upload, pc, 0, material).0, map[], NoCreation)
    decreases Rank(pc)
  {
    hide Advance, Rank, Spaceless;
    if !pc.Finished? {
      AdvanceRanks(sha, disk, upload, pc, 0, material);
      AdvanceSpaceless(sha, disk, upload, pc, material);
      var (after, next) := Advance(sha, disk, upload, pc, 0, material);
      var world, turn := Alone(disk, upload, pc), Turn(upload, 0, material);
      assert Enabled(sha, world, turn);
      assert Apply(sha, world, turn) == Alone(after, upload, next);
      DriveIsRun(sha, after, upload, next, material);
      var events := DriveEvents(sha, disk, upload, pc, material);
      assert events[1..] == DriveEvents(sha, after, upload, next, material);
    }
  }

  function ReconcileEvents(sha: Sha256, disk: Disk, uploads: seq<UploadId>, materials: UploadId -> MaterialId): seq<Event>
    decreases |uploads|
  {
    if uploads == [] || !(uploads[0] in disk.rows && uploads[0] in disk.chunks) then
      []
    else
      var upload, material := uploads[0], materials(uploads[0]);
      var (after, outcome) := ReconcileUpload(sha, disk, upload, material);
      [StartReconcile(upload)] + DriveEvents(sha, disk, upload, BeginReconcile(disk, upload), material) +
      (if outcome.Threw? then [] else ReconcileEvents(sha, after, uploads[1..], materials))
  }

  lemma BeginSpaceless(disk: Disk, upload: UploadId)
    requires Known(disk, upload)
    ensures Spaceless(BeginReconcile(disk, upload))
  {
  }

  lemma ReconcileUploadIsRun(sha: Sha256, disk: Disk, upload: UploadId, material: MaterialId)
    requires Known(disk, upload)
    ensures var events := [StartReconcile(upload)] + DriveEvents(sha, disk, upload, BeginReconcile(disk, upload), material);
            && Legal(sha, World(disk, map[], NoCreation), events)
            && After(sha, World(disk, map[], NoCreation), events)
               == World(ReconcileUpload(sha, disk, upload, material).0, map[], NoCreation)
  {
    hide Drive, DriveEvents, BeginReconcile;
    var pc := BeginReconcile(disk, upload);
    BeginSpaceless(disk, upload);
    DriveIsRun(sha, disk, upload, pc, material);
    var world, start := World(disk, map[], NoCreation), StartReconcile(upload);
    var rest := DriveEvents(sha, disk, upload, pc, material);
    assert Apply(sha, world, start) == Alone(disk, upload, pc);
    assert ([start] + rest)[1..] == rest;
  }

  /** What reconciliation does to the disk is what a legal run of single turns does to it. */
  lemma {:induction false} ReconcileIsRun(sha: Sha256, disk: Disk, uploads: seq<UploadId>, materials: UploadId -> MaterialId)
    ensures var events := ReconcileEvents(sha, disk, uploads, materials);
            && Legal(sha, World(disk, map[], NoCreation), events)
            && After(sha, World(disk, map[], NoCreation), events)
               == World(ReconcileAll(sha, disk, uploads, materials).0, map[], NoCreation)
    decreases |uploads|
  {
    hide ReconcileUpload, DriveEvents, Enabled, Apply, BeginReconcile;
    if uploads != [] && uploads[0] in disk.rows && uploads[0] in disk.chunks {
      var upload, material := uploads[0], materials(uploads[0]);
      ReconcileUploadIsRun(sha, disk, upload, material);
      var (after, outcome) := ReconcileUpload(sha, disk, upload, material);
      var first := [StartReconcile(upload)] + DriveEvents(sha, disk, upload, BeginReconcile(disk, upload), material);
      if outcome.Threw? {
        assert first + [] == first;
      } else {
        ReconcileIsRun(sha, after, uploads[1..], materials);
        RunConcat(sha, World(disk, map[], NoCreation), first, ReconcileEvents(sha, after, uploads[1..], materials));
      }
    }
  }
}
