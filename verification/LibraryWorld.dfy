/** Runs of the library: operations of many uploads interleaved turn by turn, with failures and crashes. */
module LibraryWorld {
  import opened Bytes
  import opened MaterialFiles
  import opened UploadRecords
  import opened UploadGuards
  import opened UploadAdmission
  import opened LibraryDisk
  import opened LibrarySteps

  datatype CreateRequest = CreateRequest(expected: nat, sha: Hash, target: string)

  /** The one creation that the creation queue lets run at a time. */
  datatype Creation =
    | NoCreation
    | Quoted(request: CreateRequest, reserved: int)
    | Approved(request: CreateRequest)
    | Opened(request: CreateRequest, upload: UploadId)

  /** `running` holds the active operation of each upload; the upload queue allows one at a time. */
  datatype World = World(disk: Disk, running: map<UploadId, Pc>, creation: Creation)

  datatype Event =
    | BeginCreate(request: CreateRequest)
    | AssessCreate
    | OpenStaging(upload: UploadId)
    | InsertCreated
    | FailCreate
    | StartAppend(upload: UploadId, input: AppendInput)
    | StartComplete(upload: UploadId)
    | StartCancel(upload: UploadId)
    | StartReconcile(upload: UploadId)
    | Turn(upload: UploadId, wrote: nat, material: MaterialId)
    | Fail(upload: UploadId)
    | Crash(files: map<Path, File>)
    | Tamper(files: map<Path, File>)

  function Begin(capacity: int): World {
    World(EmptyDisk(capacity), map[], NoCreation)
  }

  ghost predicate Durable(disk: Disk) {
    forall p :: p in disk.files ==> disk.files[p].durable <= |disk.files[p].bytes|
  }

  /** The space a turn takes; the file system refuses a write that does not fit, which is a `Fail`. */
  function FreeAfter(sha: Sha256, world: World, event: Event): int
    requires event.Turn? && event.upload in world.running && Known(world.disk, event.upload)
  {
    Advance(sha, world.disk, event.upload, world.running[event.upload], event.wrote, event.material).0.free
  }

  ghost predicate Enabled(sha: Sha256, world: World, event: Event) {
    var disk := world.disk;
    match event
    case BeginCreate(_) => world.creation.NoCreation?
    case AssessCreate => world.creation.Quoted?
    case OpenStaging(upload) => world.creation.Approved? && upload !in disk.rows && StagingPath(upload) !in disk.files
    case InsertCreated => world.creation.Opened?
    case FailCreate => true
    case StartAppend(upload, _) => upload !in world.running
    case StartComplete(upload) => upload !in world.running
    case StartCancel(upload) => upload !in world.running
    case StartReconcile(upload) => upload !in world.running && Known(disk, upload)
    case Turn(upload, _, _) =>
      upload in world.running && Known(disk, upload) && (0 <= disk.free ==> 0 <= FreeAfter(sha, world, event))
    case Fail(upload) => upload in world.running
    case Crash(files) =>
      Durable(disk) && files.Keys == disk.files.Keys && forall p :: p in files ==> Torn(disk.files[p], files[p])
    case Tamper(_) => true
  }

  function Resume(running: map<UploadId, Pc>, upload: UploadId, pc: Pc): map<UploadId, Pc> {
    if pc.Finished? then running - {upload} else running[upload := pc]
  }

  function Apply(sha: Sha256, world: World, event: Event): World
    requires Enabled(sha, world, event)
  {
    var disk := world.disk;
    match event
    case BeginCreate(request) => world.(creation := Quoted(request, Reserved(disk)))
    case AssessCreate =>
      var request := world.creation.request;
      var verdict := AssessAdmission(disk.free, request.expected, world.creation.reserved);
      world.(creation := if verdict.Admitted? then Approved(request) else NoCreation)
    case OpenStaging(upload) =>
      world.(disk := CreateFile(disk, StagingPath(upload)), creation := Opened(world.creation.request, upload))
    case InsertCreated =>
      var Opened(request, upload) := world.creation;
      var row := UploadRow(request.expected, request.sha, request.target, Transferring, 0, 0);
      var changed := InsertUpload(disk, upload, row);
      World(changed, world.running[upload := Mirror(ManifestOf(changed, upload), Finished(Done))], NoCreation)
    case FailCreate => world.(creation := NoCreation)
    case StartAppend(upload, input) =>
      world.(running := Resume(world.running, upload, BeginAppend(sha, disk, upload, input)))
    case StartComplete(upload) =>
      var (changed, pc) := BeginComplete(disk, upload);
      world.(disk := changed, running := Resume(world.running, upload, pc))
    case StartCancel(upload) =>
      var (changed, pc) := BeginCancel(disk, upload);
      world.(disk := changed, running := Resume(world.running, upload, pc))
    case StartReconcile(upload) =>
      world.(running := Resume(world.running, upload, BeginReconcile(disk, upload)))
    case Turn(upload, wrote, material) =>
      var (changed, pc) := Advance(sha, disk, upload, world.running[upload], wrote, material);
      world.(disk := changed, running := Resume(world.running, upload, pc))
    case Fail(upload) => world.(running := world.running - {upload})
    case Crash(files) => World(disk.(files := files), map[], NoCreation)
    case Tamper(files) => world.(disk := disk.(files := files))
  }

  /** A legal run: each event was possible when it happened. Every prefix of a run is a run. */
  ghost predicate Legal(sha: Sha256, world: World, events: seq<Event>)
    decreases |events|
  {
    events == [] ||
    (Enabled(sha, world, events[0]) && Legal(sha, Apply(sha, world, events[0]), events[1..]))
  }

  ghost function After(sha: Sha256, world: World, events: seq<Event>): World
    requires Legal(sha, world, events)
    decreases |events|
  {
    if events == [] then world else After(sha, Apply(sha, world, events[0]), events[1..])
  }

  ghost predicate Untampered(events: seq<Event>) {
    forall e :: e in events ==> !e.Tamper?
  }
}
