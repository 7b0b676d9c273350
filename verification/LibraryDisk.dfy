/** Everything the material library keeps across a restart, and the atomic changes it makes to it. */
module LibraryDisk {
  import opened Bytes
  import opened MaterialFiles
  import opened UploadRecords

  /** Paths inside the material root; the two path functions never collide. */
  datatype Path = StagingPath(upload: UploadId) | BlobPath(sha: Hash)

  datatype BlobRow = BlobRow(size: nat, path: Path)

  /** `order` is the order in which rows of `uploads` were inserted; `free` is what the volume has left. */
  datatype Disk = Disk(
    order: seq<UploadId>,
    rows: map<UploadId, UploadRow>,
    chunks: map<UploadId, seq<ChunkRow>>,
    blobs: map<Hash, BlobRow>,
    references: map<MaterialId, Reference>,
    files: map<Path, File>,
    manifests: map<UploadId, Manifest>,
    free: int)

  function EmptyDisk(capacity: int): Disk {
    Disk([], map[], map[], map[], map[], map[], map[], capacity)
  }

  ghost predicate Known(disk: Disk, upload: UploadId) {
    upload in disk.rows && upload in disk.chunks
  }

  function ManifestOf(disk: Disk, upload: UploadId): Manifest
    requires Known(disk, upload)
  {
    Manifest(disk.rows[upload], disk.chunks[upload])
  }

  // Database transactions

  function InsertUpload(disk: Disk, upload: UploadId, row: UploadRow): Disk {
    disk.(order := disk.order + [upload], rows := disk.rows[upload := row], chunks := disk.chunks[upload := []])
  }

  function SetState(disk: Disk, upload: UploadId, state: UploadState): Disk
    requires Known(disk, upload)
  {
    disk.(rows := disk.rows[upload := disk.rows[upload].(state := state)])
  }

  function InsertChunk(disk: Disk, upload: UploadId, chunk: ChunkRow): Disk
    requires Known(disk, upload)
  {
    var row := disk.rows[upload];
    disk.(rows := disk.rows[upload := row.(ackEpoch := row.ackEpoch + 1, received := row.received + chunk.size)],
          chunks := disk.chunks[upload := disk.chunks[upload] + [chunk]])
  }

  predicate Referenced(references: map<MaterialId, Reference>, upload: UploadId) {
    exists m :: m in references && references[m].upload == upload
  }

  /** The primary keys and the unique column that the publishing transaction could violate. */
  predicate PublishBlocked(disk: Disk, upload: UploadId, createBlob: bool, material: MaterialId)
    requires Known(disk, upload)
  {
    || (createBlob && disk.rows[upload].sha in disk.blobs)
    || material in disk.references
    || Referenced(disk.references, upload)
  }

  function Publish(disk: Disk, upload: UploadId, path: Path, createBlob: bool, material: MaterialId): Disk
    requires Known(disk, upload)
  {
    var row := disk.rows[upload];
    disk.(blobs := if createBlob then disk.blobs[row.sha := BlobRow(row.expected, path)] else disk.blobs,
          references := disk.references[material := Reference(upload, row.sha, row.target)],
          rows := disk.rows[upload := row.(state := Ready)])
  }

  function SumOver(uploads: seq<UploadId>, amount: UploadId -> int): int {
    if uploads == [] then
      0
    else
      SumOver(uploads[..|uploads| - 1], amount) + amount(uploads[|uploads| - 1])
  }

  function PromisedIn(disk: Disk): UploadId -> int {
    (upload: UploadId) =>
      if upload in disk.rows && disk.rows[upload].state == Transferring then disk.rows[upload].expected else 0
  }

  /** `reservedUploadBytes`: the bytes promised to uploads still in transfer. */
  function Reserved(disk: Disk): int {
    SumOver(disk.order, PromisedIn(disk))
  }

  // File operations

  function SaveManifest(disk: Disk, upload: UploadId, manifest: Manifest): Disk {
    disk.(manifests := disk.manifests[upload := manifest])
  }

  function CreateFile(disk: Disk, path: Path): Disk {
    disk.(files := disk.files[path := EMPTY_FILE])
  }

  function WriteFile(disk: Disk, path: Path, position: nat, data: seq<Byte>): Disk
    requires path in disk.files
  {
    var before := disk.files[path];
    var after := Write(before, position, data);
    disk.(files := disk.files[path := after], free := disk.free + |before.blocks| - |after.blocks|)
  }

  function SyncFile(disk: Disk, path: Path): Disk
    requires path in disk.files
  {
    disk.(files := disk.files[path := Sync(disk.files[path])])
  }

  function RemoveFile(disk: Disk, path: Path): Disk {
    if path in disk.files then
      disk.(files := disk.files - {path}, free := disk.free + |disk.files[path].blocks|)
    else
      disk
  }

  /** A rename replaces what was at the destination and gives its storage back. */
  function MoveFile(disk: Disk, source: Path, destination: Path): Disk
    requires source in disk.files && source != destination
  {
    var reclaimed := if destination in disk.files then |disk.files[destination].blocks| else 0;
    disk.(files := (disk.files - {source})[destination := disk.files[source]], free := disk.free + reclaimed)
  }

  /** A state change and its manifest. */
  function Entered(disk: Disk, upload: UploadId, state: UploadState): Disk
    requires Known(disk, upload)
  {
    var changed := SetState(disk, upload, state);
    SaveManifest(changed, upload, ManifestOf(changed, upload))
  }
}
