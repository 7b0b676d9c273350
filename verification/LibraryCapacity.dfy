/**
 The storage promise: what the admitted uploads still have to write always fits in the free space,
 although an admission reads the reserved total before it awaits the free bytes.
 */
module LibraryCapacity {
  import opened Bytes
  import opened MaterialFiles
  import opened UploadRecords
  import opened UploadGuards
  import opened ChunkPacking
  import opened LibraryDisk
  import opened LibrarySteps
  import opened LibraryWorld
  import opened LibraryRows
  import opened LibraryStates
  import opened LibraryFiles

  /** The bytes an upload may still write: its size less the positions it has already written. */
  function DebtIn(disk: Disk): UploadId -> int {
    (upload: UploadId) =>
      if upload in disk.rows && disk.rows[upload].state == Transferring && StagingPath(upload) in disk.files then
        disk.rows[upload].expected - |disk.files[StagingPath(upload)].blocks|
      else
        0
  }

  function Pending(creation: Creation): nat {
    match creation
    case NoCreation => 0
    case Quoted(_, _) => 0
    case Approved(request) => request.expected
    case Opened(request, _) => request.expected
  }

  /** An upload in transfer has written only positions of its own range. */
  ghost predicate BlocksInRange(disk: Disk, upload: UploadId) {
    upload in disk.rows && disk.rows[upload].state == Transferring && StagingPath(upload) in disk.files ==>
      disk.files[StagingPath(upload)].blocks <= Positions(0, disk.rows[upload].expected)
  }

  ghost predicate CapacityInv(world: World) {
    && (forall u :: u in world.disk.order ==> BlocksInRange(world.disk, u))
    && SumOver(world.disk.order, DebtIn(world.disk)) + Pending(world.creation) <= world.disk.free
    && (world.creation.Quoted? ==> Reserved(world.disk) <= world.creation.reserved)
  }

  // Sums

  lemma {:induction false} SumSame(uploads: seq<UploadId>, f: UploadId -> int, g: UploadId -> int)
    requires forall u :: u in uploads ==> f(u) == g(u)
    ensures SumOver(uploads, f) == SumOver(uploads, g)
  {
    if uploads != [] {
      SumSame(uploads[..|uploads| - 1], f, g);
    }
  }

  lemma {:induction false} SumAtMost(uploads: seq<UploadId>, f: UploadId -> int, g: UploadId -> int)
    requires forall u :: u in uploads ==> f(u) <= g(u)
    ensures SumOver(uploads, f) <= SumOver(uploads, g)
  {
    if uploads != [] {
      SumAtMost(uploads[..|uploads| - 1], f, g);
    }
  }

  lemma {:induction false} SumNonNegative(uploads: seq<UploadId>, f: UploadId -> int)
    requires forall u :: u in uploads ==> 0 <= f(u)
    ensures 0 <= SumOver(uploads, f)
  {
    if uploads != [] {
      SumNonNegative(uploads[..|uploads| - 1], f);
    }
  }

  /** Changing one upload's amount changes the sum by the same. */
  lemma {:induction false} SumChange(uploads: seq<UploadId>, f: UploadId -> int, g: UploadId -> int, one: UploadId)
    requires forall i, j :: 0 <= i < j < |uploads| ==> uploads[i] != uploads[j]
    requires forall u :: u in uploads && u != one ==> f(u) == g(u)
    requires one in uploads
    ensures SumOver(uploads, g) == SumOver(uploads, f) - f(one) + g(one)
  {
    var front, last := uploads[..|uploads| - 1], uploads[|uploads| - 1];
    if last == one {
      SumSame(front, f, g);
    } else {
      assert uploads == front + [last];
      SumChange(front, f, g, one);
    }
  }

  lemma DebtInRange(disk: Disk, upload: UploadId)
    requires BlocksInRange(disk, upload)
    ensures 0 <= DebtIn(disk)(upload) <= PromisedIn(disk)(upload)
  {
    if upload in disk.rows && disk.rows[upload].state == Transferring && StagingPath(upload) in disk.files {
      SubsetSize(disk.files[StagingPath(upload)].blocks, Positions(0, disk.rows[upload].expected));
    }
  }

  lemma DebtsNonNegative(disk: Disk)
    requires forall u :: u in disk.order ==> BlocksInRange(disk, u)
    ensures 0 <= SumOver(disk.order, DebtIn(disk)) <= Reserved(disk)
  {
    hide BlocksInRange, DebtIn, PromisedIn;
    forall u | u in disk.order ensures 0 <= DebtIn(disk)(u) <= PromisedIn(disk)(u) {
      DebtInRange(disk, u);
    }
    SumNonNegative(disk.order, DebtIn(disk));
    SumAtMost(disk.order, DebtIn(disk), PromisedIn(disk));
  }

  // One operation's turn

  /** A change to one upload pays for itself: the free space falls by no more than its debt does. */
  ghost predicate Pays(before: Disk, after: Disk, upload: UploadId) {
    && before.order == after.order
    && (forall v :: v != upload ==> DebtIn(before)(v) == DebtIn(after)(v))
    && (forall v :: v != upload ==> PromisedIn(before)(v) == PromisedIn(after)(v))
    && (forall v :: v != upload && BlocksInRange(before, v) ==> BlocksInRange(after, v))
    && DebtIn(after)(upload) - after.free <= DebtIn(before)(upload) - before.free
    && PromisedIn(after)(upload) <= PromisedIn(before)(upload)
    && BlocksInRange(after, upload)
  }

  /** New blocks in the upload's own range are paid for by its debt. */
  lemma StagingPays(before: Disk, after: Disk, upload: UploadId, file: File)
    requires upload in before.rows && before.rows[upload].state == Transferring
    requires StagingPath(upload) in before.files
    requires after.order == before.order && after.rows == before.rows
    requires after.files == before.files[StagingPath(upload) := file]
    requires after.free == before.free + |before.files[StagingPath(upload)].blocks| - |file.blocks|
    requires file.blocks <= Positions(0, before.rows[upload].expected)
    ensures Pays(before, after, upload)
  {
    hide Positions;
  }

  lemma PiecePays(disk: Disk, upload: UploadId, position: nat, data: seq<Byte>)
    requires Known(disk, upload) && BlocksInRange(disk, upload)
    requires disk.rows[upload].state == Transferring && StagingPath(upload) in disk.files
    requires position + |data| <= disk.rows[upload].expected
    ensures Pays(disk, WriteFile(disk, StagingPath(upload), position, data), upload)
  {
    hide Pays, Overlay;
    StagingPays(disk, WriteFile(disk, StagingPath(upload), position, data), upload,
                Write(disk.files[StagingPath(upload)], position, data));
  }

  lemma WritePays(sha: Sha256, disk: Disk, upload: UploadId, input: AppendInput, written: nat, wrote: nat)
    requires Known(disk, upload) && BlocksInRange(disk, upload)
    requires JudgeAppend(sha, disk.rows[upload], disk.chunks[upload], input) == Accepted && written <= |input.bytes|
    ensures Pays(disk, AdvanceWrite(disk, upload, input, written, wrote).0, upload)
  {
    hide JudgeAppend, Pays, BlocksInRange, WriteFile;
    var staging := StagingPath(upload);
    AcceptedFacts(sha, disk.rows[upload], disk.chunks[upload], input);
    var count := Min(wrote, |input.bytes| - written);
    if staging !in disk.files || (written < |input.bytes| && count == 0) {
      ItselfPays(disk, upload);
    } else if written < |input.bytes| {
      PiecePays(disk, upload, input.offset + written, input.bytes[written..written + count]);
    } else {
      SyncPays(disk, upload);
    }
  }

  lemma SyncPays(disk: Disk, upload: UploadId)
    requires upload in disk.rows && disk.rows[upload].state == Transferring
    requires BlocksInRange(disk, upload) && StagingPath(upload) in disk.files
    ensures Pays(disk, SyncFile(disk, StagingPath(upload)), upload)
  {
    hide Pays;
    StagingPays(disk, SyncFile(disk, StagingPath(upload)), upload, Sync(disk.files[StagingPath(upload)]));
  }

  lemma ItselfPays(disk: Disk, upload: UploadId)
    requires BlocksInRange(disk, upload)
    ensures Pays(disk, disk, upload)
  {
  }

  ghost predicate DebtFields(before: Disk, after: Disk, upload: UploadId) {
    && before.order == after.order
    && (forall v :: v in before.rows <==> v in after.rows)
    && (forall v :: v in before.rows && v != upload ==> after.rows[v] == before.rows[v])
    && (forall v :: v != upload ==>
          (StagingPath(v) in before.files <==> StagingPath(v) in after.files)
          && (StagingPath(v) in before.files ==> after.files[StagingPath(v)] == before.files[StagingPath(v)]))
    && before.free <= after.free
    && upload in after.rows
    && (after.rows[upload].state == Transferring ==>
          && upload in before.rows
          && before.rows[upload].state == Transferring
          && before.rows[upload].expected == after.rows[upload].expected
          && (StagingPath(upload) in after.files ==>
                && StagingPath(upload) in before.files
                && after.files[StagingPath(upload)] == before.files[StagingPath(upload)]))
  }

  lemma DebtFieldsPay(before: Disk, after: Disk, upload: UploadId)
    requires DebtFields(before, after, upload) && BlocksInRange(before, upload)
    ensures Pays(before, after, upload)
  {
    hide Positions;
    DebtInRange(before, upload);
  }

  /** Every other turn leaves the staging files of uploads in transfer alone, or ends the transfer. */
  lemma OtherPays(sha: Sha256, disk: Disk, upload: UploadId, pc: Pc, wrote: nat, material: MaterialId)
    requires Known(disk, upload) && BlocksInRange(disk, upload)
    requires PcOk(sha, disk, upload, pc) && !pc.WriteChunk?
    ensures Pays(disk, Advance(sha, disk, upload, pc, wrote, material).0, upload)
  {
    hide Pays, BlocksInRange;
    TurnFields(sha, disk, upload, pc, wrote, material);
    DebtFieldsPay(disk, Advance(sha, disk, upload, pc, wrote, material).0, upload);
  }

  lemma TurnFields(sha: Sha256, disk: Disk, upload: UploadId, pc: Pc, wrote: nat, material: MaterialId)
    requires Known(disk, upload) && PcOk(sha, disk, upload, pc) && !pc.WriteChunk?
    ensures DebtFields(disk, Advance(sha, disk, upload, pc, wrote, material).0, upload)
  {
    hide JudgeAppend, PublishBlocked, AdvanceWrite;
    if WritesTables(pc) {
      TableTurnFields(sha, disk, upload, pc, wrote, material);
    } else if WritesFiles(pc) {
      FileTurnFields(sha, disk, upload, pc, wrote, material);
    } else if pc.Mirror? {
      assert DebtFields(disk, SaveManifest(disk, upload, pc.manifest), upload);
    } else {
      LookTurnFields(sha, disk, upload, pc, wrote, material);
    }
  }

  lemma TableTurnFields(sha: Sha256, disk: Disk, upload: UploadId, pc: Pc, wrote: nat, material: MaterialId)
    requires Known(disk, upload) && PcOk(sha, disk, upload, pc) && WritesTables(pc)
    ensures DebtFields(disk, Advance(sha, disk, upload, pc, wrote, material).0, upload)
  {
    hide JudgeAppend, PublishBlocked, AdvanceWrite, MoveFile, RemoveFile;
    if pc.PersistChunk? {
      AcceptedFacts(sha, disk.rows[upload], disk.chunks[upload], pc.input);
    }
  }

  lemma FileTurnFields(sha: Sha256, disk: Disk, upload: UploadId, pc: Pc, wrote: nat, material: MaterialId)
    requires Known(disk, upload) && PcOk(sha, disk, upload, pc) && WritesFiles(pc) && !pc.WriteChunk?
    ensures DebtFields(disk, Advance(sha, disk, upload, pc, wrote, material).0, upload)
  {
    hide JudgeAppend, PublishBlocked, AdvanceWrite, Publish, InsertChunk, SetState;
  }

  lemma LookTurnFields(sha: Sha256, disk: Disk, upload: UploadId, pc: Pc, wrote: nat, material: MaterialId)
    requires Known(disk, upload) && !WritesTables(pc) && !WritesFiles(pc) && !pc.Mirror?
    ensures Advance(sha, disk, upload, pc, wrote, material).0 == disk
    ensures DebtFields(disk, disk, upload)
  {
    hide PublishBlocked, AdvanceWrite, Publish, InsertChunk, SetState, MoveFile, RemoveFile;
  }

  lemma AdvancePays(sha: Sha256, disk: Disk, upload: UploadId, pc: Pc, wrote: nat, material: MaterialId)
    requires Known(disk, upload) && BlocksInRange(disk, upload) && PcOk(sha, disk, upload, pc)
    ensures Pays(disk, Advance(sha, disk, upload, pc, wrote, material).0, upload)
  {
    hide Pays, BlocksInRange, JudgeAppend, AdvanceWrite;
    if pc.WriteChunk? {
      WritePays(sha, disk, upload, pc.input, pc.written, wrote);
    } else {
      OtherPays(sha, disk, upload, pc, wrote, material);
    }
  }

  lemma PaysKeepsCapacity(world: World, next: World, upload: UploadId)
    requires KeysOk(world.disk) && CapacityInv(world) && upload in world.disk.rows
    requires Pays(world.disk, next.disk, upload) && world.creation == next.creation
    ensures CapacityInv(next)
  {
    hide DebtIn, PromisedIn, BlocksInRange;
    var order := world.disk.order;
    assert upload in order;
    SumChange(order, DebtIn(world.disk), DebtIn(next.disk), upload);
    SumChange(order, PromisedIn(world.disk), PromisedIn(next.disk), upload);
  }

  lemma UnknownBegins(disk: Disk, upload: UploadId)
    requires !Known(disk, upload)
    ensures BeginComplete(disk, upload).0 == disk && BeginCancel(disk, upload).0 == disk
  {
  }

  lemma BeginPays(disk: Disk, upload: UploadId)
    requires Known(disk, upload) && BlocksInRange(disk, upload)
    ensures Pays(disk, BeginComplete(disk, upload).0, upload)
    ensures Pays(disk, BeginCancel(disk, upload).0, upload)
  {
    hide Pays, BlocksInRange;
    DebtFieldsPay(disk, BeginComplete(disk, upload).0, upload);
    DebtFieldsPay(disk, BeginCancel(disk, upload).0, upload);
  }

  // Creation

  /**
   The admission is sound although the reserved total was read earlier: since then no upload was added,
   so that total still bounds what is owed, and the free bytes are compared as they are now.
   */
  lemma AssessKeepsCapacity(sha: Sha256, world: World)
    requires CapacityInv(world) && world.creation.Quoted?
    ensures CapacityInv(Apply(sha, world, AssessCreate))
  {
    hide BlocksInRange, SumOver;
    DebtsNonNegative(world.disk);
  }

  lemma OpenKeepsCapacity(sha: Sha256, world: World, upload: UploadId)
    requires KeysOk(world.disk) && CapacityInv(world) && Enabled(sha, world, OpenStaging(upload))
    ensures CapacityInv(Apply(sha, world, OpenStaging(upload)))
  {
    var next := Apply(sha, world, OpenStaging(upload));
    forall u | u in world.disk.order
      ensures DebtIn(world.disk)(u) == DebtIn(next.disk)(u) && BlocksInRange(next.disk, u)
    {
      assert BlocksInRange(world.disk, u) && u != upload;
    }
    SumSame(world.disk.order, DebtIn(world.disk), DebtIn(next.disk));
  }

  lemma InsertDebts(disk: Disk, upload: UploadId, row: UploadRow, other: UploadId)
    requires BlocksInRange(disk, other) && other != upload
    ensures var after := InsertUpload(disk, upload, row);
            DebtIn(disk)(other) == DebtIn(after)(other) && BlocksInRange(after, other)
  {
    hide Positions;
  }

  lemma NewDebt(disk: Disk, upload: UploadId, row: UploadRow)
    requires StagingPath(upload) in disk.files && disk.files[StagingPath(upload)] == EMPTY_FILE
    requires row.state == Transferring
    ensures var after := InsertUpload(disk, upload, row);
            DebtIn(after)(upload) == row.expected && BlocksInRange(after, upload)
  {
  }

  lemma InsertKeepsCapacity(sha: Sha256, world: World)
    requires RowInv(sha, world) && FileInv(sha, world) && CapacityInv(world) && world.creation.Opened?
    ensures CapacityInv(Apply(sha, world, InsertCreated))
  {
    hide RowsOk, ReferencesOk, OneReferenceEach, BlobPathsOk, PcOk, PcFileOk, DiskFilesOk, DebtIn, BlocksInRange;
    var Opened(request, upload) := world.creation;
    var order := world.disk.order;
    var row := UploadRow(request.expected, request.sha, request.target, Transferring, 0, 0);
    var next := Apply(sha, world, InsertCreated);
    assert next.disk == InsertUpload(world.disk, upload, row);
    forall u | u in order
      ensures DebtIn(world.disk)(u) == DebtIn(next.disk)(u) && BlocksInRange(next.disk, u)
    {
      InsertDebts(world.disk, upload, row, u);
    }
    NewDebt(world.disk, upload, row);
    SumSame(order, DebtIn(world.disk), DebtIn(next.disk));
    assert next.disk.order[..|order|] == order;
  }

  lemma CrashKeepsCapacity(sha: Sha256, world: World, files: map<Path, File>)
    requires CapacityInv(world) && Enabled(sha, world, Crash(files))
    ensures CapacityInv(Apply(sha, world, Crash(files)))
  {
    hide Positions;
    var next := Apply(sha, world, Crash(files));
    forall u | u in world.disk.order
      ensures DebtIn(world.disk)(u) == DebtIn(next.disk)(u) && BlocksInRange(next.disk, u)
    {
      assert BlocksInRange(world.disk, u);
    }
    SumSame(world.disk.order, DebtIn(world.disk), DebtIn(next.disk));
  }

  lemma RunningBlocks(sha: Sha256, world: World, upload: UploadId)
    requires RowInv(sha, world) && CapacityInv(world) && upload in world.disk.rows
    ensures KeysOk(world.disk) && Known(world.disk, upload) && BlocksInRange(world.disk, upload)
    ensures upload in world.running ==> PcOk(sha, world.disk, upload, world.running[upload])
  {
    hide BlocksInRange, PcOk, SumOver;
    assert upload in world.disk.order;
  }

  lemma ApplyCapacity(sha: Sha256, world: World, event: Event)
    requires RowInv(sha, world) && FileInv(sha, world) && CapacityInv(world)
    requires Enabled(sha, world, event) && !event.Tamper?
    ensures CapacityInv(Apply(sha, world, event))
  {
    hide RowsOk, ReferencesOk, OneReferenceEach, BlobPathsOk, OrderOk, PcOk, FileInv, BlocksInRange, Pays, SumOver;
    hide Advance, BeginAppend, BeginComplete, BeginCancel, BeginReconcile, FreeAfter, Resume, DebtIn, PromisedIn, Torn;
    var disk := world.disk;
    match event {
      case Turn(upload, wrote, material) =>
        RunningBlocks(sha, world, upload);
        AdvancePays(sha, disk, upload, world.running[upload], wrote, material);
        PaysKeepsCapacity(world, Apply(sha, world, event), upload);
      case StartComplete(upload) =>
        if Known(disk, upload) {
          RunningBlocks(sha, world, upload);
          BeginPays(disk, upload);
          PaysKeepsCapacity(world, Apply(sha, world, event), upload);
        } else {
          UnknownBegins(disk, upload);
        }
      case StartCancel(upload) =>
        if Known(disk, upload) {
          RunningBlocks(sha, world, upload);
          BeginPays(disk, upload);
          PaysKeepsCapacity(world, Apply(sha, world, event), upload);
        } else {
          UnknownBegins(disk, upload);
        }
      case AssessCreate =>
        AssessKeepsCapacity(sha, world);
      case OpenStaging(upload) =>
        OpenKeepsCapacity(sha, world, upload);
      case InsertCreated =>
        InsertKeepsCapacity(sha, world);
      case Crash(files) =>
        CrashKeepsCapacity(sha, world, files);
      case BeginCreate(_) | FailCreate | Fail(_) | StartAppend(_, _) | StartReconcile(_) =>
      case Tamper(_) =>
    }
  }

  /** Every reachable world keeps the promise: what is still owed fits in what is free. */
  lemma {:induction false} RunKeepsCapacity(sha: Sha256, world: World, events: seq<Event>)
    requires RowInv(sha, world) && FileInv(sha, world) && CapacityInv(world)
    requires Legal(sha, world, events) && Untampered(events)
    ensures CapacityInv(After(sha, world, events))
    decreases |events|
  {
    hide RowInv, FileInv, CapacityInv, Apply, Enabled;
    if events != [] {
      assert events[0] in events;
      ApplyCapacity(sha, world, events[0]);
      ApplyRows(sha, world, events[0]);
      ApplyFiles(sha, world, events[0]);
      RunKeepsCapacity(sha, Apply(sha, world, events[0]), events[1..]);
    }
  }

  lemma CapacityHolds(sha: Sha256, capacity: nat, events: seq<Event>)
    requires Legal(sha, Begin(capacity), events) && Untampered(events)
    ensures var disk := After(sha, Begin(capacity), events).disk;
            0 <= SumOver(disk.order, DebtIn(disk)) <= disk.free
  {
    BeginRows(sha, capacity);
    BeginFiles(sha, capacity);
    RunKeepsCapacity(sha, Begin(capacity), events);
    DebtsNonNegative(After(sha, Begin(capacity), events).disk);
  }

  /** So no turn of an admitted upload is ever refused for lack of space. */
  lemma AdmittedUploadsNeverRunOutOfSpace(sha: Sha256, world: World, upload: UploadId, wrote: nat, material: MaterialId)
    requires RowInv(sha, world) && FileInv(sha, world) && CapacityInv(world)
    requires upload in world.running
    ensures Known(world.disk, upload)
    ensures 0 <= Advance(sha, world.disk, upload, world.running[upload], wrote, material).0.free
  {
    hide RowsOk, ReferencesOk, OneReferenceEach, BlobPathsOk, OrderOk, PcOk, FileInv, BlocksInRange, Pays, SumOver, Advance;
    RunningBlocks(sha, world, upload);
    AdvancePays(sha, world.disk, upload, world.running[upload], wrote, material);
    var next := world.(disk := Advance(sha, world.disk, upload, world.running[upload], wrote, material).0);
    PaysKeepsCapacity(world, next, upload);
    DebtsNonNegative(next.disk);
  }
}
