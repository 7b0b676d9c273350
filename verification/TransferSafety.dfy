/**
 What every run of a resumable transfer keeps: the chunk table is a prefix of the file, everything in
 flight is a chunk the Mac is ready for, and completion finds exactly the file that was sent.
 */
module TransferSafety {
  import opened Bytes
  import opened MaterialFiles
  import opened UploadRecords
  import opened UploadGuards
  import opened LibraryDisk
  import opened LibrarySteps
  import opened LibraryRows
  import opened LibraryStates
  import opened LibraryFiles
  import opened ChunkSender
  import opened TransferTable
  import opened TransferSession
  import L = LibraryWorld

  // The upload on the Mac

  ghost predicate InTransfer(row: UploadRow) {
    row.state == Transferring || row.state == Staged
  }

  ghost predicate UploadOk(sha: Sha256, job: Job, disk: Disk, upload: UploadId)
    requires Known(disk, upload)
  {
    && Fits(job)
    && disk.rows[upload].expected == |job.file|
    && disk.rows[upload].sha == sha(job.file)
    && Prefix(sha, job, disk.chunks[upload])
    && (InTransfer(disk.rows[upload]) && StagingPath(upload) in disk.files ==>
          AllMatch(job, disk.files[StagingPath(upload)].bytes, disk.chunks[upload]))
  }

  predicate Storing(pc: Pc) {
    pc.WriteChunk? || pc.PersistChunk?
  }

  ghost predicate WorkOk(sha: Sha256, job: Job, disk: Disk, upload: UploadId, pc: Pc)
    requires Known(disk, upload)
  {
    match pc
    case WriteChunk(input, _) => IsChunk(sha, job, input) && input.index == |disk.chunks[upload]|
    case PersistChunk(input) =>
      && IsChunk(sha, job, input) && input.index == |disk.chunks[upload]|
      && StagingPath(upload) in disk.files
      && Matches(job, disk.files[StagingPath(upload)].bytes, RecordOf(input))
    case Mirror(_, next) => !Storing(next) && WorkOk(sha, job, disk, upload, next)
    case Finished(Published(_, _)) => disk.rows[upload].state == Ready
    case _ => true
  }

  // The session

  function HeldChunks(s: State, upload: UploadId): nat
    requires Known(s.world.disk, upload)
  {
    |s.world.disk.chunks[upload]|
  }

  /** A sender working on chunk `p` is at most one chunk behind the table, and nothing is ahead of it. */
  ghost predicate Near(upload: UploadId, s: State, p: nat)
    requires Known(s.world.disk, upload)
  {
    && p <= HeldChunks(s, upload) <= p + 1
    && (forall m :: m in s.stale && m.Chunk? ==> m.input.index <= p)
    && (upload in s.world.running && Storing(s.world.running[upload]) ==> s.world.running[upload].input.index <= p)
  }

  ghost predicate StaleOk(sha: Sha256, upload: UploadId, job: Job, s: State, message: Message)
    requires Known(s.world.disk, upload) && Fits(job)
  {
    match message
    case Chunk(input) => IsChunk(sha, job, input) && input.index <= HeldChunks(s, upload)
    case Complete => HeldChunks(s, upload) == Count(job)
  }

  /** The running operation is the live chunk's own, and ends in the acknowledgement the phone expects. */
  ghost predicate LiveWork(upload: UploadId, job: Job, s: State, pc: Pc, index: nat, input: AppendInput)
    requires Known(s.world.disk, upload)
  {
    || (Storing(pc) && pc.input == input)
    || (&& pc.Mirror? && pc.next.Finished? && pc.next.outcome.Acknowledged?
        && pc.next.outcome.received == Reach(job, index + 1)
        && HeldChunks(s, upload) == index + 1)
  }

  ghost predicate PhoneOk(sha: Sha256, upload: UploadId, job: Job, s: State)
    requires Known(s.world.disk, upload) && Fits(job)
  {
    var size := |job.file|;
    match s.phone
    case Resuming(received) =>
      && s.authorized && 0 <= received
      && (var p := Frontier(size, job.chunkBytes, received);
          p <= Count(job) && received == Reach(job, p) && Near(upload, s, p))
    case Sending(index, offset) =>
      && s.authorized && (offset < size ==> offset == index * job.chunkBytes)
      && Near(upload, s, Frontier(size, job.chunkBytes, offset))
    case AwaitingAck(index, offset, input) =>
      && s.authorized && offset == index * job.chunkBytes < size
      && input == PacketAt(sha, job, index, offset) && Near(upload, s, index)
      && (s.serving.LiveSession? && upload in s.world.running ==>
            LiveWork(upload, job, s, s.world.running[upload], index, input))
    case Acknowledging(index, offset, expected, received) =>
      && s.authorized && offset == index * job.chunkBytes < size
      && received == expected == Reach(job, index + 1)
      && Near(upload, s, index) && HeldChunks(s, upload) == index + 1
    case Completing => s.authorized && HeldChunks(s, upload) == Count(job)
    case Confirmed => s.world.disk.rows[upload].state == Ready
    case _ => true
  }

  ghost predicate ServingOk(upload: UploadId, s: State) {
    && (s.serving != Nobody ==> upload in s.world.running)
    && (s.serving == LiveSession ==> s.phone.AwaitingAck? || s.phone.Completing?)
  }

  ghost predicate SessionOk(sha: Sha256, upload: UploadId, job: Job, s: State) {
    && Known(s.world.disk, upload)
    && UploadOk(sha, job, s.world.disk, upload)
    && (upload in s.world.running ==> WorkOk(sha, job, s.world.disk, upload, s.world.running[upload]))
    && (forall m :: m in s.stale ==> StaleOk(sha, upload, job, s, m))
    && PhoneOk(sha, upload, job, s)
    && ServingOk(upload, s)
  }

  ghost predicate TransferInv(sha: Sha256, upload: UploadId, job: Job, s: State) {
    RowInv(sha, s.world) && FileInv(sha, s.world) && SessionOk(sha, upload, job, s)
  }

  // One turn of the upload's own operation

  lemma {:induction false} WorkFrame(sha: Sha256, job: Job, before: Disk, after: Disk, upload: UploadId, pc: Pc)
    requires Known(before, upload) && Known(after, upload)
    requires WorkOk(sha, job, before, upload, pc)
    requires before.chunks[upload] == after.chunks[upload]
    requires before.rows[upload].state == Ready ==> after.rows[upload].state == Ready
    requires pc.PersistChunk? ==> StagingPath(upload) in before.files && StagingPath(upload) in after.files
                                  && after.files[StagingPath(upload)].bytes == before.files[StagingPath(upload)].bytes
    ensures WorkOk(sha, job, after, upload, pc)
  {
    hide IsChunk, Matches;
    if pc.Mirror? {
      WorkFrame(sha, job, before, after, upload, pc.next);
    }
  }

  lemma WriteTurnMatches(sha: Sha256, job: Job, disk: Disk, upload: UploadId, input: AppendInput, written: nat, wrote: nat)
    requires Known(disk, upload) && UploadOk(sha, job, disk, upload)
    requires WorkOk(sha, job, disk, upload, WriteChunk(input, written))
    requires InTransfer(disk.rows[upload]) && written <= |input.bytes|
    requires PcFileOk(sha, disk, upload, WriteChunk(input, written))
    ensures var (after, next) := AdvanceWrite(disk, upload, input, written, wrote);
            && Known(after, upload) && UploadOk(sha, job, after, upload) && WorkOk(sha, job, after, upload, next)
            && SameTables(disk, after)
            && (Storing(next) ==> next.input == input)
  {
    hide UploadOk, IsChunk, Matches, PrefixWritten, WriteFile, SyncFile;
    ChunkStartsAt(sha, job, input);
    if StagingPath(upload) in disk.files {
      var count := Min(wrote, |input.bytes| - written);
      if written == |input.bytes| {
        SyncMatches(sha, job, disk, upload, input);
      } else if count > 0 {
        PieceMatches(sha, job, disk, upload, input, written, count);
      }
    }
  }

  lemma PieceMatches(sha: Sha256, job: Job, disk: Disk, upload: UploadId, input: AppendInput, written: nat, count: nat)
    requires Known(disk, upload) && UploadOk(sha, job, disk, upload) && InTransfer(disk.rows[upload])
    requires IsChunk(sha, job, input) && input.index == |disk.chunks[upload]| && 0 <= input.offset
    requires StagingPath(upload) in disk.files && written + count <= |input.bytes|
    ensures (var after := WriteFile(disk, StagingPath(upload), input.offset + written, input.bytes[written..written + count]);
             SameTables(disk, after) && UploadOk(sha, job, after, upload))
  {
    hide Prefix, Overlay, AllMatch, IsChunk, PacketAt, Fits, Positions;
    WriteKeepsMatches(sha, job, disk.files[StagingPath(upload)].bytes, disk.chunks[upload], input, written, written + count);
  }

  lemma SyncMatches(sha: Sha256, job: Job, disk: Disk, upload: UploadId, input: AppendInput)
    requires Known(disk, upload) && UploadOk(sha, job, disk, upload)
    requires IsChunk(sha, job, input) && StagingPath(upload) in disk.files
    requires PrefixWritten(disk.files[StagingPath(upload)], input, |input.bytes|)
    ensures (var after := SyncFile(disk, StagingPath(upload));
             && SameTables(disk, after) && UploadOk(sha, job, after, upload)
             && StagingPath(upload) in after.files
             && Matches(job, after.files[StagingPath(upload)].bytes, RecordOf(input)))
  {
    hide Prefix, AllMatch, IsChunk, Matches, PrefixWritten;
    WrittenMatches(sha, job, disk.files[StagingPath(upload)].bytes, disk.files[StagingPath(upload)], input);
  }

  lemma ChunkStartsAt(sha: Sha256, job: Job, input: AppendInput)
    requires IsChunk(sha, job, input)
    ensures 0 <= input.offset && 0 < |input.bytes|
  {
  }

  lemma WrittenMatches(sha: Sha256, job: Job, bytes: seq<Byte>, file: File, input: AppendInput)
    requires IsChunk(sha, job, input) && bytes == file.bytes
    requires PrefixWritten(file, input, |input.bytes|)
    ensures Matches(job, bytes, RecordOf(input))
  {
    assert input.bytes[..|input.bytes|] == input.bytes;
  }

  lemma PersistTurnMatches(sha: Sha256, job: Job, disk: Disk, upload: UploadId, input: AppendInput)
    requires Known(disk, upload) && UploadOk(sha, job, disk, upload)
    requires WorkOk(sha, job, disk, upload, PersistChunk(input))
    ensures UploadOk(sha, job, InsertChunk(disk, upload, RecordOf(input)), upload)
  {
    hide IsChunk, Matches, Prefix;
    PrefixExtends(sha, job, disk.chunks[upload], input);
  }

  lemma OtherTurnStaging(sha: Sha256, disk: Disk, upload: UploadId, pc: Pc, wrote: nat, material: MaterialId)
    requires Known(disk, upload) && !pc.WriteChunk?
    ensures var after := Advance(sha, disk, upload, pc, wrote, material).0;
            StagingPath(upload) in after.files ==>
              StagingPath(upload) in disk.files && after.files[StagingPath(upload)] == disk.files[StagingPath(upload)]
  {
    hide PublishBlocked;
  }

  lemma OtherTurnChunks(sha: Sha256, disk: Disk, upload: UploadId, pc: Pc, wrote: nat, material: MaterialId)
    requires Known(disk, upload) && !Storing(pc)
    ensures var (after, next) := Advance(sha, disk, upload, pc, wrote, material);
            && Known(after, upload) && after.chunks[upload] == disk.chunks[upload]
            && (pc.Mirror? ==> next == pc.next)
            && (!pc.Mirror? ==> !Storing(next) && (next.Mirror? ==> !Storing(next.next)))
  {
    hide Advance;
    if WritesTables(pc) {
      TableTurnChunks(sha, disk, upload, pc, wrote, material);
    } else {
      OtherRowsStay(sha, disk, upload, pc, wrote, material);
      OtherTurnNext(sha, disk, upload, pc, wrote, material);
    }
  }

  lemma TableTurnChunks(sha: Sha256, disk: Disk, upload: UploadId, pc: Pc, wrote: nat, material: MaterialId)
    requires Known(disk, upload) && !pc.PersistChunk? && WritesTables(pc)
    ensures var (after, next) := Advance(sha, disk, upload, pc, wrote, material);
            && Known(after, upload) && after.chunks[upload] == disk.chunks[upload]
            && !Storing(next) && (next.Mirror? ==> !Storing(next.next))
  {
    hide PublishBlocked, AdvanceWrite, MoveFile, RemoveFile;
  }

  lemma OtherTurnNext(sha: Sha256, disk: Disk, upload: UploadId, pc: Pc, wrote: nat, material: MaterialId)
    requires Known(disk, upload) && !Storing(pc) && !WritesTables(pc)
    ensures var next := Advance(sha, disk, upload, pc, wrote, material).1;
            && (pc.Mirror? ==> next == pc.next)
            && (!pc.Mirror? ==> !Storing(next) && (next.Mirror? ==> !Storing(next.next)))
  {
    hide PublishBlocked, AdvanceWrite, MoveFile, RemoveFile, Publish, InsertChunk, SetState, ManifestOf;
  }

  /** Turns outside the chunk-storing part leave the chunk table alone and never rewrite the staging file. */
  lemma OtherTurn(sha: Sha256, disk: Disk, upload: UploadId, pc: Pc, wrote: nat, material: MaterialId)
    requires Known(disk, upload) && PcOk(sha, disk, upload, pc) && !Storing(pc)
    ensures var (after, next) := Advance(sha, disk, upload, pc, wrote, material);
            && Known(after, upload) && after.chunks[upload] == disk.chunks[upload]
            && after.rows[upload].expected == disk.rows[upload].expected
            && after.rows[upload].sha == disk.rows[upload].sha
            && (InTransfer(after.rows[upload]) ==> InTransfer(disk.rows[upload]))
            && (disk.rows[upload].state == Ready ==> after.rows[upload].state == Ready)
            && (StagingPath(upload) in after.files ==>
                  StagingPath(upload) in disk.files
                  && after.files[StagingPath(upload)] == disk.files[StagingPath(upload)])
            && (pc.Mirror? ==> next == pc.next)
            && (!pc.Mirror? ==> !Storing(next) && (next.Mirror? ==> !Storing(next.next)))
  {
    hide Advance, PcOk;
    OtherTurnChunks(sha, disk, upload, pc, wrote, material);
    OtherTurnStaging(sha, disk, upload, pc, wrote, material);
    AdvanceMoves(sha, disk, upload, pc, wrote, material);
  }

  lemma OtherTurnWork(sha: Sha256, job: Job, disk: Disk, upload: UploadId, pc: Pc, wrote: nat, material: MaterialId)
    requires Known(disk, upload) && PcOk(sha, disk, upload, pc) && !Storing(pc) && !pc.Mirror?
    requires WorkOk(sha, job, disk, upload, pc)
    ensures var (after, next) := Advance(sha, disk, upload, pc, wrote, material);
            Known(after, upload) && WorkOk(sha, job, after, upload, next)
  {
    hide PublishBlocked, JudgeAppend, IsChunk, Matches, RemoveFile, MoveFile;
    OtherTurnChunks(sha, disk, upload, pc, wrote, material);
  }

  lemma AdvanceUpload(sha: Sha256, job: Job, disk: Disk, upload: UploadId, pc: Pc, wrote: nat, material: MaterialId)
    requires Known(disk, upload) && PcOk(sha, disk, upload, pc) && PcFileOk(sha, disk, upload, pc)
    requires UploadOk(sha, job, disk, upload) && WorkOk(sha, job, disk, upload, pc)
    ensures var (after, next) := Advance(sha, disk, upload, pc, wrote, material);
            && Known(after, upload)
            && UploadOk(sha, job, after, upload) && WorkOk(sha, job, after, upload, next)
            && (disk.rows[upload].state == Ready ==> after.rows[upload].state == Ready)
            && (if pc.PersistChunk? then
                  && after.chunks[upload] == disk.chunks[upload] + [RecordOf(pc.input)]
                  && next.Mirror? && next.next.Finished? && next.next.outcome.Acknowledged?
                  && next.next.outcome.received == disk.rows[upload].received + |pc.input.bytes|
                else
                  after.chunks[upload] == disk.chunks[upload])
            && (Storing(next) ==> Storing(pc) && next.input == pc.input)
            && (pc.Mirror? ==> next == pc.next)
            && (pc.WriteChunk? && next.Finished? ==> next.outcome.Threw?)
  {
    hide Prefix, AllMatch, IsChunk, Matches, JudgeAppend, PcFileOk;
    match pc {
      case WriteChunk(input, written) =>
        StoringInTransfer(sha, disk, upload, pc);
        WriteTurnMatches(sha, job, disk, upload, input, written, wrote);
        WriteOutcome(disk, upload, input, written, wrote);
      case PersistChunk(input) =>
        PersistTurnMatches(sha, job, disk, upload, input);
      case _ =>
        AdvanceOther(sha, job, disk, upload, pc, wrote, material);
    }
  }

  lemma AdvanceOther(sha: Sha256, job: Job, disk: Disk, upload: UploadId, pc: Pc, wrote: nat, material: MaterialId)
    requires Known(disk, upload) && PcOk(sha, disk, upload, pc) && !Storing(pc)
    requires UploadOk(sha, job, disk, upload) && WorkOk(sha, job, disk, upload, pc)
    ensures var (after, next) := Advance(sha, disk, upload, pc, wrote, material);
            && Known(after, upload)
            && UploadOk(sha, job, after, upload) && WorkOk(sha, job, after, upload, next)
            && (disk.rows[upload].state == Ready ==> after.rows[upload].state == Ready)
            && after.chunks[upload] == disk.chunks[upload]
            && !Storing(next)
            && (pc.Mirror? ==> next == pc.next)
  {
    hide Prefix, AllMatch, IsChunk, Matches, Advance, PcOk;
    OtherTurn(sha, disk, upload, pc, wrote, material);
    var (after, next) := Advance(sha, disk, upload, pc, wrote, material);
    if pc.Mirror? {
      WorkFrame(sha, job, disk, after, upload, next);
    } else {
      OtherTurnWork(sha, job, disk, upload, pc, wrote, material);
    }
  }

  lemma StoringInTransfer(sha: Sha256, disk: Disk, upload: UploadId, pc: Pc)
    requires Known(disk, upload) && PcOk(sha, disk, upload, pc) && Storing(pc)
    ensures disk.rows[upload].state == Transferring
    ensures pc.WriteChunk? ==> pc.written <= |pc.input.bytes|
  {
  }

  lemma WriteOutcome(disk: Disk, upload: UploadId, input: AppendInput, written: nat, wrote: nat)
    ensures var next := AdvanceWrite(disk, upload, input, written, wrote).1;
            (next.Finished? ==> next.outcome.Threw?) && (Storing(next) || next.Finished?)
  {
  }

  // What happens elsewhere

  ghost predicate SameUpload(before: Disk, after: Disk, upload: UploadId)
    requires Known(before, upload)
  {
    && Known(after, upload)
    && after.rows[upload] == before.rows[upload]
    && after.chunks[upload] == before.chunks[upload]
    && (StagingPath(upload) in after.files <==> StagingPath(upload) in before.files)
    && (StagingPath(upload) in before.files ==> after.files[StagingPath(upload)] == before.files[StagingPath(upload)])
  }

  lemma TouchedElsewhere(before: Disk, after: Disk, upload: UploadId, other: UploadId)
    requires Known(before, upload) && other != upload
    requires OnlyTouches(before, after, other) && FilesTouch(before, after, other)
    ensures SameUpload(before, after, upload)
  {
  }

  lemma ElsewhereSame(sha: Sha256, upload: UploadId, world: L.World, e: L.Event)
    requires RowInv(sha, world) && FileInv(sha, world) && Known(world.disk, upload)
    requires Foreign(e, upload) && L.Enabled(sha, world, e)
    requires !(e.StartCancel? && e.upload == upload)
    ensures SameUpload(world.disk, L.Apply(sha, world, e).disk, upload)
  {
    hide OrderOk, RowsOk, ReferencesOk, OneReferenceEach, BlobPathsOk, DiskFilesOk, PcOk, PcFileOk;
    hide OnlyTouches, FilesTouch, Advance, BeginAppend, BeginComplete, BeginCancel, BeginReconcile, L.FreeAfter;
    var disk := world.disk;
    match e {
      case Turn(other, wrote, material) =>
        AdvanceRows(sha, disk, other, world.running[other], wrote, material);
        AdvanceFiles(sha, disk, other, world.running[other], wrote, material);
        TouchedElsewhere(disk, Advance(sha, disk, other, world.running[other], wrote, material).0, upload, other);
      case StartComplete(other) =>
        StartRows(sha, disk, other, AppendInput(0, 0, [], ""));
        StartsKeepFiles(disk, other);
        SameFiles(sha, disk, BeginComplete(disk, other).0, other);
        TouchedElsewhere(disk, BeginComplete(disk, other).0, upload, other);
      case StartCancel(other) =>
        StartRows(sha, disk, other, AppendInput(0, 0, [], ""));
        StartsKeepFiles(disk, other);
        SameFiles(sha, disk, BeginCancel(disk, other).0, other);
        TouchedElsewhere(disk, BeginCancel(disk, other).0, upload, other);
      case _ =>
    }
  }

  /** What a change made elsewhere may do to this upload: nothing but start an operation that stores nothing. */
  ghost predicate Calm(sha: Sha256, upload: UploadId, job: Job, before: L.World, after: L.World)
    requires Known(before.disk, upload)
  {
    && Known(after.disk, upload)
    && UploadOk(sha, job, after.disk, upload)
    && after.disk.chunks[upload] == before.disk.chunks[upload]
    && (before.disk.rows[upload].state == Ready ==> after.disk.rows[upload].state == Ready)
    && (upload in before.running ==> upload in after.running && after.running[upload] == before.running[upload])
    && (upload in after.running ==> WorkOk(sha, job, after.disk, upload, after.running[upload]))
    && (upload in after.running && upload !in before.running ==> !Storing(after.running[upload]))
  }

  lemma CalmKeeps(sha: Sha256, upload: UploadId, job: Job, s: State, after: L.World)
    requires SessionOk(sha, upload, job, s) && Calm(sha, upload, job, s.world, after)
    ensures SessionOk(sha, upload, job, s.(world := after))
  {
    hide UploadOk, WorkOk, IsChunk, PacketAt, Fits;
    FitsOf(sha, job, s.world.disk, upload);
    var next := s.(world := after);
    forall m | m in next.stale ensures StaleOk(sha, upload, job, next, m) {
      assert StaleOk(sha, upload, job, s, m);
    }
  }

  lemma FitsOf(sha: Sha256, job: Job, disk: Disk, upload: UploadId)
    requires Known(disk, upload) && UploadOk(sha, job, disk, upload)
    ensures Fits(job) && 0 < job.chunkBytes
  {
  }

  lemma SameUploadOk(sha: Sha256, job: Job, before: Disk, after: Disk, upload: UploadId)
    requires Known(before, upload) && SameUpload(before, after, upload)
    requires UploadOk(sha, job, before, upload)
    ensures UploadOk(sha, job, after, upload)
  {
    hide Prefix, AllMatch;
  }

  lemma CancelMoves(sha: Sha256, job: Job, disk: Disk, upload: UploadId)
    requires Known(disk, upload) && UploadOk(sha, job, disk, upload)
    ensures var (after, pc) := BeginCancel(disk, upload);
            && Known(after, upload) && UploadOk(sha, job, after, upload) && WorkOk(sha, job, after, upload, pc)
            && after.chunks[upload] == disk.chunks[upload] && !Storing(pc)
            && (disk.rows[upload].state == Ready ==> after.rows[upload].state == Ready)
  {
    hide Prefix, AllMatch;
  }

  lemma ReconcileStarts(sha: Sha256, job: Job, disk: Disk, upload: UploadId)
    requires Known(disk, upload)
    ensures !Storing(BeginReconcile(disk, upload)) && WorkOk(sha, job, disk, upload, BeginReconcile(disk, upload))
  {
  }

  lemma ElsewhereCalm(sha: Sha256, upload: UploadId, job: Job, world: L.World, e: L.Event)
    requires RowInv(sha, world) && FileInv(sha, world) && Known(world.disk, upload)
    requires UploadOk(sha, job, world.disk, upload)
    requires upload in world.running ==> WorkOk(sha, job, world.disk, upload, world.running[upload])
    requires Foreign(e, upload) && L.Enabled(sha, world, e)
    ensures Calm(sha, upload, job, world, L.Apply(sha, world, e))
  {
    hide FileInv, TablesOk, PcOk, UploadOk, WorkOk, SameUpload, L.FreeAfter;
    hide Advance, BeginAppend, BeginComplete, BeginCancel, BeginReconcile;
    var after := L.Apply(sha, world, e);
    if e == L.StartCancel(upload) {
      CancelMoves(sha, job, world.disk, upload);
    } else {
      ElsewhereSame(sha, upload, world, e);
      SameUploadFacts(world.disk, after.disk, upload);
      SameUploadOk(sha, job, world.disk, after.disk, upload);
      if e == L.StartReconcile(upload) {
        ReconcileStarts(sha, job, world.disk, upload);
      } else {
        RunningElsewhere(sha, upload, world, e);
        if upload in world.running {
          SameWork(sha, job, world.disk, after.disk, upload, world.running[upload]);
        }
      }
    }
  }

  lemma SameUploadFacts(before: Disk, after: Disk, upload: UploadId)
    requires Known(before, upload) && SameUpload(before, after, upload)
    ensures Known(after, upload)
    ensures after.rows[upload] == before.rows[upload] && after.chunks[upload] == before.chunks[upload]
  {
  }

  lemma SameWork(sha: Sha256, job: Job, before: Disk, after: Disk, upload: UploadId, pc: Pc)
    requires Known(before, upload) && SameUpload(before, after, upload)
    requires WorkOk(sha, job, before, upload, pc)
    ensures Known(after, upload) && WorkOk(sha, job, after, upload, pc)
  {
    hide IsChunk, Matches;
    WorkFrame(sha, job, before, after, upload, pc);
  }

  lemma RunningElsewhere(sha: Sha256, upload: UploadId, world: L.World, e: L.Event)
    requires RowInv(sha, world) && Known(world.disk, upload)
    requires Foreign(e, upload) && L.Enabled(sha, world, e)
    requires e != L.StartCancel(upload) && e != L.StartReconcile(upload)
    ensures var after := L.Apply(sha, world, e).running;
            && (upload in after <==> upload in world.running)
            && (upload in after ==> after[upload] == world.running[upload])
  {
    hide TablesOk, PcOk, L.FreeAfter, Advance, BeginAppend, BeginComplete, BeginCancel, BeginReconcile;
  }
}
