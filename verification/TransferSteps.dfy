/** Every event of a resumable transfer keeps `TransferInv`, and what that means for a whole run. */
module TransferSteps {
  import opened Bytes
  import opened UploadRecords
  import opened UploadGuards
  import opened LibraryDisk
  import opened LibrarySteps
  import opened LibraryRows
  import opened LibraryFiles
  import opened ChunkSender
  import opened TransferTable
  import opened TransferSession
  import opened TransferSafety
  import L = LibraryWorld

  // The table as the phone sees it

  lemma ReceivedIsReach(sha: Sha256, upload: UploadId, job: Job, world: L.World)
    requires RowInv(sha, world) && Known(world.disk, upload) && UploadOk(sha, job, world.disk, upload)
    ensures Fits(job)
    ensures world.disk.rows[upload].received == Reach(job, |world.disk.chunks[upload]|)
    ensures |world.disk.chunks[upload]| <= Count(job)
  {
    hide DistinctIndices, OrderOk, ReferencesOk, OneReferenceEach, BlobPathsOk, PcOk, AllMatch;
    assert RowOk(world.disk, upload);
    PrefixTotal(sha, job, world.disk.chunks[upload]);
    PrefixWithin(sha, job, world.disk.chunks[upload]);
  }

  lemma FrontierOfReach(job: Job, k: nat)
    requires Fits(job) && k <= Count(job)
    ensures Frontier(|job.file|, job.chunkBytes, Reach(job, k)) == k
  {
    FrontierOfChunks(|job.file|, job.chunkBytes, k);
  }

  lemma FrontierOfOffset(job: Job, k: nat)
    requires Fits(job) && k * job.chunkBytes < |job.file|
    ensures Frontier(|job.file|, job.chunkBytes, k * job.chunkBytes) == k && k < Count(job)
    ensures Frontier(|job.file|, job.chunkBytes, k * job.chunkBytes + job.chunkBytes) == k + 1
  {
    MultipleHasNoRemainder(k, job.chunkBytes);
    MultipleHasNoRemainder(k + 1, job.chunkBytes);
    NextOffset(k, job.chunkBytes);
    CountBounds(|job.file|, job.chunkBytes, k);
    CountBounds(|job.file|, job.chunkBytes, k + 1);
  }

  // The phone's own moves

  lemma AuthorizeKeeps(sha: Sha256, upload: UploadId, job: Job, s: State, accepted: bool)
    requires TransferInv(sha, upload, job, s) && s.phone.Authorizing?
    ensures var received := s.world.disk.rows[upload].received;
            SessionOk(sha, upload, job, s.(phone := Resuming(received), authorized := true))
    ensures SessionOk(sha, upload, job, s.(phone := Rejected))
  {
    hide RowInv, FileInv, UploadOk, WorkOk, IsChunk, Frontier;
    ReceivedIsReach(sha, upload, job, s.world);
    FrontierOfReach(job, HeldChunks(s, upload));
    var received := s.world.disk.rows[upload].received;
    var next := s.(phone := Resuming(received), authorized := true);
    StaleKept(sha, upload, job, s, next);
    StaleKept(sha, upload, job, s, s.(phone := Rejected));
    AuthorizeNear(sha, upload, job, s, next);
  }

  lemma AuthorizeNear(sha: Sha256, upload: UploadId, job: Job, s: State, next: State)
    requires SessionOk(sha, upload, job, s)
    requires next.world == s.world && next.stale == s.stale
    ensures Near(upload, next, HeldChunks(s, upload))
  {
    hide UploadOk, IsChunk;
    FitsOf(sha, job, s.world.disk, upload);
    forall m | m in s.stale && m.Chunk? ensures m.input.index <= HeldChunks(s, upload) {
      assert StaleOk(sha, upload, job, s, m);
    }
  }

  /** Messages left over stay fine while the chunk table only grows. */
  lemma StaleKept(sha: Sha256, upload: UploadId, job: Job, s: State, next: State)
    requires SessionOk(sha, upload, job, s) && Known(next.world.disk, upload)
    requires HeldChunks(s, upload) <= HeldChunks(next, upload) <= Count(job) || HeldChunks(s, upload) == HeldChunks(next, upload)
    requires forall m :: m in next.stale ==> m in s.stale
    ensures forall m :: m in next.stale ==> StaleOk(sha, upload, job, next, m)
  {
    hide UploadOk, WorkOk, IsChunk, PhoneOk;
    FitsOf(sha, job, s.world.disk, upload);
    forall m | m in next.stale ensures StaleOk(sha, upload, job, next, m) {
      assert StaleOk(sha, upload, job, s, m);
    }
  }

  /** The position the Mac reports is always accepted, and is where the next chunk starts. */
  lemma ResumeIsAccepted(sha: Sha256, upload: UploadId, job: Job, s: State)
    requires TransferInv(sha, upload, job, s) && s.phone.Resuming?
    ensures 0 < job.chunkBytes
    ensures (var resume := CreateResumePosition(|job.file|, job.chunkBytes, s.phone.received);
             resume.Ok? && resume.value.offset == s.phone.received
             && (resume.value.offset < |job.file| ==> resume.value.offset == resume.value.chunkIndex * job.chunkBytes))
  {
    hide RowInv, FileInv, UploadOk, WorkOk, IsChunk, Near, StaleOk;
    FitsOf(sha, job, s.world.disk, upload);
    var p := Frontier(|job.file|, job.chunkBytes, s.phone.received);
    ReachResumes(job, p, s.phone.received);
  }

  lemma ReachResumes(job: Job, p: nat, received: int)
    requires Fits(job) && p <= Count(job) && received == Reach(job, p)
    ensures (var resume := CreateResumePosition(|job.file|, job.chunkBytes, received);
             resume.Ok? && resume.value.offset == received
             && (received < |job.file| ==> received == resume.value.chunkIndex * job.chunkBytes))
  {
    ResumesAtWholeChunks(|job.file|, job.chunkBytes, received);
  }

  lemma ResumeKeeps(sha: Sha256, upload: UploadId, job: Job, s: State)
    requires TransferInv(sha, upload, job, s) && s.phone.Resuming? && 0 < job.chunkBytes
    ensures SessionOk(sha, upload, job, Step(sha, upload, job, s, Resume))
  {
    hide RowInv, FileInv, UploadOk, WorkOk, IsChunk, StaleOk;
    ResumeIsAccepted(sha, upload, job, s);
    var next := Step(sha, upload, job, s, Resume);
    StaleKept(sha, upload, job, s, next);
  }

  lemma SendKeeps(sha: Sha256, upload: UploadId, job: Job, s: State)
    requires TransferInv(sha, upload, job, s) && s.phone.Sending? && 0 < job.chunkBytes
    ensures SessionOk(sha, upload, job, Step(sha, upload, job, s, Send))
  {
    hide RowInv, FileInv, UploadOk, WorkOk, IsChunk, StaleOk, Frontier;
    ReceivedIsReach(sha, upload, job, s.world);
    var next := Step(sha, upload, job, s, Send);
    StaleKept(sha, upload, job, s, next);
    if s.phone.offset < |job.file| {
      FrontierOfOffset(job, s.phone.index);
    } else {
      FrontierPast(job, s.phone.offset);
    }
  }

  lemma FrontierPast(job: Job, offset: nat)
    requires Fits(job) && |job.file| <= offset
    ensures Frontier(|job.file|, job.chunkBytes, offset) == Count(job)
  {
  }

  /** The acknowledgement is always the one the loop waits for. */
  lemma AckIsExpected(sha: Sha256, upload: UploadId, job: Job, s: State)
    requires TransferInv(sha, upload, job, s) && s.phone.Acknowledging?
    ensures ExpectAcknowledgement(Ack(s.phone.received), s.phone.expected).None?
  {
    hide RowInv, FileInv, UploadOk, WorkOk, IsChunk, StaleOk, Near;
    FitsOf(sha, job, s.world.disk, upload);
  }

  lemma HearAckKeeps(sha: Sha256, upload: UploadId, job: Job, s: State)
    requires TransferInv(sha, upload, job, s) && s.phone.Acknowledging? && 0 < job.chunkBytes
    ensures SessionOk(sha, upload, job, Step(sha, upload, job, s, HearAck))
  {
    hide RowInv, FileInv, UploadOk, WorkOk, IsChunk, StaleOk, Frontier;
    FitsOf(sha, job, s.world.disk, upload);
    AckIsExpected(sha, upload, job, s);
    var next := Step(sha, upload, job, s, HearAck);
    StaleKept(sha, upload, job, s, next);
    FrontierOfOffset(job, s.phone.index);
    NextOffset(s.phone.index, job.chunkBytes);
  }

  // The Mac takes a message

  /** A chunk the Mac is ready for starts storing, or is acknowledged again, or meets a finished upload. */
  lemma ChunkBegins(sha: Sha256, upload: UploadId, job: Job, disk: Disk, input: AppendInput)
    requires Known(disk, upload) && UploadOk(sha, job, disk, upload)
    requires IsChunk(sha, job, input) && input.index <= |disk.chunks[upload]|
    ensures var pc := BeginAppend(sha, disk, upload, input);
            && WorkOk(sha, job, disk, upload, pc)
            && (pc == WriteChunk(input, 0)
                || pc == Finished(Acknowledged(disk.rows[upload].ackEpoch, disk.rows[upload].received))
                || pc == Finished(Threw(UploadStateError)))
            && (pc == WriteChunk(input, 0) ==> input.index == |disk.chunks[upload]|)
            && (pc.Finished? && pc.outcome.Acknowledged? ==> input.index < |disk.chunks[upload]|)
  {
    hide Prefix, AllMatch, IsChunk, JudgeAppend;
    ChunkVerdict(sha, job, disk.rows[upload], disk.chunks[upload], input);
  }

  lemma CompleteBegins(sha: Sha256, upload: UploadId, job: Job, disk: Disk)
    requires Known(disk, upload) && UploadOk(sha, job, disk, upload)
    ensures var (after, pc) := BeginComplete(disk, upload);
            && Known(after, upload) && UploadOk(sha, job, after, upload) && WorkOk(sha, job, after, upload, pc)
            && after.chunks[upload] == disk.chunks[upload] && !Storing(pc)
            && (disk.rows[upload].state == Ready ==> after.rows[upload].state == Ready)
            && (pc.Finished? ==> !pc.outcome.Published?)
  {
    hide Prefix, AllMatch;
  }

  lemma TakeStaleKeeps(sha: Sha256, upload: UploadId, job: Job, s: State, k: nat)
    requires TransferInv(sha, upload, job, s) && k < |s.stale| && upload !in s.world.running && 0 < job.chunkBytes
    ensures SessionOk(sha, upload, job, Step(sha, upload, job, s, TakeStale(k)))
  {
    hide RowInv, FileInv, UploadOk, WorkOk, IsChunk, Frontier, BeginAppend, BeginComplete, PacketAt, Fits;
    FitsOf(sha, job, s.world.disk, upload);
    var disk, message := s.world.disk, s.stale[k];
    assert message in s.stale && StaleOk(sha, upload, job, s, message);
    var next := Step(sha, upload, job, s, TakeStale(k));
    match message {
      case Chunk(input) => ChunkBegins(sha, upload, job, disk, input);
      case Complete => CompleteBegins(sha, upload, job, disk);
    }
    StaleKept(sha, upload, job, s, next);
  }

  lemma TakeLiveChunkKeeps(sha: Sha256, upload: UploadId, job: Job, s: State)
    requires TransferInv(sha, upload, job, s) && s.phone.AwaitingAck? && upload !in s.world.running && 0 < job.chunkBytes
    ensures SessionOk(sha, upload, job, Step(sha, upload, job, s, TakeLive))
  {
    hide RowInv, FileInv, UploadOk, WorkOk, IsChunk, Frontier, BeginAppend, PacketAt;
    ReceivedIsReach(sha, upload, job, s.world);
    LiveChunk(sha, upload, job, s);
    ChunkBegins(sha, upload, job, s.world.disk, s.phone.input);
    ChunkReach(sha, job, s.phone.input);
    var next := Step(sha, upload, job, s, TakeLive);
    StaleKept(sha, upload, job, s, next);
  }

  lemma LiveChunk(sha: Sha256, upload: UploadId, job: Job, s: State)
    requires SessionOk(sha, upload, job, s) && s.phone.AwaitingAck?
    ensures IsChunk(sha, job, s.phone.input) && s.phone.input.index == s.phone.index
    ensures s.phone.input.index <= HeldChunks(s, upload)
  {
    hide UploadOk, WorkOk, StaleOk;
    FitsOf(sha, job, s.world.disk, upload);
    assert s.phone.input == PacketAt(sha, job, s.phone.index, s.phone.index * job.chunkBytes);
  }

  lemma ChunkReach(sha: Sha256, job: Job, input: AppendInput)
    requires IsChunk(sha, job, input)
    ensures input.offset == input.index * job.chunkBytes
    ensures input.offset + |input.bytes| == Reach(job, input.index + 1)
    ensures input.index < Count(job)
  {
    ChunkEndsWhereNextStarts(sha, job, input.index);
    CountBounds(|job.file|, job.chunkBytes, input.index);
  }

  lemma TakeLiveCompleteKeeps(sha: Sha256, upload: UploadId, job: Job, s: State)
    requires TransferInv(sha, upload, job, s) && s.phone.Completing? && upload !in s.world.running && 0 < job.chunkBytes
    ensures SessionOk(sha, upload, job, Step(sha, upload, job, s, TakeLive))
  {
    hide RowInv, FileInv, UploadOk, WorkOk, IsChunk, Frontier, BeginComplete;
    FitsOf(sha, job, s.world.disk, upload);
    CompleteBegins(sha, upload, job, s.world.disk);
    var next := Step(sha, upload, job, s, TakeLive);
    StaleKept(sha, upload, job, s, next);
  }

  // The Mac works

  /** What a turn of the upload's operation does to what the phone relies on. */
  ghost predicate TurnOk(sha: Sha256, upload: UploadId, job: Job, before: Disk, pc: Pc, after: Disk, next: Pc)
    requires Known(before, upload) && 0 < job.chunkBytes
  {
    && Known(after, upload)
    && UploadOk(sha, job, after, upload) && WorkOk(sha, job, after, upload, next)
    && (before.rows[upload].state == Ready ==> after.rows[upload].state == Ready)
    && (if pc.PersistChunk? then
          && |after.chunks[upload]| == |before.chunks[upload]| + 1 == pc.input.index + 1 <= Count(job)
          && next.Mirror? && next.next.Finished? && next.next.outcome.Acknowledged?
          && next.next.outcome.received == Reach(job, pc.input.index + 1)
        else
          |after.chunks[upload]| == |before.chunks[upload]|)
    && (Storing(pc) ==> pc.input.index == |before.chunks[upload]| < Count(job))
    && (Storing(next) ==> Storing(pc) && next.input == pc.input && |after.chunks[upload]| == |before.chunks[upload]|)
    && (pc.Mirror? ==> next == pc.next)
    && (pc.WriteChunk? && next.Finished? ==> next.outcome.Threw?)
    && (pc.WriteChunk? ==> Storing(next) || next.Finished?)
  }

  lemma TurnIsOk(sha: Sha256, upload: UploadId, job: Job, world: L.World, wrote: nat, material: MaterialId)
    requires RowInv(sha, world) && FileInv(sha, world)
    requires Known(world.disk, upload) && UploadOk(sha, job, world.disk, upload)
    requires upload in world.running && WorkOk(sha, job, world.disk, upload, world.running[upload])
    ensures 0 < job.chunkBytes
    ensures var (after, next) := Advance(sha, world.disk, upload, world.running[upload], wrote, material);
            TurnOk(sha, upload, job, world.disk, world.running[upload], after, next)
  {
    hide TablesOk, DiskFilesOk, PcOk, PcFileOk, UploadOk, Advance, IsChunk, Matches, Fits;
    var pc := world.running[upload];
    FitsOf(sha, job, world.disk, upload);
    ReceivedIsReach(sha, upload, job, world);
    AdvanceUpload(sha, job, world.disk, upload, pc, wrote, material);
    if Storing(pc) {
      ChunkReach(sha, job, pc.input);
      ReachIsOffset(job, pc.input.index);
    }
    if pc.WriteChunk? {
      WriteOutcome(world.disk, upload, pc.input, pc.written, wrote);
      AdvanceWriteIs(sha, world.disk, upload, pc, wrote, material);
    }
  }

  lemma AdvanceWriteIs(sha: Sha256, disk: Disk, upload: UploadId, pc: Pc, wrote: nat, material: MaterialId)
    requires Known(disk, upload) && pc.WriteChunk?
    ensures Advance(sha, disk, upload, pc, wrote, material) == AdvanceWrite(disk, upload, pc.input, pc.written, wrote)
  {
  }

  lemma ReachIsOffset(job: Job, k: nat)
    requires Fits(job) && k < Count(job)
    ensures Reach(job, k) == k * job.chunkBytes
  {
    CountBounds(|job.file|, job.chunkBytes, k);
  }

  /** The world and the Mac's bookkeeping after a turn, before the phone hears of it. */
  function Turned(upload: UploadId, s: State, after: Disk, next: Pc): State {
    State(s.world.(disk := after, running := L.Resume(s.world.running, upload, next)),
          if next.Finished? && s.serving.LiveSession? then Answer(s.phone, next.outcome) else s.phone,
          s.authorized, s.stale, if next.Finished? then Nobody else s.serving)
  }

  lemma TurnNear(sha: Sha256, upload: UploadId, job: Job, s: State, after: Disk, next: Pc, p: nat)
    requires Known(s.world.disk, upload) && upload in s.world.running && 0 < job.chunkBytes
    requires TurnOk(sha, upload, job, s.world.disk, s.world.running[upload], after, next)
    requires Near(upload, s, p)
    ensures Known(after, upload) && Near(upload, Turned(upload, s, after, next), p)
  {
    hide UploadOk, WorkOk;
  }

  lemma TurnHeard(sha: Sha256, upload: UploadId, job: Job, s: State, after: Disk, next: Pc)
    requires SessionOk(sha, upload, job, s) && upload in s.world.running && 0 < job.chunkBytes
    requires TurnOk(sha, upload, job, s.world.disk, s.world.running[upload], after, next)
    requires s.serving.LiveSession?
    ensures Known(after, upload) && Fits(job) && PhoneOk(sha, upload, job, Turned(upload, s, after, next))
  {
    hide UploadOk, IsChunk, Frontier, StaleOk, PacketAt, Fits, Near;
    FitsOf(sha, job, s.world.disk, upload);
    if s.phone.AwaitingAck? {
      LiveChunk(sha, upload, job, s);
      ChunkReach(sha, job, s.phone.input);
      TurnNear(sha, upload, job, s, after, next, s.phone.index);
    }
  }

  lemma TurnUnheard(sha: Sha256, upload: UploadId, job: Job, s: State, after: Disk, next: Pc)
    requires SessionOk(sha, upload, job, s) && upload in s.world.running && 0 < job.chunkBytes
    requires TurnOk(sha, upload, job, s.world.disk, s.world.running[upload], after, next)
    requires !s.serving.LiveSession?
    ensures Known(after, upload) && Fits(job) && PhoneOk(sha, upload, job, Turned(upload, s, after, next))
  {
    hide UploadOk, WorkOk, IsChunk, Frontier, StaleOk, PacketAt, Fits, LiveWork;
    FitsOf(sha, job, s.world.disk, upload);
    match s.phone {
      case Resuming(received) =>
        TurnNear(sha, upload, job, s, after, next, Frontier(|job.file|, job.chunkBytes, received));
      case Sending(_, offset) =>
        TurnNear(sha, upload, job, s, after, next, Frontier(|job.file|, job.chunkBytes, offset));
      case AwaitingAck(index, _, _) =>
        TurnNear(sha, upload, job, s, after, next, index);
      case Acknowledging(index, _, _, _) =>
        TurnNear(sha, upload, job, s, after, next, index);
      case _ =>
    }
  }

  lemma MacTurnKeeps(sha: Sha256, upload: UploadId, job: Job, s: State, wrote: nat, material: MaterialId)
    requires TransferInv(sha, upload, job, s) && 0 < job.chunkBytes
    requires Enabled(sha, upload, job, s, MacTurn(wrote, material))
    ensures SessionOk(sha, upload, job, Step(sha, upload, job, s, MacTurn(wrote, material)))
  {
    hide RowInv, FileInv, UploadOk, WorkOk, StaleOk, PhoneOk, Advance, TurnOk, L.FreeAfter;
    var disk, pc := s.world.disk, s.world.running[upload];
    var (after, next) := Advance(sha, disk, upload, pc, wrote, material);
    TurnIsOk(sha, upload, job, s.world, wrote, material);
    TurnFacts(sha, upload, job, disk, pc, after, next);
    if s.serving.LiveSession? {
      TurnHeard(sha, upload, job, s, after, next);
    } else {
      TurnUnheard(sha, upload, job, s, after, next);
    }
    var turned := Turned(upload, s, after, next);
    assert Step(sha, upload, job, s, MacTurn(wrote, material)) == turned;
    StaleKept(sha, upload, job, s, turned);
  }

  lemma TurnFacts(sha: Sha256, upload: UploadId, job: Job, before: Disk, pc: Pc, after: Disk, next: Pc)
    requires Known(before, upload) && 0 < job.chunkBytes && TurnOk(sha, upload, job, before, pc, after, next)
    ensures Known(after, upload) && UploadOk(sha, job, after, upload) && WorkOk(sha, job, after, upload, next)
    ensures |before.chunks[upload]| == |after.chunks[upload]|
            || |before.chunks[upload]| < |after.chunks[upload]| <= Count(job)
  {
    hide UploadOk, WorkOk;
  }
}
