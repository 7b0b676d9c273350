/** Resumable transfers from the first session to the published file, over every run. */
module TransferRun {
  import opened Bytes
  import opened MaterialFiles
  import opened UploadRecords
  import opened UploadGuards
  import opened LibraryDisk
  import opened LibrarySteps
  import opened LibraryRows
  import opened LibraryFiles
  import opened LibraryPublication
  import opened LibraryRecovery
  import opened LibraryReconcile
  import opened ChunkSender
  import opened TransferTable
  import opened TransferSession
  import opened TransferSafety
  import opened TransferSteps
  import L = LibraryWorld

  // Failures, lost sessions and crashes

  lemma MacFailsKeeps(sha: Sha256, upload: UploadId, job: Job, s: State, answered: bool)
    requires TransferInv(sha, upload, job, s) && 0 < job.chunkBytes
    requires Enabled(sha, upload, job, s, MacFails(answered))
    ensures SessionOk(sha, upload, job, Step(sha, upload, job, s, MacFails(answered)))
  {
    hide RowInv, FileInv, UploadOk, WorkOk, StaleOk, IsChunk, Frontier, PacketAt, Fits;
    FitsOf(sha, job, s.world.disk, upload);
    StaleKept(sha, upload, job, s, Step(sha, upload, job, s, MacFails(answered)));
  }

  lemma LoseSessionKeeps(sha: Sha256, upload: UploadId, job: Job, s: State, delivered: bool)
    requires TransferInv(sha, upload, job, s) && 0 < job.chunkBytes
    requires Enabled(sha, upload, job, s, LoseSession(delivered))
    ensures SessionOk(sha, upload, job, Step(sha, upload, job, s, LoseSession(delivered)))
  {
    hide RowInv, FileInv, UploadOk, WorkOk, IsChunk, Frontier, PacketAt, Fits;
    FitsOf(sha, job, s.world.disk, upload);
    if s.phone.AwaitingAck? {
      LiveChunk(sha, upload, job, s);
    }
    var next := Step(sha, upload, job, s, LoseSession(delivered));
    forall m | m in next.stale ensures StaleOk(sha, upload, job, next, m) {
      if m in s.stale {
        assert StaleOk(sha, upload, job, s, m);
      }
    }
  }

  lemma TornMatches(sha: Sha256, job: Job, before: File, after: File, chunk: ChunkRow)
    requires before.durable <= |before.bytes| && Torn(before, after)
    requires Matches(job, before.bytes, chunk) && 0 < chunk.size
    requires ChunkHeld(sha, before, chunk)
    ensures Matches(job, after.bytes, chunk)
  {
    TornKeepsHeld(before, after, chunk.offset, chunk.offset + chunk.size);
  }

  lemma CrashMatches(sha: Sha256, upload: UploadId, job: Job, disk: Disk, files: map<Path, File>)
    requires Known(disk, upload) && UploadOk(sha, job, disk, upload) && DiskFilesOk(sha, disk)
    requires files.Keys == disk.files.Keys && forall p :: p in files ==> Torn(disk.files[p], files[p])
    ensures UploadOk(sha, job, disk.(files := files), upload)
  {
    hide BlobFilesOk, Matches, Torn, ChunkHeld, IsChunk, ChunkAt;
    var staging, chunks := StagingPath(upload), disk.chunks[upload];
    assert FileOk(sha, disk, upload);
    if InTransfer(disk.rows[upload]) && staging in files {
      forall c | c in chunks ensures Matches(job, files[staging].bytes, c) {
        var i :| 0 <= i < |chunks| && chunks[i] == c;
        ChunkEndsWhereNextStarts(sha, job, i);
        TornMatches(sha, job, disk.files[staging], files[staging], c);
      }
    }
  }

  lemma MacCrashKeeps(sha: Sha256, upload: UploadId, job: Job, s: State, files: map<Path, File>)
    requires TransferInv(sha, upload, job, s) && 0 < job.chunkBytes
    requires Enabled(sha, upload, job, s, MacCrash(files))
    ensures SessionOk(sha, upload, job, Step(sha, upload, job, s, MacCrash(files)))
  {
    hide RowInv, DiskFilesOk, PcFileOk, UploadOk, WorkOk, StaleOk, Torn;
    FitsOf(sha, job, s.world.disk, upload);
    CrashMatches(sha, upload, job, s.world.disk, files);
  }

  // The library's own invariants along the way

  lemma BegunIsApply(sha: Sha256, upload: UploadId, world: L.World, message: Message)
    requires upload !in world.running
    ensures (var e := if message.Chunk? then L.StartAppend(upload, message.input) else L.StartComplete(upload);
             L.Enabled(sha, world, e) && Begun(sha, upload, world, message).0 == L.Apply(sha, world, e))
  {
    hide BeginAppend, BeginComplete, L.FreeAfter;
  }

  lemma LibraryKeeps(sha: Sha256, world: L.World, e: L.Event)
    requires RowInv(sha, world) && FileInv(sha, world) && L.Enabled(sha, world, e) && !e.Tamper?
    ensures RowInv(sha, L.Apply(sha, world, e)) && FileInv(sha, L.Apply(sha, world, e))
  {
    hide RowInv, FileInv, L.Enabled, L.Apply;
    ApplyRows(sha, world, e);
    ApplyFiles(sha, world, e);
  }

  lemma BegunKeeps(sha: Sha256, upload: UploadId, world: L.World, message: Message)
    requires RowInv(sha, world) && FileInv(sha, world) && upload !in world.running
    ensures RowInv(sha, Begun(sha, upload, world, message).0) && FileInv(sha, Begun(sha, upload, world, message).0)
  {
    hide RowInv, FileInv, L.Enabled, L.Apply, Begun;
    BegunIsApply(sha, upload, world, message);
    LibraryKeeps(sha, world,
                 if message.Chunk? then L.StartAppend(upload, message.input) else L.StartComplete(upload));
  }

  lemma StepKeepsLibrary(sha: Sha256, upload: UploadId, job: Job, s: State, event: Event)
    requires RowInv(sha, s.world) && FileInv(sha, s.world)
    requires 0 < job.chunkBytes && Enabled(sha, upload, job, s, event)
    ensures RowInv(sha, Step(sha, upload, job, s, event).world)
    ensures FileInv(sha, Step(sha, upload, job, s, event).world)
  {
    hide RowInv, FileInv, L.Apply, L.Enabled, Begun, Advance, PacketAt;
    match event {
      case Elsewhere(e) => LibraryKeeps(sha, s.world, e);
      case TakeLive => BegunKeeps(sha, upload, s.world, LiveMessage(s.phone));
      case TakeStale(k) => BegunKeeps(sha, upload, s.world, s.stale[k]);
      case MacTurn(wrote, material) => TurnKeepsLibrary(sha, upload, job, s, wrote, material);
      case MacFails(_) => FailKeepsLibrary(sha, upload, s.world);
      case MacCrash(files) => LibraryKeeps(sha, s.world, L.Crash(files));
      case _ =>
    }
  }

  lemma TurnKeepsLibrary(sha: Sha256, upload: UploadId, job: Job, s: State, wrote: nat, material: MaterialId)
    requires RowInv(sha, s.world) && FileInv(sha, s.world)
    requires 0 < job.chunkBytes && Enabled(sha, upload, job, s, MacTurn(wrote, material))
    ensures RowInv(sha, Step(sha, upload, job, s, MacTurn(wrote, material)).world)
    ensures FileInv(sha, Step(sha, upload, job, s, MacTurn(wrote, material)).world)
  {
    hide RowInv, FileInv, Advance, L.FreeAfter;
    LibraryKeeps(sha, s.world, L.Turn(upload, wrote, material));
  }

  lemma FailKeepsLibrary(sha: Sha256, upload: UploadId, world: L.World)
    requires RowInv(sha, world) && FileInv(sha, world) && upload in world.running
    ensures L.Enabled(sha, world, L.Fail(upload))
    ensures RowInv(sha, L.Apply(sha, world, L.Fail(upload))) && FileInv(sha, L.Apply(sha, world, L.Fail(upload)))
  {
    hide RowInv, FileInv, L.FreeAfter;
    LibraryKeeps(sha, world, L.Fail(upload));
  }

  lemma ElsewhereKeeps(sha: Sha256, upload: UploadId, job: Job, s: State, e: L.Event)
    requires TransferInv(sha, upload, job, s) && 0 < job.chunkBytes
    requires Enabled(sha, upload, job, s, Elsewhere(e))
    ensures SessionOk(sha, upload, job, Step(sha, upload, job, s, Elsewhere(e)))
  {
    hide RowInv, FileInv, UploadOk, WorkOk, PhoneOk, StaleOk, Calm, L.Apply, L.Enabled, Foreign;
    ElsewhereCalm(sha, upload, job, s.world, e);
    CalmKeeps(sha, upload, job, s, L.Apply(sha, s.world, e));
  }

  // Runs

  lemma StepKeepsTransfer(sha: Sha256, upload: UploadId, job: Job, s: State, event: Event)
    requires TransferInv(sha, upload, job, s) && 0 < job.chunkBytes
    requires Enabled(sha, upload, job, s, event)
    ensures TransferInv(sha, upload, job, Step(sha, upload, job, s, event))
  {
    StepKeepsLibrary(sha, upload, job, s, event);
    StepKeepsSession(sha, upload, job, s, event);
  }

  lemma ConnectKeeps(sha: Sha256, upload: UploadId, job: Job, s: State)
    requires TransferInv(sha, upload, job, s) && s.phone.Offline? && 0 < job.chunkBytes
    ensures SessionOk(sha, upload, job, Step(sha, upload, job, s, Connect))
  {
    hide RowInv, FileInv, UploadOk, WorkOk, StaleOk;
    FitsOf(sha, job, s.world.disk, upload);
    StaleKept(sha, upload, job, s, Step(sha, upload, job, s, Connect));
  }

  lemma AuthorizedBeforeData(sha: Sha256, upload: UploadId, job: Job, s: State)
    requires SessionOk(sha, upload, job, s) && s.phone.AwaitingAck?
    ensures s.authorized
  {
    hide UploadOk, WorkOk, StaleOk;
  }

  lemma StepKeepsSession(sha: Sha256, upload: UploadId, job: Job, s: State, event: Event)
    requires TransferInv(sha, upload, job, s) && 0 < job.chunkBytes
    requires Enabled(sha, upload, job, s, event)
    ensures SessionOk(sha, upload, job, Step(sha, upload, job, s, event))
  {
    hide TransferInv, SessionOk, Step;
    match event {
      case Elsewhere(e) => ElsewhereKeeps(sha, upload, job, s, e);
      case Connect => ConnectKeeps(sha, upload, job, s);
      case Authorize(accepted) => AuthorizeStep(sha, upload, job, s, accepted);
      case Resume => ResumeKeeps(sha, upload, job, s);
      case Send => SendKeeps(sha, upload, job, s);
      case TakeLive =>
        if s.phone.AwaitingAck? {
          TakeLiveChunkKeeps(sha, upload, job, s);
        } else {
          TakeLiveCompleteKeeps(sha, upload, job, s);
        }
      case TakeStale(k) => TakeStaleKeeps(sha, upload, job, s, k);
      case MacTurn(wrote, material) => MacTurnKeeps(sha, upload, job, s, wrote, material);
      case MacFails(answered) => MacFailsKeeps(sha, upload, job, s, answered);
      case HearAck => HearAckKeeps(sha, upload, job, s);
      case LoseSession(delivered) => LoseSessionKeeps(sha, upload, job, s, delivered);
      case MacCrash(files) => MacCrashKeeps(sha, upload, job, s, files);
    }
  }

  lemma AuthorizeStep(sha: Sha256, upload: UploadId, job: Job, s: State, accepted: bool)
    requires TransferInv(sha, upload, job, s) && 0 < job.chunkBytes
    requires Enabled(sha, upload, job, s, Authorize(accepted))
    ensures SessionOk(sha, upload, job, Step(sha, upload, job, s, Authorize(accepted)))
  {
    hide TransferInv, SessionOk;
    AuthorizeKeeps(sha, upload, job, s, accepted);
  }

  lemma {:induction false} RunKeepsTransfer(sha: Sha256, upload: UploadId, job: Job, s: State, events: seq<Event>)
    requires 0 < job.chunkBytes && TransferInv(sha, upload, job, s) && Legal(sha, upload, job, s, events)
    ensures TransferInv(sha, upload, job, After(sha, upload, job, s, events))
    decreases |events|
  {
    hide TransferInv, Step, Enabled;
    if events != [] {
      StepKeepsTransfer(sha, upload, job, s, events[0]);
      RunKeepsTransfer(sha, upload, job, Step(sha, upload, job, s, events[0]), events[1..]);
    }
  }

  /** An upload just created for this file, before its first session. */
  ghost predicate Fresh(sha: Sha256, upload: UploadId, job: Job, s: State) {
    && Fits(job) && RowInv(sha, s.world) && FileInv(sha, s.world)
    && Known(s.world.disk, upload)
    && s.world.disk.rows[upload].expected == |job.file|
    && s.world.disk.rows[upload].sha == sha(job.file)
    && s.world.disk.chunks[upload] == []
    && upload !in s.world.running
    && s.phone == Offline && !s.authorized && s.stale == [] && s.serving == Nobody
  }

  /** `createUpload` leaves exactly that: its last transaction and its manifest make the upload ready to transfer. */
  lemma CreatedUploadIsFresh(sha: Sha256, upload: UploadId, job: Job, world: L.World, target: string)
    requires Fits(job) && RowInv(sha, world) && FileInv(sha, world)
    requires world.creation == L.Opened(L.CreateRequest(|job.file|, sha(job.file), target), upload)
    ensures (var inserted := L.Apply(sha, world, L.InsertCreated);
             && L.Enabled(sha, inserted, L.Turn(upload, 0, ""))
             && Fresh(sha, upload, job,
                      State(L.Apply(sha, inserted, L.Turn(upload, 0, "")), Offline, false, [], Nobody)))
  {
    hide RowInv, FileInv;
    var inserted := L.Apply(sha, world, L.InsertCreated);
    LibraryKeeps(sha, world, L.InsertCreated);
    LibraryKeeps(sha, inserted, L.Turn(upload, 0, ""));
  }

  lemma FreshStarts(sha: Sha256, upload: UploadId, job: Job, s: State)
    requires Fresh(sha, upload, job, s)
    ensures TransferInv(sha, upload, job, s)
  {
    hide RowInv, FileInv;
  }

  // What a run guarantees

  /**
   At any moment of any run: the chunk table holds the first chunks of the file, the packet in flight
   and every packet a lost session left behind is a chunk of the file, and none is past the next one.
   */
  lemma InFlightChunksAreExpected(sha: Sha256, upload: UploadId, job: Job, s: State, events: seq<Event>)
    requires Fresh(sha, upload, job, s) && Legal(sha, upload, job, s, events)
    ensures (var now := After(sha, upload, job, s, events);
             && Known(now.world.disk, upload)
             && Prefix(sha, job, now.world.disk.chunks[upload])
             && (now.phone.AwaitingAck? ==>
                   IsChunk(sha, job, now.phone.input) && now.phone.input.index <= |now.world.disk.chunks[upload]|)
             && (forall m :: m in now.stale && m.Chunk? ==>
                   IsChunk(sha, job, m.input) && m.input.index <= |now.world.disk.chunks[upload]|))
  {
    hide RowInv, FileInv, WorkOk, IsChunk, Prefix;
    FreshStarts(sha, upload, job, s);
    RunKeepsTransfer(sha, upload, job, s, events);
    var now := After(sha, upload, job, s, events);
    if now.phone.AwaitingAck? {
      LiveChunk(sha, upload, job, now);
    }
    forall m | m in now.stale && m.Chunk?
      ensures IsChunk(sha, job, m.input) && m.input.index <= |now.world.disk.chunks[upload]|
    {
      assert StaleOk(sha, upload, job, now, m);
    }
  }

  /** No chunk a run sends is ever refused for its range, its checksum or a replay mismatch. */
  lemma ChunksAreNeverMisjudged(sha: Sha256, upload: UploadId, job: Job, s: State, events: seq<Event>, input: AppendInput)
    requires Fresh(sha, upload, job, s) && Legal(sha, upload, job, s, events)
    requires (var now := After(sha, upload, job, s, events);
              (now.phone.AwaitingAck? && input == now.phone.input) || Chunk(input) in now.stale)
    ensures Known(After(sha, upload, job, s, events).world.disk, upload)
    ensures (var disk := After(sha, upload, job, s, events).world.disk;
             var verdict := JudgeAppend(sha, disk.rows[upload], disk.chunks[upload], input);
             if disk.rows[upload].state != Transferring then verdict == Refused(StateInvalid)
             else verdict == Accepted || verdict == Duplicate)
  {
    hide RowInv, FileInv, WorkOk, IsChunk, Prefix, AllMatch, JudgeAppend, StaleOk, PhoneOk, Fresh, ServingOk;
    InFlightChunksAreExpected(sha, upload, job, s, events);
    FreshStarts(sha, upload, job, s);
    RunKeepsTransfer(sha, upload, job, s, events);
    var now := After(sha, upload, job, s, events);
    ChunkVerdict(sha, job, now.world.disk.rows[upload], now.world.disk.chunks[upload], input);
  }

  /** The sender is never turned away: its resume request, its acknowledgements and its data all pass. */
  lemma SenderIsNeverRefused(sha: Sha256, upload: UploadId, job: Job, s: State, events: seq<Event>)
    requires Fresh(sha, upload, job, s) && Legal(sha, upload, job, s, events)
    ensures (var now := After(sha, upload, job, s, events);
             && (now.phone.Resuming? ==> CreateResumePosition(|job.file|, job.chunkBytes, now.phone.received).Ok?)
             && (now.phone.Acknowledging? ==>
                   ExpectAcknowledgement(Ack(now.phone.received), now.phone.expected).None?)
             && (now.phone.AwaitingAck? ==> now.authorized))
  {
    hide RowInv, FileInv, SessionOk, CreateResumePosition, ExpectAcknowledgement;
    FreshStarts(sha, upload, job, s);
    RunKeepsTransfer(sha, upload, job, s, events);
    var now := After(sha, upload, job, s, events);
    if now.phone.Resuming? {
      ResumeIsAccepted(sha, upload, job, now);
    } else if now.phone.Acknowledging? {
      AckIsExpected(sha, upload, job, now);
    } else if now.phone.AwaitingAck? {
      AuthorizedBeforeData(sha, upload, job, now);
    }
  }

  lemma StagedIsTheFile(sha: Sha256, upload: UploadId, job: Job, world: L.World)
    requires RowInv(sha, world) && FileInv(sha, world)
    requires Known(world.disk, upload) && UploadOk(sha, job, world.disk, upload)
    requires world.disk.rows[upload].state == Staged
    ensures StagingPath(upload) in world.disk.files && world.disk.files[StagingPath(upload)].bytes == job.file
    ensures Destined(sha, world.disk, upload)
  {
    hide PcOk, PcFileOk, OrderOk, ReferencesOk, OneReferenceEach, BlobPathsOk, DistinctIndices, Prefix, AllMatch, Stable;
    var disk := world.disk;
    StagedStable(sha, disk, upload);
    assert RowOk(disk, upload);
    FullPrefix(sha, job, disk.chunks[upload]);
    FullStagingIsTheFile(sha, job, disk.files[StagingPath(upload)].bytes, disk.chunks[upload]);
  }

  /**
   Completion finds the whole file: COMPLETE is never answered with UPLOAD_INCOMPLETE, and once it has
   staged the upload the staging file is byte for byte the file that was sent, whatever SHA-256 is. The
   upload is then bound for publication: `Destined` is what the next reconcile turns into `Ready`.
   */
  lemma CompletionFindsTheFile(sha: Sha256, upload: UploadId, job: Job, s: State, events: seq<Event>)
    requires Fresh(sha, upload, job, s) && Legal(sha, upload, job, s, events)
    ensures (var now := After(sha, upload, job, s, events);
             var disk := now.world.disk;
             && Known(disk, upload)
             && (now.phone.Completing? ==> BeginComplete(disk, upload).1 != Finished(Failed(UploadIncomplete)))
             && (disk.rows[upload].state == Staged ==>
                   && StagingPath(upload) in disk.files
                   && disk.files[StagingPath(upload)].bytes == job.file
                   && Destined(sha, disk, upload)))
  {
    hide RowInv, FileInv, WorkOk, StaleOk, Destined, ServingOk, Prefix, AllMatch;
    FreshStarts(sha, upload, job, s);
    RunKeepsTransfer(sha, upload, job, s, events);
    var now := After(sha, upload, job, s, events);
    ReceivedIsReach(sha, upload, job, now.world);
    if now.world.disk.rows[upload].state == Staged {
      StagedIsTheFile(sha, upload, job, now.world);
    }
    if now.phone.Completing? {
      ReachOfAll(job);
    }
  }

  lemma ReachOfAll(job: Job)
    requires Fits(job)
    ensures Reach(job, Count(job)) == |job.file|
  {
    CountBounds(|job.file|, job.chunkBytes, Count(job));
  }

  /**
   When the phone hears READY, exactly one reference names the upload, and the published blob hashes to
   the file's digest; it is the file itself if no other content has that digest.
   */
  lemma ConfirmedFileIsPublished(sha: Sha256, upload: UploadId, job: Job, s: State, events: seq<Event>)
    requires Fresh(sha, upload, job, s) && Legal(sha, upload, job, s, events)
    requires After(sha, upload, job, s, events).phone.Confirmed?
    ensures (var disk := After(sha, upload, job, s, events).world.disk;
             var blob := BlobPath(sha(job.file));
             && Referenced(disk.references, upload)
             && (forall m, n | m in disk.references && n in disk.references ::
                   disk.references[m].upload == upload && disk.references[n].upload == upload ==> m == n)
             && blob in disk.files
             && sha(disk.files[blob].bytes) == sha(job.file)
             && ((forall other :: sha(other) == sha(job.file) ==> other == job.file) ==>
                   disk.files[blob].bytes == job.file))
  {
    hide PcOk, PcFileOk, OrderOk, ReferencesOk, BlobPathsOk, WorkOk, StaleOk, Prefix, AllMatch, Stable, ServingOk;
    hide ChunkTableOk, Referenced, Fresh, Legal;
    FreshStarts(sha, upload, job, s);
    RunKeepsTransfer(sha, upload, job, s, events);
    var disk := After(sha, upload, job, s, events).world.disk;
    assert RowOk(disk, upload) && FileOk(sha, disk, upload);
  }

  /**
   A completion cut short anywhere between staging and publication, by a failure or by the death of the
   Mac's process, is finished by the next reconciliation: the phone's file ends up `Ready` regardless.
   */
  lemma InterruptedCompletionIsPublished(sha: Sha256, upload: UploadId, job: Job, s: State, events: seq<Event>,
                                         materials: UploadId -> MaterialId)
    requires Fresh(sha, upload, job, s) && Legal(sha, upload, job, s, events)
    requires (var disk := After(sha, upload, job, s, events).world.disk;
              && FreshMaterials(disk, disk.order, materials)
              && Known(disk, upload)
              && disk.rows[upload].state in {Staged, HashVerified, Committed})
    ensures (var disk := After(sha, upload, job, s, events).world.disk;
             var (after, completed) := ReconcileAll(sha, disk, disk.order, materials);
             completed && Known(after, upload) && after.rows[upload].state == Ready)
  {
    hide DiskFilesOk, RowsOk, ReferencesOk, OneReferenceEach, BlobPathsOk, PcOk, PcFileOk, Settled, Destined;
    hide FreshMaterials, ReconcileAll, Legal, After, SessionOk;
    CompletionFindsTheFile(sha, upload, job, s, events);
    FreshStarts(sha, upload, job, s);
    RunKeepsTransfer(sha, upload, job, s, events);
    var disk := After(sha, upload, job, s, events).world.disk;
    ReconcileCompletes(sha, disk, disk.order, materials);
  }
}
