/**
 How an upload's state and its acknowledged chunks may move over a run. `setUploadState` has no guard
 of its own: the state graph is a property of the operations and of their one-at-a-time queue.
 */
module LibraryStates {
  import opened Bytes
  import opened UploadRecords
  import opened ChunkPacking
  import opened UploadGuards
  import opened LibraryDisk
  import opened LibrarySteps
  import opened LibraryWorld
  import opened LibraryRows

  predicate Edge(from: UploadState, to: UploadState) {
    match from
    case Transferring => to == Staged || to == Cancelled || to == RecoverableError
    case Staged => to == HashVerified || to == RecoverableError
    case HashVerified => to == Committed || to == RecoverableError
    case Committed => to == Ready || to == RecoverableError
    case _ => false
  }

  /** `to` lies on some path of the graph that starts at `from`. */
  predicate Leads(from: UploadState, to: UploadState) {
    || from == to
    || (from.Transferring? && to in {Staged, HashVerified, Committed, Ready, RecoverableError, Cancelled})
    || (from.Staged? && to in {HashVerified, Committed, Ready, RecoverableError})
    || (from.HashVerified? && to in {Committed, Ready, RecoverableError})
    || (from.Committed? && to in {Ready, RecoverableError})
  }

  /** `Leads` is exactly what following edges gives. */
  lemma LeadsFollowsEdges(from: UploadState, middle: UploadState, to: UploadState)
    ensures Leads(from, from)
    ensures Leads(from, middle) && Edge(middle, to) ==> Leads(from, to)
    ensures Leads(from, to) && from != to ==> exists via :: Leads(from, via) && Edge(via, to)
  {
    if Leads(from, to) && from != to {
      var via := if Edge(from, to) then from
                 else if to == HashVerified then Staged
                 else if to == Committed then HashVerified
                 else Committed;
      assert Leads(from, via) && Edge(via, to);
    }
  }

  /** One event moves a row at most one edge, keeps its identity and only appends to its chunk table. */
  ghost predicate RowMoves(before: Disk, after: Disk, upload: UploadId)
    requires Known(before, upload)
  {
    && Known(after, upload)
    && (var old_, new_ := before.rows[upload], after.rows[upload];
        && (old_.state == new_.state || Edge(old_.state, new_.state))
        && old_.expected == new_.expected && old_.sha == new_.sha && old_.target == new_.target
        && old_.ackEpoch <= new_.ackEpoch && old_.received <= new_.received)
    && before.chunks[upload] <= after.chunks[upload]
    && (before.rows[upload].state != Transferring ==> before.chunks[upload] == after.chunks[upload])
  }

  lemma AdvanceMoves(sha: Sha256, disk: Disk, upload: UploadId, pc: Pc, wrote: nat, material: MaterialId)
    requires Known(disk, upload) && PcOk(sha, disk, upload, pc)
    ensures RowMoves(disk, Advance(sha, disk, upload, pc, wrote, material).0, upload)
  {
    hide Advance, PcOk;
    if WritesTables(pc) {
      TableTurnMoves(sha, disk, upload, pc, wrote, material);
    } else {
      OtherRowsStay(sha, disk, upload, pc, wrote, material);
    }
  }

  lemma TableTurnMoves(sha: Sha256, disk: Disk, upload: UploadId, pc: Pc, wrote: nat, material: MaterialId)
    requires Known(disk, upload) && PcOk(sha, disk, upload, pc) && WritesTables(pc)
    ensures RowMoves(disk, Advance(sha, disk, upload, pc, wrote, material).0, upload)
  {
    hide JudgeAppend, PublishBlocked, AdvanceWrite, MoveFile, RemoveFile;
    if pc.PersistChunk? {
      AcceptedTransferring(sha, disk.rows[upload], disk.chunks[upload], pc.input);
    }
  }

  lemma OtherRowsStay(sha: Sha256, disk: Disk, upload: UploadId, pc: Pc, wrote: nat, material: MaterialId)
    requires Known(disk, upload) && !WritesTables(pc)
    ensures var after := Advance(sha, disk, upload, pc, wrote, material).0;
            after.rows == disk.rows && after.chunks == disk.chunks
  {
    hide JudgeAppend, PublishBlocked;
  }

  lemma AcceptedTransferring(sha: Sha256, row: UploadRow, chunks: seq<ChunkRow>, input: AppendInput)
    requires JudgeAppend(sha, row, chunks, input) == Accepted
    ensures row.state == Transferring
  {
  }

  lemma BeginMoves(disk: Disk, upload: UploadId)
    requires Known(disk, upload)
    ensures RowMoves(disk, BeginComplete(disk, upload).0, upload)
    ensures RowMoves(disk, BeginCancel(disk, upload).0, upload)
  {
  }

  lemma UntouchedStays(before: Disk, after: Disk, upload: UploadId, other: UploadId)
    requires Known(before, upload) && OnlyTouches(before, after, other) && other != upload
    ensures RowMoves(before, after, upload)
  {
  }

  lemma ApplyMoves(sha: Sha256, world: World, event: Event, upload: UploadId)
    requires RowInv(sha, world) && Enabled(sha, world, event) && upload in world.disk.rows
    ensures Known(world.disk, upload)
    ensures RowMoves(world.disk, Apply(sha, world, event).disk, upload)
  {
    hide OrderOk, RowsOk, ReferencesOk, OneReferenceEach, BlobPathsOk;
    hide PcOk, Advance, BeginAppend, BeginComplete, BeginCancel, BeginReconcile, OnlyTouches, FreeAfter;
    var disk := world.disk;
    match event {
      case Turn(other, wrote, material) =>
        AdvanceRows(sha, disk, other, world.running[other], wrote, material);
        if other == upload {
          AdvanceMoves(sha, disk, upload, world.running[upload], wrote, material);
        } else {
          UntouchedStays(disk, Advance(sha, disk, other, world.running[other], wrote, material).0, upload, other);
        }
      case StartComplete(other) =>
        StartRows(sha, disk, other, AppendInput(0, 0, [], ""));
        if other == upload {
          BeginMoves(disk, upload);
        } else {
          UntouchedStays(disk, BeginComplete(disk, other).0, upload, other);
        }
      case StartCancel(other) =>
        StartRows(sha, disk, other, AppendInput(0, 0, [], ""));
        if other == upload {
          BeginMoves(disk, upload);
        } else {
          UntouchedStays(disk, BeginCancel(disk, other).0, upload, other);
        }
      case _ =>
    }
  }

  /**
   Over any run, crashes and tampering included: rows are never deleted, every state sequence is a path
   of the graph, so its last states are absorbing, and acknowledged chunks and counters never regress.
   */
  lemma {:induction false} RunMoves(sha: Sha256, world: World, events: seq<Event>, upload: UploadId)
    requires RowInv(sha, world) && Legal(sha, world, events) && upload in world.disk.rows
    ensures Known(world.disk, upload)
    ensures var last := After(sha, world, events).disk;
            && Known(last, upload)
            && Leads(world.disk.rows[upload].state, last.rows[upload].state)
            && world.disk.chunks[upload] <= last.chunks[upload]
            && world.disk.rows[upload].ackEpoch <= last.rows[upload].ackEpoch
            && world.disk.rows[upload].received <= last.rows[upload].received
            && world.disk.rows[upload].sha == last.rows[upload].sha
            && world.disk.rows[upload].expected == last.rows[upload].expected
    decreases |events|
  {
    hide TablesOk, PcOk, Apply, Enabled;
    KnownRow(sha, world, upload);
    if events != [] {
      ApplyMoves(sha, world, events[0], upload);
      ApplyRows(sha, world, events[0]);
      RunMoves(sha, Apply(sha, world, events[0]), events[1..], upload);
    }
  }

  lemma KnownRow(sha: Sha256, world: World, upload: UploadId)
    requires RowInv(sha, world) && upload in world.disk.rows
    ensures Known(world.disk, upload)
  {
  }

  /** Every row enters the table in transfer, with no chunks and zero counters, whatever event brings it in. */
  lemma NewRowsTransfer(sha: Sha256, world: World, event: Event, upload: UploadId)
    requires RowInv(sha, world) && Enabled(sha, world, event)
    requires upload !in world.disk.rows && upload in Apply(sha, world, event).disk.rows
    ensures (var disk := Apply(sha, world, event).disk;
             && disk.rows[upload].state == Transferring
             && disk.rows[upload].ackEpoch == 0 && disk.rows[upload].received == 0
             && upload in disk.chunks && disk.chunks[upload] == [])
  {
    hide OrderOk, RowsOk, ReferencesOk, OneReferenceEach, BlobPathsOk;
    hide PcOk, Advance, BeginAppend, BeginComplete, BeginCancel, BeginReconcile, OnlyTouches, FreeAfter;
    if event.Turn? {
      AdvanceRows(sha, world.disk, event.upload, world.running[event.upload], event.wrote, event.material);
      KeysStay(world.disk, Apply(sha, world, event).disk, event.upload);
    } else if event.StartComplete? || event.StartCancel? {
      StartRows(sha, world.disk, event.upload, AppendInput(0, 0, [], ""));
      KeysStay(world.disk, Apply(sha, world, event).disk, event.upload);
    }
  }

  lemma KeysStay(before: Disk, after: Disk, upload: UploadId)
    requires OnlyTouches(before, after, upload)
    ensures before.rows.Keys == after.rows.Keys
  {
  }

  lemma BeginRows(sha: Sha256, capacity: int)
    ensures RowInv(sha, Begin(capacity))
  {
  }

  /**
   In every run from an empty library, crashes, races and tampering included: an upload is `Ready` if
   and only if exactly one reference row names it; that row carries its hash and target, and its blob
   row exists at the hash's own path; the counters are those of a packed chunk table.
   */
  lemma ReadyIffOneReference(sha: Sha256, capacity: int, events: seq<Event>, upload: UploadId)
    requires Legal(sha, Begin(capacity), events)
    requires upload in After(sha, Begin(capacity), events).disk.rows
    ensures var disk := After(sha, Begin(capacity), events).disk;
            var row := disk.rows[upload];
            && (row.state == Ready <==> exists m :: m in disk.references && disk.references[m].upload == upload)
            && (forall m, n | m in disk.references && n in disk.references ::
                  disk.references[m].upload == upload && disk.references[n].upload == upload ==> m == n)
            && (row.state == Ready ==> row.sha in disk.blobs && disk.blobs[row.sha].path == BlobPath(row.sha))
            && (forall m :: m in disk.references && disk.references[m].upload == upload ==>
                  disk.references[m].sha == row.sha && disk.references[m].target == row.target)
  {
    BeginRows(sha, capacity);
    RunKeepsRows(sha, Begin(capacity), events);
    ReferencesOfRow(sha, After(sha, Begin(capacity), events), upload);
  }

  lemma ReferencesOfRow(sha: Sha256, world: World, upload: UploadId)
    requires RowInv(sha, world) && upload in world.disk.rows
    ensures var disk := world.disk;
            var row := disk.rows[upload];
            && (row.state == Ready <==> exists m :: m in disk.references && disk.references[m].upload == upload)
            && (forall m, n | m in disk.references && n in disk.references ::
                  disk.references[m].upload == upload && disk.references[n].upload == upload ==> m == n)
            && (row.state == Ready ==> row.sha in disk.blobs && disk.blobs[row.sha].path == BlobPath(row.sha))
            && (forall m :: m in disk.references && disk.references[m].upload == upload ==>
                  disk.references[m].sha == row.sha && disk.references[m].target == row.target)
  {
    hide OrderOk, ChunkTableOk, PcOk;
    var disk := world.disk;
    assert RowOk(disk, upload);
    forall m | m in disk.references && disk.references[m].upload == upload
      ensures disk.references[m].sha == disk.rows[upload].sha && disk.references[m].target == disk.rows[upload].target
      ensures disk.references[m].sha in disk.blobs
    {
      assert ReferenceOk(disk, m);
    }
  }

  /** The recorded chunks fill what the counters say, in every run, for any order of arrival. */
  lemma CountersMeasureCoverage(sha: Sha256, capacity: int, events: seq<Event>, upload: UploadId)
    requires Legal(sha, Begin(capacity), events)
    requires Known(After(sha, Begin(capacity), events).disk, upload)
    ensures var disk := After(sha, Begin(capacity), events).disk;
            var row, chunks := disk.rows[upload], disk.chunks[upload];
            && row.ackEpoch == |chunks|
            && row.received == Total(chunks) <= row.expected
            && (row.received == row.expected <==>
                forall position :: 0 <= position < row.expected ==> Covers(chunks, position))
  {
    BeginRows(sha, capacity);
    RunKeepsRows(sha, Begin(capacity), events);
    var disk := After(sha, Begin(capacity), events).disk;
    assert RowOk(disk, upload);
    TotalMeasuresCoverage(disk.chunks[upload], disk.rows[upload].expected);
  }
}
