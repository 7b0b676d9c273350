/**
 What the database tables keep in every run, whatever happens to the files: the invariant `RowInv`
 survives every event, crashes and outside tampering included.
 */
module LibraryRows {
  import opened Bytes
  import opened MaterialFiles
  import opened UploadRecords
  import opened ChunkPacking
  import opened UploadGuards
  import opened LibraryDisk
  import opened LibrarySteps
  import opened LibraryWorld

  ghost predicate Full(state: UploadState) {
    state == Staged || state == HashVerified || state == Committed || state == Ready
  }

  ghost predicate ChunkTableOk(row: UploadRow, chunks: seq<ChunkRow>) {
    && Packed(chunks, row.expected)
    && DistinctIndices(chunks)
    && row.ackEpoch == |chunks|
    && row.received == Total(chunks)
    && (Full(row.state) ==> row.received == row.expected)
  }

  ghost predicate RowOk(disk: Disk, upload: UploadId)
    requires Known(disk, upload)
  {
    && ChunkTableOk(disk.rows[upload], disk.chunks[upload])
    && (disk.rows[upload].state == Ready <==> Referenced(disk.references, upload))
  }

  ghost predicate ReferenceOk(disk: Disk, material: MaterialId)
    requires material in disk.references
  {
    var reference := disk.references[material];
    && reference.upload in disk.rows
    && reference.sha == disk.rows[reference.upload].sha
    && reference.target == disk.rows[reference.upload].target
    && reference.sha in disk.blobs
  }

  /** The rows come back in insertion order, each once. */
  ghost predicate OrderOk(order: seq<UploadId>, uploads: set<UploadId>) {
    && (forall u :: u in order <==> u in uploads)
    && (forall i, j :: 0 <= i < j < |order| ==> order[i] != order[j])
  }

  ghost predicate KeysOk(disk: Disk) {
    disk.rows.Keys == disk.chunks.Keys && OrderOk(disk.order, disk.rows.Keys)
  }

  ghost predicate RowsOk(disk: Disk)
    requires KeysOk(disk)
  {
    forall u :: u in disk.rows ==> RowOk(disk, u)
  }

  ghost predicate ReferencesOk(disk: Disk) {
    forall m :: m in disk.references ==> ReferenceOk(disk, m)
  }

  ghost predicate OneReferenceEach(disk: Disk) {
    forall m, n | m in disk.references && n in disk.references ::
      disk.references[m].upload == disk.references[n].upload ==> m == n
  }

  ghost predicate BlobPathsOk(disk: Disk) {
    forall s :: s in disk.blobs ==> disk.blobs[s].path == BlobPath(s)
  }

  ghost predicate TablesOk(disk: Disk) {
    KeysOk(disk) && RowsOk(disk) && ReferencesOk(disk) && OneReferenceEach(disk) && BlobPathsOk(disk)
  }

  /** Where an operation may stand, given the row it works on. */
  ghost predicate PcOk(sha: Sha256, disk: Disk, upload: UploadId, pc: Pc)
    requires Known(disk, upload)
  {
    var row := disk.rows[upload];
    match pc
    case Finished(_) => true
    case Mirror(manifest, next) => manifest == ManifestOf(disk, upload) && PcOk(sha, disk, upload, next)
    case WriteChunk(input, written) =>
      JudgeAppend(sha, row, disk.chunks[upload], input) == Accepted && written <= |input.bytes|
    case PersistChunk(input) => JudgeAppend(sha, row, disk.chunks[upload], input) == Accepted
    case DropStaging => row.state == Cancelled
    case HashStaged => row.state == Staged
    case StagedHashed(_) => row.state == Staged
    case ProbeStaged => row.state == Staged
    case FindBlob => row.state == HashVerified
    case ProbeBlob(path) => row.state == HashVerified && row.sha in disk.blobs && path == BlobPath(row.sha)
    case ProbeStagingCopy(path) => row.state == HashVerified && row.sha in disk.blobs && path == BlobPath(row.sha)
    case RemoveStagingCopy(path) => row.state == HashVerified && row.sha in disk.blobs && path == BlobPath(row.sha)
    case ProbeStaging => row.state == HashVerified
    case MoveStaging => row.state == HashVerified
    case ProbeVerified => row.state == HashVerified
    case HashVerifiedStaging => row.state == HashVerified
    case ProbeOrphanBlob => row.state == HashVerified
    case RecordRecovered => row.state == HashVerified
    case RecordCommitted(path, createBlob) => row.state == HashVerified && TargetOk(disk, row.sha, path, createBlob)
    case ProbeFinal(path, createBlob) => row.state == Committed && TargetOk(disk, row.sha, path, createBlob)
    case HashFinal(path, createBlob) => row.state == Committed && TargetOk(disk, row.sha, path, createBlob)
    case PublishReference(path, createBlob) => row.state == Committed && TargetOk(disk, row.sha, path, createBlob)
    case DecideRecovered => row.state == Committed
    case DecideCommitted => row.state == Committed
    case MarkError(_) => row.state in {Transferring, Staged, HashVerified, Committed}
    case ProbeTransferring => row.state == Transferring
    case CleanCancelled => row.state == Cancelled
  }

  ghost predicate TargetOk(disk: Disk, sha: Hash, path: Path, createBlob: bool) {
    path == BlobPath(sha) && (!createBlob ==> sha in disk.blobs)
  }

  ghost predicate RowInv(sha: Sha256, world: World) {
    && TablesOk(world.disk)
    && (forall u :: u in world.running ==>
          u in world.disk.rows && !world.running[u].Finished? && PcOk(sha, world.disk, u, world.running[u]))
    && (world.creation.Opened? ==> world.creation.upload !in world.disk.rows)
  }

  // How one operation's turn may change the tables

  /** Only the row of `upload` changed; the blob table only grew. */
  ghost predicate OnlyTouches(before: Disk, after: Disk, upload: UploadId) {
    && before.order == after.order
    && before.rows.Keys == after.rows.Keys
    && before.chunks.Keys == after.chunks.Keys
    && (forall v :: v in before.rows && v != upload ==> after.rows[v] == before.rows[v])
    && (forall v :: v in before.chunks && v != upload ==> after.chunks[v] == before.chunks[v])
    && (forall s :: s in before.blobs ==> s in after.blobs && after.blobs[s] == before.blobs[s])
  }

  ghost predicate SameTables(before: Disk, after: Disk) {
    && before.order == after.order
    && before.rows == after.rows
    && before.chunks == after.chunks
    && before.blobs == after.blobs
    && before.references == after.references
  }

  lemma {:induction false} PcOkFrame(sha: Sha256, before: Disk, after: Disk, upload: UploadId, pc: Pc)
    requires Known(before, upload) && Known(after, upload)
    requires before.rows[upload] == after.rows[upload] && before.chunks[upload] == after.chunks[upload]
    requires forall s :: s in before.blobs ==> s in after.blobs
    requires PcOk(sha, before, upload, pc)
    ensures PcOk(sha, after, upload, pc)
  {
    if pc.Mirror? {
      PcOkFrame(sha, before, after, upload, pc.next);
    }
  }

  lemma SameTablesOk(before: Disk, after: Disk)
    requires SameTables(before, after) && TablesOk(before)
    ensures TablesOk(after)
  {
    forall u | u in after.rows ensures RowOk(after, u) {
      assert RowOk(before, u);
    }
    forall m | m in after.references ensures ReferenceOk(after, m) {
      assert ReferenceOk(before, m);
    }
  }

  /** Replacing the row and chunks of an upload outside `Ready` keeps the tables consistent. */
  lemma ChangeRowTables(disk: Disk, after: Disk, upload: UploadId, row: UploadRow, chunks: seq<ChunkRow>)
    requires TablesOk(disk) && Known(disk, upload)
    requires after == disk.(rows := disk.rows[upload := row], chunks := disk.chunks[upload := chunks])
    requires disk.rows[upload].state != Ready && row.state != Ready
    requires row.sha == disk.rows[upload].sha && row.target == disk.rows[upload].target
    requires ChunkTableOk(row, chunks)
    ensures TablesOk(after) && OnlyTouches(disk, after, upload)
  {
    hide ChunkTableOk, OrderOk, Referenced;
    assert after.rows.Keys == disk.rows.Keys;
    forall u | u in after.rows ensures RowOk(after, u) {
      assert RowOk(disk, u);
    }
    forall m | m in after.references ensures ReferenceOk(after, m) {
      assert ReferenceOk(disk, m);
    }
  }

  lemma SetStateTables(disk: Disk, upload: UploadId, state: UploadState)
    requires TablesOk(disk) && Known(disk, upload)
    requires disk.rows[upload].state != Ready && state != Ready
    requires Full(state) ==> disk.rows[upload].received == disk.rows[upload].expected
    ensures TablesOk(SetState(disk, upload, state)) && OnlyTouches(disk, SetState(disk, upload, state), upload)
  {
    hide Packed, DistinctIndices;
    assert RowOk(disk, upload);
    assert disk.chunks[upload := disk.chunks[upload]] == disk.chunks;
    ChangeRowTables(disk, SetState(disk, upload, state), upload,
                    disk.rows[upload].(state := state), disk.chunks[upload]);
  }

  lemma AcceptedChunkTable(sha: Sha256, row: UploadRow, chunks: seq<ChunkRow>, input: AppendInput)
    requires ChunkTableOk(row, chunks) && JudgeAppend(sha, row, chunks, input) == Accepted
    ensures ChunkTableOk(row.(ackEpoch := row.ackEpoch + 1, received := row.received + |input.bytes|),
                         chunks + [RecordOf(input)])
    ensures row.state == Transferring
  {
    AcceptedStaysPacked(sha, row, chunks, input);
    TotalAppend(chunks, RecordOf(input));
  }

  lemma InsertChunkTables(sha: Sha256, disk: Disk, upload: UploadId, input: AppendInput)
    requires TablesOk(disk) && Known(disk, upload)
    requires JudgeAppend(sha, disk.rows[upload], disk.chunks[upload], input) == Accepted
    ensures TablesOk(InsertChunk(disk, upload, RecordOf(input)))
    ensures OnlyTouches(disk, InsertChunk(disk, upload, RecordOf(input)), upload)
  {
    hide ChunkTableOk, JudgeAppend;
    assert RowOk(disk, upload);
    var row := disk.rows[upload];
    AcceptedChunkTable(sha, row, disk.chunks[upload], input);
    ChangeRowTables(disk, InsertChunk(disk, upload, RecordOf(input)), upload,
                    row.(ackEpoch := row.ackEpoch + 1, received := row.received + |input.bytes|),
                    disk.chunks[upload] + [RecordOf(input)]);
  }

  lemma PublishReferences(disk: Disk, upload: UploadId, path: Path, createBlob: bool, material: MaterialId)
    requires Known(disk, upload) && ReferencesOk(disk) && OneReferenceEach(disk)
    requires TargetOk(disk, disk.rows[upload].sha, path, createBlob)
    requires !PublishBlocked(disk, upload, createBlob, material)
    ensures ReferencesOk(Publish(disk, upload, path, createBlob, material))
    ensures OneReferenceEach(Publish(disk, upload, path, createBlob, material))
  {
    var after := Publish(disk, upload, path, createBlob, material);
    forall m | m in after.references ensures ReferenceOk(after, m) {
      if m != material {
        assert ReferenceOk(disk, m);
      }
    }
  }

  lemma ChunkTableIgnoresReady(row: UploadRow, chunks: seq<ChunkRow>)
    requires row.state == Committed
    ensures ChunkTableOk(row, chunks) ==> ChunkTableOk(row.(state := Ready), chunks)
  {
  }

  lemma PublishRows(disk: Disk, upload: UploadId, path: Path, createBlob: bool, material: MaterialId)
    requires KeysOk(disk) && RowsOk(disk) && upload in disk.rows
    requires disk.rows[upload].state == Committed
    requires !PublishBlocked(disk, upload, createBlob, material)
    ensures KeysOk(Publish(disk, upload, path, createBlob, material))
    ensures RowsOk(Publish(disk, upload, path, createBlob, material))
  {
    hide ChunkTableOk, OrderOk;
    var after := Publish(disk, upload, path, createBlob, material);
    assert after.rows.Keys == disk.rows.Keys;
    ChunkTableIgnoresReady(disk.rows[upload], disk.chunks[upload]);
    assert RowOk(disk, upload);
    forall u | u in after.rows ensures RowOk(after, u) {
      assert RowOk(disk, u);
      assert after.references[material].upload == upload;
      assert Referenced(after.references, u) <==> Referenced(disk.references, u) || u == upload by {
        if Referenced(disk.references, u) {
          var m :| m in disk.references && disk.references[m].upload == u;
          assert m in after.references && after.references[m].upload == u;
        }
      }
    }
  }

  lemma PublishTables(disk: Disk, upload: UploadId, path: Path, createBlob: bool, material: MaterialId)
    requires TablesOk(disk) && Known(disk, upload)
    requires disk.rows[upload].state == Committed
    requires TargetOk(disk, disk.rows[upload].sha, path, createBlob)
    requires !PublishBlocked(disk, upload, createBlob, material)
    ensures TablesOk(Publish(disk, upload, path, createBlob, material))
    ensures OnlyTouches(disk, Publish(disk, upload, path, createBlob, material), upload)
  {
    hide RowOk, ReferenceOk, OrderOk;
    PublishRows(disk, upload, path, createBlob, material);
    PublishReferences(disk, upload, path, createBlob, material);
  }

  lemma InsertUploadTables(disk: Disk, upload: UploadId, row: UploadRow)
    requires TablesOk(disk) && upload !in disk.rows
    requires row.state == Transferring && row.ackEpoch == 0 && row.received == 0
    ensures TablesOk(InsertUpload(disk, upload, row))
  {
    var after := InsertUpload(disk, upload, row);
    forall u | u in after.rows ensures RowOk(after, u) {
      if u == upload {
        assert !Referenced(disk.references, u) by {
          assert forall m :: m in disk.references ==> ReferenceOk(disk, m);
        }
        assert !Referenced(after.references, u);
      } else {
        assert RowOk(disk, u);
        assert Referenced(disk.references, u) <==> Referenced(after.references, u);
      }
    }
    forall m | m in after.references ensures ReferenceOk(after, m) {
      assert ReferenceOk(disk, m);
    }
  }

  // One turn

  lemma FullRow(disk: Disk, upload: UploadId)
    requires TablesOk(disk) && Known(disk, upload)
    ensures Full(disk.rows[upload].state) ==> disk.rows[upload].received == disk.rows[upload].expected
  {
    assert RowOk(disk, upload);
  }

  lemma EnterTables(disk: Disk, upload: UploadId, state: UploadState, next: Pc)
    requires TablesOk(disk) && Known(disk, upload)
    requires disk.rows[upload].state != Ready && state != Ready
    requires Full(state) ==> disk.rows[upload].received == disk.rows[upload].expected
    ensures var (after, pc) := Enter(disk, upload, state, next);
            TablesOk(after) && OnlyTouches(disk, after, upload)
  {
    SetStateTables(disk, upload, state);
  }

  predicate WritesTables(pc: Pc) {
    || pc.PersistChunk? || pc.StagedHashed? || pc.RecordCommitted? || pc.RecordRecovered?
    || pc.PublishReference? || pc.MarkError?
  }

  predicate WritesFiles(pc: Pc) {
    pc.WriteChunk? || pc.DropStaging? || pc.RemoveStagingCopy? || pc.MoveStaging? || pc.CleanCancelled?
  }

  lemma FileChangeTurn(sha: Sha256, disk: Disk, upload: UploadId, pc: Pc, wrote: nat, material: MaterialId)
    requires Known(disk, upload) && PcOk(sha, disk, upload, pc) && WritesFiles(pc)
    ensures var (after, next) := Advance(sha, disk, upload, pc, wrote, material);
            SameTables(disk, after) && PcOk(sha, after, upload, next)
  {
    hide JudgeAppend, Write, Sync;
  }

  lemma LookTurn(sha: Sha256, disk: Disk, upload: UploadId, pc: Pc, wrote: nat, material: MaterialId)
    requires BlobPathsOk(disk) && Known(disk, upload) && PcOk(sha, disk, upload, pc)
    requires !WritesTables(pc) && !WritesFiles(pc) && !pc.Mirror?
    ensures var (after, next) := Advance(sha, disk, upload, pc, wrote, material);
            after == disk && PcOk(sha, disk, upload, next)
  {
    hide JudgeAppend, AdvanceWrite, PublishBlocked, Publish, MoveFile, RemoveFile, InsertChunk, SetState, SaveManifest;
    hide WriteFile, SyncFile;
  }

  /** The turns that only look at files or change them. */
  lemma QuietTurn(sha: Sha256, disk: Disk, upload: UploadId, pc: Pc, wrote: nat, material: MaterialId)
    requires BlobPathsOk(disk) && Known(disk, upload) && PcOk(sha, disk, upload, pc)
    requires !WritesTables(pc) && !pc.Mirror?
    ensures var (after, next) := Advance(sha, disk, upload, pc, wrote, material);
            SameTables(disk, after) && PcOk(sha, after, upload, next)
  {
    hide Advance, PcOk, BlobPathsOk;
    if WritesFiles(pc) {
      FileChangeTurn(sha, disk, upload, pc, wrote, material);
    } else {
      LookTurn(sha, disk, upload, pc, wrote, material);
    }
  }

  lemma TableTurnPc(sha: Sha256, disk: Disk, upload: UploadId, pc: Pc, wrote: nat, material: MaterialId)
    requires Known(disk, upload) && PcOk(sha, disk, upload, pc) && WritesTables(pc)
    ensures var (after, next) := Advance(sha, disk, upload, pc, wrote, material);
            Known(after, upload) && PcOk(sha, after, upload, next)
  {
    hide JudgeAppend, PublishBlocked, AdvanceWrite, MoveFile, RemoveFile;
    if pc.PublishReference? {
      PublishTurnPc(sha, disk, upload, pc, wrote, material);
    }
  }

  lemma PublishTurnPc(sha: Sha256, disk: Disk, upload: UploadId, pc: Pc, wrote: nat, material: MaterialId)
    requires Known(disk, upload) && pc.PublishReference?
    ensures var (after, next) := Advance(sha, disk, upload, pc, wrote, material);
            Known(after, upload) && PcOk(sha, after, upload, next)
  {
    hide PublishBlocked;
  }

  lemma TableTurn(sha: Sha256, disk: Disk, upload: UploadId, pc: Pc, wrote: nat, material: MaterialId)
    requires TablesOk(disk) && Known(disk, upload) && PcOk(sha, disk, upload, pc)
    requires WritesTables(pc)
    ensures var after := Advance(sha, disk, upload, pc, wrote, material).0;
            TablesOk(after) && OnlyTouches(disk, after, upload)
  {
    hide TablesOk, OnlyTouches, JudgeAppend, Publish, PublishBlocked, InsertChunk, SetState;
    FullRow(disk, upload);
    OnlyTouchesItself(disk, upload);
    match pc {
      case PersistChunk(input) =>
        InsertChunkTables(sha, disk, upload, input);
      case StagedHashed(hash) =>
        if hash == disk.rows[upload].sha {
          EnterTables(disk, upload, HashVerified, FindBlob);
        }
      case RecordCommitted(path, createBlob) =>
        EnterTables(disk, upload, Committed, ProbeFinal(path, createBlob));
      case RecordRecovered =>
        EnterTables(disk, upload, Committed, DecideRecovered);
      case MarkError(reason) =>
        EnterTables(disk, upload, RecoverableError, Finished(Failed(reason)));
      case PublishReference(path, createBlob) =>
        if !PublishBlocked(disk, upload, createBlob, material) {
          PublishTables(disk, upload, path, createBlob, material);
        }
    }
  }

  lemma OnlyTouchesItself(disk: Disk, upload: UploadId)
    ensures OnlyTouches(disk, disk, upload)
  {
  }

  /** Every turn keeps the tables consistent and leaves the operation where it may stand. */
  lemma AdvanceRows(sha: Sha256, disk: Disk, upload: UploadId, pc: Pc, wrote: nat, material: MaterialId)
    requires TablesOk(disk) && Known(disk, upload) && PcOk(sha, disk, upload, pc)
    ensures var (after, next) := Advance(sha, disk, upload, pc, wrote, material);
            TablesOk(after) && OnlyTouches(disk, after, upload) && Known(after, upload) && PcOk(sha, after, upload, next)
  {
    hide RowOk, ReferenceOk, OrderOk, JudgeAppend, Publish, PublishBlocked, InsertChunk, SetState;
    var (after, next) := Advance(sha, disk, upload, pc, wrote, material);
    if WritesTables(pc) {
      TableTurn(sha, disk, upload, pc, wrote, material);
      TableTurnPc(sha, disk, upload, pc, wrote, material);
    } else if pc.Mirror? {
      SameTablesOk(disk, after);
      PcOkFrame(sha, disk, after, upload, pc.next);
    } else {
      QuietTurn(sha, disk, upload, pc, wrote, material);
      SameTablesOk(disk, after);
    }
  }

  lemma StartPcs(sha: Sha256, disk: Disk, upload: UploadId, input: AppendInput)
    requires Known(disk, upload)
    ensures PcOk(sha, disk, upload, BeginAppend(sha, disk, upload, input))
    ensures PcOk(sha, disk, upload, BeginReconcile(disk, upload))
  {
    hide JudgeAppend;
  }

  lemma StartCompleteRows(sha: Sha256, disk: Disk, upload: UploadId)
    requires TablesOk(disk)
    ensures var (after, pc) := BeginComplete(disk, upload);
            TablesOk(after) && OnlyTouches(disk, after, upload)
            && (Known(disk, upload) ==> Known(after, upload) && PcOk(sha, after, upload, pc))
  {
    hide TablesOk;
    if Known(disk, upload) && disk.rows[upload].state == Transferring {
      FullRow(disk, upload);
      if disk.rows[upload].received == disk.rows[upload].expected {
        EnterTables(disk, upload, Staged, HashStaged);
      }
    }
  }

  lemma StartCancelRows(sha: Sha256, disk: Disk, upload: UploadId)
    requires TablesOk(disk)
    ensures var (after, pc) := BeginCancel(disk, upload);
            TablesOk(after) && OnlyTouches(disk, after, upload)
            && (Known(disk, upload) ==> Known(after, upload) && PcOk(sha, after, upload, pc))
  {
    hide TablesOk;
    if Known(disk, upload) && disk.rows[upload].state == Transferring {
      EnterTables(disk, upload, Cancelled, DropStaging);
    }
  }

  lemma StartRows(sha: Sha256, disk: Disk, upload: UploadId, input: AppendInput)
    requires TablesOk(disk)
    ensures Known(disk, upload) ==> PcOk(sha, disk, upload, BeginAppend(sha, disk, upload, input))
    ensures Known(disk, upload) ==> PcOk(sha, disk, upload, BeginReconcile(disk, upload))
    ensures var (after, pc) := BeginComplete(disk, upload);
            TablesOk(after) && OnlyTouches(disk, after, upload)
            && (Known(disk, upload) ==> Known(after, upload) && PcOk(sha, after, upload, pc))
    ensures var (after, pc) := BeginCancel(disk, upload);
            TablesOk(after) && OnlyTouches(disk, after, upload)
            && (Known(disk, upload) ==> Known(after, upload) && PcOk(sha, after, upload, pc))
  {
    hide *;
    StartCompleteRows(sha, disk, upload);
    StartCancelRows(sha, disk, upload);
    if Known(disk, upload) {
      StartPcs(sha, disk, upload, input);
    }
  }

  lemma UnknownFinishes(sha: Sha256, disk: Disk, upload: UploadId, input: AppendInput)
    ensures !Known(disk, upload) ==>
              && BeginAppend(sha, disk, upload, input).Finished?
              && BeginComplete(disk, upload).1.Finished?
              && BeginCancel(disk, upload).1.Finished?
  {
  }

  /** A change confined to one upload, followed by resuming its operation, keeps the invariant. */
  lemma ResumeRows(sha: Sha256, world: World, after: Disk, upload: UploadId, pc: Pc)
    requires RowInv(sha, world)
    requires TablesOk(after) && OnlyTouches(world.disk, after, upload)
    requires !pc.Finished? ==> Known(after, upload) && PcOk(sha, after, upload, pc)
    ensures RowInv(sha, world.(disk := after, running := Resume(world.running, upload, pc)))
  {
    hide OrderOk, RowsOk, ReferencesOk, OneReferenceEach, BlobPathsOk;
    var running := Resume(world.running, upload, pc);
    forall u | u in running
      ensures u in after.rows && !running[u].Finished? && PcOk(sha, after, u, running[u])
    {
      if u != upload {
        PcOkFrame(sha, world.disk, after, u, running[u]);
      }
    }
  }

  /** Events that leave every table alone keep the invariant for whatever still runs. */
  lemma KeepRows(sha: Sha256, world: World, next: World)
    requires RowInv(sha, world) && SameTables(world.disk, next.disk)
    requires forall u :: u in next.running ==> u in world.running && next.running[u] == world.running[u]
    requires next.creation.Opened? ==> next.creation.upload !in world.disk.rows
    ensures RowInv(sha, next)
  {
    hide OrderOk, RowsOk, ReferencesOk, OneReferenceEach, BlobPathsOk;
    SameTablesOk(world.disk, next.disk);
    forall u | u in next.running ensures PcOk(sha, next.disk, u, next.running[u]) {
      PcOkFrame(sha, world.disk, next.disk, u, next.running[u]);
    }
  }

  lemma InsertCreatedRows(sha: Sha256, world: World)
    requires RowInv(sha, world) && world.creation.Opened?
    ensures RowInv(sha, Apply(sha, world, InsertCreated))
  {
    hide OrderOk, RowsOk, ReferencesOk, OneReferenceEach, BlobPathsOk;
    var Opened(request, upload) := world.creation;
    var row := UploadRow(request.expected, request.sha, request.target, Transferring, 0, 0);
    var next := Apply(sha, world, InsertCreated);
    InsertUploadTables(world.disk, upload, row);
    forall u | u in next.running ensures PcOk(sha, next.disk, u, next.running[u]) {
      if u != upload {
        PcOkFrame(sha, world.disk, next.disk, u, next.running[u]);
      }
    }
  }

  lemma ApplyRows(sha: Sha256, world: World, event: Event)
    requires RowInv(sha, world) && Enabled(sha, world, event)
    ensures RowInv(sha, Apply(sha, world, event))
  {
    hide TablesOk, PcOk, OnlyTouches, Advance, BeginAppend, BeginComplete, BeginCancel, BeginReconcile, FreeAfter;
    var disk := world.disk;
    match event {
      case StartAppend(upload, input) =>
        StartRows(sha, disk, upload, input);
        OnlyTouchesItself(disk, upload);
        UnknownFinishes(sha, disk, upload, input);
        ResumeRows(sha, world, disk, upload, BeginAppend(sha, disk, upload, input));
      case StartComplete(upload) =>
        StartRows(sha, disk, upload, AppendInput(0, 0, [], ""));
        UnknownFinishes(sha, disk, upload, AppendInput(0, 0, [], ""));
        ResumeRows(sha, world, BeginComplete(disk, upload).0, upload, BeginComplete(disk, upload).1);
      case StartCancel(upload) =>
        StartRows(sha, disk, upload, AppendInput(0, 0, [], ""));
        UnknownFinishes(sha, disk, upload, AppendInput(0, 0, [], ""));
        ResumeRows(sha, world, BeginCancel(disk, upload).0, upload, BeginCancel(disk, upload).1);
      case StartReconcile(upload) =>
        StartRows(sha, disk, upload, AppendInput(0, 0, [], ""));
        OnlyTouchesItself(disk, upload);
        ResumeRows(sha, world, disk, upload, BeginReconcile(disk, upload));
      case Turn(upload, wrote, material) =>
        var pc := world.running[upload];
        AdvanceRows(sha, disk, upload, pc, wrote, material);
        var (after, next) := Advance(sha, disk, upload, pc, wrote, material);
        ResumeRows(sha, world, after, upload, next);
      case InsertCreated =>
        InsertCreatedRows(sha, world);
      case _ =>
        KeepRows(sha, world, Apply(sha, world, event));
    }
  }

  /** The database half of library safety, in every run, with crashes and tampering at any point. */
  lemma {:induction false} RunKeepsRows(sha: Sha256, world: World, events: seq<Event>)
    requires RowInv(sha, world) && Legal(sha, world, events)
    ensures RowInv(sha, After(sha, world, events))
    decreases |events|
  {
    if events != [] {
      ApplyRows(sha, world, events[0]);
      RunKeepsRows(sha, Apply(sha, world, events[0]), events[1..]);
    }
  }
}
