/**
 What the files keep in every run without outside tampering: acknowledged bytes are on stable storage,
 every published blob hashes to its name, and no verified upload is ever without its bytes.
 */
module LibraryFiles {
  import opened Bytes
  import opened MaterialFiles
  import opened UploadRecords
  import opened ChunkPacking
  import opened UploadGuards
  import opened LibraryDisk
  import opened LibrarySteps
  import opened LibraryWorld
  import opened LibraryRows
  import opened LibraryStates

  /** The chunk's bytes are durable in the staging file and hash to its checksum. */
  ghost predicate ChunkHeld(sha: Sha256, file: File, chunk: ChunkRow) {
    if chunk.size == 0 then
      sha([]) == chunk.checksum
    else
      && 0 <= chunk.offset
      && Held(file, chunk.offset, chunk.offset + chunk.size)
      && sha(file.bytes[chunk.offset..chunk.offset + chunk.size]) == chunk.checksum
  }

  ghost predicate ChunksHeld(sha: Sha256, file: File, chunks: seq<ChunkRow>) {
    forall c :: c in chunks ==> ChunkHeld(sha, file, c)
  }

  /** The file hashes to `hash` and a crash cannot change it. */
  ghost predicate Verified(sha: Sha256, file: File, hash: Hash) {
    Stable(file) && sha(file.bytes) == hash
  }

  ghost predicate StagingOk(sha: Sha256, row: UploadRow, chunks: seq<ChunkRow>, file: File) {
    ChunksHeld(sha, file, chunks) && |file.bytes| <= row.expected
  }

  ghost predicate FileOk(sha: Sha256, disk: Disk, upload: UploadId)
    requires Known(disk, upload)
  {
    var row, staging := disk.rows[upload], StagingPath(upload);
    match row.state
    case Transferring => staging in disk.files && StagingOk(sha, row, disk.chunks[upload], disk.files[staging])
    case Staged => staging in disk.files && StagingOk(sha, row, disk.chunks[upload], disk.files[staging])
    case HashVerified =>
      && (staging in disk.files ==> Verified(sha, disk.files[staging], row.sha))
      && (staging in disk.files || BlobPath(row.sha) in disk.files)
    case Committed => BlobPath(row.sha) in disk.files
    case Ready => BlobPath(row.sha) in disk.files
    case _ => true
  }

  ghost predicate PrefixWritten(file: File, input: AppendInput, written: nat) {
    && 0 <= input.offset && written <= |input.bytes|
    && input.offset + written <= |file.bytes|
    && file.bytes[input.offset..input.offset + written] == input.bytes[..written]
  }

  ghost predicate PcFileOk(sha: Sha256, disk: Disk, upload: UploadId, pc: Pc)
    requires Known(disk, upload)
  {
    var row, staging := disk.rows[upload], StagingPath(upload);
    match pc
    case Mirror(_, next) => PcFileOk(sha, disk, upload, next)
    case WriteChunk(input, written) =>
      0 < written ==> staging in disk.files && PrefixWritten(disk.files[staging], input, written)
    case PersistChunk(input) => staging in disk.files && ChunkHeld(sha, disk.files[staging], RecordOf(input))
    case StagedHashed(hash) => staging in disk.files && hash == sha(disk.files[staging].bytes)
    case FindBlob => staging in disk.files
    case ProbeBlob(_) => staging in disk.files
    case ProbeStagingCopy(_) => staging in disk.files
    case ProbeStaging => staging in disk.files
    case MoveStaging => staging in disk.files
    case HashVerifiedStaging => staging in disk.files
    case RecordCommitted(_, _) => BlobPath(row.sha) in disk.files
    case RecordRecovered => BlobPath(row.sha) in disk.files
    case ProbeOrphanBlob => staging !in disk.files
    case MarkError(_) => row.state == Staged && staging in disk.files && sha(disk.files[staging].bytes) != row.sha
    case _ => true
  }

  ghost predicate BlobFilesOk(sha: Sha256, disk: Disk) {
    && (forall s :: BlobPath(s) in disk.files ==> Verified(sha, disk.files[BlobPath(s)], s))
    && (forall s :: s in disk.blobs ==> BlobPath(s) in disk.files)
  }

  ghost predicate DiskFilesOk(sha: Sha256, disk: Disk) {
    && Durable(disk)
    && BlobFilesOk(sha, disk)
    && (forall u :: u in disk.rows && u in disk.chunks ==> FileOk(sha, disk, u))
  }

  ghost predicate FileInv(sha: Sha256, world: World) {
    && DiskFilesOk(sha, world.disk)
    && (forall u :: u in world.running && Known(world.disk, u) ==> PcFileOk(sha, world.disk, u, world.running[u]))
    && (world.creation.Opened? ==>
          && StagingPath(world.creation.upload) in world.disk.files
          && world.disk.files[StagingPath(world.creation.upload)] == EMPTY_FILE)
  }

  // From held chunks to a stable, complete file

  lemma CoveredIsHeld(sha: Sha256, file: File, chunks: seq<ChunkRow>, position: int)
    requires ChunksHeld(sha, file, chunks) && Covers(chunks, position)
    ensures 0 <= position < file.durable <= |file.bytes| && position !in file.dirty
  {
    var c :| c in chunks && Spans(c, position);
    assert ChunkHeld(sha, file, c);
  }

  /** Once the running total reaches the expected size, the staging file is complete and crash-proof. */
  lemma FullStagingIsStable(sha: Sha256, row: UploadRow, chunks: seq<ChunkRow>, file: File)
    requires ChunkTableOk(row, chunks) && StagingOk(sha, row, chunks, file)
    requires file.durable <= |file.bytes|
    requires row.received == row.expected
    ensures |file.bytes| == row.expected && Stable(file)
  {
    hide Packed, DistinctIndices, ChunkHeld;
    TotalMeasuresCoverage(chunks, row.expected);
    forall position | 0 <= position < row.expected
      ensures position < file.durable <= |file.bytes| && position !in file.dirty
    {
      CoveredIsHeld(sha, file, chunks, position);
    }
    if row.expected > 0 {
      CoveredIsHeld(sha, file, chunks, row.expected - 1);
    }
  }

  lemma TornStaging(sha: Sha256, row: UploadRow, chunks: seq<ChunkRow>, before: File, after: File)
    requires before.durable <= |before.bytes|
    requires StagingOk(sha, row, chunks, before) && Torn(before, after)
    ensures StagingOk(sha, row, chunks, after)
  {
    forall c | c in chunks ensures ChunkHeld(sha, after, c) {
      assert ChunkHeld(sha, before, c);
      if c.size > 0 {
        TornKeepsHeld(before, after, c.offset, c.offset + c.size);
      }
    }
  }

  /** Writing part of an accepted chunk leaves every recorded chunk held. */
  lemma WriteBesideChunks(sha: Sha256, row: UploadRow, chunks: seq<ChunkRow>, file: File,
                          input: AppendInput, from: nat, to: nat)
    requires StagingOk(sha, row, chunks, file)
    requires JudgeAppend(sha, row, chunks, input) == Accepted
    requires 0 <= from <= to <= |input.bytes| && 0 <= input.offset
    ensures StagingOk(sha, row, chunks, Write(file, input.offset + from, input.bytes[from..to]))
  {
    hide JudgeAppend, ChunkHeld, Write, Overlaps;
    AcceptedOverlapsNone(sha, row, chunks, input);
    forall c | c in chunks
      ensures ChunkHeld(sha, Write(file, input.offset + from, input.bytes[from..to]), c)
    {
      PieceKeepsChunkHeld(sha, file, c, input, from, to);
    }
    WrittenLength(file, input.offset + from, input.bytes[from..to]);
  }

  lemma PieceKeepsChunkHeld(sha: Sha256, file: File, chunk: ChunkRow, input: AppendInput, from: nat, to: nat)
    requires ChunkHeld(sha, file, chunk) && !Overlaps(input, chunk)
    requires from <= to <= |input.bytes| && 0 <= input.offset
    ensures ChunkHeld(sha, Write(file, input.offset + from, input.bytes[from..to]), chunk)
  {
    hide ChunkHeld, Write;
    WriteKeepsChunkHeld(sha, file, chunk, input.offset + from, input.bytes[from..to]);
  }

  lemma AcceptedOverlapsNone(sha: Sha256, row: UploadRow, chunks: seq<ChunkRow>, input: AppendInput)
    requires JudgeAppend(sha, row, chunks, input) == Accepted
    ensures input.offset + |input.bytes| <= row.expected
    ensures forall c :: c in chunks ==> !Overlaps(input, c)
  {
  }

  lemma WrittenLength(file: File, position: nat, part: seq<Byte>)
    ensures |Write(file, position, part).bytes| <= Max(|file.bytes|, position + |part|)
  {
  }

  lemma WriteKeepsChunkHeld(sha: Sha256, file: File, chunk: ChunkRow, position: nat, part: seq<Byte>)
    requires ChunkHeld(sha, file, chunk)
    requires position + |part| <= chunk.offset || chunk.offset + chunk.size <= position || chunk.size == 0
    ensures ChunkHeld(sha, Write(file, position, part), chunk)
  {
    if chunk.size > 0 {
      WriteKeepsHeld(file, position, part, chunk.offset, chunk.offset + chunk.size);
    }
  }

  lemma SyncKeepsChunks(sha: Sha256, chunks: seq<ChunkRow>, file: File)
    requires ChunksHeld(sha, file, chunks)
    ensures ChunksHeld(sha, Sync(file), chunks)
  {
    forall c | c in chunks ensures ChunkHeld(sha, Sync(file), c) {
      assert ChunkHeld(sha, file, c);
    }
  }

  // Frames

  /** Files of other uploads are as before; blob files were only added or replaced. */
  ghost predicate FilesTouch(before: Disk, after: Disk, upload: UploadId) {
    && (forall v :: v != upload ==>
          (StagingPath(v) in before.files <==> StagingPath(v) in after.files)
          && (StagingPath(v) in before.files ==> after.files[StagingPath(v)] == before.files[StagingPath(v)]))
    && (forall s :: BlobPath(s) in before.files ==> BlobPath(s) in after.files)
  }

  lemma FileOkFrame(sha: Sha256, before: Disk, after: Disk, upload: UploadId, other: UploadId)
    requires FilesTouch(before, after, other) && upload != other
    requires Known(before, upload) && Known(after, upload)
    requires before.rows[upload] == after.rows[upload] && before.chunks[upload] == after.chunks[upload]
    requires FileOk(sha, before, upload)
    ensures FileOk(sha, after, upload)
  {
    hide StagingOk, Verified;
  }

  lemma {:induction false} PcFileOkFrame(sha: Sha256, before: Disk, after: Disk, upload: UploadId, other: UploadId, pc: Pc)
    requires FilesTouch(before, after, other) && upload != other
    requires Known(before, upload) && Known(after, upload)
    requires before.rows[upload] == after.rows[upload] && before.chunks[upload] == after.chunks[upload]
    requires PcFileOk(sha, before, upload, pc)
    ensures PcFileOk(sha, after, upload, pc)
  {
    hide ChunkHeld;
    if pc.Mirror? {
      PcFileOkFrame(sha, before, after, upload, other, pc.next);
    }
  }

  lemma {:induction false} PcFileOkSame(sha: Sha256, before: Disk, after: Disk, upload: UploadId, pc: Pc)
    requires before.files == after.files
    requires Known(before, upload) && Known(after, upload)
    requires before.rows[upload] == after.rows[upload]
    requires PcFileOk(sha, before, upload, pc)
    ensures PcFileOk(sha, after, upload, pc)
  {
    hide ChunkHeld;
    if pc.Mirror? {
      PcFileOkSame(sha, before, after, upload, pc.next);
    }
  }

  // One turn

  /** Replacing one staging file by a sound one touches nothing else. */
  lemma ReplaceStaging(sha: Sha256, disk: Disk, after: Disk, upload: UploadId, file: File)
    requires Known(disk, upload) && Durable(disk)
    requires StagingPath(upload) in disk.files && disk.rows[upload].state == Transferring
    requires SameTables(disk, after) && after.files == disk.files[StagingPath(upload) := file]
    requires file.durable <= |file.bytes|
    requires StagingOk(sha, disk.rows[upload], disk.chunks[upload], file)
    ensures FilesTouch(disk, after, upload) && Durable(after) && FileOk(sha, after, upload)
  {
    hide StagingOk;
  }

  lemma TransferringFile(sha: Sha256, disk: Disk, upload: UploadId)
    requires Known(disk, upload) && DiskFilesOk(sha, disk) && disk.rows[upload].state == Transferring
    ensures StagingPath(upload) in disk.files
    ensures StagingOk(sha, disk.rows[upload], disk.chunks[upload], disk.files[StagingPath(upload)])
    ensures disk.files[StagingPath(upload)].durable <= |disk.files[StagingPath(upload)].bytes|
  {
    hide StagingOk, BlobFilesOk;
    assert FileOk(sha, disk, upload);
  }

  lemma DiskFilesAreDurable(sha: Sha256, disk: Disk)
    requires DiskFilesOk(sha, disk)
    ensures Durable(disk)
  {
  }

  lemma WritePiece(sha: Sha256, disk: Disk, upload: UploadId, input: AppendInput, written: nat, count: nat)
    requires Known(disk, upload) && DiskFilesOk(sha, disk)
    requires JudgeAppend(sha, disk.rows[upload], disk.chunks[upload], input) == Accepted
    requires 0 <= input.offset && StagingPath(upload) in disk.files
    requires 0 < written ==> PrefixWritten(disk.files[StagingPath(upload)], input, written)
    requires 0 < count && written + count <= |input.bytes|
    ensures var after := WriteFile(disk, StagingPath(upload), input.offset + written, input.bytes[written..written + count]);
            && FilesTouch(disk, after, upload) && Durable(after)
            && FileOk(sha, after, upload)
            && PrefixWritten(after.files[StagingPath(upload)], input, written + count)
  {
    hide DiskFilesOk, StagingOk, FileOk, FilesTouch, JudgeAppend, Overlay, PrefixWritten;
    DiskFilesAreDurable(sha, disk);
    var row, chunks, file := disk.rows[upload], disk.chunks[upload], disk.files[StagingPath(upload)];
    TransferringFileIfAccepted(sha, disk, upload, input);
    WriteBesideChunks(sha, row, chunks, file, input, written, written + count);
    WriteExtendsPrefix(file, input, written, count);
    ReplaceStaging(sha, disk,
                   WriteFile(disk, StagingPath(upload), input.offset + written, input.bytes[written..written + count]),
                   upload, Write(file, input.offset + written, input.bytes[written..written + count]));
  }

  lemma WriteEnd(sha: Sha256, disk: Disk, upload: UploadId, input: AppendInput)
    requires Known(disk, upload) && DiskFilesOk(sha, disk)
    requires JudgeAppend(sha, disk.rows[upload], disk.chunks[upload], input) == Accepted
    requires 0 <= input.offset && StagingPath(upload) in disk.files
    requires 0 < |input.bytes| ==> PrefixWritten(disk.files[StagingPath(upload)], input, |input.bytes|)
    ensures var after := SyncFile(disk, StagingPath(upload));
            && FilesTouch(disk, after, upload) && Durable(after)
            && FileOk(sha, after, upload)
            && ChunkHeld(sha, after.files[StagingPath(upload)], RecordOf(input))
  {
    hide DiskFilesOk, StagingOk, FileOk, FilesTouch, JudgeAppend, ChunkHeld, PrefixWritten;
    DiskFilesAreDurable(sha, disk);
    var row, chunks, file := disk.rows[upload], disk.chunks[upload], disk.files[StagingPath(upload)];
    TransferringFileIfAccepted(sha, disk, upload, input);
    SyncKeepsStaging(sha, row, chunks, file);
    SyncedChunkHeld(sha, file, input);
    ReplaceStaging(sha, disk, SyncFile(disk, StagingPath(upload)), upload, Sync(file));
  }

  lemma TransferringFileIfAccepted(sha: Sha256, disk: Disk, upload: UploadId, input: AppendInput)
    requires Known(disk, upload) && DiskFilesOk(sha, disk)
    requires JudgeAppend(sha, disk.rows[upload], disk.chunks[upload], input) == Accepted
    ensures disk.rows[upload].state == Transferring && 0 <= input.offset && sha(input.bytes) == input.checksum
    ensures StagingPath(upload) in disk.files
    ensures StagingOk(sha, disk.rows[upload], disk.chunks[upload], disk.files[StagingPath(upload)])
    ensures disk.files[StagingPath(upload)].durable <= |disk.files[StagingPath(upload)].bytes|
  {
    hide DiskFilesOk, StagingOk;
    AcceptedFacts(sha, disk.rows[upload], disk.chunks[upload], input);
    TransferringFile(sha, disk, upload);
  }

  lemma WriteTurn(sha: Sha256, disk: Disk, upload: UploadId, input: AppendInput, written: nat, wrote: nat)
    requires Known(disk, upload) && DiskFilesOk(sha, disk)
    requires PcOk(sha, disk, upload, WriteChunk(input, written))
    requires PcFileOk(sha, disk, upload, WriteChunk(input, written))
    ensures var (after, next) := AdvanceWrite(disk, upload, input, written, wrote);
            && SameTables(disk, after) && FilesTouch(disk, after, upload)
            && Durable(after)
            && FileOk(sha, after, upload) && PcFileOk(sha, after, upload, next)
  {
    hide BlobFilesOk, StagingOk, FilesTouch, ChunkHeld, JudgeAppend, Write, Sync, PrefixWritten;
    TransferringFileIfAccepted(sha, disk, upload, input);
    var count := Min(wrote, |input.bytes| - written);
    if written == |input.bytes| {
      WriteEnd(sha, disk, upload, input);
    } else if count == 0 {
      SameFilesTouch(disk, upload);
      assert FileOk(sha, disk, upload);
    } else {
      WritePiece(sha, disk, upload, input, written, count);
    }
  }

  lemma SameFilesTouch(disk: Disk, upload: UploadId)
    ensures FilesTouch(disk, disk, upload)
  {
  }

  lemma SyncKeepsStaging(sha: Sha256, row: UploadRow, chunks: seq<ChunkRow>, file: File)
    requires StagingOk(sha, row, chunks, file)
    ensures StagingOk(sha, row, chunks, Sync(file))
  {
    SyncKeepsChunks(sha, chunks, file);
  }

  lemma AcceptedFacts(sha: Sha256, row: UploadRow, chunks: seq<ChunkRow>, input: AppendInput)
    requires JudgeAppend(sha, row, chunks, input) == Accepted
    ensures row.state == Transferring && 0 <= input.offset && input.offset + |input.bytes| <= row.expected
    ensures input.offset + |input.bytes| <= MAX_SAFE_INTEGER
    ensures sha(input.bytes) == input.checksum
  {
  }

  lemma WriteExtendsPrefix(file: File, input: AppendInput, written: nat, count: nat)
    requires 0 <= input.offset && 0 < count && written + count <= |input.bytes|
    requires 0 < written ==> PrefixWritten(file, input, written)
    ensures PrefixWritten(Write(file, input.offset + written, input.bytes[written..written + count]), input, written + count)
  {
    var data := input.bytes[written..written + count];
    var after := Overlay(file.bytes, input.offset + written, data);
    hide Write, Overlay, Max;
    assert Write(file, input.offset + written, data).bytes == after by {
      WriteOverlays(file, input.offset + written, data);
    }
    forall i | 0 <= i < written + count
      ensures after[input.offset + i] == input.bytes[i]
    {
      if i < written {
        assert file.bytes[input.offset..input.offset + written][i] == input.bytes[..written][i];
      } else {
        assert data[i - written] == input.bytes[i];
      }
    }
  }

  lemma WriteOverlays(file: File, position: nat, data: seq<Byte>)
    ensures Write(file, position, data).bytes == Overlay(file.bytes, position, data)
  {
  }

  lemma SyncedChunkHeld(sha: Sha256, file: File, input: AppendInput)
    requires 0 <= input.offset && sha(input.bytes) == input.checksum
    requires 0 < |input.bytes| ==> PrefixWritten(file, input, |input.bytes|)
    ensures ChunkHeld(sha, Sync(file), RecordOf(input))
  {
    assert input.bytes[..|input.bytes|] == input.bytes;
    if |input.bytes| == 0 {
      assert input.bytes == [];
    }
  }

  lemma RemoveTurn(sha: Sha256, disk: Disk, upload: UploadId, pc: Pc, wrote: nat, material: MaterialId)
    requires Known(disk, upload) && DiskFilesOk(sha, disk)
    requires PcOk(sha, disk, upload, pc) && PcFileOk(sha, disk, upload, pc)
    requires pc.DropStaging? || pc.RemoveStagingCopy? || pc.CleanCancelled?
    ensures var (after, next) := Advance(sha, disk, upload, pc, wrote, material);
            && SameTables(disk, after) && FilesTouch(disk, after, upload)
            && Durable(after)
            && FileOk(sha, after, upload) && PcFileOk(sha, after, upload, next)
  {
    hide StagingOk, Verified, AdvanceWrite, MoveFile, Publish, PublishBlocked, InsertChunk, SetState;
    assert FileOk(sha, disk, upload);
  }

  lemma RemoveKeepsBlobs(sha: Sha256, disk: Disk, upload: UploadId)
    requires BlobFilesOk(sha, disk)
    ensures BlobFilesOk(sha, RemoveFile(disk, StagingPath(upload)))
  {
    hide Verified;
  }

  lemma WriteKeepsBlobs(sha: Sha256, disk: Disk, upload: UploadId, input: AppendInput, written: nat, wrote: nat)
    requires BlobFilesOk(sha, disk)
    ensures BlobFilesOk(sha, AdvanceWrite(disk, upload, input, written, wrote).0)
  {
    hide Verified, Write, Sync;
  }

  lemma MoveTurn(sha: Sha256, disk: Disk, upload: UploadId, wrote: nat, material: MaterialId)
    requires Known(disk, upload) && DiskFilesOk(sha, disk)
    requires PcOk(sha, disk, upload, MoveStaging) && PcFileOk(sha, disk, upload, MoveStaging)
    ensures var (after, next) := Advance(sha, disk, upload, MoveStaging, wrote, material);
            && SameTables(disk, after) && FilesTouch(disk, after, upload)
            && Durable(after) && BlobFilesOk(sha, after)
            && FileOk(sha, after, upload) && PcFileOk(sha, after, upload, next)
  {
    hide StagingOk, Verified;
    assert FileOk(sha, disk, upload);
  }

  /** Turns that change files: every other upload and every blob stays sound. */
  lemma FileTurn(sha: Sha256, disk: Disk, upload: UploadId, pc: Pc, wrote: nat, material: MaterialId)
    requires Known(disk, upload) && DiskFilesOk(sha, disk)
    requires PcOk(sha, disk, upload, pc) && PcFileOk(sha, disk, upload, pc) && WritesFiles(pc)
    ensures var (after, next) := Advance(sha, disk, upload, pc, wrote, material);
            && SameTables(disk, after) && FilesTouch(disk, after, upload)
            && Durable(after) && BlobFilesOk(sha, after)
            && FileOk(sha, after, upload) && PcFileOk(sha, after, upload, next)
  {
    hide Durable, BlobFilesOk, FileOk, AdvanceWrite, FilesTouch, SameTables, RemoveFile, MoveFile;
    match pc {
      case WriteChunk(input, written) =>
        WriteTurn(sha, disk, upload, input, written, wrote);
        WriteKeepsBlobs(sha, disk, upload, input, written, wrote);
      case MoveStaging =>
        MoveTurn(sha, disk, upload, wrote, material);
      case _ =>
        RemoveTurn(sha, disk, upload, pc, wrote, material);
        RemoveKeepsBlobs(sha, disk, upload);
    }
  }

  /** Turns that look at files before deciding where to go on. */
  lemma ReadTurn(sha: Sha256, disk: Disk, upload: UploadId, pc: Pc, wrote: nat, material: MaterialId)
    requires Known(disk, upload) && DiskFilesOk(sha, disk)
    requires PcOk(sha, disk, upload, pc) && PcFileOk(sha, disk, upload, pc)
    requires !WritesFiles(pc) && !WritesTables(pc) && !pc.Mirror?
    ensures var (after, next) := Advance(sha, disk, upload, pc, wrote, material);
            && disk == after && PcFileOk(sha, disk, upload, next)
  {
    hide Durable, StagingOk, Stable, JudgeAppend, AdvanceWrite, SetState, Publish, InsertChunk, RemoveFile, MoveFile;
    assert FileOk(sha, disk, upload);
  }

  lemma PersistTurn(sha: Sha256, disk: Disk, upload: UploadId, input: AppendInput)
    requires Known(disk, upload) && DiskFilesOk(sha, disk)
    requires PcOk(sha, disk, upload, PersistChunk(input)) && PcFileOk(sha, disk, upload, PersistChunk(input))
    ensures FileOk(sha, InsertChunk(disk, upload, RecordOf(input)), upload)
  {
    hide DiskFilesOk, JudgeAppend, ChunkHeld, ChunksHeld;
    TransferringFileIfAccepted(sha, disk, upload, input);
    AppendKeepsHeld(sha, disk.files[StagingPath(upload)], disk.chunks[upload], RecordOf(input));
  }

  /** Turns that commit a database transaction. */
  lemma CommitTurn(sha: Sha256, disk: Disk, upload: UploadId, pc: Pc, wrote: nat, material: MaterialId)
    requires Known(disk, upload) && DiskFilesOk(sha, disk) && TablesOk(disk)
    requires PcOk(sha, disk, upload, pc) && PcFileOk(sha, disk, upload, pc)
    requires WritesTables(pc)
    ensures var (after, next) := Advance(sha, disk, upload, pc, wrote, material);
            && disk.files == after.files
            && Known(after, upload) && FileOk(sha, after, upload) && PcFileOk(sha, after, upload, next)
  {
    hide TablesOk, DiskFilesOk, JudgeAppend, PublishBlocked, AdvanceWrite;
    hide StagingOk, Stable, ChunkHeld, PrefixWritten, FindChunk, Referenced;
    OneFileOk(sha, disk, upload);
    if pc.PersistChunk? {
      PersistTurn(sha, disk, upload, pc.input);
    } else if pc.StagedHashed? {
      StagedStable(sha, disk, upload);
    } else {
      LaterCommitTurn(sha, disk, upload, pc, wrote, material);
    }
  }

  /** Commits past the hash check: the bytes are under the blob path already, or the upload is given up. */
  lemma LaterCommitTurn(sha: Sha256, disk: Disk, upload: UploadId, pc: Pc, wrote: nat, material: MaterialId)
    requires Known(disk, upload) && FileOk(sha, disk, upload)
    requires PcOk(sha, disk, upload, pc) && PcFileOk(sha, disk, upload, pc)
    requires WritesTables(pc) && !pc.PersistChunk? && !pc.StagedHashed?
    ensures var (after, next) := Advance(sha, disk, upload, pc, wrote, material);
            && disk.files == after.files
            && Known(after, upload) && FileOk(sha, after, upload) && PcFileOk(sha, after, upload, next)
  {
    hide StagingOk, Verified, JudgeAppend, PublishBlocked, AdvanceWrite, ChunkHeld, PrefixWritten;
  }

  lemma OneFileOk(sha: Sha256, disk: Disk, upload: UploadId)
    requires Known(disk, upload) && DiskFilesOk(sha, disk)
    ensures FileOk(sha, disk, upload)
  {
  }

  lemma CommitKeepsBlobs(sha: Sha256, disk: Disk, upload: UploadId, pc: Pc, wrote: nat, material: MaterialId)
    requires Known(disk, upload) && DiskFilesOk(sha, disk)
    requires PcOk(sha, disk, upload, pc) && WritesTables(pc)
    ensures BlobFilesOk(sha, Advance(sha, disk, upload, pc, wrote, material).0)
  {
    hide Durable, Verified, JudgeAppend, PublishBlocked, AdvanceWrite;
    if pc.PublishReference? {
      assert FileOk(sha, disk, upload);
    }
  }

  lemma AppendKeepsHeld(sha: Sha256, file: File, chunks: seq<ChunkRow>, chunk: ChunkRow)
    requires ChunksHeld(sha, file, chunks) && ChunkHeld(sha, file, chunk)
    ensures ChunksHeld(sha, file, chunks + [chunk])
  {
    hide ChunkHeld;
  }

  lemma StagedStable(sha: Sha256, disk: Disk, upload: UploadId)
    requires Known(disk, upload) && DiskFilesOk(sha, disk) && TablesOk(disk)
    requires disk.rows[upload].state == Staged
    ensures StagingPath(upload) in disk.files
    ensures Stable(disk.files[StagingPath(upload)])
    ensures |disk.files[StagingPath(upload)].bytes| == disk.rows[upload].expected
  {
    hide StagingOk, BlobFilesOk;
    assert RowOk(disk, upload) && FileOk(sha, disk, upload);
    FullStagingIsStable(sha, disk.rows[upload], disk.chunks[upload], disk.files[StagingPath(upload)]);
  }

  /** Every turn keeps the blobs sound, its own upload's bytes safe, and other uploads' files untouched. */
  lemma AdvanceFiles(sha: Sha256, disk: Disk, upload: UploadId, pc: Pc, wrote: nat, material: MaterialId)
    requires Known(disk, upload) && DiskFilesOk(sha, disk) && TablesOk(disk)
    requires PcOk(sha, disk, upload, pc) && PcFileOk(sha, disk, upload, pc)
    ensures var (after, next) := Advance(sha, disk, upload, pc, wrote, material);
            && FilesTouch(disk, after, upload)
            && Durable(after) && BlobFilesOk(sha, after)
            && Known(after, upload) && FileOk(sha, after, upload) && PcFileOk(sha, after, upload, next)
  {
    hide TablesOk, FileOk, FilesTouch, AdvanceWrite, Enter, Publish, InsertChunk, RemoveFile, MoveFile;
    hide Verified, PcOk;
    SameFilesTouch(disk, upload);
    OneFileOk(sha, disk, upload);
    var (after, next) := Advance(sha, disk, upload, pc, wrote, material);
    if WritesFiles(pc) {
      FileTurn(sha, disk, upload, pc, wrote, material);
    } else if WritesTables(pc) {
      CommitTurn(sha, disk, upload, pc, wrote, material);
      CommitKeepsBlobs(sha, disk, upload, pc, wrote, material);
      SameFiles(sha, disk, after, upload);
    } else if pc.Mirror? {
      SameFiles(sha, disk, after, upload);
      FileOkSame(sha, disk, after, upload);
      PcFileOkSame(sha, disk, after, upload, next);
    } else {
      ReadTurn(sha, disk, upload, pc, wrote, material);
    }
  }

  lemma SameFiles(sha: Sha256, before: Disk, after: Disk, upload: UploadId)
    requires before.files == after.files
    ensures FilesTouch(before, after, upload)
    ensures Durable(before) ==> Durable(after)
    ensures before.blobs == after.blobs && BlobFilesOk(sha, before) ==> BlobFilesOk(sha, after)
  {
    hide Verified;
  }

  lemma FileOkSame(sha: Sha256, before: Disk, after: Disk, upload: UploadId)
    requires before.files == after.files && Known(before, upload) && Known(after, upload)
    requires before.rows[upload] == after.rows[upload] && before.chunks[upload] == after.chunks[upload]
    ensures FileOk(sha, before, upload) ==> FileOk(sha, after, upload)
  {
    hide StagingOk, Verified;
  }

  /** Starting an operation changes no file and leaves it where its files allow it to stand. */
  lemma StartFiles(sha: Sha256, disk: Disk, upload: UploadId, input: AppendInput)
    requires Known(disk, upload) && DiskFilesOk(sha, disk)
    ensures PcFileOk(sha, disk, upload, BeginAppend(sha, disk, upload, input))
    ensures PcFileOk(sha, disk, upload, BeginReconcile(disk, upload))
    ensures var (after, pc) := BeginComplete(disk, upload);
            after.files == disk.files && after.blobs == disk.blobs
            && Known(after, upload) && FileOk(sha, after, upload) && PcFileOk(sha, after, upload, pc)
    ensures var (after, pc) := BeginCancel(disk, upload);
            after.files == disk.files && after.blobs == disk.blobs
            && Known(after, upload) && FileOk(sha, after, upload) && PcFileOk(sha, after, upload, pc)
  {
    hide Durable, BlobFilesOk, ChunksHeld, Verified, JudgeAppend;
    OneFileOk(sha, disk, upload);
  }

  lemma StartsKeepFiles(disk: Disk, upload: UploadId)
    ensures BeginComplete(disk, upload).0.files == disk.files && BeginComplete(disk, upload).0.blobs == disk.blobs
    ensures BeginCancel(disk, upload).0.files == disk.files && BeginCancel(disk, upload).0.blobs == disk.blobs
  {
  }

  /** A change confined to one upload, followed by resuming its operation, keeps the invariant. */
  lemma ResumeFiles(sha: Sha256, world: World, after: Disk, upload: UploadId, pc: Pc)
    requires RowInv(sha, world) && FileInv(sha, world)
    requires OnlyTouches(world.disk, after, upload) && FilesTouch(world.disk, after, upload)
    requires Durable(after) && BlobFilesOk(sha, after)
    requires Known(world.disk, upload) ==> Known(after, upload) && FileOk(sha, after, upload)
    requires !pc.Finished? ==> Known(after, upload) && PcFileOk(sha, after, upload, pc)
    requires world.creation.Opened? ==>
               world.creation.upload != upload || after.files == world.disk.files
    ensures FileInv(sha, world.(disk := after, running := Resume(world.running, upload, pc)))
  {
    hide TablesOk, PcOk, FileOk, PcFileOk, BlobFilesOk, Durable;
    var running := Resume(world.running, upload, pc);
    forall u | u in after.rows && u in after.chunks ensures FileOk(sha, after, u) {
      if u != upload {
        FileOkFrame(sha, world.disk, after, u, upload);
      }
    }
    forall u | u in running && Known(after, u) ensures PcFileOk(sha, after, u, running[u]) {
      if u != upload {
        PcFileOkFrame(sha, world.disk, after, u, upload, running[u]);
      }
    }
  }

  lemma ResumeSameFiles(sha: Sha256, world: World, after: Disk, upload: UploadId, pc: Pc)
    requires RowInv(sha, world) && FileInv(sha, world)
    requires OnlyTouches(world.disk, after, upload)
    requires after.files == world.disk.files && after.blobs == world.disk.blobs
    requires Known(world.disk, upload) ==> Known(after, upload) && FileOk(sha, after, upload)
    requires !pc.Finished? ==> Known(after, upload) && PcFileOk(sha, after, upload, pc)
    ensures FileInv(sha, world.(disk := after, running := Resume(world.running, upload, pc)))
  {
    hide RowInv, OnlyTouches, FileOk, PcFileOk;
    SameFiles(sha, world.disk, after, upload);
    ResumeFiles(sha, world, after, upload, pc);
  }

  lemma TurnFiles(sha: Sha256, world: World, upload: UploadId, wrote: nat, material: MaterialId)
    requires RowInv(sha, world) && FileInv(sha, world)
    requires upload in world.running && Known(world.disk, upload)
    ensures var (after, pc) := Advance(sha, world.disk, upload, world.running[upload], wrote, material);
            FileInv(sha, world.(disk := after, running := Resume(world.running, upload, pc)))
  {
    hide TablesOk, DiskFilesOk, PcOk, PcFileOk, Advance, OnlyTouches, FilesTouch, Resume;
    var pc := world.running[upload];
    AdvanceRows(sha, world.disk, upload, pc, wrote, material);
    AdvanceFiles(sha, world.disk, upload, pc, wrote, material);
    var (after, next) := Advance(sha, world.disk, upload, pc, wrote, material);
    ResumeFiles(sha, world, after, upload, next);
  }

  lemma KeepFiles(sha: Sha256, world: World, next: World)
    requires FileInv(sha, world) && world.disk == next.disk
    requires forall u :: u in next.running ==> u in world.running && next.running[u] == world.running[u]
    requires next.creation.Opened? ==> next.creation == world.creation
    ensures FileInv(sha, next)
  {
    hide DiskFilesOk, PcFileOk;
  }

  lemma OpenStagingFiles(sha: Sha256, world: World, upload: UploadId)
    requires RowInv(sha, world) && FileInv(sha, world)
    requires Enabled(sha, world, OpenStaging(upload))
    ensures FileInv(sha, Apply(sha, world, OpenStaging(upload)))
  {
    hide TablesOk, PcOk, FileOk, PcFileOk, Verified;
    var next := Apply(sha, world, OpenStaging(upload));
    assert FilesTouch(world.disk, next.disk, upload);
    forall u | u in next.disk.rows && u in next.disk.chunks ensures FileOk(sha, next.disk, u) {
      FileOkFrame(sha, world.disk, next.disk, u, upload);
    }
    forall u | u in next.running && Known(next.disk, u) ensures PcFileOk(sha, next.disk, u, next.running[u]) {
      PcFileOkFrame(sha, world.disk, next.disk, u, upload, next.running[u]);
    }
  }

  lemma InsertCreatedFiles(sha: Sha256, world: World)
    requires RowInv(sha, world) && FileInv(sha, world) && world.creation.Opened?
    ensures FileInv(sha, Apply(sha, world, InsertCreated))
  {
    hide TablesOk, PcOk, Verified, BlobFilesOk;
    var upload := world.creation.upload;
    var next := Apply(sha, world, InsertCreated);
    SameFiles(sha, world.disk, next.disk, upload);
    forall u | u in next.disk.rows && u in next.disk.chunks ensures FileOk(sha, next.disk, u) {
      if u != upload {
        FileOkSame(sha, world.disk, next.disk, u);
      }
    }
    forall u | u in next.running && Known(next.disk, u) ensures PcFileOk(sha, next.disk, u, next.running[u]) {
      if u != upload {
        PcFileOkSame(sha, world.disk, next.disk, u, next.running[u]);
      }
    }
  }

  /** A power loss between any two steps loses nothing the invariant speaks of. */
  lemma CrashFiles(sha: Sha256, disk: Disk, files: map<Path, File>)
    requires TablesOk(disk) && DiskFilesOk(sha, disk)
    requires files.Keys == disk.files.Keys && forall p :: p in files ==> Torn(disk.files[p], files[p])
    ensures DiskFilesOk(sha, disk.(files := files))
  {
    hide OrderOk, RowsOk, ReferencesOk, OneReferenceEach, BlobPathsOk, Torn, Stable, StagingOk, FileOk;
    var after := disk.(files := files);
    forall p | p in files ensures files[p].durable <= |files[p].bytes| {
      TornIsDurable(disk.files[p], files[p]);
    }
    forall s | BlobPath(s) in files ensures Verified(sha, files[BlobPath(s)], s) {
      StableSurvivesCrash(disk.files[BlobPath(s)], files[BlobPath(s)]);
    }
    forall u | u in after.rows && u in after.chunks ensures FileOk(sha, after, u) {
      CrashFileOk(sha, disk, files, u);
    }
  }

  lemma TornIsDurable(before: File, after: File)
    requires before.durable <= |before.bytes| && Torn(before, after)
    ensures after.durable <= |after.bytes|
  {
  }

  lemma CrashFileOk(sha: Sha256, disk: Disk, files: map<Path, File>, upload: UploadId)
    requires Durable(disk) && Known(disk, upload) && FileOk(sha, disk, upload)
    requires files.Keys == disk.files.Keys && forall p :: p in files ==> Torn(disk.files[p], files[p])
    ensures FileOk(sha, disk.(files := files), upload)
  {
    hide Torn, Stable, StagingOk;
    var row, staging := disk.rows[upload], StagingPath(upload);
    if row.state == Transferring || row.state == Staged {
      TornStaging(sha, row, disk.chunks[upload], disk.files[staging], files[staging]);
    } else if row.state == HashVerified && staging in files {
      StableSurvivesCrash(disk.files[staging], files[staging]);
    }
  }

  lemma ApplyFiles(sha: Sha256, world: World, event: Event)
    requires RowInv(sha, world) && FileInv(sha, world) && Enabled(sha, world, event) && !event.Tamper?
    ensures FileInv(sha, Apply(sha, world, event))
  {
    hide OrderOk, RowsOk, ReferencesOk, OneReferenceEach, BlobPathsOk, DiskFilesOk, PcOk, PcFileOk, FileOk;
    hide OnlyTouches, Advance, BeginAppend, BeginComplete, BeginCancel, BeginReconcile, FreeAfter;
    var disk := world.disk;
    match event {
      case StartAppend(upload, input) =>
        OnlyTouchesItself(disk, upload);
        UnknownFinishes(sha, disk, upload, input);
        if Known(disk, upload) {
          StartFiles(sha, disk, upload, input);
          OneFileOk(sha, disk, upload);
        }
        ResumeSameFiles(sha, world, disk, upload, BeginAppend(sha, disk, upload, input));
      case StartComplete(upload) =>
        StartRows(sha, disk, upload, AppendInput(0, 0, [], ""));
        StartsKeepFiles(disk, upload);
        UnknownFinishes(sha, disk, upload, AppendInput(0, 0, [], ""));
        if Known(disk, upload) {
          StartFiles(sha, disk, upload, AppendInput(0, 0, [], ""));
        }
        ResumeSameFiles(sha, world, BeginComplete(disk, upload).0, upload, BeginComplete(disk, upload).1);
      case StartCancel(upload) =>
        StartRows(sha, disk, upload, AppendInput(0, 0, [], ""));
        StartsKeepFiles(disk, upload);
        UnknownFinishes(sha, disk, upload, AppendInput(0, 0, [], ""));
        if Known(disk, upload) {
          StartFiles(sha, disk, upload, AppendInput(0, 0, [], ""));
        }
        ResumeSameFiles(sha, world, BeginCancel(disk, upload).0, upload, BeginCancel(disk, upload).1);
      case StartReconcile(upload) =>
        OnlyTouchesItself(disk, upload);
        StartFiles(sha, disk, upload, AppendInput(0, 0, [], ""));
        OneFileOk(sha, disk, upload);
        ResumeSameFiles(sha, world, disk, upload, BeginReconcile(disk, upload));
      case Turn(upload, wrote, material) =>
        TurnFiles(sha, world, upload, wrote, material);
      case OpenStaging(upload) =>
        OpenStagingFiles(sha, world, upload);
      case InsertCreated =>
        InsertCreatedFiles(sha, world);
      case Crash(files) =>
        CrashFiles(sha, disk, files);
      case BeginCreate(_) | AssessCreate | FailCreate | Fail(_) =>
        KeepFiles(sha, world, Apply(sha, world, event));
      case Tamper(_) =>
    }
  }

  /** The file half of library safety, in every run without tampering. */
  lemma {:induction false} RunKeepsFiles(sha: Sha256, world: World, events: seq<Event>)
    requires RowInv(sha, world) && FileInv(sha, world)
    requires Legal(sha, world, events) && Untampered(events)
    ensures RowInv(sha, After(sha, world, events)) && FileInv(sha, After(sha, world, events))
    decreases |events|
  {
    hide RowInv, FileInv, Apply, Enabled;
    if events != [] {
      assert events[0] in events;
      ApplyRows(sha, world, events[0]);
      ApplyFiles(sha, world, events[0]);
      RunKeepsFiles(sha, Apply(sha, world, events[0]), events[1..]);
    }
  }

  lemma BeginFiles(sha: Sha256, capacity: int)
    ensures FileInv(sha, Begin(capacity))
  {
  }

  /**
   In every run from an empty library without tampering: every file under a blob path hashes to its
   name and is crash-proof, every blob row has its file, and a `Ready` upload has both.
   */
  lemma PublishedBlobsAreSound(sha: Sha256, capacity: int, events: seq<Event>)
    requires Legal(sha, Begin(capacity), events) && Untampered(events)
    ensures var disk := After(sha, Begin(capacity), events).disk;
            && (forall s :: BlobPath(s) in disk.files ==>
                  sha(disk.files[BlobPath(s)].bytes) == s && Stable(disk.files[BlobPath(s)]))
            && (forall s :: s in disk.blobs ==> disk.blobs[s].path == BlobPath(s) && BlobPath(s) in disk.files)
            && (forall u :: u in disk.rows && disk.rows[u].state == Ready ==>
                  disk.rows[u].sha in disk.blobs && BlobPath(disk.rows[u].sha) in disk.files)
  {
    hide Stable, Torn;
    BeginRows(sha, capacity);
    BeginFiles(sha, capacity);
    RunKeepsFiles(sha, Begin(capacity), events);
    var world := After(sha, Begin(capacity), events);
    forall u | u in world.disk.rows && world.disk.rows[u].state == Ready
      ensures world.disk.rows[u].sha in world.disk.blobs
    {
      ReferencesOfRow(sha, world, u);
    }
  }

  /**
   Acknowledged data is durable in every run: while an upload transfers or is staged, each recorded
   chunk sits on stable storage and hashes to its checksum, short writes and crashes notwithstanding.
   */
  lemma AcknowledgedChunksAreDurable(sha: Sha256, capacity: int, events: seq<Event>, upload: UploadId, chunk: ChunkRow)
    requires Legal(sha, Begin(capacity), events) && Untampered(events)
    requires Known(After(sha, Begin(capacity), events).disk, upload)
    requires After(sha, Begin(capacity), events).disk.rows[upload].state in {Transferring, Staged}
    requires chunk in After(sha, Begin(capacity), events).disk.chunks[upload]
    ensures StagingPath(upload) in After(sha, Begin(capacity), events).disk.files
    ensures ChunkHeld(sha, After(sha, Begin(capacity), events).disk.files[StagingPath(upload)], chunk)
  {
    hide ChunkHeld, TablesOk;
    BeginRows(sha, capacity);
    BeginFiles(sha, capacity);
    RunKeepsFiles(sha, Begin(capacity), events);
    assert FileOk(sha, After(sha, Begin(capacity), events).disk, upload);
  }
}
