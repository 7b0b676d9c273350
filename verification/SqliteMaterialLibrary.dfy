/**
 The library in the form the server runs it: a store whose methods are database transactions, a volume
 whose methods are file operations, and the operations composed from them. Run alone, each operation
 does exactly what the turns of `LibrarySteps` do.
 */
module SqliteMaterialLibrary {
  import opened Bytes
  import opened MaterialFiles
  import opened UploadRecords
  import opened UploadGuards
  import opened UploadAdmission
  import opened LibraryDisk
  import opened LibrarySteps
  import opened LibraryWorld
  import opened LibraryRecovery
  import opened LibraryReconcile
  import opened LibraryVerdict
  import LibraryFiles
  import opened LibraryCapacity

  datatype PersistResult = Persisted(ackEpoch: nat, received: nat) | UploadMissing | KeyViolated

  lemma AcceptedIsNew(sha: Sha256, row: UploadRow, chunks: seq<ChunkRow>, input: AppendInput)
    requires JudgeAppend(sha, row, chunks, input) == Accepted
    ensures FindChunk(chunks, input.index).None?
  {
  }

  class MaterialLibraryStore {
    var order: seq<UploadId>
    var rows: map<UploadId, UploadRow>
    var chunks: map<UploadId, seq<ChunkRow>>
    var blobs: map<Hash, BlobRow>
    var references: map<MaterialId, Reference>

    constructor ()
      ensures order == [] && rows == map[] && chunks == map[] && blobs == map[] && references == map[]
    {
      order, rows, chunks, blobs, references := [], map[], map[], map[], map[];
    }

    /** An `INSERT`: a row with that identifier already there violates the primary key. */
    method CreateUploadRecord(upload: UploadId, row: UploadRow) returns (inserted: bool)
      modifies this
      ensures inserted <==> upload !in old(rows)
      ensures !inserted ==> order == old(order) && rows == old(rows) && chunks == old(chunks)
      ensures inserted ==>
                order == old(order) + [upload]
                && rows == old(rows)[upload := row] && chunks == old(chunks)[upload := []]
      ensures blobs == old(blobs) && references == old(references)
    {
      inserted := upload !in rows;
      if !inserted {
        return;
      }
      order := order + [upload];
      rows := rows[upload := row];
      chunks := chunks[upload := []];
    }

    /** An `UPDATE` by primary key: a missing row is no error. */
    method SetUploadState(upload: UploadId, state: UploadState)
      modifies this`rows
      ensures rows == if upload in old(rows) then old(rows)[upload := old(rows)[upload].(state := state)] else old(rows)
    {
      if upload in rows {
        rows := rows[upload := rows[upload].(state := state)];
      }
    }

    /** One transaction: the chunk row and both counters move together, or nothing does. */
    method PersistChunk(upload: UploadId, chunk: ChunkRow) returns (result: PersistResult)
      requires upload in rows ==> upload in chunks
      modifies this`rows, this`chunks
      ensures result.UploadMissing? <==> upload !in old(rows)
      ensures result.KeyViolated? <==> upload in old(rows) && FindChunk(old(chunks)[upload], chunk.index).Some?
      ensures !result.Persisted? ==> rows == old(rows) && chunks == old(chunks)
      ensures result.Persisted? ==>
                var row := old(rows)[upload];
                && result.ackEpoch == row.ackEpoch + 1 && result.received == row.received + chunk.size
                && rows == old(rows)[upload := row.(ackEpoch := result.ackEpoch, received := result.received)]
                && chunks == old(chunks)[upload := old(chunks)[upload] + [chunk]]
    {
      if !(upload in rows) {
        return UploadMissing;
      }
      var row := rows[upload];
      result := Persisted(row.ackEpoch + 1, row.received + chunk.size);
      if FindChunk(chunks[upload], chunk.index).Some? {
        return KeyViolated;
      }
      chunks := chunks[upload := chunks[upload] + [chunk]];
      rows := rows[upload := row.(ackEpoch := result.ackEpoch, received := result.received)];
    }

    /** One transaction: a constraint violation rolls all of it back. */
    method CreateReadyReference(upload: UploadId, path: Path, createBlob: bool, material: MaterialId) returns (committed: bool)
      requires upload in rows
      modifies this`blobs, this`references, this`rows
      ensures committed <==>
              !(createBlob && old(rows)[upload].sha in old(blobs))
              && material !in old(references) && !Referenced(old(references), upload)
      ensures !committed ==> blobs == old(blobs) && references == old(references) && rows == old(rows)
      ensures committed ==>
                var row := old(rows)[upload];
                && blobs == (if createBlob then old(blobs)[row.sha := BlobRow(row.expected, path)] else old(blobs))
                && references == old(references)[material := Reference(upload, row.sha, row.target)]
                && rows == old(rows)[upload := row.(state := Ready)]
    {
      var row := rows[upload];
      var priorBlobs := blobs;
      if createBlob {
        if row.sha in blobs {
          return false;
        }
        blobs := blobs[row.sha := BlobRow(row.expected, path)];
      }
      if material in references || Referenced(references, upload) {
        blobs := priorBlobs;
        return false;
      }
      references := references[material := Reference(upload, row.sha, row.target)];
      rows := rows[upload := row.(state := Ready)];
      return true;
    }

    /** The fold over the rows in transfer. */
    method ReservedUploadBytes() returns (total: int)
      ensures forall disk: Disk | disk.order == order && disk.rows == rows :: total == Reserved(disk)
    {
      ghost var disk := EmptyDisk(0).(order := order, rows := rows);
      total := 0;
      for i := 0 to |order|
        invariant total == SumOver(order[..i], PromisedIn(disk))
      {
        assert order[..i + 1][..i] == order[..i];
        if order[i] in rows && rows[order[i]].state == Transferring {
          total := total + rows[order[i]].expected;
        }
      }
      assert order[..|order|] == order;
      forall other: Disk | other.order == order && other.rows == rows ensures total == Reserved(other) {
        SumSame(order, PromisedIn(disk), PromisedIn(other));
      }
    }
  }

  datatype WriteResult = Written | WriteFailed(error: LibraryError)

  class MaterialVolume {
    const sha: Sha256
    var files: map<Path, File>
    var manifests: map<UploadId, Manifest>
    var free: int

    constructor (sha: Sha256, capacity: int)
      ensures this.sha == sha && files == map[] && manifests == map[] && free == capacity
    {
      this.sha := sha;
      files, manifests, free := map[], map[], capacity;
    }

    method PathExists(path: Path) returns (found: bool)
      ensures found <==> path in files
    {
      found := path in files;
    }

    method HashFile(path: Path) returns (hash: Option<Hash>)
      ensures hash == if path in files then Some(sha(files[path].bytes)) else None
    {
      hash := if path in files then Some(sha(files[path].bytes)) else None;
    }

    /** Opened with the exclusive flag: an existing file is an error. */
    method EnsureEmptyStagingFile(path: Path) returns (created: bool)
      modifies this`files
      ensures created <==> path !in old(files)
      ensures files == if created then old(files)[path := EMPTY_FILE] else old(files)
    {
      created := path !in files;
      if created {
        files := files[path := EMPTY_FILE];
      }
    }

    method MoveFileWithinMaterialRoot(source: Path, destination: Path) returns (moved: bool)
      requires source != destination
      modifies this`files, this`free
      ensures moved <==> source in old(files)
      ensures !moved ==> files == old(files) && free == old(free)
      ensures moved ==>
                && files == (old(files) - {source})[destination := old(files)[source]]
                && free == old(free) + if destination in old(files) then |old(files)[destination].blocks| else 0
    {
      moved := source in files;
      if !moved {
        return;
      }
      if destination in files {
        free := free + |files[destination].blocks|;
      }
      files := (files - {source})[destination := files[source]];
    }

    method RemoveStagingFile(path: Path)
      modifies this`files, this`free
      ensures files == old(files) - {path}
      ensures free == old(free) + if path in old(files) then |old(files)[path].blocks| else 0
    {
      if path in files {
        free := free + |files[path].blocks|;
      }
      files := files - {path};
    }

    method WriteManifestAtomically(upload: UploadId, manifest: Manifest)
      modifies this`manifests
      ensures manifests == old(manifests)[upload := manifest]
    {
      manifests := manifests[upload := manifest];
    }

    /** The operating system may take any number of the bytes it is offered, none included. */
    method WriteSome(path: Path, position: nat, data: seq<Byte>) returns (count: nat)
      requires path in files
      modifies this`files, this`free
      ensures count <= |data|
      ensures var after := Write(old(files)[path], position, data[..count]);
              && files == old(files)[path := after]
              && free == old(free) + |old(files)[path].blocks| - |after.blocks|
    {
      count :| count <= |data|;
      var before := files[path];
      var after := Write(before, position, data[..count]);
      files := files[path := after];
      free := free + |before.blocks| - |after.blocks|;
    }

    /**
     The partial-write loop: on success the whole chunk is in the file and synced; when the system makes
     no progress, exactly a proper prefix of it is there.
     */
    method WriteChunkAtOffset(path: Path, offset: nat, bytes: seq<Byte>) returns (result: WriteResult)
      modifies this`files, this`free
      ensures offset + |bytes| > MAX_SAFE_INTEGER <==> result == WriteFailed(AppendRefused(PositionUnsupported))
      ensures offset + |bytes| <= MAX_SAFE_INTEGER && path !in old(files) <==> result == WriteFailed(FileMissing)
      ensures offset + |bytes| > MAX_SAFE_INTEGER || path !in old(files) ==> files == old(files) && free == old(free)
      ensures result.Written? ==>
                && path in old(files)
                && files == old(files)[path := Sync(Write(old(files)[path], offset, bytes))]
                && free == old(free) + |old(files)[path].blocks| - |Write(old(files)[path], offset, bytes).blocks|
      ensures result == WriteFailed(WriteStalled) ==>
                && path in old(files)
                && exists k :: 0 <= k < |bytes| && files == old(files)[path := Write(old(files)[path], offset, bytes[..k])]
                               && free == old(free) + |old(files)[path].blocks|
                                                    - |Write(old(files)[path], offset, bytes[..k]).blocks|
      ensures result.WriteFailed? ==> result.error in {AppendRefused(PositionUnsupported), FileMissing, WriteStalled}
    {
      hide Write, Sync;
      if offset + |bytes| > MAX_SAFE_INTEGER {
        return WriteFailed(AppendRefused(PositionUnsupported));
      }
      if path !in files {
        return WriteFailed(FileMissing);
      }
      ghost var original, originalFiles := files[path], files;
      WriteNothing(original, offset);
      assert bytes[..0] == [] && files[path := files[path]] == files;
      var written := 0;
      while written < |bytes|
        invariant 0 <= written <= |bytes|
        invariant files == originalFiles[path := Write(original, offset, bytes[..written])]
        invariant free == old(free) + |original.blocks| - |Write(original, offset, bytes[..written]).blocks|
        decreases |bytes| - written
      {
        var count := WriteSome(path, offset + written, bytes[written..]);
        WritesAddUp(original, offset, bytes[..written], bytes[written..][..count]);
        assert bytes[..written] + bytes[written..][..count] == bytes[..written + count];
        if count == 0 {
          return WriteFailed(WriteStalled);
        }
        written := written + count;
      }
      assert bytes[..|bytes|] == bytes;
      files := files[path := Sync(files[path])];
      return Written;
    }
  }

  lemma WriteNothing(file: File, position: nat)
    ensures Write(file, position, []) == file
  {
  }

  lemma SpansAddUp(written: set<nat>, position: nat, first: nat, second: nat)
    ensures written + Positions(position, position + first) + Positions(position + first, position + first + second)
         == written + Positions(position, position + (first + second))
  {
  }

  /** Short writes add up to the one write they replace. */
  lemma WritesAddUp(file: File, position: nat, first: seq<Byte>, second: seq<Byte>)
    ensures Write(Write(file, position, first), position + |first|, second) == Write(file, position, first + second)
  {
    var once := Write(file, position, first + second);
    var twice := Write(Write(file, position, first), position + |first|, second);
    assert twice.bytes == once.bytes by {
      OverlayAppend(file.bytes, position, first, second);
    }
    assert twice.dirty == once.dirty by {
      SpansAddUp(file.dirty, position, |first|, |second|);
    }
    assert twice.blocks == once.blocks by {
      SpansAddUp(file.blocks, position, |first|, |second|);
    }
  }

  class Library {
    const store: MaterialLibraryStore
    const volume: MaterialVolume

    constructor (store: MaterialLibraryStore, volume: MaterialVolume)
      ensures this.store == store && this.volume == volume
    {
      this.store, this.volume := store, volume;
    }

    ghost function Contents(): Disk
      reads store, volume
    {
      Disk(store.order, store.rows, store.chunks, store.blobs, store.references,
           volume.files, volume.manifests, volume.free)
    }

    /**
     Admission, staging file, row, manifest: an upload is admitted exactly when its size and all that is
     reserved fit in the free bytes.
     */
    method CreateUpload(upload: UploadId, request: CreateRequest) returns (outcome: Outcome)
      requires upload !in store.rows && upload !in store.chunks
      modifies store, volume
      ensures old(volume.free) < Reserved(old(Contents())) + request.expected ==>
                outcome == Threw(StorageReservationRefused) && Contents() == old(Contents())
      ensures old(volume.free) >= Reserved(old(Contents())) + request.expected && StagingPath(upload) in old(volume.files) ==>
                outcome == Threw(StagingFileExists) && Contents() == old(Contents())
      ensures old(volume.free) >= Reserved(old(Contents())) + request.expected && StagingPath(upload) !in old(volume.files) ==>
                var row := UploadRow(request.expected, request.sha, request.target, Transferring, 0, 0);
                var inserted := InsertUpload(CreateFile(old(Contents()), StagingPath(upload)), upload, row);
                outcome == Done && Contents() == SaveManifest(inserted, upload, ManifestOf(inserted, upload))
    {
      var reserved := store.ReservedUploadBytes();
      assert reserved == Reserved(Contents());
      var admission := AssessAdmission(volume.free, request.expected, reserved);
      if admission.Rejected? {
        return Threw(StorageReservationRefused);
      }
      var created := volume.EnsureEmptyStagingFile(StagingPath(upload));
      if !created {
        return Threw(StagingFileExists);
      }
      var row := UploadRow(request.expected, request.sha, request.target, Transferring, 0, 0);
      var inserted := store.CreateUploadRecord(upload, row);
      assert inserted;
      PersistUploadManifest(upload);
      outcome := Done;
    }

    method PersistUploadManifest(upload: UploadId)
      requires Known(Contents(), upload)
      modifies volume
      ensures Contents() == SaveManifest(old(Contents()), upload, ManifestOf(old(Contents()), upload))
      ensures volume.manifests == old(volume.manifests)[upload := Manifest(store.rows[upload], store.chunks[upload])]
      ensures volume.files == old(volume.files) && volume.free == old(volume.free)
    {
      volume.WriteManifestAtomically(upload, Manifest(store.rows[upload], store.chunks[upload]));
    }

    method UpdateStateAndPersist(upload: UploadId, state: UploadState)
      requires Known(Contents(), upload)
      modifies store, volume
      ensures var changed := SetState(old(Contents()), upload, state);
              Contents() == SaveManifest(changed, upload, ManifestOf(changed, upload))
      ensures store.rows == old(store.rows)[upload := old(store.rows)[upload].(state := state)]
      ensures store.chunks == old(store.chunks) && volume.files == old(volume.files)
    {
      store.SetUploadState(upload, state);
      PersistUploadManifest(upload);
    }

    method MarkRecoverableError(upload: UploadId, reason: CompletionError, ghost material: MaterialId)
      returns (outcome: Outcome)
      requires Known(Contents(), upload)
      modifies store, volume
      ensures (Contents(), outcome) == Drive(volume.sha, old(Contents()), upload, MarkError(reason), 0, material)
    {
      ghost var changed := SetState(Contents(), upload, RecoverableError);
      DriveStep(volume.sha, Contents(), upload, MarkError(reason), 0, material);
      DriveMirror(volume.sha, changed, upload, ManifestOf(changed, upload), Failed(reason), 0, material);
      UpdateStateAndPersist(upload, RecoverableError);
      outcome := Failed(reason);
    }

    method FinishCommittedUpload(upload: UploadId, path: Path, createBlob: bool, material: MaterialId)
      returns (outcome: Outcome)
      requires Known(Contents(), upload)
      modifies store, volume
      ensures (Contents(), outcome)
           == Drive(volume.sha, old(Contents()), upload, ProbeFinal(path, createBlob), 0, material)
    {
      hide Drive, PublishBlocked;
      ghost var before := Contents();
      DriveFinal(volume.sha, before, upload, path, createBlob, material);
      var found := volume.PathExists(path);
      if !found {
        outcome := MarkRecoverableError(upload, BlobMissing, material);
        return;
      }
      var hash := volume.HashFile(path);
      if hash != Some(store.rows[upload].sha) {
        outcome := MarkRecoverableError(upload, Sha256Mismatch, material);
        return;
      }
      DrivePublish(volume.sha, before, upload, path, createBlob, material);
      var committed := store.CreateReadyReference(upload, path, createBlob, material);
      BlockedMeans(before, upload, createBlob, material);
      if !committed {
        assert Contents() == before;
        return Threw(ConstraintViolated);
      }
      assert Contents() == Publish(before, upload, path, createBlob, material);
      PersistUploadManifest(upload);
      outcome := Published(material, path);
    }

    method CommitHashVerifiedUpload(upload: UploadId, material: MaterialId) returns (outcome: Outcome)
      requires Known(Contents(), upload)
      modifies store, volume
      ensures (Contents(), outcome) == Drive(volume.sha, old(Contents()), upload, FindBlob, 0, material)
    {
      hide Drive;
      ghost var before := Contents();
      var hash, staging := store.rows[upload].sha, StagingPath(upload);
      var existing := if hash in store.blobs then Some(store.blobs[hash].path) else None;
      var destination := if existing.Some? then existing.value else BlobPath(hash);
      if existing.Some? {
        DriveExistingBlob(volume.sha, before, upload, material);
        var found := volume.PathExists(destination);
        if !found {
          outcome := MarkRecoverableError(upload, BlobMissing, material);
          return;
        }
        var copied := volume.PathExists(staging);
        if copied {
          volume.RemoveStagingFile(staging);
        }
        assert Contents() == RemoveFile(before, staging);
      } else {
        DriveNewBlob(volume.sha, before, upload, material);
        var found := volume.PathExists(staging);
        if !found {
          outcome := MarkRecoverableError(upload, StagingFileMissing, material);
          return;
        }
        var moved := volume.MoveFileWithinMaterialRoot(staging, destination);
        assert moved;
        assert Contents() == MoveFile(before, staging, destination);
      }
      outcome := RecordAndFinish(upload, destination, existing.None?, material);
    }

    method RecordAndFinish(upload: UploadId, path: Path, createBlob: bool, material: MaterialId)
      returns (outcome: Outcome)
      requires Known(Contents(), upload)
      modifies store, volume
      ensures (Contents(), outcome)
           == Drive(volume.sha, old(Contents()), upload, RecordCommitted(path, createBlob), 0, material)
    {
      hide Drive;
      ghost var sha, before := volume.sha, Contents();
      DriveStep(sha, before, upload, RecordCommitted(path, createBlob), 0, material);
      ghost var changed := SetState(before, upload, Committed);
      DriveStep(sha, changed, upload, Mirror(ManifestOf(changed, upload), ProbeFinal(path, createBlob)), 0, material);
      UpdateStateAndPersist(upload, Committed);
      outcome := FinishCommittedUpload(upload, path, createBlob, material);
    }

    /** From `HashStaged` on: the hash check and everything after it. */
    method VerifyAndCommit(upload: UploadId, material: MaterialId) returns (outcome: Outcome)
      requires Known(Contents(), upload)
      modifies store, volume
      ensures (Contents(), outcome) == Drive(volume.sha, old(Contents()), upload, HashStaged, 0, material)
    {
      hide Drive;
      ghost var sha, before := volume.sha, Contents();
      DriveStep(sha, before, upload, HashStaged, 0, material);
      var hash := volume.HashFile(StagingPath(upload));
      if hash.None? {
        DriveFinished(sha, before, upload, Threw(FileMissing), material);
        return Threw(FileMissing);
      }
      DriveStep(sha, before, upload, StagedHashed(hash.value), 0, material);
      if hash.value != store.rows[upload].sha {
        outcome := MarkRecoverableError(upload, Sha256Mismatch, material);
        return;
      }
      ghost var changed := SetState(before, upload, HashVerified);
      DriveStep(sha, changed, upload, Mirror(ManifestOf(changed, upload), FindBlob), 0, material);
      UpdateStateAndPersist(upload, HashVerified);
      outcome := CommitHashVerifiedUpload(upload, material);
    }

    method CompleteUpload(upload: UploadId, material: MaterialId) returns (outcome: Outcome)
      modifies store, volume
      ensures !Known(old(Contents()), upload) ==> outcome == Threw(UploadNotFound) && Contents() == old(Contents())
      ensures Known(old(Contents()), upload) ==>
                var (begun, pc) := BeginComplete(old(Contents()), upload);
                (Contents(), outcome) == Drive(volume.sha, begun, upload, pc, 0, material)
      ensures Known(old(Contents()), upload) && old(store.rows)[upload].state != Transferring ==>
                outcome == Threw(UploadStateError) && Contents() == old(Contents())
      ensures Known(old(Contents()), upload) && old(store.rows)[upload].state == Transferring
              && old(store.rows)[upload].received != old(store.rows)[upload].expected ==>
                outcome == Failed(UploadIncomplete) && Contents() == old(Contents())
      ensures Known(old(Contents()), upload) && old(store.rows)[upload].state == Transferring
              && old(store.rows)[upload].received == old(store.rows)[upload].expected ==>
                (Contents(), outcome)
                == Completed(volume.sha, Entered(old(Contents()), upload, Staged), upload, material)
      ensures outcome.Published? || outcome.Failed? || outcome.Threw?
      ensures outcome.Failed? ==>
                upload in store.rows
                && store.rows[upload].state == if outcome.reason.UploadIncomplete? then Transferring else RecoverableError
      ensures outcome.Published? ==>
                && upload in store.rows && store.rows[upload].state == Ready
                && outcome.material in store.references && store.references[outcome.material].upload == upload
    {
      hide Drive, Completed;
      ghost var sha, before := volume.sha, Contents();
      if !(upload in store.rows && upload in store.chunks) {
        return Threw(UploadNotFound);
      }
      var row := store.rows[upload];
      if row.state != Transferring {
        DriveFinished(sha, before, upload, Threw(UploadStateError), material);
        return Threw(UploadStateError);
      }
      if row.received != row.expected {
        DriveFinished(sha, before, upload, Failed(UploadIncomplete), material);
        return Failed(UploadIncomplete);
      }
      ghost var changed := SetState(before, upload, Staged);
      DriveStep(sha, changed, upload, Mirror(ManifestOf(changed, upload), HashStaged), 0, material);
      UpdateStateAndPersist(upload, Staged);
      CompletedIs(sha, Contents(), upload, material);
      CompletedMeans(sha, Contents(), upload, material);
      outcome := VerifyAndCommit(upload, material);
    }

    method CancelUpload(upload: UploadId) returns (outcome: Outcome)
      modifies store, volume
      ensures !Known(old(Contents()), upload) ==> outcome == Threw(UploadNotFound) && Contents() == old(Contents())
      ensures Known(old(Contents()), upload) && old(store.rows)[upload].state != Transferring ==>
                outcome == Threw(UploadStateError) && Contents() == old(Contents())
      ensures Known(old(Contents()), upload) && old(store.rows)[upload].state == Transferring ==>
                var changed := SetState(old(Contents()), upload, Cancelled);
                && outcome == Done
                && Contents() == RemoveFile(SaveManifest(changed, upload, ManifestOf(changed, upload)), StagingPath(upload))
                && store.rows == old(store.rows)[upload := old(store.rows)[upload].(state := Cancelled)]
                && volume.files == old(volume.files) - {StagingPath(upload)}
    {
      if !(upload in store.rows && upload in store.chunks) {
        return Threw(UploadNotFound);
      }
      if store.rows[upload].state != Transferring {
        return Threw(UploadStateError);
      }
      store.SetUploadState(upload, Cancelled);
      PersistUploadManifest(upload);
      volume.RemoveStagingFile(StagingPath(upload));
      outcome := Done;
    }

    /** A replay of a recorded chunk is acknowledged with nothing written; a fresh one is written, synced, then recorded. */
    method AppendChunk(upload: UploadId, input: AppendInput) returns (outcome: Outcome)
      modifies store, volume
      ensures !Known(old(Contents()), upload) ==> outcome == Threw(UploadNotFound) && Contents() == old(Contents())
      ensures (Known(old(Contents()), upload) ==>
                 var row := old(store.rows)[upload];
                 match JudgeAppend(volume.sha, row, old(store.chunks)[upload], input)
                 case Duplicate => outcome == Acknowledged(row.ackEpoch, row.received) && Contents() == old(Contents())
                 case Refused(StateInvalid) => outcome == Threw(UploadStateError) && Contents() == old(Contents())
                 case Refused(error) => outcome == Threw(AppendRefused(error)) && Contents() == old(Contents())
                 case Accepted => outcome.Acknowledged? || outcome == Threw(FileMissing) || outcome == Threw(WriteStalled))
      ensures BeginAppend(volume.sha, old(Contents()), upload, input).Finished? ==>
                Contents() == old(Contents()) && BeginAppend(volume.sha, old(Contents()), upload, input) == Finished(outcome)
      ensures !BeginAppend(volume.sha, old(Contents()), upload, input).Finished? ==>
                && Known(old(Contents()), upload)
                && (outcome.Acknowledged? ==>
                      && StagingPath(upload) in old(volume.files) && 0 <= input.offset
                      && Contents() == Recorded(old(Contents()), upload, input)
                      && outcome == Acknowledged(old(store.rows)[upload].ackEpoch + 1,
                                                 old(store.rows)[upload].received + |input.bytes|))
                && (!outcome.Acknowledged? ==> NotStored(old(Contents()), Contents(), upload, input, outcome))
    {
      hide Write, Sync, JudgeAppend, Recorded, NotStored;
      if !(upload in store.rows && upload in store.chunks) {
        return Threw(UploadNotFound);
      }
      var row := store.rows[upload];
      var verdict := JudgeAppend(volume.sha, row, store.chunks[upload], input);
      match verdict {
        case Duplicate =>
          return Acknowledged(row.ackEpoch, row.received);
        case Refused(error) =>
          return if error == StateInvalid then Threw(UploadStateError) else Threw(AppendRefused(error));
        case Accepted =>
          outcome := StoreAccepted(upload, input);
      }
    }

    method StoreAccepted(upload: UploadId, input: AppendInput) returns (outcome: Outcome)
      requires Known(Contents(), upload)
      requires JudgeAppend(volume.sha, store.rows[upload], store.chunks[upload], input) == Accepted
      modifies store, volume
      ensures outcome.Acknowledged? ==>
                && StagingPath(upload) in old(volume.files) && 0 <= input.offset
                && Contents() == Recorded(old(Contents()), upload, input)
                && outcome == Acknowledged(old(store.rows)[upload].ackEpoch + 1,
                                           old(store.rows)[upload].received + |input.bytes|)
      ensures !outcome.Acknowledged? ==> NotStored(old(Contents()), Contents(), upload, input, outcome)
      ensures outcome.Acknowledged? || outcome == Threw(FileMissing) || outcome == Threw(WriteStalled)
    {
      hide Write, Sync, JudgeAppend, FindChunk, NotStored, Recorded, SaveManifest, ManifestOf;
      ghost var before := Contents();
      LibraryFiles.AcceptedFacts(volume.sha, store.rows[upload], store.chunks[upload], input);
      AcceptedIsNew(volume.sha, store.rows[upload], store.chunks[upload], input);
      var result := volume.WriteChunkAtOffset(StagingPath(upload), input.offset, input.bytes);
      if result.WriteFailed? {
        if result.error == FileMissing {
          MissingIsNotStored(before, upload, input);
        } else {
          StalledIsNotStored(before, Contents(), upload, input);
        }
        return Threw(result.error);
      }
      assert Contents() == SyncFile(WriteFile(before, StagingPath(upload), input.offset, input.bytes), StagingPath(upload));
      outcome := RecordWritten(upload, RecordOf(input));
      RecordedIs(before, Contents(), upload, input);
    }

    /** The chunk row and the counters in one transaction, then the manifest. */
    method RecordWritten(upload: UploadId, chunk: ChunkRow) returns (outcome: Outcome)
      requires Known(Contents(), upload) && FindChunk(store.chunks[upload], chunk.index).None?
      modifies store, volume
      ensures (var recorded := InsertChunk(old(Contents()), upload, chunk);
               Contents() == SaveManifest(recorded, upload, ManifestOf(recorded, upload)))
      ensures outcome == Acknowledged(old(store.rows)[upload].ackEpoch + 1, old(store.rows)[upload].received + chunk.size)
    {
      hide FindChunk;
      var persisted := store.PersistChunk(upload, chunk);
      PersistUploadManifest(upload);
      outcome := Acknowledged(persisted.ackEpoch, persisted.received);
    }

    /** A fresh chunk that was not acknowledged: the file was gone, or a proper prefix of the chunk was written. */
    static ghost predicate NotStored(before: Disk, after: Disk, upload: UploadId, input: AppendInput, outcome: Outcome) {
      var staging := StagingPath(upload);
      || (outcome == Threw(FileMissing) && staging !in before.files && after == before)
      || (outcome == Threw(WriteStalled) && staging in before.files && 0 <= input.offset
          && exists k :: 0 <= k < |input.bytes| && after == WriteFile(before, staging, input.offset, input.bytes[..k]))
    }

    static lemma RecordedIs(before: Disk, after: Disk, upload: UploadId, input: AppendInput)
      requires Known(before, upload) && StagingPath(upload) in before.files && 0 <= input.offset
      requires (var written := SyncFile(WriteFile(before, StagingPath(upload), input.offset, input.bytes), StagingPath(upload));
                var recorded := InsertChunk(written, upload, RecordOf(input));
                && Known(recorded, upload)
                && after == SaveManifest(recorded, upload, ManifestOf(recorded, upload)))
      ensures after == Recorded(before, upload, input)
    {
    }

    static lemma MissingIsNotStored(disk: Disk, upload: UploadId, input: AppendInput)
      requires StagingPath(upload) !in disk.files
      ensures NotStored(disk, disk, upload, input, Threw(FileMissing))
    {
    }

    static lemma StalledIsNotStored(before: Disk, after: Disk, upload: UploadId, input: AppendInput)
      requires 0 <= input.offset && StagingPath(upload) in before.files
      requires (var original := before.files[StagingPath(upload)];
                exists k :: 0 <= k < |input.bytes|
                  && after.files == before.files[StagingPath(upload) := Write(original, input.offset, input.bytes[..k])]
                  && after.free == before.free + |original.blocks|
                                   - |Write(original, input.offset, input.bytes[..k]).blocks|)
      requires after == before.(files := after.files, free := after.free)
      ensures NotStored(before, after, upload, input, Threw(WriteStalled))
    {
      hide Write;
      var original := before.files[StagingPath(upload)];
      var k :| 0 <= k < |input.bytes|
               && after.files == before.files[StagingPath(upload) := Write(original, input.offset, input.bytes[..k])]
               && after.free == before.free + |original.blocks|
                                - |Write(original, input.offset, input.bytes[..k]).blocks|;
      assert after == WriteFile(before, StagingPath(upload), input.offset, input.bytes[..k]);
    }

    /** The disk after an acknowledged fresh chunk. */
    static ghost function Recorded(disk: Disk, upload: UploadId, input: AppendInput): Disk
      requires Known(disk, upload) && StagingPath(upload) in disk.files && 0 <= input.offset
    {
      var written := SyncFile(WriteFile(disk, StagingPath(upload), input.offset, input.bytes), StagingPath(upload));
      var recorded := InsertChunk(written, upload, RecordOf(input));
      SaveManifest(recorded, upload, ManifestOf(recorded, upload))
    }

    /** One reconciler per stored state. */
    method ReconcileOneUpload(upload: UploadId, material: MaterialId) returns (outcome: Outcome)
      requires Known(Contents(), upload)
      modifies store, volume
      ensures (Contents(), outcome) == ReconcileUpload(volume.sha, old(Contents()), upload, material)
    {
      hide Drive, AdvanceWrite, Publish, PublishBlocked, InsertChunk, MoveFile;
      ghost var sha, before := volume.sha, Contents();
      var staging := StagingPath(upload);
      match store.rows[upload].state {
        case Transferring =>
          DriveStep(sha, before, upload, ProbeTransferring, 0, material);
          var found := volume.PathExists(staging);
          if !found {
            outcome := MarkRecoverableError(upload, StagingFileMissing, material);
            return;
          }
          outcome := SaveAndStop(upload, material);
        case Staged =>
          DriveStep(sha, before, upload, ProbeStaged, 0, material);
          var found := volume.PathExists(staging);
          if !found {
            outcome := MarkRecoverableError(upload, StagingFileMissing, material);
            return;
          }
          outcome := VerifyAndCommit(upload, material);
        case HashVerified =>
          outcome := ReconcileVerifiedUpload(upload, material);
        case Committed =>
          outcome := ReconcileCommittedUpload(upload, material);
        case Ready =>
          outcome := SaveAndStop(upload, material);
        case RecoverableError =>
          outcome := SaveAndStop(upload, material);
        case Cancelled =>
          DriveStep(sha, before, upload, CleanCancelled, 0, material);
          volume.RemoveStagingFile(staging);
          assert Contents() == RemoveFile(before, staging);
          outcome := SaveAndStop(upload, material);
      }
    }

    method SaveAndStop(upload: UploadId, ghost material: MaterialId) returns (outcome: Outcome)
      requires Known(Contents(), upload)
      modifies volume
      ensures (Contents(), outcome)
           == Drive(volume.sha, old(Contents()), upload,
                    Mirror(ManifestOf(old(Contents()), upload), Finished(Done)), 0, material)
    {
      DriveMirror(volume.sha, Contents(), upload, ManifestOf(Contents(), upload), Done, 0, material);
      PersistUploadManifest(upload);
      outcome := Done;
    }

    method ReconcileVerifiedUpload(upload: UploadId, material: MaterialId) returns (outcome: Outcome)
      requires Known(Contents(), upload)
      modifies store, volume
      ensures (Contents(), outcome) == Drive(volume.sha, old(Contents()), upload, ProbeVerified, 0, material)
    {
      hide Drive, AdvanceWrite, Publish, PublishBlocked;
      DriveVerified(volume.sha, Contents(), upload, material);
      var hash, staging := store.rows[upload].sha, StagingPath(upload);
      var found := volume.PathExists(staging);
      if found {
        var fileHash := volume.HashFile(staging);
        if fileHash != Some(hash) {
          outcome := MarkRecoverableError(upload, Sha256Mismatch, material);
          return;
        }
        outcome := CommitHashVerifiedUpload(upload, material);
        return;
      }
      found := volume.PathExists(BlobPath(hash));
      if !found {
        outcome := MarkRecoverableError(upload, StagingFileMissing, material);
        return;
      }
      DriveRecovered(volume.sha, Contents(), upload, material);
      UpdateStateAndPersist(upload, Committed);
      DriveStep(volume.sha, Contents(), upload, DecideRecovered, 0, material);
      outcome := FinishCommittedUpload(upload, BlobPath(hash), hash !in store.blobs, material);
    }

    method ReconcileCommittedUpload(upload: UploadId, material: MaterialId) returns (outcome: Outcome)
      requires Known(Contents(), upload)
      modifies store, volume
      ensures (Contents(), outcome) == Drive(volume.sha, old(Contents()), upload, DecideCommitted, 0, material)
    {
      hide Drive, AdvanceWrite, Publish, PublishBlocked;
      var hash := store.rows[upload].sha;
      DriveStep(volume.sha, Contents(), upload, DecideCommitted, 0, material);
      var path := if hash in store.blobs then store.blobs[hash].path else BlobPath(hash);
      outcome := FinishCommittedUpload(upload, path, hash !in store.blobs, material);
    }

    /** The loop over the stored uploads, as the server runs it before it takes new work. */
    method ReconcileMaterialLibrary(materials: UploadId -> MaterialId) returns (completed: bool)
      modifies store, volume
      ensures (Contents(), completed)
           == ReconcileAll(volume.sha, old(Contents()), old(store.order), materials)
    {
      hide ReconcileUpload;
      var uploads := store.order;
      var i := 0;
      assert uploads[0..] == uploads;
      while i < |uploads|
        invariant 0 <= i <= |uploads|
        invariant ReconcileAll(volume.sha, old(Contents()), uploads, materials)
               == ReconcileAll(volume.sha, Contents(), uploads[i..], materials)
        decreases |uploads| - i
      {
        var upload := uploads[i];
        assert uploads[i..][1..] == uploads[i + 1..];
        if !(upload in store.rows && upload in store.chunks) {
          return false;
        }
        var outcome := ReconcileOneUpload(upload, materials(upload));
        if outcome.Threw? {
          return false;
        }
        i := i + 1;
      }
      completed := true;
    }
  }
}
