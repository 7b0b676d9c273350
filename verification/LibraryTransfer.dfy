/** How an upload leaves transfer: by a full completion or a cancel, and by nothing else. */
module LibraryTransfer {
  import opened Bytes
  import opened UploadRecords
  import opened UploadGuards
  import opened LibraryDisk
  import opened LibrarySteps
  import opened LibraryWorld
  import opened LibraryRows
  import opened LibraryStates
  import opened LibraryFiles

  lemma TurnStaysInTransfer(sha: Sha256, disk: Disk, upload: UploadId, pc: Pc, wrote: nat, material: MaterialId)
    requires Known(disk, upload) && disk.rows[upload].state == Transferring
    requires PcOk(sha, disk, upload, pc) && PcFileOk(sha, disk, upload, pc) && FileOk(sha, disk, upload)
    ensures (var after := Advance(sha, disk, upload, pc, wrote, material).0;
             upload in after.rows && after.rows[upload].state == Transferring)
  {
    hide PublishBlocked, ManifestOf, JudgeAppend, StagingOk, ChunkHeld, PrefixWritten, AdvanceWrite;
    if pc.WriteChunk? {
      WriteKeepsRows(disk, upload, pc.input, pc.written, wrote);
    }
  }

  lemma WriteKeepsRows(disk: Disk, upload: UploadId, input: AppendInput, written: nat, wrote: nat)
    ensures AdvanceWrite(disk, upload, input, written, wrote).0.rows == disk.rows
  {
  }

  /**
   Without outside changes an upload in transfer is staged exactly by a completion that finds every byte
   received, cancelled exactly by a cancel, and else stays in transfer: nothing marks it in error.
   */
  lemma TransferEndsExactly(sha: Sha256, world: World, event: Event, upload: UploadId)
    requires RowInv(sha, world) && FileInv(sha, world) && Enabled(sha, world, event) && !event.Tamper?
    requires upload in world.disk.rows && world.disk.rows[upload].state == Transferring
    ensures (var before, after := world.disk.rows[upload], Apply(sha, world, event).disk.rows;
             && upload in after
             && after[upload].state in {Transferring, Staged, Cancelled}
             && (after[upload].state == Staged <==>
                 event == StartComplete(upload) && before.received == before.expected)
             && (after[upload].state == Cancelled <==> event == StartCancel(upload)))
  {
    if event.Turn? {
      TurnEndsNothing(sha, world, event, upload);
    } else {
      OtherEventEnds(sha, world, event, upload);
    }
  }

  lemma TurnEndsNothing(sha: Sha256, world: World, event: Event, upload: UploadId)
    requires RowInv(sha, world) && FileInv(sha, world) && Enabled(sha, world, event) && event.Turn?
    requires upload in world.disk.rows && world.disk.rows[upload].state == Transferring
    ensures (var after := Apply(sha, world, event).disk.rows; upload in after && after[upload].state == Transferring)
  {
    hide OrderOk, RowsOk, ReferencesOk, OneReferenceEach, BlobPathsOk, PcOk, PcFileOk, FileOk, OnlyTouches;
    hide Advance, FreeAfter, Durable, BlobFilesOk;
    assert Known(world.disk, upload) && FileOk(sha, world.disk, upload);
    AdvanceRows(sha, world.disk, event.upload, world.running[event.upload], event.wrote, event.material);
    if event.upload == upload {
      TurnStaysInTransfer(sha, world.disk, upload, world.running[upload], event.wrote, event.material);
    } else {
      OtherRowStays(world.disk, Apply(sha, world, event).disk, event.upload, upload);
    }
  }

  lemma OtherEventEnds(sha: Sha256, world: World, event: Event, upload: UploadId)
    requires Known(world.disk, upload) && (world.creation.Opened? ==> world.creation.upload !in world.disk.rows)
    requires Enabled(sha, world, event) && !event.Tamper? && !event.Turn?
    requires world.disk.rows[upload].state == Transferring
    ensures (var before, after := world.disk.rows[upload], Apply(sha, world, event).disk.rows;
             && upload in after
             && after[upload].state in {Transferring, Staged, Cancelled}
             && (after[upload].state == Staged <==>
                 event == StartComplete(upload) && before.received == before.expected)
             && (after[upload].state == Cancelled <==> event == StartCancel(upload)))
  {
    hide Apply, Enabled, BeginComplete, BeginCancel;
    if event.StartComplete? {
      CompletionMoves(sha, world, event.upload, upload);
    } else if event.StartCancel? {
      CancelMoves(sha, world, event.upload, upload);
    } else {
      RowStays(sha, world, event, upload);
    }
  }

  lemma CompletionMoves(sha: Sha256, world: World, started: UploadId, upload: UploadId)
    requires Known(world.disk, upload) && world.disk.rows[upload].state == Transferring
    requires Enabled(sha, world, StartComplete(started))
    ensures (var row, after := world.disk.rows[upload], Apply(sha, world, StartComplete(started)).disk.rows;
             && upload in after
             && after[upload].state == if started == upload && row.received == row.expected then Staged else Transferring)
  {
  }

  lemma CancelMoves(sha: Sha256, world: World, started: UploadId, upload: UploadId)
    requires Known(world.disk, upload) && world.disk.rows[upload].state == Transferring
    requires Enabled(sha, world, StartCancel(started))
    ensures (var after := Apply(sha, world, StartCancel(started)).disk.rows;
             && upload in after
             && after[upload].state == if started == upload then Cancelled else Transferring)
  {
  }

  lemma RowStays(sha: Sha256, world: World, event: Event, upload: UploadId)
    requires upload in world.disk.rows && (world.creation.Opened? ==> world.creation.upload !in world.disk.rows)
    requires Enabled(sha, world, event) && !event.Tamper? && !event.Turn? && !event.StartComplete? && !event.StartCancel?
    ensures (var after := Apply(sha, world, event).disk.rows; upload in after && after[upload] == world.disk.rows[upload])
  {
    hide BeginAppend, BeginReconcile, Durable, Reserved, ManifestOf;
  }

  lemma OtherRowStays(before: Disk, after: Disk, upload: UploadId, other: UploadId)
    requires OnlyTouches(before, after, upload) && other != upload && other in before.rows
    ensures other in after.rows && after.rows[other] == before.rows[other]
  {
  }

  /** The same in every run from an empty library. */
  lemma TransferNeverErrs(sha: Sha256, capacity: int, events: seq<Event>, event: Event, upload: UploadId)
    requires Legal(sha, Begin(capacity), events) && Untampered(events)
    requires Enabled(sha, After(sha, Begin(capacity), events), event) && !event.Tamper?
    requires upload in After(sha, Begin(capacity), events).disk.rows
    requires After(sha, Begin(capacity), events).disk.rows[upload].state == Transferring
    ensures (var before := After(sha, Begin(capacity), events).disk.rows[upload];
             var after := Apply(sha, After(sha, Begin(capacity), events), event).disk.rows;
             && upload in after
             && after[upload].state in {Transferring, Staged, Cancelled}
             && (after[upload].state == Staged <==>
                 event == StartComplete(upload) && before.received == before.expected)
             && (after[upload].state == Cancelled <==> event == StartCancel(upload)))
  {
    hide RowInv, FileInv, Enabled, Apply, Legal, After;
    BeginRows(sha, capacity);
    BeginFiles(sha, capacity);
    RunKeepsFiles(sha, Begin(capacity), events);
    TransferEndsExactly(sha, After(sha, Begin(capacity), events), event, upload);
  }

  /** A completion that comes early changes nothing at all, so the missing chunks are judged as before. */
  lemma PrematureCompletionIsHarmless(sha: Sha256, world: World, upload: UploadId, input: AppendInput)
    requires Known(world.disk, upload) && Enabled(sha, world, StartComplete(upload))
    requires world.disk.rows[upload].state == Transferring
    requires world.disk.rows[upload].received != world.disk.rows[upload].expected
    ensures BeginComplete(world.disk, upload) == (world.disk, Finished(Failed(UploadIncomplete)))
    ensures (var after := Apply(sha, world, StartComplete(upload));
             && after == world
             && JudgeAppend(sha, after.disk.rows[upload], after.disk.chunks[upload], input)
                == JudgeAppend(sha, world.disk.rows[upload], world.disk.chunks[upload], input))
  {
    assert world.running - {upload} == world.running;
  }
}
