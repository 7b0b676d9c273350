/** The Mac's end of one session: a flag that gates data, and handlers that act on the library. */
module IncomingUploadReceiver {
  import opened Bytes
  import opened UploadRecords
  import opened UploadGuards
  import opened LibraryDisk
  import opened LibrarySteps
  import opened LibraryRecovery
  import opened LibraryVerdict
  import opened SqliteMaterialLibrary
  import Packet = DataChunkPacket

  datatype NackCode =
    | AuthorizeRequired
    | AuthorizationRefused
    | UploadIdMismatch
    | UnexpectedControlMessage
    | PacketInvalid(fault: Packet.PacketError)
    | UploadStateInvalid
    | UnknownUpload
    | IoInterrupted
    | Integrity(error: AppendError)
    | CompletionFailed(reason: CompletionError)

  /** `Thrown` stands for an error no handler turns into a reply. */
  datatype Reply =
    | Ack(ackEpoch: nat, received: nat)
    | Nack(code: NackCode)
    | ReadyReply(material: MaterialId)
    | CancelReply
    | Thrown(error: LibraryError)

  /** `accepted` is what the authorization check says of this message; its cryptography is not modelled. */
  datatype Control = ResumeRequest | AuthorizeRequest(accepted: bool) | CancelRequest | CompleteRequest | OtherControl

  function InputOf(packet: Packet.Packet): AppendInput {
    AppendInput(packet.chunkIndex, packet.offset, packet.payload, packet.checksum)
  }

  /** The reply to an `appendChunk`: acknowledgements, then the errors `nack` recognises. */
  function AppendReply(outcome: Outcome): Reply {
    match outcome
    case Acknowledged(ackEpoch, received) => Ack(ackEpoch, received)
    case Threw(UploadStateError) => Nack(UploadStateInvalid)
    case Threw(UploadNotFound) => Nack(UnknownUpload)
    case Threw(AppendRefused(error)) => Nack(Integrity(error))
    case Threw(WriteStalled) => Nack(IoInterrupted)
    case Threw(error) => Thrown(error)
    case _ => Thrown(FileMissing)
  }

  /** The reply to a `complete`: errors are thrown on, not answered. */
  function CompleteReply(outcome: Outcome): Reply {
    match outcome
    case Published(material, _) => ReadyReply(material)
    case Failed(reason) => Nack(CompletionFailed(reason))
    case Threw(error) => Thrown(error)
    case _ => Thrown(ConstraintViolated)
  }

  /** A completion's reply says what the library returned: the material, the reason, or the error thrown on. */
  predicate Answers(reply: Reply, outcome: Outcome) {
    && (reply.ReadyReply? <==> outcome.Published?)
    && (reply.ReadyReply? ==> reply.material == outcome.material)
    && (reply.Nack? <==> outcome.Failed?)
    && (reply.Nack? ==> reply.code == CompletionFailed(outcome.reason))
    && (outcome.Threw? ==> reply == Thrown(outcome.error))
  }

  function Counters(disk: Disk, upload: UploadId): Reply {
    if upload in disk.rows then Ack(disk.rows[upload].ackEpoch, disk.rows[upload].received) else Thrown(UploadNotFound)
  }

  class Receiver {
    var authorized: bool
    const library: Library
    const uploadId: UploadId

    constructor (library: Library, uploadId: UploadId)
      ensures !authorized && this.library == library && this.uploadId == uploadId
    {
      authorized := false;
      this.library, this.uploadId := library, uploadId;
    }

    /**
     Data is refused unread until an authorization was accepted. A chunk in the table already is
     acknowledged with the counters as they stand; a new one is acknowledged only once it is recorded.
     */
    method ReceiveData(packet: array<Byte>) returns (reply: Reply)
      modifies library.store, library.volume
      ensures authorized == old(authorized)
      ensures !authorized ==> reply == Nack(AuthorizeRequired) && library.Contents() == old(library.Contents())
      ensures authorized && Packet.Decode(old(packet[..])).Err? ==>
                && reply == Nack(PacketInvalid(Packet.Decode(old(packet[..])).error))
                && library.Contents() == old(library.Contents())
      ensures reply.Ack? ==>
                && authorized && Packet.Decode(old(packet[..])).Ok?
                && var input := InputOf(Packet.Decode(old(packet[..])).value);
                && Known(library.Contents(), uploadId) && Known(old(library.Contents()), uploadId)
                && reply.ackEpoch == library.store.rows[uploadId].ackEpoch
                && reply.received == library.store.rows[uploadId].received
                && RecordOf(input) in library.store.chunks[uploadId]
                && (library.Contents() == old(library.Contents())
                    || library.store.chunks[uploadId] == old(library.store.chunks)[uploadId] + [RecordOf(input)])
      ensures (authorized && Packet.Decode(old(packet[..])).Ok? ==>
                 var input := InputOf(Packet.Decode(old(packet[..])).value);
                 var begun := BeginAppend(library.volume.sha, old(library.Contents()), uploadId, input);
                 begun.Finished? ==>
                   reply == AppendReply(begun.outcome) && library.Contents() == old(library.Contents()))
      ensures (authorized && Packet.Decode(old(packet[..])).Ok? ==>
                 var input := InputOf(Packet.Decode(old(packet[..])).value);
                 if !Known(old(library.Contents()), uploadId) then reply == Nack(UnknownUpload)
                 else
                   var row := old(library.store.rows)[uploadId];
                   match JudgeAppend(library.volume.sha, row, old(library.store.chunks)[uploadId], input)
                   case Duplicate => reply == Ack(row.ackEpoch, row.received)
                   case Refused(StateInvalid) => reply == Nack(UploadStateInvalid)
                   case Refused(error) => reply == Nack(Integrity(error))
                   case Accepted => reply.Ack? || reply == Nack(IoInterrupted) || reply == Thrown(FileMissing))
      ensures (reply.Nack? || reply.Thrown?) && library.Contents() != old(library.Contents()) ==>
                && reply == Nack(IoInterrupted) && Packet.Decode(old(packet[..])).Ok?
                && Library.NotStored(old(library.Contents()), library.Contents(), uploadId,
                                     InputOf(Packet.Decode(old(packet[..])).value), Threw(WriteStalled))
    {
      hide JudgeAppend, BeginAppend, FindChunk, Library.NotStored, Library.Recorded, Packet.Decode;
      if !authorized {
        return Nack(AuthorizeRequired);
      }
      var decoded := Packet.DecodeDataChunkPacket(packet);
      if decoded.Err? {
        return Nack(PacketInvalid(decoded.error));
      }
      ghost var before := library.Contents();
      var outcome := library.AppendChunk(uploadId, InputOf(decoded.value));
      BegunReplies(library.volume.sha, before, uploadId, InputOf(decoded.value));
      StoredReplies(before, library.Contents(), uploadId, InputOf(decoded.value), outcome);
      reply := AppendReply(outcome);
    }

    /** Control messages; only an accepted authorization for this upload opens the gate. */
    method ReceiveControl(upload: UploadId, message: Control, material: MaterialId) returns (reply: Reply)
      modifies this`authorized, library.store, library.volume
      ensures authorized == (old(authorized) || (upload == uploadId && message == AuthorizeRequest(true)))
      ensures upload != uploadId ==> reply == Nack(UploadIdMismatch)
      ensures upload == uploadId && message.OtherControl? ==> reply == Nack(UnexpectedControlMessage)
      ensures upload == uploadId && message == AuthorizeRequest(false) ==> reply == Nack(AuthorizationRefused)
      ensures upload != uploadId || message.OtherControl? || message.ResumeRequest? || message.AuthorizeRequest? ==>
                library.Contents() == old(library.Contents())
      ensures upload == uploadId && (message.ResumeRequest? || message == AuthorizeRequest(true)) ==>
                reply == Counters(library.Contents(), upload)
                && (if upload in library.store.rows then
                      reply == Ack(library.store.rows[upload].ackEpoch, library.store.rows[upload].received)
                    else reply == Thrown(UploadNotFound))
      ensures upload == uploadId && message.CompleteRequest? && !Known(old(library.Contents()), upload) ==>
                reply == Thrown(UploadNotFound) && library.Contents() == old(library.Contents())
      ensures (upload == uploadId && message.CompleteRequest? && Known(old(library.Contents()), upload) ==>
                 var (begun, pc) := BeginComplete(old(library.Contents()), upload);
                 var (after, outcome) := Drive(library.volume.sha, begun, upload, pc, 0, material);
                 reply == CompleteReply(outcome) && Answers(reply, outcome) && library.Contents() == after)
      ensures (upload == uploadId && message.CompleteRequest? && Known(old(library.Contents()), upload) ==>
                 var row := old(library.store.rows)[upload];
                 && (row.state != Transferring ==>
                       reply == Thrown(UploadStateError) && library.Contents() == old(library.Contents()))
                 && (row.state == Transferring && row.received != row.expected ==>
                       reply == Nack(CompletionFailed(UploadIncomplete)) && library.Contents() == old(library.Contents())))
      ensures upload == uploadId && message.CompleteRequest? && reply.ReadyReply? ==>
                && upload in library.store.rows && library.store.rows[upload].state == Ready
                && reply.material in library.store.references
                && library.store.references[reply.material].upload == upload
      ensures (upload == uploadId && message.CompleteRequest? && reply.Nack? ==>
                 && reply.code.CompletionFailed? && upload in library.store.rows
                 && library.store.rows[upload].state
                    == if reply.code.reason.UploadIncomplete? then Transferring else RecoverableError)
      ensures upload == uploadId && message.CancelRequest? && !Known(old(library.Contents()), upload) ==>
                reply == Thrown(UploadNotFound) && library.Contents() == old(library.Contents())
      ensures (upload == uploadId && message.CancelRequest? && Known(old(library.Contents()), upload) ==>
                 if old(library.store.rows)[upload].state != Transferring then
                   reply == Thrown(UploadStateError) && library.Contents() == old(library.Contents())
                 else
                   var changed := SetState(old(library.Contents()), upload, Cancelled);
                   && reply == CancelReply
                   && library.Contents()
                      == RemoveFile(SaveManifest(changed, upload, ManifestOf(changed, upload)), StagingPath(upload)))
    {
      hide Drive, BeginComplete;
      if upload != uploadId {
        return Nack(UploadIdMismatch);
      }
      match message {
        case ResumeRequest =>
          reply := Acknowledgement();
        case AuthorizeRequest(accepted) =>
          if !accepted {
            return Nack(AuthorizationRefused);
          }
          authorized := true;
          reply := Acknowledgement();
        case CancelRequest =>
          reply := Cancel();
        case CompleteRequest =>
          reply := Complete(material);
        case OtherControl =>
          return Nack(UnexpectedControlMessage);
      }
    }

    /** A completion is answered with its outcome; an error is thrown on. */
    method Complete(material: MaterialId) returns (reply: Reply)
      modifies library.store, library.volume
      ensures !Known(old(library.Contents()), uploadId) ==>
                reply == Thrown(UploadNotFound) && library.Contents() == old(library.Contents())
      ensures (Known(old(library.Contents()), uploadId) ==>
                 var (begun, pc) := BeginComplete(old(library.Contents()), uploadId);
                 var (after, outcome) := Drive(library.volume.sha, begun, uploadId, pc, 0, material);
                 var row := old(library.store.rows)[uploadId];
                 && reply == CompleteReply(outcome) && Answers(reply, outcome) && library.Contents() == after
                 && (row.state != Transferring ==>
                       reply == Thrown(UploadStateError) && library.Contents() == old(library.Contents()))
                 && (row.state == Transferring && row.received != row.expected ==>
                       reply == Nack(CompletionFailed(UploadIncomplete)) && library.Contents() == old(library.Contents())))
      ensures reply.ReadyReply? ==>
                && uploadId in library.store.rows && library.store.rows[uploadId].state == Ready
                && reply.material in library.store.references
                && library.store.references[reply.material].upload == uploadId
      ensures reply.Nack? ==>
                && reply.code.CompletionFailed? && uploadId in library.store.rows
                && library.store.rows[uploadId].state
                   == if reply.code.reason.UploadIncomplete? then Transferring else RecoverableError
    {
      hide Drive, Completed, BeginComplete;
      var outcome := library.CompleteUpload(uploadId, material);
      reply := CompleteReply(outcome);
    }

    method Cancel() returns (reply: Reply)
      modifies library.store, library.volume
      ensures !Known(old(library.Contents()), uploadId) ==>
                reply == Thrown(UploadNotFound) && library.Contents() == old(library.Contents())
      ensures (Known(old(library.Contents()), uploadId) ==>
                 if old(library.store.rows)[uploadId].state != Transferring then
                   reply == Thrown(UploadStateError) && library.Contents() == old(library.Contents())
                 else
                   var changed := SetState(old(library.Contents()), uploadId, Cancelled);
                   && reply == CancelReply
                   && library.Contents()
                      == RemoveFile(SaveManifest(changed, uploadId, ManifestOf(changed, uploadId)), StagingPath(uploadId)))
    {
      var outcome := library.CancelUpload(uploadId);
      reply := if outcome.Threw? then Thrown(outcome.error) else CancelReply;
    }

    method Acknowledgement() returns (reply: Reply)
      ensures reply == Counters(library.Contents(), uploadId)
      ensures if uploadId in library.store.rows then
                reply == Ack(library.store.rows[uploadId].ackEpoch, library.store.rows[uploadId].received)
              else reply == Thrown(UploadNotFound)
    {
      if !(uploadId in library.store.rows) {
        return Thrown(UploadNotFound);
      }
      var row := library.store.rows[uploadId];
      reply := Ack(row.ackEpoch, row.received);
    }
  }

  /** What an append that did start leaves: its chunk in the table, or an error that tells whether it wrote. */
  lemma StoredReplies(before: Disk, after: Disk, upload: UploadId, input: AppendInput, outcome: Outcome)
    ensures Known(before, upload) && StagingPath(upload) in before.files && 0 <= input.offset
            && after == Library.Recorded(before, upload, input) ==>
              && Known(after, upload)
              && after.chunks[upload] == before.chunks[upload] + [RecordOf(input)]
              && after.rows[upload].ackEpoch == before.rows[upload].ackEpoch + 1
              && after.rows[upload].received == before.rows[upload].received + |input.bytes|
    ensures Library.NotStored(before, after, upload, input, outcome) ==>
              (outcome == Threw(FileMissing) && after == before) || outcome == Threw(WriteStalled)
  {
    hide WriteFile, SyncFile;
    if Known(before, upload) && StagingPath(upload) in before.files && 0 <= input.offset {
      TablesOf(before, upload, input);
    }
  }

  lemma TablesOf(disk: Disk, upload: UploadId, input: AppendInput)
    requires StagingPath(upload) in disk.files && 0 <= input.offset
    ensures (var after := SyncFile(WriteFile(disk, StagingPath(upload), input.offset, input.bytes), StagingPath(upload));
             after.rows == disk.rows && after.chunks == disk.chunks)
  {
  }

  /** An append that ends before it starts is acknowledged only when its chunk is in the table already. */
  lemma BegunReplies(sha: Sha256, disk: Disk, upload: UploadId, input: AppendInput)
    ensures var pc := BeginAppend(sha, disk, upload, input);
            pc.Finished? && pc.outcome.Acknowledged? ==>
              && Known(disk, upload) && RecordOf(input) in disk.chunks[upload]
              && pc.outcome == Acknowledged(disk.rows[upload].ackEpoch, disk.rows[upload].received)
  {
    hide ChunkFits;
    if Known(disk, upload) {
      var found := FindChunk(disk.chunks[upload], input.index);
      if found.Some? && DuplicateMatches(input, found.value) {
        assert found.value == RecordOf(input);
      }
    }
  }
}
