/**
 The session machine against the two programs it stands for: what the Mac answers is what its receiver
 replies, and what the phone sends over one session is what its loop sends.
 */
module TransferLoop {
  import opened Bytes
  import opened UploadRecords
  import opened UploadGuards
  import opened LibraryDisk
  import opened LibrarySteps
  import opened LibraryRecovery
  import opened ChunkSender
  import opened TransferTable
  import opened TransferSession
  import Receiver = IncomingUploadReceiver
  import Runs = LibraryReconcileRun
  import opened LibraryRows
  import opened LibraryFiles
  import TransferSafety
  import TransferSteps
  import TransferRun
  import L = LibraryWorld

  // The Mac

  /** What each reply means to a phone that waits; an error that is only thrown sends nothing. */
  function Heard(phone: Phone, reply: Receiver.Reply): Phone {
    match phone
    case Authorizing =>
      (match reply
       case Ack(_, received) => Resuming(received)
       case Nack(_) => Rejected
       case _ => Unanswered)
    case AwaitingAck(index, offset, input) =>
      (match reply
       case Ack(_, received) => Acknowledging(index, offset, offset + |input.bytes|, received)
       case Nack(_) => Rejected
       case _ => Unanswered)
    case Completing =>
      (match reply
       case ReadyReply(_) => Confirmed
       case Nack(_) => Rejected
       case _ => Unanswered)
    case _ => phone
  }

  /** Whatever an operation's outcome, the session's phone hears what the receiver replies. */
  lemma SessionHearsReceiver(phone: Phone, outcome: Outcome)
    ensures phone.AwaitingAck? ==> Answer(phone, outcome) == Heard(phone, Receiver.AppendReply(outcome))
    ensures phone.Completing? ==> Answer(phone, outcome) == Heard(phone, Receiver.CompleteReply(outcome))
  {
  }

  /** The reply of `Acknowledgement` to an accepted authorization, or the refusal. */
  function AuthorizeReply(disk: Disk, upload: UploadId, accepted: bool): Receiver.Reply {
    if accepted then Receiver.Counters(disk, upload) else Receiver.Nack(Receiver.AuthorizationRefused)
  }

  /** The phone that an authorization leaves in the session is the one that heard the receiver's reply. */
  lemma AuthorizationAnswersAsReceiver(sha: Sha256, upload: UploadId, job: Job, s: State, accepted: bool)
    requires 0 < job.chunkBytes && Enabled(sha, upload, job, s, Authorize(accepted))
    ensures Step(sha, upload, job, s, Authorize(accepted)).phone
         == Heard(s.phone, AuthorizeReply(s.world.disk, upload, accepted))
    ensures Step(sha, upload, job, s, Authorize(accepted)).world == s.world
    ensures accepted <==> Step(sha, upload, job, s, Authorize(accepted)).phone.Resuming?
  {
  }

  /**
   At any moment of any run, a `resume` or an accepted `authorize` is answered with the number of chunks
   in the table and the bytes they hold, and the phone accepts that count: it stands where the first
   missing chunk begins, or at the end of the file when none is missing.
   */
  lemma ReportedCountersResume(sha: Sha256, upload: UploadId, job: Job, s: State, events: seq<Event>)
    requires 0 < job.chunkBytes && TransferRun.Fresh(sha, upload, job, s) && Legal(sha, upload, job, s, events)
    ensures (var disk := After(sha, upload, job, s, events).world.disk;
             var reply := Receiver.Counters(disk, upload);
             && Known(disk, upload) && reply.Ack?
             && reply.ackEpoch == |disk.chunks[upload]|
             && reply.received == Min(|disk.chunks[upload]| * job.chunkBytes, |job.file|)
             && var resume := CreateResumePosition(|job.file|, job.chunkBytes, reply.received);
                && resume.Ok? && resume.value.offset == reply.received
                && (reply.received < |job.file| ==> resume.value.chunkIndex == |disk.chunks[upload]|))
  {
    hide TransferRun.Fresh, Legal, After, RowInv, FileInv, TransferSafety.WorkOk;
    TransferRun.FreshStarts(sha, upload, job, s);
    TransferRun.RunKeepsTransfer(sha, upload, job, s, events);
    var now := After(sha, upload, job, s, events);
    CountersResume(sha, upload, job, now.world);
  }

  lemma CountersResume(sha: Sha256, upload: UploadId, job: Job, world: L.World)
    requires RowInv(sha, world) && Known(world.disk, upload) && TransferSafety.UploadOk(sha, job, world.disk, upload)
    ensures 0 < job.chunkBytes
    ensures (var chunks, row := world.disk.chunks[upload], world.disk.rows[upload];
             && row.ackEpoch == |chunks| && row.received == Min(|chunks| * job.chunkBytes, |job.file|)
             && var resume := CreateResumePosition(|job.file|, job.chunkBytes, row.received);
                && resume.Ok? && resume.value.offset == row.received
                && (row.received < |job.file| ==> resume.value.chunkIndex == |chunks|))
  {
    hide TransferSafety.UploadOk, RowInv, CreateResumePosition, Reach, Count;
    TransferSteps.ReceivedIsReach(sha, upload, job, world);
    EpochCounts(sha, upload, world);
    PositionOfReach(job, |world.disk.chunks[upload]|, world.disk.rows[upload].received);
  }

  lemma EpochCounts(sha: Sha256, upload: UploadId, world: L.World)
    requires RowInv(sha, world) && Known(world.disk, upload)
    ensures world.disk.rows[upload].ackEpoch == |world.disk.chunks[upload]|
  {
    hide DistinctIndices, OrderOk, ReferencesOk, OneReferenceEach, BlobPathsOk, PcOk;
    assert RowOk(world.disk, upload);
  }

  lemma PositionOfReach(job: Job, k: nat, received: int)
    requires Fits(job) && k <= Count(job) && received == Reach(job, k)
    ensures received == Min(k * job.chunkBytes, |job.file|)
    ensures (var resume := CreateResumePosition(|job.file|, job.chunkBytes, received);
             && resume.Ok? && resume.value.offset == received
             && (received < |job.file| ==> resume.value.chunkIndex == k))
  {
    hide Count;
    TransferSteps.ReachResumes(job, k, received);
    if received < |job.file| {
      CancelFactor(CreateResumePosition(|job.file|, job.chunkBytes, received).value.chunkIndex, k, job.chunkBytes);
    }
  }

  lemma CancelFactor(i: nat, k: nat, bytes: nat)
    requires 0 < bytes && i * bytes == k * bytes
    ensures i == k
  {
    assert (i - k) * bytes == 0;
  }

  function MacTurns(sha: Sha256, disk: Disk, upload: UploadId, pc: Pc, material: MaterialId): seq<Event>
    requires Known(disk, upload)
    decreases Rank(pc)
  {
    if pc.Finished? then
      []
    else
      AdvanceRanks(sha, disk, upload, pc, 0, material);
      var (after, next) := Advance(sha, disk, upload, pc, 0, material);
      [MacTurn(0, material)] + MacTurns(sha, after, upload, next, material)
  }

  /** The live operation's turns in a row, from any program point that writes no chunk. */
  lemma {:induction false} TurnsAreDrive(sha: Sha256, upload: UploadId, job: Job, s: State, pc: Pc, material: MaterialId)
    requires 0 < job.chunkBytes && s.serving.LiveSession? && Known(s.world.disk, upload)
    requires upload in s.world.running && s.world.running[upload] == pc && !pc.Finished? && Runs.Spaceless(pc)
    ensures (var events := MacTurns(sha, s.world.disk, upload, pc, material);
             var (after, outcome) := Drive(sha, s.world.disk, upload, pc, 0, material);
             && Legal(sha, upload, job, s, events)
             && After(sha, upload, job, s, events)
                == State(L.World(after, s.world.running - {upload}, s.world.creation), Answer(s.phone, outcome),
                         s.authorized, s.stale, Nobody))
    decreases Rank(pc)
  {
    hide Advance, Rank, Runs.Spaceless, Answer;
    AdvanceRanks(sha, s.world.disk, upload, pc, 0, material);
    Runs.AdvanceSpaceless(sha, s.world.disk, upload, pc, material);
    var (disk, next) := Advance(sha, s.world.disk, upload, pc, 0, material);
    var events := MacTurns(sha, s.world.disk, upload, pc, material);
    assert Enabled(sha, upload, job, s, events[0]);
    var after := Step(sha, upload, job, s, events[0]);
    if !next.Finished? {
      TurnsAreDrive(sha, upload, job, after, next, material);
      assert after.world.running - {upload} == s.world.running - {upload};
    }
    assert events[1..] == MacTurns(sha, disk, upload, next, material);
  }

  lemma CompletionStarts(disk: Disk, upload: UploadId)
    requires Known(disk, upload)
    ensures Known(BeginComplete(disk, upload).0, upload) && Runs.Spaceless(BeginComplete(disk, upload).1)
  {
  }

  function CompletionEvents(sha: Sha256, disk: Disk, upload: UploadId, material: MaterialId): seq<Event>
    requires Known(disk, upload)
  {
    CompletionStarts(disk, upload);
    var (begun, pc) := BeginComplete(disk, upload);
    [TakeLive] + MacTurns(sha, begun, upload, pc, material)
  }

  /**
   A completion taken up in its session and run without interruption leaves the library as
   `ReceiveControl` does, and the phone hears exactly that method's reply.
   */
  lemma CompletionAnswersAsReceiver(sha: Sha256, upload: UploadId, job: Job, s: State, material: MaterialId)
    requires 0 < job.chunkBytes && s.phone.Completing? && s.serving.Nobody?
    requires upload !in s.world.running && Known(s.world.disk, upload)
    ensures (var events := CompletionEvents(sha, s.world.disk, upload, material);
             var (begun, pc) := BeginComplete(s.world.disk, upload);
             && Known(begun, upload)
             && (var (after, outcome) := Drive(sha, begun, upload, pc, 0, material);
                 && Legal(sha, upload, job, s, events)
                 && After(sha, upload, job, s, events).world.disk == after
                 && After(sha, upload, job, s, events).phone == Heard(s.phone, Receiver.CompleteReply(outcome))))
  {
    hide BeginComplete, Answer, Heard, Runs.Spaceless, Receiver.CompleteReply;
    CompletionStarts(s.world.disk, upload);
    var (begun, pc) := BeginComplete(s.world.disk, upload);
    var events := CompletionEvents(sha, s.world.disk, upload, material);
    assert events[1..] == MacTurns(sha, begun, upload, pc, material);
    var taken := Step(sha, upload, job, s, TakeLive);
    if pc.Finished? {
      assert events[1..] == [];
    } else {
      TurnsAreDrive(sha, upload, job, taken, pc, material);
    }
    SessionHearsReceiver(s.phone, Drive(sha, begun, upload, pc, 0, material).1);
  }

  // The phone

  function FrameOf(input: AppendInput): Sent
    requires 0 <= input.index && 0 <= input.offset
  {
    Sent(input.index, input.offset, input.bytes)
  }

  predicate IsSend(s: State, job: Job, event: Event) {
    event.Send? && s.phone.Sending? && s.phone.offset < |job.file|
  }

  /** The frames that the phone sends in a run, oldest first. */
  ghost function FramesOf(sha: Sha256, upload: UploadId, job: Job, s: State, events: seq<Event>): seq<Sent>
    requires 0 < job.chunkBytes && Legal(sha, upload, job, s, events)
    decreases |events|
  {
    if events == [] then
      []
    else
      (if IsSend(s, job, events[0]) then [FrameOf(PacketAt(sha, job, s.phone.index, s.phone.offset))] else [])
      + FramesOf(sha, upload, job, Step(sha, upload, job, s, events[0]), events[1..])
  }

  /** After `sent` frames of a session that resumed at `start`, the phone stands at frame `sent` or waits for the last. */
  ghost predicate PhoneAt(job: Job, start: Position, phone: Phone, sent: nat) {
    match phone
    case Sending(index, offset) => index == start.chunkIndex + sent && offset == start.offset + sent * job.chunkBytes
    case AwaitingAck(index, offset, input) => StandsAt(job, start, index, offset, sent)
    case Acknowledging(index, offset, _, _) => StandsAt(job, start, index, offset, sent)
    case Authorizing => false
    case Resuming(_) => false
    case _ => true
  }

  ghost predicate StandsAt(job: Job, start: Position, index: nat, offset: nat, sent: nat) {
    0 < sent && index == start.chunkIndex + sent - 1 && offset == start.offset + (sent - 1) * job.chunkBytes
  }

  lemma StepKeepsPhoneAt(sha: Sha256, upload: UploadId, job: Job, start: Position, s: State, event: Event, sent: nat)
    requires 0 < job.chunkBytes && Enabled(sha, upload, job, s, event) && !event.Connect?
    requires PhoneAt(job, start, s.phone, sent)
    ensures PhoneAt(job, start, Step(sha, upload, job, s, event).phone, if IsSend(s, job, event) then sent + 1 else sent)
    ensures IsSend(s, job, event) ==>
              InPlace(job.file, job.chunkBytes, start, FrameOf(PacketAt(sha, job, s.phone.index, s.phone.offset)), sent)
  {
    hide Begun, L.Apply, L.Enabled, Advance;
    assert sent * job.chunkBytes == (sent - 1) * job.chunkBytes + job.chunkBytes;
  }

  /**
   Over any run within one session that resumed at `start`, whatever else happens on the Mac, the frames
   sent are those of the loop: contiguous from `start`, whole chunks but for the last.
   */
  lemma {:induction false} SessionSendsInOrder(sha: Sha256, upload: UploadId, job: Job, start: Position, s: State,
                                               events: seq<Event>, before: seq<Sent>)
    requires 0 < job.chunkBytes && Legal(sha, upload, job, s, events)
    requires forall e :: e in events ==> !e.Connect?
    requires InOrder(job.file, job.chunkBytes, start, before) && PhoneAt(job, start, s.phone, |before|)
    ensures InOrder(job.file, job.chunkBytes, start, before + FramesOf(sha, upload, job, s, events))
    decreases |events|
  {
    hide Enabled, Step, InOrder, PhoneAt, IsSend;
    if events == [] {
      assert before + [] == before;
    } else {
      var event := events[0];
      assert event in events;
      var next := Step(sha, upload, job, s, event);
      StepKeepsPhoneAt(sha, upload, job, start, s, event, |before|);
      var rest := FramesOf(sha, upload, job, next, events[1..]);
      if IsSend(s, job, event) {
        SendIsSending(s, job, event);
        var frame := FrameOf(PacketAt(sha, job, s.phone.index, s.phone.offset));
        InOrderAppend(job.file, job.chunkBytes, start, before, frame);
        SessionSendsInOrder(sha, upload, job, start, next, events[1..], before + [frame]);
        assert before + ([frame] + rest) == before + [frame] + rest;
      } else {
        SessionSendsInOrder(sha, upload, job, start, next, events[1..], before);
        assert before + ([] + rest) == before + rest;
      }
    }
  }

  lemma SendIsSending(s: State, job: Job, event: Event)
    requires IsSend(s, job, event)
    ensures s.phone.Sending? && s.phone.offset <= |job.file|
  {
  }

  /** An accepted resume position is where the phone then stands, with nothing sent. */
  lemma ResumeStandsAtStart(sha: Sha256, upload: UploadId, job: Job, s: State)
    requires 0 < job.chunkBytes && s.phone.Resuming?
    ensures Enabled(sha, upload, job, s, Resume)
    ensures (var resume, phone := CreateResumePosition(|job.file|, job.chunkBytes, s.phone.received),
                                  Step(sha, upload, job, s, Resume).phone;
             if resume.Ok? then PhoneAt(job, resume.value, phone, 0) && phone.Sending? else phone == Rejected)
  {
  }

  /**
   From the Mac's reported count on: over any run within the session, the frames sent are those of the
   loop from the accepted position, and none if the position is refused.
   */
  lemma ResumedSessionSendsInOrder(sha: Sha256, upload: UploadId, job: Job, s: State, events: seq<Event>)
    requires 0 < job.chunkBytes && s.phone.Resuming? && events != [] && events[0] == Resume
    requires Legal(sha, upload, job, s, events) && forall e :: e in events ==> !e.Connect?
    ensures (var resume := CreateResumePosition(|job.file|, job.chunkBytes, s.phone.received);
             if resume.Ok? then
               InOrder(job.file, job.chunkBytes, resume.value, FramesOf(sha, upload, job, s, events))
             else
               FramesOf(sha, upload, job, s, events) == [])
  {
    hide Enabled, Step, InOrder, PhoneAt;
    var resume := CreateResumePosition(|job.file|, job.chunkBytes, s.phone.received);
    var next := Step(sha, upload, job, s, Resume);
    ResumeStandsAtStart(sha, upload, job, s);
    assert forall e :: e in events[1..] ==> e in events;
    var rest := FramesOf(sha, upload, job, next, events[1..]);
    assert [] + rest == rest;
    if resume.Ok? {
      NothingSent(job.file, job.chunkBytes, resume.value, []);
      SessionSendsInOrder(sha, upload, job, resume.value, next, events[1..], []);
    } else {
      OverSendsNothing(sha, upload, job, next, events[1..]);
    }
  }

  /** A phone that is done sends no frame before its next session. */
  lemma {:induction false} OverSendsNothing(sha: Sha256, upload: UploadId, job: Job, s: State, events: seq<Event>)
    requires 0 < job.chunkBytes && Legal(sha, upload, job, s, events) && (s.phone.Rejected? || s.phone.Offline? || s.phone.Unanswered?)
    requires forall e :: e in events ==> !e.Connect?
    ensures FramesOf(sha, upload, job, s, events) == []
    decreases |events|
  {
    hide Enabled, Step;
    if events != [] {
      assert events[0] in events;
      OverStaysOver(sha, upload, job, s, events[0]);
      assert forall e :: e in events[1..] ==> e in events;
      OverSendsNothing(sha, upload, job, Step(sha, upload, job, s, events[0]), events[1..]);
    }
  }

  lemma OverStaysOver(sha: Sha256, upload: UploadId, job: Job, s: State, event: Event)
    requires 0 < job.chunkBytes && Enabled(sha, upload, job, s, event) && !event.Connect?
    requires s.phone.Rejected? || s.phone.Offline? || s.phone.Unanswered?
    ensures (var phone := Step(sha, upload, job, s, event).phone; phone.Rejected? || phone.Offline? || phone.Unanswered?)
  {
    hide Begun, L.Apply, L.Enabled, Advance;
  }

  /** Frames in order are determined by their number, so the loop and the session send the very same ones. */
  lemma LoopAndSessionSendTheSame(file: seq<Byte>, maxChunkBytes: nat, start: Position, loop: seq<Sent>, session: seq<Sent>)
    requires 0 < maxChunkBytes && InOrder(file, maxChunkBytes, start, loop) && InOrder(file, maxChunkBytes, start, session)
    ensures if |loop| <= |session| then loop <= session else session <= loop
  {
    forall k | 0 <= k < |loop| && k < |session| ensures loop[k] == session[k] {
      assert InPlace(file, maxChunkBytes, start, loop[k], k) && InPlace(file, maxChunkBytes, start, session[k], k);
    }
  }

  /** The phone goes on after an acknowledgement exactly when the loop accepts it for the frame it sent. */
  lemma SessionAcceptsAsLoop(sha: Sha256, upload: UploadId, job: Job, s: State, sent: Sent, received: int)
    requires 0 < job.chunkBytes
    requires s.phone == Acknowledging(sent.chunkIndex, sent.offset, sent.offset + |sent.payload|, received)
    ensures Enabled(sha, upload, job, s, HearAck)
    ensures Step(sha, upload, job, s, HearAck).phone
         == if Accepts(sent, Ack(received)) then Sending(sent.chunkIndex + 1, sent.offset + job.chunkBytes) else Rejected
  {
  }
}
