/**
 One file's transfer over any number of WebRTC sessions. The phone sends one chunk and waits; the Mac
 answers through the library. A session may be lost at any moment, and what it had already handed to
 the Mac is still worked off afterwards, in any order relative to the next session.
 */
module TransferSession {
  import opened Bytes
  import opened MaterialFiles
  import opened UploadRecords
  import opened UploadGuards
  import opened LibraryDisk
  import opened LibrarySteps
  import opened ChunkSender
  import opened TransferTable
  import L = LibraryWorld

  /** What the phone is doing in its current session. */
  datatype Phone =
    | Offline
    | Authorizing
    | Resuming(received: int)
    | Sending(index: nat, offset: nat)
    | AwaitingAck(index: nat, offset: nat, input: AppendInput)
    | Acknowledging(index: nat, offset: nat, expected: int, received: int)
    | Completing
    | Confirmed
    | Rejected
    | Unanswered

  /** Work a closed session left in the Mac's queues. */
  datatype Message = Chunk(input: AppendInput) | Complete

  /** Whose message the upload's running operation serves. */
  datatype Serving = Nobody | LiveSession | OldSession

  /** `authorized` is the flag of the live session's receiver. */
  datatype State = State(world: L.World, phone: Phone, authorized: bool, stale: seq<Message>, serving: Serving)

  datatype Event =
    | Elsewhere(event: L.Event)
    | Connect
    | Authorize(accepted: bool)
    | Resume
    | Send
    | TakeLive
    | TakeStale(k: nat)
    | MacTurn(wrote: nat, material: MaterialId)
    | MacFails(answered: bool)
    | HearAck
    | LoseSession(delivered: bool)
    | MacCrash(files: map<Path, File>)

  /** Events of the library that this transfer does not cause itself; a user may still cancel it. */
  predicate Foreign(event: L.Event, upload: UploadId) {
    match event
    case StartAppend(u, _) => u != upload
    case StartComplete(u) => u != upload
    case Turn(u, _, _) => u != upload
    case Fail(u) => u != upload
    case Crash(_) => false
    case Tamper(_) => false
    case _ => true
  }

  ghost predicate Enabled(sha: Sha256, upload: UploadId, job: Job, s: State, event: Event) {
    match event
    case Elsewhere(e) => Foreign(e, upload) && L.Enabled(sha, s.world, e)
    case Connect => s.phone.Offline?
    case Authorize(_) => s.phone.Authorizing? && upload in s.world.disk.rows
    case Resume => s.phone.Resuming?
    case Send => s.phone.Sending?
    case TakeLive => (s.phone.AwaitingAck? || s.phone.Completing?) && upload !in s.world.running
    case TakeStale(k) => k < |s.stale| && upload !in s.world.running
    case MacTurn(wrote, material) => L.Enabled(sha, s.world, L.Turn(upload, wrote, material))
    case MacFails(_) => upload in s.world.running
    case HearAck => s.phone.Acknowledging?
    case LoseSession(_) => !s.phone.Offline?
    case MacCrash(files) => L.Enabled(sha, s.world, L.Crash(files))
  }

  /** `receiveData` and `receiveControl`: what the phone hears of an operation's outcome, if anything. */
  function Answer(phone: Phone, outcome: Outcome): Phone {
    match phone
    case AwaitingAck(index, offset, input) =>
      (match outcome
       case Acknowledged(_, received) => Acknowledging(index, offset, offset + |input.bytes|, received)
       case Threw(UploadStateError) => Rejected
       case Threw(UploadNotFound) => Rejected
       case Threw(AppendRefused(_)) => Rejected
       case Threw(WriteStalled) => Rejected
       case _ => Unanswered)
    case Completing =>
      (match outcome
       case Published(_, _) => Confirmed
       case Failed(_) => Rejected
       case _ => Unanswered)
    case _ => phone
  }

  /** Starting an operation for a message; it may be over at once. */
  function Begun(sha: Sha256, upload: UploadId, world: L.World, message: Message): (L.World, Pc) {
    match message
    case Chunk(input) =>
      var pc := BeginAppend(sha, world.disk, upload, input);
      (world.(running := L.Resume(world.running, upload, pc)), pc)
    case Complete =>
      var (disk, pc) := BeginComplete(world.disk, upload);
      (world.(disk := disk, running := L.Resume(world.running, upload, pc)), pc)
  }

  function LiveMessage(phone: Phone): Message
    requires phone.AwaitingAck? || phone.Completing?
  {
    if phone.Completing? then Complete else Chunk(phone.input)
  }

  function Step(sha: Sha256, upload: UploadId, job: Job, s: State, event: Event): State
    requires 0 < job.chunkBytes && Enabled(sha, upload, job, s, event)
  {
    match event
    case Elsewhere(e) => s.(world := L.Apply(sha, s.world, e))
    case Connect => s.(phone := Authorizing, authorized := false)
    case Authorize(accepted) =>
      if accepted then s.(phone := Resuming(s.world.disk.rows[upload].received), authorized := true)
      else s.(phone := Rejected)
    case Resume =>
      (match CreateResumePosition(|job.file|, job.chunkBytes, s.phone.received)
       case Ok(position) => s.(phone := Sending(position.chunkIndex, position.offset))
       case Err(_) => s.(phone := Rejected))
    case Send =>
      if s.phone.offset < |job.file| then
        var index, offset := s.phone.index, s.phone.offset;
        s.(phone := AwaitingAck(index, offset, PacketAt(sha, job, index, offset)))
      else
        s.(phone := Completing)
    case TakeLive =>
      if s.phone.AwaitingAck? && !s.authorized then
        s.(phone := Rejected)
      else
        var (world, pc) := Begun(sha, upload, s.world, LiveMessage(s.phone));
        if pc.Finished? then s.(world := world, phone := Answer(s.phone, pc.outcome))
        else s.(world := world, serving := LiveSession)
    case TakeStale(k) =>
      var (world, pc) := Begun(sha, upload, s.world, s.stale[k]);
      s.(world := world, stale := s.stale[..k] + s.stale[k + 1..], serving := if pc.Finished? then Nobody else OldSession)
    case MacTurn(wrote, material) =>
      var pc := Advance(sha, s.world.disk, upload, s.world.running[upload], wrote, material).1;
      State(L.Apply(sha, s.world, L.Turn(upload, wrote, material)),
            if pc.Finished? && s.serving.LiveSession? then Answer(s.phone, pc.outcome) else s.phone,
            s.authorized,
            s.stale,
            if pc.Finished? then Nobody else s.serving)
    case MacFails(answered) =>
      State(L.Apply(sha, s.world, L.Fail(upload)),
            if !s.serving.LiveSession? then s.phone else if answered then Rejected else Unanswered,
            s.authorized,
            s.stale,
            Nobody)
    case HearAck =>
      var Acknowledging(index, offset, expected, received) := s.phone;
      if ExpectAcknowledgement(Ack(received), expected).Some? then s.(phone := Rejected)
      else s.(phone := Sending(index + 1, offset + job.chunkBytes))
    case LoseSession(delivered) =>
      var queued := delivered && !s.serving.LiveSession? && (s.phone.Completing? || (s.phone.AwaitingAck? && s.authorized));
      s.(phone := Offline,
         authorized := false,
         stale := if queued then s.stale + [LiveMessage(s.phone)] else s.stale,
         serving := if s.serving.LiveSession? then OldSession else s.serving)
    case MacCrash(files) =>
      State(L.Apply(sha, s.world, L.Crash(files)), Offline, false, [], Nobody)
  }

  ghost predicate Legal(sha: Sha256, upload: UploadId, job: Job, s: State, events: seq<Event>)
    requires 0 < job.chunkBytes
    decreases |events|
  {
    events == [] ||
    (Enabled(sha, upload, job, s, events[0]) && Legal(sha, upload, job, Step(sha, upload, job, s, events[0]), events[1..]))
  }

  ghost function After(sha: Sha256, upload: UploadId, job: Job, s: State, events: seq<Event>): State
    requires 0 < job.chunkBytes && Legal(sha, upload, job, s, events)
    decreases |events|
  {
    if events == [] then s else After(sha, upload, job, Step(sha, upload, job, s, events[0]), events[1..])
  }
}
