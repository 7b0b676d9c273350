/** The phone's side of a transfer: where it resumes, and the loop that sends one chunk and waits. */
module ChunkSender {
  import opened Bytes
  import opened UploadRecords
  import opened UploadGuards

  // How a file is cut into chunks

  function ChunkCount(size: nat, chunkBytes: nat): nat
    requires 0 < chunkBytes
  {
    (size + chunkBytes - 1) / chunkBytes
  }

  lemma CountBounds(size: nat, chunkBytes: nat, i: nat)
    requires 0 < chunkBytes
    ensures i < ChunkCount(size, chunkBytes) <==> i * chunkBytes < size
  {
    var n := ChunkCount(size, chunkBytes);
    assert n * chunkBytes <= size + chunkBytes - 1 < n * chunkBytes + chunkBytes;
    if i < n {
      MultiplyMonotone(i, n - 1, chunkBytes);
      assert (n - 1) * chunkBytes == n * chunkBytes - chunkBytes;
    } else {
      MultiplyMonotone(n, i, chunkBytes);
    }
  }

  /** How many whole chunks the first `offset` bytes hold, the shorter last one included. */
  function Frontier(size: nat, chunkBytes: nat, offset: nat): nat
    requires 0 < chunkBytes
  {
    if size <= offset then ChunkCount(size, chunkBytes) else offset / chunkBytes
  }

  // Resuming

  datatype Position = Position(chunkIndex: nat, offset: nat)

  datatype SenderError = ControlRejected | ConnectionFailed

  datatype Result<+T> = Ok(value: T) | Err(error: SenderError)

  function CreateResumePosition(fileSize: nat, maxChunkBytes: nat, received: int): Result<Position>
    requires 0 < maxChunkBytes
  {
    if received < 0 || received > MAX_SAFE_INTEGER || received > fileSize
       || (received != fileSize && received % maxChunkBytes != 0)
    then
      Err(ControlRejected)
    else
      Ok(Position(received / maxChunkBytes, received))
  }

  /**
   A resume request is accepted exactly when the Mac holds a whole number of leading chunks, and the
   loop then continues with the first chunk the Mac does not hold.
   */
  lemma ResumesAtWholeChunks(fileSize: nat, maxChunkBytes: nat, received: nat)
    requires 0 < maxChunkBytes && fileSize <= MAX_SAFE_INTEGER
    ensures CreateResumePosition(fileSize, maxChunkBytes, received).Ok? <==>
            exists k: nat :: k <= ChunkCount(fileSize, maxChunkBytes) && received == Min(k * maxChunkBytes, fileSize)
    ensures CreateResumePosition(fileSize, maxChunkBytes, received).Ok? && received < fileSize ==>
              CreateResumePosition(fileSize, maxChunkBytes, received).value.chunkIndex * maxChunkBytes == received
  {
    var n := ChunkCount(fileSize, maxChunkBytes);
    CountBounds(fileSize, maxChunkBytes, n);
    if CreateResumePosition(fileSize, maxChunkBytes, received).Ok? {
      if received == fileSize {
        assert received == Min(n * maxChunkBytes, fileSize);
      } else {
        var k := received / maxChunkBytes;
        assert received == k * maxChunkBytes;
        CountBounds(fileSize, maxChunkBytes, k);
        assert received == Min(k * maxChunkBytes, fileSize);
      }
    }
    if k: nat :| k <= n && received == Min(k * maxChunkBytes, fileSize) {
      if received != fileSize {
        MultipleHasNoRemainder(k, maxChunkBytes);
      }
    }
  }

  lemma MultipleHasNoRemainder(k: nat, chunkBytes: nat)
    requires 0 < chunkBytes
    ensures k * chunkBytes % chunkBytes == 0 && k * chunkBytes / chunkBytes == k
  {
    var q, r := k * chunkBytes / chunkBytes, k * chunkBytes % chunkBytes;
    assert k * chunkBytes == q * chunkBytes + r;
    if q < k {
      MultiplyMonotone(q + 1, k, chunkBytes);
    } else if k < q {
      MultiplyMonotone(k + 1, q, chunkBytes);
    }
  }

  lemma FrontierOfChunks(size: nat, chunkBytes: nat, k: nat)
    requires 0 < chunkBytes && k <= ChunkCount(size, chunkBytes)
    ensures Frontier(size, chunkBytes, Min(k * chunkBytes, size)) == k
  {
    CountBounds(size, chunkBytes, k);
    MultipleHasNoRemainder(k, chunkBytes);
  }

  // The loop

  /** What `inbox.waitFor` gives the loop: an acknowledgement, a refusal, or the loss of the session. */
  datatype Reply = Ack(received: int) | Nack | Lost

  datatype Sent = Sent(chunkIndex: nat, offset: nat, payload: seq<Byte>)

  function Payloads(frames: seq<Sent>): seq<Byte> {
    if frames == [] then [] else Payloads(frames[..|frames| - 1]) + frames[|frames| - 1].payload
  }

  function ExpectAcknowledgement(reply: Reply, expected: int): Option<SenderError> {
    match reply
    case Lost => Some(ConnectionFailed)
    case Nack => Some(ControlRejected)
    case Ack(received) =>
      if received < 0 || received > MAX_SAFE_INTEGER || received != expected then Some(ControlRejected) else None
  }

  /** Frame number `k` of a loop that resumed at `start`: contiguous, whole chunks but for the last. */
  ghost predicate InPlace(file: seq<Byte>, maxChunkBytes: nat, start: Position, sent: Sent, k: nat)
    requires 0 < maxChunkBytes
  {
    && sent.chunkIndex == start.chunkIndex + k
    && sent.offset == start.offset + k * maxChunkBytes
    && sent.offset < |file|
    && sent.payload == file[sent.offset..Min(sent.offset + maxChunkBytes, |file|)]
  }

  ghost predicate InOrder(file: seq<Byte>, maxChunkBytes: nat, start: Position, frames: seq<Sent>)
    requires 0 < maxChunkBytes
  {
    forall k :: 0 <= k < |frames| ==> InPlace(file, maxChunkBytes, start, frames[k], k)
  }

  predicate Accepts(sent: Sent, reply: Reply) {
    ExpectAcknowledgement(reply, sent.offset + |sent.payload|).None?
  }

  /** The first `count` frames drew the acknowledgements the loop insists on. */
  ghost predicate Answered(frames: seq<Sent>, replies: seq<Reply>, count: nat)
    requires count <= |frames| && count <= |replies|
  {
    forall k :: 0 <= k < count ==> Accepts(frames[k], replies[k])
  }

  /** The loop stopped in error: on its last frame, whose reply never came or was not the one expected. */
  ghost predicate StoppedAtLast(frames: seq<Sent>, replies: seq<Reply>) {
    && 0 < |frames| <= |replies| + 1
    && Answered(frames, replies, |frames| - 1)
    && (|frames| <= |replies| ==> !Accepts(frames[|frames| - 1], replies[|frames| - 1]))
  }

  /** Why a loop stopped: the session was lost before a reply, or the reply was not the expected one. */
  function Reason(frames: seq<Sent>, replies: seq<Reply>): SenderError {
    if 0 < |frames| <= |replies| && !replies[|frames| - 1].Lost? then ControlRejected else ConnectionFailed
  }

  lemma InOrderAppend(file: seq<Byte>, maxChunkBytes: nat, start: Position, frames: seq<Sent>, sent: Sent)
    requires 0 < maxChunkBytes && InOrder(file, maxChunkBytes, start, frames)
    requires InPlace(file, maxChunkBytes, start, sent, |frames|)
    ensures InOrder(file, maxChunkBytes, start, frames + [sent])
    ensures Payloads(frames + [sent]) == Payloads(frames) + sent.payload
  {
    hide InPlace;
    assert (frames + [sent])[..|frames|] == frames;
  }

  lemma NothingSent(file: seq<Byte>, maxChunkBytes: nat, start: Position, replies: seq<Reply>)
    requires 0 < maxChunkBytes
    ensures InOrder(file, maxChunkBytes, start, []) && Payloads([]) == [] && Answered([], replies, 0)
  {
  }

  lemma AnsweredAppend(frames: seq<Sent>, replies: seq<Reply>, sent: Sent)
    requires |frames| < |replies| && Answered(frames, replies, |frames|)
    ensures Accepts(sent, replies[|frames|]) ==> Answered(frames + [sent], replies, |frames| + 1)
    ensures !Accepts(sent, replies[|frames|]) ==> StoppedAtLast(frames + [sent], replies)
  {
  }

  lemma CutOff(frames: seq<Sent>, replies: seq<Reply>, sent: Sent)
    requires |frames| == |replies| && Answered(frames, replies, |frames|)
    ensures StoppedAtLast(frames + [sent], replies)
  {
  }

  lemma NextOffset(k: nat, chunkBytes: nat)
    ensures (k + 1) * chunkBytes == k * chunkBytes + chunkBytes
  {
  }

  lemma PieceExtends(file: seq<Byte>, from: nat, middle: nat, to: nat)
    requires from <= middle <= to <= |file|
    ensures file[from..middle] + file[middle..to] == file[from..to]
  {
  }

  /** The loop itself, from an accepted position. `replies` is what each wait returns. */
  method SendFrom(file: seq<Byte>, maxChunkBytes: nat, start: Position, replies: seq<Reply>)
    returns (error: Option<SenderError>, frames: seq<Sent>)
    requires 0 < maxChunkBytes && start.offset <= |file|
    ensures InOrder(file, maxChunkBytes, start, frames)
    ensures error.None? ==> |frames| <= |replies| && Answered(frames, replies, |frames|)
    ensures error.None? ==> Payloads(frames) == file[start.offset..]
    ensures error.Some? ==> StoppedAtLast(frames, replies)
    ensures error.Some? ==> error.value == Reason(frames, replies)
  {
    hide InOrder, Payloads, Answered, StoppedAtLast;
    NothingSent(file, maxChunkBytes, start, replies);
    error, frames := None, [];
    var chunkIndex, offset := start.chunkIndex, start.offset;
    while offset < |file|
      invariant start.offset <= offset && chunkIndex == start.chunkIndex + |frames|
      invariant offset == start.offset + |frames| * maxChunkBytes
      invariant |frames| <= |replies| && Answered(frames, replies, |frames|)
      invariant InOrder(file, maxChunkBytes, start, frames)
      invariant Payloads(frames) == file[start.offset..Min(offset, |file|)]
    {
      var payload := file[offset..Min(offset + maxChunkBytes, |file|)];
      var sent := Sent(chunkIndex, offset, payload);
      InOrderAppend(file, maxChunkBytes, start, frames, sent);
      PieceExtends(file, start.offset, offset, Min(offset + maxChunkBytes, |file|));
      NextOffset(|frames|, maxChunkBytes);
      var wait := |frames|;
      if wait >= |replies| {
        CutOff(frames, replies, sent);
        return Some(ConnectionFailed), frames + [sent];
      }
      AnsweredAppend(frames, replies, sent);
      var refusal := ExpectAcknowledgement(replies[wait], offset + |payload|);
      frames := frames + [sent];
      if refusal.Some? {
        return refusal, frames;
      }
      chunkIndex := chunkIndex + 1;
      offset := offset + maxChunkBytes;
    }
  }

  /**
   `transferChunks`. Success means that the frames carried exactly the bytes the Mac did not hold, in
   order, each acknowledged; any other end is an empty file, a refused position, or a refused last frame.
   */
  method TransferChunks(file: seq<Byte>, maxChunkBytes: nat, received: int, replies: seq<Reply>)
    returns (error: Option<SenderError>, frames: seq<Sent>)
    requires 0 < maxChunkBytes
    ensures var resume := CreateResumePosition(|file|, maxChunkBytes, received);
            if file == [] || resume.Err? then
              error == Some(ControlRejected) && frames == []
            else
              && InOrder(file, maxChunkBytes, resume.value, frames)
              && (if error.None? then
                    && |frames| <= |replies| && Answered(frames, replies, |frames|)
                    && Payloads(frames) == file[received..]
                  else
                    StoppedAtLast(frames, replies) && error.value == Reason(frames, replies))
  {
    if |file| == 0 {
      return Some(ControlRejected), [];
    }
    var resume := CreateResumePosition(|file|, maxChunkBytes, received);
    if resume.Err? {
      return Some(ControlRejected), [];
    }
    error, frames := SendFrom(file, maxChunkBytes, resume.value, replies);
  }
}
