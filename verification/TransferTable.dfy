/** The chunk table a resumable transfer builds: always the first chunks of the file, in order. */
module TransferTable {
  import opened Bytes
  import opened UploadRecords
  import opened UploadGuards
  import opened ChunkSender
  import Packet = DataChunkPacket

  /** The file being sent and the one chunk size every session uses. */
  datatype Job = Job(file: seq<Byte>, chunkBytes: nat)

  ghost predicate Fits(job: Job) {
    0 < job.chunkBytes && 0 < |job.file| <= MAX_SAFE_INTEGER
  }

  function Count(job: Job): nat
    requires 0 < job.chunkBytes
  {
    ChunkCount(|job.file|, job.chunkBytes)
  }

  /** The packet the loop sends at `offset`. */
  function PacketAt(sha: Sha256, job: Job, index: nat, offset: nat): AppendInput
    requires offset <= |job.file|
  {
    var payload := job.file[offset..Min(offset + job.chunkBytes, |job.file|)];
    AppendInput(index, offset, payload, sha(payload))
  }

  ghost predicate IsChunk(sha: Sha256, job: Job, input: AppendInput) {
    && Fits(job)
    && 0 <= input.index
    && input.index * job.chunkBytes < |job.file|
    && input == PacketAt(sha, job, input.index, input.index * job.chunkBytes)
  }

  /** The Mac decodes exactly the chunk that was sent: its index, offset, checksum and bytes. */
  lemma ChunkSurvivesTheWire(sha: Sha256, job: Job, input: AppendInput)
    requires IsChunk(sha, job, input) && |input.checksum| == 64 && Packet.IsHex(input.checksum)
    ensures var packet := Packet.Packet(input.checksum, input.index, input.offset, input.bytes);
            Packet.Validate(packet).Ok? && Packet.Decode(Packet.FrameOf(packet)) == Packet.Ok(packet)
  {
    var packet := Packet.Packet(input.checksum, input.index, input.offset, input.bytes);
    MultiplyMonotone(1, job.chunkBytes, input.index);
    Packet.DecodeInvertsEncode(packet);
  }

  function ChunkAt(sha: Sha256, job: Job, i: nat): ChunkRow
    requires i * job.chunkBytes <= |job.file|
  {
    RecordOf(PacketAt(sha, job, i, i * job.chunkBytes))
  }

  ghost predicate Prefix(sha: Sha256, job: Job, chunks: seq<ChunkRow>) {
    forall i :: 0 <= i < |chunks| ==> i * job.chunkBytes < |job.file| && chunks[i] == ChunkAt(sha, job, i)
  }

  /** The byte count of the first `k` chunks. */
  function Reach(job: Job, k: nat): int {
    Min(k * job.chunkBytes, |job.file|)
  }

  lemma ChunkEndsWhereNextStarts(sha: Sha256, job: Job, i: nat)
    requires Fits(job) && i * job.chunkBytes < |job.file|
    ensures i * job.chunkBytes + ChunkAt(sha, job, i).size == Reach(job, i + 1)
    ensures 0 < ChunkAt(sha, job, i).size
  {
    NextOffset(i, job.chunkBytes);
  }

  lemma PrefixWithin(sha: Sha256, job: Job, chunks: seq<ChunkRow>)
    requires Fits(job) && Prefix(sha, job, chunks)
    ensures |chunks| <= Count(job)
  {
    if chunks != [] {
      CountBounds(|job.file|, job.chunkBytes, |chunks| - 1);
    }
  }

  lemma {:induction false} PrefixTotal(sha: Sha256, job: Job, chunks: seq<ChunkRow>)
    requires Fits(job) && Prefix(sha, job, chunks)
    ensures Total(chunks) == Reach(job, |chunks|)
  {
    hide ChunkAt;
    if chunks != [] {
      var last := |chunks| - 1;
      PrefixTotal(sha, job, chunks[..last]);
      ChunkEndsWhereNextStarts(sha, job, last);
    }
  }

  /** The running total reaches the file size exactly when the last chunk is in the table. */
  lemma FullPrefix(sha: Sha256, job: Job, chunks: seq<ChunkRow>)
    requires Fits(job) && Prefix(sha, job, chunks)
    ensures Total(chunks) == |job.file| <==> |chunks| == Count(job)
  {
    PrefixTotal(sha, job, chunks);
    PrefixWithin(sha, job, chunks);
    CountBounds(|job.file|, job.chunkBytes, |chunks|);
  }

  lemma EarlierChunkEnds(sha: Sha256, job: Job, i: nat, j: nat)
    requires Fits(job) && i < j && j * job.chunkBytes < |job.file|
    ensures i * job.chunkBytes + ChunkAt(sha, job, i).size <= j * job.chunkBytes
  {
    MultiplyMonotone(i + 1, j, job.chunkBytes);
    NextOffset(i, job.chunkBytes);
  }

  lemma PrefixFinds(sha: Sha256, job: Job, chunks: seq<ChunkRow>, index: nat)
    requires Prefix(sha, job, chunks)
    ensures FindChunk(chunks, index) == if index < |chunks| then Some(chunks[index]) else None
  {
    assert forall i :: 0 <= i < |chunks| ==> chunks[i].index == i;
    if index < |chunks| {
      assert chunks[index] in chunks;
    }
  }

  lemma NextChunkFits(sha: Sha256, job: Job, chunks: seq<ChunkRow>, input: AppendInput)
    requires Prefix(sha, job, chunks) && IsChunk(sha, job, input) && input.index == |chunks|
    ensures ChunkFits(input, |job.file|, chunks)
    ensures input.offset + |input.bytes| <= |job.file|
  {
    hide ChunkAt;
    forall c | c in chunks ensures !Overlaps(input, c) {
      var i :| 0 <= i < |chunks| && chunks[i] == c;
      EarlierChunkEnds(sha, job, i, input.index);
      assert c.offset == i * job.chunkBytes by {
        ChunkOffset(sha, job, i);
      }
    }
  }

  lemma ChunkOffset(sha: Sha256, job: Job, i: nat)
    requires i * job.chunkBytes <= |job.file|
    ensures ChunkAt(sha, job, i).offset == i * job.chunkBytes
  {
  }

  /**
   What the library answers to a chunk of this transfer whose index is at most the number of persisted
   chunks: it is taken when it is the next one, recognised when it is an old one, and never refused
   while the upload is still in transfer.
   */
  lemma ChunkVerdict(sha: Sha256, job: Job, row: UploadRow, chunks: seq<ChunkRow>, input: AppendInput)
    requires Prefix(sha, job, chunks) && row.expected == |job.file|
    requires IsChunk(sha, job, input) && input.index <= |chunks|
    ensures JudgeAppend(sha, row, chunks, input)
         == if row.state != Transferring then Refused(StateInvalid)
            else if input.index < |chunks| then Duplicate
            else Accepted
  {
    hide ChunkFits, FindChunk;
    PrefixFinds(sha, job, chunks, input.index);
    if input.index == |chunks| {
      NextChunkFits(sha, job, chunks, input);
    }
  }

  lemma PrefixExtends(sha: Sha256, job: Job, chunks: seq<ChunkRow>, input: AppendInput)
    requires Prefix(sha, job, chunks) && IsChunk(sha, job, input) && input.index == |chunks|
    ensures Prefix(sha, job, chunks + [RecordOf(input)])
  {
  }

  // The bytes behind the table

  /** The staging file holds the file's own bytes in the chunk's range. */
  ghost predicate Matches(job: Job, staging: seq<Byte>, chunk: ChunkRow) {
    && 0 <= chunk.offset
    && chunk.offset + chunk.size <= |staging|
    && chunk.offset + chunk.size <= |job.file|
    && staging[chunk.offset..chunk.offset + chunk.size] == job.file[chunk.offset..chunk.offset + chunk.size]
  }

  ghost predicate AllMatch(job: Job, staging: seq<Byte>, chunks: seq<ChunkRow>) {
    forall c :: c in chunks ==> Matches(job, staging, c)
  }

  lemma OverlayKeepsMatch(job: Job, staging: seq<Byte>, chunk: ChunkRow, position: nat, data: seq<Byte>)
    requires Matches(job, staging, chunk)
    requires chunk.offset + chunk.size <= position || position + |data| <= chunk.offset
    ensures Matches(job, Overlay(staging, position, data), chunk)
  {
  }

  /** Writing part of the next chunk changes no byte of an earlier one. */
  lemma WriteKeepsMatches(sha: Sha256, job: Job, staging: seq<Byte>, chunks: seq<ChunkRow>,
                          input: AppendInput, from: nat, to: nat)
    requires Prefix(sha, job, chunks) && IsChunk(sha, job, input) && input.index == |chunks|
    requires from <= to <= |input.bytes| && AllMatch(job, staging, chunks)
    ensures AllMatch(job, Overlay(staging, input.offset + from, input.bytes[from..to]), chunks)
  {
    hide ChunkAt, Matches, Overlay;
    forall c | c in chunks ensures Matches(job, Overlay(staging, input.offset + from, input.bytes[from..to]), c) {
      var i :| 0 <= i < |chunks| && chunks[i] == c;
      EarlierChunkEnds(sha, job, i, input.index);
      ChunkOffset(sha, job, i);
      OverlayKeepsMatch(job, staging, c, input.offset + from, input.bytes[from..to]);
    }
  }

  /** With every chunk in the table and matching, the staging file is the file that was sent. */
  lemma FullStagingIsTheFile(sha: Sha256, job: Job, staging: seq<Byte>, chunks: seq<ChunkRow>)
    requires Fits(job) && Prefix(sha, job, chunks) && |chunks| == Count(job)
    requires AllMatch(job, staging, chunks) && |staging| == |job.file|
    ensures staging == job.file
  {
    hide ChunkAt, Matches;
    forall x | 0 <= x < |staging| ensures staging[x] == job.file[x] {
      var i := x / job.chunkBytes;
      var from := i * job.chunkBytes;
      assert from <= x < from + job.chunkBytes;
      CountBounds(|job.file|, job.chunkBytes, i);
      assert chunks[i] in chunks;
      MatchAt(sha, job, staging, i, x);
    }
  }

  lemma MatchAt(sha: Sha256, job: Job, staging: seq<Byte>, i: nat, x: nat)
    requires Fits(job) && i * job.chunkBytes <= x < i * job.chunkBytes + job.chunkBytes
    requires x < |job.file| == |staging| && Matches(job, staging, ChunkAt(sha, job, i))
    ensures staging[x] == job.file[x]
  {
    var chunk := ChunkAt(sha, job, i);
    assert staging[x] == staging[chunk.offset..chunk.offset + chunk.size][x - chunk.offset];
    assert job.file[x] == job.file[chunk.offset..chunk.offset + chunk.size][x - chunk.offset];
  }
}
