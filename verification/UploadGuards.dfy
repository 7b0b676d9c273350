/** The checks one appended chunk passes, in the order the library makes them. */
module UploadGuards {
  import opened Bytes
  import opened UploadRecords
  import opened ChunkPacking

  const MAX_SAFE_INTEGER: int := 9007199254740991

  datatype AppendInput = AppendInput(index: int, offset: int, bytes: seq<Byte>, checksum: Hash)

  datatype AppendError =
    | StateInvalid
    | ChecksumMismatch
    | ReplayMismatch
    | RangeInvalid
    | PositionUnsupported

  datatype AppendVerdict = Accepted | Duplicate | Refused(error: AppendError)

  function RecordOf(input: AppendInput): ChunkRow {
    ChunkRow(input.index, input.offset, |input.bytes|, input.checksum)
  }

  /** `existingChunks.find` on the chunk index. */
  function FindChunk(chunks: seq<ChunkRow>, index: int): (r: Option<ChunkRow>)
    ensures r.Some? ==> r.value in chunks && r.value.index == index
    ensures r.None? <==> forall c :: c in chunks ==> c.index != index
  {
    if chunks == [] then None
    else if chunks[0].index == index then Some(chunks[0])
    else FindChunk(chunks[1..], index)
  }

  predicate Overlaps(input: AppendInput, chunk: ChunkRow) {
    input.offset < chunk.offset + chunk.size && chunk.offset < input.offset + |input.bytes|
  }

  predicate ChunkFits(input: AppendInput, expected: nat, chunks: seq<ChunkRow>) {
    && 0 <= input.offset
    && input.offset + |input.bytes| <= expected
    && !exists c :: c in chunks && Overlaps(input, c)
  }

  predicate DuplicateMatches(input: AppendInput, duplicate: ChunkRow) {
    && duplicate.offset == input.offset
    && duplicate.size == |input.bytes|
    && duplicate.checksum == input.checksum
  }

  function JudgeAppend(sha: Sha256, row: UploadRow, chunks: seq<ChunkRow>, input: AppendInput): AppendVerdict {
    if row.state != Transferring then Refused(StateInvalid)
    else if sha(input.bytes) != input.checksum then Refused(ChecksumMismatch)
    else
      var duplicate := FindChunk(chunks, input.index);
      if duplicate.Some? then
        if DuplicateMatches(input, duplicate.value) then Duplicate else Refused(ReplayMismatch)
      else if !ChunkFits(input, row.expected, chunks) then Refused(RangeInvalid)
      else if input.offset + |input.bytes| > MAX_SAFE_INTEGER then Refused(PositionUnsupported)
      else Accepted
  }

  ghost predicate DistinctIndices(chunks: seq<ChunkRow>) {
    forall i, j :: 0 <= i < j < |chunks| ==> chunks[i].index != chunks[j].index
  }

  /** An accepted chunk keeps the table packed, whatever order chunks arrive in. */
  lemma AcceptedStaysPacked(sha: Sha256, row: UploadRow, chunks: seq<ChunkRow>, input: AppendInput)
    requires Packed(chunks, row.expected) && DistinctIndices(chunks)
    requires JudgeAppend(sha, row, chunks, input) == Accepted
    ensures Packed(chunks + [RecordOf(input)], row.expected)
    ensures DistinctIndices(chunks + [RecordOf(input)])
  {
    forall i | 0 <= i < |chunks|
      ensures Apart(chunks[i], RecordOf(input)) && chunks[i].index != input.index
    {
      assert chunks[i] in chunks;
      assert !Overlaps(input, chunks[i]);
    }
  }

  /**
   The guards are exact: a fresh chunk with a true checksum is taken if and only if the table stays
   packed with it, its index is new, and its end is addressable.
   */
  lemma AcceptedIffStillPacked(sha: Sha256, row: UploadRow, chunks: seq<ChunkRow>, input: AppendInput)
    requires row.state == Transferring && sha(input.bytes) == input.checksum
    requires Packed(chunks, row.expected) && DistinctIndices(chunks)
    ensures JudgeAppend(sha, row, chunks, input) == Accepted <==>
            && Packed(chunks + [RecordOf(input)], row.expected)
            && DistinctIndices(chunks + [RecordOf(input)])
            && input.offset + |input.bytes| <= MAX_SAFE_INTEGER
  {
    var record := RecordOf(input);
    var longer := chunks + [record];
    if JudgeAppend(sha, row, chunks, input) == Accepted {
      AcceptedStaysPacked(sha, row, chunks, input);
    }
    if Packed(longer, row.expected) && DistinctIndices(longer) {
      assert longer[|chunks|] == record;
      forall c | c in chunks ensures !Overlaps(input, c) && c.index != input.index {
        var i :| 0 <= i < |chunks| && chunks[i] == c;
        assert Apart(longer[i], longer[|chunks|]);
        assert longer[i].index != longer[|chunks|].index;
      }
    }
  }

  /** Each verdict, by what it finds, in the order of the checks. */
  lemma VerdictsAreExact(sha: Sha256, row: UploadRow, chunks: seq<ChunkRow>, input: AppendInput)
    requires Packed(chunks, row.expected) && DistinctIndices(chunks)
    ensures (var verdict, record := JudgeAppend(sha, row, chunks, input), RecordOf(input);
             var sound := row.state == Transferring && sha(input.bytes) == input.checksum;
             var taken := exists c :: c in chunks && c.index == input.index;
             var packed := Packed(chunks + [record], row.expected);
             && (verdict == Refused(StateInvalid) <==> row.state != Transferring)
             && (verdict == Refused(ChecksumMismatch) <==>
                 row.state == Transferring && sha(input.bytes) != input.checksum)
             && (verdict == Duplicate <==> sound && record in chunks)
             && (verdict == Refused(ReplayMismatch) <==> sound && taken && record !in chunks)
             && (verdict == Refused(RangeInvalid) <==> sound && !taken && !packed)
             && (verdict == Refused(PositionUnsupported) <==>
                 sound && !taken && packed && input.offset + |input.bytes| > MAX_SAFE_INTEGER))
  {
    hide Packed;
    var record := RecordOf(input);
    if row.state == Transferring && sha(input.bytes) == input.checksum {
      var found := FindChunk(chunks, input.index);
      if found.Some? {
        OnlyOneOfIndex(chunks, found.value, record);
      } else {
        FitsIffPacked(row, chunks, input);
      }
    }
  }

  lemma OnlyOneOfIndex(chunks: seq<ChunkRow>, found: ChunkRow, record: ChunkRow)
    requires DistinctIndices(chunks) && found in chunks && found.index == record.index
    ensures record in chunks <==> record == found
  {
  }

  /** The range check is the packing of the table, for a chunk of a new index. */
  lemma FitsIffPacked(row: UploadRow, chunks: seq<ChunkRow>, input: AppendInput)
    requires Packed(chunks, row.expected)
    ensures ChunkFits(input, row.expected, chunks) <==> Packed(chunks + [RecordOf(input)], row.expected)
  {
    var record := RecordOf(input);
    var longer := chunks + [record];
    if ChunkFits(input, row.expected, chunks) {
      forall i | 0 <= i < |chunks| ensures Apart(chunks[i], record) {
        assert chunks[i] in chunks && !Overlaps(input, chunks[i]);
      }
    }
    if Packed(longer, row.expected) {
      assert longer[|chunks|] == record;
      forall c | c in chunks ensures !Overlaps(input, c) {
        var i :| 0 <= i < |chunks| && chunks[i] == c;
        assert Apart(longer[i], longer[|chunks|]);
      }
    }
  }
}
