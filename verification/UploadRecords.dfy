/** Rows of the SQLite tables `uploads`, `upload_chunks`, `blobs` and `material_references`. */
module UploadRecords {
  import opened Bytes

  type UploadId = string
  type MaterialId = string

  datatype UploadState =
    | Transferring
    | Staged
    | HashVerified
    | Committed
    | Ready
    | RecoverableError
    | Cancelled

  /** `target` stands for the project and category columns. */
  datatype UploadRow = UploadRow(
    expected: nat,
    sha: Hash,
    target: string,
    state: UploadState,
    ackEpoch: nat,
    received: nat)

  datatype ChunkRow = ChunkRow(index: int, offset: int, size: nat, checksum: Hash)

  datatype Reference = Reference(upload: UploadId, sha: Hash, target: string)

  /** The mirror file kept for one upload: its row and its chunk rows. */
  datatype Manifest = Manifest(row: UploadRow, chunks: seq<ChunkRow>)

  datatype Option<+T> = None | Some(value: T)

  /** The sizes of the recorded chunks, added up; new rows arrive at the end. */
  function Total(chunks: seq<ChunkRow>): nat {
    if chunks == [] then 0 else Total(chunks[..|chunks| - 1]) + chunks[|chunks| - 1].size
  }

  lemma TotalAppend(chunks: seq<ChunkRow>, chunk: ChunkRow)
    ensures Total(chunks + [chunk]) == Total(chunks) + chunk.size
  {
    assert (chunks + [chunk])[..|chunks|] == chunks;
  }
}
