/**
 Why comparing a running total with the expected size is a test of coverage: chunks that never overlap
 and never leave [0, expected) fill it exactly when their sizes add up to `expected`.
 */
module ChunkPacking {
  import opened UploadRecords
  import opened MaterialFiles

  ghost predicate Apart(a: ChunkRow, b: ChunkRow) {
    a.offset + a.size <= b.offset || b.offset + b.size <= a.offset
  }

  ghost predicate Packed(chunks: seq<ChunkRow>, expected: nat) {
    && (forall i :: 0 <= i < |chunks| ==> 0 <= chunks[i].offset && chunks[i].offset + chunks[i].size <= expected)
    && (forall i, j :: 0 <= i < j < |chunks| ==> Apart(chunks[i], chunks[j]))
  }

  predicate Spans(chunk: ChunkRow, position: int) {
    chunk.offset <= position < chunk.offset + chunk.size
  }

  ghost predicate Covers(chunks: seq<ChunkRow>, position: int) {
    exists c :: c in chunks && Spans(c, position)
  }

  function SpanOf(chunk: ChunkRow): (span: set<nat>)
    ensures 0 <= chunk.offset ==> |span| == chunk.size
    ensures 0 <= chunk.offset ==> forall position: nat :: position in span <==> Spans(chunk, position)
  {
    if chunk.offset < 0 then {} else Positions(chunk.offset, chunk.offset + chunk.size)
  }

  /** The byte positions the recorded chunks fill. */
  function Filled(chunks: seq<ChunkRow>): set<nat> {
    if chunks == [] then {} else Filled(chunks[..|chunks| - 1]) + SpanOf(chunks[|chunks| - 1])
  }

  lemma PackedFront(chunks: seq<ChunkRow>, expected: nat)
    requires Packed(chunks, expected) && chunks != []
    ensures Packed(chunks[..|chunks| - 1], expected)
    ensures var last := chunks[|chunks| - 1];
            forall c :: c in chunks[..|chunks| - 1] ==> Apart(c, last)
  {
  }

  lemma CoversLast(chunks: seq<ChunkRow>, position: int)
    requires chunks != []
    ensures Covers(chunks, position)
       <==> Covers(chunks[..|chunks| - 1], position) || Spans(chunks[|chunks| - 1], position)
  {
    assert chunks == chunks[..|chunks| - 1] + [chunks[|chunks| - 1]];
  }

  lemma {:induction false} FilledIsCovered(chunks: seq<ChunkRow>, expected: nat, position: nat)
    requires Packed(chunks, expected)
    ensures position in Filled(chunks) <==> Covers(chunks, position)
  {
    if chunks != [] {
      PackedFront(chunks, expected);
      CoversLast(chunks, position);
      FilledIsCovered(chunks[..|chunks| - 1], expected, position);
    }
  }

  lemma {:induction false} FilledCount(chunks: seq<ChunkRow>, expected: nat)
    requires Packed(chunks, expected)
    ensures |Filled(chunks)| == Total(chunks)
    ensures Filled(chunks) <= Positions(0, expected)
  {
    if chunks != [] {
      var front, last := chunks[..|chunks| - 1], chunks[|chunks| - 1];
      PackedFront(chunks, expected);
      FilledCount(front, expected);
      forall position | position in Filled(front) ensures position !in SpanOf(last) {
        FilledIsCovered(front, expected, position);
        var c :| c in front && Spans(c, position);
        assert Apart(c, last);
      }
      assert |Filled(front) + SpanOf(last)| == |Filled(front)| + |SpanOf(last)|;
    }
  }

  lemma SubsetOfEqualSize(part: set<nat>, whole: set<nat>)
    requires part <= whole && |part| == |whole|
    ensures part == whole
  {
    if part != whole {
      var x :| x in whole && x !in part;
      assert part <= whole - {x};
      assert |whole - {x}| == |whole| - 1;
      SubsetSize(part, whole - {x});
    }
  }

  lemma {:induction false} SubsetSize(part: set<nat>, whole: set<nat>)
    requires part <= whole
    ensures |part| <= |whole|
  {
    if x :| x in part {
      SubsetSize(part - {x}, whole - {x});
    }
  }

  /** The packing lemma: the total never passes `expected`, and reaches it exactly when no byte is missing. */
  lemma TotalMeasuresCoverage(chunks: seq<ChunkRow>, expected: nat)
    requires Packed(chunks, expected)
    ensures Total(chunks) <= expected
    ensures Total(chunks) == expected <==> forall position :: 0 <= position < expected ==> Covers(chunks, position)
  {
    var all := Positions(0, expected);
    FilledCount(chunks, expected);
    SubsetSize(Filled(chunks), all);
    if Total(chunks) == expected {
      SubsetOfEqualSize(Filled(chunks), all);
      forall position | 0 <= position < expected ensures Covers(chunks, position) {
        assert position in all;
        FilledIsCovered(chunks, expected, position);
      }
    }
    if forall position :: 0 <= position < expected ==> Covers(chunks, position) {
      forall position: nat | position in all ensures position in Filled(chunks) {
        FilledIsCovered(chunks, expected, position);
      }
      assert Filled(chunks) == all;
    }
  }
}
