/** Files on the material volume: what a reader sees, and what a power loss may take back. */
module MaterialFiles {
  import opened Bytes

  /**
   `bytes` is what reads return. Positions in `dirty`, and everything at or past `durable`, have not
   been synced. `blocks` are the positions that hold allocated storage (a sparse gap holds none).
   */
  datatype File = File(bytes: seq<Byte>, dirty: set<nat>, durable: nat, blocks: set<nat>)

  const EMPTY_FILE := File([], {}, 0, {})

  function Positions(lo: nat, hi: nat): (positions: set<nat>)
    ensures forall i: nat :: i in positions <==> lo <= i < hi
    ensures lo <= hi ==> |positions| == hi - lo
    decreases hi
  {
    if lo < hi then Positions(lo, hi - 1) + {hi - 1} else {}
  }

  function Write(file: File, position: nat, data: seq<Byte>): File {
    file.(bytes := Overlay(file.bytes, position, data),
          dirty := file.dirty + Positions(position, position + |data|),
          blocks := file.blocks + Positions(position, position + |data|))
  }

  function Sync(file: File): File {
    file.(dirty := {}, durable := |file.bytes|)
  }

  /** The bytes in [lo, hi) have reached stable storage. */
  ghost predicate Held(file: File, lo: nat, hi: nat) {
    hi <= file.durable <= |file.bytes| && forall i :: lo <= i < hi ==> i !in file.dirty
  }

  ghost predicate Stable(file: File) {
    Held(file, 0, |file.bytes|)
  }

  /**
   What a power loss can leave of `before`: unsynced bytes hold anything, and the length lies anywhere
   between the last synced length and the length a reader saw. Allocated storage stays allocated.
   */
  ghost predicate Torn(before: File, after: File)
    requires before.durable <= |before.bytes|
  {
    && before.durable <= |after.bytes| <= |before.bytes|
    && (forall i :: 0 <= i < before.durable && i !in before.dirty ==> after.bytes[i] == before.bytes[i])
    && after.dirty == {}
    && after.durable == |after.bytes|
    && after.blocks == before.blocks
  }

  lemma TornKeepsHeld(before: File, after: File, lo: nat, hi: nat)
    requires lo <= hi && Held(before, lo, hi) && Torn(before, after)
    ensures Held(after, lo, hi) && after.bytes[lo..hi] == before.bytes[lo..hi]
  {
  }

  /** Once every byte is synced, a crash returns exactly the same file contents. */
  lemma StableSurvivesCrash(before: File, after: File)
    requires Stable(before) && Torn(before, after)
    ensures Stable(after) && after.bytes == before.bytes
  {
  }

  /** A write next to a held range leaves that range held and unchanged. */
  lemma WriteKeepsHeld(file: File, position: nat, data: seq<Byte>, lo: nat, hi: nat)
    requires lo <= hi && Held(file, lo, hi)
    requires position + |data| <= lo || hi <= position
    ensures Held(Write(file, position, data), lo, hi)
    ensures Write(file, position, data).bytes[lo..hi] == file.bytes[lo..hi]
  {
  }
}
