/** The vocabulary of bytes and digests shared by every component. */
module Bytes {
  type Byte = n: int | 0 <= n < 256

  /** A SHA-256 digest in the source's hexadecimal text form. */
  type Hash = string

  /** SHA-256 stays a parameter of the model: every theorem holds for any such function. */
  type Sha256 = seq<Byte> -> Hash

  function Max(a: int, b: int): int {
    if a < b then b else a
  }

  function Min(a: int, b: int): int {
    if a < b then a else b
  }

  lemma MultiplyMonotone(i: nat, j: nat, factor: nat)
    requires i <= j
    ensures i * factor <= j * factor
  {
  }

  /** The bytes of a file after `data` is written at `position`; a gap past the old end reads as zero. */
  function Overlay(bytes: seq<Byte>, position: nat, data: seq<Byte>): (r: seq<Byte>)
    ensures data == [] ==> r == bytes
    ensures data != [] ==> |r| == Max(|bytes|, position + |data|)
    ensures forall i :: 0 <= i < |r| ==>
              r[i] == if position <= i < position + |data| then data[i - position]
                      else if i < |bytes| then bytes[i] else 0
  {
    if data == [] then
      bytes
    else
      seq(Max(|bytes|, position + |data|), i requires 0 <= i =>
        if position <= i < position + |data| then data[i - position]
        else if i < |bytes| then bytes[i] else 0)
  }

  /** Two adjacent writes are one write of the concatenation: short writes add up. */
  lemma OverlayAppend(bytes: seq<Byte>, position: nat, first: seq<Byte>, second: seq<Byte>)
    ensures Overlay(Overlay(bytes, position, first), position + |first|, second)
         == Overlay(bytes, position, first + second)
  {
    var whole := first + second;
    if first == [] {
      assert whole == second;
    } else if second == [] {
      assert whole == first;
    }
  }
}
