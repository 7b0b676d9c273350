/** The binary frame of one data chunk: two big-endian counters, a digest, and the payload. */
module DataChunkPacket {
  import opened Bytes

  const HEADER_BYTES := 48
  const MAX_UINT64: int := 0xffff_ffff_ffff_ffff

  datatype Packet = Packet(checksum: Hash, chunkIndex: int, offset: int, payload: seq<Byte>)

  datatype PacketError = ChecksumInvalid | ChunkIndexInvalid | FrameTooShort | OffsetInvalid | PayloadEmpty

  datatype Result<+T> = Ok(value: T) | Err(error: PacketError)

  // Big-endian numbers

  function BigEndian(width: nat, value: nat): (bytes: seq<Byte>)
    ensures |bytes| == width
  {
    if width == 0 then [] else BigEndian(width - 1, value / 256) + [value % 256]
  }

  function NumberOf(bytes: seq<Byte>): nat {
    if bytes == [] then 0 else NumberOf(bytes[..|bytes| - 1]) * 256 + bytes[|bytes| - 1]
  }

  function Power256(exponent: nat): nat {
    if exponent == 0 then 1 else 256 * Power256(exponent - 1)
  }

  lemma {:induction false} NumberOfBigEndian(width: nat, value: nat)
    requires value < Power256(width)
    ensures NumberOf(BigEndian(width, value)) == value
  {
    if width > 0 {
      NumberOfBigEndian(width - 1, value / 256);
      assert BigEndian(width, value)[..width - 1] == BigEndian(width - 1, value / 256);
    }
  }

  lemma {:induction false} BigEndianOfNumber(bytes: seq<Byte>)
    ensures NumberOf(bytes) < Power256(|bytes|)
    ensures BigEndian(|bytes|, NumberOf(bytes)) == bytes
  {
    if bytes != [] {
      BigEndianOfNumber(bytes[..|bytes| - 1]);
      assert bytes == bytes[..|bytes| - 1] + [bytes[|bytes| - 1]];
    }
  }

  /** Byte `i` of a big-endian number is its digit of that weight, base 256, the heaviest first. */
  lemma {:induction false} BigEndianAt(width: nat, value: nat, i: nat)
    requires i < width
    ensures 0 < Power256(width - 1 - i)
    ensures BigEndian(width, value)[i] == value / Power256(width - 1 - i) % 256
  {
    if i < width - 1 {
      BigEndianAt(width - 1, value / 256, i);
      DivideTwice(value, Power256(width - 2 - i));
      assert Power256(width - 1 - i) == 256 * Power256(width - 2 - i);
    }
  }

  lemma DivideTwice(value: nat, weight: nat)
    requires 0 < weight
    ensures value / 256 / weight == value / (256 * weight)
  {
    var outer := value / 256;
    var q, r := outer / weight, outer % weight;
    assert outer == q * weight + r;
    assert value == 256 * outer + value % 256;
    var rest := 256 * r + value % 256;
    assert value == q * (256 * weight) + rest && 0 <= rest < 256 * weight;
    QuotientIs(value, 256 * weight, q, rest);
  }

  lemma QuotientIs(value: nat, divisor: nat, q: nat, rest: nat)
    requires 0 < divisor && value == q * divisor + rest && rest < divisor
    ensures value / divisor == q
  {
    var other := value / divisor;
    assert value == other * divisor + value % divisor;
    if q < other {
      MultiplyMonotone(q + 1, other, divisor);
    } else if other < q {
      MultiplyMonotone(other + 1, q, divisor);
    }
  }

  lemma EightBytes()
    ensures Power256(8) == MAX_UINT64 + 1
  {
    assert Power256(2) == 65536;
    assert Power256(4) == 4294967296;
    assert Power256(6) == 281474976710656;
  }

  // Hexadecimal text

  predicate IsHexDigit(c: char) {
    '0' <= c <= '9' || 'a' <= c <= 'f'
  }

  function DigitValue(c: char): (v: nat)
    requires IsHexDigit(c)
    ensures v < 16
  {
    if c <= '9' then c as int - '0' as int else c as int - 'a' as int + 10
  }

  function DigitOf(v: nat): (c: char)
    requires v < 16
    ensures IsHexDigit(c) && DigitValue(c) == v
  {
    if v < 10 then ('0' as int + v) as char else ('a' as int + v - 10) as char
  }

  predicate IsHex(text: string) {
    forall i :: 0 <= i < |text| ==> IsHexDigit(text[i])
  }

  function Hex(bytes: seq<Byte>): (text: string)
    ensures |text| == 2 * |bytes| && IsHex(text)
  {
    if bytes == [] then
      ""
    else
      var last := bytes[|bytes| - 1];
      Hex(bytes[..|bytes| - 1]) + [DigitOf(last / 16), DigitOf(last % 16)]
  }

  function Unhex(text: string): (bytes: seq<Byte>)
    requires IsHex(text) && |text| % 2 == 0
    ensures |bytes| == |text| / 2
  {
    if text == "" then
      []
    else
      var n := |text| - 2;
      Unhex(text[..n]) + [DigitValue(text[n]) * 16 + DigitValue(text[n + 1])]
  }

  /** Each byte prints as its high digit, then its low digit. */
  lemma {:induction false} HexAt(bytes: seq<Byte>, i: nat)
    requires i < |bytes|
    ensures Hex(bytes)[2 * i] == DigitOf(bytes[i] / 16) && Hex(bytes)[2 * i + 1] == DigitOf(bytes[i] % 16)
  {
    hide DigitOf;
    if i < |bytes| - 1 {
      HexAt(bytes[..|bytes| - 1], i);
    }
  }

  lemma {:induction false} UnhexHex(bytes: seq<Byte>)
    ensures Unhex(Hex(bytes)) == bytes
  {
    hide Unhex, DigitOf;
    UnhexEmpty();
    if bytes != [] {
      var front, last := bytes[..|bytes| - 1], bytes[|bytes| - 1];
      UnhexHex(front);
      UnhexAppend(Hex(front), DigitOf(last / 16), DigitOf(last % 16));
      assert bytes == front + [last];
    }
  }

  lemma UnhexEmpty()
    ensures Unhex("") == []
  {
  }

  lemma UnhexAppend(text: string, high: char, low: char)
    requires IsHex(text) && |text| % 2 == 0 && IsHexDigit(high) && IsHexDigit(low)
    ensures IsHex(text + [high, low])
    ensures Unhex(text + [high, low]) == Unhex(text) + [DigitValue(high) * 16 + DigitValue(low)]
  {
    hide Unhex, DigitValue, IsHexDigit, IsHex;
    var longer := text + [high, low];
    LongerIsHex(text, high, low);
    assert longer[..|text|] == text && longer[|text|] == high && longer[|text| + 1] == low;
    UnhexUnfolds(longer);
  }

  lemma LongerIsHex(text: string, high: char, low: char)
    requires IsHex(text) && IsHexDigit(high) && IsHexDigit(low)
    ensures IsHex(text + [high, low])
  {
    hide IsHexDigit;
  }

  lemma UnhexUnfolds(text: string)
    requires IsHex(text) && |text| % 2 == 0 && text != ""
    ensures (var n := |text| - 2;
             Unhex(text) == Unhex(text[..n]) + [DigitValue(text[n]) * 16 + DigitValue(text[n + 1])])
  {
    hide DigitValue, IsHexDigit;
  }

  lemma DigitsAreUnique(c: char)
    requires IsHexDigit(c)
    ensures DigitOf(DigitValue(c)) == c
  {
  }

  lemma PairOfDigits(high: nat, low: nat)
    requires high < 16 && low < 16
    ensures (high * 16 + low) / 16 == high && (high * 16 + low) % 16 == low
  {
  }

  lemma HexAppend(front: seq<Byte>, last: Byte)
    ensures Hex(front + [last]) == Hex(front) + [DigitOf(last / 16), DigitOf(last % 16)]
  {
    assert (front + [last])[..|front|] == front;
  }

  lemma {:induction false} HexUnhex(text: string)
    requires IsHex(text) && |text| % 2 == 0
    ensures Hex(Unhex(text)) == text
  {
    hide Hex, DigitOf, DigitValue;
    if text != "" {
      var n := |text| - 2;
      var high, low := DigitValue(text[n]), DigitValue(text[n + 1]);
      HexUnhex(text[..n]);
      DigitsAreUnique(text[n]);
      DigitsAreUnique(text[n + 1]);
      PairOfDigits(high, low);
      HexAppend(Unhex(text[..n]), high * 16 + low);
      assert text == text[..n] + [text[n], text[n + 1]];
    } else {
      assert Hex([]) == "";
    }
  }

  lemma UnhexPrefix(text: string, pairs: nat)
    requires IsHex(text) && |text| % 2 == 0 && 2 * pairs + 2 <= |text|
    ensures Unhex(text[..2 * pairs + 2])
         == Unhex(text[..2 * pairs]) + [DigitValue(text[2 * pairs]) * 16 + DigitValue(text[2 * pairs + 1])]
  {
    assert text[..2 * pairs + 2][..2 * pairs] == text[..2 * pairs];
  }

  // Frames

  /** `validatePacket`, in the order it checks. */
  function Validate(packet: Packet): Result<()> {
    if packet.chunkIndex < 0 || packet.chunkIndex > MAX_UINT64 then Err(ChunkIndexInvalid)
    else if packet.offset < 0 || packet.offset > MAX_UINT64 then Err(OffsetInvalid)
    else if |packet.checksum| != 64 || !IsHex(packet.checksum) then Err(ChecksumInvalid)
    else if packet.payload == [] then Err(PayloadEmpty)
    else Ok(())
  }

  function FrameOf(packet: Packet): seq<Byte>
    requires Validate(packet).Ok?
  {
    BigEndian(8, packet.chunkIndex) + BigEndian(8, packet.offset) + Unhex(packet.checksum) + packet.payload
  }

  function Decode(frame: seq<Byte>): Result<Packet> {
    if |frame| < HEADER_BYTES then Err(FrameTooShort)
    else if |frame| == HEADER_BYTES then Err(PayloadEmpty)
    else Ok(Packet(Hex(frame[16..48]), NumberOf(frame[0..8]), NumberOf(frame[8..16]), frame[48..]))
  }

  /** Decoding inverts encoding for every valid packet, over the full 64-bit ranges; the layout is fixed. */
  lemma DecodeInvertsEncode(packet: Packet)
    requires Validate(packet).Ok?
    ensures |FrameOf(packet)| == HEADER_BYTES + |packet.payload|
    ensures FrameOf(packet)[0..8] == BigEndian(8, packet.chunkIndex)
    ensures FrameOf(packet)[8..16] == BigEndian(8, packet.offset)
    ensures Hex(FrameOf(packet)[16..48]) == packet.checksum && FrameOf(packet)[48..] == packet.payload
    ensures Decode(FrameOf(packet)) == Ok(packet)
  {
    var frame := FrameOf(packet);
    EightBytes();
    NumberOfBigEndian(8, packet.chunkIndex);
    NumberOfBigEndian(8, packet.offset);
    HexUnhex(packet.checksum);
    assert frame[0..8] == BigEndian(8, packet.chunkIndex);
    assert frame[8..16] == BigEndian(8, packet.offset);
    assert frame[16..48] == Unhex(packet.checksum);
    assert frame[48..] == packet.payload;
  }

  /** Every frame longer than its header is the encoding of exactly the packet it decodes to. */
  lemma EncodeInvertsDecode(frame: seq<Byte>)
    ensures Decode(frame).Ok? <==> |frame| > HEADER_BYTES
    ensures Decode(frame).Ok? ==>
              Validate(Decode(frame).value).Ok? && FrameOf(Decode(frame).value) == frame
  {
    if |frame| > HEADER_BYTES {
      var packet := Decode(frame).value;
      EightBytes();
      BigEndianOfNumber(frame[0..8]);
      BigEndianOfNumber(frame[8..16]);
      UnhexHex(frame[16..48]);
      assert frame == frame[0..8] + frame[8..16] + frame[16..48] + frame[48..];
    }
  }

  // The loops over the frame buffer

  method ReadUint64(bytes: array<Byte>, offset: nat) returns (value: nat)
    requires offset + 8 <= bytes.Length
    ensures value == NumberOf(bytes[offset..offset + 8])
  {
    value := 0;
    var index := offset;
    while index < offset + 8
      invariant offset <= index <= offset + 8
      invariant value == NumberOf(bytes[offset..index])
    {
      value := value * 256 + bytes[index];
      index := index + 1;
      assert bytes[offset..index][..index - 1 - offset] == bytes[offset..index - 1];
    }
  }

  method WriteUint64(bytes: array<Byte>, offset: nat, value: nat)
    requires offset + 8 <= bytes.Length
    modifies bytes
    ensures bytes[offset..offset + 8] == BigEndian(8, value)
    ensures forall i :: 0 <= i < bytes.Length && !(offset <= i < offset + 8) ==> bytes[i] == old(bytes[i])
  {
    var rest := value;
    var index := 7;
    assert bytes[offset + 8..offset + 8] == [];
    while index >= 0
      invariant -1 <= index <= 7
      invariant 0 <= rest
      invariant BigEndian(8, value) == BigEndian(index + 1, rest) + bytes[offset + index + 1..offset + 8]
      invariant forall i :: 0 <= i < bytes.Length && !(offset <= i < offset + 8) ==> bytes[i] == old(bytes[i])
    {
      ghost var tail := bytes[offset + index + 1..offset + 8];
      bytes[offset + index] := rest % 256;
      assert bytes[offset + index..offset + 8] == [rest % 256] + tail;
      assert BigEndian(index + 1, rest) == BigEndian(index, rest / 256) + [rest % 256];
      assert BigEndian(index + 1, rest) + tail == BigEndian(index, rest / 256) + ([rest % 256] + tail);
      rest := rest / 256;
      index := index - 1;
    }
  }

  method BytesToHex(bytes: array<Byte>, from: nat, to: nat) returns (text: string)
    requires from <= to <= bytes.Length
    ensures text == Hex(bytes[from..to])
  {
    text := "";
    for i := from to to
      invariant text == Hex(bytes[from..i])
    {
      assert bytes[from..i + 1][..i - from] == bytes[from..i];
      text := text + [DigitOf(bytes[i] / 16), DigitOf(bytes[i] % 16)];
    }
  }

  method WriteHex(bytes: array<Byte>, offset: nat, text: string)
    requires offset + 32 <= bytes.Length && |text| == 64 && IsHex(text)
    modifies bytes
    ensures bytes[offset..offset + 32] == Unhex(text)
    ensures forall i :: 0 <= i < bytes.Length && !(offset <= i < offset + 32) ==> bytes[i] == old(bytes[i])
  {
    assert bytes[offset..offset] == Unhex(text[..0]);
    var index := 0;
    while index < 32
      invariant 0 <= index <= 32
      invariant bytes[offset..offset + index] == Unhex(text[..2 * index])
      invariant forall i :: 0 <= i < bytes.Length && !(offset <= i < offset + 32) ==> bytes[i] == old(bytes[i])
    {
      UnhexPrefix(text, index);
      ghost var done := bytes[offset..offset + index];
      var start := index * 2;
      bytes[offset + index] := DigitValue(text[start]) * 16 + DigitValue(text[start + 1]);
      assert bytes[offset..offset + index + 1] == done + [bytes[offset + index]];
      index := index + 1;
    }
    assert text[..64] == text;
  }

  method EncodeDataChunkPacket(packet: Packet) returns (result: Result<array<Byte>>)
    ensures result.Err? <==> Validate(packet).Err?
    ensures result.Err? ==> result.error == Validate(packet).error
    ensures (var indexOk, offsetOk := 0 <= packet.chunkIndex <= MAX_UINT64, 0 <= packet.offset <= MAX_UINT64;
             var checksumOk := |packet.checksum| == 64 && IsHex(packet.checksum);
             && (result == Err(ChunkIndexInvalid) <==> !indexOk)
             && (result == Err(OffsetInvalid) <==> indexOk && !offsetOk)
             && (result == Err(ChecksumInvalid) <==> indexOk && offsetOk && !checksumOk)
             && (result == Err(PayloadEmpty) <==> indexOk && offsetOk && checksumOk && packet.payload == []))
    ensures result.Ok? ==> fresh(result.value) && result.value[..] == FrameOf(packet)
  {
    var valid := Validate(packet);
    if valid.Err? {
      return Err(valid.error);
    }
    var frame := new Byte[HEADER_BYTES + |packet.payload|](_ => 0);
    WriteUint64(frame, 0, packet.chunkIndex);
    ghost var index := frame[0..8];
    WriteUint64(frame, 8, packet.offset);
    assert frame[0..8] == index;
    ghost var counters := frame[0..16];
    assert counters == index + frame[8..16];
    WriteHex(frame, 16, packet.checksum);
    assert frame[0..16] == counters;
    ghost var header := frame[0..48];
    assert header == counters + frame[16..48];
    forall i | 0 <= i < |packet.payload| {
      frame[HEADER_BYTES + i] := packet.payload[i];
    }
    assert frame[0..48] == header;
    assert frame[48..] == packet.payload;
    assert frame[..] == frame[0..48] + frame[48..];
    return Ok(frame);
  }

  method DecodeDataChunkPacket(input: array<Byte>) returns (result: Result<Packet>)
    ensures result == Decode(input[..])
    ensures result == Err(FrameTooShort) <==> input.Length < HEADER_BYTES
    ensures result == Err(PayloadEmpty) <==> input.Length == HEADER_BYTES
  {
    if input.Length < HEADER_BYTES {
      return Err(FrameTooShort);
    }
    var chunkIndex := ReadUint64(input, 0);
    var offset := ReadUint64(input, 8);
    var checksum := BytesToHex(input, 16, HEADER_BYTES);
    var payload := input[HEADER_BYTES..];
    if |payload| == 0 {
      return Err(PayloadEmpty);
    }
    assert input[..][0..8] == input[0..8] && input[..][8..16] == input[8..16];
    assert input[..][16..48] == input[16..48] && input[..][48..] == payload;
    return Ok(Packet(checksum, chunkIndex, offset, payload));
  }
}
