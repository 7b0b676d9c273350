/**
 The bytes a phone signs to authorize one transfer: six length-delimited fields, written by the phone
 and rebuilt by the Mac. Texts are UTF-16, as in the source; an unpaired surrogate encodes as U+FFFD.
 */
module AuthorizationPayload {
  import opened Bytes
  import opened UploadRecords

  type CodeUnit = n: int | 0 <= n < 0x1_0000
  type Scalar = n: int | 0 <= n < 0x11_0000
  type Text = seq<CodeUnit>

  const REPLACEMENT: Scalar := 0xFFFD
  const COLON: Byte := 58
  const BAR: Byte := 124

  datatype Authorization = Authorization(
    deviceId: Text,
    sessionId: Text,
    uploadId: Text,
    grant: Text,
    dtlsFingerprint: Text)

  // From UTF-16 to scalar values

  predicate IsHigh(unit: CodeUnit) {
    0xD800 <= unit < 0xDC00
  }

  predicate IsLow(unit: CodeUnit) {
    0xDC00 <= unit < 0xE000
  }

  predicate StartsWithPair(text: Text) {
    |text| >= 2 && IsHigh(text[0]) && IsLow(text[1])
  }

  function FirstWidth(text: Text): (width: nat)
    requires text != []
    ensures 1 <= width <= |text|
  {
    if StartsWithPair(text) then 2 else 1
  }

  function FirstScalar(text: Text): Scalar
    requires text != []
  {
    if StartsWithPair(text) then 0x1_0000 + (text[0] - 0xD800) * 0x400 + (text[1] - 0xDC00)
    else if IsHigh(text[0]) || IsLow(text[0]) then REPLACEMENT
    else text[0]
  }

  function Scalars(text: Text): seq<Scalar> {
    if text == [] then [] else [FirstScalar(text)] + Scalars(text[FirstWidth(text)..])
  }

  /** No surrogate stands alone. */
  predicate WellFormed(text: Text) {
    text == [] ||
    ((StartsWithPair(text) || !(IsHigh(text[0]) || IsLow(text[0]))) && WellFormed(text[FirstWidth(text)..]))
  }

  // From scalar values to UTF-8

  function EncodeScalar(s: Scalar): (bytes: seq<Byte>)
    ensures 1 <= |bytes| <= 4
  {
    if s < 0x80 then [s]
    else if s < 0x800 then [0xC0 + s / 64, 0x80 + s % 64]
    else if s < 0x1_0000 then [0xE0 + s / 4096, 0x80 + s / 64 % 64, 0x80 + s % 64]
    else [0xF0 + s / 262144, 0x80 + s / 4096 % 64, 0x80 + s / 64 % 64, 0x80 + s % 64]
  }

  function EncodeScalars(scalars: seq<Scalar>): seq<Byte> {
    if scalars == [] then [] else EncodeScalar(scalars[0]) + EncodeScalars(scalars[1..])
  }

  /** `TextEncoder.encode` and `Buffer.from(text, "utf8")`. */
  function Utf8(text: Text): seq<Byte> {
    EncodeScalars(Scalars(text))
  }

  /** `Buffer.byteLength`: counted over the code units, without encoding. */
  function ByteLength(text: Text): nat {
    if text == [] then 0
    else if StartsWithPair(text) then 4 + ByteLength(text[2..])
    else (if text[0] < 0x80 then 1 else if text[0] < 0x800 then 2 else 3) + ByteLength(text[1..])
  }

  lemma {:induction false} ByteLengthCountsUtf8(text: Text)
    ensures ByteLength(text) == |Utf8(text)|
  {
    if text != [] {
      var rest := text[FirstWidth(text)..];
      ByteLengthCountsUtf8(rest);
      assert Scalars(text)[1..] == Scalars(rest);
    }
  }

  // UTF-8 loses nothing

  function WidthByLead(lead: Byte): nat {
    if lead < 0x80 then 1 else if lead < 0xE0 then 2 else if lead < 0xF0 then 3 else 4
  }

  function Tail(b: Byte): int {
    b as int - 0x80
  }

  function ScalarAt(bytes: seq<Byte>): int
    requires bytes != [] && WidthByLead(bytes[0]) <= |bytes|
  {
    match WidthByLead(bytes[0])
    case 1 => bytes[0]
    case 2 => (bytes[0] as int - 0xC0) * 64 + Tail(bytes[1])
    case 3 => (bytes[0] as int - 0xE0) * 4096 + Tail(bytes[1]) * 64 + Tail(bytes[2])
    case _ =>
      (bytes[0] as int - 0xF0) * 262144 + Tail(bytes[1]) * 4096 + Tail(bytes[2]) * 64 + Tail(bytes[3])
  }

  lemma LeadTellsWidth(s: Scalar)
    ensures WidthByLead(EncodeScalar(s)[0]) == |EncodeScalar(s)|
  {
  }

  lemma ScalarSplits(s: Scalar)
    ensures s == s / 64 * 64 + s % 64
    ensures s / 64 == s / 4096 * 64 + s / 64 % 64
    ensures s / 4096 == s / 262144 * 64 + s / 4096 % 64
  {
  }

  lemma ScalarIsRead(s: Scalar, rest: seq<Byte>)
    ensures var bytes := EncodeScalar(s) + rest;
            WidthByLead(bytes[0]) == |EncodeScalar(s)| && ScalarAt(bytes) == s
  {
    LeadTellsWidth(s);
    ScalarSplits(s);
  }

  lemma {:induction false} EncodeScalarsInjective(a: seq<Scalar>, b: seq<Scalar>)
    requires EncodeScalars(a) == EncodeScalars(b)
    ensures a == b
  {
    if a != [] && b != [] {
      var restA, restB := EncodeScalars(a[1..]), EncodeScalars(b[1..]);
      ScalarIsRead(a[0], restA);
      ScalarIsRead(b[0], restB);
      var width := |EncodeScalar(a[0])|;
      assert restA == EncodeScalars(a)[width..] && restB == EncodeScalars(b)[width..];
      EncodeScalarsInjective(a[1..], b[1..]);
      assert a == [a[0]] + a[1..] && b == [b[0]] + b[1..];
    }
  }

  function UnitsOf(s: Scalar): Text {
    if s < 0x1_0000 then [s] else [0xD800 + (s - 0x1_0000) / 0x400, 0xDC00 + (s - 0x1_0000) % 0x400]
  }

  lemma FirstUnitsReturn(text: Text)
    requires text != [] && WellFormed(text)
    ensures UnitsOf(FirstScalar(text)) == text[..FirstWidth(text)]
  {
    if StartsWithPair(text) {
      var s := FirstScalar(text) - 0x1_0000;
      assert s / 0x400 == text[0] - 0xD800 && s % 0x400 == text[1] - 0xDC00;
    }
  }

  lemma FirstWidthFromScalar(text: Text)
    requires text != [] && WellFormed(text)
    ensures FirstWidth(text) == |UnitsOf(FirstScalar(text))|
  {
  }

  lemma {:induction false} ScalarsInjective(a: Text, b: Text)
    requires WellFormed(a) && WellFormed(b) && Scalars(a) == Scalars(b)
    ensures a == b
  {
    if a != [] && b != [] {
      assert FirstScalar(a) == Scalars(a)[0] == Scalars(b)[0] == FirstScalar(b);
      FirstWidthFromScalar(a);
      FirstWidthFromScalar(b);
      FirstUnitsReturn(a);
      FirstUnitsReturn(b);
      var width := FirstWidth(a);
      assert Scalars(a)[1..] == Scalars(a[width..]) && Scalars(b)[1..] == Scalars(b[width..]);
      ScalarsInjective(a[width..], b[width..]);
      assert a == a[..width] + a[width..] && b == b[..width] + b[width..];
    }
  }

  /** Two texts have the same UTF-8 bytes exactly when they hold the same scalar values. */
  lemma Utf8Equality(a: Text, b: Text)
    ensures Utf8(a) == Utf8(b) <==> Scalars(a) == Scalars(b)
    ensures WellFormed(a) && WellFormed(b) && Utf8(a) == Utf8(b) ==> a == b
  {
    if Utf8(a) == Utf8(b) {
      EncodeScalarsInjective(Scalars(a), Scalars(b));
      if WellFormed(a) && WellFormed(b) {
        ScalarsInjective(a, b);
      }
    }
  }

  // Encoding a joined text

  lemma FirstOfConcat(a: Text, b: Text)
    requires a != [] && (b == [] || !IsLow(b[0]))
    ensures FirstWidth(a + b) == FirstWidth(a) && FirstScalar(a + b) == FirstScalar(a)
  {
    assert StartsWithPair(a + b) == StartsWithPair(a);
  }

  lemma {:induction false} ScalarsConcat(a: Text, b: Text)
    requires b == [] || !IsLow(b[0])
    ensures Scalars(a + b) == Scalars(a) + Scalars(b)
  {
    hide FirstWidth, FirstScalar;
    if a == [] {
      assert a + b == b;
    } else {
      FirstOfConcat(a, b);
      var width := FirstWidth(a);
      ScalarsConcat(a[width..], b);
      assert (a + b)[width..] == a[width..] + b;
    }
  }

  lemma {:induction false} EncodeScalarsConcat(a: seq<Scalar>, b: seq<Scalar>)
    ensures EncodeScalars(a + b) == EncodeScalars(a) + EncodeScalars(b)
  {
    hide EncodeScalar;
    if a == [] {
      assert a + b == b;
    } else {
      EncodeScalarsConcat(a[1..], b);
      assert (a + b)[0] == a[0] && (a + b)[1..] == a[1..] + b;
    }
  }

  lemma Utf8Concat(a: Text, b: Text)
    requires b == [] || !IsLow(b[0])
    ensures Utf8(a + b) == Utf8(a) + Utf8(b)
  {
    ScalarsConcat(a, b);
    EncodeScalarsConcat(Scalars(a), Scalars(b));
  }

  predicate IsAscii(text: Text) {
    forall i :: 0 <= i < |text| ==> text[i] < 0x80
  }

  lemma {:induction false} Utf8OfAscii(text: Text)
    requires IsAscii(text)
    ensures |Utf8(text)| == |text| && forall i :: 0 <= i < |text| ==> Utf8(text)[i] == text[i]
  {
    if text != [] {
      Utf8OfAscii(text[1..]);
      assert Scalars(text)[1..] == Scalars(text[1..]);
    }
  }

  // Decimal lengths

  predicate IsDigit(b: int) {
    48 <= b < 58
  }

  function Decimal(n: nat): (digits: seq<Byte>)
    ensures digits != [] && forall i :: 0 <= i < |digits| ==> IsDigit(digits[i])
  {
    if n < 10 then [48 + n] else Decimal(n / 10) + [48 + n % 10]
  }

  function ParseDecimal(digits: seq<Byte>): int {
    if digits == [] then 0 else ParseDecimal(digits[..|digits| - 1]) * 10 + (digits[|digits| - 1] as int - 48)
  }

  lemma {:induction false} ParseInvertsDecimal(n: nat)
    ensures ParseDecimal(Decimal(n)) == n
  {
    if n >= 10 {
      ParseInvertsDecimal(n / 10);
      assert Decimal(n)[..|Decimal(n)| - 1] == Decimal(n / 10);
    } else {
      assert Decimal(n)[..0] == [];
    }
  }

  // The payload

  predicate IsAsciiWord(word: string) {
    forall i :: 0 <= i < |word| ==> word[i] as int < 0x80
  }

  function LabelUnits(word: string): Text
    requires IsAsciiWord(word)
  {
    if word == "" then [] else [word[0] as int] + LabelUnits(word[1..])
  }

  const VERSION: Text := LabelUnits("jianying-transfer-authorize-v1")

  function Join(parts: seq<Text>): Text
    requires parts != []
  {
    if |parts| == 1 then parts[0] else parts[0] + [BAR] + Join(parts[1..])
  }

  function Fields(a: Authorization): (fields: seq<Text>)
    ensures |fields| == 6
  {
    [VERSION, a.deviceId, a.sessionId, a.uploadId, a.grant, a.dtlsFingerprint]
  }

  function PhonePart(value: Text): Text {
    Decimal(|Utf8(value)|) + [COLON] + value
  }

  function MacPart(value: Text): Text {
    Decimal(ByteLength(value)) + [COLON] + value
  }

  function PhoneParts(values: seq<Text>): (parts: seq<Text>)
    ensures |parts| == |values|
  {
    if values == [] then [] else [PhonePart(values[0])] + PhoneParts(values[1..])
  }

  function MacParts(values: seq<Text>): (parts: seq<Text>)
    ensures |parts| == |values|
  {
    if values == [] then [] else [MacPart(values[0])] + MacParts(values[1..])
  }

  /** The phone's `createDeviceAuthorizationPayload`. */
  function PhonePayload(a: Authorization): seq<Byte> {
    Utf8(Join(PhoneParts(Fields(a))))
  }

  /** The Mac's `createDeviceAuthorizationPayload`. */
  function MacPayload(a: Authorization): seq<Byte> {
    Utf8(Join(MacParts(Fields(a))))
  }

  lemma {:induction false} PartsAgree(values: seq<Text>)
    ensures PhoneParts(values) == MacParts(values)
  {
    if values != [] {
      ByteLengthCountsUtf8(values[0]);
      PartsAgree(values[1..]);
    }
  }

  /** The signed bytes and the rebuilt bytes are the same bytes. */
  lemma PhoneAndMacAgree(a: Authorization)
    ensures PhonePayload(a) == MacPayload(a)
  {
    PartsAgree(Fields(a));
  }

  // The reference decoder

  function DigitRun(bytes: seq<Byte>): (run: nat)
    ensures run <= |bytes|
    ensures forall i :: 0 <= i < run ==> IsDigit(bytes[i])
    ensures run < |bytes| ==> !IsDigit(bytes[run])
  {
    if bytes == [] || !IsDigit(bytes[0]) then 0 else 1 + DigitRun(bytes[1..])
  }

  /** Reads `<length>:<bytes>` fields separated by bars; `None` when the bytes are not of that form. */
  function ReadFields(bytes: seq<Byte>): Option<seq<seq<Byte>>>
    decreases |bytes|
  {
    var run := DigitRun(bytes);
    if run == 0 || run == |bytes| || bytes[run] != COLON then None
    else
      var size := ParseDecimal(bytes[..run]);
      var end := run + 1 + size;
      if size < 0 || end > |bytes| then None
      else if end == |bytes| then Some([bytes[run + 1..]])
      else if bytes[end] != BAR then None
      else
        var rest := ReadFields(bytes[end + 1..]);
        if rest.None? then None else Some([bytes[run + 1..end]] + rest.value)
  }

  function Frame(value: seq<Byte>): seq<Byte> {
    Decimal(|value|) + [COLON] + value
  }

  function Frames(values: seq<seq<Byte>>): seq<Byte>
    requires values != []
  {
    if |values| == 1 then Frame(values[0]) else Frame(values[0]) + [BAR] + Frames(values[1..])
  }

  lemma DigitRunOfFrame(value: seq<Byte>, rest: seq<Byte>)
    ensures DigitRun(Frame(value) + rest) == |Decimal(|value|)|
  {
    var digits := Decimal(|value|);
    var bytes := Frame(value) + rest;
    assert bytes[..|digits|] == digits && bytes[|digits|] == COLON;
    assert forall i :: 0 <= i < |digits| ==> bytes[i] == digits[i];
  }

  lemma FrameIsRead(value: seq<Byte>, rest: seq<Byte>)
    ensures (var bytes := Frame(value) + rest;
             var run := DigitRun(bytes);
             0 < run && run + 1 + |value| <= |bytes| && bytes[run] == COLON && ParseDecimal(bytes[..run]) == |value| &&
             bytes[run + 1..run + 1 + |value|] == value && bytes[run + 1 + |value|..] == rest)
  {
    DigitRunOfFrame(value, rest);
    ParseInvertsDecimal(|value|);
    var digits := Decimal(|value|);
    var bytes := Frame(value) + rest;
    assert bytes[..|digits|] == digits;
  }

  /** One more frame in front is one more field in front. */
  lemma {:induction false} ReadFirst(value: seq<Byte>, rest: seq<Byte>, values: seq<seq<Byte>>)
    requires ReadFields(rest) == Some(values)
    ensures ReadFields(Frame(value) + ([BAR] + rest)) == Some([value] + values)
  {
    hide Frame, DigitRun, ParseDecimal, ReadFields;
    var tail := [BAR] + rest;
    var bytes := Frame(value) + tail;
    FrameIsRead(value, tail);
    var run := DigitRun(bytes);
    var end := run + 1 + |value|;
    assert bytes[end..] == tail;
    assert bytes[end] == tail[0] && bytes[end + 1..] == tail[1..] == rest;
    ReadUnfolds(bytes, run, |value|);
  }

  lemma ReadUnfolds(bytes: seq<Byte>, run: nat, size: nat)
    requires run == DigitRun(bytes) && 0 < run && run + 1 + size < |bytes|
    requires bytes[run] == COLON && ParseDecimal(bytes[..run]) == size && bytes[run + 1 + size] == BAR
    ensures ReadFields(bytes) == (
              var rest := ReadFields(bytes[run + 1 + size + 1..]);
              if rest.None? then None else Some([bytes[run + 1..run + 1 + size]] + rest.value))
  {
    hide DigitRun, ParseDecimal;
  }

  lemma {:induction false} ReadLast(value: seq<Byte>)
    ensures ReadFields(Frame(value)) == Some([value])
  {
    hide Frame, DigitRun, ParseDecimal;
    FrameIsRead(value, []);
    assert Frame(value) + [] == Frame(value);
  }

  lemma {:induction false} ReadInvertsFrames(values: seq<seq<Byte>>)
    requires values != []
    ensures ReadFields(Frames(values)) == Some(values)
  {
    hide Frame, ReadFields;
    if |values| == 1 {
      ReadLast(values[0]);
      assert values == [values[0]];
    } else {
      var rest := Frames(values[1..]);
      ReadInvertsFrames(values[1..]);
      assert Frames(values) == Frame(values[0]) + ([BAR] + rest);
      ReadFirst(values[0], rest, values[1..]);
      assert values == [values[0]] + values[1..];
    }
  }

  function Utf8Each(values: seq<Text>): (encoded: seq<seq<Byte>>)
    ensures |encoded| == |values|
    ensures forall i :: 0 <= i < |values| ==> encoded[i] == Utf8(values[i])
  {
    if values == [] then [] else [Utf8(values[0])] + Utf8Each(values[1..])
  }

  lemma Utf8OfPart(value: Text)
    ensures Utf8(PhonePart(value)) == Frame(Utf8(value))
  {
    var head := Decimal(|Utf8(value)|) + [COLON];
    // A length prefix is ASCII, so its bytes are its code units and it splits no surrogate pair.
    Utf8OfAscii(head);
    assert Utf8(head) == head;
    Utf8OfPrefixed(head, value);
  }

  lemma {:induction false} Utf8OfPrefixed(head: Text, value: Text)
    requires IsAscii(head)
    ensures Utf8(head + value) == Utf8(head) + Utf8(value)
  {
    if head == [] {
      assert head + value == value;
    } else {
      Utf8OfPrefixed(head[1..], value);
      assert (head + value)[1..] == head[1..] + value;
      assert Scalars(head + value)[1..] == Scalars(head[1..] + value);
      assert Scalars(head)[1..] == Scalars(head[1..]);
    }
  }

  lemma {:induction false} Utf8OfJoin(values: seq<Text>)
    requires values != []
    ensures Utf8(Join(PhoneParts(values))) == Frames(Utf8Each(values))
  {
    hide Utf8, Frame, PhonePart;
    Utf8OfPart(values[0]);
    if |values| == 1 {
      assert PhoneParts(values) == [PhonePart(values[0])];
    } else {
      Utf8OfJoin(values[1..]);
      var rest := Join(PhoneParts(values[1..]));
      assert PhoneParts(values)[1..] == PhoneParts(values[1..]);
      assert Join(PhoneParts(values)) == PhonePart(values[0]) + ([BAR] + rest);
      Utf8Concat(PhonePart(values[0]), [BAR] + rest);
      Utf8OfPrefixed([BAR], rest);
      Utf8OfAscii([BAR]);
      assert Utf8([BAR]) == [BAR];
      assert Utf8Each(values)[1..] == Utf8Each(values[1..]);
    }
  }

  /** Whatever the fields contain, a decoder gets the UTF-8 bytes of each one back. */
  lemma PayloadIsReadable(a: Authorization)
    ensures ReadFields(PhonePayload(a)) == Some(Utf8Each(Fields(a)))
    ensures Utf8Each(Fields(a)) == [Utf8(VERSION), Utf8(a.deviceId), Utf8(a.sessionId), Utf8(a.uploadId),
                                    Utf8(a.grant), Utf8(a.dtlsFingerprint)]
  {
    Utf8OfJoin(Fields(a));
    ReadInvertsFrames(Utf8Each(Fields(a)));
    FieldsInOrder(a);
  }

  lemma FieldsInOrder(a: Authorization)
    ensures Utf8Each(Fields(a)) == [Utf8(VERSION), Utf8(a.deviceId), Utf8(a.sessionId), Utf8(a.uploadId),
                                    Utf8(a.grant), Utf8(a.dtlsFingerprint)]
  {
    hide Utf8, VERSION;
    var fields := Fields(a);
    assert fields[1] == a.deviceId && fields[2] == a.sessionId && fields[3] == a.uploadId;
    assert fields[4] == a.grant && fields[5] == a.dtlsFingerprint;
  }

  ghost predicate SameScalars(a: Authorization, b: Authorization) {
    forall i :: 0 <= i < 6 ==> Scalars(Fields(a)[i]) == Scalars(Fields(b)[i])
  }

  ghost predicate AllWellFormed(a: Authorization) {
    forall i :: 0 <= i < 6 ==> WellFormed(Fields(a)[i])
  }

  /**
   Two authorizations sign the same bytes exactly when their fields hold the same scalar values, one by
   one; when no field holds an unpaired surrogate, that means they are the same authorization.
   */
  lemma PayloadEquality(a: Authorization, b: Authorization)
    ensures PhonePayload(a) == PhonePayload(b) <==> SameScalars(a, b)
    ensures AllWellFormed(a) && AllWellFormed(b) && PhonePayload(a) == PhonePayload(b) ==> a == b
  {
    hide PhonePayload, Fields, Utf8, Scalars, WellFormed;
    PayloadsFromFields(a, b);
    forall i | 0 <= i < 6
      ensures Utf8(Fields(a)[i]) == Utf8(Fields(b)[i]) <==> Scalars(Fields(a)[i]) == Scalars(Fields(b)[i])
      ensures WellFormed(Fields(a)[i]) && WellFormed(Fields(b)[i]) && Utf8(Fields(a)[i]) == Utf8(Fields(b)[i])
              ==> Fields(a)[i] == Fields(b)[i]
    {
      Utf8Equality(Fields(a)[i], Fields(b)[i]);
    }
    if PhonePayload(a) == PhonePayload(b) && AllWellFormed(a) && AllWellFormed(b) {
      FieldsDetermine(a, b);
    }
  }

  lemma FieldsDetermine(a: Authorization, b: Authorization)
    requires forall i :: 0 <= i < 6 ==> Fields(a)[i] == Fields(b)[i]
    ensures a == b
  {
    hide VERSION;
    assert Fields(a)[1] == Fields(b)[1] && Fields(a)[2] == Fields(b)[2] && Fields(a)[3] == Fields(b)[3];
    assert Fields(a)[4] == Fields(b)[4] && Fields(a)[5] == Fields(b)[5];
  }

  lemma PayloadsFromFields(a: Authorization, b: Authorization)
    ensures PhonePayload(a) == PhonePayload(b) <==> forall i :: 0 <= i < 6 ==> Utf8(Fields(a)[i]) == Utf8(Fields(b)[i])
  {
    hide PhonePayload, Fields, Utf8, Utf8Each, ReadFields;
    PayloadIsReadable(a);
    PayloadIsReadable(b);
    PayloadOfFields(a);
    PayloadOfFields(b);
    FieldByField(a, b);
  }

  lemma FieldByField(a: Authorization, b: Authorization)
    ensures Utf8Each(Fields(a)) == Utf8Each(Fields(b)) <==> forall i :: 0 <= i < 6 ==> Utf8(Fields(a)[i]) == Utf8(Fields(b)[i])
  {
    hide Utf8, Fields;
    if forall i :: 0 <= i < 6 ==> Utf8(Fields(a)[i]) == Utf8(Fields(b)[i]) {
      assert Utf8Each(Fields(a)) == Utf8Each(Fields(b));
    } else {
      var i :| 0 <= i < 6 && Utf8(Fields(a)[i]) != Utf8(Fields(b)[i]);
      assert Utf8Each(Fields(a))[i] != Utf8Each(Fields(b))[i];
    }
  }

  lemma PayloadOfFields(a: Authorization)
    ensures PhonePayload(a) == Frames(Utf8Each(Fields(a)))
  {
    Utf8OfJoin(Fields(a));
  }

  lemma UnpairedDecodesAsReplacement()
    ensures Scalars([0xD800]) == Scalars([0xFFFD]) == [REPLACEMENT]
  {
  }

  /** On arbitrary strings the encoding is not injective: an unpaired surrogate signs as U+FFFD does. */
  lemma UnpairedSurrogatesCollide(a: Authorization)
    ensures (var broken := a.(deviceId := [0xD800]);
             var replaced := a.(deviceId := [0xFFFD]);
             broken != replaced && PhonePayload(broken) == PhonePayload(replaced))
  {
    hide PhonePayload, Scalars, VERSION;
    var broken, replaced := a.(deviceId := [0xD800]), a.(deviceId := [0xFFFD]);
    UnpairedDecodesAsReplacement();
    assert broken.deviceId[0] != replaced.deviceId[0];
    assert SameScalars(broken, replaced);
    PayloadEquality(broken, replaced);
  }
}
