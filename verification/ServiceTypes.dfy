/**
 Service type ids and their two spellings: the printable name an id may stand for, and the hexadecimal form that every
 id has.
 */
module ServiceTypes {
  import opened Options

  type Byte = b: int | 0 <= b < 256

  function Zeros(n: nat): (zeros: seq<Byte>)
    ensures |zeros| == n
  {
    if n == 0 then [] else Zeros(n - 1) + [0]
  }

  type ServiceTypeId = id: seq<Byte> | |id| == 32 witness Zeros(32)

  datatype ParseError = BadHex | NotAllBytes | BadNameLength | NotPrintable | ZeroServiceType

  // ----- Hexadecimal -----

  function HexDigit(d: nat): char
    requires d < 16
  {
    "0123456789abcdef"[d]
  }

  /** The value of a hexadecimal digit, in either case. */
  function DigitValue(c: char): Option<nat> {
    if '0' <= c <= '9' then Some(c as int - '0' as int)
    else if 'a' <= c <= 'f' then Some(c as int - 'a' as int + 10)
    else if 'A' <= c <= 'F' then Some(c as int - 'A' as int + 10)
    else None
  }

  function EncodeHex(bytes: seq<Byte>): string {
    if |bytes| == 0 then "" else [HexDigit(bytes[0] / 16), HexDigit(bytes[0] % 16)] + EncodeHex(bytes[1..])
  }

  function DecodeHex(digits: string): Option<seq<Byte>> {
    if |digits| == 0 then Some([])
    else if |digits| == 1 then None
    else
      var high, low, rest := DigitValue(digits[0]), DigitValue(digits[1]), DecodeHex(digits[2..]);
      if high.None? || low.None? || rest.None? || 16 * high.value + low.value >= 256 then None
      else Some([16 * high.value + low.value] + rest.value)
  }

  lemma DigitOfByte(b: Byte)
    ensures DigitValue(HexDigit(b / 16)) == Some(b / 16) && DigitValue(HexDigit(b % 16)) == Some(b % 16)
  {}

  lemma {:induction false} DecodeEncode(bytes: seq<Byte>)
    ensures DecodeHex(EncodeHex(bytes)) == Some(bytes)
    ensures |EncodeHex(bytes)| == 2 * |bytes|
  {
    if |bytes| > 0 {
      DecodeEncode(bytes[1..]);
      DigitOfByte(bytes[0]);
      var digits := EncodeHex(bytes);
      assert digits[2..] == EncodeHex(bytes[1..]);
      assert digits[0] == HexDigit(bytes[0] / 16) && digits[1] == HexDigit(bytes[0] % 16);
      assert [bytes[0]] + bytes[1..] == bytes;
      hide HexDigit;
      hide DigitValue;
    }
  }

  function Lower(c: char): char {
    if 'A' <= c <= 'Z' then (c as int + 32) as char else c
  }

  predicate SameIgnoringCase(a: string, b: string) {
    |a| == |b| && forall i :: 0 <= i < |a| ==> Lower(a[i]) == Lower(b[i])
  }

  lemma LowerDigit(c: char, d: char)
    requires Lower(c) == Lower(d)
    ensures DigitValue(c) == DigitValue(d)
  {}

  /** Case makes no difference to what a digit string says. */
  lemma {:induction false} CaseDoesNotMatter(a: string, b: string)
    requires SameIgnoringCase(a, b)
    ensures DecodeHex(a) == DecodeHex(b)
    decreases |a|
  {
    if |a| > 1 {
      LowerDigit(a[0], b[0]);
      LowerDigit(a[1], b[1]);
      CaseDoesNotMatter(a[2..], b[2..]);
    }
    hide DigitValue;
    hide Lower;
  }

  lemma DigitAgain(c: char)
    requires DigitValue(c).Some?
    ensures DigitValue(c).value < 16 && Lower(HexDigit(DigitValue(c).value)) == Lower(c)
  {}

  lemma ByteDigits(high: nat, low: nat)
    requires high < 16 && low < 16
    ensures (16 * high + low) / 16 == high && (16 * high + low) % 16 == low && 16 * high + low < 256
  {}

  lemma SamePairs(a: string, b: string, again: string, digits: string)
    requires |digits| >= 2 && |a| == 2 && again == a + b && SameIgnoringCase(b, digits[2..])
    requires Lower(a[0]) == Lower(digits[0]) && Lower(a[1]) == Lower(digits[1])
    ensures SameIgnoringCase(again, digits)
  {
    hide Lower;
    forall i | 0 <= i < |digits|
      ensures |again| == |digits| && Lower(again[i]) == Lower(digits[i])
    {
      if i >= 2 {
        assert again[i] == b[i - 2] && digits[i] == digits[2..][i - 2];
      }
    }
  }

  lemma EncodeOne(b: Byte, rest: seq<Byte>)
    ensures EncodeHex([b] + rest) == [HexDigit(b / 16), HexDigit(b % 16)] + EncodeHex(rest)
  {
    hide HexDigit;
    assert ([b] + rest)[0] == b && ([b] + rest)[1..] == rest;
  }

  lemma DecodeFirst(digits: string) returns (b: Byte)
    requires DecodeHex(digits).Some? && |digits| > 0
    ensures |digits| >= 2 && DecodeHex(digits[2..]).Some?
    ensures DecodeHex(digits).value == [b] + DecodeHex(digits[2..]).value
    ensures Lower(HexDigit(b / 16)) == Lower(digits[0]) && Lower(HexDigit(b % 16)) == Lower(digits[1])
  {
    var high, low := DigitValue(digits[0]).value, DigitValue(digits[1]).value;
    DigitAgain(digits[0]);
    DigitAgain(digits[1]);
    hide HexDigit;
    hide DigitValue;
    hide Lower;
    ByteDigits(high, low);
    b := 16 * high + low;
  }

  /** What decodes is, but for case, what its bytes encode to. */
  lemma {:induction false} EncodeDecode(digits: string)
    requires DecodeHex(digits).Some?
    ensures SameIgnoringCase(EncodeHex(DecodeHex(digits).value), digits)
  {
    if |digits| > 0 {
      var b := DecodeFirst(digits);
      hide DecodeHex;
      hide EncodeHex;
      hide HexDigit;
      hide Lower;
      hide SameIgnoringCase;
      var rest := DecodeHex(digits[2..]).value;
      EncodeDecode(digits[2..]);
      EncodeOne(b, rest);
      SamePairs([HexDigit(b / 16), HexDigit(b % 16)], EncodeHex(rest), EncodeHex(DecodeHex(digits).value), digits);
    }
  }

  // ----- The hexadecimal spelling -----

  /** Renders an id in the hexadecimal form the API accepts. */
  function ServiceTypeToFilter(id: ServiceTypeId): string {
    "0x" + EncodeHex(id)
  }

  predicate StartsWith0x(text: string) {
    |text| >= 2 && text[0] == '0' && text[1] == 'x'
  }

  function TrimAll0x(text: string): string {
    if StartsWith0x(text) then TrimAll0x(text[2..]) else text
  }

  function Prefixes(n: nat): string {
    if n == 0 then "" else "0x" + Prefixes(n - 1)
  }

  /** Trimming drops every `0x` a text starts with, and nothing else. */
  lemma {:induction false} TrimsAllPrefixes(text: string) returns (n: nat)
    ensures text == Prefixes(n) + TrimAll0x(text) && !StartsWith0x(TrimAll0x(text))
  {
    if StartsWith0x(text) {
      var m := TrimsAllPrefixes(text[2..]);
      n := m + 1;
      assert text == "0x" + text[2..];
    } else {
      n := 0;
    }
  }

  /** Compares a hexadecimal string with raw bytes, tolerating `0x` prefixes and either case. */
  predicate HexMatches(value: string, expected: seq<Byte>) {
    SameIgnoringCase(TrimAll0x(value), EncodeHex(expected))
  }

  lemma HexMatchesMeans(value: string, expected: seq<Byte>)
    ensures HexMatches(value, expected) <==> DecodeHex(TrimAll0x(value)) == Some(expected)
  {
    DecodeEncode(expected);
    if HexMatches(value, expected) {
      CaseDoesNotMatter(TrimAll0x(value), EncodeHex(expected));
    }
    if DecodeHex(TrimAll0x(value)) == Some(expected) {
      EncodeDecode(TrimAll0x(value));
    }
  }

  lemma EncodedIsNo0x(bytes: seq<Byte>)
    ensures !StartsWith0x(EncodeHex(bytes))
  {
    if |bytes| > 0 {
      DigitOfByte(bytes[0]);
    }
  }

  lemma FilterTrims(id: ServiceTypeId)
    ensures TrimAll0x(ServiceTypeToFilter(id)) == EncodeHex(id)
  {
    EncodedIsNo0x(id);
    assert ServiceTypeToFilter(id)[2..] == EncodeHex(id);
  }

  // ----- The name -----

  /** Printable ASCII other than the space. */
  predicate IsGraphic(b: int) {
    0x21 <= b <= 0x7E
  }

  predicate IsName(name: string) {
    forall i :: 0 <= i < |name| ==> IsGraphic(name[i] as int)
  }

  /** The bytes of a name, padded to the length of an id. */
  function Padded(name: string): ServiceTypeId
    requires IsName(name) && |name| <= 32
  {
    seq(32, i requires 0 <= i => if i < |name| then ByteOf(name[i]) else 0)
  }

  function ByteOf(c: char): Byte {
    if c as int < 256 then c as int else 0
  }

  /** One more than the position of the last byte that is not zero. */
  function UnpaddedLen(bytes: seq<Byte>): nat {
    if |bytes| == 0 then 0
    else if bytes[|bytes| - 1] != 0 then |bytes|
    else UnpaddedLen(bytes[..|bytes| - 1])
  }

  lemma {:induction false} UnpaddedLenMeans(bytes: seq<Byte>)
    ensures UnpaddedLen(bytes) <= |bytes|
    ensures forall i :: UnpaddedLen(bytes) <= i < |bytes| ==> bytes[i] == 0
    ensures UnpaddedLen(bytes) > 0 ==> bytes[UnpaddedLen(bytes) - 1] != 0
  {
    if |bytes| > 0 && bytes[|bytes| - 1] == 0 {
      UnpaddedLenMeans(bytes[..|bytes| - 1]);
    }
  }

  function Text(bytes: seq<Byte>): string {
    seq(|bytes|, i requires 0 <= i < |bytes| => bytes[i] as char)
  }

  predicate AllGraphic(bytes: seq<Byte>) {
    forall i :: 0 <= i < |bytes| ==> IsGraphic(bytes[i])
  }

  /** The name an id stands for, if it follows the convention of right-padded printable ASCII. */
  function ServiceTypeName(id: ServiceTypeId): Option<string> {
    UnpaddedLenMeans(id);
    var len := UnpaddedLen(id);
    if len == 0 then None
    else if AllGraphic(id[..len]) then Some(Text(id[..len]))
    else None
  }

  /** An id stands for a name if and only if it is the name, padded. */
  lemma NameMeans(id: ServiceTypeId, name: string)
    ensures ServiceTypeName(id) == Some(name) <==> 0 < |name| <= 32 && IsName(name) && id == Padded(name)
  {
    UnpaddedLenMeans(id);
    var len := UnpaddedLen(id);
    if ServiceTypeName(id) == Some(name) {
      assert forall i :: 0 <= i < len ==> name[i] as int == id[..len][i];
      assert id == Padded(name);
    }
    if 0 < |name| <= 32 && IsName(name) && id == Padded(name) {
      PaddedLen(name);
      assert Text(id[..len]) == name;
      assert AllGraphic(id[..len]);
    }
  }

  lemma PaddedLen(name: string)
    requires 0 < |name| <= 32 && IsName(name)
    ensures UnpaddedLen(Padded(name)) == |name|
  {
    var id := Padded(name);
    UnpaddedLenMeans(id);
    assert id[|name| - 1] != 0;
    assert forall i :: |name| <= i < 32 ==> id[i] == 0;
  }

  // ----- Parsing -----

  function Utf8Len(c: char): nat {
    if c as int < 0x80 then 1 else if c as int < 0x800 then 2 else if c as int < 0x1_0000 then 3 else 4
  }

  /** How many bytes a text takes up. */
  function ByteLen(text: string): nat {
    if |text| == 0 then 0 else Utf8Len(text[0]) + ByteLen(text[1..])
  }

  function ParseHex(digits: string): Result<ServiceTypeId, ParseError> {
    match DecodeHex(digits)
    case None => Failure(BadHex)
    case Some(bytes) => if |bytes| == 32 then Success(bytes) else Failure(NotAllBytes)
  }

  lemma {:induction false} AtLeastOneByteEach(text: string)
    ensures |text| <= ByteLen(text)
    ensures IsName(text) ==> ByteLen(text) == |text|
  {
    if |text| > 0 {
      AtLeastOneByteEach(text[1..]);
    }
  }

  function ParseName(name: string): Result<ServiceTypeId, ParseError> {
    AtLeastOneByteEach(name);
    if |name| == 0 || ByteLen(name) > 32 then Failure(BadNameLength)
    else if !IsName(name) then Failure(NotPrintable)
    else Success(Padded(name))
  }

  /** Reads an id: all its bytes after `0x`, and its name otherwise. */
  function Parse(value: string): Result<ServiceTypeId, ParseError> {
    var id := if StartsWith0x(value) then ParseHex(value[2..]) else ParseName(value);
    if id.Success? && id.value == Zeros(32) then Failure(ZeroServiceType) else id
  }

  /** Parses a service type, filling its bytes in place. */
  method ParseServiceType(value: string) returns (r: Result<ServiceTypeId, ParseError>)
    ensures r == Parse(value)
  {
    var id := new Byte[32](_ => 0);
    if StartsWith0x(value) {
      var bytes := DecodeHex(value[2..]);
      if bytes.None? {
        return Failure(BadHex);
      }
      if |bytes.value| != 32 {
        return Failure(NotAllBytes);
      }
      Fill(id, bytes.value);
      assert id[..] == bytes.value;
    } else {
      AtLeastOneByteEach(value);
      if |value| == 0 || ByteLen(value) > 32 {
        return Failure(BadNameLength);
      }
      if !IsName(value) {
        return Failure(NotPrintable);
      }
      Fill(id, Padded(value)[..|value|]);
      assert id[..] == Padded(value);
    }
    if id[..] == Zeros(32) {
      return Failure(ZeroServiceType);
    }
    return Success(id[..]);
  }

  /** Copies bytes to the front of an array. */
  method Fill(a: array<Byte>, bytes: seq<Byte>)
    requires |bytes| <= a.Length
    modifies a
    ensures a[..|bytes|] == bytes && a[|bytes|..] == old(a[|bytes|..])
  {
    for i := 0 to |bytes|
      invariant a[..i] == bytes[..i] && a[|bytes|..] == old(a[|bytes|..])
    {
      a[i] := bytes[i];
    }
  }

  // ----- What is refused -----

  predicate IsHexDigit(c: char) {
    c in "0123456789abcdefABCDEF"
  }

  lemma DigitMeans(c: char)
    ensures DigitValue(c).Some? <==> IsHexDigit(c)
    ensures DigitValue(c).Some? ==> DigitValue(c).value < 16
  {
    var digits := "0123456789abcdefABCDEF";
    if DigitValue(c).Some? {
      var i := if '0' <= c <= '9' then c as int - '0' as int
               else if 'a' <= c <= 'f' then c as int - 'a' as int + 10
               else c as int - 'A' as int + 16;
      assert digits[i] == c;
    }
  }

  predicate AllHexDigits(digits: string) {
    forall i :: 0 <= i < |digits| ==> IsHexDigit(digits[i])
  }

  lemma DecodesPair(digits: string)
    requires |digits| > 1
    ensures DecodeHex(digits).Some?
       <==> IsHexDigit(digits[0]) && IsHexDigit(digits[1]) && DecodeHex(digits[2..]).Some?
  {
    DigitMeans(digits[0]);
    DigitMeans(digits[1]);
    hide DigitValue;
    hide IsHexDigit;
  }

  /** Exactly the texts of an even number of hexadecimal digits decode. */
  lemma {:induction false} DecodesMeans(digits: string)
    ensures DecodeHex(digits).Some? <==> |digits| % 2 == 0 && AllHexDigits(digits)
  {
    hide *;
    if |digits| > 1 {
      DecodesMeans(digits[2..]);
      DecodesPair(digits);
      AllDigitsBut(digits);
    } else {
      DecodesNone(digits);
    }
  }

  lemma DecodesNone(digits: string)
    requires |digits| <= 1
    ensures DecodeHex(digits).Some? <==> |digits| == 0
    ensures |digits| == 0 ==> AllHexDigits(digits)
  {}

  lemma AllDigitsBut(digits: string)
    requires |digits| > 1
    ensures AllHexDigits(digits) <==> IsHexDigit(digits[0]) && IsHexDigit(digits[1]) && AllHexDigits(digits[2..])
  {
    hide IsHexDigit;
    if IsHexDigit(digits[0]) && IsHexDigit(digits[1]) && AllHexDigits(digits[2..]) {
      forall i | 0 <= i < |digits|
        ensures IsHexDigit(digits[i])
      {
        if i >= 2 {
          assert digits[i] == digits[2..][i - 2];
        }
      }
    }
  }

  /** What is refused after `0x`: digits that are no bytes, and bytes that are too many, too few or all zero. */
  lemma HexRefusalsMean(value: string, digits: string)
    requires value == "0x" + digits
    ensures match Parse(value)
            case Success(_) => |digits| == 64 && AllHexDigits(digits)
            case Failure(ZeroServiceType) => |digits| == 64 && AllHexDigits(digits)
            case Failure(NotAllBytes) => |digits| != 64 && |digits| % 2 == 0 && AllHexDigits(digits)
            case Failure(BadHex) => |digits| % 2 == 1 || !AllHexDigits(digits)
            case _ => false
  {
    assert value[2..] == digits;
    ParsesHex(value);
    hide *;
    DecodesMeans(digits);
    if DecodeHex(digits).Some? {
      DecodedLen(digits);
    }
  }

  lemma ParsesHex(value: string)
    requires StartsWith0x(value)
    ensures |value| >= 2
    ensures match DecodeHex(value[2..])
            case None => Parse(value) == Failure(BadHex)
            case Some(bytes) =>
              if |bytes| != 32 then Parse(value) == Failure(NotAllBytes)
              else if Parse(value).Success? then Parse(value).value == bytes
              else Parse(value).error.ZeroServiceType?
  {
    hide DecodeHex;
    hide Zeros;
  }

  /** What is refused as a name: nothing, more than 32 bytes, and what is not printable. */
  lemma NameRefusalsMean(value: string)
    requires !StartsWith0x(value)
    ensures match Parse(value)
            case Success(_) => 0 < |value| <= 32 && IsName(value)
            case Failure(BadNameLength) => |value| == 0 || ByteLen(value) > 32
            case Failure(NotPrintable) => 0 < |value| && ByteLen(value) <= 32 && !IsName(value)
            case _ => false
  {
    AtLeastOneByteEach(value);
    if 0 < |value| <= 32 && IsName(value) {
      PaddedIsNotZero(value);
    }
    hide ByteLen;
    hide Padded;
  }

  // ----- There and back -----

  /** The hexadecimal spelling of an id is read as that id, unless it is the zero id, which is refused. */
  lemma ParseFilter(id: ServiceTypeId)
    ensures Parse(ServiceTypeToFilter(id)) == if id == Zeros(32) then Failure(ZeroServiceType) else Success(id)
  {
    DecodeEncode(id);
    assert ServiceTypeToFilter(id)[2..] == EncodeHex(id);
  }

  lemma {:induction false} DecodedLen(digits: string)
    requires DecodeHex(digits).Some?
    ensures 2 * |DecodeHex(digits).value| == |digits|
  {
    if |digits| > 0 {
      DecodedLen(digits[2..]);
    }
  }

  lemma PaddedIsNotZero(name: string)
    requires 0 < |name| <= 32 && IsName(name)
    ensures Padded(name) != Zeros(32)
  {
    assert Padded(name)[0] != 0;
    ZerosAreZero(32, 0);
  }

  lemma {:induction false} ZerosAreZero(n: nat, i: nat)
    requires i < n
    ensures Zeros(n)[i] == 0
  {
    if i < n - 1 {
      ZerosAreZero(n - 1, i);
    }
  }

  /** The name of an id is read as that id if and only if it does not look like a hexadecimal spelling. */
  lemma ParseOfName(id: ServiceTypeId, name: string)
    requires ServiceTypeName(id) == Some(name)
    ensures Parse(name) == Success(id) <==> !StartsWith0x(name)
    ensures StartsWith0x(name) ==> Parse(name).Failure?
  {
    NameMeans(id, name);
    AtLeastOneByteEach(name);
    if StartsWith0x(name) {
      if DecodeHex(name[2..]).Some? {
        DecodedLen(name[2..]);
      }
    } else {
      PaddedIsNotZero(name);
    }
  }

  /** Whatever is read prints back: a name as itself, a hexadecimal spelling as itself but for case. */
  lemma ParsedPrintsBack(value: string)
    requires Parse(value).Success?
    ensures var id := Parse(value).value;
            if StartsWith0x(value) then SameIgnoringCase(ServiceTypeToFilter(id), value)
            else ServiceTypeName(id) == Some(value)
  {
    var id := Parse(value).value;
    if StartsWith0x(value) {
      EncodeDecode(value[2..]);
      PrefixKeepsSame(EncodeHex(id), value);
    } else {
      AtLeastOneByteEach(value);
      NameMeans(id, value);
    }
  }

  lemma PrefixKeepsSame(digits: string, value: string)
    requires StartsWith0x(value) && SameIgnoringCase(digits, value[2..])
    ensures SameIgnoringCase("0x" + digits, value)
  {
    var text := "0x" + digits;
    hide Lower;
    forall i | 0 <= i < |text|
      ensures Lower(text[i]) == Lower(value[i])
    {
      if i >= 2 {
        assert text[i] == digits[i - 2] && value[i] == value[2..][i - 2];
      }
    }
  }

  // ----- Matching -----

  /** Matches a service type as Blokli renders it against a raw id. */
  predicate ServiceTypeMatches(rendered: string, wanted: ServiceTypeId) {
    HexMatches(rendered, wanted) || ServiceTypeName(wanted) == Some(rendered)
  }

  lemma {:induction false} TrimmedIsShorter(text: string)
    ensures |TrimAll0x(text)| <= |text|
  {
    if StartsWith0x(text) {
      TrimmedIsShorter(text[2..]);
    }
  }

  /** A rendered service type matches one id at most. */
  lemma MatchesAtMostOne(rendered: string, a: ServiceTypeId, b: ServiceTypeId)
    requires ServiceTypeMatches(rendered, a) && ServiceTypeMatches(rendered, b)
    ensures a == b
  {
    HexMatchesMeans(rendered, a);
    HexMatchesMeans(rendered, b);
    NameMeans(a, rendered);
    NameMeans(b, rendered);
    TrimmedIsShorter(rendered);
    if DecodeHex(TrimAll0x(rendered)).Some? {
      DecodedLen(TrimAll0x(rendered));
    }
  }

  /** How Blokli renders an id: as its name if it has one. */
  function Render(id: ServiceTypeId): string {
    match ServiceTypeName(id) case Some(name) => name case None => ServiceTypeToFilter(id)
  }

  /** The way Blokli renders an id matches that id and no other. */
  lemma RenderedMatchesItself(id: ServiceTypeId, wanted: ServiceTypeId)
    ensures ServiceTypeMatches(Render(id), wanted) <==> wanted == id
  {
    if ServiceTypeName(id).None? {
      FilterTrims(id);
      DecodeEncode(id);
      HexMatchesMeans(Render(id), id);
    }
    if ServiceTypeMatches(Render(id), wanted) {
      MatchesAtMostOne(Render(id), id, wanted);
    }
  }
}
