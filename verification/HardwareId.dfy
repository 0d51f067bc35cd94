/** Hardware identifiers: sixteen random bytes, two of them masked, printed as a UUID. */
module HardwareId {

  type Byte = bv8

  /** Version and variant bits, as section 5.4 of RFC 9562 asks for. */
  function Masked(raw: seq<Byte>): seq<Byte>
    requires |raw| == 16
  {
    raw[6 := (raw[6] & 0x0f) | 0x40][8 := (raw[8] & 0x3f) | 0x80]
  }

  function HexDigit(n: Byte): char {
    if n == 0 then '0' else if n == 1 then '1' else if n == 2 then '2' else if n == 3 then '3'
    else if n == 4 then '4' else if n == 5 then '5' else if n == 6 then '6' else if n == 7 then '7'
    else if n == 8 then '8' else if n == 9 then '9' else if n == 10 then 'a' else if n == 11 then 'b'
    else if n == 12 then 'c' else if n == 13 then 'd' else if n == 14 then 'e' else 'f'
  }

  function DigitValue(c: char): Byte {
    if c == '1' then 1 else if c == '2' then 2 else if c == '3' then 3
    else if c == '4' then 4 else if c == '5' then 5 else if c == '6' then 6 else if c == '7' then 7
    else if c == '8' then 8 else if c == '9' then 9 else if c == 'a' then 10 else if c == 'b' then 11
    else if c == 'c' then 12 else if c == 'd' then 13 else if c == 'e' then 14 else if c == 'f' then 15 else 0
  }

  predicate IsHexDigit(c: char) {
    '0' <= c <= '9' || 'a' <= c <= 'f'
  }

  lemma DigitRoundTrip(n: Byte)
    requires n < 16
    ensures DigitValue(HexDigit(n)) == n && IsHexDigit(HexDigit(n))
  {
  }

  lemma ValueRoundTrip(c: char)
    requires IsHexDigit(c)
    ensures HexDigit(DigitValue(c)) == c && DigitValue(c) < 16
  {
  }

  function High(b: Byte): Byte { b >> 4 }

  function Low(b: Byte): Byte { b & 0x0f }

  function Compose(high: Byte, low: Byte): Byte { (high << 4) | low }

  lemma Nibbles(b: Byte)
    ensures High(b) < 16 && Low(b) < 16 && Compose(High(b), Low(b)) == b
  {
  }

  lemma Halves(high: Byte, low: Byte)
    requires high < 16 && low < 16
    ensures High(Compose(high, low)) == high && Low(Compose(high, low)) == low
  {
  }

  function Hex(bytes: seq<Byte>): (s: string)
    ensures |s| == 2 * |bytes|
  {
    if bytes == [] then ""
    else [HexDigit(High(bytes[0])), HexDigit(Low(bytes[0]))] + Hex(bytes[1..])
  }

  function Unhex(s: string): (bytes: seq<Byte>)
    ensures |bytes| == |s| / 2
  {
    if |s| < 2 then []
    else [Compose(DigitValue(s[0]), DigitValue(s[1]))] + Unhex(s[2..])
  }

  predicate AllHex(s: string) {
    forall i :: 0 <= i < |s| ==> IsHexDigit(s[i])
  }

  lemma {:induction false} HexRoundTrip(bytes: seq<Byte>)
    ensures Unhex(Hex(bytes)) == bytes && AllHex(Hex(bytes))
  {
    if bytes != [] {
      var b := bytes[0];
      Nibbles(b);
      DigitRoundTrip(High(b));
      DigitRoundTrip(Low(b));
      HexRoundTrip(bytes[1..]);
      assert Hex(bytes)[2..] == Hex(bytes[1..]);
    }
  }

  lemma {:induction false} UnhexRoundTrip(s: string)
    requires AllHex(s) && |s| % 2 == 0
    ensures Hex(Unhex(s)) == s
    decreases |s|
  {
    if |s| >= 2 {
      ValueRoundTrip(s[0]);
      ValueRoundTrip(s[1]);
      Halves(DigitValue(s[0]), DigitValue(s[1]));
      UnhexRoundTrip(s[2..]);
      assert s == [s[0], s[1]] + s[2..];
    }
  }

  function Format(raw: seq<Byte>): (id: string)
    requires |raw| == 16
    ensures |id| == 36
  {
    Hex(raw[0..4]) + "-" + Hex(raw[4..6]) + "-" + Hex(raw[6..8]) + "-" + Hex(raw[8..10]) + "-" + Hex(raw[10..])
  }

  /** The bytes of a 36-character UUID text, dashes skipped. */
  function Parse(id: string): seq<Byte>
    requires |id| == 36
  {
    Unhex(id[0..8]) + Unhex(id[9..13]) + Unhex(id[14..18]) + Unhex(id[19..23]) + Unhex(id[24..])
  }

  predicate IsUuidShape(id: string) {
    && |id| == 36
    && id[8] == id[13] == id[18] == id[23] == '-'
    && AllHex(id[0..8]) && AllHex(id[9..13]) && AllHex(id[14..18]) && AllHex(id[19..23]) && AllHex(id[24..])
  }

  predicate IsVersion4(id: string) {
    IsUuidShape(id) && id[14] == '4' && (id[19] == '8' || id[19] == '9' || id[19] == 'a' || id[19] == 'b')
  }

  lemma FormatShape(raw: seq<Byte>)
    requires |raw| == 16
    ensures IsUuidShape(Format(raw)) && Parse(Format(raw)) == raw
    ensures Format(raw)[14..18] == Hex(raw[6..8]) && Format(raw)[19..23] == Hex(raw[8..10])
  {
    var id := Format(raw);
    assert id[0..8] == Hex(raw[0..4]);
    assert id[9..13] == Hex(raw[4..6]);
    assert id[14..18] == Hex(raw[6..8]);
    assert id[19..23] == Hex(raw[8..10]);
    assert id[24..] == Hex(raw[10..]);
    HexRoundTrip(raw[0..4]);
    HexRoundTrip(raw[4..6]);
    HexRoundTrip(raw[6..8]);
    HexRoundTrip(raw[8..10]);
    HexRoundTrip(raw[10..]);
    assert raw == raw[0..4] + raw[4..6] + raw[6..8] + raw[8..10] + raw[10..];
  }

  lemma VersionNibble(b: Byte)
    ensures High((b & 0x0f) | 0x40) == 4 && Low((b & 0x0f) | 0x40) == Low(b)
  {
  }

  lemma VariantNibble(b: Byte)
    ensures var h := High((b & 0x3f) | 0x80); h == 8 || h == 9 || h == 10 || h == 11
    ensures ((b & 0x3f) | 0x80) & 0x3f == b & 0x3f
  {
  }

  lemma HexFirst(bytes: seq<Byte>)
    requires bytes != []
    ensures Hex(bytes)[0] == HexDigit(High(bytes[0]))
  {
  }

  lemma Digits14And19(raw: seq<Byte>)
    requires |raw| == 16
    ensures |Format(raw)| == 36
    ensures Format(raw)[14] == HexDigit(High(raw[6])) && Format(raw)[19] == HexDigit(High(raw[8]))
  {
    FormatShape(raw);
    HexFirst(raw[6..8]);
    HexFirst(raw[8..10]);
    assert Format(raw)[14] == Format(raw)[14..18][0];
    assert Format(raw)[19] == Format(raw)[19..23][0];
  }

  lemma MaskedDigits(raw: seq<Byte>)
    requires |raw| == 16
    ensures HexDigit(High(Masked(raw)[6])) == '4'
    ensures var c := HexDigit(High(Masked(raw)[8])); c == '8' || c == '9' || c == 'a' || c == 'b'
  {
    VersionNibble(raw[6]);
    VariantNibble(raw[8]);
    assert Masked(raw)[6] == (raw[6] & 0x0f) | 0x40;
  }

  /** For every sixteen bytes: a version 4 UUID, from which the masked bytes can be read back. */
  lemma MaskedIsVersion4(raw: seq<Byte>)
    requires |raw| == 16
    ensures IsVersion4(Format(Masked(raw)))
    ensures Parse(Format(Masked(raw))) == Masked(raw)
  {
    var m := Masked(raw);
    MaskedDigits(raw);
    ShapeWithDigits(m);
  }

  lemma ShapeWithDigits(m: seq<Byte>)
    requires |m| == 16 && HexDigit(High(m[6])) == '4'
    requires var c := HexDigit(High(m[8])); c == '8' || c == '9' || c == 'a' || c == 'b'
    ensures IsVersion4(Format(m)) && Parse(Format(m)) == m
  {
    FormatShape(m);
    Digits14And19(m);
  }

  /** Only the six version and variant bits are lost. */
  lemma MaskKeepsTheRest(raw: seq<Byte>)
    requires |raw| == 16
    ensures forall i :: 0 <= i < 16 && i != 6 && i != 8 ==> Masked(raw)[i] == raw[i]
    ensures Masked(raw)[6] & 0x0f == raw[6] & 0x0f && Masked(raw)[8] & 0x3f == raw[8] & 0x3f
  {
    VersionNibble(raw[6]);
    VariantNibble(raw[8]);
  }

  lemma MaskFixes(b: Byte, c: Byte)
    requires High(b) == 4 && 8 <= High(c) <= 11
    ensures (b & 0x0f) | 0x40 == b && (c & 0x3f) | 0x80 == c
  {
  }

  lemma UnhexFirst(s: string)
    requires |s| == 4 && AllHex(s)
    ensures High(Unhex(s)[0]) == DigitValue(s[0])
  {
    ValueRoundTrip(s[0]);
    ValueRoundTrip(s[1]);
    Halves(DigitValue(s[0]), DigitValue(s[1]));
  }

  lemma Pieces<T>(a: seq<T>, b: seq<T>, c: seq<T>, d: seq<T>, e: seq<T>)
    requires |a| == 4 && |b| == |c| == |d| == 2 && |e| == 6
    ensures var s := a + b + c + d + e;
      |s| == 16 && s[0..4] == a && s[4..6] == b && s[6..8] == c && s[8..10] == d && s[10..] == e
      && s[6] == c[0] && s[8] == d[0]
  {
  }

  lemma ParseParts(id: string)
    requires IsUuidShape(id)
    ensures |Parse(id)| == 16 && Format(Parse(id)) == id
    ensures Parse(id)[6] == Unhex(id[14..18])[0] && Parse(id)[8] == Unhex(id[19..23])[0]
  {
    var a, b, c, d, e := id[0..8], id[9..13], id[14..18], id[19..23], id[24..];
    Pieces(Unhex(a), Unhex(b), Unhex(c), Unhex(d), Unhex(e));
    UnhexRoundTrip(a);
    UnhexRoundTrip(b);
    UnhexRoundTrip(c);
    UnhexRoundTrip(d);
    UnhexRoundTrip(e);
    assert Format(Parse(id)) == a + "-" + b + "-" + c + "-" + d + "-" + e;
    DashedPieces(id);
  }

  lemma DashedPieces(id: string)
    requires |id| == 36 && id[8] == id[13] == id[18] == id[23] == '-'
    ensures id == id[0..8] + "-" + id[9..13] + "-" + id[14..18] + "-" + id[19..23] + "-" + id[24..]
  {
  }

  /** Conversely, every version 4 UUID text is what its own bytes produce. */
  lemma Version4IsProduced(id: string)
    requires IsVersion4(id)
    ensures |Parse(id)| == 16 && Format(Masked(Parse(id))) == id
  {
    hide Format, Parse, Unhex;
    var raw := Parse(id);
    ParseParts(id);
    UnhexFirst(id[14..18]);
    UnhexFirst(id[19..23]);
    MaskFixes(raw[6], raw[8]);
    assert Masked(raw) == raw;
  }

  /** Masks the bytes in place and prints them. */
  method NewHardwareId(raw: array<Byte>) returns (id: string)
    requires raw.Length == 16
    modifies raw
    ensures raw[..] == Masked(old(raw[..]))
    ensures id == Format(raw[..]) && IsVersion4(id)
  {
    ghost var random := raw[..];
    raw[6] := (raw[6] & 0x0f) | 0x40;
    raw[8] := (raw[8] & 0x3f) | 0x80;
    assert raw[..] == Masked(random);
    MaskedIsVersion4(random);
    id := Format(raw[..]);
  }
}
