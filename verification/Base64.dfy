/** Standard base64 with padding (section 4 of RFC 4648), as Go's encoding/base64 reads and writes it. */
module Base64 {
  import opened Common

  const PAD: byte := 61

  type Digit = d: int | 0 <= d < 64

  function DigitByte(d: Digit): byte {
    if d < 26 then 65 + d else if d < 52 then 71 + d else if d < 62 then d - 4 else if d == 62 then 43 else 47
  }

  function ByteDigit(b: byte): Option<Digit> {
    if 65 <= b <= 90 then Some(b - 65)
    else if 97 <= b <= 122 then Some(b - 71)
    else if 48 <= b <= 57 then Some(b + 4)
    else if b == 43 then Some(62)
    else if b == 47 then Some(63)
    else None
  }

  /** The four digits of three bytes. */
  function Digit0(b0: byte): Digit {
    b0 / 4
  }

  function Digit1(b0: byte, b1: byte): Digit {
    b0 % 4 * 16 + b1 / 16
  }

  function Digit2(b1: byte, b2: byte): Digit {
    b1 % 16 * 4 + b2 / 64
  }

  function Digit3(b2: byte): Digit {
    b2 % 64
  }

  function Encode(x: Bytes): Bytes {
    if x == [] then []
    else if |x| == 1 then [DigitByte(Digit0(x[0])), DigitByte(Digit1(x[0], 0)), PAD, PAD]
    else if |x| == 2 then
      [DigitByte(Digit0(x[0])), DigitByte(Digit1(x[0], x[1])), DigitByte(Digit2(x[1], 0)), PAD]
    else
      [DigitByte(Digit0(x[0])), DigitByte(Digit1(x[0], x[1])), DigitByte(Digit2(x[1], x[2])), DigitByte(Digit3(x[2]))]
      + Encode(x[3..])
  }

  /** The bytes that a group of digits stands for. */
  function Byte0(d0: Digit, d1: Digit): byte {
    d0 * 4 + d1 / 16
  }

  function Byte1(d1: Digit, d2: Digit): byte {
    d1 % 16 * 16 + d2 / 4
  }

  function Byte2(d2: Digit, d3: Digit): byte {
    d2 % 4 * 64 + d3
  }

  /** Line breaks are skipped wherever they occur. */
  function SkipLineBreaks(s: Bytes): Bytes {
    if s == [] then []
    else if s[0] == 10 || s[0] == 13 then SkipLineBreaks(s[1..])
    else [s[0]] + SkipLineBreaks(s[1..])
  }

  /** Groups of four digits; only the last may be padded, and unused low bits are ignored. */
  function DecodeGroups(s: Bytes): Option<Bytes> {
    if s == [] then Some([])
    else if |s| < 4 then None
    else
      var d0, d1, d2, d3 := ByteDigit(s[0]), ByteDigit(s[1]), ByteDigit(s[2]), ByteDigit(s[3]);
      if d0.None? || d1.None? then None
      else if |s| == 4 && s[2] == PAD && s[3] == PAD then Some([Byte0(d0.value, d1.value)])
      else if d2.None? then None
      else if |s| == 4 && s[3] == PAD then Some([Byte0(d0.value, d1.value), Byte1(d1.value, d2.value)])
      else if d3.None? then None
      else
        match DecodeGroups(s[4..])
        case None => None
        case Some(rest) =>
          Some([Byte0(d0.value, d1.value), Byte1(d1.value, d2.value), Byte2(d2.value, d3.value)] + rest)
  }

  function Decode(s: Bytes): Option<Bytes> {
    DecodeGroups(SkipLineBreaks(s))
  }

  lemma DigitRoundTrip(d: Digit)
    ensures ByteDigit(DigitByte(d)) == Some(d)
    ensures DigitByte(d) != PAD
  {
  }

  predicate IsText(b: byte) {
    b == PAD || ByteDigit(b).Some?
  }

  lemma {:induction false} EncodeIsText(x: Bytes)
    ensures forall i :: 0 <= i < |Encode(x)| ==> IsText(Encode(x)[i])
    ensures x != [] ==> Encode(x) != []
  {
    if |x| >= 3 {
      EncodeIsText(x[3..]);
    }
  }

  lemma {:induction false} TextHasNoLineBreaks(s: Bytes)
    requires forall i :: 0 <= i < |s| ==> IsText(s[i])
    ensures SkipLineBreaks(s) == s
  {
    if s != [] {
      assert IsText(s[0]);
      TextHasNoLineBreaks(s[1..]);
    }
  }

  lemma DecodeFullGroup(d0: Digit, d1: Digit, d2: Digit, d3: Digit, t: Bytes, rest: Bytes)
    requires DecodeGroups(t) == Some(rest)
    ensures DecodeGroups([DigitByte(d0), DigitByte(d1), DigitByte(d2), DigitByte(d3)] + t)
            == Some([Byte0(d0, d1), Byte1(d1, d2), Byte2(d2, d3)] + rest)
  {
    DigitRoundTrip(d0);
    DigitRoundTrip(d1);
    DigitRoundTrip(d2);
    DigitRoundTrip(d3);
    var s := [DigitByte(d0), DigitByte(d1), DigitByte(d2), DigitByte(d3)] + t;
    assert s[4..] == t;
  }

  lemma DecodePaddedGroup(d0: Digit, d1: Digit, d2: Digit)
    ensures DecodeGroups([DigitByte(d0), DigitByte(d1), PAD, PAD]) == Some([Byte0(d0, d1)])
    ensures DecodeGroups([DigitByte(d0), DigitByte(d1), DigitByte(d2), PAD]) == Some([Byte0(d0, d1), Byte1(d1, d2)])
  {
    DigitRoundTrip(d0);
    DigitRoundTrip(d1);
    DigitRoundTrip(d2);
  }

  /** The four digits of three bytes give the bytes back. */
  lemma DigitsOfTriple(b0: byte, b1: byte, b2: byte)
    ensures Byte0(Digit0(b0), Digit1(b0, b1)) == b0
    ensures Byte1(Digit1(b0, b1), Digit2(b1, b2)) == b1
    ensures Byte2(Digit2(b1, b2), Digit3(b2)) == b2
  {
  }

  lemma {:induction false} GroupsRoundTrip(x: Bytes)
    ensures DecodeGroups(Encode(x)) == Some(x)
  {
    hide DecodeGroups, DigitByte, Digit0, Digit1, Digit2, Digit3, Byte0, Byte1, Byte2;
    if x == [] {
      DecodeNothing();
    } else if |x| == 1 {
      DecodePaddedGroup(Digit0(x[0]), Digit1(x[0], 0), 0);
      DigitsOfTriple(x[0], 0, 0);
      assert x == [x[0]];
    } else if |x| == 2 {
      DecodePaddedGroup(Digit0(x[0]), Digit1(x[0], x[1]), Digit2(x[1], 0));
      DigitsOfTriple(x[0], x[1], 0);
      assert x == [x[0], x[1]];
    } else {
      GroupsRoundTrip(x[3..]);
      DigitsOfTriple(x[0], x[1], x[2]);
      DecodeFullGroup(Digit0(x[0]), Digit1(x[0], x[1]), Digit2(x[1], x[2]), Digit3(x[2]), Encode(x[3..]), x[3..]);
      assert x == [x[0], x[1], x[2]] + x[3..];
    }
  }

  lemma DecodeNothing()
    ensures DecodeGroups([]) == Some([])
  {
  }

  /** Decoding undoes encoding, for every byte string. */
  lemma DecodeEncode(x: Bytes)
    ensures Decode(Encode(x)) == Some(x)
  {
    EncodeIsText(x);
    TextHasNoLineBreaks(Encode(x));
    GroupsRoundTrip(x);
  }

  /** The alphabet of table 1 in section 4 of RFC 4648, both ways. */
  lemma Alphabet(d: Digit, b: byte)
    ensures DigitByte(d) ==
      if d < 26 then 'A' as int + d
      else if d < 52 then 'a' as int + (d - 26)
      else if d < 62 then '0' as int + (d - 52)
      else if d == 62 then '+' as int
      else '/' as int
    ensures ByteDigit(b) == Some(d) <==> DigitByte(d) == b
  {
  }

  /** The digits of a full group are its 24 bits, read as four sixes instead of three eights. */
  lemma SameBits(b0: byte, b1: byte, b2: byte)
    ensures ((Digit0(b0) * 64 + Digit1(b0, b1)) * 64 + Digit2(b1, b2)) * 64 + Digit3(b2) == (b0 * 256 + b1) * 256 + b2
  {
  }

  /** What decodes: line breaks aside, groups of four characters of the alphabet, the last with up to two of them padding. */
  lemma DecodesIff(s: Bytes)
    ensures Decode(s).Some? <==> InGroups(SkipLineBreaks(s))
  {
    GroupsDecodeIff(SkipLineBreaks(s));
  }

  predicate InGroups(s: Bytes) {
    && |s| % 4 == 0
    && (forall i :: 0 <= i < |s| - 2 ==> ByteDigit(s[i]).Some?)
    && (s == [] || ByteDigit(s[|s| - 1]).Some? || s[|s| - 1] == '=' as int)
    && (s == [] || ByteDigit(s[|s| - 2]).Some? || (s[|s| - 2] == '=' as int && s[|s| - 1] == '=' as int))
  }

  lemma {:induction false} GroupsDecodeIff(s: Bytes)
    ensures DecodeGroups(s).Some? <==> InGroups(s)
  {
    if |s| > 4 {
      GroupsDecodeIff(s[4..]);
      FirstGroup(s);
      InGroupsAfterFirst(s, s[4..]);
    } else {
      PaddingIsNoDigit();
      hide ByteDigit, Byte0, Byte1, Byte2;
    }
  }

  lemma PaddingIsNoDigit()
    ensures ByteDigit(PAD) == None
  {
  }

  lemma FirstGroup(s: Bytes)
    requires |s| > 4
    ensures DecodeGroups(s).Some? <==>
              (forall i :: 0 <= i < 4 ==> ByteDigit(s[i]).Some?) && DecodeGroups(s[4..]).Some?
  {
    hide ByteDigit, Byte0, Byte1, Byte2;
  }

  lemma InGroupsAfterFirst(s: Bytes, rest: Bytes)
    requires |s| > 4 && rest == s[4..]
    ensures InGroups(s) <==> (forall i :: 0 <= i < 4 ==> ByteDigit(s[i]).Some?) && InGroups(rest)
  {
    hide ByteDigit;
    assert forall i :: 4 <= i < |s| ==> s[i] == rest[i - 4];
    forall i | 0 <= i < |rest| - 2
      ensures InGroups(s) ==> ByteDigit(rest[i]).Some?
    {
      assert rest[i] == s[i + 4];
    }
  }

  /** A line break anywhere makes no difference. */
  lemma {:induction false} LineBreakIsSkipped(a: Bytes, b: Bytes, c: byte)
    requires c == '\n' as int || c == '\r' as int
    ensures SkipLineBreaks(a + [c] + b) == SkipLineBreaks(a + b)
    ensures Decode(a + [c] + b) == Decode(a + b)
  {
    if a == [] {
      assert (a + [c] + b)[1..] == b && a + b == b;
    } else {
      LineBreakIsSkipped(a[1..], b, c);
      assert (a + [c] + b)[1..] == a[1..] + [c] + b && (a + b)[1..] == a[1..] + b;
    }
  }

  function ByteOf(c: char): byte
    requires c as int < 256
  {
    c as int
  }

  function Text(s: string): Bytes
    requires forall c :: c in s ==> c as int < 256
  {
    seq(|s|, i requires 0 <= i < |s| && s[i] in s => ByteOf(s[i]))
  }

  /** Test vectors of section 10 of RFC 4648, one for each padding. */
  lemma TestVectors()
    ensures Encode(Text("foo")) == Text("Zm9v")
    ensures Encode(Text("fo")) == Text("Zm8=")
    ensures Encode(Text("f")) == Text("Zg==")
  {
    assert Text("foo")[3..] == [];
  }
}
