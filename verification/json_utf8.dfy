/**
 * The two Unicode helpers of src/utl/json.cpp the string parser uses for
 * `\u` escapes: `_codepoint_to_utf8`, which writes a code point as the
 * bytes of its UTF-8 form (section 3 of RFC 3629), and
 * `_utf16_pair_to_codepoint`, which combines a UTF-16 surrogate pair
 * (section 2.2 of RFC 2781). Bytes of a `std::string` are `char`s below 256.
 */
module JsonUtf8 {
  import opened Wrappers

  /** The byte `static_cast<char>` keeps of a value already below 256. */
  function ByteChar(b: bv32): char
    requires b <= 0xFF
  {
    (b as int) as char
  }

  /** A byte of the buffer, as the `_u8` cast reads it. */
  function CharBits(c: char): bv32
  {
    c as int as bv32
  }

  /**
   * `_codepoint_to_utf8`: one, two, three or four bytes for code points up
   * to 0x7F, 0x7FF, 0xFFFF and 0x10FFFF; `None` (false, nothing appended)
   * above that.
   */
  function CodepointToUtf8(cp: bv32): (r: Option<string>)
    ensures r.Some? <==> cp <= 0x10FFFF
    ensures r.Some? ==> forall i :: 0 <= i < |r.value| ==> r.value[i] as int < 256
  {
    if cp <= 0x7F then
      Some([ByteChar(cp)])
    else if cp <= 0x7FF then
      Some([ByteChar(((cp >> 6) & 0x1F) | 0xC0), ByteChar((cp & 0x3F) | 0x80)])
    else if cp <= 0xFFFF then
      Some([ByteChar(((cp >> 12) & 0x0F) | 0xE0), ByteChar(((cp >> 6) & 0x3F) | 0x80),
            ByteChar((cp & 0x3F) | 0x80)])
    else if cp <= 0x10FFFF then
      Some([ByteChar(((cp >> 18) & 0x07) | 0xF0), ByteChar(((cp >> 12) & 0x3F) | 0x80),
            ByteChar(((cp >> 6) & 0x3F) | 0x80), ByteChar((cp & 0x3F) | 0x80)])
    else
      None
  }

  /** A UTF-8 continuation byte, `10xxxxxx`. */
  predicate Continuation(c: char)
  {
    c as int < 256 && CharBits(c) & 0xC0 == 0x80
  }

  /** A UTF-16 surrogate code unit, reserved for pairs and never a character. */
  predicate Surrogate(cp: bv32)
  {
    0xD800 <= cp <= 0xDFFF
  }

  /** The payload bits of a two-byte form: five from the lead byte, six from the next. */
  function Payload2(b0: bv32, b1: bv32): bv32
  {
    ((b0 & 0x1F) << 6) | (b1 & 0x3F)
  }

  /** The payload bits of a three-byte form: four from the lead byte, six from each other. */
  function Payload3(b0: bv32, b1: bv32, b2: bv32): bv32
  {
    ((b0 & 0x0F) << 12) | ((b1 & 0x3F) << 6) | (b2 & 0x3F)
  }

  /** The payload bits of a four-byte form: three from the lead byte, six from each other. */
  function Payload4(b0: bv32, b1: bv32, b2: bv32, b3: bv32): bv32
  {
    ((b0 & 0x07) << 18) | ((b1 & 0x3F) << 12) | ((b2 & 0x3F) << 6) | (b3 & 0x3F)
  }

  /**
   * Decoding one UTF-8 character as section 3 of RFC 3629 has it: the lead
   * byte's high bits give the length, the rest are continuation bytes, and
   * the payload bits concatenated give the code point; overlong forms,
   * surrogates and values above 0x10FFFF are not UTF-8.
   */
  function Utf8Decoded(s: string): Option<bv32>
  {
    if |s| == 0 || s[0] as int >= 256 then None
    else
      var b0 := CharBits(s[0]);
      if b0 & 0x80 == 0 then
        if |s| == 1 then Some(b0) else None
      else if b0 & 0xE0 == 0xC0 then
        if |s| == 2 && Continuation(s[1]) then
          var cp := Payload2(b0, CharBits(s[1]));
          if cp >= 0x80 then Some(cp) else None
        else None
      else if b0 & 0xF0 == 0xE0 then
        if |s| == 3 && Continuation(s[1]) && Continuation(s[2]) then
          var cp := Payload3(b0, CharBits(s[1]), CharBits(s[2]));
          if cp >= 0x800 && !Surrogate(cp) then Some(cp) else None
        else None
      else if b0 & 0xF8 == 0xF0 then
        if |s| == 4 && Continuation(s[1]) && Continuation(s[2]) && Continuation(s[3]) then
          var cp := Payload4(b0, CharBits(s[1]), CharBits(s[2]), CharBits(s[3]));
          if 0x10000 <= cp <= 0x10FFFF then Some(cp) else None
        else None
      else None
  }

  /** The bytes read back as a `bv32`. */
  lemma ByteCharBits(b: bv32)
    requires b <= 0xFF
    ensures CharBits(ByteChar(b)) == b && ByteChar(b) as int < 256
  {
  }

  /** The one-byte form decodes back. */
  lemma Utf8One(cp: bv32)
    requires cp <= 0x7F
    ensures Utf8Decoded([ByteChar(cp)]) == Some(cp)
  {
    ByteCharBits(cp);
  }

  /** The bits of the two-byte form. */
  lemma Utf8TwoBits(cp: bv32)
    requires 0x80 <= cp <= 0x7FF
    ensures var b0, b1 := ((cp >> 6) & 0x1F) | 0xC0, (cp & 0x3F) | 0x80;
            b0 <= 0xFF && b1 <= 0xFF && b0 & 0x80 != 0 && b0 & 0xE0 == 0xC0 && b1 & 0xC0 == 0x80 &&
            Payload2(b0, b1) == cp
  {
  }

  /** The two-byte form decodes back. */
  lemma Utf8Two(cp: bv32)
    requires 0x80 <= cp <= 0x7FF
    ensures Utf8Decoded([ByteChar(((cp >> 6) & 0x1F) | 0xC0), ByteChar((cp & 0x3F) | 0x80)]) == Some(cp)
  {
    var b0, b1 := ((cp >> 6) & 0x1F) | 0xC0, (cp & 0x3F) | 0x80;
    Utf8TwoBits(cp);
    ByteCharBits(b0);
    ByteCharBits(b1);
  }

  /** Three bytes with a three-byte lead and two continuations decode to their payload, if in range. */
  lemma Utf8ThreeDecode(b0: bv32, b1: bv32, b2: bv32)
    requires b0 <= 0xFF && b1 <= 0xFF && b2 <= 0xFF
    requires b0 & 0x80 != 0 && b0 & 0xE0 != 0xC0 && b0 & 0xF0 == 0xE0 && b1 & 0xC0 == 0x80 && b2 & 0xC0 == 0x80
    requires Payload3(b0, b1, b2) >= 0x800 && !Surrogate(Payload3(b0, b1, b2))
    ensures Utf8Decoded([ByteChar(b0), ByteChar(b1), ByteChar(b2)]) == Some(Payload3(b0, b1, b2))
  {
    ByteCharBits(b0);
    ByteCharBits(b1);
    ByteCharBits(b2);
    var s := [ByteChar(b0), ByteChar(b1), ByteChar(b2)];
    assert CharBits(s[0]) == b0 && CharBits(s[1]) == b1 && CharBits(s[2]) == b2;
    assert Continuation(s[1]) && Continuation(s[2]);
  }

  /** The bits of the three-byte form. */
  lemma Utf8ThreeBits(cp: bv32)
    requires 0x800 <= cp <= 0xFFFF
    ensures var b0, b1, b2 := ((cp >> 12) & 0x0F) | 0xE0, ((cp >> 6) & 0x3F) | 0x80, (cp & 0x3F) | 0x80;
            b0 <= 0xFF && b1 <= 0xFF && b2 <= 0xFF && b0 & 0x80 != 0 && b0 & 0xE0 != 0xC0 && b0 & 0xF0 == 0xE0 &&
            b1 & 0xC0 == 0x80 && b2 & 0xC0 == 0x80 &&
            Payload3(b0, b1, b2) == cp
  {
  }

  /** The three-byte form of a non-surrogate decodes back. */
  lemma Utf8Three(cp: bv32)
    requires 0x800 <= cp <= 0xFFFF && !Surrogate(cp)
    ensures Utf8Decoded([ByteChar(((cp >> 12) & 0x0F) | 0xE0), ByteChar(((cp >> 6) & 0x3F) | 0x80),
                         ByteChar((cp & 0x3F) | 0x80)]) == Some(cp)
  {
    var b0, b1, b2 := ((cp >> 12) & 0x0F) | 0xE0, ((cp >> 6) & 0x3F) | 0x80, (cp & 0x3F) | 0x80;
    Utf8ThreeBits(cp);
    Utf8ThreeDecode(b0, b1, b2);
  }

  /** Four bytes with a four-byte lead and three continuations decode to their payload, if in range. */
  lemma Utf8FourDecode(b0: bv32, b1: bv32, b2: bv32, b3: bv32)
    requires b0 <= 0xFF && b1 <= 0xFF && b2 <= 0xFF && b3 <= 0xFF
    requires b0 & 0x80 != 0 && b0 & 0xE0 != 0xC0 && b0 & 0xF0 != 0xE0 && b0 & 0xF8 == 0xF0
    requires b1 & 0xC0 == 0x80 && b2 & 0xC0 == 0x80 && b3 & 0xC0 == 0x80
    requires 0x10000 <= Payload4(b0, b1, b2, b3) <= 0x10FFFF
    ensures Utf8Decoded([ByteChar(b0), ByteChar(b1), ByteChar(b2), ByteChar(b3)]) == Some(Payload4(b0, b1, b2, b3))
  {
    ByteCharBits(b0);
    ByteCharBits(b1);
    ByteCharBits(b2);
    ByteCharBits(b3);
    var s := [ByteChar(b0), ByteChar(b1), ByteChar(b2), ByteChar(b3)];
    assert CharBits(s[0]) == b0 && CharBits(s[1]) == b1 && CharBits(s[2]) == b2 && CharBits(s[3]) == b3;
    assert Continuation(s[1]) && Continuation(s[2]) && Continuation(s[3]);
  }

  /** The bits of the four-byte form. */
  lemma Utf8FourBits(cp: bv32)
    requires 0x10000 <= cp <= 0x10FFFF
    ensures var b0, b1, b2, b3 := ((cp >> 18) & 0x07) | 0xF0, ((cp >> 12) & 0x3F) | 0x80,
                                  ((cp >> 6) & 0x3F) | 0x80, (cp & 0x3F) | 0x80;
            b0 <= 0xFF && b1 <= 0xFF && b2 <= 0xFF && b3 <= 0xFF &&
            b0 & 0x80 != 0 && b0 & 0xE0 != 0xC0 && b0 & 0xF0 != 0xE0 && b0 & 0xF8 == 0xF0 &&
            b1 & 0xC0 == 0x80 && b2 & 0xC0 == 0x80 && b3 & 0xC0 == 0x80 &&
            Payload4(b0, b1, b2, b3) == cp
  {
  }

  /** The four-byte form decodes back. */
  lemma Utf8Four(cp: bv32)
    requires 0x10000 <= cp <= 0x10FFFF
    ensures Utf8Decoded([ByteChar(((cp >> 18) & 0x07) | 0xF0), ByteChar(((cp >> 12) & 0x3F) | 0x80),
                         ByteChar(((cp >> 6) & 0x3F) | 0x80), ByteChar((cp & 0x3F) | 0x80)]) == Some(cp)
  {
    var b0, b1, b2, b3 := ((cp >> 18) & 0x07) | 0xF0, ((cp >> 12) & 0x3F) | 0x80,
                          ((cp >> 6) & 0x3F) | 0x80, (cp & 0x3F) | 0x80;
    Utf8FourBits(cp);
    Utf8FourDecode(b0, b1, b2, b3);
  }

  /** Every Unicode scalar value is written in the shortest form and decodes back to itself. */
  lemma Utf8RoundTrip(cp: bv32)
    requires cp <= 0x10FFFF && !Surrogate(cp)
    ensures CodepointToUtf8(cp).Some? && Utf8Decoded(CodepointToUtf8(cp).value) == Some(cp)
    ensures |CodepointToUtf8(cp).value| == if cp <= 0x7F then 1 else if cp <= 0x7FF then 2 else if cp <= 0xFFFF then 3 else 4
  {
    if cp <= 0x7F {
      Utf8One(cp);
    } else if cp <= 0x7FF {
      Utf8Two(cp);
    } else if cp <= 0xFFFF {
      Utf8Three(cp);
    } else {
      Utf8Four(cp);
    }
  }

  /** A surrogate is written as three bytes all the same, which section 3 of RFC 3629 does not accept as UTF-8. */
  lemma SurrogateNotUtf8(cp: bv32)
    requires Surrogate(cp)
    ensures CodepointToUtf8(cp).Some? && |CodepointToUtf8(cp).value| == 3
    ensures Utf8Decoded(CodepointToUtf8(cp).value) == None
  {
    ByteCharBits(((cp >> 12) & 0x0F) | 0xE0);
    ByteCharBits(((cp >> 6) & 0x3F) | 0x80);
    ByteCharBits((cp & 0x3F) | 0x80);
  }

  /** `_utf16_pair_to_codepoint`: the high unit's ten low bits above the low unit's, past the basic plane. */
  function Utf16PairToCodepoint(high: bv16, low: bv16): (cp: bv32)
    ensures 0x10000 <= cp <= 0x10FFFF
  {
    0x10000 + (((high & 0x3FF) as bv32) << 10) + ((low & 0x3FF) as bv32)
  }

  /**
   * Section 2.1 of RFC 2781 writes a code point past the basic plane as
   * the pair `0xD800 + (v >> 10)`, `0xDC00 + (v & 0x3FF)` with
   * `v = cp - 0x10000`; combining that pair gives the code point back.
   */
  lemma Utf16PairRoundTrip(cp: bv32)
    requires 0x10000 <= cp <= 0x10FFFF
    ensures var v := cp - 0x10000;
            Utf16PairToCodepoint((0xD800 + (v >> 10)) as bv16, (0xDC00 + (v & 0x3FF)) as bv16) == cp
  {
  }

  /** What a pair combines to never needs the failure branch of `_codepoint_to_utf8`, and is never a surrogate. */
  lemma Utf16PairEncodes(high: bv16, low: bv16)
    ensures var cp := Utf16PairToCodepoint(high, low);
            !Surrogate(cp) && CodepointToUtf8(cp).Some? && |CodepointToUtf8(cp).value| == 4
  {
  }
}
