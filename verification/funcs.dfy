/**
 * The two helpers of src/library/funcs.hpp that the rotation code uses:
 * `split_as_view`, which cuts at every space whatever delimiter it is
 * given (the cutting is `std::views::split`), and `sv_to<size_t>`, which
 * reads a leading decimal number with `from_chars` and ignores its error;
 * and `std::stoul`, which the request code (src/backend/converters.cpp,
 * src/backend/impl/details.cpp) calls on keys and rotation lines.
 */
module Funcs {
  import opened Wrappers
  import StringFuncs

  const Space: char := ' '

  /** The pieces between spaces, a trailing space giving a trailing empty piece; `Pieces("") == [""]`. */
  function Pieces(s: string): (r: seq<string>)
    ensures |r| >= 1
    decreases |s|
  {
    var k := StringFuncs.FirstIndexOf(s, Space);
    if k == |s| then [s] else [s[..k]] + Pieces(s[k + 1..])
  }

  /** `split_as_view(source, delim)`: an empty source has no pieces at all. */
  function SplitAsView(source: string): (r: seq<string>)
    ensures r == [] <==> source == []
  {
    if source == [] then [] else Pieces(source)
  }

  /** A word without spaces is a single piece. */
  lemma SplitWord(w: string)
    requires w != [] && Space !in w
    ensures SplitAsView(w) == [w]
  {
    StringFuncs.NoDelimFirstIndex(w, Space);
  }

  /** A word followed by a space and a rest: the word, then the pieces of the rest. */
  lemma SplitWords(w: string, rest: string)
    requires Space !in w
    ensures SplitAsView(w + [Space] + rest) == [w] + Pieces(rest)
  {
    var s := w + [Space] + rest;
    StringFuncs.FirstIndexOfIsFirst(s, Space);
    var k := StringFuncs.FirstIndexOf(s, Space);
    assert s[|w|] == Space;
    forall j | 0 <= j < |w| ensures s[j] != Space {
      assert s[j] == w[j];
    }
    assert k == |w|;
    assert s[..k] == w && s[k + 1..] == rest;
  }

  /** Every piece is free of spaces, and there is one more piece than there are spaces. */
  lemma {:induction false} PiecesHaveNoSpace(s: string)
    ensures forall p :: p in Pieces(s) ==> Space !in p
    ensures |Pieces(s)| == StringFuncs.CountOf(s, Space) + 1
    decreases |s|
  {
    var k := StringFuncs.FirstIndexOf(s, Space);
    StringFuncs.FirstIndexOfIsFirst(s, Space);
    if k == |s| {
      StringFuncs.NoDelimCount(s, Space);
    } else {
      PiecesHaveNoSpace(s[k + 1..]);
      StringFuncs.CountSplit(s, Space, k);
      StringFuncs.NoDelimCount(s[..k], Space);
      assert Space !in s[..k];
    }
  }

  /**
   * `sv_to<size_t>(token)`: the value of the leading digits. `from_chars`
   * fails on a token that does not start with a digit or whose number does
   * not fit 64 bits, and the uninitialised result is then returned; the
   * model reports None for that indeterminate value.
   */
  function SvTo(token: string): (r: Option<nat>)
    ensures r.Some? <==> |token| > 0 && StringFuncs.IsDigit(token[0]) &&
                         StringFuncs.DigitsValue(StringFuncs.DigitPrefix(token)) < StringFuncs.SizeMax
    ensures r.Some? ==> r.value < StringFuncs.SizeMax
  {
    if |token| > 0 && StringFuncs.IsDigit(token[0]) &&
       StringFuncs.DigitsValue(StringFuncs.DigitPrefix(token)) < StringFuncs.SizeMax
    then Some(StringFuncs.SvTo(token))
    else None
  }

  /** A number printed in decimal reads back as itself. */
  lemma SvToDecimal(n: nat)
    requires n < StringFuncs.SizeMax
    ensures SvTo(StringFuncs.DecimalString(n)) == Some(n)
  {
    StringFuncs.SvToDecimal(n, []);
    assert StringFuncs.DecimalString(n) + [] == StringFuncs.DecimalString(n);
  }

  // ---------------------------------------------------------------- std::stoul

  /** The characters `isspace` accepts in the C locale: space, tab, newline, vertical tab, form feed, return. */
  predicate IsSpace(c: char)
  {
    c == ' ' || c == '\t' || c == '\n' || c == '\r' || c as int == 11 || c as int == 12
  }

  /** The text after its leading white space. */
  function SkipSpaces(s: string): (t: string)
    ensures |t| <= |s| && t == s[|s| - |t|..]
    ensures t == [] || !IsSpace(t[0])
  {
    if s != [] && IsSpace(s[0]) then SkipSpaces(s[1..]) else s
  }

  /**
   * `std::stoul(token)`, with a 64-bit `unsigned long`: leading white space
   * is skipped, a '+' or '-' may follow, then the decimal digits are read
   * and anything after them ignored. No digit throws `invalid_argument`, a
   * magnitude past 64 bits throws `out_of_range`, and a minus sign negates
   * the magnitude modulo 2^64.
   */
  function Stoul(token: string): (r: Result<nat>)
    ensures r.Ok? ==> r.value < StringFuncs.SizeMax
  {
    Signed(SkipSpaces(token))
  }

  /** The number after the white space: an optional sign, then the magnitude. */
  function Signed(t: string): (r: Result<nat>)
    ensures r.Ok? ==> r.value < StringFuncs.SizeMax
  {
    if t != [] && t[0] == '-' then
      var m :- Magnitude(t[1..]);
      Ok((StringFuncs.SizeMax - m) % StringFuncs.SizeMax)
    else if t != [] && t[0] == '+' then Magnitude(t[1..])
    else Magnitude(t)
  }

  /** The value of the leading digits: none is no conversion, and one past 64 bits is out of range. */
  function Magnitude(body: string): (r: Result<nat>)
    ensures r.Ok? ==> r.value < StringFuncs.SizeMax
  {
    var digits := StringFuncs.DigitPrefix(body);
    if digits == [] then Err("stoul: no conversion")
    else if StringFuncs.DigitsValue(digits) >= StringFuncs.SizeMax then Err("stoul: out of range")
    else Ok(StringFuncs.DigitsValue(digits))
  }

  /** A printed number followed by anything but a digit has itself as magnitude. */
  lemma MagnitudeDecimal(n: nat, rest: string)
    requires n < StringFuncs.SizeMax && (rest == [] || !StringFuncs.IsDigit(rest[0]))
    ensures Magnitude(StringFuncs.DecimalString(n) + rest) == Ok(n)
  {
    StringFuncs.DigitPrefixOfDigits(StringFuncs.DecimalString(n), rest);
    StringFuncs.DecimalValue(n);
  }

  /** Without a sign, a plus sign, or a minus sign that negates modulo 2^64. */
  lemma SignedBody(sign: string, body: string)
    requires sign == [] || sign == ['+'] || sign == ['-']
    requires body == [] || (body[0] != '+' && body[0] != '-')
    ensures sign != ['-'] ==> Signed(sign + body) == Magnitude(body)
    ensures sign == ['-'] ==> (Signed(sign + body) ==
                                if Magnitude(body).Err? then Magnitude(body)
                                else Ok((StringFuncs.SizeMax - Magnitude(body).value) % StringFuncs.SizeMax))
  {
    if sign == [] {
      assert sign + body == body;
    } else {
      assert (sign + body)[0] == sign[0] && (sign + body)[1..] == body;
    }
  }

  /** White space before a token that does not start with white space is skipped. */
  lemma StoulSkips(spaces: string, t: string)
    requires forall j :: 0 <= j < |spaces| ==> IsSpace(spaces[j])
    requires t == [] || !IsSpace(t[0])
    ensures Stoul(spaces + t) == Signed(t)
  {
    SkipLeading(spaces, t);
  }

  /**
   * A number printed in decimal, after any white space and an optional '+',
   * reads back as itself; after '-', as its negation modulo 2^64.
   */
  lemma StoulDecimal(spaces: string, sign: string, n: nat, rest: string)
    requires forall j :: 0 <= j < |spaces| ==> IsSpace(spaces[j])
    requires sign == [] || sign == ['+'] || sign == ['-']
    requires n < StringFuncs.SizeMax && (rest == [] || !StringFuncs.IsDigit(rest[0]))
    ensures Stoul(spaces + (sign + (StringFuncs.DecimalString(n) + rest))) ==
            Ok(if sign == ['-'] then (StringFuncs.SizeMax - n) % StringFuncs.SizeMax else n)
  {
    var body := StringFuncs.DecimalString(n) + rest;
    var t := sign + body;
    MagnitudeDecimal(n, rest);
    assert body[0] == StringFuncs.DecimalString(n)[0];
    SignedBody(sign, body);
    assert t[0] == if sign == [] then body[0] else sign[0];
    StoulSkips(spaces, t);
  }

  /** White space before a text that does not start with white space is skipped whole. */
  lemma {:induction false} SkipLeading(spaces: string, s: string)
    requires forall j :: 0 <= j < |spaces| ==> IsSpace(spaces[j])
    requires s == [] || !IsSpace(s[0])
    ensures SkipSpaces(spaces + s) == s
  {
    if spaces != [] {
      assert (spaces + s)[1..] == spaces[1..] + s;
      SkipLeading(spaces[1..], s);
    }
  }

  /** On a token that starts with a digit, `stoul` and `from_chars` agree. */
  lemma StoulFromChars(token: string)
    requires token != [] && StringFuncs.IsDigit(token[0])
    ensures Stoul(token).Ok? <==> SvTo(token).Some?
    ensures Stoul(token).Ok? ==> Stoul(token).value == SvTo(token).value
  {
  }
}
