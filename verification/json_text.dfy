/**
 * What the recursive-descent parser of src/utl/json.cpp (`_parser`) makes
 * of a text, as functions of the text, the recursion limit and the
 * position: each function returns the position just past what it read and
 * the value read, or the error the parser throws. The class in
 * json_parser.dfy is proved to compute exactly these. Characters stand for
 * the bytes of the `std::string`.
 */
module JsonText {
  import opened Wrappers
  import opened JsonNode
  import JsonUtf8
  import StringFuncs

  /** `_default_recursion_limit`. */
  const DefaultRecursionLimit: nat := 1000

  const Backspace: char := 8 as char
  const FormFeed: char := 12 as char

  /** What a parsing step yields: the position just past what it read, and what it read. */
  datatype Read<T> = Read(end: nat, item: T)

  /**
   * The rounding of a decimal numeral to the nearest `double`, as
   * `std::from_chars` does it: `None` when the value is out of the range of
   * a `double`. Floating point is not part of this model; the numeral
   * `from_chars` consumes is (`FloatEnd`).
   */
  type FloatReader = string -> Option<real>

  /** The parser's input: the text, `recursion_limit` and the double reader. */
  datatype Text = Text(chars: string, limit: nat, floating: FloatReader)

  // ------------------------------------------------------------ whitespace

  /** `_lookup_whitespace_chars`: the four insignificant whitespace characters. */
  predicate IsWhitespace(c: char)
  {
    c == ' ' || c == '\t' || c == '\r' || c == '\n'
  }

  /** `skip_nonsignificant_whitespace`: the first significant position at or after `cursor`. */
  function SkipFrom(chars: string, cursor: nat): (r: Result<nat>)
    ensures r.Ok? ==> cursor <= r.value < |chars| && !IsWhitespace(chars[r.value])
    decreases |chars| - cursor
  {
    if cursor >= |chars| then Err("end of buffer while skipping insignificant whitespace")
    else if !IsWhitespace(chars[cursor]) then Ok(cursor)
    else SkipFrom(chars, cursor + 1)
  }

  /**
   * Skipping stops at the first significant character, everything before
   * it being whitespace, and fails exactly when only whitespace is left.
   */
  lemma {:induction false} SkipMeaning(chars: string, cursor: nat)
    ensures SkipFrom(chars, cursor).Err? <==> forall k :: cursor <= k < |chars| ==> IsWhitespace(chars[k])
    ensures SkipFrom(chars, cursor).Ok? ==> forall k :: cursor <= k < SkipFrom(chars, cursor).value ==> IsWhitespace(chars[k])
    decreases |chars| - cursor
  {
    if cursor < |chars| && IsWhitespace(chars[cursor]) {
      SkipMeaning(chars, cursor + 1);
    }
  }

  // ------------------------------------------------------------ strings

  /** `_lookup_parsed_escaped_chars`: what a two-character escape stands for. */
  function ParsedEscape(c: char): Option<char>
  {
    if c == '"' then Some('"')
    else if c == '\\' then Some('\\')
    else if c == '/' then Some('/')
    else if c == 'b' then Some(Backspace)
    else if c == 'f' then Some(FormFeed)
    else if c == 'n' then Some('\n')
    else if c == 'r' then Some('\r')
    else if c == 't' then Some('\t')
    else None
  }

  /** A hexadecimal digit's value. */
  function HexDigit(c: char): Option<bv16>
  {
    if '0' <= c <= '9' then Some((c as int - '0' as int) as bv16)
    else if 'a' <= c <= 'f' then Some((c as int - 'a' as int + 10) as bv16)
    else if 'A' <= c <= 'F' then Some((c as int - 'A' as int + 10) as bv16)
    else None
  }

  /**
   * `parse_utf16` on the four characters from `i`: `std::from_chars` in
   * base 16 must take all four.
   */
  function HexAt(chars: string, i: nat): Option<bv16>
    requires i + 4 <= |chars|
  {
    match (HexDigit(chars[i]), HexDigit(chars[i + 1]), HexDigit(chars[i + 2]), HexDigit(chars[i + 3]))
    case (Some(a), Some(b), Some(c), Some(d)) => Some((a << 12) | (b << 8) | (c << 4) | d)
    case _ => None
  }

  /**
   * `parse_escaped_unicode_codepoint` with `cursor` at the `u`: the position
   * of the escape's last character and the bytes it appends. A first unit
   * in 0xD800..0xDFFF needs a second `\uXXXX` and the two are combined.
   */
  function UnicodeAt(chars: string, cursor: nat): (r: Result<Read<string>>)
    ensures r.Ok? ==> r.value.end < |chars|
  {
    if cursor + 4 >= |chars| then Err("end of buffer while parsing a unicode escape sequence")
    else
      match HexAt(chars, cursor + 1)
      case None => Err("could not parse unicode codepoint")
      case Some(high) =>
        if 0xD800 <= high <= 0xDFFF then
          if cursor + 10 >= |chars| then Err("end of buffer while parsing a unicode escape sequence surrogate pair")
          else if chars[cursor + 5] != '\\' then Err("invalid unicode escape sequence in second half of UTF-16 surrogate pair")
          else if chars[cursor + 6] != 'u' then Err("invalid unicode escape sequence in second half of UTF-16 surrogate pair")
          else
            match HexAt(chars, cursor + 7)
            case None => Err("could not parse unicode codepoint")
            case Some(low) =>
              match JsonUtf8.CodepointToUtf8(JsonUtf8.Utf16PairToCodepoint(high, low))
              case Some(bytes) => Ok(Read(cursor + 10, bytes))
              case None => Err("could not parse unicode codepoint")
        else
          match JsonUtf8.CodepointToUtf8(high as bv32)
          case Some(bytes) => Ok(Read(cursor + 4, bytes))
          case None => Err("could not parse unicode codepoint")
  }

  /** A `\u` escape outside the surrogate range takes four hexadecimal digits and appends their code point in UTF-8. */
  lemma UnicodeSingle(chars: string, cursor: nat)
    requires cursor + 4 < |chars| && HexAt(chars, cursor + 1).Some?
    requires !JsonUtf8.Surrogate(HexAt(chars, cursor + 1).value as bv32)
    ensures UnicodeAt(chars, cursor).Ok? && UnicodeAt(chars, cursor).value.end == cursor + 4
    ensures JsonUtf8.Utf8Decoded(UnicodeAt(chars, cursor).value.item) == Some(HexAt(chars, cursor + 1).value as bv32)
  {
    JsonUtf8.Utf8RoundTrip(HexAt(chars, cursor + 1).value as bv32);
  }

  /**
   * A `\u` escape in the surrogate range needs a second `\uXXXX`; it takes
   * ten characters and appends, in UTF-8, the code point the pair combines
   * to, which lies past the basic plane.
   */
  lemma UnicodePair(chars: string, cursor: nat)
    requires cursor + 4 < |chars| && HexAt(chars, cursor + 1).Some?
    requires JsonUtf8.Surrogate(HexAt(chars, cursor + 1).value as bv32)
    ensures UnicodeAt(chars, cursor).Ok? <==>
              cursor + 10 < |chars| && chars[cursor + 5] == '\\' && chars[cursor + 6] == 'u' &&
              HexAt(chars, cursor + 7).Some?
    ensures UnicodeAt(chars, cursor).Ok? ==>
              var cp := JsonUtf8.Utf16PairToCodepoint(HexAt(chars, cursor + 1).value,
                                                      HexAt(chars, cursor + 7).value);
              UnicodeAt(chars, cursor).value.end == cursor + 10 &&
              JsonUtf8.Utf8Decoded(UnicodeAt(chars, cursor).value.item) == Some(cp) && 0x10000 <= cp <= 0x10FFFF
  {
    if UnicodeAt(chars, cursor).Ok? {
      var cp := JsonUtf8.Utf16PairToCodepoint(HexAt(chars, cursor + 1).value,
                                              HexAt(chars, cursor + 7).value);
      JsonUtf8.Utf16PairEncodes(HexAt(chars, cursor + 1).value, HexAt(chars, cursor + 7).value);
      JsonUtf8.Utf8RoundTrip(cp);
    }
  }

  /** A `\u` escape throws when fewer than four characters follow the `u` before the end, or they are not all hexadecimal digits. */
  lemma UnicodeRejects(chars: string, cursor: nat)
    requires cursor + 4 >= |chars| || HexAt(chars, cursor + 1).None?
    ensures UnicodeAt(chars, cursor).Err?
  {
  }

  /**
   * The second half of a pair is not checked to be a low surrogate, nor the
   * first to be a high one: any two escapes whose first lies in the
   * surrogate range are read as a pair, taking ten characters.
   */
  lemma UncheckedLowSurrogate(chars: string, cursor: nat)
    requires cursor + 10 < |chars| && chars[cursor + 5] == '\\' && chars[cursor + 6] == 'u'
    requires HexAt(chars, cursor + 1).Some? && JsonUtf8.Surrogate(HexAt(chars, cursor + 1).value as bv32)
    requires HexAt(chars, cursor + 7).Some? && !JsonUtf8.Surrogate(HexAt(chars, cursor + 7).value as bv32)
    ensures UnicodeAt(chars, cursor).Ok? && UnicodeAt(chars, cursor).value.end == cursor + 10
  {
  }

  /**
   * One escape, with `i` at the character after the backslash: the position
   * of its last character and what it appends.
   */
  function EscapeAt(chars: string, i: nat): (r: Result<Read<string>>)
    requires i < |chars|
    ensures r.Ok? ==> i <= r.value.end < |chars|
  {
    match ParsedEscape(chars[i])
    case Some(c) => Ok(Read(i, [c]))
    case None =>
      if chars[i] == 'u' then UnicodeAt(chars, i)
      else Err("unexpected character while parsing an escape sequence")
  }

  /**
   * The loop of `parse_string` from `cursor`: the position past the closing
   * quote and the string read. Ordinary characters are kept, escapes are
   * replaced, and an unescaped control character or the end of the buffer
   * throws.
   */
  function StringBody(chars: string, cursor: nat): (r: Result<Read<string>>)
    requires cursor <= |chars|
    ensures r.Ok? ==> cursor < r.value.end <= |chars| && chars[r.value.end - 1] == '"'
    decreases |chars| - cursor
  {
    if cursor == |chars| then Err("end of buffer while parsing string contents")
    else if chars[cursor] == '"' then Ok(Read(cursor + 1, ""))
    else if chars[cursor] == '\\' then
      if cursor + 1 >= |chars| then Err("end of buffer while parsing an escape sequence")
      else
        var escape :- EscapeAt(chars, cursor + 1);
        var rest :- StringBody(chars, escape.end + 1);
        Ok(Read(rest.end, escape.item + rest.item))
    else if chars[cursor] as int <= 31 then Err("unescaped control character")
    else
      var rest :- StringBody(chars, cursor + 1);
      Ok(Read(rest.end, [chars[cursor]] + rest.item))
  }

  /** `parse_string` at `cursor`: the opening quote is stepped over, not checked. */
  function StringAt(chars: string, cursor: nat): (r: Result<Read<string>>)
    requires cursor < |chars|
    ensures r.Ok? ==> cursor + 1 < r.value.end <= |chars|
  {
    StringBody(chars, cursor + 1)
  }

  /** A character `parse_string` copies as it is. */
  predicate Plain(c: char)
  {
    c != '"' && c != '\\' && c as int > 31
  }

  /** A string read after a prefix: the same result with the prefix in front. */
  function Prepended(prefix: string, r: Result<Read<string>>): Result<Read<string>>
  {
    if r.Ok? then Ok(Read(r.value.end, prefix + r.value.item)) else r
  }

  /** Two prefixes in turn are their concatenation. */
  lemma PrependedTwice(a: string, b: string, r: Result<Read<string>>)
    ensures Prepended(a, Prepended(b, r)) == Prepended(a + b, r)
  {
    if r.Ok? {
      assert a + (b + r.value.item) == (a + b) + r.value.item;
    }
  }

  /**
   * A run of characters other than quotes, backslashes and control
   * characters is copied verbatim: reading from its start is reading from
   * its end with the run in front.
   */
  lemma {:induction false} StringVerbatim(chars: string, cursor: nat, j: nat)
    requires cursor <= j <= |chars|
    requires forall k :: cursor <= k < j ==> Plain(chars[k])
    ensures StringBody(chars, cursor) == Prepended(chars[cursor..j], StringBody(chars, j))
    decreases j - cursor
  {
    if cursor < j {
      StringVerbatim(chars, cursor + 1, j);
      assert StringBody(chars, cursor) == Prepended([chars[cursor]], StringBody(chars, cursor + 1));
      assert chars[cursor..j] == [chars[cursor]] + chars[cursor + 1..j];
      PrependedTwice([chars[cursor]], chars[cursor + 1..j], StringBody(chars, j));
    } else if StringBody(chars, j).Ok? {
      assert chars[cursor..j] + StringBody(chars, j).value.item == StringBody(chars, j).value.item;
    }
  }

  /** An unescaped control character throws once the string reaches it. */
  lemma {:induction false} StringControl(chars: string, cursor: nat, j: nat)
    requires cursor <= j < |chars|
    requires forall k :: cursor <= k < j ==> Plain(chars[k])
    requires chars[j] as int <= 31
    ensures StringBody(chars, cursor) == Err("unescaped control character")
  {
    StringVerbatim(chars, cursor, j);
  }

  /** The key of an object pair as the parser reads it: `parse_string` at the pair's first character, whatever it is. */
  function KeyAsWritten(chars: string, cursor: nat): (r: Result<Read<string>>)
    requires cursor < |chars|
    ensures r.Ok? ==> cursor + 1 < r.value.end <= |chars|
  {
    StringAt(chars, cursor)
  }

  /**
   * A pair whose key lacks its opening quote is read with its first
   * character dropped where the parser reads it, and refused where the
   * key must open with a quote.
   */
  lemma UnquotedKeyAccepted()
    ensures KeyAsWritten("x\":1}", 0) == Ok(Read(2, ""))
    ensures KeyAsWritten("ab\":1}", 0) == Ok(Read(3, "b"))
    ensures KeyAt("x\":1}", 0).Err? && KeyAt("ab\":1}", 0).Err?
  {
    var chars := "ab\":1}";
    assert chars[1] == 'b' && chars[2] == '"';
    assert StringBody(chars, 2) == Ok(Read(3, ""));
    assert StringBody(chars, 1) == Ok(Read(3, ['b'] + ""));
    assert ['b'] + "" == "b";
  }

  /** The key of an object pair as evidently intended: read only when it opens with a quote. */
  function KeyAt(chars: string, cursor: nat): (r: Result<Read<string>>)
    requires cursor < |chars|
    ensures r.Ok? ==> cursor + 1 < r.value.end <= |chars|
    ensures r.Ok? ==> chars[cursor] == '"' && r == StringAt(chars, cursor)
    ensures chars[cursor] == '"' ==> r == KeyAsWritten(chars, cursor)
  {
    if chars[cursor] != '"' then Err("expected a quote opening the pair key")
    else StringAt(chars, cursor)
  }

  // ------------------------------------------------------------ literals and numbers

  /** `parse_true`, `parse_false`, `parse_null`: the whole token must fit in the buffer and match. */
  function LiteralAt(chars: string, cursor: nat, token: string, value: Node): (r: Result<Read<Node>>)
  {
    if cursor + |token| > |chars| then Err("end of buffer while parsing a literal")
    else if chars[cursor..cursor + |token|] != token then Err("could not parse a literal")
    else Ok(Read(cursor + |token|, value))
  }

  /** A character the number scan of `parse_number` runs over. */
  predicate NumberChar(c: char)
  {
    '0' <= c <= '9' || c == '-'
  }

  /** The position where the scan stops: the first character that is neither a digit nor a minus sign. */
  function RunEnd(chars: string, i: nat): (j: nat)
    requires i <= |chars|
    ensures i <= j <= |chars|
    decreases |chars| - i
  {
    if i < |chars| && NumberChar(chars[i]) then RunEnd(chars, i + 1) else i
  }

  /** The scan's verdict: a number is floating when the character ending the run is a point. */
  predicate IsFloating(chars: string, cursor: nat)
    requires cursor <= |chars|
  {
    RunEnd(chars, cursor) < |chars| && chars[RunEnd(chars, cursor)] == '.'
  }

  /** The first position at or after `i` that is not a decimal digit. */
  function DigitsEnd(chars: string, i: nat): (j: nat)
    requires i <= |chars|
    ensures i <= j <= |chars|
    ensures forall k :: i <= k < j ==> StringFuncs.IsDigit(chars[k])
    ensures j < |chars| ==> !StringFuncs.IsDigit(chars[j])
    decreases |chars| - i
  {
    if i < |chars| && StringFuncs.IsDigit(chars[i]) then DigitsEnd(chars, i + 1) else i
  }

  const Int64Min: int := -0x8000_0000_0000_0000
  const Int64Max: int := 0x7FFF_FFFF_FFFF_FFFF

  /**
   * `std::from_chars` into an `int64_t`: an optional minus sign, then the
   * longest run of digits (at least one); a value outside the 64-bit range
   * throws.
   */
  function IntegralAt(chars: string, cursor: nat): (r: Result<Read<Node>>)
    requires cursor <= |chars|
    ensures r.Ok? ==> cursor < r.value.end <= |chars| && r.value.item.Integral? && Int64Min <= r.value.item.integral <= Int64Max
  {
    var negative := cursor < |chars| && chars[cursor] == '-';
    var start := if negative then cursor + 1 else cursor;
    var end := DigitsEnd(chars, start);
    if end == start then Err("could not be parsed as a number")
    else
      var magnitude := StringFuncs.DigitsValue(chars[start..end]);
      var value := if negative then -(magnitude as int) else magnitude as int;
      if value < Int64Min || value > Int64Max then Err("number out of range")
      else Ok(Read(end, Integral(value)))
  }

  /**
   * The end of the exponent part `std::from_chars` takes after a mantissa
   * ending at `i`: an `e` or `E`, an optional sign and at least one digit;
   * without the digits nothing is taken.
   */
  function ExponentEnd(chars: string, i: nat): (j: nat)
    requires i <= |chars|
    ensures i <= j <= |chars|
  {
    if i < |chars| && (chars[i] == 'e' || chars[i] == 'E') then
      var digits := if i + 1 < |chars| && (chars[i + 1] == '+' || chars[i + 1] == '-') then i + 2 else i + 1;
      var end := DigitsEnd(chars, digits);
      if end > digits then end else i
    else i
  }

  /**
   * The numeral `std::from_chars` reads as a `double` (general format) from
   * `cursor`: an optional minus sign, digits with an optional decimal point
   * (at least one digit on either side of it), then an optional exponent.
   * `None` when there is no such numeral.
   */
  function FloatEnd(chars: string, cursor: nat): (r: Option<nat>)
    requires cursor <= |chars|
    ensures r.Some? ==> cursor < r.value <= |chars|
  {
    var start := if cursor < |chars| && chars[cursor] == '-' then cursor + 1 else cursor;
    var integral := DigitsEnd(chars, start);
    var point := integral < |chars| && chars[integral] == '.';
    var mantissa := if point then DigitsEnd(chars, integral + 1) else integral;
    if integral == start && (!point || mantissa == integral + 1) then None
    else Some(ExponentEnd(chars, mantissa))
  }

  /**
   * `parse_number`: a floating number is the numeral `from_chars` reads,
   * rounded by the reader, any other is read by `IntegralAt`; no numeral
   * and a value out of range throw.
   */
  function NumberAt(t: Text, cursor: nat): (r: Result<Read<Node>>)
    requires cursor < |t.chars|
    ensures r.Ok? ==> cursor < r.value.end <= |t.chars|
  {
    if IsFloating(t.chars, cursor) then
      match FloatEnd(t.chars, cursor)
      case None => Err("could not be parsed as a number")
      case Some(end) =>
        match t.floating(t.chars[cursor..end])
        case None => Err("number out of range")
        case Some(value) => Ok(Read(end, Floating(value)))
    else
      IntegralAt(t.chars, cursor)
  }

  // ------------------------------------------------------------ nodes

  /**
   * `parse_node` at a significant character, `depth` being
   * `recursion_depth`: the node's first character selects what is read.
   */
  function NodeAt(t: Text, depth: nat, cursor: nat): (r: Result<Read<Node>>)
    requires depth <= t.limit && cursor < |t.chars|
    ensures r.Ok? ==> cursor < r.value.end <= |t.chars|
    decreases t.limit - depth, |t.chars| - cursor, 2
  {
    var c := t.chars[cursor];
    if c == '{' then
      var fields :- ObjectAt(t, depth, cursor);
      Ok(Read(fields.end, Object(fields.item)))
    else if c == '[' then
      var items :- ArrayAt(t, depth, cursor);
      Ok(Read(items.end, Array(items.item)))
    else if c == '"' then
      var str :- StringAt(t.chars, cursor);
      Ok(Read(str.end, String(str.item)))
    else if NumberChar(c) then NumberAt(t, cursor)
    else if c == 't' then LiteralAt(t.chars, cursor, "true", Bool(true))
    else if c == 'f' then LiteralAt(t.chars, cursor, "false", Bool(false))
    else if c == 'n' then LiteralAt(t.chars, cursor, "null", Null)
    else Err("unexpected marker symbol")
  }

  /**
   * `parse_object_pair`: the key, then a colon between optional
   * whitespace, then the value. The key is read by `parse_string` at the
   * pair's first character, which is not checked to be a quote.
   */
  function PairAt(t: Text, depth: nat, cursor: nat, fields: map<string, Node>): (r: Result<Read<map<string, Node>>>)
    requires depth <= t.limit && cursor < |t.chars|
    ensures r.Ok? ==> cursor < r.value.end <= |t.chars|
    decreases t.limit - depth, |t.chars| - cursor, 1
  {
    var key :- KeyAsWritten(t.chars, cursor);
    var colon :- SkipFrom(t.chars, key.end);
    if t.chars[colon] != ':' then Err("unexpected symbol after the pair key")
    else PairValueAt(t, depth, colon + 1, key.item, fields)
  }

  /**
   * The value of a pair, from just past the colon: the depth goes up by one
   * and must stay within the limit; `try_emplace` keeps a key already
   * present.
   */
  function PairValueAt(t: Text, depth: nat, cursor: nat, key: string, fields: map<string, Node>): (r: Result<Read<map<string, Node>>>)
    requires depth <= t.limit && cursor <= |t.chars|
    ensures r.Ok? ==> cursor < r.value.end <= |t.chars|
    decreases t.limit - depth, |t.chars| - cursor, 0
  {
    var start :- SkipFrom(t.chars, cursor);
    if depth + 1 > t.limit then Err("exceeded maximum allowed recursion depth")
    else
      var value :- NodeAt(t, depth + 1, start);
      Ok(Read(value.end, if key in fields then fields else fields[key := value.item]))
  }

  /** `parse_object` with `cursor` at the opening brace: empty, or a first pair and then `ObjectRest`. */
  function ObjectAt(t: Text, depth: nat, cursor: nat): (r: Result<Read<map<string, Node>>>)
    requires depth <= t.limit && cursor < |t.chars|
    ensures r.Ok? ==> cursor < r.value.end <= |t.chars|
    decreases t.limit - depth, |t.chars| - cursor, 1
  {
    var first :- SkipFrom(t.chars, cursor + 1);
    if t.chars[first] == '}' then Ok(Read(first + 1, map[]))
    else
      var pair :- PairAt(t, depth, first, map[]);
      ObjectRest(t, depth, pair.end, pair.item)
  }

  /** The loop of `parse_object`: past optional whitespace, a comma and another pair, or the closing brace. */
  function ObjectRest(t: Text, depth: nat, cursor: nat, fields: map<string, Node>): (r: Result<Read<map<string, Node>>>)
    requires depth <= t.limit && cursor <= |t.chars|
    ensures r.Ok? ==> cursor < r.value.end <= |t.chars|
    decreases t.limit - depth, |t.chars| - cursor, 3
  {
    if cursor >= |t.chars| then Err("end of buffer while parsing object contents")
    else
      var next :- SkipFrom(t.chars, cursor);
      ObjectNext(t, depth, next, fields)
  }

  /** One turn of the object loop at a significant character. */
  function ObjectNext(t: Text, depth: nat, next: nat, fields: map<string, Node>): (r: Result<Read<map<string, Node>>>)
    requires depth <= t.limit && next < |t.chars|
    ensures r.Ok? ==> next < r.value.end <= |t.chars|
    decreases t.limit - depth, |t.chars| - next, 2
  {
    if t.chars[next] == ',' then
      var start :- SkipFrom(t.chars, next + 1);
      var pair :- PairAt(t, depth, start, fields);
      ObjectRest(t, depth, pair.end, pair.item)
    else if t.chars[next] == '}' then Ok(Read(next + 1, fields))
    else Err("could not find comma or object ending symbol")
  }

  /** `parse_array_element`: a node one level deeper, appended. */
  function ElementAt(t: Text, depth: nat, cursor: nat, items: seq<Node>): (r: Result<Read<seq<Node>>>)
    requires depth <= t.limit && cursor < |t.chars|
    ensures r.Ok? ==> cursor < r.value.end <= |t.chars|
    decreases t.limit - depth, |t.chars| - cursor, 0
  {
    if depth + 1 > t.limit then Err("exceeded maximum allowed recursion depth")
    else
      var value :- NodeAt(t, depth + 1, cursor);
      Ok(Read(value.end, items + [value.item]))
  }

  /** `parse_array` with `cursor` at the opening bracket: empty, or a first element and then `ArrayRest`. */
  function ArrayAt(t: Text, depth: nat, cursor: nat): (r: Result<Read<seq<Node>>>)
    requires depth <= t.limit && cursor < |t.chars|
    ensures r.Ok? ==> cursor < r.value.end <= |t.chars|
    decreases t.limit - depth, |t.chars| - cursor, 1
  {
    var first :- SkipFrom(t.chars, cursor + 1);
    if t.chars[first] == ']' then Ok(Read(first + 1, []))
    else
      var element :- ElementAt(t, depth, first, []);
      ArrayRest(t, depth, element.end, element.item)
  }

  /** The loop of `parse_array`: past optional whitespace, a comma and another element, or the closing bracket. */
  function ArrayRest(t: Text, depth: nat, cursor: nat, items: seq<Node>): (r: Result<Read<seq<Node>>>)
    requires depth <= t.limit && cursor <= |t.chars|
    ensures r.Ok? ==> cursor < r.value.end <= |t.chars|
    decreases t.limit - depth, |t.chars| - cursor, 3
  {
    if cursor >= |t.chars| then Err("end of buffer while parsing array contents")
    else
      var next :- SkipFrom(t.chars, cursor);
      ArrayNext(t, depth, next, items)
  }

  /** One turn of the array loop at a significant character. */
  function ArrayNext(t: Text, depth: nat, next: nat, items: seq<Node>): (r: Result<Read<seq<Node>>>)
    requires depth <= t.limit && next < |t.chars|
    ensures r.Ok? ==> next < r.value.end <= |t.chars|
    decreases t.limit - depth, |t.chars| - next, 2
  {
    if t.chars[next] == ',' then
      var start :- SkipFrom(t.chars, next + 1);
      var element :- ElementAt(t, depth, start, items);
      ArrayRest(t, depth, element.end, element.item)
    else if t.chars[next] == ']' then Ok(Read(next + 1, items))
    else Err("could not find comma or array ending symbol")
  }

  /**
   * `from_string`: leading whitespace, the root node at depth 0, and
   * nothing but whitespace after it.
   */
  function FromString(chars: string, limit: nat, floating: FloatReader): (r: Result<Node>)
  {
    var start :- SkipFrom(chars, 0);
    var root :- NodeAt(Text(chars, limit, floating), 0, start);
    if exists k :: root.end <= k < |chars| && !IsWhitespace(chars[k]) then Err("invalid trailing symbols")
    else Ok(root.item)
  }

  // ------------------------------------------------------------ what a parse guarantees

  /** A node holds containers at most `levels` deep below itself. */
  predicate NestedWithin(n: Node, levels: nat)
    decreases levels, 1
  {
    match n
    case Object(fields) => FieldsWithin(fields, levels)
    case Array(items) => ItemsWithin(items, levels)
    case _ => true
  }

  /** Every field's value is one level down and nests within what is left. */
  predicate FieldsWithin(fields: map<string, Node>, levels: nat)
    decreases levels, 0
  {
    if levels == 0 then fields == map[] else forall k :: k in fields ==> NestedWithin(fields[k], levels - 1)
  }

  /** Every item is one level down and nests within what is left. */
  predicate ItemsWithin(items: seq<Node>, levels: nat)
    decreases levels, 0
  {
    if levels == 0 then items == [] else forall i :: 0 <= i < |items| ==> NestedWithin(items[i], levels - 1)
  }

  /**
   * Whatever the parser returns from `depth` nests within the levels the
   * recursion limit leaves: a text nested deeper than `recursion_limit`
   * throws instead of being parsed.
   */
  lemma {:induction false} NodeNested(t: Text, depth: nat, cursor: nat)
    requires depth <= t.limit && cursor < |t.chars| && NodeAt(t, depth, cursor).Ok?
    ensures NestedWithin(NodeAt(t, depth, cursor).value.item, t.limit - depth)
    decreases t.limit - depth, |t.chars| - cursor, 2
  {
    var c := t.chars[cursor];
    if c == '{' {
      ObjectNested(t, depth, cursor);
    } else if c == '[' {
      ArrayNested(t, depth, cursor);
    }
  }

  /** An object's fields nest within the levels left. */
  lemma {:induction false} ObjectNested(t: Text, depth: nat, cursor: nat)
    requires depth <= t.limit && cursor < |t.chars| && ObjectAt(t, depth, cursor).Ok?
    ensures FieldsWithin(ObjectAt(t, depth, cursor).value.item, t.limit - depth)
    decreases t.limit - depth, |t.chars| - cursor, 1
  {
    var first := SkipFrom(t.chars, cursor + 1).value;
    if t.chars[first] != '}' {
      PairNested(t, depth, first, map[]);
      var pair := PairAt(t, depth, first, map[]).value;
      ObjectRestNested(t, depth, pair.end, pair.item);
    }
  }

  /** The object loop keeps the fields within the levels left. */
  lemma {:induction false} ObjectRestNested(t: Text, depth: nat, cursor: nat, fields: map<string, Node>)
    requires depth <= t.limit && cursor <= |t.chars| && ObjectRest(t, depth, cursor, fields).Ok?
    requires FieldsWithin(fields, t.limit - depth)
    ensures FieldsWithin(ObjectRest(t, depth, cursor, fields).value.item, t.limit - depth)
    decreases t.limit - depth, |t.chars| - cursor, 3
  {
    ObjectNextNested(t, depth, SkipFrom(t.chars, cursor).value, fields);
  }

  /** One turn of the object loop keeps the fields within the levels left. */
  lemma {:induction false} ObjectNextNested(t: Text, depth: nat, next: nat, fields: map<string, Node>)
    requires depth <= t.limit && next < |t.chars| && ObjectNext(t, depth, next, fields).Ok?
    requires FieldsWithin(fields, t.limit - depth)
    ensures FieldsWithin(ObjectNext(t, depth, next, fields).value.item, t.limit - depth)
    decreases t.limit - depth, |t.chars| - next, 2
  {
    if t.chars[next] == ',' {
      var start := SkipFrom(t.chars, next + 1).value;
      PairNested(t, depth, start, fields);
      var pair := PairAt(t, depth, start, fields).value;
      ObjectRestNested(t, depth, pair.end, pair.item);
    }
  }

  /** A pair's value is one level down and nests within what is left. */
  lemma {:induction false} PairNested(t: Text, depth: nat, cursor: nat, fields: map<string, Node>)
    requires depth <= t.limit && cursor < |t.chars| && PairAt(t, depth, cursor, fields).Ok?
    requires FieldsWithin(fields, t.limit - depth)
    ensures FieldsWithin(PairAt(t, depth, cursor, fields).value.item, t.limit - depth)
    decreases t.limit - depth, |t.chars| - cursor, 1
  {
    var key := KeyAsWritten(t.chars, cursor).value;
    var colon := SkipFrom(t.chars, key.end).value;
    PairValueNested(t, depth, colon + 1, key.item, fields);
  }

  /** The pair's value, read one level down. */
  lemma {:induction false} PairValueNested(t: Text, depth: nat, cursor: nat, key: string, fields: map<string, Node>)
    requires depth <= t.limit && cursor <= |t.chars| && PairValueAt(t, depth, cursor, key, fields).Ok?
    requires FieldsWithin(fields, t.limit - depth)
    ensures FieldsWithin(PairValueAt(t, depth, cursor, key, fields).value.item, t.limit - depth)
    decreases t.limit - depth, |t.chars| - cursor, 0
  {
    var start := SkipFrom(t.chars, cursor).value;
    NodeNested(t, depth + 1, start);
    var value := NodeAt(t, depth + 1, start).value;
    FieldsWithinAdded(fields, key, value.item, t.limit - depth);
  }

  /** Adding a field one level down that nests within what is left keeps the fields within the levels. */
  lemma FieldsWithinAdded(fields: map<string, Node>, key: string, value: Node, levels: nat)
    requires FieldsWithin(fields, levels) && levels > 0 && NestedWithin(value, levels - 1)
    ensures FieldsWithin(fields[key := value], levels)
  {
  }

  /** An array's items nest within the levels left. */
  lemma {:induction false} ArrayNested(t: Text, depth: nat, cursor: nat)
    requires depth <= t.limit && cursor < |t.chars| && ArrayAt(t, depth, cursor).Ok?
    ensures ItemsWithin(ArrayAt(t, depth, cursor).value.item, t.limit - depth)
    decreases t.limit - depth, |t.chars| - cursor, 1
  {
    var first := SkipFrom(t.chars, cursor + 1).value;
    if t.chars[first] != ']' {
      ElementNested(t, depth, first, []);
      var element := ElementAt(t, depth, first, []).value;
      ArrayRestNested(t, depth, element.end, element.item);
    }
  }

  /** The array loop keeps the items within the levels left. */
  lemma {:induction false} ArrayRestNested(t: Text, depth: nat, cursor: nat, items: seq<Node>)
    requires depth <= t.limit && cursor <= |t.chars| && ArrayRest(t, depth, cursor, items).Ok?
    requires ItemsWithin(items, t.limit - depth)
    ensures ItemsWithin(ArrayRest(t, depth, cursor, items).value.item, t.limit - depth)
    decreases t.limit - depth, |t.chars| - cursor, 3
  {
    ArrayNextNested(t, depth, SkipFrom(t.chars, cursor).value, items);
  }

  /** One turn of the array loop keeps the items within the levels left. */
  lemma {:induction false} ArrayNextNested(t: Text, depth: nat, next: nat, items: seq<Node>)
    requires depth <= t.limit && next < |t.chars| && ArrayNext(t, depth, next, items).Ok?
    requires ItemsWithin(items, t.limit - depth)
    ensures ItemsWithin(ArrayNext(t, depth, next, items).value.item, t.limit - depth)
    decreases t.limit - depth, |t.chars| - next, 2
  {
    if t.chars[next] == ',' {
      var start := SkipFrom(t.chars, next + 1).value;
      ElementNested(t, depth, start, items);
      var element := ElementAt(t, depth, start, items).value;
      ArrayRestNested(t, depth, element.end, element.item);
    }
  }

  /** An element is one level down and nests within what is left. */
  lemma {:induction false} ElementNested(t: Text, depth: nat, cursor: nat, items: seq<Node>)
    requires depth <= t.limit && cursor < |t.chars| && ElementAt(t, depth, cursor, items).Ok?
    requires ItemsWithin(items, t.limit - depth)
    ensures ItemsWithin(ElementAt(t, depth, cursor, items).value.item, t.limit - depth)
    decreases t.limit - depth, |t.chars| - cursor, 1
  {
    var value := ElementValue(t, depth, cursor, items);
    ItemsWithinAppended(items, value, t.limit - depth);
  }

  /** An element read is the node read one level down, appended. */
  lemma ElementValue(t: Text, depth: nat, cursor: nat, items: seq<Node>) returns (value: Node)
    requires depth <= t.limit && cursor < |t.chars| && ElementAt(t, depth, cursor, items).Ok?
    ensures depth < t.limit && NestedWithin(value, t.limit - depth - 1)
    ensures ElementAt(t, depth, cursor, items).value.item == items + [value]
    decreases t.limit - depth, |t.chars| - cursor, 0
  {
    value := NodeAt(t, depth + 1, cursor).value.item;
    NodeNested(t, depth + 1, cursor);
    assert t.limit - (depth + 1) == t.limit - depth - 1;
  }

  /** Appending an item one level down that nests within what is left keeps the items within the levels. */
  lemma ItemsWithinAppended(items: seq<Node>, value: Node, levels: nat)
    requires ItemsWithin(items, levels) && levels > 0 && NestedWithin(value, levels - 1)
    ensures ItemsWithin(items + [value], levels)
  {
  }

  /** A document `from_string` accepts nests within `recursion_limit`. */
  lemma FromStringNested(chars: string, limit: nat, floating: FloatReader)
    requires FromString(chars, limit, floating).Ok?
    ensures NestedWithin(FromString(chars, limit, floating).value, limit)
  {
    var start := SkipFrom(chars, 0).value;
    NodeNested(Text(chars, limit, floating), 0, start);
  }

  /** With a recursion limit of 0 only a scalar or an empty container is accepted. */
  lemma LimitZero(chars: string, floating: FloatReader)
    requires FromString(chars, 0, floating).Ok?
    ensures var n := FromString(chars, 0, floating).value;
            (n.Object? ==> n.fields == map[]) && (n.Array? ==> n.items == [])
  {
    FromStringNested(chars, 0, floating);
  }

  /**
   * A duplicated key keeps its first value: every field read before a pair
   * keeps its value, the pair adds at most its own key.
   */
  lemma PairKeepsFirst(t: Text, depth: nat, cursor: nat, fields: map<string, Node>)
    requires depth <= t.limit && cursor < |t.chars| && PairAt(t, depth, cursor, fields).Ok?
    ensures var r := PairAt(t, depth, cursor, fields).value.item;
            var key := KeyAsWritten(t.chars, cursor).value.item;
            r.Keys == fields.Keys + {key} && forall k :: k in fields ==> r[k] == fields[k]
  {
    var key := KeyAsWritten(t.chars, cursor).value;
    var colon := SkipFrom(t.chars, key.end).value;
    PairValueKeepsFirst(t, depth, colon + 1, key.item, fields);
  }

  /** The value stage adds the key only when it is new. */
  lemma PairValueKeepsFirst(t: Text, depth: nat, cursor: nat, key: string, fields: map<string, Node>)
    requires depth <= t.limit && cursor <= |t.chars| && PairValueAt(t, depth, cursor, key, fields).Ok?
    ensures var r := PairValueAt(t, depth, cursor, key, fields).value.item;
            r.Keys == fields.Keys + {key} && forall k :: k in fields ==> r[k] == fields[k]
  {
  }

  /** The object loop never replaces a field already read. */
  lemma {:induction false} ObjectRestKeepsFirst(t: Text, depth: nat, cursor: nat, fields: map<string, Node>)
    requires depth <= t.limit && cursor <= |t.chars| && ObjectRest(t, depth, cursor, fields).Ok?
    ensures var r := ObjectRest(t, depth, cursor, fields).value.item;
            fields.Keys <= r.Keys && forall k :: k in fields ==> r[k] == fields[k]
    decreases |t.chars| - cursor, 1
  {
    ObjectNextKeepsFirst(t, depth, SkipFrom(t.chars, cursor).value, fields);
  }

  /** One turn of the object loop never replaces a field already read. */
  lemma {:induction false} ObjectNextKeepsFirst(t: Text, depth: nat, next: nat, fields: map<string, Node>)
    requires depth <= t.limit && next < |t.chars| && ObjectNext(t, depth, next, fields).Ok?
    ensures var r := ObjectNext(t, depth, next, fields).value.item;
            fields.Keys <= r.Keys && forall k :: k in fields ==> r[k] == fields[k]
    decreases |t.chars| - next, 0
  {
    if t.chars[next] == ',' {
      var start := SkipFrom(t.chars, next + 1).value;
      PairKeepsFirst(t, depth, start, fields);
      var pair := PairAt(t, depth, start, fields).value;
      ObjectRestKeepsFirst(t, depth, pair.end, pair.item);
    }
  }

  /** `from_string` of a text ending in whitespace-free garbage after the root throws. */
  lemma TrailingRejected(chars: string, limit: nat, floating: FloatReader, k: nat)
    requires SkipFrom(chars, 0).Ok? && NodeAt(Text(chars, limit, floating), 0, SkipFrom(chars, 0).value).Ok?
    requires NodeAt(Text(chars, limit, floating), 0, SkipFrom(chars, 0).value).value.end <= k < |chars|
    requires !IsWhitespace(chars[k])
    ensures FromString(chars, limit, floating).Err?
  {
  }
}
