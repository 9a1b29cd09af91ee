/**
 * `_parser` of src/utl/json.cpp: the recursive-descent JSON reader over a
 * text it never changes, whose only state is `recursion_depth`. Each method
 * is proved to compute what the matching function of `JsonText` says, and
 * to leave `recursion_depth` as it found it when it succeeds; what those
 * functions guarantee is proved in json_text.dfy.
 */
module JsonParser {
  import opened Wrappers
  import opened JsonNode
  import opened JsonText

  /** The NUL `std::string` keeps past its last character, which the number scan may read. */
  function Terminated(chars: string, i: nat): (c: char)
    requires i <= |chars|
    ensures i < |chars| ==> c == chars[i]
    ensures !NumberChar(c) || i < |chars|
  {
    if i < |chars| then chars[i] else 0 as char
  }

  class Parser {
    const chars: string
    const recursionLimit: nat
    const floating: FloatReader
    var recursionDepth: nat

    /** `_parser(chars, recursion_limit)`: the depth starts at zero. */
    constructor (chars: string, recursionLimit: nat, floating: FloatReader)
      ensures this.chars == chars && this.recursionLimit == recursionLimit && this.floating == floating
      ensures recursionDepth == 0
    {
      this.chars := chars;
      this.recursionLimit := recursionLimit;
      this.floating := floating;
      recursionDepth := 0;
    }

    /** The text the functions of `JsonText` read. */
    function Text(): JsonText.Text
    {
      JsonText.Text(chars, recursionLimit, floating)
    }

    /** `skip_nonsignificant_whitespace`. */
    method SkipWhitespace(cursor: nat) returns (r: Result<nat>)
      ensures r == SkipFrom(chars, cursor)
    {
      var i := cursor;
      while i < |chars|
        invariant cursor <= i && SkipFrom(chars, i) == SkipFrom(chars, cursor)
        decreases |chars| - i
      {
        if !IsWhitespace(chars[i]) {
          return Ok(i);
        }
        i := i + 1;
      }
      return Err("end of buffer while skipping insignificant whitespace");
    }

    /** `parse_node`: the first character selects the reader. */
    method ParseNode(cursor: nat) returns (r: Result<Read<Node>>)
      requires recursionDepth <= recursionLimit && cursor < |chars|
      modifies this
      ensures r == NodeAt(Text(), old(recursionDepth), cursor)
      ensures r.Ok? ==> recursionDepth == old(recursionDepth)
      decreases recursionLimit - recursionDepth, |chars| - cursor, 2
    {
      var c := chars[cursor];
      if c == '{' {
        var fields :- ParseObject(cursor);
        r := Ok(Read(fields.end, Object(fields.item)));
      } else if c == '[' {
        var items :- ParseArray(cursor);
        r := Ok(Read(items.end, Array(items.item)));
      } else if c == '"' {
        var str :- ParseString(cursor);
        r := Ok(Read(str.end, String(str.item)));
      } else if NumberChar(c) {
        r := ParseNumber(cursor);
      } else if c == 't' {
        r := ParseTrue(cursor);
      } else if c == 'f' {
        r := ParseFalse(cursor);
      } else if c == 'n' {
        r := ParseNull(cursor);
      } else {
        r := Err("unexpected marker symbol");
      }
    }

    /**
     * `parse_object_pair`, up to the colon: the key, read by `parse_string`
     * at the pair's first character whatever it is, then the colon between
     * optional whitespace.
     */
    method ParseObjectPair(cursor: nat, parent: map<string, Node>) returns (r: Result<Read<map<string, Node>>>)
      requires recursionDepth <= recursionLimit && cursor < |chars|
      modifies this
      ensures r == PairAt(Text(), old(recursionDepth), cursor, parent)
      ensures r.Ok? ==> recursionDepth == old(recursionDepth)
      decreases recursionLimit - recursionDepth, |chars| - cursor, 1
    {
      var key := ParseString(cursor);
      match key
      case Err(e) =>
        r := Err(e);
      case Ok(key) =>
        var colon := SkipWhitespace(key.end);
        match colon
        case Err(e) =>
          r := Err(e);
        case Ok(colon) =>
          if chars[colon] != ':' {
            r := Err("unexpected symbol after the pair key");
          } else {
            r := ParsePairValue(colon + 1, key.item, parent);
          }
    }

    /**
     * The rest of `parse_object_pair`: past whitespace, `recursion_depth`
     * goes up by one and must stay within the limit, the value is read and
     * the depth goes back down; `try_emplace` keeps a key already in
     * `parent`.
     */
    method ParsePairValue(cursor: nat, key: string, parent: map<string, Node>) returns (r: Result<Read<map<string, Node>>>)
      requires recursionDepth <= recursionLimit && cursor <= |chars|
      modifies this
      ensures r == PairValueAt(Text(), old(recursionDepth), cursor, key, parent)
      ensures r.Ok? ==> recursionDepth == old(recursionDepth)
      decreases recursionLimit - recursionDepth, |chars| - cursor, 0
    {
      var start :- SkipWhitespace(cursor);
      recursionDepth := recursionDepth + 1;
      if recursionDepth > recursionLimit {
        return Err("exceeded maximum allowed recursion depth");
      }
      var value :- ParseNode(start);
      recursionDepth := recursionDepth - 1;
      var fields := if key in parent then parent else parent[key := value.item];
      r := Ok(Read(value.end, fields));
    }

    /** `parse_object`: the first pair, then commas and pairs up to the closing brace. */
    method ParseObject(cursor: nat) returns (r: Result<Read<map<string, Node>>>)
      requires recursionDepth <= recursionLimit && cursor < |chars|
      modifies this
      ensures r == ObjectAt(Text(), old(recursionDepth), cursor)
      ensures r.Ok? ==> recursionDepth == old(recursionDepth)
      decreases recursionLimit - recursionDepth, |chars| - cursor, 1
    {
      ghost var t, depth := Text(), recursionDepth;
      var first := SkipWhitespace(cursor + 1);
      ObjectOpened(t, depth, cursor, first);
      match first
      case Err(e) =>
        return Err(e);
      case Ok(first) =>
        if chars[first] == '}' {
          return Ok(Read(first + 1, map[]));
        }
        var read := ParseObjectPair(first, map[]);
        ObjectFirst(t, depth, cursor, first, read);
        match read
        case Err(e) =>
          return Err(e);
        case Ok(read) =>
          var pos, fields := read.end, read.item;
          while pos < |chars|
            invariant cursor < pos <= |chars| && recursionDepth == depth
            invariant ObjectRest(t, depth, pos, fields) == ObjectAt(t, depth, cursor)
            decreases |chars| - pos
          {
            var next := SkipWhitespace(pos);
            ObjectTurn(t, depth, pos, fields, next);
            match next
            case Err(e) =>
              return Err(e);
            case Ok(next) =>
              ObjectClosing(t, depth, next, fields);
              if chars[next] == ',' {
                var more := ParseNextPair(next, fields);
                match more
                case Err(e) =>
                  return Err(e);
                case Ok(more) =>
                  pos, fields := more.end, more.item;
              } else if chars[next] == '}' {
                return Ok(Read(next + 1, fields));
              } else {
                return Err("could not find comma or object ending symbol");
              }
          }
          ObjectRestEnd(t, depth, pos, fields);
          r := Err("end of buffer while parsing object contents");
    }

    /** The comma branch of the loop of `parse_object`: past whitespace, one more pair. */
    method ParseNextPair(next: nat, fields: map<string, Node>) returns (r: Result<Read<map<string, Node>>>)
      requires recursionDepth <= recursionLimit && next < |chars| && chars[next] == ','
      modifies this
      ensures r.Err? ==> r == ObjectNext(Text(), old(recursionDepth), next, fields)
      ensures r.Ok? ==> next < r.value.end <= |chars| && recursionDepth == old(recursionDepth)
      ensures r.Ok? ==> ObjectNext(Text(), old(recursionDepth), next, fields) == ObjectRest(Text(), old(recursionDepth), r.value.end, r.value.item)
      decreases recursionLimit - recursionDepth, |chars| - next, 0
    {
      ghost var t, depth := Text(), recursionDepth;
      var start := SkipWhitespace(next + 1);
      ObjectComma(t, depth, next, fields, start);
      match start
      case Err(e) =>
        return Err(e);
      case Ok(start) =>
        r := ParseObjectPair(start, fields);
        ObjectCommaNext(t, depth, next, fields, start, r);
    }

    /** `parse_array_element`: a node one level deeper, appended to `parent`. */
    method ParseArrayElement(cursor: nat, parent: seq<Node>) returns (r: Result<Read<seq<Node>>>)
      requires recursionDepth <= recursionLimit && cursor < |chars|
      modifies this
      ensures r == ElementAt(Text(), old(recursionDepth), cursor, parent)
      ensures r.Ok? ==> recursionDepth == old(recursionDepth)
      decreases recursionLimit - recursionDepth, |chars| - cursor, 0
    {
      recursionDepth := recursionDepth + 1;
      if recursionDepth > recursionLimit {
        return Err("exceeded maximum allowed recursion depth");
      }
      var value :- ParseNode(cursor);
      recursionDepth := recursionDepth - 1;
      r := Ok(Read(value.end, parent + [value.item]));
    }

    /** `parse_array`: the first element, then commas and elements up to the closing bracket. */
    method ParseArray(cursor: nat) returns (r: Result<Read<seq<Node>>>)
      requires recursionDepth <= recursionLimit && cursor < |chars|
      modifies this
      ensures r == ArrayAt(Text(), old(recursionDepth), cursor)
      ensures r.Ok? ==> recursionDepth == old(recursionDepth)
      decreases recursionLimit - recursionDepth, |chars| - cursor, 1
    {
      ghost var t, depth := Text(), recursionDepth;
      var first := SkipWhitespace(cursor + 1);
      ArrayOpened(t, depth, cursor, first);
      match first
      case Err(e) =>
        return Err(e);
      case Ok(first) =>
        if chars[first] == ']' {
          return Ok(Read(first + 1, []));
        }
        var read := ParseArrayElement(first, []);
        ArrayFirst(t, depth, cursor, first, read);
        match read
        case Err(e) =>
          return Err(e);
        case Ok(read) =>
          var pos, items := read.end, read.item;
          while pos < |chars|
            invariant cursor < pos <= |chars| && recursionDepth == depth
            invariant ArrayRest(t, depth, pos, items) == ArrayAt(t, depth, cursor)
            decreases |chars| - pos
          {
            var next := SkipWhitespace(pos);
            ArrayTurn(t, depth, pos, items, next);
            match next
            case Err(e) =>
              return Err(e);
            case Ok(next) =>
              ArrayClosing(t, depth, next, items);
              if chars[next] == ',' {
                var more := ParseNextElement(next, items);
                match more
                case Err(e) =>
                  return Err(e);
                case Ok(more) =>
                  pos, items := more.end, more.item;
              } else if chars[next] == ']' {
                return Ok(Read(next + 1, items));
              } else {
                return Err("could not find comma or array ending symbol");
              }
          }
          ArrayRestEnd(t, depth, pos, items);
          r := Err("end of buffer while parsing array contents");
    }

    /** The comma branch of the loop of `parse_array`: past whitespace, one more element. */
    method ParseNextElement(next: nat, items: seq<Node>) returns (r: Result<Read<seq<Node>>>)
      requires recursionDepth <= recursionLimit && next < |chars| && chars[next] == ','
      modifies this
      ensures r.Err? ==> r == ArrayNext(Text(), old(recursionDepth), next, items)
      ensures r.Ok? ==> next < r.value.end <= |chars| && recursionDepth == old(recursionDepth)
      ensures r.Ok? ==> ArrayNext(Text(), old(recursionDepth), next, items) == ArrayRest(Text(), old(recursionDepth), r.value.end, r.value.item)
      decreases recursionLimit - recursionDepth, |chars| - next, 0
    {
      ghost var t, depth := Text(), recursionDepth;
      var start := SkipWhitespace(next + 1);
      ArrayComma(t, depth, next, items, start);
      match start
      case Err(e) =>
        return Err(e);
      case Ok(start) =>
        r := ParseArrayElement(start, items);
        ArrayCommaNext(t, depth, next, items, start, r);
    }

    /**
     * `parse_escaped_unicode_codepoint` with `cursor` at the `u`: the
     * position of the escape's last character and the UTF-8 bytes it
     * appends.
     */
    method ParseEscapedUnicode(cursor: nat) returns (r: Result<Read<string>>)
      ensures r == UnicodeAt(chars, cursor)
    {
      if cursor + 4 >= |chars| {
        return Err("end of buffer while parsing a unicode escape sequence");
      }
      match HexAt(chars, cursor + 1)
      case None =>
        r := Err("could not parse unicode codepoint");
      case Some(high) =>
        if 0xD800 <= high <= 0xDFFF {
          r := ParseLowSurrogate(cursor, high);
        } else {
          var bytes := JsonUtf8.CodepointToUtf8(high as bv32);
          r := if bytes.Some? then Ok(Read(cursor + 4, bytes.value)) else Err("could not parse unicode codepoint");
        }
    }

    /** The second half of a surrogate pair, `\uXXXX` after the first four digits. */
    method ParseLowSurrogate(cursor: nat, high: bv16) returns (r: Result<Read<string>>)
      requires cursor + 4 < |chars| && HexAt(chars, cursor + 1) == Some(high) && 0xD800 <= high <= 0xDFFF
      ensures r == UnicodeAt(chars, cursor)
    {
      if cursor + 10 >= |chars| {
        return Err("end of buffer while parsing a unicode escape sequence surrogate pair");
      }
      if chars[cursor + 5] != '\\' || chars[cursor + 6] != 'u' {
        return Err("invalid unicode escape sequence in second half of UTF-16 surrogate pair");
      }
      match HexAt(chars, cursor + 7)
      case None =>
        r := Err("could not parse unicode codepoint");
      case Some(low) =>
        var bytes := JsonUtf8.CodepointToUtf8(JsonUtf8.Utf16PairToCodepoint(high, low));
        r := if bytes.Some? then Ok(Read(cursor + 10, bytes.value)) else Err("could not parse unicode codepoint");
    }

    /**
     * `parse_string` at `cursor`: the characters between escapes are
     * appended a whole segment at a time, from `segment_start` up to the
     * escape or the closing quote.
     */
    method ParseString(cursor: nat) returns (r: Result<Read<string>>)
      requires cursor < |chars|
      ensures r == StringAt(chars, cursor)
    {
      var value := "";
      var pos: nat := cursor + 1;
      var segmentStart: nat := pos;
      StringScanStart(chars, cursor);
      while pos < |chars|
        invariant segmentStart <= pos <= |chars|
        invariant StringScan(chars, pos, segmentStart, value) == StringAt(chars, cursor)
        decreases |chars| - pos
      {
        var c := chars[pos];
        if c == '"' {
          value := value + chars[segmentStart..pos];
          return Ok(Read(pos + 1, value));
        } else if c == '\\' {
          if pos + 1 >= |chars| {
            return Err("end of buffer while parsing an escape sequence");
          }
          var escape := ParseEscape(pos + 1);
          match escape
          case Err(e) =>
            return Err(e);
          case Ok(read) =>
            StringScanEscaped(chars, pos, segmentStart, value, read);
            value := value + chars[segmentStart..pos] + read.item;
            pos := read.end;
            segmentStart := pos + 1;
        } else if c as int <= 31 {
          return Err("unescaped control character");
        } else {
          StringScanPlain(chars, pos, segmentStart, value);
        }
        pos := pos + 1;
      }
      r := Err("end of buffer while parsing string contents");
    }

    /**
     * The escape step of `parse_string`, at the character after a
     * backslash: a two-character escape is looked up, a `u` starts a
     * unicode escape, anything else throws.
     */
    method ParseEscape(pos: nat) returns (r: Result<Read<string>>)
      requires pos < |chars|
      ensures r == EscapeAt(chars, pos)
    {
      var replacement := ParsedEscape(chars[pos]);
      if replacement.Some? {
        r := Ok(Read(pos, [replacement.value]));
      } else if chars[pos] == 'u' {
        r := ParseEscapedUnicode(pos);
      } else {
        r := Err("unexpected character while parsing an escape sequence");
      }
    }

    /**
     * `parse_number`: the scan runs over digits and minus signs, and the
     * number is floating when the character that stops it is a point.
     */
    method ParseNumber(cursor: nat) returns (r: Result<Read<Node>>)
      requires cursor < |chars|
      ensures r == NumberAt(Text(), cursor)
    {
      var i := cursor;
      var c := Terminated(chars, i);
      var isFloating := c == '.';
      while NumberChar(c)
        invariant cursor <= i <= |chars| && c == Terminated(chars, i)
        invariant RunEnd(chars, i) == RunEnd(chars, cursor)
        invariant isFloating == (c == '.')
        decreases |chars| - i
      {
        i := i + 1;
        c := Terminated(chars, i);
        if c == '.' {
          isFloating := true;
        }
      }
      if isFloating {
        var end := FloatEnd(chars, cursor);
        match end
        case None =>
          r := Err("could not be parsed as a number");
        case Some(end) =>
          var value := floating(chars[cursor..end]);
          match value
          case None =>
            r := Err("number out of range");
          case Some(value) =>
            r := Ok(Read(end, Floating(value)));
      } else {
        r := IntegralAt(chars, cursor);
      }
    }

    /** `parse_true`. */
    method ParseTrue(cursor: nat) returns (r: Result<Read<Node>>)
      ensures r == LiteralAt(chars, cursor, "true", Bool(true))
    {
      if cursor + 4 > |chars| {
        return Err("end of buffer while parsing a literal");
      }
      var parsedCorrectly := chars[cursor] == 't' && chars[cursor + 1] == 'r' && chars[cursor + 2] == 'u' && chars[cursor + 3] == 'e';
      assert parsedCorrectly <==> chars[cursor..cursor + 4] == "true" by {
        assert chars[cursor..cursor + 4] == [chars[cursor], chars[cursor + 1], chars[cursor + 2], chars[cursor + 3]];
      }
      if !parsedCorrectly {
        return Err("could not parse a literal");
      }
      r := Ok(Read(cursor + 4, Bool(true)));
    }

    /** `parse_false`. */
    method ParseFalse(cursor: nat) returns (r: Result<Read<Node>>)
      ensures r == LiteralAt(chars, cursor, "false", Bool(false))
    {
      if cursor + 5 > |chars| {
        return Err("end of buffer while parsing a literal");
      }
      var parsedCorrectly := chars[cursor] == 'f' && chars[cursor + 1] == 'a' && chars[cursor + 2] == 'l' &&
                             chars[cursor + 3] == 's' && chars[cursor + 4] == 'e';
      assert parsedCorrectly <==> chars[cursor..cursor + 5] == "false" by {
        assert chars[cursor..cursor + 5] == [chars[cursor], chars[cursor + 1], chars[cursor + 2], chars[cursor + 3], chars[cursor + 4]];
      }
      if !parsedCorrectly {
        return Err("could not parse a literal");
      }
      r := Ok(Read(cursor + 5, Bool(false)));
    }

    /** `parse_null`. */
    method ParseNull(cursor: nat) returns (r: Result<Read<Node>>)
      ensures r == LiteralAt(chars, cursor, "null", Null)
    {
      if cursor + 4 > |chars| {
        return Err("end of buffer while parsing a literal");
      }
      var parsedCorrectly := chars[cursor] == 'n' && chars[cursor + 1] == 'u' && chars[cursor + 2] == 'l' && chars[cursor + 3] == 'l';
      assert parsedCorrectly <==> chars[cursor..cursor + 4] == "null" by {
        assert chars[cursor..cursor + 4] == [chars[cursor], chars[cursor + 1], chars[cursor + 2], chars[cursor + 3]];
      }
      if !parsedCorrectly {
        return Err("could not parse a literal");
      }
      r := Ok(Read(cursor + 4, Null));
    }
  }

  // ------------------------------------------------------------ loop steps

  /** Past the opening of an object: skipping fails, or it closes at once, or its first pair follows. */
  lemma ObjectOpened(t: Text, depth: nat, cursor: nat, first: Result<nat>)
    requires depth <= t.limit && cursor < |t.chars| && first == SkipFrom(t.chars, cursor + 1)
    ensures first.Err? ==> ObjectAt(t, depth, cursor) == Err(first.error)
    ensures first.Ok? && t.chars[first.value] == '}' ==> ObjectAt(t, depth, cursor) == Ok(Read(first.value + 1, map[]))
  {
  }

  /** An object that does not close at once fails with its first pair or goes on with the loop after it. */
  lemma ObjectFirst(t: Text, depth: nat, cursor: nat, first: nat, read: Result<Read<map<string, Node>>>)
    requires depth <= t.limit && cursor < |t.chars|
    requires SkipFrom(t.chars, cursor + 1) == Ok(first) && t.chars[first] != '}'
    requires read == PairAt(t, depth, first, map[])
    ensures read.Err? ==> ObjectAt(t, depth, cursor) == Err(read.error)
    ensures read.Ok? ==> ObjectAt(t, depth, cursor) == ObjectRest(t, depth, read.value.end, read.value.item)
  {
  }

  /** A turn of the object loop: skipping fails, or the turn goes on at the next significant character. */
  lemma ObjectTurn(t: Text, depth: nat, pos: nat, fields: map<string, Node>, next: Result<nat>)
    requires depth <= t.limit && pos < |t.chars| && next == SkipFrom(t.chars, pos)
    ensures next.Err? ==> ObjectRest(t, depth, pos, fields) == Err(next.error)
    ensures next.Ok? ==> ObjectRest(t, depth, pos, fields) == ObjectNext(t, depth, next.value, fields)
  {
  }

  /** At anything but a comma, the object closes or is malformed. */
  lemma ObjectClosing(t: Text, depth: nat, next: nat, fields: map<string, Node>)
    requires depth <= t.limit && next < |t.chars|
    ensures t.chars[next] == '}' ==> ObjectNext(t, depth, next, fields) == Ok(Read(next + 1, fields))
    ensures t.chars[next] != ',' && t.chars[next] != '}' ==> ObjectNext(t, depth, next, fields) == Err("could not find comma or object ending symbol")
  {
  }

  /** At a comma, skipping the whitespace after it may fail. */
  lemma ObjectComma(t: Text, depth: nat, next: nat, fields: map<string, Node>, start: Result<nat>)
    requires depth <= t.limit && next < |t.chars| && t.chars[next] == ',' && start == SkipFrom(t.chars, next + 1)
    ensures start.Err? ==> ObjectNext(t, depth, next, fields) == Err(start.error)
  {
  }

  /** After a comma, one more pair fails or the object loop goes on past it. */
  lemma ObjectCommaNext(t: Text, depth: nat, next: nat, fields: map<string, Node>, start: nat, read: Result<Read<map<string, Node>>>)
    requires depth <= t.limit && next < |t.chars| && t.chars[next] == ','
    requires SkipFrom(t.chars, next + 1) == Ok(start) && read == PairAt(t, depth, start, fields)
    ensures read.Err? ==> ObjectNext(t, depth, next, fields) == Err(read.error)
    ensures read.Ok? ==> ObjectNext(t, depth, next, fields) == ObjectRest(t, depth, read.value.end, read.value.item)
  {
  }

  /** The object loop at the end of the buffer. */
  lemma ObjectRestEnd(t: Text, depth: nat, pos: nat, fields: map<string, Node>)
    requires depth <= t.limit && pos == |t.chars|
    ensures ObjectRest(t, depth, pos, fields) == Err("end of buffer while parsing object contents")
  {
  }

  /** Past the opening of an array: skipping fails, or it closes at once, or its first element follows. */
  lemma ArrayOpened(t: Text, depth: nat, cursor: nat, first: Result<nat>)
    requires depth <= t.limit && cursor < |t.chars| && first == SkipFrom(t.chars, cursor + 1)
    ensures first.Err? ==> ArrayAt(t, depth, cursor) == Err(first.error)
    ensures first.Ok? && t.chars[first.value] == ']' ==> ArrayAt(t, depth, cursor) == Ok(Read(first.value + 1, []))
  {
  }

  /** An array that does not close at once fails with its first element or goes on with the loop after it. */
  lemma ArrayFirst(t: Text, depth: nat, cursor: nat, first: nat, read: Result<Read<seq<Node>>>)
    requires depth <= t.limit && cursor < |t.chars|
    requires SkipFrom(t.chars, cursor + 1) == Ok(first) && t.chars[first] != ']'
    requires read == ElementAt(t, depth, first, [])
    ensures read.Err? ==> ArrayAt(t, depth, cursor) == Err(read.error)
    ensures read.Ok? ==> ArrayAt(t, depth, cursor) == ArrayRest(t, depth, read.value.end, read.value.item)
  {
  }

  /** A turn of the array loop: skipping fails, or the turn goes on at the next significant character. */
  lemma ArrayTurn(t: Text, depth: nat, pos: nat, items: seq<Node>, next: Result<nat>)
    requires depth <= t.limit && pos < |t.chars| && next == SkipFrom(t.chars, pos)
    ensures next.Err? ==> ArrayRest(t, depth, pos, items) == Err(next.error)
    ensures next.Ok? ==> ArrayRest(t, depth, pos, items) == ArrayNext(t, depth, next.value, items)
  {
  }

  /** At anything but a comma, the array closes or is malformed. */
  lemma ArrayClosing(t: Text, depth: nat, next: nat, items: seq<Node>)
    requires depth <= t.limit && next < |t.chars|
    ensures t.chars[next] == ']' ==> ArrayNext(t, depth, next, items) == Ok(Read(next + 1, items))
    ensures t.chars[next] != ',' && t.chars[next] != ']' ==> ArrayNext(t, depth, next, items) == Err("could not find comma or array ending symbol")
  {
  }

  /** At a comma, skipping the whitespace after it may fail. */
  lemma ArrayComma(t: Text, depth: nat, next: nat, items: seq<Node>, start: Result<nat>)
    requires depth <= t.limit && next < |t.chars| && t.chars[next] == ',' && start == SkipFrom(t.chars, next + 1)
    ensures start.Err? ==> ArrayNext(t, depth, next, items) == Err(start.error)
  {
  }

  /** After a comma, one more element fails or the array loop goes on past it. */
  lemma ArrayCommaNext(t: Text, depth: nat, next: nat, items: seq<Node>, start: nat, read: Result<Read<seq<Node>>>)
    requires depth <= t.limit && next < |t.chars| && t.chars[next] == ','
    requires SkipFrom(t.chars, next + 1) == Ok(start) && read == ElementAt(t, depth, start, items)
    ensures read.Err? ==> ArrayNext(t, depth, next, items) == Err(read.error)
    ensures read.Ok? ==> ArrayNext(t, depth, next, items) == ArrayRest(t, depth, read.value.end, read.value.item)
  {
  }

  /** The array loop at the end of the buffer. */
  lemma ArrayRestEnd(t: Text, depth: nat, pos: nat, items: seq<Node>)
    requires depth <= t.limit && pos == |t.chars|
    ensures ArrayRest(t, depth, pos, items) == Err("end of buffer while parsing array contents")
  {
  }

  /**
   * The loop of `parse_string` in its own variables: `value` holds what
   * was appended so far and `segmentStart` where the pending segment of
   * ordinary characters starts.
   */
  function StringScan(chars: string, pos: nat, segmentStart: nat, value: string): Result<Read<string>>
    requires segmentStart <= pos <= |chars|
    decreases |chars| - pos, 1
  {
    if pos >= |chars| then Err("end of buffer while parsing string contents")
    else if chars[pos] == '"' then Ok(Read(pos + 1, value + chars[segmentStart..pos]))
    else if chars[pos] == '\\' then EscapedScan(chars, pos, segmentStart, value)
    else if chars[pos] as int <= 31 then Err("unescaped control character")
    else StringScan(chars, pos + 1, segmentStart, value)
  }

  /** The string loop at a backslash: the escape is read, and the loop goes on after it with a new segment. */
  function EscapedScan(chars: string, backslash: nat, segmentStart: nat, value: string): Result<Read<string>>
    requires segmentStart <= backslash < |chars|
    decreases |chars| - backslash, 0
  {
    if backslash + 1 >= |chars| then Err("end of buffer while parsing an escape sequence")
    else
      match EscapeAt(chars, backslash + 1)
      case Err(e) => Err(e)
      case Ok(escape) => StringScan(chars, escape.end + 1, escape.end + 1, value + chars[segmentStart..backslash] + escape.item)
  }

  /** One escape of the string loop: the segment and the escape's text are appended and a new segment starts after it. */
  lemma StringScanEscaped(chars: string, pos: nat, segmentStart: nat, value: string, escape: Read<string>)
    requires segmentStart <= pos && pos + 1 < |chars| && EscapeAt(chars, pos + 1) == Ok(escape)
    ensures EscapedScan(chars, pos, segmentStart, value)
            == StringScan(chars, escape.end + 1, escape.end + 1, value + chars[segmentStart..pos] + escape.item)
  {
  }

  /** One ordinary character of the string loop: it joins the pending segment. */
  lemma StringScanPlain(chars: string, pos: nat, segmentStart: nat, value: string)
    requires segmentStart <= pos < |chars| && Plain(chars[pos])
    ensures StringScan(chars, pos, segmentStart, value) == StringScan(chars, pos + 1, segmentStart, value)
  {
  }

  /** The string loop as it starts, past the opening quote with nothing appended, reads the string at `cursor`. */
  lemma StringScanStart(chars: string, cursor: nat)
    requires cursor < |chars|
    ensures StringScan(chars, cursor + 1, cursor + 1, "") == StringAt(chars, cursor)
  {
    StringScanMeaning(chars, cursor + 1, cursor + 1, "");
    assert "" + chars[cursor + 1..cursor + 1] == "";
    var body := StringBody(chars, cursor + 1);
    if body.Ok? {
      assert "" + body.value.item == body.value.item;
    }
  }

  /**
   * The segment-buffered loop reads what `StringBody` reads: when the
   * pending segment holds only ordinary characters, scanning on is reading
   * the rest of the string with the value and the segment in front.
   */
  lemma {:induction false} StringScanMeaning(chars: string, pos: nat, segmentStart: nat, value: string)
    requires segmentStart <= pos <= |chars|
    requires forall k :: segmentStart <= k < pos ==> Plain(chars[k])
    ensures StringScan(chars, pos, segmentStart, value) == Prepended(value + chars[segmentStart..pos], StringBody(chars, pos))
    decreases |chars| - pos
  {
    var prefix := value + chars[segmentStart..pos];
    if pos < |chars| {
      var c := chars[pos];
      if c == '"' {
        assert prefix + "" == prefix;
      } else if c == '\\' {
        if pos + 1 < |chars| && EscapeAt(chars, pos + 1).Ok? {
          var escape := EscapeAt(chars, pos + 1).value;
          StringScanMeaning(chars, escape.end + 1, escape.end + 1, prefix + escape.item);
          assert (prefix + escape.item) + chars[escape.end + 1..escape.end + 1] == prefix + escape.item;
          PrependedTwice(prefix, escape.item, StringBody(chars, escape.end + 1));
        }
      } else if c as int <= 31 {
      } else {
        StringScanMeaning(chars, pos + 1, segmentStart, value);
        assert chars[segmentStart..pos + 1] == chars[segmentStart..pos] + [c];
        assert value + chars[segmentStart..pos + 1] == prefix + [c];
        PrependedTwice(prefix, [c], StringBody(chars, pos + 1));
      }
    }
  }

  /**
   * `from_string`: leading whitespace, the root node, then a loop that
   * throws at the first significant character after it.
   */
  method FromString(chars: string, recursionLimit: nat, floating: FloatReader) returns (r: Result<Node>)
    ensures r == JsonText.FromString(chars, recursionLimit, floating)
  {
    var parser := new Parser(chars, recursionLimit, floating);
    var start :- parser.SkipWhitespace(0);
    var root :- parser.ParseNode(start);
    var cursor := root.end;
    while cursor < |chars|
      invariant root.end <= cursor <= |chars|
      invariant forall k :: root.end <= k < cursor ==> IsWhitespace(chars[k])
      decreases |chars| - cursor
    {
      if !IsWhitespace(chars[cursor]) {
        return Err("invalid trailing symbols");
      }
      cursor := cursor + 1;
    }
    r := Ok(root.item);
  }
}
