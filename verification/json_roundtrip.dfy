/**
 * What the parser of src/utl/json.cpp makes of the minimized writer's
 * output. A node without floating values, whose integers fit in 64 bits,
 * whose strings hold no control character other than the five the writer
 * escapes, and whose keys need no escaping, is read back as the same node,
 * provided it nests within the recursion limit. Keys are written as they
 * are, so a key with a quote in it is not read back.
 */
module JsonRoundTrip {
  import opened Wrappers
  import opened JsonNode
  import opened JsonText
  import opened JsonWriter
  import StringFuncs

  // ------------------------------------------------------------ texts in a buffer

  /** `w` stands in `chars` from `cursor` on. */
  predicate WrittenAt(chars: string, cursor: nat, w: string)
  {
    cursor + |w| <= |chars| && chars[cursor..cursor + |w|] == w
  }

  /** A text written from `cursor` is its first part there, then its second part. */
  lemma WrittenSplit(chars: string, cursor: nat, a: string, b: string)
    requires WrittenAt(chars, cursor, a + b)
    ensures WrittenAt(chars, cursor, a) && WrittenAt(chars, cursor + |a|, b)
  {
    assert chars[cursor..cursor + |a|] == (a + b)[..|a|];
    assert chars[cursor + |a|..cursor + |a| + |b|] == (a + b)[|a|..];
  }

  /** A character of a text written from `cursor`. */
  lemma WrittenChar(chars: string, cursor: nat, w: string, i: nat)
    requires WrittenAt(chars, cursor, w) && i < |w|
    ensures chars[cursor + i] == w[i]
  {
    assert chars[cursor..cursor + |w|][i] == chars[cursor + i];
  }

  /** No digit, minus sign or decimal point follows position `j`: a number written before it ends there. */
  predicate Delimited(chars: string, j: nat)
  {
    j >= |chars| || (!NumberChar(chars[j]) && chars[j] != '.')
  }

  // ------------------------------------------------------------ strings

  /** One written character is read back as itself, in front of what is read after it. */
  lemma CharRead(chars: string, cursor: nat, c: char, end: nat, rest: string)
    requires c as int > 31 || EscapeReplacement(c).Some?
    requires WrittenAt(chars, cursor, EscapedChar(c))
    requires cursor + |EscapedChar(c)| <= |chars|
    requires StringBody(chars, cursor + |EscapedChar(c)|) == Ok(Read(end, rest))
    ensures StringBody(chars, cursor) == Ok(Read(end, [c] + rest))
  {
    EscapeInverted(c);
    WrittenChar(chars, cursor, EscapedChar(c), 0);
    if EscapeReplacement(c).Some? {
      WrittenChar(chars, cursor, EscapedChar(c), 1);
      assert EscapeAt(chars, cursor + 1) == Ok(Read(cursor + 1, [c]));
    }
  }

  /** The closing quote ends the string. */
  lemma QuoteRead(s: string, chars: string, cursor: nat)
    requires s == [] && WrittenAt(chars, cursor, Escaped(s) + "\"")
    ensures StringBody(chars, cursor) == Ok(Read(cursor + |Escaped(s)| + 1, s))
  {
    assert Escaped(s) + "\"" == "\"";
    WrittenChar(chars, cursor, "\"", 0);
  }

  /** What follows the first written character: the rest of the string, written, then the quote. */
  lemma EscapedTail(s: string, chars: string, cursor: nat, next: nat, end: nat)
    requires s != [] && Representable(s) && WrittenAt(chars, cursor, Escaped(s) + "\"")
    requires next == cursor + |EscapedChar(s[0])| && end == cursor + |Escaped(s)| + 1
    ensures Representable(s[1..]) && WrittenAt(chars, next, Escaped(s[1..]) + "\"")
    ensures end == next + |Escaped(s[1..])| + 1 && next <= |chars|
  {
    assert Escaped(s) + "\"" == EscapedChar(s[0]) + (Escaped(s[1..]) + "\"");
    WrittenSplit(chars, cursor, EscapedChar(s[0]), Escaped(s[1..]) + "\"");
    forall k | 0 <= k < |s[1..]|
      ensures s[1..][k] as int > 31 || EscapeReplacement(s[1..][k]).Some?
    {
      assert s[1..][k] == s[k + 1];
    }
  }

  /** Reading the first written character in front of the rest of the string read. */
  lemma EscapedHead(s: string, chars: string, cursor: nat, end: nat)
    requires s != [] && Representable(s) && WrittenAt(chars, cursor, Escaped(s) + "\"")
    requires cursor + |EscapedChar(s[0])| <= |chars|
    requires StringBody(chars, cursor + |EscapedChar(s[0])|) == Ok(Read(end, s[1..]))
    ensures StringBody(chars, cursor) == Ok(Read(end, s))
  {
    assert [s[0]] + s[1..] == s;
    assert Escaped(s) + "\"" == EscapedChar(s[0]) + (Escaped(s[1..]) + "\"");
    WrittenSplit(chars, cursor, EscapedChar(s[0]), Escaped(s[1..]) + "\"");
    CharRead(chars, cursor, s[0], end, s[1..]);
  }

  /**
   * The escaped characters of a representable string, followed by a
   * quote, are read back as the string.
   */
  lemma {:induction false} EscapedRead(s: string, chars: string, cursor: nat, end: nat)
    requires Representable(s) && WrittenAt(chars, cursor, Escaped(s) + "\"")
    requires end == cursor + |Escaped(s)| + 1
    ensures StringBody(chars, cursor) == Ok(Read(end, s))
    decreases |s|
  {
    if s == [] {
      QuoteRead(s, chars, cursor);
    } else {
      var next := cursor + |EscapedChar(s[0])|;
      EscapedTail(s, chars, cursor, next, end);
      EscapedRead(s[1..], chars, next, end);
      EscapedHead(s, chars, cursor, end);
    }
  }

  /** A written string is a quote, then its escaped characters and the closing quote. */
  lemma QuotedLayout(s: string, chars: string, cursor: nat)
    requires WrittenAt(chars, cursor, Quoted(s))
    ensures cursor < |chars| && chars[cursor] == '"' && WrittenAt(chars, cursor + 1, Escaped(s) + "\"")
    ensures |Quoted(s)| == |Escaped(s)| + 2
  {
    assert Quoted(s) == "\"" + (Escaped(s) + "\"");
    WrittenSplit(chars, cursor, "\"", Escaped(s) + "\"");
    WrittenChar(chars, cursor, "\"", 0);
  }

  /** `parse_string` reads a written string node back. */
  lemma StringRoundTrip(s: string, chars: string, cursor: nat, end: nat)
    requires Representable(s) && WrittenAt(chars, cursor, Quoted(s)) && end == cursor + |Quoted(s)|
    ensures cursor < |chars| && chars[cursor] == '"' && StringAt(chars, cursor) == Ok(Read(end, s))
  {
    QuotedLayout(s, chars, cursor);
    EscapedRead(s, chars, cursor + 1, end);
  }

  // ------------------------------------------------------------ integers

  /** The digit scan stops at the end of a run of digits. */
  lemma {:induction false} DigitsEndAt(chars: string, i: nat, j: nat)
    requires i <= j <= |chars|
    requires forall k :: i <= k < j ==> StringFuncs.IsDigit(chars[k])
    requires j == |chars| || !StringFuncs.IsDigit(chars[j])
    ensures DigitsEnd(chars, i) == j
    decreases j - i
  {
    if i < j {
      DigitsEndAt(chars, i + 1, j);
    }
  }

  /** The number scan stops at the end of a run of digits and minus signs. */
  lemma {:induction false} RunEndAt(chars: string, i: nat, j: nat)
    requires i <= j <= |chars|
    requires forall k :: i <= k < j ==> NumberChar(chars[k])
    requires j == |chars| || !NumberChar(chars[j])
    ensures RunEnd(chars, i) == j
    decreases j - i
  {
    if i < j {
      RunEndAt(chars, i + 1, j);
    }
  }

  /** The digits of a written magnitude, read back. */
  lemma DecimalRead(m: nat, chars: string, start: nat, end: nat)
    requires WrittenAt(chars, start, StringFuncs.DecimalString(m))
    requires end == start + |StringFuncs.DecimalString(m)| && Delimited(chars, end)
    ensures DigitsEnd(chars, start) == end && start < end
    ensures StringFuncs.DigitsValue(chars[start..end]) == m
  {
    var d := StringFuncs.DecimalString(m);
    forall k | start <= k < end
      ensures StringFuncs.IsDigit(chars[k])
    {
      WrittenChar(chars, start, d, k - start);
    }
    DigitsEndAt(chars, start, end);
    StringFuncs.DecimalValue(m);
  }

  /** A written negative integer: the minus sign, then the digits of its magnitude. */
  lemma NegativeRead(i: int, chars: string, cursor: nat, end: nat)
    requires Int64Min <= i < 0
    requires WrittenAt(chars, cursor, IntegralText(i)) && end == cursor + |IntegralText(i)| && Delimited(chars, end)
    ensures IntegralAt(chars, cursor) == Ok(Read(end, Integral(i)))
  {
    WrittenSplit(chars, cursor, "-", StringFuncs.DecimalString(-i));
    WrittenChar(chars, cursor, "-", 0);
    DecimalRead(-i, chars, cursor + 1, end);
  }

  /** A written non-negative integer: its digits. */
  lemma NonNegativeRead(i: int, chars: string, cursor: nat, end: nat)
    requires 0 <= i <= Int64Max
    requires WrittenAt(chars, cursor, IntegralText(i)) && end == cursor + |IntegralText(i)| && Delimited(chars, end)
    ensures IntegralAt(chars, cursor) == Ok(Read(end, Integral(i)))
  {
    var d := StringFuncs.DecimalString(i);
    DecimalRead(i, chars, cursor, end);
    WrittenChar(chars, cursor, d, 0);
  }

  /** A written integer is a run of digits and minus signs ending where the number ends. */
  lemma IntegralRun(i: int, chars: string, cursor: nat, end: nat)
    requires WrittenAt(chars, cursor, IntegralText(i)) && end == cursor + |IntegralText(i)| && Delimited(chars, end)
    ensures cursor < |chars| && NumberChar(chars[cursor]) && !IsFloating(chars, cursor)
  {
    var w := IntegralText(i);
    forall k | cursor <= k < end
      ensures NumberChar(chars[k])
    {
      WrittenChar(chars, cursor, w, k - cursor);
    }
    RunEndAt(chars, cursor, end);
  }

  /**
   * `parse_number` reads a written 64-bit integer back as an integral
   * node: the text has no decimal point, so it is not taken for a floating
   * number.
   */
  lemma IntegralRoundTrip(i: int, t: Text, cursor: nat, end: nat)
    requires Int64Min <= i <= Int64Max
    requires WrittenAt(t.chars, cursor, IntegralText(i)) && end == cursor + |IntegralText(i)| && Delimited(t.chars, end)
    ensures cursor < |t.chars| && NumberChar(t.chars[cursor])
    ensures NumberAt(t, cursor) == Ok(Read(end, Integral(i)))
  {
    IntegralRun(i, t.chars, cursor, end);
    if i < 0 {
      NegativeRead(i, t.chars, cursor, end);
    } else {
      NonNegativeRead(i, t.chars, cursor, end);
    }
  }

  // ------------------------------------------------------------ nodes

  /** A key the parser reads back as it is written: no quote, backslash or control character. */
  predicate PlainKey(k: string)
  {
    forall i :: 0 <= i < |k| ==> Plain(k[i])
  }

  /**
   * A node the minimized writer writes in a form the parser reads back: no
   * floating value, integers within 64 bits, representable strings and
   * plain keys, all the way down.
   */
  ghost predicate Writable(n: Node)
  {
    match n
    case Object(fields) => forall k :: k in fields ==> PlainKey(k) && Writable(fields[k])
    case Array(items) => forall i :: 0 <= i < |items| ==> Writable(items[i])
    case String(s) => Representable(s)
    case Integral(i) => Int64Min <= i <= Int64Max
    case Floating(_) => false
    case _ => true
  }

  /** A character `parse_node` starts a node at. */
  predicate Marker(c: char)
  {
    c == '{' || c == '[' || c == '"' || NumberChar(c) || c == 't' || c == 'f' || c == 'n'
  }

  /** A written node starts with a character that selects a node, not whitespace or a closing bracket. */
  lemma FirstSignificant(n: Node, fw: FloatWriter)
    requires Writable(n)
    ensures |Minimized(n, fw)| > 0 && Marker(Minimized(n, fw)[0])
  {
    match n
    case Object(fields) =>
    case Array(items) =>
    case String(s) =>
    case Integral(i) =>
      if i < 0 {
        assert Minimized(n, fw)[0] == '-';
      } else {
        assert Minimized(n, fw)[0] == StringFuncs.DecimalString(i)[0];
      }
    case Floating(_) =>
    case Bool(b) =>
    case Null =>
  }

  /** A written node starts at a significant character. */
  lemma NodeStart(chars: string, cursor: nat, n: Node, fw: FloatWriter)
    requires Writable(n) && WrittenAt(chars, cursor, Minimized(n, fw))
    ensures cursor < |chars| && Marker(chars[cursor]) && SkipFrom(chars, cursor) == Ok(cursor)
  {
    FirstSignificant(n, fw);
    MarkerFirst(chars, cursor, Minimized(n, fw));
  }

  /** A text written from `cursor` that opens with a marker: skipping stops at once. */
  lemma MarkerFirst(chars: string, cursor: nat, w: string)
    requires |w| > 0 && Marker(w[0]) && WrittenAt(chars, cursor, w)
    ensures cursor < |chars| && Marker(chars[cursor]) && SkipFrom(chars, cursor) == Ok(cursor)
  {
    WrittenChar(chars, cursor, w, 0);
  }

  /** A field's value is writable and nests within one level less than its object. */
  lemma FieldChild(n: Node, k: string, levels: nat)
    requires n.Object? && k in n.fields && Writable(n) && NestedWithin(n, levels)
    ensures levels >= 1 && Writable(n.fields[k]) && NestedWithin(n.fields[k], levels - 1)
  {
  }

  /** An item is writable and nests within one level less than its array. */
  lemma ItemChild(n: Node, i: nat, levels: nat)
    requires n.Array? && i < |n.items| && Writable(n) && NestedWithin(n, levels)
    ensures levels >= 1 && Writable(n.items[i]) && NestedWithin(n.items[i], levels - 1)
  {
  }

  /** Reading the pair of the least key left adds that key to what was read before. */
  lemma FieldsStep(fields: map<string, Node>, keys: set<string>, k: string)
    requires k in keys && k in fields
    ensures (fields - keys)[k := fields[k]] == fields - (keys - {k})
  {
  }

  /** The keys left after the least one, when it was not the last. */
  lemma KeysStep(keys: set<string>, all: set<string>, k: string)
    requires k in keys && keys <= all && keys != {k}
    ensures keys - {k} != {} && keys - {k} <= all && |keys - {k}| < |keys|
  {
    var j :| j in keys && j != k;
    assert j in keys - {k};
  }

  /** Once the last key left is read, everything has been read. */
  lemma FieldsLast(fields: map<string, Node>, keys: set<string>, k: string)
    requires keys == {k}
    ensures fields - (keys - {k}) == fields
  {
    assert keys - {k} == {};
  }

  /** A pair, then the rest of the object loop: what `parse_object` reads from a pair's first character. */
  function PairThenRest(t: Text, depth: nat, cursor: nat, fields: map<string, Node>): Result<Read<map<string, Node>>>
    requires depth <= t.limit && cursor < |t.chars|
  {
    var pair :- PairAt(t, depth, cursor, fields);
    ObjectRest(t, depth, pair.end, pair.item)
  }

  /** An element, then the rest of the array loop: what `parse_array` reads from an element's first character. */
  function ElementThenRest(t: Text, depth: nat, cursor: nat, items: seq<Node>): Result<Read<seq<Node>>>
    requires depth <= t.limit && cursor < |t.chars|
  {
    var element :- ElementAt(t, depth, cursor, items);
    ArrayRest(t, depth, element.end, element.item)
  }

  /** A written member is a quote, the key, a quote and a colon, then the value. */
  lemma MemberLayout(chars: string, cursor: nat, n: Node, k: string, fw: FloatWriter)
    requires n.Object? && k in n.fields && WrittenAt(chars, cursor, Member(n, k, fw))
    ensures chars[cursor] == '"' && WrittenAt(chars, cursor + 1, k)
    ensures chars[cursor + |k| + 1] == '"' && chars[cursor + |k| + 2] == ':'
    ensures WrittenAt(chars, cursor + |k| + 3, Minimized(n.fields[k], fw))
    ensures |Member(n, k, fw)| == |k| + 3 + |Minimized(n.fields[k], fw)|
  {
    var w := Minimized(n.fields[k], fw);
    assert Member(n, k, fw) == "\"" + (k + ("\":" + w));
    WrittenSplit(chars, cursor, "\"", k + ("\":" + w));
    WrittenSplit(chars, cursor + 1, k, "\":" + w);
    WrittenSplit(chars, cursor + 1 + |k|, "\":", w);
    WrittenChar(chars, cursor, "\"", 0);
    WrittenChar(chars, cursor + 1 + |k|, "\":", 0);
    WrittenChar(chars, cursor + 1 + |k|, "\":", 1);
  }

  /** A quoted plain key is read back as it is. */
  lemma KeyRead(chars: string, cursor: nat, k: string)
    requires PlainKey(k) && cursor < |chars| && chars[cursor] == '"' && WrittenAt(chars, cursor + 1, k)
    requires cursor + |k| + 1 < |chars| && chars[cursor + |k| + 1] == '"'
    ensures KeyAsWritten(chars, cursor) == Ok(Read(cursor + |k| + 2, k))
  {
    forall i | cursor + 1 <= i < cursor + 1 + |k|
      ensures Plain(chars[i])
    {
      WrittenChar(chars, cursor + 1, k, i - cursor - 1);
    }
    StringVerbatim(chars, cursor + 1, cursor + 1 + |k|);
    assert k + "" == k;
  }

  /** The members left, in map order: the first one, then a comma and the others, or the closing brace. */
  lemma MembersLayout(chars: string, cursor: nat, mid: nat, end: nat, n: Node, keys: set<string>, k: string, fw: FloatWriter)
    requires n.Object? && keys != {} && keys <= n.fields.Keys && k == Least(keys)
    requires WrittenAt(chars, cursor, Members(n, keys, fw) + "}") && end == cursor + |Members(n, keys, fw)| + 1
    requires mid == cursor + |Member(n, k, fw)|
    ensures WrittenAt(chars, cursor, Member(n, k, fw)) && mid < |chars|
    ensures keys == {k} ==> chars[mid] == '}' && end == mid + 1
    ensures keys != {k} ==> chars[mid] == ',' && WrittenAt(chars, mid + 1, Members(n, keys - {k}, fw) + "}")
    ensures keys != {k} ==> end == mid + 1 + |Members(n, keys - {k}, fw)| + 1
  {
    var member := Member(n, k, fw);
    if keys == {k} {
      assert Members(n, keys, fw) + "}" == member + "}";
      WrittenSplit(chars, cursor, member, "}");
      WrittenChar(chars, mid, "}", 0);
    } else {
      var rest := Members(n, keys - {k}, fw) + "}";
      assert Members(n, keys, fw) + "}" == member + ("," + rest);
      WrittenSplit(chars, cursor, member, "," + rest);
      WrittenSplit(chars, mid, ",", rest);
      WrittenChar(chars, mid, ",", 0);
    }
  }

  /** The elements from index `i`: the item's text, then a comma and the others, or the closing bracket. */
  lemma ElementsLayout(chars: string, cursor: nat, mid: nat, end: nat, n: Node, i: nat, fw: FloatWriter)
    requires n.Array? && i < |n.items|
    requires WrittenAt(chars, cursor, Elements(n, i, fw) + "]") && end == cursor + |Elements(n, i, fw)| + 1
    requires mid == cursor + |Minimized(n.items[i], fw)|
    ensures WrittenAt(chars, cursor, Minimized(n.items[i], fw)) && mid < |chars|
    ensures i + 1 == |n.items| ==> chars[mid] == ']' && end == mid + 1
    ensures i + 1 < |n.items| ==> chars[mid] == ',' && WrittenAt(chars, mid + 1, Elements(n, i + 1, fw) + "]")
    ensures i + 1 < |n.items| ==> end == mid + 1 + |Elements(n, i + 1, fw)| + 1
  {
    var w := Minimized(n.items[i], fw);
    if i + 1 == |n.items| {
      assert Elements(n, i, fw) + "]" == w + "]";
      WrittenSplit(chars, cursor, w, "]");
      WrittenChar(chars, mid, "]", 0);
    } else {
      var rest := Elements(n, i + 1, fw) + "]";
      assert Elements(n, i, fw) + "]" == w + ("," + rest);
      WrittenSplit(chars, cursor, w, "," + rest);
      WrittenSplit(chars, mid, ",", rest);
      WrittenChar(chars, mid, ",", 0);
    }
  }

  /** A written container: its opening character, then its members or elements and the closing character. */
  lemma ContainerLayout(chars: string, cursor: nat, open: string, body: string)
    requires |open| == 1 && WrittenAt(chars, cursor, open + body)
    ensures chars[cursor] == open[0] && WrittenAt(chars, cursor + 1, body)
  {
    WrittenSplit(chars, cursor, open, body);
    WrittenChar(chars, cursor, open, 0);
  }

  // ------------------------------------------------------------ one step of the parser each

  /** A pair read, then either the closing brace or a comma and the pairs left. */
  lemma PairStep(t: Text, depth: nat, cursor: nat, mid: nat, end: nat, fields: map<string, Node>, after: map<string, Node>,
                 all: map<string, Node>, last: bool)
    requires depth <= t.limit && cursor < |t.chars| && PairAt(t, depth, cursor, fields) == Ok(Read(mid, after))
    requires last ==> mid < |t.chars| && t.chars[mid] == '}' && end == mid + 1 && after == all
    requires !last ==> mid + 1 < |t.chars| && t.chars[mid] == ',' && SkipFrom(t.chars, mid + 1) == Ok(mid + 1)
    requires !last ==> PairThenRest(t, depth, mid + 1, after) == Ok(Read(end, all))
    ensures PairThenRest(t, depth, cursor, fields) == Ok(Read(end, all))
  {
    if last {
      PairClosing(t, depth, cursor, mid, fields, after);
    } else {
      PairComma(t, depth, cursor, mid, fields, after);
    }
  }

  /** An element read, then either the closing bracket or a comma and the elements left. */
  lemma ElementStep(t: Text, depth: nat, cursor: nat, mid: nat, end: nat, items: seq<Node>, after: seq<Node>,
                    all: seq<Node>, last: bool)
    requires depth <= t.limit && cursor < |t.chars| && ElementAt(t, depth, cursor, items) == Ok(Read(mid, after))
    requires last ==> mid < |t.chars| && t.chars[mid] == ']' && end == mid + 1 && after == all
    requires !last ==> mid + 1 < |t.chars| && t.chars[mid] == ',' && SkipFrom(t.chars, mid + 1) == Ok(mid + 1)
    requires !last ==> ElementThenRest(t, depth, mid + 1, after) == Ok(Read(end, all))
    ensures ElementThenRest(t, depth, cursor, items) == Ok(Read(end, all))
  {
    if last {
      ElementClosing(t, depth, cursor, mid, items, after);
    } else {
      ElementComma(t, depth, cursor, mid, items, after);
    }
  }

  /** A pair read, then the closing brace: the object is complete. */
  lemma PairClosing(t: Text, depth: nat, cursor: nat, mid: nat, fields: map<string, Node>, after: map<string, Node>)
    requires depth <= t.limit && cursor < |t.chars| && PairAt(t, depth, cursor, fields) == Ok(Read(mid, after))
    requires mid < |t.chars| && t.chars[mid] == '}'
    ensures PairThenRest(t, depth, cursor, fields) == Ok(Read(mid + 1, after))
  {
    assert SkipFrom(t.chars, mid) == Ok(mid);
    assert ObjectRest(t, depth, mid, after) == ObjectNext(t, depth, mid, after);
  }

  /** A pair read, then a comma: the loop goes on with the next pair. */
  lemma PairComma(t: Text, depth: nat, cursor: nat, mid: nat, fields: map<string, Node>, after: map<string, Node>)
    requires depth <= t.limit && cursor < |t.chars| && PairAt(t, depth, cursor, fields) == Ok(Read(mid, after))
    requires mid + 1 < |t.chars| && t.chars[mid] == ',' && SkipFrom(t.chars, mid + 1) == Ok(mid + 1)
    ensures PairThenRest(t, depth, cursor, fields) == PairThenRest(t, depth, mid + 1, after)
  {
    assert SkipFrom(t.chars, mid) == Ok(mid);
    assert ObjectRest(t, depth, mid, after) == ObjectNext(t, depth, mid, after);
  }

  /** An element read, then the closing bracket: the array is complete. */
  lemma ElementClosing(t: Text, depth: nat, cursor: nat, mid: nat, items: seq<Node>, after: seq<Node>)
    requires depth <= t.limit && cursor < |t.chars| && ElementAt(t, depth, cursor, items) == Ok(Read(mid, after))
    requires mid < |t.chars| && t.chars[mid] == ']'
    ensures ElementThenRest(t, depth, cursor, items) == Ok(Read(mid + 1, after))
  {
    assert SkipFrom(t.chars, mid) == Ok(mid);
    assert ArrayRest(t, depth, mid, after) == ArrayNext(t, depth, mid, after);
  }

  /** An element read, then a comma: the loop goes on with the next element. */
  lemma ElementComma(t: Text, depth: nat, cursor: nat, mid: nat, items: seq<Node>, after: seq<Node>)
    requires depth <= t.limit && cursor < |t.chars| && ElementAt(t, depth, cursor, items) == Ok(Read(mid, after))
    requires mid + 1 < |t.chars| && t.chars[mid] == ',' && SkipFrom(t.chars, mid + 1) == Ok(mid + 1)
    ensures ElementThenRest(t, depth, cursor, items) == ElementThenRest(t, depth, mid + 1, after)
  {
    assert SkipFrom(t.chars, mid) == Ok(mid);
    assert ArrayRest(t, depth, mid, after) == ArrayNext(t, depth, mid, after);
  }

  /** A quoted plain key, a colon and a value read one level deeper make a pair added under that key. */
  lemma PairRead(t: Text, depth: nat, cursor: nat, k: string, all: map<string, Node>, keys: set<string>, end: nat)
    requires depth + 1 <= t.limit && PlainKey(k) && k in keys && k in all
    requires cursor + |k| + 3 < |t.chars| && t.chars[cursor] == '"' && WrittenAt(t.chars, cursor + 1, k)
    requires t.chars[cursor + |k| + 1] == '"' && t.chars[cursor + |k| + 2] == ':'
    requires SkipFrom(t.chars, cursor + |k| + 3) == Ok(cursor + |k| + 3)
    requires NodeAt(t, depth + 1, cursor + |k| + 3) == Ok(Read(end, all[k]))
    ensures PairAt(t, depth, cursor, all - keys) == Ok(Read(end, all - (keys - {k})))
  {
    FieldsStep(all, keys, k);
    PairValue(t, depth, cursor + |k| + 3, k, all - keys, end, all[k]);
    PairKey(t, depth, cursor, k, all - keys);
  }

  /** A quoted plain key and a colon: the pair goes on with its value from just past the colon. */
  lemma PairKey(t: Text, depth: nat, cursor: nat, k: string, fields: map<string, Node>)
    requires depth <= t.limit && PlainKey(k)
    requires cursor + |k| + 2 < |t.chars| && t.chars[cursor] == '"' && WrittenAt(t.chars, cursor + 1, k)
    requires t.chars[cursor + |k| + 1] == '"' && t.chars[cursor + |k| + 2] == ':'
    ensures PairAt(t, depth, cursor, fields) == PairValueAt(t, depth, cursor + |k| + 3, k, fields)
  {
    var keyEnd := cursor + |k| + 2;
    KeyRead(t.chars, cursor, k);
    assert SkipFrom(t.chars, keyEnd) == Ok(keyEnd);
    PairFromKey(t, depth, cursor, fields, Read(keyEnd, k));
  }

  /** A key read up to a colon that directly follows it: the pair goes on past the colon. */
  lemma PairFromKey(t: Text, depth: nat, cursor: nat, fields: map<string, Node>, key: Read<string>)
    requires depth <= t.limit && cursor < |t.chars|
    requires KeyAsWritten(t.chars, cursor) == Ok(key) && SkipFrom(t.chars, key.end) == Ok(key.end)
    requires t.chars[key.end] == ':'
    ensures PairAt(t, depth, cursor, fields) == PairValueAt(t, depth, key.end + 1, key.item, fields)
  {
  }

  /** The value of a pair, read one level deeper and added under a new key. */
  lemma PairValue(t: Text, depth: nat, start: nat, k: string, fields: map<string, Node>, end: nat, value: Node)
    requires depth + 1 <= t.limit && start < |t.chars| && k !in fields
    requires SkipFrom(t.chars, start) == Ok(start) && NodeAt(t, depth + 1, start) == Ok(Read(end, value))
    ensures PairValueAt(t, depth, start, k, fields) == Ok(Read(end, fields[k := value]))
  {
  }

  /** An element read one level deeper and appended. */
  lemma ElementValue(t: Text, depth: nat, start: nat, items: seq<Node>, end: nat, value: Node)
    requires depth + 1 <= t.limit && start < |t.chars|
    requires NodeAt(t, depth + 1, start) == Ok(Read(end, value))
    ensures ElementAt(t, depth, start, items) == Ok(Read(end, items + [value]))
  {
  }

  /** An empty object: the opening brace, then the closing one. */
  lemma ObjectEmpty(t: Text, depth: nat, cursor: nat)
    requires depth <= t.limit && cursor + 1 < |t.chars| && t.chars[cursor] == '{' && t.chars[cursor + 1] == '}'
    ensures ObjectAt(t, depth, cursor) == Ok(Read(cursor + 2, map[]))
  {
    assert SkipFrom(t.chars, cursor + 1) == Ok(cursor + 1);
  }

  /** An empty array: the opening bracket, then the closing one. */
  lemma ArrayEmpty(t: Text, depth: nat, cursor: nat)
    requires depth <= t.limit && cursor + 1 < |t.chars| && t.chars[cursor] == '[' && t.chars[cursor + 1] == ']'
    ensures ArrayAt(t, depth, cursor) == Ok(Read(cursor + 2, []))
  {
    assert SkipFrom(t.chars, cursor + 1) == Ok(cursor + 1);
  }

  /** An object opening on a pair. */
  lemma ObjectOpening(t: Text, depth: nat, cursor: nat)
    requires depth <= t.limit && cursor + 1 < |t.chars| && t.chars[cursor] == '{'
    requires t.chars[cursor + 1] == '"' && SkipFrom(t.chars, cursor + 1) == Ok(cursor + 1)
    ensures ObjectAt(t, depth, cursor) == PairThenRest(t, depth, cursor + 1, map[])
  {
  }

  /** An array opening on an element. */
  lemma ArrayOpening(t: Text, depth: nat, cursor: nat)
    requires depth <= t.limit && cursor + 1 < |t.chars| && t.chars[cursor] == '['
    requires Marker(t.chars[cursor + 1]) && SkipFrom(t.chars, cursor + 1) == Ok(cursor + 1)
    ensures ArrayAt(t, depth, cursor) == ElementThenRest(t, depth, cursor + 1, [])
  {
  }

  /** `parse_node` at an opening brace: the object read. */
  lemma NodeObject(t: Text, depth: nat, cursor: nat, end: nat, fields: map<string, Node>)
    requires depth <= t.limit && cursor < |t.chars| && t.chars[cursor] == '{'
    requires ObjectAt(t, depth, cursor) == Ok(Read(end, fields))
    ensures NodeAt(t, depth, cursor) == Ok(Read(end, Object(fields)))
  {
  }

  /** `parse_node` at an opening bracket: the array read. */
  lemma NodeArray(t: Text, depth: nat, cursor: nat, end: nat, items: seq<Node>)
    requires depth <= t.limit && cursor < |t.chars| && t.chars[cursor] == '['
    requires ArrayAt(t, depth, cursor) == Ok(Read(end, items))
    ensures NodeAt(t, depth, cursor) == Ok(Read(end, Array(items)))
  {
  }

  /** `parse_node` at a quote: the string read. */
  lemma NodeString(t: Text, depth: nat, cursor: nat, end: nat, s: string)
    requires depth <= t.limit && cursor < |t.chars| && t.chars[cursor] == '"'
    requires StringAt(t.chars, cursor) == Ok(Read(end, s))
    ensures NodeAt(t, depth, cursor) == Ok(Read(end, String(s)))
  {
  }

  /** `parse_node` at a digit or a minus sign: the number read. */
  lemma NodeNumber(t: Text, depth: nat, cursor: nat, end: nat, value: Node)
    requires depth <= t.limit && cursor < |t.chars| && NumberChar(t.chars[cursor])
    requires NumberAt(t, cursor) == Ok(Read(end, value))
    ensures NodeAt(t, depth, cursor) == Ok(Read(end, value))
  {
  }

  /** `parse_node` at `t`, `f` or `n`: the literal written there. */
  lemma NodeLiteral(t: Text, depth: nat, cursor: nat, token: string, value: Node)
    requires depth <= t.limit && WrittenAt(t.chars, cursor, token)
    requires (token == "true" && value == Bool(true)) || (token == "false" && value == Bool(false)) || (token == "null" && value == Null)
    ensures cursor < |t.chars| && NodeAt(t, depth, cursor) == Ok(Read(cursor + |token|, value))
  {
    WrittenChar(t.chars, cursor, token, 0);
  }

  // ------------------------------------------------------------ the round trip

  /**
   * `parse_node` reads a written node back, with the position just past
   * its text, when it nests within the levels the recursion limit leaves.
   */
  lemma {:induction false} NodeRoundTrip(t: Text, depth: nat, cursor: nat, end: nat, n: Node, fw: FloatWriter)
    requires depth <= t.limit && Writable(n) && NestedWithin(n, t.limit - depth)
    requires WrittenAt(t.chars, cursor, Minimized(n, fw)) && end == cursor + |Minimized(n, fw)| && Delimited(t.chars, end)
    ensures cursor < |t.chars| && NodeAt(t, depth, cursor) == Ok(Read(end, n))
    decreases n, 3, 0
  {
    match n
    case Object(fields) =>
      ObjectRoundTrip(t, depth, cursor, end, n, fw);
      NodeObject(t, depth, cursor, end, fields);
    case Array(items) =>
      ArrayRoundTrip(t, depth, cursor, end, n, fw);
      NodeArray(t, depth, cursor, end, items);
    case String(s) =>
      StringRoundTrip(s, t.chars, cursor, end);
      NodeString(t, depth, cursor, end, s);
    case Integral(i) =>
      IntegralRoundTrip(i, t, cursor, end);
      NodeNumber(t, depth, cursor, end, n);
    case Floating(_) =>
    case Bool(b) =>
      NodeLiteral(t, depth, cursor, if b then "true" else "false", n);
    case Null =>
      NodeLiteral(t, depth, cursor, "null", n);
  }

  /** An object: `{}` when empty, otherwise its members read one after the other. */
  lemma {:induction false} ObjectRoundTrip(t: Text, depth: nat, cursor: nat, end: nat, n: Node, fw: FloatWriter)
    requires depth <= t.limit && n.Object? && Writable(n) && NestedWithin(n, t.limit - depth)
    requires WrittenAt(t.chars, cursor, Minimized(n, fw)) && end == cursor + |Minimized(n, fw)|
    ensures cursor < |t.chars| && t.chars[cursor] == '{' && ObjectAt(t, depth, cursor) == Ok(Read(end, n.fields))
    decreases n, 2, 0
  {
    var w := Minimized(n, fw);
    if |n.fields| == 0 {
      assert n.fields == map[];
      WrittenChar(t.chars, cursor, w, 0);
      WrittenChar(t.chars, cursor, w, 1);
      ObjectEmpty(t, depth, cursor);
    } else {
      var body := Members(n, n.fields.Keys, fw) + "}";
      assert w == "{" + body;
      assert n.fields - n.fields.Keys == map[];
      ContainerLayout(t.chars, cursor, "{", body);
      MembersRoundTrip(t, depth, cursor + 1, end, n, n.fields.Keys, fw);
      ObjectOpening(t, depth, cursor);
    }
  }

  /** An array: `[]` when empty, otherwise its elements read one after the other. */
  lemma {:induction false} ArrayRoundTrip(t: Text, depth: nat, cursor: nat, end: nat, n: Node, fw: FloatWriter)
    requires depth <= t.limit && n.Array? && Writable(n) && NestedWithin(n, t.limit - depth)
    requires WrittenAt(t.chars, cursor, Minimized(n, fw)) && end == cursor + |Minimized(n, fw)|
    ensures cursor < |t.chars| && t.chars[cursor] == '[' && ArrayAt(t, depth, cursor) == Ok(Read(end, n.items))
    decreases n, 2, 0
  {
    var w := Minimized(n, fw);
    if |n.items| == 0 {
      assert n.items == [];
      WrittenChar(t.chars, cursor, w, 0);
      WrittenChar(t.chars, cursor, w, 1);
      ArrayEmpty(t, depth, cursor);
    } else {
      var body := Elements(n, 0, fw) + "]";
      assert w == "[" + body;
      assert n.items[..0] == [];
      ContainerLayout(t.chars, cursor, "[", body);
      ElementsRoundTrip(t, depth, cursor + 1, end, n, 0, fw);
      ArrayOpening(t, depth, cursor);
    }
  }

  /**
   * What the members of the keys left give the parser: the least key,
   * plain and quoted, a colon, a writable value one level deeper, then a
   * comma and the members of the other keys, or the closing brace.
   */
  lemma PairPlaced(t: Text, depth: nat, cursor: nat, mid: nat, end: nat, n: Node, keys: set<string>, k: string, fw: FloatWriter)
    requires depth <= t.limit && n.Object? && keys != {} && keys <= n.fields.Keys && k == Least(keys)
    requires Writable(n) && NestedWithin(n, t.limit - depth)
    requires WrittenAt(t.chars, cursor, Members(n, keys, fw) + "}") && end == cursor + |Members(n, keys, fw)| + 1
    requires mid == cursor + |Member(n, k, fw)|
    ensures k in keys && k in n.fields
    ensures depth + 1 <= t.limit && PlainKey(k) && cursor + |k| + 3 < |t.chars|
    ensures t.chars[cursor] == '"' && SkipFrom(t.chars, cursor) == Ok(cursor) && WrittenAt(t.chars, cursor + 1, k)
    ensures t.chars[cursor + |k| + 1] == '"' && t.chars[cursor + |k| + 2] == ':'
    ensures SkipFrom(t.chars, cursor + |k| + 3) == Ok(cursor + |k| + 3)
    ensures Writable(n.fields[k]) && NestedWithin(n.fields[k], t.limit - (depth + 1))
    ensures WrittenAt(t.chars, cursor + |k| + 3, Minimized(n.fields[k], fw))
    ensures mid == cursor + |k| + 3 + |Minimized(n.fields[k], fw)| && Delimited(t.chars, mid)
    ensures mid < |t.chars|
    ensures keys == {k} ==> t.chars[mid] == '}' && end == mid + 1
    ensures keys != {k} ==> t.chars[mid] == ',' && WrittenAt(t.chars, mid + 1, Members(n, keys - {k}, fw) + "}")
    ensures keys != {k} ==> end == mid + 1 + |Members(n, keys - {k}, fw)| + 1
  {
    MembersLayout(t.chars, cursor, mid, end, n, keys, k, fw);
    MemberLayout(t.chars, cursor, n, k, fw);
    FieldChild(n, k, t.limit - depth);
    NodeStart(t.chars, cursor + |k| + 3, n.fields[k], fw);
  }

  /**
   * What the elements from index `i` give the parser: a writable item one
   * level deeper, then a comma and the elements after it, or the closing
   * bracket.
   */
  lemma ElementPlaced(t: Text, depth: nat, cursor: nat, mid: nat, end: nat, n: Node, i: nat, fw: FloatWriter)
    requires depth <= t.limit && n.Array? && i < |n.items|
    requires Writable(n) && NestedWithin(n, t.limit - depth)
    requires WrittenAt(t.chars, cursor, Elements(n, i, fw) + "]") && end == cursor + |Elements(n, i, fw)| + 1
    requires mid == cursor + |Minimized(n.items[i], fw)|
    ensures depth + 1 <= t.limit && cursor < |t.chars| && Marker(t.chars[cursor]) && SkipFrom(t.chars, cursor) == Ok(cursor)
    ensures Writable(n.items[i]) && NestedWithin(n.items[i], t.limit - (depth + 1))
    ensures WrittenAt(t.chars, cursor, Minimized(n.items[i], fw)) && Delimited(t.chars, mid) && mid < |t.chars|
    ensures i + 1 == |n.items| ==> t.chars[mid] == ']' && end == mid + 1
    ensures i + 1 < |n.items| ==> t.chars[mid] == ',' && WrittenAt(t.chars, mid + 1, Elements(n, i + 1, fw) + "]")
    ensures i + 1 < |n.items| ==> end == mid + 1 + |Elements(n, i + 1, fw)| + 1
  {
    ElementsLayout(t.chars, cursor, mid, end, n, i, fw);
    ItemChild(n, i, t.limit - depth);
    NodeStart(t.chars, cursor, n.items[i], fw);
  }

  /**
   * The members of the keys left, followed by the closing brace, are read
   * by the pair and the rest of the object loop; the object read is then
   * the whole object.
   */
  lemma {:induction false} MembersRoundTrip(t: Text, depth: nat, cursor: nat, end: nat, n: Node, keys: set<string>, fw: FloatWriter)
    requires depth <= t.limit && n.Object? && keys != {} && keys <= n.fields.Keys
    requires Writable(n) && NestedWithin(n, t.limit - depth)
    requires WrittenAt(t.chars, cursor, Members(n, keys, fw) + "}") && end == cursor + |Members(n, keys, fw)| + 1
    ensures cursor < |t.chars| && t.chars[cursor] == '"' && SkipFrom(t.chars, cursor) == Ok(cursor)
    ensures PairThenRest(t, depth, cursor, n.fields - keys) == Ok(Read(end, n.fields))
    decreases n, 1, |keys|
  {
    var k := Least(keys);
    var mid := cursor + |Member(n, k, fw)|;
    PairPlaced(t, depth, cursor, mid, end, n, keys, k, fw);
    PairRoundTrip(t, depth, cursor, mid, k, n.fields, keys, fw);
    if keys == {k} {
      FieldsLast(n.fields, keys, k);
      PairStep(t, depth, cursor, mid, end, n.fields - keys, n.fields - (keys - {k}), n.fields, true);
    } else {
      KeysStep(keys, n.fields.Keys, k);
      MembersRoundTrip(t, depth, mid + 1, end, n, keys - {k}, fw);
      PairStep(t, depth, cursor, mid, end, n.fields - keys, n.fields - (keys - {k}), n.fields, false);
    }
  }

  /** The pair of key `k`: its key, its colon and its value one level deeper, added to what was read before. */
  lemma {:induction false} PairRoundTrip(t: Text, depth: nat, cursor: nat, mid: nat, k: string, all: map<string, Node>, keys: set<string>, fw: FloatWriter)
    requires depth + 1 <= t.limit && PlainKey(k) && k in keys && k in all
    requires cursor + |k| + 3 < |t.chars| && t.chars[cursor] == '"' && WrittenAt(t.chars, cursor + 1, k)
    requires t.chars[cursor + |k| + 1] == '"' && t.chars[cursor + |k| + 2] == ':'
    requires SkipFrom(t.chars, cursor + |k| + 3) == Ok(cursor + |k| + 3)
    requires Writable(all[k]) && NestedWithin(all[k], t.limit - (depth + 1))
    requires WrittenAt(t.chars, cursor + |k| + 3, Minimized(all[k], fw))
    requires mid == cursor + |k| + 3 + |Minimized(all[k], fw)| && Delimited(t.chars, mid)
    ensures PairAt(t, depth, cursor, all - keys) == Ok(Read(mid, all - (keys - {k})))
    decreases all[k], 4, 0
  {
    var start := cursor + |k| + 3;
    NodeRoundTrip(t, depth + 1, start, mid, all[k], fw);
    PairRead(t, depth, cursor, k, all, keys, mid);
  }

  /** The item `value`: read one level deeper and appended to the items before it. */
  lemma {:induction false} ElementRoundTrip(t: Text, depth: nat, cursor: nat, mid: nat, before: seq<Node>, value: Node, fw: FloatWriter)
    requires depth + 1 <= t.limit && cursor < |t.chars|
    requires Writable(value) && NestedWithin(value, t.limit - (depth + 1))
    requires WrittenAt(t.chars, cursor, Minimized(value, fw)) && mid == cursor + |Minimized(value, fw)| && Delimited(t.chars, mid)
    ensures ElementAt(t, depth, cursor, before) == Ok(Read(mid, before + [value]))
    decreases value, 4, 0
  {
    NodeRoundTrip(t, depth + 1, cursor, mid, value, fw);
    ElementValue(t, depth, cursor, before, mid, value);
  }

  /**
   * The elements from index `i`, followed by the closing bracket, are read
   * by one element and the rest of the array loop; the array read is then
   * the whole array.
   */
  lemma {:induction false} ElementsRoundTrip(t: Text, depth: nat, cursor: nat, end: nat, n: Node, i: nat, fw: FloatWriter)
    requires depth <= t.limit && n.Array? && i < |n.items|
    requires Writable(n) && NestedWithin(n, t.limit - depth)
    requires WrittenAt(t.chars, cursor, Elements(n, i, fw) + "]") && end == cursor + |Elements(n, i, fw)| + 1
    ensures cursor < |t.chars| && Marker(t.chars[cursor]) && SkipFrom(t.chars, cursor) == Ok(cursor)
    ensures ElementThenRest(t, depth, cursor, n.items[..i]) == Ok(Read(end, n.items))
    decreases n, 1, |n.items| - i
  {
    var mid := cursor + |Minimized(n.items[i], fw)|;
    assert n.items[..i] + [n.items[i]] == n.items[..i + 1];
    ElementPlaced(t, depth, cursor, mid, end, n, i, fw);
    ElementRoundTrip(t, depth, cursor, mid, n.items[..i], n.items[i], fw);
    if i + 1 == |n.items| {
      assert n.items[..i + 1] == n.items;
      ElementStep(t, depth, cursor, mid, end, n.items[..i], n.items[..i + 1], n.items, true);
    } else {
      ElementsRoundTrip(t, depth, mid + 1, end, n, i + 1, fw);
      ElementStep(t, depth, cursor, mid, end, n.items[..i], n.items[..i + 1], n.items, false);
    }
  }

  /**
   * `from_string(to_string(node))` gives the node back, for a writable
   * node nested within the recursion limit, whatever the double reader.
   */
  lemma FromStringRoundTrip(n: Node, limit: nat, floating: FloatReader, fw: FloatWriter)
    requires Writable(n) && NestedWithin(n, limit)
    ensures FromString(Minimized(n, fw), limit, floating) == Ok(n)
  {
    var chars := Minimized(n, fw);
    assert chars[0..|chars|] == chars;
    NodeStart(chars, 0, n, fw);
    NodeRoundTrip(Text(chars, limit, floating), 0, 0, |chars|, n, fw);
  }
}
