/**
 * The minimized serializer of src/utl/json.cpp
 * (`_serialize_json_recursion_minimized`, `Node::to_string`): a node is
 * appended to a character buffer with no whitespace, object keys in the
 * ascending order of their `std::map`, strings with the seven characters of
 * the escape table escaped. `Minimized` is the text a node becomes; the
 * `Writer` class appends it the way the source does, one piece at a time.
 * Formatting a `double` (`std::to_chars`) is a parameter.
 */
module JsonWriter {
  import opened Wrappers
  import opened JsonNode
  import JsonText
  import StringFuncs

  /**
   * `std::to_chars` on a finite `double`: its shortest decimal spelling.
   * Non-finite values, which the source writes between quotes, have no
   * counterpart among the model's reals.
   */
  type FloatWriter = real -> string

  // ------------------------------------------------------------ key order

  /**
   * `std::less<std::string>`: lexicographic order, characters compared as
   * unsigned bytes, a proper prefix coming first.
   */
  predicate KeyLess(a: string, b: string)
    decreases |a|
  {
    b != [] && (a == [] || a[0] < b[0] || (a[0] == b[0] && KeyLess(a[1..], b[1..])))
  }

  lemma {:induction false} KeyLessIrreflexive(a: string)
    ensures !KeyLess(a, a)
    decreases |a|
  {
    if a != [] {
      KeyLessIrreflexive(a[1..]);
    }
  }

  lemma {:induction false} KeyLessTransitive(a: string, b: string, c: string)
    requires KeyLess(a, b) && KeyLess(b, c)
    ensures KeyLess(a, c)
    decreases |a|
  {
    if a != [] && a[0] == b[0] && b[0] == c[0] {
      KeyLessTransitive(a[1..], b[1..], c[1..]);
    }
  }

  /** Two different keys are ordered one way or the other. */
  lemma {:induction false} KeyLessTotal(a: string, b: string)
    requires a != b
    ensures KeyLess(a, b) || KeyLess(b, a)
    decreases |a|
  {
    if a != [] && b != [] && a[0] == b[0] {
      assert a == [a[0]] + a[1..] && b == [b[0]] + b[1..];
      KeyLessTotal(a[1..], b[1..]);
    }
  }

  /** `k` comes first among the keys of `s`. */
  predicate IsLeast(s: set<string>, k: string)
  {
    k in s && forall j :: j in s && j != k ==> KeyLess(k, j)
  }

  lemma {:induction false} LeastExists(s: set<string>)
    requires s != {}
    ensures exists k :: IsLeast(s, k)
    decreases s
  {
    var x :| x in s;
    if s == {x} {
      assert IsLeast(s, x);
    } else {
      LeastExists(s - {x});
      var m :| IsLeast(s - {x}, m);
      KeyLessTotal(x, m);
      if KeyLess(x, m) {
        forall j | j in s && j != x
          ensures KeyLess(x, j)
        {
          if j != m {
            KeyLessTransitive(x, m, j);
          }
        }
        assert IsLeast(s, x);
      } else {
        assert IsLeast(s, m);
      }
    }
  }

  /** Only one key comes first. */
  lemma LeastUnique(s: set<string>, a: string, b: string)
    requires IsLeast(s, a) && IsLeast(s, b)
    ensures a == b
  {
    if a != b {
      KeyLessTransitive(a, b, a);
      KeyLessIrreflexive(a);
    }
  }

  /** The first key of a non-empty key set. */
  ghost function Least(s: set<string>): (k: string)
    requires s != {}
    ensures IsLeast(s, k)
  {
    LeastExists(s);
    var k :| IsLeast(s, k);
    k
  }

  /** The keys of a `std::map` in iteration order. */
  ghost function SortedKeys(s: set<string>): seq<string>
    decreases s
  {
    if s == {} then [] else [Least(s)] + SortedKeys(s - {Least(s)})
  }

  /** The iteration order lists every key once, in strictly ascending order. */
  lemma {:induction false} SortedKeysMeaning(s: set<string>)
    ensures |SortedKeys(s)| == |s|
    ensures forall k :: k in s <==> k in SortedKeys(s)
    ensures forall i, j :: 0 <= i < j < |SortedKeys(s)| ==> KeyLess(SortedKeys(s)[i], SortedKeys(s)[j])
    decreases s
  {
    if s != {} {
      var m := Least(s);
      SortedKeysMeaning(s - {m});
      var r := SortedKeys(s);
      assert r == [m] + SortedKeys(s - {m});
      forall i, j | 0 <= i < j < |r|
        ensures KeyLess(r[i], r[j])
      {
        if i == 0 {
          assert r[j] in s - {m};
        } else {
          assert r[i] == SortedKeys(s - {m})[i - 1] && r[j] == SortedKeys(s - {m})[j - 1];
        }
      }
    }
  }

  // ------------------------------------------------------------ strings

  /** `_lookup_serialized_escaped_chars`: the letter that follows the backslash, for the seven escaped characters. */
  function EscapeReplacement(c: char): Option<char>
  {
    if c == '"' then Some('"')
    else if c == '\\' then Some('\\')
    else if c == JsonText.Backspace then Some('b')
    else if c == JsonText.FormFeed then Some('f')
    else if c == '\n' then Some('n')
    else if c == '\r' then Some('r')
    else if c == '\t' then Some('t')
    else None
  }

  /**
   * The parser undoes every replacement; a character left alone is neither
   * a quote nor a backslash; the forward slash, which the parser also
   * accepts escaped, is left alone.
   */
  lemma EscapeInverted(c: char)
    ensures EscapeReplacement(c).Some? ==> JsonText.ParsedEscape(EscapeReplacement(c).value) == Some(c)
    ensures EscapeReplacement(c).None? ==> c != '"' && c != '\\'
    ensures EscapeReplacement(c).Some? ==> c as int <= 31 || c == '"' || c == '\\'
    ensures EscapeReplacement('/').None?
  {
  }

  /** One character as the string loop writes it. */
  function EscapedChar(c: char): string
  {
    match EscapeReplacement(c)
    case Some(letter) => ['\\', letter]
    case None => [c]
  }

  /** The characters of a string as the string loop writes them. */
  function Escaped(s: string): string
  {
    if s == [] then [] else EscapedChar(s[0]) + Escaped(s[1..])
  }

  /** Escaping works character by character. */
  lemma {:induction false} EscapedAppend(a: string, b: string)
    ensures Escaped(a + b) == Escaped(a) + Escaped(b)
    decreases |a|
  {
    if a != [] {
      assert (a + b)[0] == a[0] && (a + b)[1..] == a[1..] + b;
      EscapedAppend(a[1..], b);
    } else {
      assert a + b == b;
    }
  }

  /**
   * The string loop's step at an escaped character: what was written up to
   * the segment start, then the segment as it is, then the escape.
   */
  lemma EscapedSegment(s: string, segmentStart: nat, i: nat)
    requires segmentStart <= i <= |s|
    requires forall k :: segmentStart <= k < i ==> EscapeReplacement(s[k]).None?
    ensures Escaped(s[..i]) == Escaped(s[..segmentStart]) + s[segmentStart..i]
  {
    EscapedVerbatim(s[segmentStart..i]);
    EscapedAppend(s[..segmentStart], s[segmentStart..i]);
    assert s[..segmentStart] + s[segmentStart..i] == s[..i];
  }

  /** Escaping one more character appends its escaped form. */
  lemma EscapedNext(s: string, i: nat)
    requires i < |s|
    ensures Escaped(s[..i + 1]) == Escaped(s[..i]) + EscapedChar(s[i])
  {
    EscapedAppend(s[..i], [s[i]]);
    assert s[..i] + [s[i]] == s[..i + 1];
    assert Escaped([s[i]]) == EscapedChar(s[i]) + Escaped([]);
  }

  /** After the last escaped character the rest of the string is written as it is. */
  lemma EscapedRest(s: string, segmentStart: nat)
    requires segmentStart <= |s|
    requires forall k :: segmentStart <= k < |s| ==> EscapeReplacement(s[k]).None?
    ensures Quoted(s) == "\"" + Escaped(s[..segmentStart]) + (s[segmentStart..] + "\"")
  {
    EscapedSegment(s, segmentStart, |s|);
    assert s[..|s|] == s;
  }

  /** The string loop's step at an escaped character: the segment before it as it is, then the escape. */
  lemma EscapedStep(s: string, segmentStart: nat, i: nat)
    requires segmentStart <= i < |s| && EscapeReplacement(s[i]).Some?
    requires forall k :: segmentStart <= k < i ==> EscapeReplacement(s[k]).None?
    ensures Escaped(s[..i + 1]) == Escaped(s[..segmentStart]) + (s[segmentStart..i] + ['\\', EscapeReplacement(s[i]).value])
  {
    EscapedSegment(s, segmentStart, i);
    EscapedNext(s, i);
  }

  /** A run without escaped characters is written as it is. */
  lemma {:induction false} EscapedVerbatim(s: string)
    requires forall k :: 0 <= k < |s| ==> EscapeReplacement(s[k]).None?
    ensures Escaped(s) == s
    decreases |s|
  {
    if s != [] {
      EscapedVerbatim(s[1..]);
    }
  }

  /** A string node as it is written. */
  function Quoted(s: string): string
  {
    "\"" + Escaped(s) + "\""
  }

  /**
   * A string the parser reads back from its written form: every control
   * character in it is one of the five the writer escapes.
   */
  predicate Representable(s: string)
  {
    forall k :: 0 <= k < |s| ==> s[k] as int > 31 || EscapeReplacement(s[k]).Some?
  }

  // ------------------------------------------------------------ integers

  /** `std::to_chars` on an `int64_t`: a minus sign for a negative value, then the decimal digits. */
  function IntegralText(i: int): (s: string)
    ensures |s| >= 1
  {
    if i < 0 then "-" + StringFuncs.DecimalString(-i) else StringFuncs.DecimalString(i)
  }

  /** A number below 10^k has at most k digits. */
  lemma {:induction false} DecimalLength(n: nat, k: nat, bound: nat)
    requires k >= 1 && n < bound && bound == Pow10(k)
    ensures |StringFuncs.DecimalString(n)| <= k
    decreases k
  {
    if n >= 10 {
      assert k >= 2;
      DecimalLength(n / 10, k - 1, Pow10(k - 1));
    }
  }

  function Pow10(k: nat): (p: nat)
    ensures p >= 1
  {
    if k == 0 then 1 else 10 * Pow10(k - 1)
  }

  /** The 20-character buffer of the source holds every 64-bit value, so `to_chars` never fails there. */
  lemma IntegralFits(i: int)
    requires JsonText.Int64Min <= i <= JsonText.Int64Max
    ensures |IntegralText(i)| <= 20
  {
    var p := Pow10(19);
    assert p == 10_000_000_000_000_000_000 by {
      assert Pow10(4) == 10_000;
      assert Pow10(8) == 100_000_000 by { assert Pow10(8) == 10_000 * Pow10(4); }
      assert Pow10(16) == 10_000_000_000_000_000 by { assert Pow10(16) == 100_000_000 * Pow10(8); }
    }
    DecimalLength(if i < 0 then -i else i, 19, p);
  }

  // ------------------------------------------------------------ nodes

  /**
   * `_serialize_json_recursion_minimized`: the text a node is written as.
   * Empty containers are `{}` and `[]`; otherwise the members or elements
   * are separated by single commas.
   */
  ghost function Minimized(n: Node, fw: FloatWriter): string
    decreases n, 2, 0
  {
    match n
    case Object(fields) => if |fields| == 0 then "{}" else "{" + Members(n, fields.Keys, fw) + "}"
    case Array(items) => if |items| == 0 then "[]" else "[" + Elements(n, 0, fw) + "]"
    case String(s) => Quoted(s)
    case Integral(i) => IntegralText(i)
    case Floating(x) => fw(x)
    case Bool(b) => if b then "true" else "false"
    case Null => "null"
  }

  /** One member: the key between quotes, written as it is, a colon and the value. */
  ghost function Member(n: Node, k: string, fw: FloatWriter): string
    requires n.Object? && k in n.fields
    decreases n, 0, 0
  {
    "\"" + k + "\":" + Minimized(n.fields[k], fw)
  }

  /** The members whose keys are left, in map order, each but the last followed by a comma. */
  ghost function Members(n: Node, keys: set<string>, fw: FloatWriter): string
    requires n.Object? && keys != {} && keys <= n.fields.Keys
    decreases n, 1, |keys|
  {
    var k := Least(keys);
    Member(n, k, fw) + (if keys == {k} then "" else "," + Members(n, keys - {k}, fw))
  }

  /** The elements from index `i` on, each but the last followed by a comma. */
  ghost function Elements(n: Node, i: nat, fw: FloatWriter): string
    requires n.Array? && i < |n.items|
    decreases n, 1, |n.items| - i
  {
    Minimized(n.items[i], fw) + (if i + 1 == |n.items| then "" else "," + Elements(n, i + 1, fw))
  }

  /** Writing the first member leaves the others, after a comma unless none is left. */
  lemma MembersFirst(n: Node, keys: set<string>, k: string, fw: FloatWriter, before: string, after: string)
    requires n.Object? && keys != {} && keys <= n.fields.Keys && k == Least(keys)
    requires after == before + Member(n, k, fw)
    ensures keys - {k} != {} ==> before + Members(n, keys, fw) + "}" == after + "," + Members(n, keys - {k}, fw) + "}"
    ensures keys - {k} == {} ==> before + Members(n, keys, fw) + "}" == after + "}"
  {
    if keys - {k} == {} {
      assert keys == {k};
    }
  }

  /** Every member's text, keys in map order. */
  ghost function MemberList(n: Node, keys: set<string>, fw: FloatWriter): (r: seq<string>)
    requires n.Object? && keys <= n.fields.Keys
    decreases keys
  {
    if keys == {} then [] else [Member(n, Least(keys), fw)] + MemberList(n, keys - {Least(keys)}, fw)
  }

  /** The list holds, at each position, the member of the key `SortedKeys` puts there. */
  lemma {:induction false} MemberListOrder(n: Node, keys: set<string>, fw: FloatWriter)
    requires n.Object? && keys <= n.fields.Keys
    ensures |MemberList(n, keys, fw)| == |SortedKeys(keys)|
    ensures forall i :: 0 <= i < |SortedKeys(keys)| ==>
              SortedKeys(keys)[i] in n.fields && MemberList(n, keys, fw)[i] == Member(n, SortedKeys(keys)[i], fw)
    decreases keys
  {
    if keys != {} {
      var k := Least(keys);
      MemberListOrder(n, keys - {k}, fw);
      SortedKeysMeaning(keys);
    }
  }

  /**
   * An object's members are its keys' members in ascending key order,
   * joined by single commas, with none after the last.
   */
  lemma {:induction false} MembersJoined(n: Node, keys: set<string>, fw: FloatWriter)
    requires n.Object? && keys != {} && keys <= n.fields.Keys
    ensures Members(n, keys, fw) == StringFuncs.Join(MemberList(n, keys, fw), ',')
    decreases keys
  {
    var k := Least(keys);
    if keys != {k} {
      MembersJoined(n, keys - {k}, fw);
      StringFuncs.JoinCons(Member(n, k, fw), MemberList(n, keys - {k}, fw), ',');
    } else {
      assert MemberList(n, keys - {k}, fw) == [];
    }
  }

  /** An array's elements are its items' texts joined by single commas, with none after the last. */
  lemma {:induction false} ElementsJoined(n: Node, i: nat, fw: FloatWriter)
    requires n.Array? && i < |n.items|
    ensures Elements(n, i, fw) == StringFuncs.Join(seq(|n.items| - i, j requires 0 <= j < |n.items| - i => Minimized(n.items[i + j], fw)), ',')
    decreases |n.items| - i
  {
    var texts := seq(|n.items| - i, j requires 0 <= j < |n.items| - i => Minimized(n.items[i + j], fw));
    if i + 1 < |n.items| {
      ElementsJoined(n, i + 1, fw);
      var rest := seq(|n.items| - (i + 1), j requires 0 <= j < |n.items| - (i + 1) => Minimized(n.items[i + 1 + j], fw));
      assert texts == [texts[0]] + rest;
      StringFuncs.JoinCons(texts[0], rest, ',');
    }
  }

  // ------------------------------------------------------------ the writer

  /** The string `to_string` fills: `chars`, and the double formatter. */
  class Writer {
    var chars: string
    const floating: FloatWriter

    constructor (floating: FloatWriter)
      ensures chars == [] && this.floating == floating
    {
      chars := [];
      this.floating := floating;
    }

    /** `_serialize_json_recursion_minimized`: the node's text is appended. */
    method WriteNode(n: Node)
      modifies this
      ensures chars == old(chars) + Minimized(n, floating)
      decreases n, 2
    {
      match n
      case Object(fields) =>
        if |fields| == 0 {
          chars := chars + "{}";
        } else {
          WriteObject(n);
        }
      case Array(items) =>
        if |items| == 0 {
          chars := chars + "[]";
        } else {
          WriteArray(n);
        }
      case String(s) => WriteString(s);
      case Integral(i) => chars := chars + IntegralText(i);
      case Floating(x) => chars := chars + floating(x);
      case Bool(b) => chars := chars + (if b then "true" else "false");
      case Null => chars := chars + "null";
    }

    /**
     * The object branch: an opening brace, then each member in map order
     * followed by a comma unless it is the last, then the closing brace.
     */
    method WriteObject(n: Node)
      requires n.Object? && |n.fields| != 0
      modifies this
      ensures chars == old(chars) + Minimized(n, floating)
      decreases n, 1
    {
      chars := chars + "{";
      var remaining := n.fields.Keys;
      while true
        invariant remaining != {} && remaining <= n.fields.Keys
        invariant chars + Members(n, remaining, floating) + "}" == old(chars) + Minimized(n, floating)
        decreases remaining
      {
        LeastExists(remaining);
        var k :| IsLeast(remaining, k);
        LeastUnique(remaining, k, Least(remaining));
        ghost var before := chars;
        WriteMember(n, k);
        MembersFirst(n, remaining, k, floating, before, chars);
        remaining := remaining - {k};
        if remaining != {} {
          chars := chars + ",";
        } else {
          break;
        }
      }
      chars := chars + "}";
    }

    /** One member: the key between quotes, a colon, the value. */
    method WriteMember(n: Node, k: string)
      requires n.Object? && k in n.fields
      modifies this
      ensures chars == old(chars) + Member(n, k, floating)
      decreases n, 0
    {
      chars := chars + "\"" + k + "\":";
      WriteNode(n.fields[k]);
    }

    /** The array branch: an opening bracket, the elements separated by commas, the closing bracket. */
    method WriteArray(n: Node)
      requires n.Array? && |n.items| != 0
      modifies this
      ensures chars == old(chars) + Minimized(n, floating)
      decreases n, 1
    {
      chars := chars + "[";
      var i := 0;
      while true
        invariant i < |n.items|
        invariant chars + Elements(n, i, floating) + "]" == old(chars) + Minimized(n, floating)
        decreases |n.items| - i
      {
        WriteNode(n.items[i]);
        i := i + 1;
        if i != |n.items| {
          chars := chars + ",";
        } else {
          break;
        }
      }
      chars := chars + "]";
    }

    /**
     * The string branch: the characters between the escaped ones are
     * appended a segment at a time, each escaped character as a backslash
     * and its letter.
     */
    method WriteString(s: string)
      modifies this
      ensures chars == old(chars) + Quoted(s)
    {
      chars := chars + "\"";
      ghost var start := chars;
      var segmentStart := 0;
      for i := 0 to |s|
        invariant segmentStart <= i
        invariant chars == start + Escaped(s[..segmentStart])
        invariant forall k :: segmentStart <= k < i ==> EscapeReplacement(s[k]).None?
      {
        var replacement := EscapeReplacement(s[i]);
        if replacement.Some? {
          EscapedStep(s, segmentStart, i);
          chars := chars + (s[segmentStart..i] + ['\\', replacement.value]);
          segmentStart := i + 1;
        }
      }
      EscapedRest(s, segmentStart);
      chars := chars + (s[segmentStart..] + "\"");
    }
  }

  /** `Node::to_string` with the minimized format: a fresh buffer, the node written into it. */
  method ToString(n: Node, floating: FloatWriter) returns (r: string)
    ensures r == Minimized(n, floating)
  {
    var writer := new Writer(floating);
    writer.WriteNode(n);
    r := writer.chars;
  }
}
