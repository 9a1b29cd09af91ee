/**
 * String helpers of src/library/string_funcs.hpp: splitting on a delimiter
 * and reading an unsigned integer prefix.
 */
module StringFuncs {

  // ---------------------------------------------------------------- splitting

  /** Index of the first `d` in `s`, or |s| when there is none. */
  function FirstIndexOf(s: string, d: char): (k: nat)
    ensures k <= |s|
  {
    if s == [] then 0 else if s[0] == d then 0 else 1 + FirstIndexOf(s[1..], d)
  }

  /** The index found is the first delimiter: none before it, and one there unless it is |s|. */
  lemma {:induction false} FirstIndexOfIsFirst(s: string, d: char)
    ensures forall j :: 0 <= j < FirstIndexOf(s, d) ==> s[j] != d
    ensures FirstIndexOf(s, d) < |s| ==> s[FirstIndexOf(s, d)] == d
  {
    if s != [] && s[0] != d {
      FirstIndexOfIsFirst(s[1..], d);
      forall j | 0 < j < FirstIndexOf(s, d) ensures s[j] != d {
        assert s[j] == s[1..][j - 1];
      }
    }
  }

  /**
   * The reference meaning of a split: the pieces between consecutive
   * delimiters, where a trailing delimiter closes the last piece instead of
   * opening an empty one.
   */
  function Split(s: string, d: char): seq<string>
    decreases |s|
  {
    var k := FirstIndexOf(s, d);
    if s == [] then []
    else if k == |s| then [s]
    else [s[..k]] + Split(s[k + 1..], d)
  }

  /** Number of occurrences of `d` in `s`. */
  function CountOf(s: string, d: char): nat
  {
    if s == [] then 0 else (if s[0] == d then 1 else 0) + CountOf(s[1..], d)
  }

  /** The inverse of a split: the pieces glued back with `d` between them. */
  function Join(parts: seq<string>, d: char): string
  {
    if parts == [] then [] else if |parts| == 1 then parts[0] else parts[0] + [d] + Join(parts[1..], d)
  }

  /** `split_as_view`: one pass over `source`, cutting at every delimiter. */
  method SplitAsView(source: string, delim: char) returns (result: seq<string>)
    ensures result == Split(source, delim)
  {
    result := [];
    var pos := 0;
    for i := 0 to |source|
      invariant pos <= i
      invariant forall j :: pos <= j < i ==> source[j] != delim
      invariant result + Split(source[pos..], delim) == Split(source, delim)
    {
      if source[i] == delim {
        CutAt(source, delim, pos, i);
        result := result + [source[pos..i]];
        pos := i + 1;
      }
    }
    CutTail(source, delim, pos);
    if pos != |source| {
      result := result + [source[pos..]];
    }
  }

  /** One step of the loop: the piece from `pos` ends at the delimiter at `i`. */
  lemma CutAt(s: string, d: char, pos: nat, i: nat)
    requires pos <= i < |s| && s[i] == d
    requires forall j :: pos <= j < i ==> s[j] != d
    ensures Split(s[pos..], d) == [s[pos..i]] + Split(s[i + 1..], d)
  {
    SplitAt(s[pos..], d, i - pos);
    assert s[pos..][..i - pos] == s[pos..i];
    assert s[pos..][i - pos + 1..] == s[i + 1..];
  }

  /** After the loop: what is left from `pos` holds no delimiter, so it is one piece or none. */
  lemma CutTail(s: string, d: char, pos: nat)
    requires pos <= |s|
    requires forall j :: pos <= j < |s| ==> s[j] != d
    ensures Split(s[pos..], d) == if pos == |s| then [] else [s[pos..]]
  {
    NoDelimFirstIndex(s[pos..], d);
  }

  /** `split_as_copy`: the same loop as `split_as_view`, producing owned strings. */
  method SplitAsCopy(source: string, delim: char) returns (result: seq<string>)
    ensures result == Split(source, delim)
  {
    result := SplitAsView(source, delim);
  }

  lemma {:induction false} NoDelimFirstIndex(s: string, d: char)
    requires forall j :: 0 <= j < |s| ==> s[j] != d
    ensures FirstIndexOf(s, d) == |s|
  {
    if s != [] { NoDelimFirstIndex(s[1..], d); }
  }

  /** A split at the first delimiter. */
  lemma SplitAt(s: string, d: char, k: nat)
    requires k < |s| && s[k] == d
    requires forall j :: 0 <= j < k ==> s[j] != d
    ensures Split(s, d) == [s[..k]] + Split(s[k + 1..], d)
  {
    FirstIndexOfIsFirst(s, d);
    var f := FirstIndexOf(s, d);
    assert f <= k;
  }

  /** No piece contains the delimiter. */
  lemma {:induction false} SplitPiecesHaveNoDelim(s: string, d: char)
    ensures forall p :: p in Split(s, d) ==> d !in p
    decreases |s|
  {
    var k := FirstIndexOf(s, d);
    FirstIndexOfIsFirst(s, d);
    if s != [] && k < |s| {
      SplitPiecesHaveNoDelim(s[k + 1..], d);
      assert d !in s[..k];
    }
  }

  /** The number of pieces is the number of delimiters, plus one for a non-empty unterminated tail. */
  lemma {:induction false} SplitCount(s: string, d: char)
    ensures |Split(s, d)| == CountOf(s, d) + (if s != [] && s[|s| - 1] != d then 1 else 0)
    decreases |s|
  {
    var k := FirstIndexOf(s, d);
    FirstIndexOfIsFirst(s, d);
    if s == [] {
    } else if k == |s| {
      NoDelimCount(s, d);
    } else {
      SplitCount(s[k + 1..], d);
      CountSplit(s, d, k);
      NoDelimCount(s[..k], d);
      if s[k + 1..] == [] {
        assert s[|s| - 1] == d;
      } else {
        assert s[k + 1..][|s[k + 1..]| - 1] == s[|s| - 1];
      }
    }
  }

  lemma {:induction false} NoDelimCount(s: string, d: char)
    requires forall j :: 0 <= j < |s| ==> s[j] != d
    ensures CountOf(s, d) == 0
  {
    if s != [] { NoDelimCount(s[1..], d); }
  }

  lemma {:induction false} CountSplit(s: string, d: char, k: nat)
    requires k < |s|
    ensures CountOf(s, d) == CountOf(s[..k], d) + (if s[k] == d then 1 else 0) + CountOf(s[k + 1..], d)
  {
    if k > 0 {
      CountSplit(s[1..], d, k - 1);
      assert s[1..][..k - 1] == s[..k][1..];
      assert s[1..][k - 1 + 1..] == s[k + 1..];
    } else {
      assert s[1..] == s[k + 1..];
    }
  }

  /** Joining the pieces gives the source back unless the source ends with the delimiter. */
  lemma {:induction false} SplitJoin(s: string, d: char)
    requires s == [] || s[|s| - 1] != d
    ensures Join(Split(s, d), d) == s
    decreases |s|
  {
    if s != [] {
      var k := FirstIndexOf(s, d);
      FirstIndexOfIsFirst(s, d);
      if k < |s| {
        var rest := s[k + 1..];
        assert rest != [] && rest[|rest| - 1] == s[|s| - 1];
        SplitJoin(rest, d);
        SplitNonEmpty(rest, d);
        SplitAt(s, d, k);
        JoinCons(s[..k], Split(rest, d), d);
        SliceAround(s, k);
      }
    }
  }

  lemma SliceAround(s: string, k: nat)
    requires k < |s|
    ensures s == s[..k] + [s[k]] + s[k + 1..]
  {
  }

  /** Joining a first piece in front of at least one more. */
  lemma JoinCons(p: string, ps: seq<string>, d: char)
    requires ps != []
    ensures Join([p] + ps, d) == p + [d] + Join(ps, d)
  {
    assert ([p] + ps)[1..] == ps;
  }

  lemma SplitNonEmpty(s: string, d: char)
    requires s != []
    ensures |Split(s, d)| >= 1
  {
  }

  /** Leading and doubled delimiters give empty pieces. */
  lemma LeadingDelimiter(s: string, d: char)
    ensures Split([d] + s, d) == [[]] + Split(s, d)
  {
    assert ([d] + s)[1..] == s;
    SplitAt([d] + s, d, 0);
  }

  /** A delimiter appended to a non-empty, unterminated source adds no piece; otherwise it adds an empty one. */
  lemma {:induction false} TrailingDelimiter(s: string, d: char)
    ensures Split(s + [d], d) == if s != [] && s[|s| - 1] != d then Split(s, d) else Split(s, d) + [[]]
    decreases |s|
  {
    var k := FirstIndexOf(s, d);
    FirstIndexOfIsFirst(s, d);
    var t := s + [d];
    if s == [] {
      SplitAt(t, d, 0);
      assert t[1..] == [];
    } else if k == |s| {
      SplitAt(t, d, k);
      assert t[..k] == s;
      assert t[k + 1..] == [];
    } else {
      SplitAt(t, d, k);
      assert t[..k] == s[..k];
      assert t[k + 1..] == s[k + 1..] + [d];
      TrailingDelimiter(s[k + 1..], d);
      if s[k + 1..] != [] {
        assert s[k + 1..][|s[k + 1..]| - 1] == s[|s| - 1];
      }
    }
  }

  // ---------------------------------------------------------------- sv_to

  predicate IsDigit(c: char) { '0' <= c <= '9' }

  /** The longest prefix of decimal digits. */
  function DigitPrefix(s: string): (p: string)
    ensures |p| <= |s| && p == s[..|p|]
    ensures forall j :: 0 <= j < |p| ==> IsDigit(p[j])
    ensures |p| < |s| ==> !IsDigit(s[|p|])
  {
    if s == [] || !IsDigit(s[0]) then [] else [s[0]] + DigitPrefix(s[1..])
  }

  /** The value of a run of decimal digits, most significant first. */
  function DigitsValue(s: string): nat
    requires forall j :: 0 <= j < |s| ==> IsDigit(s[j])
  {
    if s == [] then 0
    else
      assert IsDigit(s[|s| - 1]);
      DigitsValue(s[..|s| - 1]) * 10 + (s[|s| - 1] as int - '0' as int)
  }

  /** The decimal spelling of `n` (no sign, no leading zeros): the reference for `sv_to`. */
  function DecimalString(n: nat): (s: string)
    ensures |s| >= 1 && forall j :: 0 <= j < |s| ==> IsDigit(s[j])
  {
    if n < 10 then [('0' as int + n) as char] else DecimalString(n / 10) + [('0' as int + n % 10) as char]
  }

  const SizeMax: nat := 0x1_0000_0000_0000_0000

  /**
   * `sv_to<size_t>`: `from_chars` reads the leading digits. Its error code is
   * dropped, so the result is only defined when a digit comes first and the
   * number fits in 64 bits; the caller must ensure both.
   */
  function SvTo(s: string): (n: nat)
    requires |s| > 0 && IsDigit(s[0])
    requires DigitsValue(DigitPrefix(s)) < SizeMax
    ensures n < SizeMax
  {
    DigitsValue(DigitPrefix(s))
  }

  lemma {:induction false} DecimalValue(n: nat)
    ensures DigitsValue(DecimalString(n)) == n
  {
    if n >= 10 {
      DecimalValue(n / 10);
      var s := DecimalString(n);
      assert s[..|s| - 1] == DecimalString(n / 10);
    }
  }

  lemma {:induction false} DigitPrefixOfDigits(s: string, rest: string)
    requires forall j :: 0 <= j < |s| ==> IsDigit(s[j])
    requires rest == [] || !IsDigit(rest[0])
    ensures DigitPrefix(s + rest) == s
  {
    if s != [] {
      assert (s + rest)[1..] == s[1..] + rest;
      DigitPrefixOfDigits(s[1..], rest);
    }
  }

  /** Reading back a printed number, followed by anything but a digit, gives the number. */
  lemma SvToDecimal(n: nat, rest: string)
    requires n < SizeMax
    requires rest == [] || !IsDigit(rest[0])
    ensures var s := DecimalString(n) + rest; |s| > 0 && IsDigit(s[0]) && DigitsValue(DigitPrefix(s)) < SizeMax && SvTo(s) == n
  {
    DigitPrefixOfDigits(DecimalString(n), rest);
    DecimalValue(n);
  }
}
