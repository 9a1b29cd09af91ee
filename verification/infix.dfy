/**
 * The formula language read by src/library/rpn.cpp and src/math/parser.cpp.
 * Both files tokenize an infix formula and reorder it into postfix with the
 * shunting-yard algorithm; they differ only in which operators exist and in
 * the precedence table. This module holds what the two agree on: the token
 * kinds, the meaning of tokenizing, the meaning of the reordering, and what a
 * well-formed infix and a well-formed postfix sequence are.
 */
module Infix {
  import opened Wrappers
  import opened StringFuncs

  /** Which of the two source files' tables is meant. */
  datatype Dialect = RpnDialect | MathDialect

  /**
   * Token kinds. `And`, `Or`, `LessEq` and `MoreEq` exist only in the rpn
   * dialect; `NoneKind` is the enum's zero value, which no tokenizer produces.
   */
  datatype Kind =
    | NoneKind | Plus | Minus | Star | Slash | Percent | Equal | Less | More
    | LParen | RParen | And | Or | LessEq | MoreEq | Number | Variable

  /** `token_t`: the kind, the text it was read from, and a number for literals. */
  datatype Token = Token(kind: Kind, literal: string, number: real)

  predicate IsOperand(k: Kind) { k == Number || k == Variable }

  predicate IsParen(k: Kind) { k == LParen || k == RParen }

  /** The `math_operators` set of each file. */
  predicate IsOperator(d: Dialect, k: Kind)
  {
    k in {Plus, Minus, Star, Slash, Percent, Equal, Less, More}
    || (d == RpnDialect && k in {And, Or, LessEq, MoreEq})
  }

  /** The one-character tokens (`primitive_tokens`) of each file. */
  function PrimitiveKind(d: Dialect, c: char): (k: Option<Kind>)
    ensures k.Some? ==> IsParen(k.value) || IsOperator(d, k.value)
  {
    match c
    case '+' => Some(Plus)
    case '-' => Some(Minus)
    case '*' => Some(Star)
    case '/' => Some(Slash)
    case '%' => Some(Percent)
    case '=' => Some(Equal)
    case '<' => Some(Less)
    case '>' => Some(More)
    case '(' => Some(LParen)
    case ')' => Some(RParen)
    case '&' => if d == RpnDialect then Some(And) else None
    case '|' => if d == RpnDialect then Some(Or) else None
    case _ => None
  }

  /**
   * The `precedence` table of each file; a kind missing from it gets 0.
   * rpn.cpp: And/Or 1, +- 2, * / % 3, comparisons 4, = 5.
   * parser.cpp: +- 1, * / % 2, < > 3, = 4.
   */
  function Precedence(d: Dialect, k: Kind): (p: nat)
    ensures p > 0 <==> IsOperator(d, k)
  {
    match d
    case RpnDialect =>
      (match k
       case And => 1 case Or => 1
       case Plus => 2 case Minus => 2
       case Star => 3 case Slash => 3 case Percent => 3
       case Less => 4 case More => 4 case LessEq => 4 case MoreEq => 4
       case Equal => 5
       case _ => 0)
    case MathDialect =>
      (match k
       case Plus => 1 case Minus => 1
       case Star => 2 case Slash => 2 case Percent => 2
       case Less => 3 case More => 3
       case Equal => 4
       case _ => 0)
  }

  /** In both tables comparisons bind tighter than arithmetic, and '=' tightest. */
  lemma PrecedenceOrder(d: Dialect)
    ensures Precedence(d, Plus) == Precedence(d, Minus) < Precedence(d, Star)
    ensures Precedence(d, Star) == Precedence(d, Slash) == Precedence(d, Percent) < Precedence(d, Less)
    ensures Precedence(d, Less) == Precedence(d, More) < Precedence(d, Equal)
    ensures d == RpnDialect ==>
              Precedence(d, And) == Precedence(d, Or) < Precedence(d, Plus)
              && Precedence(d, LessEq) == Precedence(d, MoreEq) == Precedence(d, Less)
  {
  }

  // ------------------------------------------------------------ characters

  /** `s[i]` on a `std::string`, which reads a NUL one past the end. */
  function At(s: string, i: nat): char { if i < |s| then s[i] else '\0' }

  predicate IsAlpha(c: char) { 'a' <= c <= 'z' || 'A' <= c <= 'Z' }

  predicate IsWordChar(c: char) { IsAlpha(c) || IsDigit(c) || c == '_' }

  /** The characters `remove_chars(what, " \t\n")` deletes. */
  predicate IsBlank(c: char) { c == ' ' || c == '\t' || c == '\n' }

  /** The formula with spaces, tabs and newlines deleted. */
  function WithoutBlanks(s: string): (r: string)
    ensures |r| <= |s|
    ensures forall j :: 0 <= j < |r| ==> !IsBlank(r[j])
  {
    if s == [] then [] else (if IsBlank(s[0]) then [] else [s[0]]) + WithoutBlanks(s[1..])
  }

  /** Deleting blanks keeps every other character, in order, and only those. */
  lemma {:induction false} WithoutBlanksKeeps(s: string)
    ensures forall c :: c in WithoutBlanks(s) <==> c in s && !IsBlank(c)
    ensures (forall j :: 0 <= j < |s| ==> !IsBlank(s[j])) ==> WithoutBlanks(s) == s
  {
    if s != [] {
      WithoutBlanksKeeps(s[1..]);
      assert forall c :: c in s <==> c == s[0] || c in s[1..];
    }
  }

  /** The end of the run of digits starting at j. */
  function DigitRunEnd(s: string, j: nat): (e: nat)
    requires j <= |s|
    ensures j <= e <= |s|
    decreases |s| - j
  {
    if j < |s| && IsDigit(s[j]) then DigitRunEnd(s, j + 1) else j
  }

  /** The run holds digits only and stops at the first non-digit (or the end). */
  lemma {:induction false} DigitRun(s: string, j: nat)
    requires j <= |s|
    ensures forall k :: j <= k < DigitRunEnd(s, j) ==> IsDigit(s[k])
    ensures !IsDigit(At(s, DigitRunEnd(s, j)))
    decreases |s| - j
  {
    if j < |s| && IsDigit(s[j]) { DigitRun(s, j + 1); }
  }

  /** The end of the run of letters, digits and '_' starting at j. */
  function WordRunEnd(s: string, j: nat): (e: nat)
    requires j <= |s|
    ensures j <= e <= |s|
    decreases |s| - j
  {
    if j < |s| && IsWordChar(s[j]) then WordRunEnd(s, j + 1) else j
  }

  /** The run holds word characters only and stops at the first other one (or the end). */
  lemma {:induction false} WordRun(s: string, j: nat)
    requires j <= |s|
    ensures forall k :: j <= k < WordRunEnd(s, j) ==> IsWordChar(s[k])
    ensures !IsWordChar(At(s, WordRunEnd(s, j)))
    decreases |s| - j
  {
    if j < |s| && IsWordChar(s[j]) { WordRun(s, j + 1); }
  }

  // ------------------------------------------------------------ number literals

  function Pow10(n: nat): (p: real)
    ensures p >= 1.0
  {
    if n == 0 then 1.0 else 10.0 * Pow10(n - 1)
  }

  /** The value of the run of digits that starts at j (0 for an empty run). */
  function RunValue(s: string, j: nat): nat
    requires j <= |s|
  {
    DigitRun(s, j);
    DigitsValue(s[j..DigitRunEnd(s, j)])
  }

  /** End of the digits, '.' and fraction digits of a literal starting at digit i. */
  function MantissaEnd(s: string, i: nat): (b: nat)
    requires i <= |s|
    ensures i <= b <= |s|
  {
    var a := DigitRunEnd(s, i);
    if At(s, a) == '.' then DigitRunEnd(s, a + 1) else a
  }

  /** Where the exponent digits would start after an 'e' or 'E' at b. */
  function ExponentDigits(s: string, b: nat): nat
  {
    if At(s, b + 1) == '+' || At(s, b + 1) == '-' then b + 2 else b + 1
  }

  /** `from_chars` takes an exponent only when 'e'/'E', an optional sign and a digit follow. */
  predicate HasExponent(s: string, b: nat)
  {
    (At(s, b) == 'e' || At(s, b) == 'E') && IsDigit(At(s, ExponentDigits(s, b)))
  }

  /**
   * End of the `from_chars` floating-point literal that starts with the digit
   * s[i]: digits, optionally '.' and more digits, optionally an exponent.
   */
  function NumberEnd(s: string, i: nat): (e: nat)
    requires i < |s| && IsDigit(s[i])
    ensures i < e <= |s|
  {
    var b := MantissaEnd(s, i);
    if HasExponent(s, b) then DigitRunEnd(s, ExponentDigits(s, b)) else b
  }

  /** The exact value of that literal (the model does not round to a double). */
  function NumberValue(s: string, i: nat): (v: real)
    requires i < |s| && IsDigit(s[i])
    ensures v >= 0.0
  {
    var a := DigitRunEnd(s, i);
    var b := MantissaEnd(s, i);
    var whole := RunValue(s, i) as real;
    var fraction := if b > a then RunValue(s, a + 1) as real / Pow10(b - a - 1) else 0.0;
    var mantissa := whole + fraction;
    if HasExponent(s, b) then
      var exponent := RunValue(s, ExponentDigits(s, b));
      if At(s, b + 1) == '-' then mantissa / Pow10(exponent) else mantissa * Pow10(exponent)
    else mantissa
  }


  // ------------------------------------------------------------ tokenizing

  function Prepend(t: Token, rest: Option<seq<Token>>): Option<seq<Token>>
  {
    if rest.Some? then Some([t] + rest.value) else None
  }

  /**
   * The token that starts at s[i] of the blank-free text, and where it ends:
   * "<=" and ">=" (rpn dialect only) before any one-character token, then a
   * primitive character, a number at a digit, a name at a letter. A
   * character that starts no token leaves the source loop without progress,
   * which is `None` here.
   */
  function Lex(d: Dialect, s: string, i: nat): (r: Option<(Token, nat)>)
    requires i < |s|
    ensures r.Some? ==> i < r.value.1 <= |s|
  {
    var c := s[i];
    if d == RpnDialect && c == '<' && At(s, i + 1) == '=' then
      Some((Token(LessEq, "<=", 0.0), i + 2))
    else if d == RpnDialect && c == '>' && At(s, i + 1) == '=' then
      Some((Token(MoreEq, ">=", 0.0), i + 2))
    else if PrimitiveKind(d, c).Some? then
      Some((Token(PrimitiveKind(d, c).value, [c], 0.0), i + 1))
    else if IsDigit(c) || c == '-' then
      var e := NumberEnd(s, i);
      Some((Token(Number, s[i..e], NumberValue(s, i)), e))
    else if IsAlpha(c) then
      var e := WordRunEnd(s, i + 1);
      Some((Token(Variable, s[i..e], 0.0), e))
    else None
  }

  /** A token's text is the stretch of input it was read from, and it has the shape of its kind. */
  lemma LexFacts(d: Dialect, s: string, i: nat)
    requires i < |s| && Lex(d, s, i).Some?
    ensures Lex(d, s, i).value.0.literal == s[i..Lex(d, s, i).value.1]
    ensures TokenShape(d, Lex(d, s, i).value.0)
  {
    var c := s[i];
    if d == RpnDialect && c == '<' && At(s, i + 1) == '=' {
      assert Lex(d, s, i) == Some((Token(LessEq, "<=", 0.0), i + 2));
      TwoChars(s, i);
    } else if d == RpnDialect && c == '>' && At(s, i + 1) == '=' {
      assert Lex(d, s, i) == Some((Token(MoreEq, ">=", 0.0), i + 2));
      TwoChars(s, i);
    } else if PrimitiveKind(d, c).Some? {
      assert Lex(d, s, i) == Some((Token(PrimitiveKind(d, c).value, [c], 0.0), i + 1));
      PrimitiveShape(d, c);
      assert s[i..i + 1] == [c];
    } else if IsDigit(c) || c == '-' {
      var e := NumberEnd(s, i);
      assert Lex(d, s, i) == Some((Token(Number, s[i..e], NumberValue(s, i)), e));
    } else {
      var e := WordRunEnd(s, i + 1);
      assert Lex(d, s, i) == Some((Token(Variable, s[i..e], 0.0), e));
      NameShape(d, s, i);
    }
  }

  lemma TwoChars(s: string, i: nat)
    requires i < |s| && At(s, i + 1) == '='
    ensures i + 2 <= |s| && s[i..i + 2] == [s[i], '=']
  {
  }

  lemma PrimitiveShape(d: Dialect, c: char)
    requires PrimitiveKind(d, c).Some?
    ensures TokenShape(d, Token(PrimitiveKind(d, c).value, [c], 0.0))
  {
  }

  /** A name read at a letter is a letter followed by word characters. */
  lemma NameShape(d: Dialect, s: string, i: nat)
    requires i < |s| && IsAlpha(s[i])
    ensures TokenShape(d, Token(Variable, s[i..WordRunEnd(s, i + 1)], 0.0))
  {
    var e := WordRunEnd(s, i + 1);
    WordRun(s, i + 1);
    assert forall k :: 0 < k < e - i ==> s[i..e][k] == s[i + k];
  }

  /** Tokenizing the blank-free text s from index i: one token after another. */
  function TokenizeFrom(d: Dialect, s: string, i: nat): Option<seq<Token>>
    requires i <= |s|
    decreases |s| - i
  {
    if i == |s| then Some([])
    else
      var first := Lex(d, s, i);
      if first.None? then None else Prepend(first.value.0, TokenizeFrom(d, s, first.value.1))
  }

  /** The tokens read so far are `done`, and the rest of the text gives the rest of `all`. */
  predicate Tokenized(d: Dialect, s: string, i: nat, done: seq<Token>, all: seq<Token>)
  {
    i <= |s| && TokenizeFrom(d, s, i).Some? && done + TokenizeFrom(d, s, i).value == all
  }

  /** Reading the token at i keeps the tokenizer's loop invariant. */
  lemma TokenizeAdvance(d: Dialect, s: string, i: nat, done: seq<Token>, all: seq<Token>, t: Token, e: nat)
    requires i < |s| && Tokenized(d, s, i, done, all) && Lex(d, s, i) == Some((t, e))
    ensures e <= |s| && Tokenized(d, s, e, done + [t], all)
  {
    var rest := TokenizeFrom(d, s, e).value;
    assert done + [t] + rest == done + ([t] + rest);
  }

  /** At the end of the text every token has been read. */
  lemma TokenizeDone(d: Dialect, s: string, done: seq<Token>, all: seq<Token>)
    requires Tokenized(d, s, |s|, done, all)
    ensures done == all
  {
    assert done + [] == done;
  }

  /** `tokenize(what)`: blanks deleted, then tokens read left to right. */
  function Tokenize(d: Dialect, what: string): Option<seq<Token>>
  {
    TokenizeFrom(d, WithoutBlanks(what), 0)
  }

  /** Every character of the text can start or continue a token. */
  predicate Lexable(d: Dialect, what: string) { Tokenize(d, what).Some? }

  function Literals(ts: seq<Token>): string
  {
    if ts == [] then [] else ts[0].literal + Literals(ts[1..])
  }

  /** The first token of a tokenizable text, where it ends, and what follows it. */
  lemma TokenizeFirst(d: Dialect, s: string, i: nat) returns (t: Token, e: nat)
    requires i < |s| && TokenizeFrom(d, s, i).Some?
    ensures i < e <= |s| && t.literal == s[i..e] && TokenShape(d, t)
    ensures TokenizeFrom(d, s, e).Some? && TokenizeFrom(d, s, i).value == [t] + TokenizeFrom(d, s, e).value
  {
    t, e := Lex(d, s, i).value.0, Lex(d, s, i).value.1;
    LexFacts(d, s, i);
  }

  lemma SliceJoin(s: string, i: nat, e: nat)
    requires i <= e <= |s|
    ensures s[i..] == s[i..e] + s[e..]
  {
  }

  lemma LiteralsCons(t: Token, rest: seq<Token>)
    ensures Literals([t] + rest) == t.literal + Literals(rest)
  {
    assert ([t] + rest)[1..] == rest;
  }

  /** The tokens' texts, read in order, spell the blank-free input exactly. */
  lemma {:induction false} TokenizeCovers(d: Dialect, s: string, i: nat)
    requires i <= |s| && TokenizeFrom(d, s, i).Some?
    ensures Literals(TokenizeFrom(d, s, i).value) == s[i..]
    decreases |s| - i
  {
    if i < |s| {
      var t, e := TokenizeFirst(d, s, i);
      TokenizeCovers(d, s, e);
      LiteralsCons(t, TokenizeFrom(d, s, e).value);
      SliceJoin(s, i, e);
    }
  }

  /**
   * What each token looks like: a number literal starts with a digit and is
   * never negative, so '-' always becomes an operator; a variable is a
   * letter followed by letters, digits and '_'; every kind is an operand, a
   * parenthesis or an operator of the dialect.
   */
  predicate TokenShape(d: Dialect, t: Token)
  {
    && (IsOperand(t.kind) || IsParen(t.kind) || IsOperator(d, t.kind))
    && (t.kind == Number ==> |t.literal| > 0 && IsDigit(t.literal[0]) && t.number >= 0.0)
    && (t.kind == Variable ==>
          |t.literal| > 0 && IsAlpha(t.literal[0])
          && forall k :: 0 < k < |t.literal| ==> IsWordChar(t.literal[k]))
    && (t.kind == Minus ==> t.literal == "-")
  }

  lemma {:induction false} TokenizeShapes(d: Dialect, s: string, i: nat)
    requires i <= |s| && TokenizeFrom(d, s, i).Some?
    ensures forall t :: t in TokenizeFrom(d, s, i).value ==> TokenShape(d, t)
    decreases |s| - i
  {
    if i < |s| {
      var t, e := TokenizeFirst(d, s, i);
      TokenizeShapes(d, s, e);
      var rest := TokenizeFrom(d, s, e).value;
      assert forall u :: u in [t] + rest ==> u == t || u in rest;
    }
  }

  /** '-' is always the minus operator, never the sign of a literal. */
  lemma MinusIsOperator(d: Dialect, s: string, i: nat)
    requires i < |s| && s[i] == '-'
    ensures TokenizeFrom(d, s, i) == Prepend(Token(Minus, "-", 0.0), TokenizeFrom(d, s, i + 1))
  {
  }

  /**
   * "<=" and ">=" are single tokens in the rpn dialect, tried before the
   * one-character '<' and '>'; the math dialect reads them as two tokens.
   */
  lemma TwoCharacterComparisons(s: string, i: nat)
    requires i + 1 < |s| && s[i] == '<' && s[i + 1] == '='
    ensures TokenizeFrom(RpnDialect, s, i) == Prepend(Token(LessEq, "<=", 0.0), TokenizeFrom(RpnDialect, s, i + 2))
    ensures TokenizeFrom(MathDialect, s, i)
            == Prepend(Token(Less, "<", 0.0), Prepend(Token(Equal, "=", 0.0), TokenizeFrom(MathDialect, s, i + 2)))
  {
    assert Lex(RpnDialect, s, i) == Some((Token(LessEq, "<=", 0.0), i + 2));
    LexOne(MathDialect, s, i);
    LexOne(MathDialect, s, i + 1);
  }

  /** A primitive character that starts no two-character token is a token of its own. */
  lemma LexOne(d: Dialect, s: string, i: nat)
    requires i < |s| && PrimitiveKind(d, s[i]).Some?
    requires d == MathDialect || !(s[i] in "<>" && At(s, i + 1) == '=')
    ensures Lex(d, s, i) == Some((Token(PrimitiveKind(d, s[i]).value, [s[i]], 0.0), i + 1))
  {
  }

  // ------------------------------------------------------------ shunting-yard

  function Last(st: seq<Token>): Token
    requires st != []
  {
    st[|st| - 1]
  }

  /** Number of '(' on a stack (the top is the last element). */
  function ParenCount(st: seq<Token>): (n: nat)
    ensures n <= |st|
  {
    if st == [] then 0 else ParenCount(st[..|st| - 1]) + (if Last(st).kind == LParen then 1 else 0)
  }

  /** Walking the tokens from `open` unmatched '(', no ')' ever finds none. */
  predicate Closes(ts: seq<Token>, open: nat)
  {
    if ts == [] then true
    else if ts[0].kind == LParen then Closes(ts[1..], open + 1)
    else if ts[0].kind == RParen then open > 0 && Closes(ts[1..], open - 1)
    else Closes(ts[1..], open)
  }

  /**
   * Move stack tops to the output until a '(' or the bottom is reached. This
   * is both the ')' case and the final flush.
   */
  function PopToParen(st: seq<Token>, out: seq<Token>): (r: (seq<Token>, seq<Token>))
    ensures |r.0| <= |st| && r.0 == st[..|r.0|]
    ensures r.0 != [] ==> Last(r.0).kind == LParen
    ensures ParenCount(r.0) == ParenCount(st)
    decreases |st|
  {
    if st == [] || Last(st).kind == LParen then (st, out)
    else
      var r := PopToParen(st[..|st| - 1], out + [Last(st)]);
      assert st[..|st| - 1][..|r.0|] == st[..|r.0|];
      r
  }

  /** Move stack tops of precedence at least `p` to the output, stopping at '('. */
  function PopOperators(d: Dialect, p: nat, st: seq<Token>, out: seq<Token>): (r: (seq<Token>, seq<Token>))
    ensures |r.0| <= |st| && r.0 == st[..|r.0|]
    ensures ParenCount(r.0) == ParenCount(st)
    ensures r.0 != [] ==> Last(r.0).kind == LParen || p > Precedence(d, Last(r.0).kind)
    decreases |st|
  {
    if st == [] || Last(st).kind == LParen || p > Precedence(d, Last(st).kind) then (st, out)
    else
      var r := PopOperators(d, p, st[..|st| - 1], out + [Last(st)]);
      assert st[..|st| - 1][..|r.0|] == st[..|r.0|];
      r
  }

  lemma DropParen(st: seq<Token>)
    requires st != [] && Last(st).kind == LParen
    ensures ParenCount(st[..|st| - 1]) + 1 == ParenCount(st)
  {
  }

  lemma PushCount(st: seq<Token>, t: Token)
    ensures ParenCount(st + [t]) == ParenCount(st) + (if t.kind == LParen then 1 else 0)
  {
    assert (st + [t])[..|st|] == st;
  }

  /**
   * One token of `shunting_yard_algorithm`: an operand goes to the output,
   * '(' onto the stack, ')' pops to the matching '(' and drops it, an
   * operator first pops the stacked operators that bind at least as tightly.
   * Any other kind throws, which is `None`.
   */
  function SyStep(d: Dialect, st: seq<Token>, out: seq<Token>, t: Token): (r: Option<(seq<Token>, seq<Token>)>)
    requires t.kind == RParen ==> ParenCount(st) > 0
    ensures r.Some? <==> IsOperand(t.kind) || IsParen(t.kind) || IsOperator(d, t.kind)
    ensures r.Some? ==> ParenCount(r.value.0)
                        == if t.kind == LParen then ParenCount(st) + 1
                           else if t.kind == RParen then ParenCount(st) - 1
                           else ParenCount(st)
  {
    if IsOperand(t.kind) then Some((st, out + [t]))
    else if t.kind == LParen then
      PushCount(st, t);
      Some((st + [t], out))
    else if t.kind == RParen then
      var r := PopToParen(st, out);
      DropParen(r.0);
      Some((r.0[..|r.0| - 1], r.1))
    else if IsOperator(d, t.kind) then
      var r := PopOperators(d, Precedence(d, t.kind), st, out);
      PushCount(r.0, t);
      Some((r.0 + [t], r.1))
    else None
  }

  /** The algorithm continued from a stack and an output over the remaining tokens. */
  function SyRun(d: Dialect, st: seq<Token>, out: seq<Token>, ts: seq<Token>): Result<seq<Token>>
    requires Closes(ts, ParenCount(st))
    decreases ts
  {
    if ts == [] then Ok(PopToParen(st, out).1)
    else
      var r := SyStep(d, st, out, ts[0]);
      if r.None? then Err("bad infix to rpn parse") else SyRun(d, r.value.0, r.value.1, ts[1..])
  }

  /** The whole algorithm: empty stack, empty output. */
  function ShuntingYard(d: Dialect, infix: seq<Token>): Result<seq<Token>>
    requires Closes(infix, 0)
  {
    SyRun(d, [], [], infix)
  }

  // ------------------------------------------------------------ what the reordering keeps

  predicate NoParens(ts: seq<Token>) { forall j :: 0 <= j < |ts| ==> !IsParen(ts[j].kind) }

  /** A stack only ever holds '(' and operators. */
  predicate StackShape(st: seq<Token>)
  {
    forall j :: 0 <= j < |st| ==> !IsOperand(st[j].kind) && st[j].kind != RParen
  }

  /** The operands of a token sequence, in order. */
  function Operands(ts: seq<Token>): seq<Token>
  {
    if ts == [] then [] else (if IsOperand(ts[0].kind) then [ts[0]] else []) + Operands(ts[1..])
  }

  lemma {:induction false} OperandsAppend(a: seq<Token>, b: seq<Token>)
    ensures Operands(a + b) == Operands(a) + Operands(b)
  {
    if a == [] {
      assert a + b == b;
    } else {
      var head := if IsOperand(a[0].kind) then [a[0]] else [];
      assert (a + b)[0] == a[0] && (a + b)[1..] == a[1..] + b;
      assert Operands(a + b) == head + Operands(a[1..] + b);
      OperandsAppend(a[1..], b);
      ConcatAssoc(head, Operands(a[1..]), Operands(b));
    }
  }

  /** Splitting off the first token of `ts`, with `out` in front. */
  lemma OperandsSplit(out: seq<Token>, ts: seq<Token>)
    requires ts != []
    ensures Operands(out) + Operands([ts[0]]) + Operands(ts[1..]) == Operands(out) + Operands(ts)
  {
    assert ts == [ts[0]] + ts[1..];
    OperandsAppend([ts[0]], ts[1..]);
    ConcatAssoc(Operands(out), Operands([ts[0]]), Operands(ts[1..]));
  }

  lemma ConcatAssoc(a: seq<Token>, b: seq<Token>, c: seq<Token>)
    ensures (a + b) + c == a + (b + c)
  {
  }

  lemma {:induction false} PopToParenKeeps(st: seq<Token>, out: seq<Token>)
    requires StackShape(st)
    ensures Operands(PopToParen(st, out).1) == Operands(out)
    ensures NoParens(out) ==> NoParens(PopToParen(st, out).1)
    decreases |st|
  {
    if st != [] && Last(st).kind != LParen {
      PopToParenKeeps(st[..|st| - 1], out + [Last(st)]);
      OperandsAppend(out, [Last(st)]);
    }
  }

  lemma {:induction false} PopOperatorsKeeps(d: Dialect, p: nat, st: seq<Token>, out: seq<Token>)
    requires StackShape(st)
    ensures Operands(PopOperators(d, p, st, out).1) == Operands(out)
    ensures NoParens(out) ==> NoParens(PopOperators(d, p, st, out).1)
    decreases |st|
  {
    if !(st == [] || Last(st).kind == LParen || p > Precedence(d, Last(st).kind)) {
      PopOperatorsKeeps(d, p, st[..|st| - 1], out + [Last(st)]);
      OperandsAppend(out, [Last(st)]);
    }
  }

  lemma StepKeeps(d: Dialect, st: seq<Token>, out: seq<Token>, t: Token)
    requires t.kind == RParen ==> ParenCount(st) > 0
    requires StackShape(st) && SyStep(d, st, out, t).Some?
    ensures var r := SyStep(d, st, out, t).value;
      && StackShape(r.0)
      && Operands(r.1) == Operands(out) + Operands([t])
      && (NoParens(out) ==> NoParens(r.1))
  {
    if IsOperand(t.kind) {
      OperandValue(d, st, out, t);
      OperandsAppend(out, [t]);
    } else {
      assert Operands([t]) == [] by { assert [t][1..] == []; }
      assert Operands(out) + Operands([t]) == Operands(out);
      if t.kind == LParen {
        OpenValue(d, st, out, t);
        ShapePush(st, t);
      } else if t.kind == RParen {
        CloseKeeps(d, st, out, t);
      } else {
        OperatorKeeps(d, st, out, t);
      }
    }
  }

  lemma CloseKeeps(d: Dialect, st: seq<Token>, out: seq<Token>, t: Token)
    requires t.kind == RParen && ParenCount(st) > 0 && StackShape(st)
    ensures var r := SyStep(d, st, out, t).value;
      StackShape(r.0) && Operands(r.1) == Operands(out) && (NoParens(out) ==> NoParens(r.1))
  {
    CloseValue(d, st, out, t);
    PopToParenKeeps(st, out);
    var r := PopToParen(st, out).0;
    ShapePrefix(st, |r| - 1);
    assert r[..|r| - 1] == st[..|r| - 1];
  }

  lemma OperatorKeeps(d: Dialect, st: seq<Token>, out: seq<Token>, t: Token)
    requires IsOperator(d, t.kind) && StackShape(st)
    ensures var r := SyStep(d, st, out, t).value;
      StackShape(r.0) && Operands(r.1) == Operands(out) && (NoParens(out) ==> NoParens(r.1))
  {
    var r := PopOperators(d, Precedence(d, t.kind), st, out);
    OperatorValue(d, st, out, t);
    PopOperatorsKeeps(d, Precedence(d, t.kind), st, out);
    ShapePrefix(st, |r.0|);
    ShapePush(r.0, t);
  }

  lemma ShapePrefix(st: seq<Token>, n: nat)
    requires StackShape(st) && n <= |st|
    ensures StackShape(st[..n])
  {
    assert forall j :: 0 <= j < n ==> st[..n][j] == st[j];
  }

  lemma ShapePush(st: seq<Token>, t: Token)
    requires StackShape(st) && !IsOperand(t.kind) && t.kind != RParen
    ensures StackShape(st + [t])
  {
    assert forall j :: 0 <= j < |st| ==> (st + [t])[j] == st[j];
  }

  lemma OperandValue(d: Dialect, st: seq<Token>, out: seq<Token>, t: Token)
    requires IsOperand(t.kind)
    ensures SyStep(d, st, out, t) == Some((st, out + [t]))
  {
  }

  lemma OpenValue(d: Dialect, st: seq<Token>, out: seq<Token>, t: Token)
    requires t.kind == LParen
    ensures SyStep(d, st, out, t) == Some((st + [t], out))
  {
  }

  /**
   * Whatever the input, a completed reordering emits the operands exactly in
   * input order and never emits a parenthesis.
   */
  lemma {:induction false} SyRunKeeps(d: Dialect, st: seq<Token>, out: seq<Token>, ts: seq<Token>)
    requires Closes(ts, ParenCount(st)) && StackShape(st)
    requires SyRun(d, st, out, ts).Ok?
    ensures Operands(SyRun(d, st, out, ts).value) == Operands(out) + Operands(ts)
    ensures NoParens(out) ==> NoParens(SyRun(d, st, out, ts).value)
    decreases ts
  {
    if ts == [] {
      PopToParenKeeps(st, out);
    } else {
      var r := SyStep(d, st, out, ts[0]).value;
      assert SyRun(d, st, out, ts) == SyRun(d, r.0, r.1, ts[1..]);
      StepKeeps(d, st, out, ts[0]);
      SyRunKeeps(d, r.0, r.1, ts[1..]);
      OperandsSplit(out, ts);
    }
  }

  /**
   * The reordering fails only on a token that is neither an operand, a
   * parenthesis nor an operator of the dialect.
   */
  lemma {:induction false} SyRunOk(d: Dialect, st: seq<Token>, out: seq<Token>, ts: seq<Token>)
    requires Closes(ts, ParenCount(st))
    ensures SyRun(d, st, out, ts).Ok? <==>
              forall j :: 0 <= j < |ts| ==> IsOperand(ts[j].kind) || IsParen(ts[j].kind) || IsOperator(d, ts[j].kind)
    decreases ts
  {
    if ts != [] {
      var r := SyStep(d, st, out, ts[0]);
      if r.Some? {
        SyRunOk(d, r.value.0, r.value.1, ts[1..]);
        assert forall j :: 1 <= j < |ts| ==> ts[j] == ts[1..][j - 1];
      } else {
        assert SyRun(d, st, out, ts).Err?;
      }
    }
  }

  /** What the tokenizer produces always reorders without error once its parentheses close. */
  lemma TokenizedReorders(d: Dialect, what: string)
    requires Lexable(d, what) && Closes(Tokenize(d, what).value, 0)
    ensures ShuntingYard(d, Tokenize(d, what).value).Ok?
  {
    var ts := Tokenize(d, what).value;
    TokenizeShapes(d, WithoutBlanks(what), 0);
    assert forall j :: 0 <= j < |ts| ==> TokenShape(d, ts[j]) by {
      forall j | 0 <= j < |ts| ensures TokenShape(d, ts[j]) {
        assert ts[j] in ts;
      }
    }
    SyRunOk(d, [], [], ts);
  }

  lemma ShuntingYardKeeps(d: Dialect, infix: seq<Token>)
    requires Closes(infix, 0) && ShuntingYard(d, infix).Ok?
    ensures Operands(ShuntingYard(d, infix).value) == Operands(infix)
    ensures NoParens(ShuntingYard(d, infix).value)
  {
    SyRunKeeps(d, [], [], infix);
  }

  // ------------------------------------------------------------ well-formed input and output

  /**
   * Infix well-formedness as an automaton: `after` says an operand (or a
   * closing ')') was just read, `depth` counts open parentheses.
   */
  predicate WellFormedFrom(d: Dialect, ts: seq<Token>, after: bool, depth: nat)
  {
    if ts == [] then after && depth == 0
    else
      var k := ts[0].kind;
      if !after then
        if IsOperand(k) then WellFormedFrom(d, ts[1..], true, depth)
        else k == LParen && WellFormedFrom(d, ts[1..], false, depth + 1)
      else
        if IsOperator(d, k) then WellFormedFrom(d, ts[1..], false, depth)
        else k == RParen && depth > 0 && WellFormedFrom(d, ts[1..], true, depth - 1)
  }

  /** Operands joined by binary operators of the dialect, with balanced parentheses. */
  predicate WellFormedInfix(d: Dialect, ts: seq<Token>) { WellFormedFrom(d, ts, false, 0) }

  /** One postfix step on the height of the evaluation stack. */
  function HeightStep(d: Dialect, h: Option<nat>, t: Token): Option<nat>
  {
    if h.None? then None
    else if IsOperand(t.kind) then Some(h.value + 1)
    else if IsOperator(d, t.kind) && h.value >= 2 then Some(h.value - 1)
    else None
  }

  /**
   * The evaluation stack height after a postfix sequence, or None when an
   * operator would find fewer than two values or a parenthesis appears.
   */
  function Height(d: Dialect, ts: seq<Token>): Option<nat>
  {
    if ts == [] then Some(0) else HeightStep(d, Height(d, ts[..|ts| - 1]), Last(ts))
  }

  /** Evaluating it leaves exactly one value and never runs short. */
  predicate ValidPostfix(d: Dialect, ts: seq<Token>) { Height(d, ts) == Some(1) }

  lemma HeightAppend(d: Dialect, ts: seq<Token>, t: Token)
    ensures Height(d, ts + [t]) == HeightStep(d, Height(d, ts), t)
  {
    assert (ts + [t])[..|ts|] == ts;
  }

  lemma {:induction false} WellFormedCloses(d: Dialect, ts: seq<Token>, after: bool, depth: nat)
    requires WellFormedFrom(d, ts, after, depth)
    ensures Closes(ts, depth)
    decreases ts
  {
    if ts != [] {
      var k := ts[0].kind;
      if !after {
        if IsOperand(k) { WellFormedCloses(d, ts[1..], true, depth); }
        else { WellFormedCloses(d, ts[1..], false, depth + 1); }
      } else {
        if IsOperator(d, k) { WellFormedCloses(d, ts[1..], false, depth); }
        else { WellFormedCloses(d, ts[1..], true, depth - 1); }
      }
    }
  }

  /** Operators on a stack: everything but the parentheses. */
  function OpCount(st: seq<Token>): nat { |st| - ParenCount(st) }

  predicate OperatorStack(d: Dialect, st: seq<Token>)
  {
    forall j :: 0 <= j < |st| ==> st[j].kind == LParen || IsOperator(d, st[j].kind)
  }

  /**
   * The invariant of the reordering on well-formed input: the output's
   * evaluation height is the number of stacked operators, plus one right
   * after an operand.
   */
  predicate SyInvariant(d: Dialect, st: seq<Token>, out: seq<Token>, after: bool, depth: nat)
  {
    && OperatorStack(d, st)
    && ParenCount(st) == depth
    && Height(d, out) == Some((if after then 1 else 0) + OpCount(st))
  }

  lemma PopOne(d: Dialect, st: seq<Token>, out: seq<Token>)
    requires OperatorStack(d, st) && st != [] && Last(st).kind != LParen
    requires Height(d, out) == Some(1 + OpCount(st))
    ensures OperatorStack(d, st[..|st| - 1])
    ensures Height(d, out + [Last(st)]) == Some(1 + OpCount(st[..|st| - 1]))
  {
    HeightAppend(d, out, Last(st));
  }

  lemma {:induction false} PopToParenHeight(d: Dialect, st: seq<Token>, out: seq<Token>)
    requires OperatorStack(d, st) && Height(d, out) == Some(1 + OpCount(st))
    ensures var r := PopToParen(st, out); OperatorStack(d, r.0) && Height(d, r.1) == Some(1 + OpCount(r.0))
    decreases |st|
  {
    if st != [] && Last(st).kind != LParen {
      PopOne(d, st, out);
      PopToParenHeight(d, st[..|st| - 1], out + [Last(st)]);
    }
  }

  lemma {:induction false} PopOperatorsHeight(d: Dialect, p: nat, st: seq<Token>, out: seq<Token>)
    requires OperatorStack(d, st) && Height(d, out) == Some(1 + OpCount(st))
    ensures var r := PopOperators(d, p, st, out); OperatorStack(d, r.0) && Height(d, r.1) == Some(1 + OpCount(r.0))
    decreases |st|
  {
    if !(st == [] || Last(st).kind == LParen || p > Precedence(d, Last(st).kind)) {
      PopOne(d, st, out);
      PopOperatorsHeight(d, p, st[..|st| - 1], out + [Last(st)]);
    }
  }

  lemma OperandStep(d: Dialect, st: seq<Token>, out: seq<Token>, t: Token, depth: nat)
    requires IsOperand(t.kind) && SyInvariant(d, st, out, false, depth)
    ensures SyStep(d, st, out, t) == Some((st, out + [t]))
    ensures SyInvariant(d, st, out + [t], true, depth)
  {
    HeightAppend(d, out, t);
  }

  lemma OpenStep(d: Dialect, st: seq<Token>, out: seq<Token>, t: Token, depth: nat)
    requires t.kind == LParen && SyInvariant(d, st, out, false, depth)
    ensures SyStep(d, st, out, t) == Some((st + [t], out))
    ensures SyInvariant(d, st + [t], out, false, depth + 1)
  {
    PushCount(st, t);
  }

  lemma OperatorStep(d: Dialect, st: seq<Token>, out: seq<Token>, t: Token, depth: nat)
    requires IsOperator(d, t.kind) && SyInvariant(d, st, out, true, depth)
    ensures SyStep(d, st, out, t).Some?
    ensures var r := SyStep(d, st, out, t).value; SyInvariant(d, r.0, r.1, false, depth)
  {
    var r := PopOperators(d, Precedence(d, t.kind), st, out);
    PopOperatorsHeight(d, Precedence(d, t.kind), st, out);
    PushOperator(d, r.0, r.1, t);
    OperatorValue(d, st, out, t);
  }

  lemma OperatorValue(d: Dialect, st: seq<Token>, out: seq<Token>, t: Token)
    requires IsOperator(d, t.kind)
    ensures var r := PopOperators(d, Precedence(d, t.kind), st, out); SyStep(d, st, out, t) == Some((r.0 + [t], r.1))
  {
  }

  /** Pushing an operator after popping: one more operator, no more output height. */
  lemma PushOperator(d: Dialect, st: seq<Token>, out: seq<Token>, t: Token)
    requires IsOperator(d, t.kind) && OperatorStack(d, st) && Height(d, out) == Some(1 + OpCount(st))
    ensures SyInvariant(d, st + [t], out, false, ParenCount(st))
  {
    PushCount(st, t);
    assert forall j :: 0 <= j < |st| ==> (st + [t])[j] == st[j];
  }

  lemma CloseStep(d: Dialect, st: seq<Token>, out: seq<Token>, t: Token, depth: nat)
    requires t.kind == RParen && depth > 0 && SyInvariant(d, st, out, true, depth)
    ensures SyStep(d, st, out, t).Some?
    ensures var r := SyStep(d, st, out, t).value; SyInvariant(d, r.0, r.1, true, depth - 1)
  {
    var r := PopToParen(st, out);
    PopToParenHeight(d, st, out);
    assert r.0 != [];
    DropOpen(d, r.0, r.1);
    CloseValue(d, st, out, t);
  }

  lemma CloseValue(d: Dialect, st: seq<Token>, out: seq<Token>, t: Token)
    requires t.kind == RParen && ParenCount(st) > 0
    ensures var r := PopToParen(st, out); r.0 != [] && SyStep(d, st, out, t) == Some((r.0[..|r.0| - 1], r.1))
  {
    var r := PopToParen(st, out);
    assert r.0 != [];
  }

  /** Dropping the '(' that stopped the popping keeps the operators and the height. */
  lemma DropOpen(d: Dialect, st: seq<Token>, out: seq<Token>)
    requires st != [] && Last(st).kind == LParen
    requires OperatorStack(d, st) && Height(d, out) == Some(1 + OpCount(st))
    ensures SyInvariant(d, st[..|st| - 1], out, true, ParenCount(st) - 1)
  {
    DropParen(st);
    var rest := st[..|st| - 1];
    assert forall j :: 0 <= j < |rest| ==> rest[j] == st[j];
  }

  lemma {:induction false} SyRunWellFormed(d: Dialect, st: seq<Token>, out: seq<Token>, ts: seq<Token>, after: bool, depth: nat)
    requires WellFormedFrom(d, ts, after, depth) && SyInvariant(d, st, out, after, depth)
    ensures Closes(ts, ParenCount(st))
    ensures SyRun(d, st, out, ts).Ok? && ValidPostfix(d, SyRun(d, st, out, ts).value)
    decreases ts
  {
    WellFormedCloses(d, ts, after, depth);
    if ts == [] {
      var r := PopToParen(st, out);
      PopToParenHeight(d, st, out);
      assert r.0 == [] by {
        if r.0 != [] { DropParen(r.0); }
      }
    } else {
      var st', out', after', depth' := WellFormedStep(d, st, out, ts, after, depth);
      assert SyRun(d, st, out, ts) == SyRun(d, st', out', ts[1..]);
      SyRunWellFormed(d, st', out', ts[1..], after', depth');
    }
  }

  /** One token of well-formed input keeps the invariant and the input's well-formedness. */
  lemma WellFormedStep(d: Dialect, st: seq<Token>, out: seq<Token>, ts: seq<Token>, after: bool, depth: nat)
    returns (st': seq<Token>, out': seq<Token>, after': bool, depth': nat)
    requires ts != [] && WellFormedFrom(d, ts, after, depth) && SyInvariant(d, st, out, after, depth)
    ensures ts[0].kind == RParen ==> ParenCount(st) > 0
    ensures SyStep(d, st, out, ts[0]) == Some((st', out'))
    ensures WellFormedFrom(d, ts[1..], after', depth') && SyInvariant(d, st', out', after', depth')
  {
    var t := ts[0];
    if !after && IsOperand(t.kind) {
      OperandStep(d, st, out, t, depth);
      st', out', after', depth' := st, out + [t], true, depth;
    } else if !after {
      OpenStep(d, st, out, t, depth);
      st', out', after', depth' := st + [t], out, false, depth + 1;
    } else if IsOperator(d, t.kind) {
      OperatorStep(d, st, out, t, depth);
      st', out' := SyStep(d, st, out, t).value.0, SyStep(d, st, out, t).value.1;
      after', depth' := false, depth;
    } else {
      CloseStep(d, st, out, t, depth);
      st', out' := SyStep(d, st, out, t).value.0, SyStep(d, st, out, t).value.1;
      after', depth' := true, depth - 1;
    }
  }

  /**
   * On a well-formed infix formula the reordering never throws, and its output
   * is a well-formed postfix formula without parentheses whose operands come
   * in input order.
   */
  lemma ShuntingYardWellFormed(d: Dialect, infix: seq<Token>)
    requires WellFormedInfix(d, infix)
    ensures Closes(infix, 0)
    ensures ShuntingYard(d, infix).Ok?
    ensures ValidPostfix(d, ShuntingYard(d, infix).value)
    ensures NoParens(ShuntingYard(d, infix).value)
    ensures Operands(ShuntingYard(d, infix).value) == Operands(infix)
  {
    SyRunWellFormed(d, [], [], infix, false, 0);
    ShuntingYardKeeps(d, infix);
  }

  /**
   * `a op1 b op2 c`: op1 is emitted before c when it binds at least as
   * tightly as op2 (equal precedence groups to the left), after op2 otherwise.
   */
  lemma Associativity(d: Dialect, a: Token, op1: Token, b: Token, op2: Token, c: Token)
    requires IsOperand(a.kind) && IsOperand(b.kind) && IsOperand(c.kind)
    requires IsOperator(d, op1.kind) && IsOperator(d, op2.kind)
    ensures Closes([a, op1, b, op2, c], 0)
    ensures ShuntingYard(d, [a, op1, b, op2, c])
            == Ok(if Precedence(d, op1.kind) >= Precedence(d, op2.kind) then [a, b, op1, c, op2] else [a, b, c, op2, op1])
  {
    assert [a, op1, b, op2, c] == [a] + ([op1] + ([b] + [op2, c]));
    assert NoParens([op2, c]);
    FirstThree(d, a, op1, b, [op2, c]);
    if Precedence(d, op1.kind) >= Precedence(d, op2.kind) {
      GroupsLeft(d, a, op1, b, op2, c);
    } else {
      GroupsRight(d, a, op1, b, op2, c);
    }
  }

  lemma {:induction false} ClosesWithoutParens(ts: seq<Token>, open: nat)
    requires NoParens(ts)
    ensures Closes(ts, open)
  {
    if ts != [] {
      ClosesWithoutParens(ts[1..], open);
    }
  }

  lemma RunOperand(d: Dialect, st: seq<Token>, out: seq<Token>, t: Token, rest: seq<Token>)
    requires IsOperand(t.kind) && Closes([t] + rest, ParenCount(st))
    ensures Closes(rest, ParenCount(st))
    ensures SyRun(d, st, out, [t] + rest) == SyRun(d, st, out + [t], rest)
  {
    assert ([t] + rest)[1..] == rest;
  }

  lemma RunOperator(d: Dialect, st: seq<Token>, out: seq<Token>, t: Token, rest: seq<Token>)
    requires IsOperator(d, t.kind) && Closes([t] + rest, ParenCount(st))
    ensures var r := PopOperators(d, Precedence(d, t.kind), st, out);
      && ParenCount(r.0 + [t]) == ParenCount(st)
      && Closes(rest, ParenCount(st))
      && SyRun(d, st, out, [t] + rest) == SyRun(d, r.0 + [t], r.1, rest)
  {
    assert ([t] + rest)[1..] == rest;
    PushCount(PopOperators(d, Precedence(d, t.kind), st, out).0, t);
  }

  /** Flushing a one-operator stack emits that operator. */
  lemma FlushOne(x: Token, out: seq<Token>)
    requires x.kind != LParen
    ensures PopToParen([x], out).1 == out + [x]
  {
    assert [x][..0] == [];
  }

  /** Flushing a two-operator stack emits the top first. */
  lemma FlushTwo(x: Token, y: Token, out: seq<Token>)
    requires x.kind != LParen && y.kind != LParen
    ensures PopToParen([x, y], out).1 == out + [y, x]
  {
    assert [x, y][..1] == [x];
    FlushOne(x, out + [y]);
    assert out + [y] + [x] == out + [y, x];
  }

  /** An incoming operator that binds no tighter pops a lone stacked operator. */
  lemma PopsLone(d: Dialect, p: nat, x: Token, out: seq<Token>)
    requires x.kind != LParen && p <= Precedence(d, x.kind)
    ensures PopOperators(d, p, [x], out) == ([], out + [x])
  {
    assert [x][..0] == [];
  }

  /** `a op1 b` from the start: both operands go out, op1 waits on the stack. */
  lemma FirstThree(d: Dialect, a: Token, op1: Token, b: Token, rest: seq<Token>)
    requires IsOperand(a.kind) && IsOperator(d, op1.kind) && IsOperand(b.kind) && NoParens(rest)
    ensures Closes([a] + ([op1] + ([b] + rest)), 0) && ParenCount([op1]) == 0 && Closes(rest, 0)
    ensures ShuntingYard(d, [a] + ([op1] + ([b] + rest))) == SyRun(d, [op1], [a, b], rest)
  {
    assert NoParens([b] + rest) by {
      assert forall j :: 0 < j < |[b] + rest| ==> ([b] + rest)[j] == rest[j - 1];
    }
    FirstTwo(d, a, op1, [b] + rest);
    RunOperand(d, [op1], [a], b, rest);
    assert [a] + [b] == [a, b];
  }

  /** The first operand goes out and the first operator onto the empty stack. */
  lemma FirstTwo(d: Dialect, a: Token, op1: Token, rest: seq<Token>)
    requires IsOperand(a.kind) && IsOperator(d, op1.kind) && NoParens(rest)
    ensures Closes([a] + ([op1] + rest), 0) && ParenCount([op1]) == 0 && Closes(rest, 0)
    ensures ShuntingYard(d, [a] + ([op1] + rest)) == SyRun(d, [op1], [a], rest)
  {
    ClosesWithoutParens(rest, 0);
    assert Closes([op1] + rest, 0) by { assert ([op1] + rest)[1..] == rest; }
    assert Closes([a] + ([op1] + rest), 0) by { assert ([a] + ([op1] + rest))[1..] == [op1] + rest; }
    RunOperand(d, [], [], a, [op1] + rest);
    assert [] + [a] == [a];
    RunOperator(d, [], [a], op1, rest);
    assert [] + [op1] == [op1];
  }

  lemma GroupsLeft(d: Dialect, a: Token, op1: Token, b: Token, op2: Token, c: Token)
    requires IsOperand(a.kind) && IsOperand(b.kind) && IsOperand(c.kind)
    requires IsOperator(d, op1.kind) && IsOperator(d, op2.kind)
    requires Precedence(d, op1.kind) >= Precedence(d, op2.kind)
    requires ParenCount([op1]) == 0 && Closes([op2, c], 0)
    ensures SyRun(d, [op1], [a, b], [op2, c]) == Ok([a, b, op1, c, op2])
  {
    PopsLone(d, Precedence(d, op2.kind), op1, [a, b]);
    OperatorThenOperand(d, [op1], [a, b], op2, c);
    assert [] + [op2] == [op2] && [a, b] + [op1] == [a, b, op1];
    FlushOne(op2, [a, b, op1] + [c]);
    assert [a, b, op1] + [c] + [op2] == [a, b, op1, c, op2];
  }

  lemma GroupsRight(d: Dialect, a: Token, op1: Token, b: Token, op2: Token, c: Token)
    requires IsOperand(a.kind) && IsOperand(b.kind) && IsOperand(c.kind)
    requires IsOperator(d, op1.kind) && IsOperator(d, op2.kind)
    requires Precedence(d, op1.kind) < Precedence(d, op2.kind)
    requires ParenCount([op1]) == 0 && Closes([op2, c], 0)
    ensures SyRun(d, [op1], [a, b], [op2, c]) == Ok([a, b, c, op2, op1])
  {
    assert PopOperators(d, Precedence(d, op2.kind), [op1], [a, b]) == ([op1], [a, b]);
    OperatorThenOperand(d, [op1], [a, b], op2, c);
    assert [op1] + [op2] == [op1, op2];
    FlushTwo(op1, op2, [a, b] + [c]);
    assert [a, b] + [c] + [op2, op1] == [a, b, c, op2, op1];
  }

  /** The last two tokens `op c` of a sequence without parentheses, then the final flush. */
  lemma OperatorThenOperand(d: Dialect, st: seq<Token>, out: seq<Token>, op: Token, c: Token)
    requires IsOperator(d, op.kind) && IsOperand(c.kind) && Closes([op, c], ParenCount(st))
    ensures var r := PopOperators(d, Precedence(d, op.kind), st, out);
      SyRun(d, st, out, [op, c]) == Ok(PopToParen(r.0 + [op], r.1 + [c]).1)
  {
    var r := PopOperators(d, Precedence(d, op.kind), st, out);
    assert [op, c] == [op] + [c] && [c] == [c] + [];
    RunOperator(d, st, out, op, [c]);
    RunOperand(d, r.0 + [op], r.1, c, []);
  }
}
