/**
 * `RpnParser` of src/library/rpn.cpp: the tokenizer and the shunting-yard
 * algorithm of the rpn dialect (with '&', '|', "<=" and ">="). Each loop is
 * proved to compute the corresponding function of module Infix.
 */
module Rpn {
  import opened Wrappers
  import opened StringFuncs
  import opened Infix

  /**
   * `parse_literal(start, src)`: the name starting at the letter src[start]
   * runs over letters, digits and '_' up to the first other character (or
   * the string's terminating NUL).
   */
  method ParseLiteral(start: nat, src: string) returns (literal: string, length: nat)
    requires start < |src| && IsAlpha(src[start])
    ensures 1 <= length && start + length <= |src| && literal == src[start..start + length]
    ensures forall k :: start < k < start + length ==> IsWordChar(src[k])
    ensures !IsWordChar(At(src, start + length))
    ensures start + length == WordRunEnd(src, start + 1)
  {
    var i := start + 1;
    while i < |src| && IsWordChar(src[i])
      invariant start + 1 <= i <= |src|
      invariant forall k :: start < k < i ==> IsWordChar(src[k])
      invariant WordRunEnd(src, i) == WordRunEnd(src, start + 1)
    {
      i := i + 1;
    }
    literal := src[start..i];
    length := i - start;
  }

  /**
   * One pass of the loop of `RpnParser::tokenize`: "<=" and ">=" are read
   * before any one-character token, numbers start at a digit or '-', names
   * at a letter; `di` is how far the loop then advances.
   */
  method NextToken(w: string, i: nat) returns (token: Token, di: nat)
    requires i < |w| && Lex(RpnDialect, w, i).Some?
    ensures Lex(RpnDialect, w, i) == Some((token, i + di))
  {
    if w[i] == '<' && At(w, i + 1) == '=' {
      token, di := Token(LessEq, "<=", 0.0), 2;
    } else if w[i] == '>' && At(w, i + 1) == '=' {
      token, di := Token(MoreEq, ">=", 0.0), 2;
    } else if PrimitiveKind(RpnDialect, w[i]).Some? {
      token, di := Token(PrimitiveKind(RpnDialect, w[i]).value, [w[i]], 0.0), 1;
    } else if IsDigit(w[i]) || w[i] == '-' {
      var e := NumberEnd(w, i);
      token, di := Token(Number, w[i..e], NumberValue(w, i)), e - i;
    } else if IsAlpha(w[i]) {
      var literal, length := ParseLiteral(i, w);
      token, di := Token(Variable, literal, 0.0), length;
    } else {
      assert false;
    }
  }

  /**
   * `RpnParser::tokenize`: deletes blanks, then reads tokens left to right.
   * An unrecognised character makes the source loop spin forever, so every
   * character must be recognised.
   */
  method Tokenize(what: string) returns (result: seq<Token>)
    requires Lexable(RpnDialect, what)
    ensures Infix.Tokenize(RpnDialect, what) == Some(result)
  {
    result := TokenizeText(WithoutBlanks(what), Infix.Tokenize(RpnDialect, what).value);
  }

  /** The loop of `RpnParser::tokenize` over the blank-free text `w`, which yields `all`. */
  method TokenizeText(w: string, ghost all: seq<Token>) returns (result: seq<Token>)
    requires TokenizeFrom(RpnDialect, w, 0) == Some(all)
    ensures result == all
  {
    result := [];
    var i := 0;
    while i < |w|
      invariant Tokenized(RpnDialect, w, i, result, all)
      decreases |w| - i
    {
      var token, di := NextToken(w, i);
      TokenizeAdvance(RpnDialect, w, i, result, all, token, i + di);
      result := result + [token];
      i := i + di;
    }
    TokenizeDone(RpnDialect, w, result, all);
  }

  /** The inner loop of the ')' case and of the final flush (both dialects): pop until '('. */
  method PopToOpenParen(stack: seq<Token>, rpn: seq<Token>) returns (stack': seq<Token>, rpn': seq<Token>)
    ensures (stack', rpn') == PopToParen(stack, rpn)
  {
    stack', rpn' := stack, rpn;
    while stack' != [] && Last(stack').kind != LParen
      invariant PopToParen(stack', rpn') == PopToParen(stack, rpn)
      decreases |stack'|
    {
      rpn' := rpn' + [Last(stack')];
      stack' := stack'[..|stack'| - 1];
    }
  }

  /**
   * The inner loop of the operator case (the same in both dialects): pop the
   * operators that bind at least as tightly as the incoming one.
   */
  method PopBinding(d: Dialect, own: nat, stack: seq<Token>, rpn: seq<Token>) returns (stack': seq<Token>, rpn': seq<Token>)
    ensures (stack', rpn') == PopOperators(d, own, stack, rpn)
  {
    stack', rpn' := stack, rpn;
    while stack' != []
      invariant PopOperators(d, own, stack', rpn') == PopOperators(d, own, stack, rpn)
      decreases |stack'|
    {
      var top := Last(stack');
      if top.kind == LParen || own > Precedence(d, top.kind) {
        break;
      }
      rpn' := rpn' + [top];
      stack' := stack'[..|stack'| - 1];
    }
  }

  /**
   * `RpnParser::shunting_yard_algorithm`. A ')' with no '(' below it pops an
   * empty `std::stack`, which is undefined, so every ')' must close an
   * earlier '('.
   */
  method ShuntingYard(infix: seq<Token>) returns (r: Result<seq<Token>>)
    requires Closes(infix, 0)
    ensures r == Infix.ShuntingYard(RpnDialect, infix)
  {
    var rpn: seq<Token> := [];
    var stack: seq<Token> := [];
    var i := 0;
    while i < |infix|
      invariant i <= |infix|
      invariant Closes(infix[i..], ParenCount(stack))
      invariant SyRun(RpnDialect, stack, rpn, infix[i..]) == Infix.ShuntingYard(RpnDialect, infix)
    {
      var token := infix[i];
      assert infix[i..][0] == token && infix[i..][1..] == infix[i + 1..];
      ghost var next := SyStep(RpnDialect, stack, rpn, token);
      if IsOperand(token.kind) {
        rpn := rpn + [token];
      } else if token.kind == LParen {
        stack := stack + [token];
      } else if token.kind == RParen {
        stack, rpn := PopToOpenParen(stack, rpn);
        // pop '('
        stack := stack[..|stack| - 1];
      } else if IsOperator(RpnDialect, token.kind) {
        stack, rpn := PopBinding(RpnDialect, Precedence(RpnDialect, token.kind), stack, rpn);
        stack := stack + [token];
      } else {
        return Err("bad infix to rpn parse");
      }
      assert next == Some((stack, rpn));
      i := i + 1;
    }
    stack, rpn := PopToOpenParen(stack, rpn);
    return Ok(rpn);
  }
}
