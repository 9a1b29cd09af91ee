/**
 * `math::Parser` of src/math/parser.cpp: the tokenizer and the shunting-yard
 * algorithm of the math dialect (no '&', '|', "<=" or ">="), with the
 * postfix output collected in a queue. The name reader and the two popping
 * loops are the same code as in src/library/rpn.cpp and are shared with
 * module Rpn.
 */
module MathParser {
  import opened Wrappers
  import opened StringFuncs
  import opened Infix
  import Rpn

  /**
   * `details::is_floating(index, src)`: scans the digits and '-' from index
   * on, reading the string's terminating NUL at the end. The flag starts
   * true and is only ever set to true again, so the answer is always true.
   */
  method IsFloating(index: nat, src: string) returns (result: bool)
    requires index <= |src|
    ensures result
  {
    result := true;
    var i := index;
    var c := At(src, i);
    i := i + 1;
    if c == '.' {
      result := true;
    }
    while IsDigit(c) || c == '-'
      invariant index < i <= |src| + 1
      invariant result
      invariant IsDigit(c) || c == '-' ==> i <= |src|
      decreases |src| + 1 - i
    {
      c := At(src, i);
      i := i + 1;
      if c == '.' {
        result := true;
      }
    }
  }

  /** One pass of the loop of `Parser::tokenize`. */
  method NextToken(w: string, i: nat) returns (token: Token, di: nat)
    requires i < |w| && Lex(MathDialect, w, i).Some?
    ensures Lex(MathDialect, w, i) == Some((token, i + di))
  {
    if PrimitiveKind(MathDialect, w[i]).Some? {
      token, di := Token(PrimitiveKind(MathDialect, w[i]).value, [w[i]], 0.0), 1;
    } else if IsDigit(w[i]) || w[i] == '-' {
      var e := NumberEnd(w, i);
      token, di := Token(Number, w[i..e], NumberValue(w, i)), e - i;
    } else if IsAlpha(w[i]) {
      var literal, length := Rpn.ParseLiteral(i, w);
      token, di := Token(Variable, literal, 0.0), length;
    } else {
      assert false;
    }
  }

  /**
   * `Parser::tokenize`: deletes blanks, then reads tokens left to right. An
   * unrecognised character leaves the source loop without progress, so
   * every character must be recognised.
   */
  method Tokenize(what: string) returns (result: seq<Token>)
    requires Lexable(MathDialect, what)
    ensures Infix.Tokenize(MathDialect, what) == Some(result)
  {
    result := TokenizeText(WithoutBlanks(what), Infix.Tokenize(MathDialect, what).value);
  }

  /** The loop of `Parser::tokenize` over the blank-free text `w`, which yields `all`. */
  method TokenizeText(w: string, ghost all: seq<Token>) returns (result: seq<Token>)
    requires TokenizeFrom(MathDialect, w, 0) == Some(all)
    ensures result == all
  {
    result := [];
    var i := 0;
    while i < |w|
      invariant Tokenized(MathDialect, w, i, result, all)
      decreases |w| - i
    {
      var token, di := NextToken(w, i);
      TokenizeAdvance(MathDialect, w, i, result, all, token, i + di);
      result := result + [token];
      i := i + di;
    }
    TokenizeDone(MathDialect, w, result, all);
  }

  /**
   * `Parser::shunting_yard_algorithm`; the queue it fills is the sequence
   * returned. A ')' with no '(' below it pops an empty `std::stack`, which
   * is undefined, so every ')' must close an earlier '('.
   */
  method ShuntingYard(infix: seq<Token>) returns (r: Result<seq<Token>>)
    requires Closes(infix, 0)
    ensures r == Infix.ShuntingYard(MathDialect, infix)
  {
    var queue: seq<Token> := [];
    var stack: seq<Token> := [];
    var i := 0;
    while i < |infix|
      invariant i <= |infix|
      invariant Closes(infix[i..], ParenCount(stack))
      invariant SyRun(MathDialect, stack, queue, infix[i..]) == Infix.ShuntingYard(MathDialect, infix)
    {
      var token := infix[i];
      assert infix[i..][0] == token && infix[i..][1..] == infix[i + 1..];
      ghost var next := SyStep(MathDialect, stack, queue, token);
      if IsOperand(token.kind) {
        queue := queue + [token];
      } else if token.kind == LParen {
        stack := stack + [token];
      } else if token.kind == RParen {
        stack, queue := Rpn.PopToOpenParen(stack, queue);
        // pop '('
        stack := stack[..|stack| - 1];
      } else if IsOperator(MathDialect, token.kind) {
        stack, queue := Rpn.PopBinding(MathDialect, Precedence(MathDialect, token.kind), stack, queue);
        stack := stack + [token];
      } else {
        return Err("bad infix to rpn parse");
      }
      assert next == Some((stack, queue));
      i := i + 1;
    }
    stack, queue := Rpn.PopToOpenParen(stack, queue);
    return Ok(queue);
  }
}
