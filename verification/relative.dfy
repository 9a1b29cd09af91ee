/**
 * `RelativeStat` of src/zzz/stats/relative.cpp: a stat whose value is its
 * base plus a formula over other stats. Formulas are written in the rpn
 * dialect as `name:formula` parts separated by ';'; only the first letter
 * of a name matters: 'c' is a condition, 'f' the formula, 'm' a cap.
 *
 * The lookup table is a pointer to a live grid in the source; here it is
 * the grid's values by qualifier hash, taken when the table is attached.
 */
module RelativeStat {
  import opened Wrappers
  import opened Enums
  import opened StringFuncs
  import opened Infix
  import opened TemplateMath
  import opened JsonNode
  import opened StatBasic
  import Rpn

  // ------------------------------------------------------------ compiling formulas

  /**
   * The operator codes of `lib::math_ops`, which binds each operator token
   * to `switch_math_op` with the token's character; "<=" and ">=" are the
   * codes 0x80 and 0x81. Parentheses, numbers and names have no entry.
   */
  function MathOpCode(k: Kind): (c: Option<SChar>)
    ensures c.Some? <==> IsOperator(RpnDialect, k)
  {
    match k
    case Plus => Some(PlusCode)
    case Minus => Some(MinusCode)
    case Star => Some(StarCode)
    case Slash => Some(SlashCode)
    case Percent => Some(PercentCode)
    case Equal => Some(EqualCode)
    case Less => Some(LessCode)
    case More => Some(MoreCode)
    case And => Some(AndCode)
    case Or => Some(OrCode)
    case LessEq => Some(ToSChar(0x80))
    case MoreEq => Some(ToSChar(0x81))
    case _ => None
  }

  /** One token of the postfix output as a `StatToken`: names become stats, the rest keep their number. */
  function ToStatToken(t: Token): (r: StatToken)
    ensures r.kind == t.kind
    ensures t.kind == Variable ==> r.value == VariableValue(StatFromString(t.literal))
    ensures t.kind != Variable ==> r.value == NumberValue(t.number)
  {
    if t.kind == Variable then StatToken(Variable, VariableValue(StatFromString(t.literal)))
    else StatToken(t.kind, NumberValue(t.number))
  }

  function ToStatTokens(rpn: seq<Token>): (r: seq<StatToken>)
    ensures |r| == |rpn| && forall i :: 0 <= i < |rpn| ==> r[i] == ToStatToken(rpn[i])
  {
    seq(|rpn|, i requires 0 <= i < |rpn| => ToStatToken(rpn[i]))
  }

  /**
   * A formula text the source can compile: every character starts or
   * continues a token (otherwise the tokenizer loops forever) and every ')'
   * closes an earlier '(' (otherwise an empty stack is popped).
   */
  predicate Compilable(text: string)
  {
    Lexable(RpnDialect, text) && Closes(Infix.Tokenize(RpnDialect, text).value, 0)
  }

  /** The compiled formula: tokens, reordered to postfix, names resolved. */
  function Compile(text: string): (r: seq<StatToken>)
    requires Compilable(text)
  {
    TokenizedReorders(RpnDialect, text);
    ToStatTokens(Infix.ShuntingYard(RpnDialect, Infix.Tokenize(RpnDialect, text).value).value)
  }

  /** A `name:formula` part the source can handle: the ':' is there and the formula compiles. */
  predicate PartDefined(part: string)
  {
    |Split(part, ':')| >= 2 && Compilable(Split(part, ':')[1])
  }

  /** The key of a part: the first character of its name, NUL for an empty name. */
  function PartKey(part: string): char
    requires PartDefined(part)
  {
    Infix.At(Split(part, ':')[0], 0)
  }

  predicate SourceDefined(source: string)
  {
    var parts := Split(source, ';');
    forall i :: 0 <= i < |parts| ==> PartDefined(parts[i])
  }

  /** The parts from the first on, added to `acc` with `emplace`: a key already present is kept. */
  function AddParts(parts: seq<string>, acc: Formulas): Formulas
    requires forall i :: 0 <= i < |parts| ==> PartDefined(parts[i])
  {
    if parts == [] then acc
    else
      var key := PartKey(parts[0]);
      var next := if key in acc then acc else acc[key := Compile(Split(parts[0], ':')[1])];
      AddParts(parts[1..], next)
  }

  /** What `make_formulas(source)` returns. */
  function FormulasOf(source: string): Formulas
    requires SourceDefined(source)
  {
    AddParts(Split(source, ';'), map[])
  }

  /**
   * The body of the loop of `make_formulas` for one formula text: tokenize,
   * reorder, then turn each postfix token into a `StatToken`.
   */
  method CompileFormula(text: string) returns (temp: seq<StatToken>)
    requires Compilable(text)
    ensures temp == Compile(text)
  {
    var tokens := Rpn.Tokenize(text);
    TokenizedReorders(RpnDialect, text);
    var rpn := Rpn.ShuntingYard(tokens);
    var postfix := rpn.value;
    temp := [];
    for i := 0 to |postfix|
      invariant temp == ToStatTokens(postfix[..i])
    {
      var t := postfix[i];
      if t.kind == Variable {
        temp := temp + [StatToken(Variable, VariableValue(StatFromString(t.literal)))];
      } else {
        temp := temp + [StatToken(t.kind, NumberValue(t.number))];
      }
    }
    assert postfix[..|postfix|] == postfix;
  }

  /** `make_formulas(source)`: split on ';', then each part on ':'; the first part with a given key wins. */
  method MakeFormulas(source: string) returns (result: Formulas)
    requires SourceDefined(source)
    ensures result == FormulasOf(source)
  {
    var parts := SplitAsView(source, ';');
    result := map[];
    var i := 0;
    while i < |parts|
      invariant i <= |parts|
      invariant AddParts(parts[i..], result) == FormulasOf(source)
    {
      var splitted := SplitAsCopy(parts[i], ':');
      var temp := CompileFormula(splitted[1]);
      var key := Infix.At(splitted[0], 0);
      assert parts[i..][0] == parts[i] && parts[i..][1..] == parts[i + 1..];
      if key !in result {
        result := result[key := temp];
      }
      i := i + 1;
    }
  }

  /** Earlier entries are never replaced, and every part's key ends up present. */
  lemma {:induction false} AddPartsKeys(parts: seq<string>, acc: Formulas)
    requires forall i :: 0 <= i < |parts| ==> PartDefined(parts[i])
    ensures forall k :: k in acc ==> k in AddParts(parts, acc) && AddParts(parts, acc)[k] == acc[k]
    ensures forall i :: 0 <= i < |parts| ==> PartKey(parts[i]) in AddParts(parts, acc)
    ensures forall k :: k in AddParts(parts, acc) ==>
              k in acc || exists i :: 0 <= i < |parts| && PartKey(parts[i]) == k
    decreases |parts|
  {
    if parts != [] {
      var key := PartKey(parts[0]);
      var next := if key in acc then acc else acc[key := Compile(Split(parts[0], ':')[1])];
      AddPartsKeys(parts[1..], next);
      forall k | k in AddParts(parts, acc)
        ensures k in acc || exists i :: 0 <= i < |parts| && PartKey(parts[i]) == k
      {
        if k !in next {
          var i :| 0 <= i < |parts[1..]| && PartKey(parts[1..][i]) == k;
          assert PartKey(parts[i + 1]) == k;
        } else if k !in acc {
          assert PartKey(parts[0]) == k;
        }
      }
      forall i | 0 <= i < |parts| ensures PartKey(parts[i]) in AddParts(parts, acc) {
        if i > 0 { assert parts[i] == parts[1..][i - 1]; }
      }
    }
  }

  /** An entry already present survives the rest of the parts. */
  lemma {:induction false} AddPartsKeeps(parts: seq<string>, acc: Formulas, k: char)
    requires forall i :: 0 <= i < |parts| ==> PartDefined(parts[i])
    requires k in acc
    ensures k in AddParts(parts, acc) && AddParts(parts, acc)[k] == acc[k]
    decreases |parts|
  {
    if parts != [] {
      var key := PartKey(parts[0]);
      var next := if key in acc then acc else acc[key := Compile(Split(parts[0], ':')[1])];
      AddPartsKeeps(parts[1..], next, k);
    }
  }

  /** The formula kept under a key is the one of the first part carrying that key. */
  lemma {:induction false} AddPartsFirstWins(parts: seq<string>, acc: Formulas, j: nat)
    requires forall i :: 0 <= i < |parts| ==> PartDefined(parts[i])
    requires j < |parts| && PartKey(parts[j]) !in acc
    requires forall i :: 0 <= i < j ==> PartKey(parts[i]) != PartKey(parts[j])
    ensures PartKey(parts[j]) in AddParts(parts, acc)
    ensures AddParts(parts, acc)[PartKey(parts[j])] == Compile(Split(parts[j], ':')[1])
    decreases |parts|
  {
    var key := PartKey(parts[0]);
    var next := if key in acc then acc else acc[key := Compile(Split(parts[0], ':')[1])];
    assert AddParts(parts, acc) == AddParts(parts[1..], next);
    if j == 0 {
      AddPartsKeeps(parts[1..], next, key);
    } else {
      assert PartKey(parts[0]) != PartKey(parts[j]);
      assert parts[j] == parts[1..][j - 1];
      forall i | 0 <= i < j - 1 ensures PartKey(parts[1..][i]) != PartKey(parts[1..][j - 1]) {
        assert parts[1..][i] == parts[i + 1];
      }
      AddPartsFirstWins(parts[1..], next, j - 1);
    }
  }

  /**
   * The keys of the compiled formulas are exactly the parts' keys, and each
   * key holds the formula of the first part that carries it.
   */
  lemma FormulasOfSource(source: string, j: nat)
    requires SourceDefined(source)
    requires j < |Split(source, ';')|
    requires forall i :: 0 <= i < j ==> PartKey(Split(source, ';')[i]) != PartKey(Split(source, ';')[j])
    ensures forall k :: k in FormulasOf(source) <==>
              exists i :: 0 <= i < |Split(source, ';')| && PartKey(Split(source, ';')[i]) == k
    ensures FormulasOf(source)[PartKey(Split(source, ';')[j])] == Compile(Split(Split(source, ';')[j], ':')[1])
  {
    var parts := Split(source, ';');
    assert FormulasOf(source) == AddParts(parts, map[]);
    AddPartsKeys(parts, map[]);
    AddPartsFirstWins(parts, map[], j);
  }

  // ------------------------------------------------------------ evaluating

  /** `variables.get_value({id, Universal})`: the grid's value, 0 for a missing stat. */
  function GridValue(table: map<nat, real>, id: Byte): real
  {
    var h := Hash(Qualifier(id, Universal));
    if h in table then table[h] else 0.0
  }

  /**
   * The height of the evaluation stack after `ts`, or None once a token
   * that pops two values finds fewer: that pop is undefined in the source.
   */
  function Height(ts: seq<StatToken>): Option<nat>
  {
    if ts == [] then Some(0)
    else
      var h := Height(ts[..|ts| - 1]);
      if h.None? then None
      else if IsOperand(ts[|ts| - 1].kind) then Some(h.value + 1)
      else if h.value >= 2 then Some(h.value - 1)
      else None
  }

  /** `eval` runs without an undefined pop and ends on a stack that has a top. */
  predicate Runnable(ts: seq<StatToken>) { Height(ts).Some? && Height(ts).value >= 1 }

  /** An operator applied through `lib::math_ops`; a kind without an entry throws. */
  function ApplyOperator(k: Kind, lhs: real, rhs: real): Result<real>
  {
    var code := MathOpCode(k);
    if code.None? then Err("wrong rpn token") else SwitchMathOp(lhs, rhs, code.value)
  }

  /** A number or a stat's value pushed; reading the wrong payload alternative throws. */
  function Push(st: seq<real>, t: StatToken, table: map<nat, real>): Result<seq<real>>
    requires IsOperand(t.kind)
  {
    if t.kind == Number then
      if t.value.NumberValue? then Ok(st + [t.value.number]) else Err("bad_variant_access")
    else
      if t.value.VariableValue? then Ok(st + [GridValue(table, t.value.variable)]) else Err("bad_variant_access")
  }

  /** The two top values popped (rhs first) and the operator's result pushed. */
  function Combine(st: seq<real>, k: Kind): Result<seq<real>>
    requires |st| >= 2
  {
    var v := ApplyOperator(k, st[|st| - 2], st[|st| - 1]);
    if v.Err? then Err(v.error) else Ok(st[..|st| - 2] + [v.value])
  }

  /** One token of `eval`. */
  function Step(st: Result<seq<real>>, t: StatToken, table: map<nat, real>): Result<seq<real>>
  {
    if st.Err? then st
    else if IsOperand(t.kind) then Push(st.value, t, table)
    else if |st.value| < 2 then Err("stack underflow")
    else Combine(st.value, t.kind)
  }

  /** The stack after the whole sequence, or the first error. */
  function Stack(ts: seq<StatToken>, table: map<nat, real>): Result<seq<real>>
  {
    if ts == [] then Ok([]) else Step(Stack(ts[..|ts| - 1], table), ts[|ts| - 1], table)
  }

  /** What `eval(rpn, variables)` returns or throws. */
  function EvalSpec(ts: seq<StatToken>, table: map<nat, real>): Result<real>
    requires Runnable(ts)
  {
    StackHeight(ts, table);
    var st := Stack(ts, table);
    if st.Err? then Err(st.error)
    else if |st.value| > 1 then Err("remaining stack size after rpn eval is greater than one")
    else Ok(st.value[0])
  }

  /** The stack holds as many values as the height says. */
  lemma {:induction false} StackHeight(ts: seq<StatToken>, table: map<nat, real>)
    requires Height(ts).Some?
    ensures Stack(ts, table).Ok? ==> |Stack(ts, table).value| == Height(ts).value
  {
    if ts != [] {
      StackHeight(ts[..|ts| - 1], table);
    }
  }

  /** An error stays an error, with its message, whatever follows. */
  lemma {:induction false} StackErrorSticks(ts: seq<StatToken>, i: nat, table: map<nat, real>)
    requires i <= |ts| && Stack(ts[..i], table).Err?
    ensures Stack(ts, table) == Stack(ts[..i], table)
    decreases |ts| - i
  {
    if i < |ts| {
      assert ts[..i + 1][..i] == ts[..i];
      StackErrorSticks(ts, i + 1, table);
    } else {
      assert ts[..i] == ts;
    }
  }

  /** One more token: the stack and the height advance by one step. */
  lemma StackNext(ts: seq<StatToken>, i: nat, table: map<nat, real>)
    requires i < |ts| && Height(ts).Some?
    ensures Stack(ts[..i + 1], table) == Step(Stack(ts[..i], table), ts[i], table)
    ensures Height(ts[..i + 1]).Some?
    ensures Height(ts[..i]).Some? && Height(ts[..i + 1]).value ==
              if IsOperand(ts[i].kind) then Height(ts[..i]).value + 1 else Height(ts[..i]).value - 1
    ensures !IsOperand(ts[i].kind) ==> Height(ts[..i]).value >= 2
  {
    assert ts[..i + 1][..i] == ts[..i];
    HeightPrefix(ts, i + 1);
  }

  lemma HeightPrefix(ts: seq<StatToken>, i: nat)
    requires i <= |ts| && Height(ts).Some?
    ensures Height(ts[..i]).Some?
    decreases |ts| - i
  {
    if i < |ts| {
      assert ts[..i + 1][..i] == ts[..i];
      HeightPrefix(ts, i + 1);
    } else {
      assert ts[..i] == ts;
    }
  }

  /**
   * One pass of the loop of `eval`: a number or a stat's value is pushed; an
   * operator pops rhs, then lhs, and pushes `math_ops[kind](lhs, rhs)`.
   */
  method EvalToken(stack: seq<real>, t: StatToken, table: map<nat, real>) returns (r: Result<seq<real>>)
    requires !IsOperand(t.kind) ==> |stack| >= 2
    ensures r == Step(Ok(stack), t, table)
    ensures r.Ok? ==> |r.value| == if IsOperand(t.kind) then |stack| + 1 else |stack| - 1
  {
    if t.kind == Number {
      if !t.value.NumberValue? {
        return Err("bad_variant_access");
      }
      return Ok(stack + [t.value.number]);
    } else if t.kind == Variable {
      if !t.value.VariableValue? {
        return Err("bad_variant_access");
      }
      return Ok(stack + [GridValue(table, t.value.variable)]);
    }
    var rest := stack;
    var rhs := rest[|rest| - 1];
    rest := rest[..|rest| - 1];
    var lhs := rest[|rest| - 1];
    rest := rest[..|rest| - 1];
    assert lhs == stack[|stack| - 2] && rest == stack[..|stack| - 2];
    var op := MathOpCode(t.kind);
    if op.None? {
      return Err("wrong rpn token");
    }
    var v := SwitchMathOp(lhs, rhs, op.value);
    if v.Err? {
      return Err(v.error);
    }
    return Ok(rest + [v.value]);
  }

  /**
   * `eval(rpn, variables)`: drives a stack of doubles over the postfix
   * tokens; afterwards a stack with more than one value throws.
   */
  method Eval(rpn: seq<StatToken>, table: map<nat, real>) returns (r: Result<real>)
    requires Runnable(rpn)
    ensures r == EvalSpec(rpn, table)
  {
    var stack: seq<real> := [];
    var i := 0;
    while i < |rpn|
      invariant i <= |rpn|
      invariant Stack(rpn[..i], table) == Ok(stack)
      invariant Height(rpn[..i]) == Some(|stack|)
    {
      StackNext(rpn, i, table);
      var next := EvalToken(stack, rpn[i], table);
      if next.Err? {
        EvalStopsAt(rpn, i + 1, table);
        return Err(next.error);
      }
      stack := next.value;
      i := i + 1;
    }
    EvalEnds(rpn, stack, table);
    if |stack| > 1 {
      return Err("remaining stack size after rpn eval is greater than one");
    }
    return Ok(stack[0]);
  }

  /** The first failing token decides what `eval` throws. */
  lemma EvalStopsAt(rpn: seq<StatToken>, i: nat, table: map<nat, real>)
    requires Runnable(rpn) && i <= |rpn| && Stack(rpn[..i], table).Err?
    ensures EvalSpec(rpn, table) == Err(Stack(rpn[..i], table).error)
  {
    StackErrorSticks(rpn, i, table);
  }

  /** A stack that survives every token is checked for a single value. */
  lemma EvalEnds(rpn: seq<StatToken>, stack: seq<real>, table: map<nat, real>)
    requires Runnable(rpn) && Stack(rpn[..|rpn|], table) == Ok(stack) && Height(rpn[..|rpn|]) == Some(|stack|)
    ensures |stack| >= 1
    ensures EvalSpec(rpn, table) ==
              if |stack| > 1 then Err("remaining stack size after rpn eval is greater than one") else Ok(stack[0])
  {
    assert rpn[..|rpn|] == rpn;
  }


  // ------------------------------------------------------------ formulas as trees

  /**
   * The reference meaning of a formula: an expression tree over numbers,
   * stats and binary operators, evaluated left operand first.
   */
  datatype Expr = Const(number: real) | StatRef(id: Byte) | Apply(kind: Kind, lhs: Expr, rhs: Expr)

  function EvalTree(e: Expr, table: map<nat, real>): Result<real>
  {
    match e
    case Const(n) => Ok(n)
    case StatRef(id) => Ok(GridValue(table, id))
    case Apply(k, l, r) =>
      var a :- EvalTree(l, table);
      var b :- EvalTree(r, table);
      ApplyOperator(k, a, b)
  }

  /** An operator node carries an operator, not an operand kind. */
  predicate WellKinded(e: Expr)
  {
    match e
    case Const(_) => true
    case StatRef(_) => true
    case Apply(k, l, r) => !IsOperand(k) && WellKinded(l) && WellKinded(r)
  }

  /** The postfix form of a tree: both operands, then the operator. */
  function Postfix(e: Expr): seq<StatToken>
  {
    match e
    case Const(n) => [StatToken(Number, NumberValue(n))]
    case StatRef(id) => [StatToken(Variable, VariableValue(id))]
    case Apply(k, l, r) => Postfix(l) + Postfix(r) + [StatToken(k, NumberValue(0.0))]
  }

  lemma StackAppendOne(ts: seq<StatToken>, t: StatToken, table: map<nat, real>)
    ensures Stack(ts + [t], table) == Step(Stack(ts, table), t, table)
  {
    assert (ts + [t])[..|ts|] == ts;
  }

  lemma {:induction false} StackOfErr(ts: seq<StatToken>, us: seq<StatToken>, table: map<nat, real>)
    requires Stack(ts, table).Err?
    ensures Stack(ts + us, table) == Stack(ts, table)
  {
    StackErrorSticks(ts + us, |ts|, table);
    assert (ts + us)[..|ts|] == ts;
  }

  /**
   * Evaluating the postfix form of a tree on top of any stack pushes the
   * tree's value, or stops with the tree's first error.
   */
  lemma {:induction false} EvalPostfix(ts: seq<StatToken>, e: Expr, table: map<nat, real>)
    requires WellKinded(e) && Stack(ts, table).Ok?
    ensures EvalTree(e, table).Ok? ==>
              Stack(ts + Postfix(e), table) == Ok(Stack(ts, table).value + [EvalTree(e, table).value])
    ensures EvalTree(e, table).Err? ==> Stack(ts + Postfix(e), table) == Err(EvalTree(e, table).error)
    decreases e, 1
  {
    match e
    case Const(n) =>
      StackAppendOne(ts, StatToken(Number, NumberValue(n)), table);
    case StatRef(id) =>
      StackAppendOne(ts, StatToken(Variable, VariableValue(id)), table);
    case Apply(k, l, r) =>
      EvalPostfixApply(ts, k, l, r, table);
  }

  /** The `Apply` case of `EvalPostfix`: both operands, then the operator. */
  lemma {:induction false} EvalPostfixApply(ts: seq<StatToken>, k: Kind, l: Expr, r: Expr, table: map<nat, real>)
    requires WellKinded(Apply(k, l, r)) && Stack(ts, table).Ok?
    ensures EvalTree(Apply(k, l, r), table).Ok? ==>
              Stack(ts + Postfix(Apply(k, l, r)), table) == Ok(Stack(ts, table).value + [EvalTree(Apply(k, l, r), table).value])
    ensures EvalTree(Apply(k, l, r), table).Err? ==>
              Stack(ts + Postfix(Apply(k, l, r)), table) == Err(EvalTree(Apply(k, l, r), table).error)
    decreases Apply(k, l, r), 0
  {
    var op := StatToken(k, NumberValue(0.0));
    var left := ts + Postfix(l);
    var mid := left + Postfix(r);
    PostfixOfApply(ts, k, l, r);
    EvalPostfix(ts, l, table);
    if EvalTree(l, table).Err? {
      StackOfErr(left, Postfix(r) + [op], table);
    } else {
      EvalPostfix(left, r, table);
      if EvalTree(r, table).Err? {
        StackOfErr(mid, [op], table);
      } else {
        ApplyStep(mid, k, Stack(ts, table).value, EvalTree(l, table).value, EvalTree(r, table).value, table);
      }
    }
  }

  /** The tokens of an application, split after each operand. */
  lemma PostfixOfApply(ts: seq<StatToken>, k: Kind, l: Expr, r: Expr)
    ensures ts + Postfix(Apply(k, l, r)) == ts + Postfix(l) + Postfix(r) + [StatToken(k, NumberValue(0.0))]
    ensures ts + Postfix(Apply(k, l, r)) == (ts + Postfix(l)) + (Postfix(r) + [StatToken(k, NumberValue(0.0))])
  {
  }

  /** The operator token after its two operands' values. */
  lemma ApplyStep(mid: seq<StatToken>, k: Kind, before: seq<real>, a: real, b: real, table: map<nat, real>)
    requires !IsOperand(k) && Stack(mid, table) == Ok(before + [a] + [b])
    ensures ApplyOperator(k, a, b).Ok? ==>
              Stack(mid + [StatToken(k, NumberValue(0.0))], table) == Ok(before + [ApplyOperator(k, a, b).value])
    ensures ApplyOperator(k, a, b).Err? ==>
              Stack(mid + [StatToken(k, NumberValue(0.0))], table) == Err(ApplyOperator(k, a, b).error)
  {
    StackAppendOne(mid, StatToken(k, NumberValue(0.0)), table);
    var st := before + [a] + [b];
    assert st[..|st| - 2] == before;
  }

  lemma {:induction false} PostfixHeight(ts: seq<StatToken>, e: Expr)
    requires WellKinded(e) && Height(ts).Some?
    ensures Height(ts + Postfix(e)) == Some(Height(ts).value + 1)
    decreases e
  {
    match e
    case Const(n) =>
      HeightAppendOne(ts, StatToken(Number, NumberValue(n)));
    case StatRef(id) =>
      HeightAppendOne(ts, StatToken(Variable, VariableValue(id)));
    case Apply(k, l, r) =>
      var op := StatToken(k, NumberValue(0.0));
      PostfixHeight(ts, l);
      PostfixHeight(ts + Postfix(l), r);
      PostfixOfApply(ts, k, l, r);
      HeightAppendOne(ts + Postfix(l) + Postfix(r), op);
  }

  lemma HeightAppendOne(ts: seq<StatToken>, t: StatToken)
    requires Height(ts).Some?
    ensures Height(ts + [t]) ==
              if IsOperand(t.kind) then Some(Height(ts).value + 1)
              else if Height(ts).value >= 2 then Some(Height(ts).value - 1)
              else None
  {
    assert (ts + [t])[..|ts|] == ts;
  }

  /**
   * A formula the tokenizer reads as a well-formed infix expression
   * compiles to a sequence `eval` runs without an undefined pop and ends
   * with exactly one value, so it never throws for a leftover stack.
   */
  lemma {:induction false} CompiledHeight(rpn: seq<Token>)
    requires Infix.Height(RpnDialect, rpn).Some?
    ensures Height(ToStatTokens(rpn)) == Infix.Height(RpnDialect, rpn)
  {
    if rpn != [] {
      var init, t := rpn[..|rpn| - 1], rpn[|rpn| - 1];
      assert rpn == init + [t];
      Infix.HeightAppend(RpnDialect, init, t);
      CompiledHeight(init);
      CompiledAppend(init, t);
      CompiledStep(ToStatTokens(init), t);
    }
  }

  /** One more compiled token moves the height exactly as the rpn token does. */
  lemma CompiledStep(ts: seq<StatToken>, t: Token)
    requires Height(ts).Some? && Infix.HeightStep(RpnDialect, Height(ts), t).Some?
    ensures Height(ts + [ToStatToken(t)]) == Infix.HeightStep(RpnDialect, Height(ts), t)
  {
    HeightAppendOne(ts, ToStatToken(t));
  }

  lemma CompiledAppend(init: seq<Token>, t: Token)
    ensures ToStatTokens(init + [t]) == ToStatTokens(init) + [ToStatToken(t)]
  {
  }

  lemma WellFormedFormulaRuns(text: string)
    requires Lexable(RpnDialect, text) && WellFormedInfix(RpnDialect, Infix.Tokenize(RpnDialect, text).value)
    ensures Compilable(text)
    ensures Height(Compile(text)) == Some(1)
  {
    var ts := Infix.Tokenize(RpnDialect, text).value;
    ShuntingYardWellFormed(RpnDialect, ts);
    CompiledHeight(Infix.ShuntingYard(RpnDialect, ts).value);
  }

  // ------------------------------------------------------------ the stat

  /** Every formula the stat holds can be evaluated without undefined behaviour. */
  predicate FormulasRunnable(f: Formulas)
  {
    forall k :: k in f ==> Runnable(f[k])
  }

  function Min(a: real, b: real): real { if a <= b then a else b }

  /**
   * `RelativeStat::value()`. Without a lookup table it throws. A 'c'
   * formula that evaluates to zero yields the base alone; otherwise the 'f'
   * formula (whose absence makes `at` throw), capped by 'm' when present,
   * is added to the base.
   */
  function Value(s: Stat): (r: Result<real>)
    requires s.Relative? && FormulasRunnable(s.formulas)
    ensures s.lookup.None? ==> r.Err?
    ensures r.Ok? ==> s.lookup.Some?
  {
    if s.lookup.None? then Err("you have to specify lookup_table first")
    else
      var table := s.lookup.value;
      var f := s.formulas;
      var off :- if 'c' in f then (var c :- EvalSpec(f['c'], table); Ok(c == 0.0)) else Ok(false);
      if off then Ok(s.base)
      else if 'f' !in f then Err("map::at")
      else
        var calculated :- EvalSpec(f['f'], table);
        if 'm' in f then
          var max :- EvalSpec(f['m'], table);
          Ok(s.base + Min(calculated, max))
        else Ok(s.base + calculated)
  }

  /** A condition that evaluates to zero switches the formula off: the value is the base. */
  lemma ConditionOff(s: Stat)
    requires s.Relative? && FormulasRunnable(s.formulas) && s.lookup.Some?
    requires 'c' in s.formulas && EvalSpec(s.formulas['c'], s.lookup.value) == Ok(0.0)
    ensures Value(s) == Ok(s.base)
  {
  }

  /**
   * Otherwise the value is the base plus 'f', and never more than the base
   * plus the cap 'm' when there is one.
   */
  lemma FormulaOn(s: Stat)
    requires s.Relative? && FormulasRunnable(s.formulas) && s.lookup.Some?
    requires 'c' in s.formulas ==> EvalSpec(s.formulas['c'], s.lookup.value).Ok? &&
                                    EvalSpec(s.formulas['c'], s.lookup.value).value != 0.0
    requires 'f' in s.formulas && EvalSpec(s.formulas['f'], s.lookup.value).Ok?
    requires 'm' in s.formulas ==> EvalSpec(s.formulas['m'], s.lookup.value).Ok?
    ensures Value(s).Ok?
    ensures 'm' !in s.formulas ==> Value(s).value == s.base + EvalSpec(s.formulas['f'], s.lookup.value).value
    ensures 'm' in s.formulas ==>
              Value(s).value <= s.base + EvalSpec(s.formulas['m'], s.lookup.value).value &&
              Value(s).value <= s.base + EvalSpec(s.formulas['f'], s.lookup.value).value
  {
  }

  /** Without an 'f' formula and with the condition on, `at('f')` throws. */
  lemma MissingFormula(s: Stat)
    requires s.Relative? && FormulasRunnable(s.formulas) && s.lookup.Some?
    requires 'c' !in s.formulas && 'f' !in s.formulas
    ensures Value(s).Err?
  {
  }

  /** `RelativeStat::lookup_table(stats)`: attaches the grid's values; nothing else changes. */
  function WithLookup(s: Stat, table: map<nat, real>): (r: Stat)
    requires s.Relative?
    ensures r.Relative? && r.lookup == Some(table)
    ensures r.q == s.q && r.conditional == s.conditional && r.base == s.base && r.formulas == s.formulas
  {
    s.(lookup := Some(table))
  }

  /**
   * `RelativeStat::add_as_copy(another)`: against a regular stat, a fresh
   * relative stat with the summed base and this stat's qualifier, flag and
   * formulas (and no lookup table); against a relative stat it throws.
   */
  function AddAsCopy(self: Stat, another: Stat): (r: Result<Stat>)
    requires self.Relative?
    ensures r.Ok? <==> another.Regular?
    ensures r.Ok? ==> r.value.Relative? && r.value.q == self.q && r.value.conditional == self.conditional
    ensures r.Ok? ==> r.value.base == self.base + another.base && r.value.formulas == self.formulas
    ensures r.Ok? ==> r.value.lookup.None?
  {
    match another
    case Regular(_, _, b) => Ok(Relative(self.q, self.conditional, self.base + b, self.formulas, None))
    case Relative(_, _, _, _, _) => Err("TODO")
  }

  /** `RelativeStat::make(id, tag, conditional, base, source)`: formulas compiled, no lookup table yet. */
  function Make(id: Byte, tag: Byte, conditional: bool, base: real, source: string): (s: Stat)
    requires SourceDefined(source)
    ensures s.Relative? && Type(s) == 2 && s.lookup.None?
    ensures s.q == Qualifier(id, tag) && s.conditional == conditional && s.base == base
    ensures s.formulas == FormulasOf(source)
  {
    Relative(Qualifier(id, tag), conditional, base, FormulasOf(source), None)
  }

  /** The formula text `make_from` would compile, when the entry has that shape. */
  predicate MakeFromDefined(entry: seq<Node>)
  {
    && (|entry| == 4 && entry[3].String? ==> SourceDefined(entry[3].str))
    && (|entry| == 5 && entry[4].String? ==> SourceDefined(entry[4].str))
  }

  /**
   * `RelativeStat::make_from(array)`: `[id, conditional, base, formulas]`
   * under the Universal tag, or `[id, tag, conditional, base, formulas]`;
   * a wrong JSON type throws, any other length throws.
   */
  function MakeFrom(entry: seq<Node>): (r: Result<Stat>)
    requires MakeFromDefined(entry)
    ensures r.Ok? ==> |entry| == 4 || |entry| == 5
    ensures r.Ok? ==> r.value.Relative? && r.value.lookup.None?
    ensures r.Ok? && |entry| == 4 ==> r.value.q.tag == Universal
    ensures |entry| == 4 && entry[0].String? && entry[1].Bool? && entry[2].Floating? && entry[3].String? ==>
              r == Ok(Make(StatFromString(entry[0].str), Universal, entry[1].boolean, entry[2].floating, entry[3].str))
    ensures |entry| == 5 && entry[0].String? && entry[1].String? && entry[2].Bool? && entry[3].Floating? &&
            entry[4].String? ==>
              r == Ok(Make(StatFromString(entry[0].str), TagFromString(entry[1].str), entry[2].boolean,
                           entry[3].floating, entry[4].str))
  {
    if |entry| == 4 then
      var id :- AsString(entry[0]);
      var conditional :- AsBool(entry[1]);
      var base :- AsFloating(entry[2]);
      var source :- AsString(entry[3]);
      Ok(Make(StatFromString(id), Universal, conditional, base, source))
    else if |entry| == 5 then
      var id :- AsString(entry[0]);
      var tag :- AsString(entry[1]);
      var conditional :- AsBool(entry[2]);
      var base :- AsFloating(entry[3]);
      var source :- AsString(entry[4]);
      Ok(Make(StatFromString(id), TagFromString(tag), conditional, base, source))
    else Err("wrong arguments")
  }
}
