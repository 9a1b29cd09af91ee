/**
 * `switch_math_op` of src/library/template_math.hpp: one binary operator,
 * selected by a character code, applied to two numbers.
 *
 * Numbers are reals. The operator code is a C `char`, which is signed on
 * the targets the project builds for, so it is modelled as an integer in
 * [-128, 127].
 */
module TemplateMath {
  import opened Wrappers

  newtype SChar = x: int | -128 <= x < 128

  /** A code point below 0x100 read back through a signed `char`. */
  function ToSChar(code: int): (c: SChar)
    requires 0 <= code < 256
    ensures (c as int) % 256 == code
  {
    if code < 128 then code as SChar else (code - 256) as SChar
  }

  const PlusCode: SChar := 43      // '+'
  const MinusCode: SChar := 45     // '-'
  const StarCode: SChar := 42      // '*'
  const SlashCode: SChar := 47     // '/'
  const PercentCode: SChar := 37   // '%'
  const EqualCode: SChar := 61     // '='
  const LessCode: SChar := 60      // '<'
  const MoreCode: SChar := 62      // '>'
  const AndCode: SChar := 38       // '&'
  const OrCode: SChar := 124       // '|'

  /** The codes the switch has a reachable case for. */
  const OperatorCodes: set<SChar> :=
    {PlusCode, MinusCode, StarCode, SlashCode, PercentCode, EqualCode,
     LessCode, MoreCode, AndCode, OrCode}

  /** DBL_EPSILON, 2^-52. */
  const DblEpsilon: real := 1.0 / 4503599627370496.0

  function Abs(x: real): real { if x < 0.0 then -x else x }

  /** Rounding toward zero. */
  function Trunc(x: real): (t: int)
    ensures 0.0 <= x ==> t as real <= x < t as real + 1.0
    ensures x < 0.0 ==> t as real - 1.0 < x <= t as real
  {
    if 0.0 <= x then x.Floor else -((-x).Floor)
  }

  /** `std::fmod` on exact reals: x minus y times the truncated quotient. */
  function Fmod(x: real, y: real): real
    requires y != 0.0
  {
    x - (Trunc(x / y) as real) * y
  }

  function BoolToReal(b: bool): (r: real)
    ensures r == 1.0 <==> b
    ensures r == 0.0 <==> !b
  {
    if b then 1.0 else 0.0
  }

  /**
   * `switch_math_op(lhs, rhs, code)`. An unknown code throws. A zero
   * divisor for '/' or '%' gives an IEEE infinity or NaN in the source; the
   * model reports it as an error value.
   */
  function SwitchMathOp(lhs: real, rhs: real, code: SChar): (r: Result<real>)
    ensures r.Ok? <==> code in OperatorCodes && !(code in {SlashCode, PercentCode} && rhs == 0.0)
    ensures r.Ok? && code in {EqualCode, LessCode, MoreCode, AndCode, OrCode} ==>
              r.value == 0.0 || r.value == 1.0
  {
    if code == PlusCode then Ok(lhs + rhs)
    else if code == MinusCode then Ok(lhs - rhs)
    else if code == StarCode then Ok(lhs * rhs)
    else if code == SlashCode then (if rhs == 0.0 then Err("non-finite quotient") else Ok(lhs / rhs))
    else if code == PercentCode then (if rhs == 0.0 then Err("non-finite remainder") else Ok(Fmod(lhs, rhs)))
    else if code == EqualCode then Ok(BoolToReal(Abs(lhs - rhs) < DblEpsilon))
    else if code == LessCode then Ok(BoolToReal(lhs < rhs))
    else if code == MoreCode then Ok(BoolToReal(lhs > rhs))
    else if code == AndCode then Ok(BoolToReal(lhs != 0.0 && rhs != 0.0))
    else if code == OrCode then Ok(BoolToReal(lhs != 0.0 || rhs != 0.0))
    else Err("this math operator doesn't exist")
  }

  /** The four arithmetic codes compute the exact arithmetic result. */
  lemma Arithmetic(lhs: real, rhs: real)
    ensures SwitchMathOp(lhs, rhs, PlusCode) == Ok(lhs + rhs)
    ensures SwitchMathOp(lhs, rhs, MinusCode) == Ok(lhs - rhs)
    ensures SwitchMathOp(lhs, rhs, StarCode) == Ok(lhs * rhs)
  {
    assert SwitchMathOp(lhs, rhs, StarCode).Ok?;
  }

  /** '/' by a non-zero divisor is the exact quotient. */
  lemma Division(lhs: real, rhs: real)
    requires rhs != 0.0
    ensures SwitchMathOp(lhs, rhs, SlashCode) == Ok(lhs / rhs)
    ensures SwitchMathOp(lhs, rhs, SlashCode).value * rhs == lhs
  {
  }

  /**
   * '%' leaves a remainder that has the dividend's sign, is smaller than the
   * divisor in magnitude, and completes an integral multiple of the divisor.
   */
  lemma Remainder(lhs: real, rhs: real)
    requires rhs != 0.0
    ensures SwitchMathOp(lhs, rhs, PercentCode) == Ok(Fmod(lhs, rhs))
    ensures Abs(Fmod(lhs, rhs)) < Abs(rhs)
    ensures lhs >= 0.0 ==> Fmod(lhs, rhs) >= 0.0
    ensures lhs <= 0.0 ==> Fmod(lhs, rhs) <= 0.0
    ensures lhs == Trunc(lhs / rhs) as real * rhs + Fmod(lhs, rhs)
  {
    var q := lhs / rhs;
    var f := q - Trunc(q) as real;
    assert Fmod(lhs, rhs) == f * rhs by {
      assert lhs == q * rhs;
    }
    SmallFactor(f, rhs);
    SignOfQuotient(lhs, rhs);
    assert (q >= 0.0 ==> f >= 0.0) && (q <= 0.0 ==> f <= 0.0);
  }

  /** A factor below one in magnitude shrinks a product and keeps signs. */
  lemma SmallFactor(f: real, y: real)
    requires -1.0 < f < 1.0 && y != 0.0
    ensures Abs(f * y) < Abs(y)
    ensures f >= 0.0 && y > 0.0 ==> f * y >= 0.0
    ensures f <= 0.0 && y < 0.0 ==> f * y >= 0.0
    ensures f >= 0.0 && y < 0.0 ==> f * y <= 0.0
    ensures f <= 0.0 && y > 0.0 ==> f * y <= 0.0
  {
    if y > 0.0 {
      assert y - f * y == (1.0 - f) * y;
      assert y + f * y == (1.0 + f) * y;
    } else {
      assert -y + f * y == (1.0 - f) * -y;
      assert -y - f * y == (1.0 + f) * -y;
    }
  }

  lemma SignOfQuotient(lhs: real, rhs: real)
    requires rhs != 0.0
    ensures (lhs >= 0.0) == (rhs > 0.0) ==> lhs / rhs >= 0.0
    ensures (lhs <= 0.0) == (rhs > 0.0) ==> lhs / rhs <= 0.0
  {
  }

  /** Comparisons and logic give 1.0 exactly when the relation holds. */
  lemma Comparisons(lhs: real, rhs: real)
    ensures SwitchMathOp(lhs, rhs, LessCode).value == 1.0 <==> lhs < rhs
    ensures SwitchMathOp(lhs, rhs, MoreCode).value == 1.0 <==> lhs > rhs
    ensures SwitchMathOp(lhs, rhs, EqualCode).value == 1.0 <==> Abs(lhs - rhs) < DblEpsilon
    ensures SwitchMathOp(lhs, rhs, AndCode).value == 1.0 <==> lhs != 0.0 && rhs != 0.0
    ensures SwitchMathOp(lhs, rhs, OrCode).value == 1.0 <==> lhs != 0.0 || rhs != 0.0
  {
  }

  /**
   * The cases labelled 0x80 ("<=") and 0x81 (">=") can never be taken: those
   * codes read through a signed `char` become -128 and -127, which the
   * switch sends to its throwing default.
   */
  lemma WideCodesThrow(lhs: real, rhs: real)
    ensures SwitchMathOp(lhs, rhs, ToSChar(0x80)).Err?
    ensures SwitchMathOp(lhs, rhs, ToSChar(0x81)).Err?
  {
  }
}
