/**
 * The `stat` arithmetic operators of src/zzz/stats_math.hpp. Each operator
 * takes a stat on the left and a stat or a plain number on the right and
 * returns a new stat; the operands are const references and stay as they
 * were, which values model directly.
 */
module StatsMath {
  import opened Wrappers
  import opened Enums
  import TemplateMath

  /** `zzz::stat`: a value with the stat type and the tag it applies to. */
  datatype StatValue = StatValue(value: real, statType: Byte, tag: Byte)

  /** The five overloaded operators. */
  datatype Op = Plus | Minus | Times | Over | Remainder

  /**
   * The number an operator computes from two numbers. A zero divisor for
   * '/' or '%' gives an IEEE infinity or NaN in the source; the model
   * reports it as an error value.
   */
  function Compute(op: Op, lhs: real, rhs: real): (r: Result<real>)
    ensures r.Err? <==> (op == Over || op == Remainder) && rhs == 0.0
    ensures op == Plus ==> r == Ok(lhs + rhs)
    ensures op == Minus ==> r == Ok(lhs - rhs)
    ensures op == Times ==> r == Ok(lhs * rhs)
    ensures op == Over && r.Ok? ==> r.value * rhs == lhs
    ensures op == Remainder && r.Ok? ==> r.value == TemplateMath.Fmod(lhs, rhs)
  {
    match op
    case Plus => Ok(lhs + rhs)
    case Minus => Ok(lhs - rhs)
    case Times => Ok(lhs * rhs)
    case Over => if rhs == 0.0 then Err("non-finite quotient") else Ok(lhs / rhs)
    case Remainder => if rhs == 0.0 then Err("non-finite remainder") else Ok(TemplateMath.Fmod(lhs, rhs))
  }

  /** `operator op(const stat&, double)`: the result carries the left stat's type and tag. */
  function ScalarOp(op: Op, lhs: StatValue, rhs: real): (r: Result<StatValue>)
    ensures r.Ok? <==> Compute(op, lhs.value, rhs).Ok?
    ensures r.Ok? ==> r.value.statType == lhs.statType && r.value.tag == lhs.tag
    ensures r.Ok? ==> r.value.value == Compute(op, lhs.value, rhs).value
  {
    var v :- Compute(op, lhs.value, rhs);
    Ok(StatValue(v, lhs.statType, lhs.tag))
  }

  /** `operator op(const stat&, const stat&)`: only the right stat's value takes part. */
  function StatOp(op: Op, lhs: StatValue, rhs: StatValue): (r: Result<StatValue>)
    ensures r.Ok? <==> Compute(op, lhs.value, rhs.value).Ok?
    ensures r.Ok? ==> r.value.statType == lhs.statType && r.value.tag == lhs.tag
    ensures r.Ok? ==> r.value.value == Compute(op, lhs.value, rhs.value).value
  {
    var v :- Compute(op, lhs.value, rhs.value);
    Ok(StatValue(v, lhs.statType, lhs.tag))
  }

  /**
   * The right stat's type and tag are ignored: a stat on the right acts as
   * its value would, and two right operands with equal values give equal
   * results whatever their types and tags.
   */
  lemma RightOperandIsItsValue(op: Op, lhs: StatValue, rhs: StatValue, other: StatValue)
    ensures StatOp(op, lhs, rhs) == ScalarOp(op, lhs, rhs.value)
    ensures rhs.value == other.value ==> StatOp(op, lhs, rhs) == StatOp(op, lhs, other)
  {
  }

  /** '+' and '*' give the same value in either order, though the type and tag follow the left stat. */
  lemma CommutingValues(lhs: StatValue, rhs: StatValue)
    ensures StatOp(Plus, lhs, rhs).value.value == StatOp(Plus, rhs, lhs).value.value
    ensures StatOp(Times, lhs, rhs).value.value == StatOp(Times, rhs, lhs).value.value
    ensures StatOp(Plus, rhs, lhs).value.tag == rhs.tag
  {
  }

  /** '-' undoes '+', keeping the left stat's type and tag. */
  lemma MinusUndoesPlus(lhs: StatValue, rhs: real)
    ensures ScalarOp(Minus, ScalarOp(Plus, lhs, rhs).value, rhs) == Ok(lhs)
  {
  }
}
