/**
 * The `IStat` hierarchy of src/zzz/stats/basic.hpp with its two subclasses
 * (src/zzz/stats/regular.cpp, src/zzz/stats/relative.cpp) as one sum type,
 * and the `qualifier_t` that keys stats in a grid.
 *
 * basic.hpp declares a four-argument `IStat` constructor and a qualifier of
 * id and tag only, while both subclasses pass a `conditional` flag as well;
 * the flag is carried here as the subclasses use it, and it does not take
 * part in the hash.
 */
module StatBasic {
  import opened Wrappers
  import opened Enums
  import Infix

  /** `qualifier_t`: which stat (`StatId`) under which `Tag`; both are `uint8_t`. */
  datatype Qualifier = Qualifier(id: Byte, tag: Byte)

  /**
   * `qualifier_t::hash`: `id | tag << 8`. With both fields below 256 the two
   * bytes do not overlap, so the id is the low byte and the tag the high one.
   */
  function Hash(q: Qualifier): (h: nat)
    ensures h < 65536
    ensures h % 256 == q.id as int && h / 256 == q.tag as int
  {
    q.id as int + q.tag as int * 256
  }

  /** Distinct qualifiers never share a hash, so a grid keyed by it keeps them apart. */
  lemma HashInjective(a: Qualifier, b: Qualifier)
    ensures Hash(a) == Hash(b) <==> a == b
  {
    if Hash(a) == Hash(b) {
      assert a.id == b.id && a.tag == b.tag;
    }
  }

  /** `StatToken`'s payload: a number for numbers and operators, a stat for variables. */
  datatype StatTokenValue = NumberValue(number: real) | VariableValue(variable: Byte)

  /** `StatToken`: a formula token with names already resolved to stats. */
  datatype StatToken = StatToken(kind: Infix.Kind, value: StatTokenValue)

  /** `formulas_t`: compiled formulas keyed by one letter. */
  type Formulas = map<char, seq<StatToken>>

  /**
   * A stat. `lookup` stands for the `m_lookup_table` pointer of a relative
   * stat: `None` while unset, otherwise the values (by qualifier hash) of the
   * grid it points to.
   */
  datatype Stat =
    | Regular(q: Qualifier, conditional: bool, base: real)
    | Relative(q: Qualifier, conditional: bool, base: real, formulas: Formulas, lookup: Option<map<nat, real>>)

  /** `IStat::type()`: 1 for a regular stat, 2 for a relative one. */
  function Type(s: Stat): (t: nat)
    ensures t == 1 <==> s.Regular?
    ensures t == 2 <==> s.Relative?
  {
    if s.Regular? then 1 else 2
  }

  /**
   * Writing through the reference `IStat::base()` returns: only the base
   * changes; the qualifier is const and everything else is kept.
   */
  function WithBase(s: Stat, b: real): (r: Stat)
    ensures r.base == b
    ensures r.q == s.q && r.conditional == s.conditional && Type(r) == Type(s)
    ensures r.Relative? ==> r.formulas == s.formulas && r.lookup == s.lookup
    ensures r == s <==> b == s.base
  {
    match s
    case Regular(q, c, _) => Regular(q, c, b)
    case Relative(q, c, _, f, l) => Relative(q, c, b, f, l)
  }
}
