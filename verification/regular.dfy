/**
 * `RegularStat` of src/zzz/stats/regular.cpp: a stat whose value is its
 * base. Stats are values here, so `copy()` is the stat itself.
 */
module RegularStat {
  import opened Wrappers
  import opened Enums
  import opened JsonNode
  import opened StatBasic

  /** `RegularStat::make(id, tag, conditional, base)`. */
  function Make(id: Byte, tag: Byte, conditional: bool, base: real): (s: Stat)
    ensures Type(s) == 1 && Value(s) == base
    ensures s.q == Qualifier(id, tag) && s.conditional == conditional
  {
    Regular(Qualifier(id, tag), conditional, base)
  }

  /** `RegularStat::value()` of src/zzz/stats/regular.cpp: the base, unchanged. */
  function Value(s: Stat): real
    requires s.Regular?
  {
    s.base
  }

  /**
   * `RegularStat::make_from(array)`: `[id, conditional, value]` under the
   * Universal tag, or `[id, tag, conditional, value]`; names are read with
   * the enumerations' string constructors (an unknown name gives the
   * default), a wrong JSON type throws, and any other length throws.
   */
  function MakeFrom(entry: seq<Node>): (r: Result<Stat>)
    ensures r.Ok? ==> |entry| == 3 || |entry| == 4
    ensures r.Ok? ==> r.value.Regular?
    ensures r.Ok? && |entry| == 3 ==> r.value.q.tag == Universal
    ensures r.Ok? && |entry| == 3 ==> entry[0].String? && entry[1].Bool? && entry[2].Floating?
    ensures r.Ok? && |entry| == 4 ==> entry[0].String? && entry[1].String? && entry[2].Bool? && entry[3].Floating?
    ensures |entry| == 3 && entry[0].String? && entry[1].Bool? && entry[2].Floating? ==>
              r == Ok(Make(StatFromString(entry[0].str), Universal, entry[1].boolean, entry[2].floating))
    ensures |entry| == 4 && entry[0].String? && entry[1].String? && entry[2].Bool? && entry[3].Floating? ==>
              r == Ok(Make(StatFromString(entry[0].str), TagFromString(entry[1].str), entry[2].boolean, entry[3].floating))
  {
    if |entry| == 3 then
      var id :- AsString(entry[0]);
      var conditional :- AsBool(entry[1]);
      var base :- AsFloating(entry[2]);
      Ok(Make(StatFromString(id), Universal, conditional, base))
    else if |entry| == 4 then
      var id :- AsString(entry[0]);
      var tag :- AsString(entry[1]);
      var conditional :- AsBool(entry[2]);
      var base :- AsFloating(entry[3]);
      Ok(Make(StatFromString(id), TagFromString(tag), conditional, base))
    else Err("wrong arguments")
  }

  /**
   * Writing a regular stat out as `[name, tag name, conditional, base]` and
   * reading it back gives the same stat, for every in-range id and tag.
   */
  lemma MakeFromRoundTrip(s: Stat)
    requires s.Regular? && s.q.id < StatCount && s.q.tag < TagCount
    ensures MakeFrom([String(StatToString(s.q.id)), String(TagToString(s.q.tag)),
                      Bool(s.conditional), Floating(s.base)]) == Ok(s)
  {
    StatRoundTrip(s.q.id);
    TagRoundTrip(s.q.tag);
  }

  /**
   * `RegularStat::add_as_copy(another)`: a fresh stat with this stat's
   * qualifier and flag and the two bases summed. Against a regular stat it
   * is regular; against a relative one it is relative with the other's
   * formulas (and, being new, without a lookup table).
   */
  function AddAsCopy(self: Stat, another: Stat): (r: Result<Stat>)
    requires self.Regular?
    ensures r.Ok?
    ensures r.value.q == self.q && r.value.conditional == self.conditional
    ensures r.value.base == self.base + another.base
    ensures Type(r.value) == Type(another)
    ensures r.value.Relative? ==> r.value.formulas == another.formulas && r.value.lookup.None?
  {
    match another
    case Regular(_, _, b) => Ok(Make(self.q.id, self.q.tag, self.conditional, self.base + b))
    case Relative(_, _, b, f, _) => Ok(Relative(self.q, self.conditional, self.base + b, f, None))
  }

  /** Adding regular stats is adding their values, in either order. */
  lemma AddValues(a: Stat, b: Stat)
    requires a.Regular? && b.Regular?
    ensures Value(AddAsCopy(a, b).value) == Value(a) + Value(b)
    ensures Value(AddAsCopy(a, b).value) == Value(AddAsCopy(b, a).value)
  {
  }
}
