/**
 * The skill details of src/zzz/details/skill.cpp and the `SkillBuilder`
 * that assembles them. The buffs grid of a skill is held as its entries (a
 * value); `add_buff` is `StatsGrid::add(stat)`, whose meaning is
 * `Grid.Inserted`.
 */
module SkillDetails {
  import opened Wrappers
  import opened Enums
  import opened StatBasic
  import Grid
  import EnumsConvert

  /** `Skill::scale`: one hit's motion value, daze and element. */
  datatype Scale = Scale(motionValue: real, daze: real, element: Byte)

  /** `Skill`: its name, tag, scales in insertion order and buffs. */
  datatype Skill = Skill(name: string, tag: Byte, scales: seq<Scale>, buffs: map<nat, Stat>)

  /** The product a builder starts from: value-initialised. */
  const Blank: Skill := Skill("", Universal, [], map[])

  class SkillBuilder {
    /** `m_product`. */
    var product: Skill
    /** `_is_set`. */
    var nameSet: bool
    var tagSet: bool

    predicate Valid()
      reads this
    {
      Grid.WellKeyed(product.buffs)
    }

    constructor ()
      ensures Valid() && product == Blank && !nameSet && !tagSet
    {
      product, nameSet, tagSet := Blank, false, false;
    }

    /** `set_name`: stores the name and sets its flag only. */
    method SetName(name: string)
      requires Valid()
      modifies this
      ensures Valid() && product == old(product).(name := name)
      ensures nameSet && tagSet == old(tagSet)
    {
      product, nameSet := product.(name := name), true;
    }

    /** `set_tag(Tag)`: stores the tag and sets its flag only. */
    method SetTag(tag: Byte)
      requires Valid()
      modifies this
      ensures Valid() && product == old(product).(tag := tag)
      ensures tagSet && nameSet == old(nameSet)
    {
      product, tagSet := product.(tag := tag), true;
    }

    /** `set_tag(string_view)`: `convert::string_to_tag` throws on an unknown name. */
    method SetTagNamed(text: string) returns (r: Result<()>)
      requires Valid()
      modifies this
      ensures Valid()
      ensures r.Ok? <==> EnumsConvert.StringToTag(text).Ok?
      ensures r.Ok? ==> product == old(product).(tag := EnumsConvert.StringToTag(text).value) && tagSet
      ensures r.Err? ==> r.error == EnumsConvert.StringToTag(text).error
      ensures r.Err? ==> product == old(product) && tagSet == old(tagSet)
      ensures nameSet == old(nameSet)
    {
      var tag :- EnumsConvert.StringToTag(text);
      SetTag(tag);
      r := Ok(());
    }

    /** `add_scale(scale)`: appends, touching no flag. */
    method AddScale(s: Scale)
      requires Valid()
      modifies this
      ensures Valid() && product == old(product).(scales := old(product.scales) + [s])
      ensures nameSet == old(nameSet) && tagSet == old(tagSet)
    {
      product := product.(scales := product.scales + [s]);
    }

    /** `add_scale(motion_value, daze, element)`: the scale of exactly those three. */
    method AddScaleOf(motionValue: real, daze: real, element: Byte)
      requires Valid()
      modifies this
      ensures Valid() && product == old(product).(scales := old(product.scales) + [Scale(motionValue, daze, element)])
      ensures nameSet == old(nameSet) && tagSet == old(tagSet)
    {
      AddScale(Scale(motionValue, daze, element));
    }

    /** `add_scale(motion_value, daze, string_view)`: the element is looked up by name and may throw. */
    method AddScaleNamed(motionValue: real, daze: real, element: string) returns (r: Result<()>)
      requires Valid()
      modifies this
      ensures Valid()
      ensures r.Ok? <==> EnumsConvert.StringToElement(element).Ok?
      ensures r.Ok? ==> product == old(product).(scales := old(product.scales) +
                          [Scale(motionValue, daze, EnumsConvert.StringToElement(element).value)])
      ensures r.Err? ==> r.error == EnumsConvert.StringToElement(element).error
      ensures r.Err? ==> product == old(product)
      ensures nameSet == old(nameSet) && tagSet == old(tagSet)
    {
      var e :- EnumsConvert.StringToElement(element);
      AddScaleOf(motionValue, daze, e);
      r := Ok(());
    }

    /** `add_buff`: `StatsGrid::add` into the buffs, which accumulates. */
    method AddBuff(s: Stat) returns (r: Result<()>)
      requires Valid() && Grid.Admissible(s)
      modifies this
      ensures Valid()
      ensures r.Ok? <==> Grid.Inserted(old(product.buffs), s).Ok?
      ensures r.Ok? ==> product == old(product).(buffs := Grid.Inserted(old(product.buffs), s).value)
      ensures r.Err? ==> product == old(product)
      ensures nameSet == old(nameSet) && tagSet == old(tagSet)
    {
      var buffs :- Grid.Inserted(product.buffs, s);
      product := product.(buffs := buffs);
      r := Ok(());
    }

    /** `set_buffs`: replaces the buffs wholesale. */
    method SetBuffs(buffs: map<nat, Stat>)
      requires Valid() && Grid.WellKeyed(buffs)
      modifies this
      ensures Valid() && product == old(product).(buffs := buffs)
      ensures nameSet == old(nameSet) && tagSet == old(tagSet)
    {
      product := product.(buffs := buffs);
    }

    /** `is_built`: the name and the tag are set; scales and buffs are optional. */
    predicate IsBuilt()
      reads this
    {
      nameSet && tagSet
    }

    /** `get_product`: throws unless built. */
    method GetProduct() returns (r: Result<Skill>)
      ensures r.Ok? <==> IsBuilt()
      ensures r.Ok? ==> r.value == product
    {
      if !IsBuilt() {
        return Err("you have to specify name and tag");
      }
      r := Ok(product);
    }
  }

  /** `Skill::max_index()`: the number of scales, so the largest `cell.index` a rotation may use. */
  function MaxIndex(s: Skill): (n: nat)
    ensures n == 0 <==> s.scales == []
  {
    |s.scales|
  }

  /**
   * A builder given a name, a tag and two scales yields a skill holding
   * those scales in the order they were added, and no buffs.
   */
  method TwoScales(name: string, tag: Byte, first: Scale, second: Scale) returns (r: Result<Skill>)
    ensures r.Ok? && r.value == Skill(name, tag, [first, second], map[])
    ensures MaxIndex(r.value) == 2
  {
    var builder := new SkillBuilder();
    builder.SetName(name);
    builder.AddScale(first);
    builder.SetTag(tag);
    builder.AddScale(second);
    r := builder.GetProduct();
  }

  /** Without a tag the builder refuses to hand out its product, whatever else was set. */
  method UntaggedRefused(name: string, s: Scale) returns (r: Result<Skill>)
    ensures r.Err?
  {
    var builder := new SkillBuilder();
    builder.SetName(name);
    builder.AddScale(s);
    r := builder.GetProduct();
  }
}
