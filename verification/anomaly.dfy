/**
 * The anomaly details of src/zzz/details/anomaly.cpp: the table of
 * standard anomalies, its lookup, and the `AnomalyBuilder`. Tables keyed by
 * `lib::hash(name)` are keyed by the name itself (the hash is taken to be
 * injective).
 */
module AnomalyDetails {
  import opened Wrappers
  import opened Enums
  import opened StatBasic
  import Grid
  import EnumsConvert

  /** `Anomaly`: name, scale (percent of attack), element, buffs and whether it can crit. */
  datatype Anomaly = Anomaly(name: string, scale: real, element: Byte, buffs: map<nat, Stat>, canCrit: bool)

  /** The product a builder starts from: value-initialised, so it cannot crit. */
  const Blank: Anomaly := Anomaly("", 0.0, ElementNone, map[], false)

  /** `make_as_pair`: the anomaly keyed by its name, `m_can_crit` left false. */
  function MakeAsPair(name: string, scale: real, element: Byte, buffs: map<nat, Stat>): (p: (string, Anomaly))
    ensures p.0 == p.1.name == name
    ensures p.1.scale == scale && p.1.element == element && p.1.buffs == buffs && !p.1.canCrit
  {
    (name, Anomaly(name, scale, element, buffs, false))
  }

  /** `standard_anomalies`: the five element anomalies, without buffs. */
  const StandardAnomalies: map<string, Anomaly> := map[
    MakeAsPair("assault", 731.0, Physical, map[]).0 := MakeAsPair("assault", 731.0, Physical, map[]).1,
    MakeAsPair("burn", 50.0 * 20.0, Fire, map[]).0 := MakeAsPair("burn", 50.0 * 20.0, Fire, map[]).1,
    MakeAsPair("shatter", 500.0, Ice, map[]).0 := MakeAsPair("shatter", 500.0, Ice, map[]).1,
    MakeAsPair("shock", 125.0 * 10.0, Electric, map[]).0 := MakeAsPair("shock", 125.0 * 10.0, Electric, map[]).1,
    MakeAsPair("corruption", 62.5 * 20.0, Ether, map[]).0 := MakeAsPair("corruption", 62.5 * 20.0, Ether, map[]).1
  ]

  /** `get_standard_anomaly`: `unordered_map::at`, so an unknown name throws. */
  function GetStandardAnomaly(name: string): (r: Result<Anomaly>)
    ensures r.Ok? <==> name in StandardAnomalies
    ensures r.Ok? ==> r.value.name == name && r.value.buffs == map[] && !r.value.canCrit
  {
    if name in StandardAnomalies then Ok(StandardAnomalies[name]) else Err("unordered_map::at")
  }

  /** The five standard anomalies, their scales and elements. */
  lemma StandardTable()
    ensures StandardAnomalies.Keys == {"assault", "burn", "shatter", "shock", "corruption"}
    ensures GetStandardAnomaly("assault") == Ok(Anomaly("assault", 731.0, Physical, map[], false))
    ensures GetStandardAnomaly("burn") == Ok(Anomaly("burn", 1000.0, Fire, map[], false))
    ensures GetStandardAnomaly("shatter") == Ok(Anomaly("shatter", 500.0, Ice, map[], false))
    ensures GetStandardAnomaly("shock") == Ok(Anomaly("shock", 1250.0, Electric, map[], false))
    ensures GetStandardAnomaly("corruption") == Ok(Anomaly("corruption", 1250.0, Ether, map[], false))
  {
  }

  /** The standard anomalies have five distinct elements, one per damage element. */
  lemma StandardElementsDistinct(a: string, b: string)
    requires a in StandardAnomalies && b in StandardAnomalies && a != b
    ensures StandardAnomalies[a].element != StandardAnomalies[b].element
    ensures Physical <= StandardAnomalies[a].element <= Ether
  {
  }

  class AnomalyBuilder {
    /** `m_product`. */
    var product: Anomaly
    /** `_is_set`. */
    var nameSet: bool
    var scaleSet: bool
    var elementSet: bool

    predicate Valid()
      reads this
    {
      Grid.WellKeyed(product.buffs)
    }

    constructor ()
      ensures Valid() && product == Blank && !nameSet && !scaleSet && !elementSet
    {
      product := Blank;
      nameSet, scaleSet, elementSet := false, false, false;
    }

    /** `set_name`: stores the name and sets its flag only. */
    method SetName(name: string)
      requires Valid()
      modifies this
      ensures Valid() && product == old(product).(name := name)
      ensures nameSet && scaleSet == old(scaleSet) && elementSet == old(elementSet)
    {
      product, nameSet := product.(name := name), true;
    }

    /** `set_scale`: stores the scale and sets its flag only. */
    method SetScale(scale: real)
      requires Valid()
      modifies this
      ensures Valid() && product == old(product).(scale := scale)
      ensures scaleSet && nameSet == old(nameSet) && elementSet == old(elementSet)
    {
      product, scaleSet := product.(scale := scale), true;
    }

    /** `set_element(Element)`: stores the element and sets its flag only. */
    method SetElement(element: Byte)
      requires Valid()
      modifies this
      ensures Valid() && product == old(product).(element := element)
      ensures elementSet && nameSet == old(nameSet) && scaleSet == old(scaleSet)
    {
      product, elementSet := product.(element := element), true;
    }

    /** `set_element(string_view)`: an unknown element name throws and changes nothing. */
    method SetElementNamed(text: string) returns (r: Result<()>)
      requires Valid()
      modifies this
      ensures Valid()
      ensures r.Ok? <==> EnumsConvert.StringToElement(text).Ok?
      ensures r.Ok? ==> product == old(product).(element := EnumsConvert.StringToElement(text).value) && elementSet
      ensures r.Err? ==> r.error == EnumsConvert.StringToElement(text).error
      ensures r.Err? ==> product == old(product) && elementSet == old(elementSet)
      ensures nameSet == old(nameSet) && scaleSet == old(scaleSet)
    {
      var e :- EnumsConvert.StringToElement(text);
      SetElement(e);
      r := Ok(());
    }

    /** `add_buff`: `StatsGrid::add` into the buffs, which accumulates. */
    method AddBuff(s: Stat) returns (r: Result<()>)
      requires Valid() && Grid.Admissible(s)
      modifies this
      ensures Valid()
      ensures r.Ok? <==> Grid.Inserted(old(product.buffs), s).Ok?
      ensures r.Ok? ==> product == old(product).(buffs := Grid.Inserted(old(product.buffs), s).value)
      ensures r.Err? ==> product == old(product)
      ensures nameSet == old(nameSet) && scaleSet == old(scaleSet) && elementSet == old(elementSet)
    {
      var buffs :- Grid.Inserted(product.buffs, s);
      product := product.(buffs := buffs);
      r := Ok(());
    }

    /** `set_buffs`: replaces the buffs wholesale. */
    method SetBuffs(buffs: map<nat, Stat>)
      requires Valid() && Grid.WellKeyed(buffs)
      modifies this
      ensures Valid() && product == old(product).(buffs := buffs)
      ensures nameSet == old(nameSet) && scaleSet == old(scaleSet) && elementSet == old(elementSet)
    {
      product := product.(buffs := buffs);
    }

    /** `set_crit`: stores the flag; it is not one of the required ones. */
    method SetCrit(canCrit: bool)
      requires Valid()
      modifies this
      ensures Valid() && product == old(product).(canCrit := canCrit)
      ensures nameSet == old(nameSet) && scaleSet == old(scaleSet) && elementSet == old(elementSet)
    {
      product := product.(canCrit := canCrit);
    }

    /** `is_built`: name, scale and element are set; buffs and crit are optional. */
    predicate IsBuilt()
      reads this
    {
      nameSet && scaleSet && elementSet
    }

    /** `get_product`: throws unless built. */
    method GetProduct() returns (r: Result<Anomaly>)
      ensures r.Ok? <==> IsBuilt()
      ensures r.Ok? ==> r.value == product
    {
      if !IsBuilt() {
        return Err("you have to specify name, scale and element");
      }
      r := Ok(product);
    }
  }

  /** An anomaly built without `set_crit` cannot crit, and holds exactly what was set. */
  method BuiltWithoutCrit(name: string, scale: real, element: Byte) returns (r: Result<Anomaly>)
    ensures r.Ok? && !r.value.canCrit
    ensures r.value == Anomaly(name, scale, element, map[], false)
  {
    var builder := new AnomalyBuilder();
    builder.SetElement(element);
    builder.SetScale(scale);
    builder.SetName(name);
    r := builder.GetProduct();
  }

  /** Without a scale the builder refuses, even with name, element and crit set. */
  method UnscaledRefused(name: string, element: Byte) returns (r: Result<Anomaly>)
    ensures r.Err?
  {
    var builder := new AnomalyBuilder();
    builder.SetName(name);
    builder.SetElement(element);
    builder.SetCrit(true);
    r := builder.GetProduct();
  }
}
