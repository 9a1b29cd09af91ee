/**
 * The W-engine details of src/zzz/details/wengine.cpp: the
 * `WengineBuilder`, whose main, sub and passive stats are all added into
 * one stats grid, and `load_from_json`. The grid is held as its entries.
 */
module WengineDetails {
  import opened Wrappers
  import opened Enums
  import opened JsonNode
  import opened StatBasic
  import Grid
  import EnumsConvert
  import Converters
  import JsonText
  import JsonParser
  import JsonWriter
  import JsonRoundTrip
  import CachedMemory

  /** `Wengine`: identity, rarity, speciality and the one grid of all its stats. */
  datatype Wengine = Wengine(id: nat, name: string, rarity: Byte, speciality: Byte, stats: map<nat, Stat>)

  /** The product a builder starts from: value-initialised, with an empty grid. */
  const Blank: Wengine := Wengine(0, "", NotSet, SpecialityNone, map[])

  class WengineBuilder {
    /** `m_product`. */
    var product: Wengine
    /** `_is_set`. */
    var idSet: bool
    var nameSet: bool
    var raritySet: bool
    var specialitySet: bool
    var mainStatSet: bool
    var subStatSet: bool
    var passiveStatsSet: bool

    predicate Valid()
      reads this
    {
      Grid.WellKeyed(product.stats)
    }

    /** The seven flags, as a tuple, for stating what a setter leaves alone. */
    function Flags(): (bool, bool, bool, bool, bool, bool, bool)
      reads this
    {
      (idSet, nameSet, raritySet, specialitySet, mainStatSet, subStatSet, passiveStatsSet)
    }

    constructor ()
      ensures Valid() && product == Blank
      ensures Flags() == (false, false, false, false, false, false, false)
    {
      product := Blank;
      idSet, nameSet, raritySet, specialitySet := false, false, false, false;
      mainStatSet, subStatSet, passiveStatsSet := false, false, false;
    }

    /** `set_id`: stores the id and sets its flag only. */
    method SetId(id: nat)
      requires Valid()
      modifies this
      ensures Valid() && product == old(product).(id := id)
      ensures Flags() == old(Flags()).(0 := true)
    {
      product, idSet := product.(id := id), true;
    }

    /** `set_name`: stores the name and sets its flag only. */
    method SetName(name: string)
      requires Valid()
      modifies this
      ensures Valid() && product == old(product).(name := name)
      ensures Flags() == old(Flags()).(1 := true)
    {
      product, nameSet := product.(name := name), true;
    }

    /** `set_rarity`: stores the rarity and sets its flag only. */
    method SetRarity(rarity: Byte)
      requires Valid()
      modifies this
      ensures Valid() && product == old(product).(rarity := rarity)
      ensures Flags() == old(Flags()).(2 := true)
    {
      product, raritySet := product.(rarity := rarity), true;
    }

    /** `set_speciality(Speciality)`: stores the speciality and sets its flag only. */
    method SetSpeciality(speciality: Byte)
      requires Valid()
      modifies this
      ensures Valid() && product == old(product).(speciality := speciality)
      ensures Flags() == old(Flags()).(3 := true)
    {
      product, specialitySet := product.(speciality := speciality), true;
    }

    /** `set_speciality(string_view)`: an unknown name throws before anything is stored. */
    method SetSpecialityNamed(text: string) returns (r: Result<()>)
      requires Valid()
      modifies this
      ensures Valid()
      ensures r.Ok? <==> EnumsConvert.StringToSpeciality(text).Ok?
      ensures r.Ok? ==> product == old(product).(speciality := EnumsConvert.StringToSpeciality(text).value)
      ensures r.Ok? ==> Flags() == old(Flags()).(3 := true)
      ensures r.Err? ==> r.error == EnumsConvert.StringToSpeciality(text).error
      ensures r.Err? ==> product == old(product) && Flags() == old(Flags())
    {
      var s :- EnumsConvert.StringToSpeciality(text);
      SetSpeciality(s);
      r := Ok(());
    }

    /**
     * `m_stats.add(grid)`, shared by the three stat setters: a key where
     * both grids hold a relative stat throws, after the keys before it were
     * added, so the grid is then left part-way.
     */
    method AddStats(grid: map<nat, Stat>) returns (r: Result<()>)
      requires Valid() && Grid.WellKeyed(grid)
      modifies this
      ensures Valid() && Flags() == old(Flags())
      ensures r.Ok? <==> !Grid.Clash(old(product.stats), grid)
      ensures r.Ok? ==> product == old(product).(stats := Grid.Merged(old(product.stats), grid))
      ensures r.Err? ==> product == old(product).(stats := product.stats)
    {
      var g := new Grid.StatsGrid.Empty();
      g.content := product.stats;
      var other := new Grid.StatsGrid.Empty();
      other.content := grid;
      r := g.AddGrid(other);
      product := product.(stats := g.content);
    }

    /** `set_main_stat(grid)`: added into the stats, unchecked; sets its flag only. */
    method SetMainStat(grid: map<nat, Stat>) returns (r: Result<()>)
      requires Valid() && Grid.WellKeyed(grid)
      modifies this
      ensures Valid()
      ensures r.Ok? <==> !Grid.Clash(old(product.stats), grid)
      ensures r.Ok? ==> product == old(product).(stats := Grid.Merged(old(product.stats), grid))
      ensures r.Ok? ==> Flags() == old(Flags()).(4 := true)
      ensures r.Err? ==> product == old(product).(stats := product.stats) && Flags() == old(Flags())
    {
      r := AddStats(grid);
      if r.Ok? {
        mainStatSet := true;
      }
    }

    /** `set_sub_stat(grid)`: added into the same stats; sets its flag only. */
    method SetSubStat(grid: map<nat, Stat>) returns (r: Result<()>)
      requires Valid() && Grid.WellKeyed(grid)
      modifies this
      ensures Valid()
      ensures r.Ok? <==> !Grid.Clash(old(product.stats), grid)
      ensures r.Ok? ==> product == old(product).(stats := Grid.Merged(old(product.stats), grid))
      ensures r.Ok? ==> Flags() == old(Flags()).(5 := true)
      ensures r.Err? ==> product == old(product).(stats := product.stats) && Flags() == old(Flags())
    {
      r := AddStats(grid);
      if r.Ok? {
        subStatSet := true;
      }
    }

    /** `set_passive_stats(grid)`: added into the same stats; sets its flag only. */
    method SetPassiveStats(grid: map<nat, Stat>) returns (r: Result<()>)
      requires Valid() && Grid.WellKeyed(grid)
      modifies this
      ensures Valid()
      ensures r.Ok? <==> !Grid.Clash(old(product.stats), grid)
      ensures r.Ok? ==> product == old(product).(stats := Grid.Merged(old(product.stats), grid))
      ensures r.Ok? ==> Flags() == old(Flags()).(6 := true)
      ensures r.Err? ==> product == old(product).(stats := product.stats) && Flags() == old(Flags())
    {
      r := AddStats(grid);
      if r.Ok? {
        passiveStatsSet := true;
      }
    }

    /** `is_built`: all seven flags. */
    predicate IsBuilt()
      reads this
    {
      idSet && nameSet && raritySet && specialitySet && mainStatSet && subStatSet && passiveStatsSet
    }

    /** `get_product`: throws unless built. */
    method GetProduct() returns (r: Result<Wengine>)
      ensures r.Ok? <==> IsBuilt()
      ensures r.Ok? ==> r.value == product
    {
      if !IsBuilt() {
        return Err("you have to specify id, name, speciality and stats [main and sub at least]");
      }
      r := Ok(product);
    }
  }

  /** Without passive stats the builder refuses, whatever else was set. */
  method PassiveRequired(main: map<nat, Stat>, sub: map<nat, Stat>) returns (r: Result<Wengine>)
    requires Grid.WellKeyed(main) && Grid.WellKeyed(sub)
    ensures r.Err?
  {
    var builder := new WengineBuilder();
    builder.SetId(1);
    builder.SetName("w");
    builder.SetRarity(RarityS);
    builder.SetSpeciality(Attack);
    var m := builder.SetMainStat(main);
    var s := builder.SetSubStat(sub);
    r := builder.GetProduct();
  }

  /**
   * `load_from_json(json)`: id, name, rarity (cast from the integral) and
   * speciality, then the grids under `stats.main`, `stats.sub` and
   * `stats.passive`, each added into the one grid.
   */
  function WengineFrom(json: Node): (r: Result<Wengine>)
  {
    var table :- AsObject(json);
    var idNode :- At(json, "id");
    var id :- AsIntegral(idNode);
    var nameNode :- At(json, "name");
    var name :- AsString(nameNode);
    var rarityNode :- At(json, "rarity");
    var rarity :- AsIntegral(rarityNode);
    var specialityNode :- At(json, "speciality");
    var specialityText :- AsString(specialityNode);
    var speciality :- EnumsConvert.StringToSpeciality(specialityText);
    var statsNode :- At(json, "stats");
    var stats :- AsObject(statsNode);
    var mainNode :- At(statsNode, "main");
    var main :- Grid.FromNode(mainNode);
    var subNode :- At(statsNode, "sub");
    var sub :- Grid.FromNode(subNode);
    var passiveNode :- At(statsNode, "passive");
    var passive :- Grid.FromNode(passiveNode);
    Ok(Wengine(Converters.AsU64(id), name, Converters.AsU8(rarity), speciality,
               Grid.Merged(Grid.Merged(Grid.Merged(map[], main), sub), passive)))
  }

  /**
   * A loaded W-engine's stats are regular, one per qualifier that occurs in
   * any of the three grids, each with the sum of the three bases there.
   */
  lemma WengineStats(json: Node)
    requires WengineFrom(json).Ok?
    ensures json.Object? && "stats" in json.fields && json.fields["stats"].Object?
    ensures var st := json.fields["stats"].fields;
            "main" in st && "sub" in st && "passive" in st &&
            Grid.FromNode(st["main"]).Ok? && Grid.FromNode(st["sub"]).Ok? && Grid.FromNode(st["passive"]).Ok?
    ensures var st := json.fields["stats"].fields;
            var stats := WengineFrom(json).value.stats;
            Grid.WellKeyed(stats) && Grid.AllRegular(stats) &&
            stats.Keys == Grid.FromNode(st["main"]).value.Keys + Grid.FromNode(st["sub"]).value.Keys +
                          Grid.FromNode(st["passive"]).value.Keys &&
            forall k :: Grid.BaseAt(stats, k) == Grid.BaseAt(Grid.FromNode(st["main"]).value, k) +
                                               Grid.BaseAt(Grid.FromNode(st["sub"]).value, k) +
                                               Grid.BaseAt(Grid.FromNode(st["passive"]).value, k)
  {
    WengineParts(json);
    var st := json.fields["stats"].fields;
    ThreeMerged(Grid.FromNode(st["main"]).value, Grid.FromNode(st["sub"]).value, Grid.FromNode(st["passive"]).value);
  }

  /** Where a loaded W-engine's stats come from. */
  lemma WengineParts(json: Node)
    requires WengineFrom(json).Ok?
    ensures json.Object? && "stats" in json.fields && json.fields["stats"].Object?
    ensures var st := json.fields["stats"].fields;
            "main" in st && "sub" in st && "passive" in st &&
            Grid.FromNode(st["main"]).Ok? && Grid.FromNode(st["sub"]).Ok? && Grid.FromNode(st["passive"]).Ok? &&
            WengineFrom(json).value.stats ==
              Grid.Merged(Grid.Merged(Grid.Merged(map[], Grid.FromNode(st["main"]).value), Grid.FromNode(st["sub"]).value),
                          Grid.FromNode(st["passive"]).value)
  {
  }

  /** Adding three all-regular grids into an empty one sums their bases key by key. */
  lemma ThreeMerged(main: map<nat, Stat>, sub: map<nat, Stat>, passive: map<nat, Stat>)
    requires Grid.WellKeyed(main) && Grid.WellKeyed(sub) && Grid.WellKeyed(passive)
    requires Grid.AllRegular(main) && Grid.AllRegular(sub) && Grid.AllRegular(passive)
    ensures var stats := Grid.Merged(Grid.Merged(Grid.Merged(map[], main), sub), passive);
            Grid.WellKeyed(stats) && Grid.AllRegular(stats) &&
            stats.Keys == main.Keys + sub.Keys + passive.Keys &&
            forall k :: Grid.BaseAt(stats, k) == Grid.BaseAt(main, k) + Grid.BaseAt(sub, k) + Grid.BaseAt(passive, k)
  {
    Grid.RegularMerge(map[], main);
    Grid.RegularMerge(Grid.Merged(map[], main), sub);
    Grid.RegularMerge(Grid.Merged(Grid.Merged(map[], main), sub), passive);
  }

  /** `load_from_json`, driving a `WengineBuilder`: exactly `WengineFrom`, errors included. */
  method LoadFromJson(json: Node) returns (r: Result<Wengine>)
    ensures r == WengineFrom(json)
  {
    var table :- AsObject(json);
    var builder := new WengineBuilder();
    var idNode :- At(json, "id");
    var id :- AsIntegral(idNode);
    builder.SetId(Converters.AsU64(id));
    var nameNode :- At(json, "name");
    var name :- AsString(nameNode);
    builder.SetName(name);
    var rarityNode :- At(json, "rarity");
    var rarity :- AsIntegral(rarityNode);
    builder.SetRarity(Converters.AsU8(rarity));
    var specialityNode :- At(json, "speciality");
    var specialityText :- AsString(specialityNode);
    var stored :- builder.SetSpecialityNamed(specialityText);
    var statsNode :- At(json, "stats");
    var stats :- AsObject(statsNode);
    var mainNode :- At(statsNode, "main");
    var main :- Grid.FromNode(mainNode);
    Grid.RegularMerge(map[], main);
    var added := builder.SetMainStat(main);
    var subNode :- At(statsNode, "sub");
    var sub :- Grid.FromNode(subNode);
    Grid.RegularMerge(builder.product.stats, sub);
    added := builder.SetSubStat(sub);
    var passiveNode :- At(statsNode, "passive");
    var passive :- Grid.FromNode(passiveNode);
    Grid.RegularMerge(builder.product.stats, passive);
    added := builder.SetPassiveStats(passive);
    r := builder.GetProduct();
  }

  // ---------------------------------------------------------------- loading from text

  /** The w-engine a text in format 1 describes: the text parsed as JSON, then read by `load_from_json`. */
  function WengineFromText(input: string, floating: JsonText.FloatReader): Result<Wengine>
  {
    var json :- JsonText.FromString(input, JsonText.DefaultRecursionLimit, floating);
    WengineFrom(json)
  }

  /**
   * `Wengine::load_from_string(input, mode)`: in format 1 the text is parsed,
   * the w-engine loaded from it is set as the object's content, and the answer
   * is true; any other format leaves the object as it is and answers false.
   * A parse or load error throws before the object changes.
   */
  method LoadFromString(obj: CachedMemory.MObject<Wengine>, input: string, mode: nat, floating: JsonText.FloatReader)
    returns (r: Result<bool>)
    modifies obj
    ensures mode != 1 ==> r == Ok(false) && obj.content == old(obj.content)
    ensures mode == 1 ==> (r.Ok? <==> WengineFromText(input, floating).Ok?)
    ensures mode == 1 && r.Ok? ==> r.value && obj.content == Some(WengineFromText(input, floating).value)
    ensures r.Err? ==> obj.content == old(obj.content)
    ensures obj.unusedPeriod == old(obj.unusedPeriod)
  {
    if mode != 1 {
      return Ok(false);
    }
    var json :- JsonParser.FromString(input, JsonText.DefaultRecursionLimit, floating);
    var details := LoadFromJson(json);
    if details.Err? {
      return Err(details.error);
    }
    obj.Set(details.value);
    r := Ok(true);
  }

  /**
   * Loading the text the JSON writer produced for a node gives what loading
   * the node gives, for a writable node within the default recursion limit.
   */
  lemma FromWrittenText(n: Node, floating: JsonText.FloatReader, fw: JsonWriter.FloatWriter)
    requires JsonRoundTrip.Writable(n) && JsonText.NestedWithin(n, JsonText.DefaultRecursionLimit)
    ensures WengineFromText(JsonWriter.Minimized(n, fw), floating) == WengineFrom(n)
  {
    JsonRoundTrip.FromStringRoundTrip(n, JsonText.DefaultRecursionLimit, floating, fw);
  }
}
