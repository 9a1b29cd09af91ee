/**
 * The drive disc set details of src/zzz/details/dds.cpp (and the
 * `DdsBuilder` that src/zzz/details/drive_disc_set.cpp repeats under the
 * names `p2`/`p4`): an id, a name and the 2- and 4-piece set bonuses, the
 * latter held in a two-element array of grids. Grids are held as their
 * entries.
 */
module DdsDetails {
  import opened Wrappers
  import opened JsonNode
  import opened StatBasic
  import Grid
  import Converters
  import JsonText
  import JsonParser
  import JsonWriter
  import JsonRoundTrip
  import CachedMemory

  /** `Dds`: id, name, and `m_set_bonuses[0]` (2-piece), `m_set_bonuses[1]` (4-piece). */
  datatype Dds = Dds(id: nat, name: string, pc2: map<nat, Stat>, pc4: map<nat, Stat>)

  class DdsBuilder {
    /** `m_product`'s id and name. */
    var id: nat
    var name: string
    /** `m_product->m_set_bonuses`. */
    const setBonuses: array<map<nat, Stat>>
    /** `_is_set`. */
    var idSet: bool
    var nameSet: bool
    var p2Set: bool
    var p4Set: bool

    predicate Valid()
      reads this, setBonuses
    {
      setBonuses.Length == 2 && Grid.WellKeyed(setBonuses[0]) && Grid.WellKeyed(setBonuses[1])
    }

    /** The four flags, as a tuple, for stating what a setter leaves alone. */
    function Flags(): (bool, bool, bool, bool)
      reads this
    {
      (idSet, nameSet, p2Set, p4Set)
    }

    constructor ()
      ensures Valid() && fresh(setBonuses)
      ensures id == 0 && name == "" && setBonuses[0] == map[] && setBonuses[1] == map[]
      ensures Flags() == (false, false, false, false)
    {
      id, name := 0, "";
      setBonuses := new map<nat, Stat>[2](_ => map[]);
      idSet, nameSet, p2Set, p4Set := false, false, false, false;
    }

    /** `set_id`: stores the id and sets its flag only. */
    method SetId(id: nat)
      requires Valid()
      modifies this
      ensures Valid() && this.id == id && name == old(name)
      ensures Flags() == old(Flags()).(0 := true)
    {
      this.id, idSet := id, true;
    }

    /** `set_name`: stores the name and sets its flag only. */
    method SetName(name: string)
      requires Valid()
      modifies this
      ensures Valid() && this.name == name && id == old(id)
      ensures Flags() == old(Flags()).(1 := true)
    {
      this.name, nameSet := name, true;
    }

    /** `set_pc2`: the 2-piece bonus goes to index 0; index 1 is untouched. */
    method SetPc2(bonus: map<nat, Stat>)
      requires Valid() && Grid.WellKeyed(bonus)
      modifies this, setBonuses
      ensures Valid() && setBonuses[0] == bonus && setBonuses[1] == old(setBonuses[1])
      ensures id == old(id) && name == old(name)
      ensures Flags() == old(Flags()).(2 := true)
    {
      setBonuses[0] := bonus;
      p2Set := true;
    }

    /** `set_pc4`: the 4-piece bonus goes to index 1; index 0 is untouched. */
    method SetPc4(bonus: map<nat, Stat>)
      requires Valid() && Grid.WellKeyed(bonus)
      modifies this, setBonuses
      ensures Valid() && setBonuses[1] == bonus && setBonuses[0] == old(setBonuses[0])
      ensures id == old(id) && name == old(name)
      ensures Flags() == old(Flags()).(3 := true)
    {
      setBonuses[1] := bonus;
      p4Set := true;
    }

    /** `is_built`: id, name and both bonuses. */
    predicate IsBuilt()
      reads this
    {
      idSet && nameSet && p2Set && p4Set
    }

    /** `get_product`: throws unless built; `pc2()` reads index 0 and `pc4()` index 1. */
    method GetProduct() returns (r: Result<Dds>)
      requires Valid()
      ensures r.Ok? <==> IsBuilt()
      ensures r.Ok? ==> r.value == Dds(id, name, setBonuses[0], setBonuses[1])
    {
      if !IsBuilt() {
        return Err("you have to specify id, name, 2- and 4-piece bonuses");
      }
      r := Ok(Dds(id, name, setBonuses[0], setBonuses[1]));
    }
  }

  /**
   * Whatever order the two bonuses are set in, the 2-piece one is the
   * product's `pc2` and the 4-piece one its `pc4`.
   */
  method BonusesInEitherOrder(first: map<nat, Stat>, second: map<nat, Stat>, p4First: bool) returns (r: Result<Dds>)
    requires Grid.WellKeyed(first) && Grid.WellKeyed(second)
    ensures r.Ok? && r.value == Dds(7, "set", first, second)
  {
    var builder := new DdsBuilder();
    builder.SetName("set");
    builder.SetId(7);
    if p4First {
      builder.SetPc4(second);
      builder.SetPc2(first);
    } else {
      builder.SetPc2(first);
      builder.SetPc4(second);
    }
    r := builder.GetProduct();
  }

  /** Without the 4-piece bonus the builder refuses to hand out its product. */
  method MissingPc4Refused(bonus: map<nat, Stat>) returns (r: Result<Dds>)
    requires Grid.WellKeyed(bonus)
    ensures r.Err?
  {
    var builder := new DdsBuilder();
    builder.SetId(1);
    builder.SetName("set");
    builder.SetPc2(bonus);
    r := builder.GetProduct();
  }

  /**
   * `load_dds_from_json(json)`: id and name from the root object, then the
   * grids under `set_bonus."2pc"` and `set_bonus."4pc"`.
   */
  function DdsFrom(json: Node): (r: Result<Dds>)
  {
    var table :- AsObject(json);
    var idNode :- At(json, "id");
    var id :- AsIntegral(idNode);
    var nameNode :- At(json, "name");
    var name :- AsString(nameNode);
    var bonusNode :- At(json, "set_bonus");
    var bonuses :- AsObject(bonusNode);
    var p2Node :- At(bonusNode, "2pc");
    var p2 :- Grid.FromNode(p2Node);
    var p4Node :- At(bonusNode, "4pc");
    var p4 :- Grid.FromNode(p4Node);
    Ok(Dds(Converters.AsU64(id), name, p2, p4))
  }

  /** What a set read from JSON is, and when reading succeeds. */
  lemma DdsFromMeaning(json: Node)
    ensures DdsFrom(json).Ok? <==>
              json.Object? && "id" in json.fields && json.fields["id"].Integral? &&
              "name" in json.fields && json.fields["name"].String? &&
              "set_bonus" in json.fields && json.fields["set_bonus"].Object? &&
              "2pc" in json.fields["set_bonus"].fields && Grid.FromNode(json.fields["set_bonus"].fields["2pc"]).Ok? &&
              "4pc" in json.fields["set_bonus"].fields && Grid.FromNode(json.fields["set_bonus"].fields["4pc"]).Ok?
    ensures DdsFrom(json).Ok? ==>
              DdsFrom(json).value.name == json.fields["name"].str &&
              DdsFrom(json).value.id == Converters.AsU64(json.fields["id"].integral) &&
              Grid.FromNode(json.fields["set_bonus"].fields["2pc"]) == Ok(DdsFrom(json).value.pc2) &&
              Grid.FromNode(json.fields["set_bonus"].fields["4pc"]) == Ok(DdsFrom(json).value.pc4)
  {
  }

  /** `load_dds_from_json`, driving a `DdsBuilder`: exactly `DdsFrom`, errors included. */
  method LoadDdsFromJson(json: Node) returns (r: Result<Dds>)
    ensures r == DdsFrom(json)
  {
    var table :- AsObject(json);
    var builder := new DdsBuilder();
    var idNode :- At(json, "id");
    var id :- AsIntegral(idNode);
    builder.SetId(Converters.AsU64(id));
    var nameNode :- At(json, "name");
    var name :- AsString(nameNode);
    builder.SetName(name);
    var bonusNode :- At(json, "set_bonus");
    var bonuses :- AsObject(bonusNode);
    var p2Node :- At(bonusNode, "2pc");
    var p2 :- Grid.FromNode(p2Node);
    builder.SetPc2(p2);
    var p4Node :- At(bonusNode, "4pc");
    var p4 :- Grid.FromNode(p4Node);
    builder.SetPc4(p4);
    r := builder.GetProduct();
  }

  // ---------------------------------------------------------------- loading from text

  /** The drive disc set a text in format 1 describes: the text parsed as JSON, then read by `load_dds_from_json`. */
  function DdsFromText(input: string, floating: JsonText.FloatReader): Result<Dds>
  {
    var json :- JsonText.FromString(input, JsonText.DefaultRecursionLimit, floating);
    DdsFrom(json)
  }

  /**
   * `Dds::load_from_string(input, mode)`: in format 1 the text is parsed,
   * the drive disc set loaded from it is set as the object's content, and the answer
   * is true; any other format leaves the object as it is and answers false.
   * A parse or load error throws before the object changes.
   */
  method LoadFromString(obj: CachedMemory.MObject<Dds>, input: string, mode: nat, floating: JsonText.FloatReader)
    returns (r: Result<bool>)
    modifies obj
    ensures mode != 1 ==> r == Ok(false) && obj.content == old(obj.content)
    ensures mode == 1 ==> (r.Ok? <==> DdsFromText(input, floating).Ok?)
    ensures mode == 1 && r.Ok? ==> r.value && obj.content == Some(DdsFromText(input, floating).value)
    ensures r.Err? ==> obj.content == old(obj.content)
    ensures obj.unusedPeriod == old(obj.unusedPeriod)
  {
    if mode != 1 {
      return Ok(false);
    }
    var json :- JsonParser.FromString(input, JsonText.DefaultRecursionLimit, floating);
    var details := LoadDdsFromJson(json);
    if details.Err? {
      return Err(details.error);
    }
    obj.Set(details.value);
    r := Ok(true);
  }

  /**
   * Loading the text the JSON writer produced for a node gives what loading
   * the node gives, for a writable node within the default recursion limit.
   */
  lemma FromWrittenText(n: Node, floating: JsonText.FloatReader, fw: JsonWriter.FloatWriter)
    requires JsonRoundTrip.Writable(n) && JsonText.NestedWithin(n, JsonText.DefaultRecursionLimit)
    ensures DdsFromText(JsonWriter.Minimized(n, fw), floating) == DdsFrom(n)
  {
    JsonRoundTrip.FromStringRoundTrip(n, JsonText.DefaultRecursionLimit, floating, fw);
  }
}
