/**
 * The agent details of src/zzz/details/agent.cpp: the `AgentBuilder`, and
 * the service functions that read an agent, its skills, their scales and
 * its anomalies from a parsed JSON document by driving the builders. Maps
 * keyed by `lib::hash(name)` are keyed by the name itself. A grid is held
 * as its entries; `StatsGrid::make_from` is `Grid.FromNode`.
 */
module AgentDetails {
  import opened Wrappers
  import opened Enums
  import opened StatBasic
  import opened JsonNode
  import Grid
  import EnumsConvert
  import Converters
  import SkillDetails
  import AnomalyDetails
  import JsonText
  import JsonParser
  import JsonWriter
  import JsonRoundTrip
  import CachedMemory

  /** `Ability`: a skill or an anomaly, in one table. */
  datatype Ability = SkillAbility(skill: SkillDetails.Skill) | AnomalyAbility(anomaly: AnomalyDetails.Anomaly)

  /** `Agent`: identity, element, stats and abilities by name. */
  datatype Agent = Agent(id: nat, name: string, speciality: Byte, element: Byte, rarity: Byte,
                         stats: map<nat, Stat>, abilities: map<string, Ability>)

  /** The product a builder starts from: value-initialised. */
  const Blank: Agent := Agent(0, "", SpecialityNone, ElementNone, NotSet, map[], map[])

  /** `ability(name)`: `unordered_map::at`, so an unknown name throws. */
  function AbilityOf(agent: Agent, name: string): (r: Result<Ability>)
    ensures r.Ok? <==> name in agent.abilities
    ensures r.Ok? ==> r.value == agent.abilities[name]
  {
    if name in agent.abilities then Ok(agent.abilities[name]) else Err("unordered_map::at")
  }

  /** `emplace(key, value)`: inserts only under a key not yet present. */
  function Emplaced(m: map<string, Ability>, key: string, a: Ability): (r: map<string, Ability>)
    ensures r.Keys == m.Keys + {key}
    ensures r[key] == if key in m then m[key] else a
    ensures forall k :: k in m ==> r[k] == m[k]
  {
    if key in m then m else m[key := a]
  }

  /** A second ability under a name already taken is ignored: the first one wins. */
  lemma EmplaceFirstWins(m: map<string, Ability>, key: string, first: Ability, second: Ability)
    ensures Emplaced(Emplaced(m, key, first), key, second) == Emplaced(m, key, first)
    ensures key !in m ==> Emplaced(Emplaced(m, key, first), key, second)[key] == first
  {
  }

  class AgentBuilder {
    /** `m_product`. */
    var product: Agent
    /** `_is_set`. */
    var idSet: bool
    var nameSet: bool
    var specialitySet: bool
    var elementSet: bool
    var raritySet: bool

    predicate Valid()
      reads this
    {
      Grid.WellKeyed(product.stats)
    }

    /** The five flags, as a tuple, for stating what a setter leaves alone. */
    function Flags(): (bool, bool, bool, bool, bool)
      reads this
    {
      (idSet, nameSet, specialitySet, elementSet, raritySet)
    }

    constructor ()
      ensures Valid() && product == Blank && Flags() == (false, false, false, false, false)
    {
      product := Blank;
      idSet, nameSet, specialitySet, elementSet, raritySet := false, false, false, false, false;
    }

    /** `set_id`: stores the id and sets its flag only. */
    method SetId(id: nat)
      requires Valid()
      modifies this
      ensures Valid() && product == old(product).(id := id)
      ensures Flags() == old(Flags()).(0 := true)
    {
      product, idSet := product.(id := id), true;
    }

    /** `set_name`: stores the name and sets its flag only. */
    method SetName(name: string)
      requires Valid()
      modifies this
      ensures Valid() && product == old(product).(name := name)
      ensures Flags() == old(Flags()).(1 := true)
    {
      product, nameSet := product.(name := name), true;
    }

    /** `set_speciality(Speciality)`: stores the speciality and sets its flag only. */
    method SetSpeciality(speciality: Byte)
      requires Valid()
      modifies this
      ensures Valid() && product == old(product).(speciality := speciality)
      ensures Flags() == old(Flags()).(2 := true)
    {
      product, specialitySet := product.(speciality := speciality), true;
    }

    /** `set_speciality(string_view)`: an unknown name throws before anything is stored. */
    method SetSpecialityNamed(text: string) returns (r: Result<()>)
      requires Valid()
      modifies this
      ensures Valid()
      ensures r.Ok? <==> EnumsConvert.StringToSpeciality(text).Ok?
      ensures r.Ok? ==> product == old(product).(speciality := EnumsConvert.StringToSpeciality(text).value)
      ensures r.Ok? ==> Flags() == old(Flags()).(2 := true)
      ensures r.Err? ==> r.error == EnumsConvert.StringToSpeciality(text).error
      ensures r.Err? ==> product == old(product) && Flags() == old(Flags())
    {
      var s :- EnumsConvert.StringToSpeciality(text);
      SetSpeciality(s);
      r := Ok(());
    }

    /** `set_element(Element)`: stores the element and sets its flag only. */
    method SetElement(element: Byte)
      requires Valid()
      modifies this
      ensures Valid() && product == old(product).(element := element)
      ensures Flags() == old(Flags()).(3 := true)
    {
      product, elementSet := product.(element := element), true;
    }

    /** `set_element(string_view)`: an unknown name throws before anything is stored. */
    method SetElementNamed(text: string) returns (r: Result<()>)
      requires Valid()
      modifies this
      ensures Valid()
      ensures r.Ok? <==> EnumsConvert.StringToElement(text).Ok?
      ensures r.Ok? ==> product == old(product).(element := EnumsConvert.StringToElement(text).value)
      ensures r.Ok? ==> Flags() == old(Flags()).(3 := true)
      ensures r.Err? ==> r.error == EnumsConvert.StringToElement(text).error
      ensures r.Err? ==> product == old(product) && Flags() == old(Flags())
    {
      var e :- EnumsConvert.StringToElement(text);
      SetElement(e);
      r := Ok(());
    }

    /** `set_rarity`: stores the rarity and sets its flag only. */
    method SetRarity(rarity: Byte)
      requires Valid()
      modifies this
      ensures Valid() && product == old(product).(rarity := rarity)
      ensures Flags() == old(Flags()).(4 := true)
    {
      product, raritySet := product.(rarity := rarity), true;
    }

    /** `add_stat`: `StatsGrid::set`, which replaces the entry under the stat's key. */
    method AddStat(s: Stat)
      requires Valid() && Grid.Admissible(s)
      modifies this
      ensures Valid() && product == old(product).(stats := old(product.stats)[Hash(s.q) := s])
      ensures Flags() == old(Flags())
    {
      product := product.(stats := product.stats[Hash(s.q) := s]);
    }

    /** `set_stats`: replaces the whole grid. */
    method SetStats(stats: map<nat, Stat>)
      requires Valid() && Grid.WellKeyed(stats)
      modifies this
      ensures Valid() && product == old(product).(stats := stats)
      ensures Flags() == old(Flags())
    {
      product := product.(stats := stats);
    }

    /** `add_skill`: emplaced under the skill's name. */
    method AddSkill(skill: SkillDetails.Skill)
      requires Valid()
      modifies this
      ensures Valid()
      ensures product == old(product).(abilities := Emplaced(old(product.abilities), skill.name, SkillAbility(skill)))
      ensures Flags() == old(Flags())
    {
      product := product.(abilities := Emplaced(product.abilities, skill.name, SkillAbility(skill)));
    }

    /** `add_anomaly`: emplaced under the anomaly's name, in the same table as the skills. */
    method AddAnomaly(anomaly: AnomalyDetails.Anomaly)
      requires Valid()
      modifies this
      ensures Valid()
      ensures product == old(product).(abilities := Emplaced(old(product.abilities), anomaly.name, AnomalyAbility(anomaly)))
      ensures Flags() == old(Flags())
    {
      product := product.(abilities := Emplaced(product.abilities, anomaly.name, AnomalyAbility(anomaly)));
    }

    /** `is_built`: id, name, speciality, element and rarity; stats and abilities are optional. */
    predicate IsBuilt()
      reads this
    {
      idSet && nameSet && specialitySet && elementSet && raritySet
    }

    /** `get_product`: throws unless built. */
    method GetProduct() returns (r: Result<Agent>)
      ensures r.Ok? <==> IsBuilt()
      ensures r.Ok? ==> r.value == product
    {
      if !IsBuilt() {
        return Err("you have to specify id, name, speciality, element, rarity and stats");
      }
      r := Ok(product);
    }
  }

  // ------------------------------------------------------------ reading JSON

  /** A member of an object node, read with `at`. */
  function Member(n: Node, key: string): (r: Result<Node>)
    ensures r == At(n, key)
  {
    At(n, key)
  }

  /**
   * `make_scale_from`: `[mv, daze]` takes the default element, a third
   * item is read as an element name. Fewer than two items would be read
   * past the end of the array.
   */
  function ScaleFrom(n: Node, default: Byte): (r: Result<SkillDetails.Scale>)
  {
    var items :- AsArray(n);
    if |items| < 2 then Err("index past the end of the array")
    else
      var mv :- AsFloating(items[0]);
      var daze :- AsFloating(items[1]);
      if |items| <= 2 then Ok(SkillDetails.Scale(mv, daze, default))
      else
        var text :- AsString(items[2]);
        var e :- EnumsConvert.StringToElement(text);
        Ok(SkillDetails.Scale(mv, daze, e))
  }

  /** A scale read from JSON carries the two numbers, and its element is the default exactly when there is no third item. */
  lemma ScaleFromMeaning(n: Node, default: Byte)
    ensures ScaleFrom(n, default).Ok? <==>
              n.Array? && |n.items| >= 2 && n.items[0].Floating? && n.items[1].Floating? &&
              (|n.items| > 2 ==> n.items[2].String? && n.items[2].str in ElementKeys)
    ensures ScaleFrom(n, default).Ok? ==>
              ScaleFrom(n, default).value.motionValue == n.items[0].floating &&
              ScaleFrom(n, default).value.daze == n.items[1].floating
    ensures ScaleFrom(n, default).Ok? && |n.items| == 2 ==> ScaleFrom(n, default).value.element == default
    ensures ScaleFrom(n, default).Ok? && |n.items| > 2 ==>
              ScaleFrom(n, default).value.element == ElementFromString(n.items[2].str) &&
              Physical <= ScaleFrom(n, default).value.element <= Ether
  {
  }

  /** Each item of a `scales` array read in order; the first failure is the exception. */
  function ScalesFrom(items: seq<Node>, default: Byte): (r: Result<seq<SkillDetails.Scale>>)
    ensures r.Ok? ==> |r.value| == |items|
    ensures r.Ok? ==> forall i :: 0 <= i < |items| ==> ScaleFrom(items[i], default) == Ok(r.value[i])
  {
    if items == [] then Ok([])
    else
      var init :- ScalesFrom(items[..|items| - 1], default);
      var last :- ScaleFrom(items[|items| - 1], default);
      Ok(init + [last])
  }

  /** Reading one more item of a prefix. */
  lemma ScalesNext(items: seq<Node>, default: Byte, i: nat)
    requires i < |items| && ScalesFrom(items[..i], default).Ok?
    ensures ScalesFrom(items[..i + 1], default) ==
              (var s :- ScaleFrom(items[i], default); Ok(ScalesFrom(items[..i], default).value + [s]))
  {
    assert items[..i + 1][..i] == items[..i];
  }

  /** A prefix that fails decides the exception of the whole array. */
  lemma {:induction false} ScalesFail(items: seq<Node>, default: Byte, j: nat)
    requires j <= |items| && ScalesFrom(items[..j], default).Err?
    ensures ScalesFrom(items, default) == ScalesFrom(items[..j], default)
  {
    if j < |items| {
      var init := items[..|items| - 1];
      assert init[..j] == items[..j];
      ScalesFail(init, default, j);
    } else {
      assert items[..j] == items;
    }
  }

  /**
   * `make_anomaly_from(key, json, default_element)`: the string "standard"
   * names a standard anomaly and any other string throws; an object gives
   * a scale, an optional element name and optional buffs, and the anomaly
   * can crit iff its buffs hold both the crit rate and the crit damage
   * under the Anomaly tag.
   */
  function AnomalyFrom(key: string, json: Node, default: Byte): (r: Result<AnomalyDetails.Anomaly>)
    ensures r.Ok? ==> r.value.name == key
  {
    if json.String? then
      if json.str == "standard" then AnomalyDetails.GetStandardAnomaly(key)
      else Err("anomaly as string can only be standard")
    else
      var table :- AsObject(json);
      var scaleNode :- Member(json, "scale");
      var scale :- AsFloating(scaleNode);
      var element :- if "element" in table then (var t :- AsString(table["element"]); EnumsConvert.StringToElement(t))
                     else Ok(default);
      var buffs :- BuffsOf(table);
      var canCrit := "buffs" in table && CanCrit(buffs);
      Ok(AnomalyDetails.Anomaly(key, scale, element, buffs, canCrit))
  }

  /** `contains(CritRate, Anomaly) && contains(CritDmg, Anomaly)`. */
  predicate CanCrit(buffs: map<nat, Stat>)
  {
    Hash(Qualifier(CritRate, AnomalyTag)) in buffs && Hash(Qualifier(CritDmg, AnomalyTag)) in buffs
  }

  /** What an anomaly read from JSON is. */
  lemma AnomalyFromMeaning(key: string, json: Node, default: Byte)
    ensures json.String? ==>
              (AnomalyFrom(key, json, default) ==
                 if json.str == "standard" then AnomalyDetails.GetStandardAnomaly(key)
                 else Err("anomaly as string can only be standard"))
    ensures !json.String? ==> (AnomalyFrom(key, json, default).Ok? <==>
              json.Object? && "scale" in json.fields && json.fields["scale"].Floating? &&
              ("element" in json.fields ==> json.fields["element"].String? && json.fields["element"].str in ElementKeys) &&
              ("buffs" in json.fields ==> Grid.FromNode(json.fields["buffs"]).Ok?))
    ensures !json.String? && AnomalyFrom(key, json, default).Ok? ==>
              AnomalyFrom(key, json, default).value.scale == json.fields["scale"].floating &&
              (AnomalyFrom(key, json, default).value.element ==
                 if "element" in json.fields then ElementFromString(json.fields["element"].str) else default) &&
              (AnomalyFrom(key, json, default).value.canCrit <==>
                 "buffs" in json.fields && CanCrit(AnomalyFrom(key, json, default).value.buffs))
    ensures AnomalyFrom(key, json, default).Ok? && !json.String? && "buffs" !in json.fields ==>
              !AnomalyFrom(key, json, default).value.canCrit && AnomalyFrom(key, json, default).value.buffs == map[]
  {
  }

  /**
   * `make_skill_from(key, json, default_element)`: the tag is required; a
   * "scale" gives one scale, otherwise "scales" gives each in order;
   * "buffs" are optional.
   */
  function SkillFrom(key: string, json: Node, default: Byte): (r: Result<SkillDetails.Skill>)
    ensures r.Ok? ==> r.value.name == key
  {
    var table :- AsObject(json);
    var tagNode :- Member(json, "tag");
    var tagText :- AsString(tagNode);
    var tag :- EnumsConvert.StringToTag(tagText);
    var scales :- ScalesOf(table, default);
    var buffs :- BuffsOf(table);
    Ok(SkillDetails.Skill(key, tag, scales, buffs))
  }

  /** The scales of a skill's table: "scale" wins over "scales"; neither gives none. */
  function ScalesOf(table: map<string, Node>, default: Byte): Result<seq<SkillDetails.Scale>>
  {
    if "scale" in table then (var s :- ScaleFrom(table["scale"], default); Ok([s]))
    else if "scales" in table then (var items :- AsArray(table["scales"]); ScalesFrom(items, default))
    else Ok([])
  }

  /** The optional "buffs" of a table, an empty grid without them. */
  function BuffsOf(table: map<string, Node>): (r: Result<map<nat, Stat>>)
    ensures r.Ok? ==> Grid.WellKeyed(r.value)
  {
    if "buffs" in table then Grid.FromNode(table["buffs"]) else Ok(map[])
  }

  /** What a skill read from JSON is: "scale" wins over "scales", whose items keep their order. */
  lemma SkillFromMeaning(key: string, json: Node, default: Byte)
    ensures SkillFrom(key, json, default).Ok? ==>
              json.Object? && "tag" in json.fields && json.fields["tag"].String? &&
              SkillFrom(key, json, default).value.tag == TagFromString(json.fields["tag"].str)
    ensures SkillFrom(key, json, default).Ok? && "scale" in json.fields ==>
              ScaleFrom(json.fields["scale"], default) == Ok(SkillFrom(key, json, default).value.scales[0]) &&
              |SkillFrom(key, json, default).value.scales| == 1
    ensures SkillFrom(key, json, default).Ok? && "scale" !in json.fields && "scales" in json.fields ==>
              json.fields["scales"].Array? &&
              |SkillFrom(key, json, default).value.scales| == |json.fields["scales"].items| &&
              forall i :: 0 <= i < |json.fields["scales"].items| ==>
                ScaleFrom(json.fields["scales"].items[i], default) == Ok(SkillFrom(key, json, default).value.scales[i])
    ensures SkillFrom(key, json, default).Ok? && "scale" !in json.fields && "scales" !in json.fields ==>
              SkillFrom(key, json, default).value.scales == []
  {
  }

  /** Every anomaly of an "anomalies" object, keyed by its name; one failure fails them all. */
  function AnomaliesFrom(fields: map<string, Node>, element: Byte): (r: Result<map<string, Ability>>)
  {
    if forall k :: k in fields ==> AnomalyFrom(k, fields[k], element).Ok? then
      Ok(ReadAnomalies(fields, fields.Keys, element))
    else Err("an anomaly could not be read")
  }

  /** The anomalies under the given keys of an object whose entries there all read. */
  function ReadAnomalies(fields: map<string, Node>, keys: set<string>, element: Byte): map<string, Ability>
    requires forall k :: k in keys ==> k in fields && AnomalyFrom(k, fields[k], element).Ok?
  {
    map k | k in keys :: AnomalyAbility(AnomalyFrom(k, fields[k], element).value)
  }

  /** Emplacing one more anomaly, under its own name, reads one more key. */
  lemma AnomalyStep(fields: map<string, Node>, keys: set<string>, k: string, element: Byte)
    requires forall j :: j in keys ==> j in fields && AnomalyFrom(j, fields[j], element).Ok?
    requires k in fields && k !in keys && AnomalyFrom(k, fields[k], element).Ok?
    ensures Emplaced(ReadAnomalies(fields, keys, element), AnomalyFrom(k, fields[k], element).value.name,
                     AnomalyAbility(AnomalyFrom(k, fields[k], element).value)) ==
            ReadAnomalies(fields, keys + {k}, element)
  {
  }

  /** Every skill of a "skills" object, keyed by its name; one failure fails them all. */
  function SkillsFrom(fields: map<string, Node>, element: Byte): (r: Result<map<string, Ability>>)
  {
    if forall k :: k in fields ==> SkillFrom(k, fields[k], element).Ok? then
      Ok(ReadSkills(fields, fields.Keys, element))
    else Err("a skill could not be read")
  }

  /** The skills under the given keys of an object whose entries there all read. */
  function ReadSkills(fields: map<string, Node>, keys: set<string>, element: Byte): map<string, Ability>
    requires forall k :: k in keys ==> k in fields && SkillFrom(k, fields[k], element).Ok?
  {
    map k | k in keys :: SkillAbility(SkillFrom(k, fields[k], element).value)
  }

  /**
   * Emplacing one more skill, under its own name, into skills read so far
   * over the abilities already present, reads one more key; where the name
   * is already present, that ability stays.
   */
  lemma SkillStep(fields: map<string, Node>, keys: set<string>, k: string, element: Byte, present: map<string, Ability>)
    requires forall j :: j in keys ==> j in fields && SkillFrom(j, fields[j], element).Ok?
    requires k in fields && k !in keys && SkillFrom(k, fields[k], element).Ok?
    ensures Emplaced(ReadSkills(fields, keys, element) + present, SkillFrom(k, fields[k], element).value.name,
                     SkillAbility(SkillFrom(k, fields[k], element).value)) ==
            ReadSkills(fields, keys + {k}, element) + present
  {
  }

  /**
   * `load_from_json(json)`: the agent's fields from the root object, its
   * stats grid, then the anomalies (optional) and the skills (required),
   * all emplaced into one table, anomalies first.
   */
  function AgentFrom(json: Node): (r: Result<Agent>)
    ensures r.Ok? ==> json.Object? && AbilitiesFrom(json.fields, r.value.element) == Ok(r.value.abilities)
  {
    var table :- AsObject(json);
    var elementNode :- Member(json, "element");
    var elementText :- AsString(elementNode);
    var element :- EnumsConvert.StringToElement(elementText);
    var idNode :- Member(json, "id");
    var id :- AsIntegral(idNode);
    var nameNode :- Member(json, "name");
    var name :- AsString(nameNode);
    var specialityNode :- Member(json, "speciality");
    var specialityText :- AsString(specialityNode);
    var speciality :- EnumsConvert.StringToSpeciality(specialityText);
    var rarityNode :- Member(json, "rarity");
    var rarity :- AsIntegral(rarityNode);
    var statsNode :- Member(json, "stats");
    var stats :- Grid.FromNode(statsNode);
    var abilities :- AbilitiesFrom(table, element);
    Ok(Agent(Converters.AsU64(id), name, speciality, element, Converters.AsU8(rarity), stats, abilities))
  }

  /**
   * What an agent read from JSON is, and when reading succeeds: the root is
   * an object with a known element name, an integral id, a string name, a
   * known speciality name, an integral rarity and a stats grid that reads,
   * and its abilities read under that element.
   */
  lemma AgentFromMeaning(json: Node)
    ensures AgentFrom(json).Ok? <==>
              json.Object? &&
              "element" in json.fields && json.fields["element"].String? &&
              EnumsConvert.StringToElement(json.fields["element"].str).Ok? &&
              "id" in json.fields && json.fields["id"].Integral? &&
              "name" in json.fields && json.fields["name"].String? &&
              "speciality" in json.fields && json.fields["speciality"].String? &&
              EnumsConvert.StringToSpeciality(json.fields["speciality"].str).Ok? &&
              "rarity" in json.fields && json.fields["rarity"].Integral? &&
              "stats" in json.fields && Grid.FromNode(json.fields["stats"]).Ok? &&
              AbilitiesFrom(json.fields, EnumsConvert.StringToElement(json.fields["element"].str).value).Ok?
    ensures AgentFrom(json).Ok? ==>
              var element := EnumsConvert.StringToElement(json.fields["element"].str).value;
              AgentFrom(json).value ==
                Agent(Converters.AsU64(json.fields["id"].integral), json.fields["name"].str,
                      EnumsConvert.StringToSpeciality(json.fields["speciality"].str).value, element,
                      Converters.AsU8(json.fields["rarity"].integral), Grid.FromNode(json.fields["stats"]).value,
                      AbilitiesFrom(json.fields, element).value)
  {
  }

  /** The anomalies (optional) and the skills (required) of an agent's table, anomalies emplaced first. */
  function AbilitiesFrom(table: map<string, Node>, element: Byte): (r: Result<map<string, Ability>>)
  {
    var anomalies :- if "anomalies" in table then (var f :- AsObject(table["anomalies"]); AnomaliesFrom(f, element))
                     else Ok(map[]);
    var skillsNode :- Member(Object(table), "skills");
    var skillFields :- AsObject(skillsNode);
    var skills :- SkillsFrom(skillFields, element);
    Ok(skills + anomalies)
  }

  /**
   * The abilities of a loaded agent: every anomaly and every skill under
   * its key, and where an anomaly and a skill share a name the anomaly,
   * emplaced first, is the one kept. Every ability inherits the agent's
   * element as its default.
   */
  lemma AgentAbilities(json: Node)
    requires AgentFrom(json).Ok?
    ensures json.Object? && "skills" in json.fields && json.fields["skills"].Object?
    ensures "anomalies" in json.fields ==> json.fields["anomalies"].Object?
    ensures forall k :: k in AgentFrom(json).value.abilities <==>
              k in json.fields["skills"].fields || ("anomalies" in json.fields && k in json.fields["anomalies"].fields)
    ensures "anomalies" in json.fields ==> forall k :: k in json.fields["anomalies"].fields ==>
              AgentFrom(json).value.abilities[k] ==
                AnomalyAbility(AnomalyFrom(k, json.fields["anomalies"].fields[k], AgentFrom(json).value.element).value)
    ensures forall k :: k in json.fields["skills"].fields &&
                        ("anomalies" !in json.fields || k !in json.fields["anomalies"].fields) ==>
              AgentFrom(json).value.abilities[k] ==
                SkillAbility(SkillFrom(k, json.fields["skills"].fields[k], AgentFrom(json).value.element).value)
  {
    AbilitiesParts(json.fields, AgentFrom(json).value.element);
  }

  /** Abilities that read are the skills overridden by the anomalies. */
  lemma AbilitiesParts(table: map<string, Node>, element: Byte)
    requires AbilitiesFrom(table, element).Ok?
    ensures "skills" in table && table["skills"].Object?
    ensures "anomalies" in table ==> table["anomalies"].Object?
    ensures SkillsFrom(table["skills"].fields, element).Ok?
    ensures "anomalies" in table ==> AnomaliesFrom(table["anomalies"].fields, element).Ok?
    ensures AbilitiesFrom(table, element).value ==
              SkillsFrom(table["skills"].fields, element).value +
              (if "anomalies" in table then AnomaliesFrom(table["anomalies"].fields, element).value else map[])
  {
  }

  // ------------------------------------------------------------ the builders at work

  /** `make_anomaly_from`, driving an `AnomalyBuilder`. */
  method MakeAnomalyFrom(key: string, json: Node, default: Byte) returns (r: Result<AnomalyDetails.Anomaly>)
    ensures r == AnomalyFrom(key, json, default)
  {
    if json.String? {
      if json.str == "standard" {
        return AnomalyDetails.GetStandardAnomaly(key);
      }
      return Err("anomaly as string can only be standard");
    }
    var table :- AsObject(json);
    var builder := new AnomalyDetails.AnomalyBuilder();
    builder.SetName(key);
    var scaleNode :- Member(json, "scale");
    var scale :- AsFloating(scaleNode);
    builder.SetScale(scale);
    if "element" in table {
      var text :- AsString(table["element"]);
      var stored :- builder.SetElementNamed(text);
    } else {
      builder.SetElement(default);
    }
    if "buffs" in table {
      var buffs :- Grid.FromNode(table["buffs"]);
      builder.SetBuffs(buffs);
      builder.SetCrit(CanCrit(buffs));
    }
    r := builder.GetProduct();
  }

  /** `make_skill_from`, driving a `SkillBuilder`. */
  method MakeSkillFrom(key: string, json: Node, default: Byte) returns (r: Result<SkillDetails.Skill>)
    ensures r == SkillFrom(key, json, default)
  {
    var table :- AsObject(json);
    var tagNode :- Member(json, "tag");
    var tagText :- AsString(tagNode);
    var tag :- EnumsConvert.StringToTag(tagText);
    var builder := new SkillDetails.SkillBuilder();
    builder.SetName(key);
    builder.SetTag(tag);
    if "scale" in table {
      var s :- ScaleFrom(table["scale"], default);
      assert builder.product.scales == [];
      builder.AddScale(s);
      assert builder.product.scales == [s];
    } else if "scales" in table {
      var items :- AsArray(table["scales"]);
      var added := AddScales(builder, items, default);
      if added.Err? {
        return Err(added.error);
      }
    }
    assert ScalesOf(table, default) == Ok(builder.product.scales);
    if "buffs" in table {
      var buffs :- Grid.FromNode(table["buffs"]);
      builder.SetBuffs(buffs);
    }
    r := builder.GetProduct();
  }

  /** The loop over a "scales" array: each scale is added in order. */
  method AddScales(builder: SkillDetails.SkillBuilder, items: seq<Node>, default: Byte) returns (r: Result<()>)
    requires builder.Valid() && builder.product.scales == []
    modifies builder
    ensures builder.Valid() && builder.nameSet == old(builder.nameSet) && builder.tagSet == old(builder.tagSet)
    ensures r.Ok? <==> ScalesFrom(items, default).Ok?
    ensures r.Ok? ==> builder.product == old(builder.product).(scales := ScalesFrom(items, default).value)
    ensures r.Err? ==> r.error == ScalesFrom(items, default).error
  {
    var i := 0;
    while i < |items|
      invariant i <= |items| && builder.Valid()
      invariant builder.nameSet == old(builder.nameSet) && builder.tagSet == old(builder.tagSet)
      invariant ScalesFrom(items[..i], default) == Ok(builder.product.scales)
      invariant builder.product == old(builder.product).(scales := builder.product.scales)
    {
      ScalesNext(items, default, i);
      var s := ScaleFrom(items[i], default);
      if s.Err? {
        ScalesFail(items, default, i + 1);
        return Err(s.error);
      }
      builder.AddScale(s.value);
      i := i + 1;
    }
    assert items[..i] == items;
    r := Ok(());
  }

  /**
   * The loop over the "anomalies" object: each entry, in whatever order the
   * object yields them, is read and emplaced; the first failure stops it.
   */
  method AddAnomalies(builder: AgentBuilder, fields: map<string, Node>, element: Byte) returns (r: Result<()>)
    requires builder.Valid() && builder.product.abilities == map[]
    modifies builder
    ensures builder.Valid() && builder.Flags() == old(builder.Flags())
    ensures r.Ok? <==> AnomaliesFrom(fields, element).Ok?
    ensures r.Ok? ==> builder.product == old(builder.product).(abilities := AnomaliesFrom(fields, element).value)
  {
    var remaining := fields.Keys;
    ghost var done: set<string> := {};
    while remaining != {}
      invariant remaining + done == fields.Keys && remaining !! done
      invariant builder.Valid() && builder.Flags() == old(builder.Flags())
      invariant forall k :: k in done ==> k in fields && AnomalyFrom(k, fields[k], element).Ok?
      invariant builder.product == old(builder.product).(abilities := ReadAnomalies(fields, done, element))
      decreases remaining
    {
      var k :| k in remaining;
      var a := MakeAnomalyFrom(k, fields[k], element);
      if a.Err? {
        return Err(a.error);
      }
      AnomalyStep(fields, done, k, element);
      builder.AddAnomaly(a.value);
      remaining, done := remaining - {k}, done + {k};
    }
    r := Ok(());
  }

  /**
   * The loop over the "skills" object: each entry is read and emplaced, so
   * a skill named like an anomaly already present is dropped.
   */
  method AddSkills(builder: AgentBuilder, fields: map<string, Node>, element: Byte) returns (r: Result<()>)
    requires builder.Valid()
    modifies builder
    ensures builder.Valid() && builder.Flags() == old(builder.Flags())
    ensures r.Ok? <==> SkillsFrom(fields, element).Ok?
    ensures r.Ok? ==> builder.product ==
                        old(builder.product).(abilities := SkillsFrom(fields, element).value + old(builder.product.abilities))
  {
    var remaining := fields.Keys;
    ghost var done: set<string> := {};
    ghost var present := builder.product.abilities;
    while remaining != {}
      invariant remaining + done == fields.Keys && remaining !! done
      invariant builder.Valid() && builder.Flags() == old(builder.Flags())
      invariant forall k :: k in done ==> k in fields && SkillFrom(k, fields[k], element).Ok?
      invariant builder.product == old(builder.product).(abilities := ReadSkills(fields, done, element) + present)
      decreases remaining
    {
      var k :| k in remaining;
      var s := MakeSkillFrom(k, fields[k], element);
      if s.Err? {
        return Err(s.error);
      }
      SkillStep(fields, done, k, element, present);
      builder.AddSkill(s.value);
      remaining, done := remaining - {k}, done + {k};
    }
    r := Ok(());
  }

  /**
   * `load_from_json(json)` driving an `AgentBuilder`: it fails exactly when
   * `AgentFrom` does, and otherwise yields the same
   * agent.
   */
  method LoadFromJson(json: Node) returns (r: Result<Agent>)
    ensures r.Ok? <==> AgentFrom(json).Ok?
    ensures r.Ok? ==> r.value == AgentFrom(json).value
  {
    var table :- AsObject(json);
    var builder := new AgentBuilder();
    var elementNode :- Member(json, "element");
    var elementText :- AsString(elementNode);
    var element :- EnumsConvert.StringToElement(elementText);
    var idNode :- Member(json, "id");
    var id :- AsIntegral(idNode);
    builder.SetId(Converters.AsU64(id));
    var nameNode :- Member(json, "name");
    var name :- AsString(nameNode);
    builder.SetName(name);
    var specialityNode :- Member(json, "speciality");
    var specialityText :- AsString(specialityNode);
    var stored :- builder.SetSpecialityNamed(specialityText);
    builder.SetElement(element);
    var rarityNode :- Member(json, "rarity");
    var rarity :- AsIntegral(rarityNode);
    builder.SetRarity(Converters.AsU8(rarity));
    var statsNode :- Member(json, "stats");
    var stats :- Grid.FromNode(statsNode);
    builder.SetStats(stats);
    var added := AddAbilities(builder, table, element);
    if added.Err? {
      return Err(added.error);
    }
    r := builder.GetProduct();
  }

  /** The anomalies, then the skills, of an agent's table emplaced into a builder with none yet. */
  method AddAbilities(builder: AgentBuilder, table: map<string, Node>, element: Byte) returns (r: Result<()>)
    requires builder.Valid() && builder.product.abilities == map[]
    modifies builder
    ensures builder.Valid() && builder.Flags() == old(builder.Flags())
    ensures r.Ok? <==> AbilitiesFrom(table, element).Ok?
    ensures r.Ok? ==> builder.product == old(builder.product).(abilities := AbilitiesFrom(table, element).value)
  {
    if "anomalies" in table {
      var anomalyFields :- AsObject(table["anomalies"]);
      var added := AddAnomalies(builder, anomalyFields, element);
      if added.Err? {
        return Err(added.error);
      }
    }
    var skillsNode :- Member(Object(table), "skills");
    var skillFields :- AsObject(skillsNode);
    var added := AddSkills(builder, skillFields, element);
    if added.Err? {
      return Err(added.error);
    }
    r := Ok(());
  }

  // ---------------------------------------------------------------- loading from text

  /** The agent a text in format 1 describes: the text parsed as JSON, then read by `load_from_json`. */
  function AgentFromText(input: string, floating: JsonText.FloatReader): Result<Agent>
  {
    var json :- JsonText.FromString(input, JsonText.DefaultRecursionLimit, floating);
    AgentFrom(json)
  }

  /**
   * `Agent::load_from_string(input, mode)`: in format 1 the text is parsed,
   * the agent loaded from it is set as the object's content, and the answer
   * is true; any other format leaves the object as it is and answers false.
   * A parse or load error throws before the object changes.
   */
  method LoadFromString(obj: CachedMemory.MObject<Agent>, input: string, mode: nat, floating: JsonText.FloatReader)
    returns (r: Result<bool>)
    modifies obj
    ensures mode != 1 ==> r == Ok(false) && obj.content == old(obj.content)
    ensures mode == 1 ==> (r.Ok? <==> AgentFromText(input, floating).Ok?)
    ensures mode == 1 && r.Ok? ==> r.value && obj.content == Some(AgentFromText(input, floating).value)
    ensures r.Err? ==> obj.content == old(obj.content)
    ensures obj.unusedPeriod == old(obj.unusedPeriod)
  {
    if mode != 1 {
      return Ok(false);
    }
    var json :- JsonParser.FromString(input, JsonText.DefaultRecursionLimit, floating);
    var details := LoadFromJson(json);
    if details.Err? {
      return Err(details.error);
    }
    obj.Set(details.value);
    r := Ok(true);
  }

  /**
   * Loading the text the JSON writer produced for a node gives what loading
   * the node gives, for a writable node within the default recursion limit.
   */
  lemma FromWrittenText(n: Node, floating: JsonText.FloatReader, fw: JsonWriter.FloatWriter)
    requires JsonRoundTrip.Writable(n) && JsonText.NestedWithin(n, JsonText.DefaultRecursionLimit)
    ensures AgentFromText(JsonWriter.Minimized(n, fw), floating) == AgentFrom(n)
  {
    JsonRoundTrip.FromStringRoundTrip(n, JsonText.DefaultRecursionLimit, floating, fw);
  }
}
