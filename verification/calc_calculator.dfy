/**
 * The damage calculator of src/calc/calculator.cpp: a request's stats are
 * summed into one grid, and every cell of the rotation is priced as a skill
 * hit or an anomaly against a fixed enemy. Grids are held as their entries;
 * a grid passed by value is a map handed to a function.
 */
module CalcCalculator {
  import opened Wrappers
  import opened Enums
  import opened StatBasic
  import Grid
  import SkillDetails
  import AnomalyDetails
  import AgentDetails
  import WengineDetails
  import DdsDetails
  import Rotation
  import Converters
  import StringFuncs

  /** `details::level_coefficient`. */
  const LevelCoefficient: real := 794.0

  /** `Calculator::enemy`: five resistances of 0.2, not stunned. */
  const CalcEnemy: Converters.Enemy := Converters.Enemy(0.2, 953.0, 1.5, [0.2, 0.2, 0.2, 0.2, 0.2], false)

  // ------------------------------------------------------------ get_value

  /** `get_value(table, id, tags)`: the Universal value, then each listed tag's, added up in order. */
  function TagSum(content: map<nat, Stat>, id: Byte, tags: seq<Byte>): Result<real>
    requires Grid.WellKeyed(content)
  {
    if tags == [] then Grid.ValueIn(content, Qualifier(id, Universal))
    else
      var before :- TagSum(content, id, tags[..|tags| - 1]);
      var last :- Grid.ValueIn(content, Qualifier(id, tags[|tags| - 1]));
      Ok(before + last)
  }

  /** The bases under each listed tag, a repeated tag counting again. */
  function TagBases(content: map<nat, Stat>, id: Byte, tags: seq<Byte>): real
  {
    if tags == [] then 0.0
    else TagBases(content, id, tags[..|tags| - 1]) + Grid.BaseAt(content, Hash(Qualifier(id, tags[|tags| - 1])))
  }

  /**
   * Over regular stats `get_value` never throws and is the Universal base
   * plus the base under every listed tag; a missing entry counts as 0.
   */
  lemma {:induction false} TagSumRegular(content: map<nat, Stat>, id: Byte, tags: seq<Byte>)
    requires Grid.WellKeyed(content) && Grid.AllRegular(content)
    ensures TagSum(content, id, tags) ==
              Ok(Grid.BaseAt(content, Hash(Qualifier(id, Universal))) + TagBases(content, id, tags))
  {
    if tags != [] {
      TagSumRegular(content, id, tags[..|tags| - 1]);
    }
  }

  /** A skill tagged Universal has its Universal value counted twice. */
  lemma UniversalTagTwice(content: map<nat, Stat>, id: Byte)
    requires Grid.WellKeyed(content) && Grid.AllRegular(content)
    ensures TagSum(content, id, [Universal]) == Ok(2.0 * Grid.BaseAt(content, Hash(Qualifier(id, Universal))))
  {
    TagSumRegular(content, id, [Universal]);
    assert [Universal][..0] == [];
  }

  /** Once a prefix of the tags throws, the whole sum throws the same way. */
  lemma {:induction false} TagSumStops(content: map<nat, Stat>, id: Byte, tags: seq<Byte>, n: nat)
    requires Grid.WellKeyed(content) && n <= |tags| && TagSum(content, id, tags[..n]).Err?
    ensures TagSum(content, id, tags) == TagSum(content, id, tags[..n])
    decreases |tags| - n
  {
    if n < |tags| {
      assert tags[..n + 1][..n] == tags[..n];
      TagSumStops(content, id, tags, n + 1);
    } else {
      assert tags[..n] == tags;
    }
  }

  /** `get_value`, the loop: exactly `TagSum`, a throwing lookup included. */
  method GetValue(content: map<nat, Stat>, id: Byte, tags: seq<Byte>) returns (r: Result<real>)
    requires Grid.WellKeyed(content)
    ensures r == TagSum(content, id, tags)
  {
    var first := Grid.ValueIn(content, Qualifier(id, Universal));
    if first.Err? {
      assert tags[..0] == [];
      TagSumStops(content, id, tags, 0);
      return first;
    }
    var result := first.value;
    for i := 0 to |tags|
      invariant TagSum(content, id, tags[..i]) == Ok(result)
    {
      assert tags[..i + 1][..i] == tags[..i];
      var v := Grid.ValueIn(content, Qualifier(id, tags[i]));
      if v.Err? {
        TagSumStops(content, id, tags, i + 1);
        return Err(v.error);
      }
      result := result + v.value;
    }
    assert tags[..|tags|] == tags;
    r := Ok(result);
  }

  // ------------------------------------------------------------ multipliers

  /** `calc_def_mult` past the lookups: never above 1, and exactly 1 once the effective defence is gone. */
  function DefMultOf(effective: real): (r: real)
    ensures 0.0 < r <= 1.0
    ensures r == 1.0 <==> effective <= 0.0
  {
    LevelCoefficient / ((if effective > 0.0 then effective else 0.0) + LevelCoefficient)
  }

  /** More effective defence never raises the multiplier. */
  lemma DefMultMonotone(a: real, b: real)
    requires a <= b
    ensures DefMultOf(b) <= DefMultOf(a)
  {
    var x := if a > 0.0 then a else 0.0;
    var y := if b > 0.0 then b else 0.0;
    DivAntitone(LevelCoefficient, x + LevelCoefficient, y + LevelCoefficient);
  }

  /** A positive numerator over a larger denominator gives a smaller quotient. */
  lemma DivAntitone(c: real, p: real, q: real)
    requires 0.0 < c && 0.0 < p <= q
    ensures c / q <= c / p
  {
    var u := c / p;
    var v := c / q;
    assert u * p == c && v * q == c;
    assert v * p <= v * q;
  }

  /** `calc_def_mult`: defence less the ratio penetration, less the flat penetration. */
  function DefMult(enemy: Converters.Enemy, content: map<nat, Stat>, tags: seq<Byte>): (r: Result<real>)
    requires Grid.WellKeyed(content)
    ensures r.Ok? <==> TagSum(content, DefPenRatio, tags).Ok? && TagSum(content, DefPenFlat, tags).Ok?
    ensures r.Ok? ==> 0.0 < r.value <= 1.0
  {
    var ratio :- TagSum(content, DefPenRatio, tags);
    var flat :- TagSum(content, DefPenFlat, tags);
    Ok(DefMultOf(enemy.defense * (1.0 - ratio) - flat))
  }

  /** `calc_dmg_taken_mult`: 1, less the enemy's damage reduction, plus vulnerability. */
  function DmgTakenMult(enemy: Converters.Enemy, content: map<nat, Stat>, tags: seq<Byte>): Result<real>
    requires Grid.WellKeyed(content)
  {
    var vulnerability :- TagSum(content, Vulnerability, tags);
    Ok(1.0 - enemy.dmgReduction + vulnerability)
  }

  /**
   * `enemy.res[element]` as written: the element's own value indexes the
   * resistances, and an index past the end reads outside the array.
   */
  function ResAsWritten(enemy: Converters.Enemy, element: Byte): (r: Result<real>)
    ensures r.Ok? <==> (element as int) < |enemy.res|
    ensures r.Ok? ==> r.value == enemy.res[element]
  {
    if (element as int) < |enemy.res| then Ok(enemy.res[element]) else Err("index past the end of res")
  }

  /** The resistance lookup as intended: Physical..Ether read slots 0..4. */
  function ResOf(enemy: Converters.Enemy, element: Byte): (r: Result<real>)
    ensures r.Ok? <==> 1 <= element as int <= |enemy.res|
    ensures r.Ok? ==> r.value == enemy.res[element - 1]
  {
    if 1 <= element as int <= |enemy.res| then Ok(enemy.res[element - 1]) else Err("element without a resistance")
  }

  /** With five resistances, Ether reads past the end as written, and Physical reads Fire's slot. */
  lemma ResIndexAsWritten(enemy: Converters.Enemy)
    requires |enemy.res| == 5
    ensures ResAsWritten(enemy, Ether).Err?
    ensures ResAsWritten(enemy, Physical) == Ok(enemy.res[1]) && ResOf(enemy, Fire) == Ok(enemy.res[1])
  {
  }

  /** As written, every element reads the slot the intended lookup gives the next element. */
  lemma ResShifted(enemy: Converters.Enemy, element: Byte)
    requires element < 255
    ensures ResAsWritten(enemy, element).Ok? <==> ResOf(enemy, element + 1).Ok?
    ensures ResAsWritten(enemy, element).Ok? ==> ResAsWritten(enemy, element).value == ResOf(enemy, element + 1).value
  {
  }

  /** With five resistances every damage element has one, each its own slot. */
  lemma ResIndexCorrected(enemy: Converters.Enemy, a: Byte, b: Byte)
    requires |enemy.res| == 5 && Physical <= a <= Ether && Physical <= b <= Ether
    ensures ResOf(enemy, a).Ok? && ResOf(enemy, b).Ok?
    ensures a != b ==> a - 1 != b - 1
    ensures ResOf(enemy, ElementNone).Err?
  {
  }

  /**
   * `calc_res_mult`: 1, less the resistance, plus the general and the
   * element's penetration. The resistance is read as written, at the
   * element's own value: None reads Physical's slot, and Ether, past the
   * end of five resistances, is an error.
   */
  function ResMult(enemy: Converters.Enemy, content: map<nat, Stat>, element: Byte, tags: seq<Byte>): Result<real>
    requires Grid.WellKeyed(content)
  {
    var res :- ResAsWritten(enemy, element);
    var pen :- TagSum(content, ResPen, tags);
    var elementId :- AddElement(ResPen, element);
    var elementPen :- TagSum(content, elementId, tags);
    Ok(1.0 - res + pen + elementPen)
  }

  /** `1.0 + calc_stun_mult(enemy, stats)`: 2 for an enemy that is not stunned. */
  function StunFactor(enemy: Converters.Enemy): (r: real)
    ensures !enemy.isStunned ==> r == 2.0
    ensures enemy.isStunned ==> r == 1.0 + enemy.stunMult
  {
    1.0 + if enemy.isStunned then enemy.stunMult else 1.0
  }

  /** The regular crit multiplier: the rate counts up to 100 only. */
  function CritMult(rate: real, dmg: real): real
  {
    1.0 + (if rate < 100.0 then rate else 100.0) * dmg
  }

  /** Any rate of 100 or more gives the same crit multiplier; below that, the rate itself counts. */
  lemma CritCapped(rate: real, other: real, dmg: real)
    requires rate >= 100.0 && other >= 100.0
    ensures CritMult(rate, dmg) == CritMult(other, dmg) == 1.0 + 100.0 * dmg
    ensures CritMult(50.0, dmg) == 1.0 + 50.0 * dmg
  {
  }

  // ------------------------------------------------------------ damage

  /** The product of the factors, left to right. */
  function Product(factors: seq<real>): real
  {
    if factors == [] then 1.0 else factors[0] * Product(factors[1..])
  }

  /** `StatId::DmgRatio + element`, which never throws for DmgRatio. */
  function ElementRatio(element: Byte): (id: Byte)
    ensures AddElement(DmgRatio, element) == Ok(id)
  {
    AddElement(DmgRatio, element).value
  }

  /**
   * `calc_regular_dmg(skill, index, stats, enemy)`: the scale at `index`,
   * the skill's buffs added to a copy of the grid, then the product of the
   * multipliers under the skill's tag.
   */
  function RegularDamage(skill: SkillDetails.Skill, index: int, content: map<nat, Stat>,
                         enemy: Converters.Enemy): (r: Result<real>)
    requires Grid.WellKeyed(content) && Grid.WellKeyed(skill.buffs)
    ensures r.Ok? ==> 0 <= index < |skill.scales| && !Grid.Clash(content, skill.buffs)
    ensures r.Ok? ==> ResAsWritten(enemy, skill.scales[index].element).Ok?
  {
    if !(0 <= index < |skill.scales|) then Err("vector index out of range")
    else if Grid.Clash(content, skill.buffs) then Err("two relative stats under one qualifier")
    else
      var scale := skill.scales[index];
      Grid.MergedKeyed(content, skill.buffs);
      var stats := Grid.Merged(content, skill.buffs);
      var tags := [skill.tag];
      var atk :- Grid.ValueIn(stats, Qualifier(AtkTotal, Universal));
      var rate :- TagSum(stats, CritRate, tags);
      var critDmg :- TagSum(stats, CritDmg, tags);
      var ratio :- TagSum(stats, DmgRatio, tags);
      var ratioId := ElementRatio(scale.element);
      var elementRatio :- TagSum(stats, ratioId, tags);
      var taken :- DmgTakenMult(enemy, stats, tags);
      var def :- DefMult(enemy, stats, tags);
      var res :- ResMult(enemy, stats, scale.element, tags);
      Ok(Product([scale.motionValue / 100.0 * atk, CritMult(rate, critDmg), 1.0 + ratio + elementRatio,
                  taken, def, res, StunFactor(enemy)]))
  }

  /**
   * `calc_anomaly_dmg(anomaly, element, stats, enemy)`: the anomaly's buffs
   * added to a copy of the grid; crit only when the anomaly can crit, read
   * under the Anomaly tag; the elemental damage ratio counts in both ratio
   * factors. The agent's element `agentElement` is passed but unused.
   */
  function AnomalyDamage(anomaly: AnomalyDetails.Anomaly, agentElement: Byte, content: map<nat, Stat>,
                         enemy: Converters.Enemy): (r: Result<real>)
    requires Grid.WellKeyed(content) && Grid.WellKeyed(anomaly.buffs)
    ensures r.Ok? ==> !Grid.Clash(content, anomaly.buffs) && ResAsWritten(enemy, anomaly.element).Ok?
  {
    if Grid.Clash(content, anomaly.buffs) then Err("two relative stats under one qualifier")
    else
      Grid.MergedKeyed(content, anomaly.buffs);
      var stats := Grid.Merged(content, anomaly.buffs);
      var tags := [AnomalyTag];
      var ratioId := ElementRatio(anomaly.element);
      var atk :- Grid.ValueIn(stats, Qualifier(AtkTotal, Universal));
      var crit :- AnomalyCrit(anomaly.canCrit, stats);
      var ratio :- Grid.ValueIn(stats, Qualifier(DmgRatio, Universal));
      var elementRatio :- Grid.ValueIn(stats, Qualifier(ratioId, Universal));
      var anomalyRatio :- Grid.ValueIn(stats, Qualifier(DmgRatio, AnomalyTag));
      var taken :- DmgTakenMult(enemy, stats, tags);
      var def :- DefMult(enemy, stats, tags);
      var res :- ResMult(enemy, stats, anomaly.element, tags);
      Ok(Product([anomaly.scale / 100.0 * atk, crit, 1.0 + ratio + elementRatio, 1.0 + anomalyRatio + elementRatio,
                  taken, def, res, StunFactor(enemy)]))
  }

  /**
   * A basic attack of 100% motion value with 1000 total attack and no other
   * stats, against the calculator's enemy: crit and ratio factors of 1,
   * damage taken 0.8, defence 794 / (953 + 794), resistance 0.8 and the
   * stun factor 2.
   */
  lemma RegularExample()
    ensures var q := Qualifier(AtkTotal, Universal);
            var skill := SkillDetails.Skill("basic", Basic, [SkillDetails.Scale(100.0, 0.0, Physical)], map[]);
            RegularDamage(skill, 0, map[Hash(q) := Regular(q, false, 1000.0)], CalcEnemy) ==
              Ok(1000.0 * 0.8 * (794.0 / 1747.0) * 0.8 * 2.0)
  {
    var q := Qualifier(AtkTotal, Universal);
    var content := map[Hash(q) := Regular(q, false, 1000.0)];
    Grid.MergedMeaning(content, map[]);
    assert Grid.Merged(content, map[]) == content;
    ExampleFactors(content);
    ExampleProduct();
  }

  /** Each lookup and multiplier of the example, on its one-entry grid. */
  lemma ExampleFactors(content: map<nat, Stat>)
    requires content == map[Hash(Qualifier(AtkTotal, Universal)) := Regular(Qualifier(AtkTotal, Universal), false, 1000.0)]
    ensures Grid.WellKeyed(content)
    ensures Grid.ValueIn(content, Qualifier(AtkTotal, Universal)) == Ok(1000.0)
    ensures TagSum(content, CritRate, [Basic]) == TagSum(content, CritDmg, [Basic]) == Ok(0.0)
    ensures TagSum(content, DmgRatio, [Basic]) == TagSum(content, ElementRatio(Physical), [Basic]) == Ok(0.0)
    ensures DefMult(CalcEnemy, content, [Basic]) == Ok(794.0 / 1747.0)
    ensures ResMult(CalcEnemy, content, Physical, [Basic]) == Ok(0.8)
    ensures DmgTakenMult(CalcEnemy, content, [Basic]) == Ok(0.8)
  {
    var q := Qualifier(AtkTotal, Universal);
    assert Grid.WellKeyed(content) by { assert Hash(q) == 5; }
    ZeroTagSum(content, CritRate);
    ZeroTagSum(content, CritDmg);
    ZeroTagSum(content, DmgRatio);
    ZeroTagSum(content, ElementRatio(Physical));
    ZeroTagSum(content, Vulnerability);
    ZeroTagSum(content, DefPenRatio);
    ZeroTagSum(content, DefPenFlat);
    ZeroTagSum(content, ResPen);
    ZeroTagSum(content, ResPen + Physical);
  }

  /** The example's product, factor by factor. */
  lemma ExampleProduct()
    ensures Product([100.0 / 100.0 * 1000.0, CritMult(0.0, 0.0), 1.0 + 0.0 + 0.0, 0.8, 794.0 / 1747.0, 0.8, StunFactor(CalcEnemy)]) ==
              1000.0 * 0.8 * (794.0 / 1747.0) * 0.8 * 2.0
  {
    var d := 794.0 / 1747.0;
    assert Product([2.0]) == 2.0;
    assert Product([0.8, 2.0]) == 1.6;
    assert Product([d, 0.8, 2.0]) == d * 1.6;
    assert Product([0.8, d, 0.8, 2.0]) == 0.8 * (d * 1.6);
    assert Product([1.0, 0.8, d, 0.8, 2.0]) == 0.8 * (d * 1.6);
    assert Product([1.0, 1.0, 0.8, d, 0.8, 2.0]) == 0.8 * (d * 1.6);
    assert CritMult(0.0, 0.0) == 1.0 && StunFactor(CalcEnemy) == 2.0;
    assert Product([1000.0, 1.0, 1.0, 0.8, d, 0.8, 2.0]) == 1000.0 * (0.8 * (d * 1.6));
  }

  /** A stat the single-entry grid of the example lacks sums to 0 under the Basic tag. */
  lemma ZeroTagSum(content: map<nat, Stat>, id: Byte)
    requires content.Keys == {Hash(Qualifier(AtkTotal, Universal))} && Grid.WellKeyed(content) && id != AtkTotal
    ensures TagSum(content, id, [Basic]) == Ok(0.0)
  {
    assert [Basic][..0] == [];
    assert Hash(Qualifier(id, Universal)) != Hash(Qualifier(AtkTotal, Universal));
  }

  /** The anomaly crit multiplier: 1 when the anomaly cannot crit, the stats not even read. */
  function AnomalyCrit(canCrit: bool, stats: map<nat, Stat>): (r: Result<real>)
    requires Grid.WellKeyed(stats)
    ensures !canCrit ==> r == Ok(1.0)
  {
    if !canCrit then Ok(1.0)
    else
      var rate :- Grid.ValueIn(stats, Qualifier(CritRate, AnomalyTag));
      var critDmg :- Grid.ValueIn(stats, Qualifier(CritDmg, AnomalyTag));
      Ok(CritMult(rate, critDmg))
  }

  /** The agent's element plays no part in an anomaly's damage. */
  lemma AgentElementUnused(anomaly: AnomalyDetails.Anomaly, e: Byte, f: Byte, content: map<nat, Stat>,
                           enemy: Converters.Enemy)
    requires Grid.WellKeyed(content) && Grid.WellKeyed(anomaly.buffs)
    ensures AnomalyDamage(anomaly, e, content, enemy) == AnomalyDamage(anomaly, f, content, enemy)
  {
  }

  // ------------------------------------------------------------ calc_stats

  /**
   * `request_t`, which the repository does not define: the agent, the
   * W-engine, the six discs' grids, the sets in the order the
   * `dds_by_count` loop visits them, and the expanded rotation.
   */
  datatype Request = Request(agent: AgentDetails.Agent, wengine: WengineDetails.Wengine,
                             ddps: seq<map<nat, Stat>>, ddsByCount: seq<(nat, DdsDetails.Dds)>,
                             rotation: seq<Rotation.Cell>)

  predicate AllKeyed(grids: seq<map<nat, Stat>>)
  {
    forall i :: 0 <= i < |grids| ==> Grid.WellKeyed(grids[i])
  }

  /** The buffs an ability adds to its own copy of the grid. */
  function BuffsOf(a: AgentDetails.Ability): map<nat, Stat>
  {
    match a
    case SkillAbility(skill) => skill.buffs
    case AnomalyAbility(anomaly) => anomaly.buffs
  }

  predicate AbilitiesKeyed(agent: AgentDetails.Agent)
  {
    forall name :: name in agent.abilities ==> Grid.WellKeyed(BuffsOf(agent.abilities[name]))
  }

  /** Six discs, and every grid keyed by its stats' qualifiers. */
  predicate WellFormed(request: Request)
  {
    |request.ddps| == Converters.DiscCount &&
    Grid.WellKeyed(request.agent.stats) && Grid.WellKeyed(request.wengine.stats) &&
    AllKeyed(request.ddps) && AbilitiesKeyed(request.agent) &&
    forall j :: 0 <= j < |request.ddsByCount| ==>
      Grid.WellKeyed(request.ddsByCount[j].1.pc2) && Grid.WellKeyed(request.ddsByCount[j].1.pc4)
  }

  /** A set's share: its 2-piece bonus for count 2, its 4-piece bonus for count 4, else nothing. */
  function TierBonus(entry: (nat, DdsDetails.Dds)): seq<map<nat, Stat>>
  {
    if entry.0 == 2 then [entry.1.pc2] else if entry.0 == 4 then [entry.1.pc4] else []
  }

  /** The set bonuses the `dds_by_count` loop adds, in its order. */
  function SetBonuses(entries: seq<(nat, DdsDetails.Dds)>): seq<map<nat, Stat>>
  {
    if entries == [] then [] else TierBonus(entries[0]) + SetBonuses(entries[1..])
  }

  /** Every grid `calc_stats` adds, in order: agent, W-engine, the six discs, then the set bonuses. */
  function Contributions(request: Request): seq<map<nat, Stat>>
  {
    [request.agent.stats, request.wengine.stats] + request.ddps + SetBonuses(request.ddsByCount)
  }

  /** Each grid `add`ed in turn into `start`; the first clash of two relative stats throws. */
  function AddAll(start: map<nat, Stat>, grids: seq<map<nat, Stat>>): (r: Result<map<nat, Stat>>)
    requires Grid.WellKeyed(start) && AllKeyed(grids)
    ensures r.Ok? ==> Grid.WellKeyed(r.value)
  {
    if grids == [] then Ok(start)
    else
      var before :- AddAll(start, grids[..|grids| - 1]);
      var last := grids[|grids| - 1];
      if Grid.Clash(before, last) then Err("two relative stats under one qualifier")
      else
        Grid.MergedKeyed(before, last);
        Ok(Grid.Merged(before, last))
  }

  /** Once a prefix of the grids throws, so does the whole sequence. */
  lemma {:induction false} AddAllStops(start: map<nat, Stat>, grids: seq<map<nat, Stat>>, n: nat)
    requires Grid.WellKeyed(start) && AllKeyed(grids) && n <= |grids| && AddAll(start, grids[..n]).Err?
    ensures AddAll(start, grids).Err?
    decreases |grids| - n
  {
    if n < |grids| {
      assert grids[..n + 1][..n] == grids[..n];
      AddAllStops(start, grids, n + 1);
    } else {
      assert grids[..n] == grids;
    }
  }

  /** The bases under key `k` across the grids. */
  function GridsBase(grids: seq<map<nat, Stat>>, k: nat): real
  {
    if grids == [] then 0.0 else GridsBase(grids[..|grids| - 1], k) + Grid.BaseAt(grids[|grids| - 1], k)
  }

  /**
   * Adding all-regular grids never throws, and every key ends up holding
   * the sum of its bases across the start and all the grids.
   */
  lemma {:induction false} AddAllRegular(start: map<nat, Stat>, grids: seq<map<nat, Stat>>)
    requires Grid.WellKeyed(start) && Grid.AllRegular(start) && AllKeyed(grids)
    requires forall i :: 0 <= i < |grids| ==> Grid.AllRegular(grids[i])
    ensures AddAll(start, grids).Ok? && Grid.AllRegular(AddAll(start, grids).value)
    ensures forall k :: Grid.BaseAt(AddAll(start, grids).value, k) == Grid.BaseAt(start, k) + GridsBase(grids, k)
  {
    if grids != [] {
      var init := grids[..|grids| - 1];
      AddAllRegular(start, init);
      Grid.RegularMerge(AddAll(start, init).value, grids[|grids| - 1]);
    }
  }

  /** `calc_stats`, as one value: the contributions added into an empty grid. */
  function StatsOf(request: Request): (r: Result<map<nat, Stat>>)
    requires WellFormed(request)
    ensures r.Ok? ==> Grid.WellKeyed(r.value)
  {
    assert AllKeyed(Contributions(request)) by {
      ContributionsKeyed(request, request.ddsByCount);
    }
    AddAll(map[], Contributions(request))
  }

  lemma {:induction false} ContributionsKeyed(request: Request, entries: seq<(nat, DdsDetails.Dds)>)
    requires WellFormed(request) && entries == request.ddsByCount
    ensures AllKeyed(SetBonuses(entries)) && AllKeyed(Contributions(request))
    decreases |entries|
  {
    if entries != [] {
      var rest := entries[1..];
      ContributionsKeyed(request.(ddsByCount := rest), rest);
    }
  }

  /**
   * A request of regular stats always sums: each key holds the agent's,
   * the W-engine's, the discs' and the chosen set bonuses' bases added up.
   */
  lemma StatsOfRegular(request: Request)
    requires WellFormed(request)
    requires forall i :: 0 <= i < |Contributions(request)| ==> Grid.AllRegular(Contributions(request)[i])
    ensures StatsOf(request).Ok? && Grid.AllRegular(StatsOf(request).value)
    ensures forall k :: Grid.BaseAt(StatsOf(request).value, k) == GridsBase(Contributions(request), k)
  {
    ContributionsKeyed(request, request.ddsByCount);
    AddAllRegular(map[], Contributions(request));
  }

  /** The first `n` grids of `all` have been added into an empty grid, giving `content`. */
  predicate Reached(content: map<nat, Stat>, all: seq<map<nat, Stat>>, n: nat)
    requires AllKeyed(all)
  {
    n <= |all| && AddAll(map[], all[..n]) == Ok(content)
  }

  /** `result.add(grid)` for the `n`-th contribution, given the first `n` are in. */
  method AddTo(result: Grid.StatsGrid, grid: map<nat, Stat>, ghost all: seq<map<nat, Stat>>, ghost n: nat)
    returns (r: Result<()>)
    requires result.Valid() && AllKeyed(all) && n < |all| && all[n] == grid
    requires Reached(result.content, all, n)
    modifies result
    ensures result.Valid()
    ensures r.Ok? ==> Reached(result.content, all, n + 1)
    ensures r.Err? ==> AddAll(map[], all).Err?
  {
    var other := new Grid.StatsGrid.Empty();
    other.content := grid;
    assert all[..n + 1][..n] == all[..n];
    r := result.AddGrid(other);
    if r.Err? {
      AddAllStops(map[], all, n + 1);
    }
  }

  /**
   * `calc_stats(request)`: agent, W-engine, the six discs, then for each
   * set its 2-piece bonus when counted twice and its 4-piece bonus when
   * counted four times. Succeeds exactly when `StatsOf` does, with its value.
   */
  method CalcStats(request: Request) returns (r: Result<map<nat, Stat>>)
    requires WellFormed(request)
    ensures r.Ok? <==> StatsOf(request).Ok?
    ensures r.Ok? ==> r.value == StatsOf(request).value
  {
    ghost var all := Contributions(request);
    ContributionsKeyed(request, request.ddsByCount);
    var result := new Grid.StatsGrid.Empty();
    var step := AddTo(result, request.agent.stats, all, 0);
    if step.Err? {
      return Err(step.error);
    }
    step := AddTo(result, request.wengine.stats, all, 1);
    if step.Err? {
      return Err(step.error);
    }
    for i := 0 to 6
      invariant result.Valid() && Reached(result.content, all, 2 + i)
    {
      step := AddTo(result, request.ddps[i], all, 2 + i);
      if step.Err? {
        return Err(step.error);
      }
    }
    assert request.ddsByCount[0..] == request.ddsByCount;
    step := AddSetBonuses(result, request.ddsByCount, all, 8);
    if step.Err? {
      return Err(step.error);
    }
    r := Ok(result.content);
  }

  /**
   * One set of the `dds_by_count` loop: the `j`-th set's bonus for its
   * count, if any, added as the grid at position `at` of `all`; `next` is
   * where the later sets' bonuses start.
   */
  method AddTier(result: Grid.StatsGrid, entries: seq<(nat, DdsDetails.Dds)>, j: nat,
                 ghost all: seq<map<nat, Stat>>, ghost at: nat) returns (r: Result<()>, ghost next: nat)
    requires result.Valid() && AllKeyed(all) && j < |entries|
    requires at <= |all| && all[at..] == SetBonuses(entries[j..])
    requires Reached(result.content, all, at)
    modifies result
    ensures result.Valid()
    ensures r.Ok? ==> next <= |all| && all[next..] == SetBonuses(entries[j + 1..]) && Reached(result.content, all, next)
    ensures r.Err? ==> AddAll(map[], all).Err?
  {
    TierStep(entries, j, all, at);
    next := at + |TierBonus(entries[j])|;
    var (count, dds) := entries[j];
    if count == 2 {
      r := AddTo(result, dds.pc2, all, at);
    } else if count == 4 {
      r := AddTo(result, dds.pc4, all, at);
    } else {
      r := Ok(());
    }
  }

  /** The `j`-th set's bonus, if any, sits at `at`, and the later sets' bonuses right after it. */
  lemma TierStep(entries: seq<(nat, DdsDetails.Dds)>, j: nat, all: seq<map<nat, Stat>>, at: nat)
    requires j < |entries| && at <= |all| && all[at..] == SetBonuses(entries[j..])
    ensures at + |TierBonus(entries[j])| <= |all|
    ensures all[at + |TierBonus(entries[j])|..] == SetBonuses(entries[j + 1..])
    ensures TierBonus(entries[j]) != [] ==> all[at] == TierBonus(entries[j])[0]
  {
    assert entries[j..][1..] == entries[j + 1..];
    if TierBonus(entries[j]) != [] {
      assert all[at] == all[at..][0];
    }
  }

  /**
   * The `dds_by_count` loop: for each set its 2-piece bonus when counted
   * twice, its 4-piece bonus when counted four times, nothing otherwise.
   * `all` ends with those bonuses from position `start` on.
   */
  method AddSetBonuses(result: Grid.StatsGrid, entries: seq<(nat, DdsDetails.Dds)>,
                       ghost all: seq<map<nat, Stat>>, ghost start: nat) returns (r: Result<()>)
    requires result.Valid() && AllKeyed(all)
    requires start <= |all| && all[start..] == SetBonuses(entries)
    requires Reached(result.content, all, start)
    modifies result
    ensures result.Valid()
    ensures r.Ok? ==> AddAll(map[], all) == Ok(result.content)
    ensures r.Err? ==> AddAll(map[], all).Err?
  {
    ghost var at: nat := start;
    for j := 0 to |entries|
      invariant result.Valid()
      invariant at <= |all| && all[at..] == SetBonuses(entries[j..])
      invariant Reached(result.content, all, at)
    {
      r, at := AddTier(result, entries, j, all, at);
      if r.Err? {
        return;
      }
    }
    assert entries[|entries|..] == [];
    assert at == |all| && all[..at] == all;
    r := Ok(());
  }

  // ------------------------------------------------------------ eval

  /**
   * The damage of one rotation cell: the agent's ability by the cell's
   * command (`unordered_map::at`, so an unknown command throws), priced as
   * a skill at scale `index - 1` or as an anomaly. Every cell reads the
   * same grid.
   */
  function CellDamage(agent: AgentDetails.Agent, stats: map<nat, Stat>, enemy: Converters.Enemy,
                      cell: Rotation.Cell): (r: Result<real>)
    requires Grid.WellKeyed(stats) && AbilitiesKeyed(agent)
    ensures r.Ok? ==> cell.command in agent.abilities
    ensures r.Ok? && agent.abilities[cell.command].SkillAbility? ==>
              1 <= cell.index <= |agent.abilities[cell.command].skill.scales|
  {
    var ability :- AgentDetails.AbilityOf(agent, cell.command);
    match ability
    case SkillAbility(skill) => RegularDamage(skill, cell.index - 1, stats, enemy)
    case AnomalyAbility(anomaly) => AnomalyDamage(anomaly, agent.element, stats, enemy)
  }

  /** `CellDamage` on a fixed agent, grid and enemy, as a function of the cell. */
  function Pricer(agent: AgentDetails.Agent, stats: map<nat, Stat>, enemy: Converters.Enemy): (f: Rotation.Cell -> Result<real>)
    requires Grid.WellKeyed(stats) && AbilitiesKeyed(agent)
    ensures forall cell :: f(cell) == CellDamage(agent, stats, enemy, cell)
  {
    cell => CellDamage(agent, stats, enemy, cell)
  }

  /** The cells priced in order; the first cell that throws ends it. */
  function Damages(agent: AgentDetails.Agent, stats: map<nat, Stat>, enemy: Converters.Enemy,
                   cells: seq<Rotation.Cell>): Result<seq<real>>
    requires Grid.WellKeyed(stats) && AbilitiesKeyed(agent)
  {
    MapResults(Pricer(agent, stats, enemy), cells)
  }

  /**
   * One value per cell, in rotation order, each the cell's own damage on
   * the shared grid: no cell sees what another cell's ability added.
   */
  lemma DamagesMeaning(agent: AgentDetails.Agent, stats: map<nat, Stat>,
                                          enemy: Converters.Enemy, cells: seq<Rotation.Cell>)
    requires Grid.WellKeyed(stats) && AbilitiesKeyed(agent)
    ensures Damages(agent, stats, enemy, cells).Ok? <==>
              forall i :: 0 <= i < |cells| ==> CellDamage(agent, stats, enemy, cells[i]).Ok?
    ensures Damages(agent, stats, enemy, cells).Ok? ==>
              |Damages(agent, stats, enemy, cells).value| == |cells| &&
              forall i :: 0 <= i < |cells| ==>
                Damages(agent, stats, enemy, cells).value[i] == CellDamage(agent, stats, enemy, cells[i]).value
  {
    MapResultsMeaning(Pricer(agent, stats, enemy), cells);
  }

  /** Once a prefix of the cells throws, the whole rotation throws the same way. */
  lemma DamagesStop(agent: AgentDetails.Agent, stats: map<nat, Stat>, enemy: Converters.Enemy,
                                       cells: seq<Rotation.Cell>, n: nat)
    requires Grid.WellKeyed(stats) && AbilitiesKeyed(agent)
    requires n <= |cells| && Damages(agent, stats, enemy, cells[..n]).Err?
    ensures Damages(agent, stats, enemy, cells) == Damages(agent, stats, enemy, cells[..n])
  {
    MapResultsStop(Pricer(agent, stats, enemy), cells, n);
  }

  /** The sum of the values, added in order. */
  function Sum(xs: seq<real>): real
  {
    if xs == [] then 0.0 else Sum(xs[..|xs| - 1]) + xs[|xs| - 1]
  }

  /** Summing is additive over a split. */
  lemma {:induction false} SumAppend(a: seq<real>, b: seq<real>)
    ensures Sum(a + b) == Sum(a) + Sum(b)
  {
    if b != [] {
      assert (a + b)[..|a + b| - 1] == a + b[..|b| - 1];
      SumAppend(a, b[..|b| - 1]);
    } else {
      assert a + b == a;
    }
  }

  /**
   * A rotation split in two prices as its halves do: the values of the
   * whole are those of the first half followed by those of the second,
   * and the total is the sum of the halves' totals.
   */
  lemma {:induction false} DamagesAppend(agent: AgentDetails.Agent, stats: map<nat, Stat>, enemy: Converters.Enemy,
                                         a: seq<Rotation.Cell>, b: seq<Rotation.Cell>)
    requires Grid.WellKeyed(stats) && AbilitiesKeyed(agent)
    ensures Damages(agent, stats, enemy, a + b).Ok? <==>
              Damages(agent, stats, enemy, a).Ok? && Damages(agent, stats, enemy, b).Ok?
    ensures Damages(agent, stats, enemy, a + b).Ok? ==>
              Damages(agent, stats, enemy, a + b).value ==
                Damages(agent, stats, enemy, a).value + Damages(agent, stats, enemy, b).value &&
              Sum(Damages(agent, stats, enemy, a + b).value) ==
                Sum(Damages(agent, stats, enemy, a).value) + Sum(Damages(agent, stats, enemy, b).value)
  {
    MapResultsAppend(Pricer(agent, stats, enemy), a, b);
    if Damages(agent, stats, enemy, a + b).Ok? {
      SumAppend(Damages(agent, stats, enemy, a).value, Damages(agent, stats, enemy, b).value);
    }
  }

  /** The grid `eval` prices against: the summed stats with `atkTotal` added under its qualifier. */
  function EvalStats(request: Request, atkTotal: Stat): (r: Result<map<nat, Stat>>)
    requires WellFormed(request) && Grid.Admissible(atkTotal)
    ensures r.Ok? ==> Grid.WellKeyed(r.value)
  {
    var base :- StatsOf(request);
    Grid.Inserted(base, atkTotal)
  }

  /** What `eval` computes: the total and the value of each cell. */
  function EvalOf(request: Request, atkTotal: Stat): Result<(real, seq<real>)>
    requires WellFormed(request) && Grid.Admissible(atkTotal)
  {
    var stats :- EvalStats(request, atkTotal);
    var perAbility :- Damages(request.agent, stats, CalcEnemy, request.rotation);
    Ok((Sum(perAbility), perAbility))
  }

  /**
   * `Calculator::eval(request)`: sums the stats, adds the total attack
   * (`atkTotal` stands for `make_defined_relative_stat(AtkTotal,
   * Universal)`, which the repository does not define), then prices every
   * cell in order. Succeeds exactly when `EvalOf` does, with its value.
   */
  method Eval(request: Request, atkTotal: Stat) returns (r: Result<(real, seq<real>)>)
    requires WellFormed(request) && Grid.Admissible(atkTotal)
    ensures r.Ok? <==> EvalOf(request, atkTotal).Ok?
    ensures r.Ok? ==> r.value == EvalOf(request, atkTotal).value
  {
    var stats := PrepareStats(request, atkTotal);
    if stats.Err? {
      return Err(stats.error);
    }
    r := PriceAll(request.agent, stats.value, request.rotation);
  }

  /** The rotation loop of `eval`: each cell priced in turn, its value appended and added to the total. */
  method PriceAll(agent: AgentDetails.Agent, content: map<nat, Stat>, rotation: seq<Rotation.Cell>)
    returns (r: Result<(real, seq<real>)>)
    requires Grid.WellKeyed(content) && AbilitiesKeyed(agent)
    ensures r.Ok? <==> Damages(agent, content, CalcEnemy, rotation).Ok?
    ensures r.Ok? ==> r.value == (Sum(Damages(agent, content, CalcEnemy, rotation).value),
                                  Damages(agent, content, CalcEnemy, rotation).value)
  {
    var total := 0.0;
    var perAbility: seq<real> := [];
    for i := 0 to |rotation|
      invariant Damages(agent, content, CalcEnemy, rotation[..i]) == Ok(perAbility)
      invariant total == Sum(perAbility)
    {
      var dmg := PriceCell(agent, content, CalcEnemy, rotation, i, perAbility);
      if dmg.Err? {
        return Err(dmg.error);
      }
      assert (perAbility + [dmg.value])[..|perAbility|] == perAbility;
      total := total + dmg.value;
      perAbility := perAbility + [dmg.value];
    }
    assert rotation[..|rotation|] == rotation;
    r := Ok((total, perAbility));
  }

  /** The body of the rotation loop: cell `i` priced after the cells before it. */
  method PriceCell(agent: AgentDetails.Agent, stats: map<nat, Stat>, enemy: Converters.Enemy,
                   cells: seq<Rotation.Cell>, i: nat, ghost done: seq<real>) returns (r: Result<real>)
    requires Grid.WellKeyed(stats) && AbilitiesKeyed(agent)
    requires i < |cells| && Damages(agent, stats, enemy, cells[..i]) == Ok(done)
    ensures r.Ok? ==> Damages(agent, stats, enemy, cells[..i + 1]) == Ok(done + [r.value])
    ensures r.Ok? ==> r == CellDamage(agent, stats, enemy, cells[i])
    ensures r.Err? ==> Damages(agent, stats, enemy, cells).Err?
  {
    assert cells[..i + 1][..i] == cells[..i];
    r := CellDamage(agent, stats, enemy, cells[i]);
    if r.Err? {
      DamagesStop(agent, stats, enemy, cells, i + 1);
    }
  }

  /** `calc_stats(request)` followed by `stats.add(atkTotal)`. */
  method PrepareStats(request: Request, atkTotal: Stat) returns (r: Result<map<nat, Stat>>)
    requires WellFormed(request) && Grid.Admissible(atkTotal)
    ensures r.Ok? <==> EvalStats(request, atkTotal).Ok?
    ensures r.Ok? ==> r.value == EvalStats(request, atkTotal).value
  {
    var summed := CalcStats(request);
    if summed.Err? {
      return Err(summed.error);
    }
    var stats := new Grid.StatsGrid.Empty();
    stats.content := summed.value;
    var added := stats.Add(atkTotal);
    if added.Err? {
      return Err(added.error);
    }
    r := Ok(stats.content);
  }

  /**
   * What `eval` promises: one value per rotation cell, in rotation order,
   * each that cell's damage on the same grid, and a total that is their sum.
   * An unknown command or a skill cell with index 0 makes the whole call throw.
   */
  lemma EvalMeaning(request: Request, atkTotal: Stat)
    requires WellFormed(request) && Grid.Admissible(atkTotal) && EvalStats(request, atkTotal).Ok?
    ensures var stats := EvalStats(request, atkTotal).value;
            EvalOf(request, atkTotal).Ok? <==>
              forall i :: 0 <= i < |request.rotation| ==> CellDamage(request.agent, stats, CalcEnemy, request.rotation[i]).Ok?
    ensures var stats := EvalStats(request, atkTotal).value;
            EvalOf(request, atkTotal).Ok? ==>
              |EvalOf(request, atkTotal).value.1| == |request.rotation| &&
              EvalOf(request, atkTotal).value.0 == Sum(EvalOf(request, atkTotal).value.1) &&
              forall i :: 0 <= i < |request.rotation| ==>
                EvalOf(request, atkTotal).value.1[i] == CellDamage(request.agent, stats, CalcEnemy, request.rotation[i]).value
    ensures (exists i :: 0 <= i < |request.rotation| && request.rotation[i].command !in request.agent.abilities) ==>
              EvalOf(request, atkTotal).Err?
    ensures (exists i :: 0 <= i < |request.rotation| && request.rotation[i].command in request.agent.abilities &&
              request.agent.abilities[request.rotation[i].command].SkillAbility? && request.rotation[i].index == 0) ==>
              EvalOf(request, atkTotal).Err?
  {
    DamagesMeaning(request.agent, EvalStats(request, atkTotal).value, CalcEnemy, request.rotation);
  }

  // ------------------------------------------------------------ eval_detailed

  /** One entry of `eval_detailed`: the damage, the tags it was priced under, and the display name. */
  datatype Detail = Detail(dmg: real, tags: seq<Byte>, name: string)

  /**
   * The name `eval_detailed` shows: the command, with a space and the
   * scale number appended only for a skill of more than one scale; the
   * appended digits read back as the cell's index.
   */
  function DisplayName(skill: SkillDetails.Skill, cell: Rotation.Cell): (name: string)
    ensures |name| >= |cell.command| && name[..|cell.command|] == cell.command
    ensures |name| > |cell.command| <==> SkillDetails.MaxIndex(skill) > 1
    ensures |name| > |cell.command| ==>
              name[|cell.command|] == ' ' && name[|cell.command| + 1..] == StringFuncs.DecimalString(cell.index) &&
              StringFuncs.DigitsValue(name[|cell.command| + 1..]) == cell.index
  {
    if SkillDetails.MaxIndex(skill) > 1 then
      var name := cell.command + " " + StringFuncs.DecimalString(cell.index);
      assert name[|cell.command| + 1..] == StringFuncs.DecimalString(cell.index);
      StringFuncs.DecimalValue(cell.index);
      name
    else cell.command
  }

  /** The tags and the display name of a cell: the skill's tag, or the Anomaly tag and the bare command. */
  function Describe(agent: AgentDetails.Agent, cell: Rotation.Cell): (d: (seq<Byte>, string))
    ensures cell.command in agent.abilities && agent.abilities[cell.command].AnomalyAbility? ==>
              d == ([AnomalyTag], cell.command)
    ensures cell.command in agent.abilities && agent.abilities[cell.command].SkillAbility? ==>
              d.0 == [agent.abilities[cell.command].skill.tag]
  {
    if cell.command !in agent.abilities then ([], cell.command)
    else
      match agent.abilities[cell.command]
      case SkillAbility(skill) => ([skill.tag], DisplayName(skill, cell))
      case AnomalyAbility(_) => ([AnomalyTag], cell.command)
  }

  /** Each cell's damage with its tags and display name. */
  function Annotated(agent: AgentDetails.Agent, cells: seq<Rotation.Cell>, dmgs: seq<real>): (r: seq<Detail>)
    requires |dmgs| == |cells|
    ensures |r| == |cells|
  {
    seq(|cells|, i requires 0 <= i < |cells| => Detail(dmgs[i], Describe(agent, cells[i]).0, Describe(agent, cells[i]).1))
  }

  /** Annotating one more cell appends its entry. */
  lemma AnnotatedNext(agent: AgentDetails.Agent, cells: seq<Rotation.Cell>, dmgs: seq<real>,
                      cell: Rotation.Cell, dmg: real)
    requires |dmgs| == |cells|
    ensures Annotated(agent, cells + [cell], dmgs + [dmg]) ==
              Annotated(agent, cells, dmgs) + [Detail(dmg, Describe(agent, cell).0, Describe(agent, cell).1)]
  {
  }

  /** The damages of a sequence of entries. */
  function DmgsOf(details: seq<Detail>): (r: seq<real>)
    ensures |r| == |details| && forall i :: 0 <= i < |details| ==> r[i] == details[i].dmg
  {
    seq(|details|, i requires 0 <= i < |details| => details[i].dmg)
  }

  /** What `eval_detailed` computes: the total and each cell's entry. */
  function EvalDetailedOf(request: Request, atkTotal: Stat): Result<(real, seq<Detail>)>
    requires WellFormed(request) && Grid.Admissible(atkTotal)
  {
    var stats :- EvalStats(request, atkTotal);
    var perAbility :- Damages(request.agent, stats, CalcEnemy, request.rotation);
    Ok((Sum(perAbility), Annotated(request.agent, request.rotation, perAbility)))
  }

  /**
   * `eval_detailed` agrees with `eval`: it throws for the same requests,
   * and otherwise has the same total and, cell by cell, the same damages.
   */
  lemma DetailedAgrees(request: Request, atkTotal: Stat)
    requires WellFormed(request) && Grid.Admissible(atkTotal)
    ensures EvalDetailedOf(request, atkTotal).Ok? <==> EvalOf(request, atkTotal).Ok?
    ensures EvalDetailedOf(request, atkTotal).Ok? ==>
              DmgsOf(EvalDetailedOf(request, atkTotal).value.1) == EvalOf(request, atkTotal).value.1 &&
              EvalDetailedOf(request, atkTotal).value.0 == EvalOf(request, atkTotal).value.0
  {
  }

  /**
   * `Calculator::eval_detailed(request)`: as `eval`, but each cell yields
   * its damage, its tags and its display name. Succeeds exactly when
   * `EvalDetailedOf` does, with its value.
   */
  method EvalDetailed(request: Request, atkTotal: Stat) returns (r: Result<(real, seq<Detail>)>)
    requires WellFormed(request) && Grid.Admissible(atkTotal)
    ensures r.Ok? <==> EvalDetailedOf(request, atkTotal).Ok?
    ensures r.Ok? ==> r.value == EvalDetailedOf(request, atkTotal).value
  {
    var stats := PrepareStats(request, atkTotal);
    if stats.Err? {
      return Err(stats.error);
    }
    r := DescribeAll(request.agent, stats.value, request.rotation);
  }

  /** The body of the detailed loop: cell `i` priced, then given its tags and display name. */
  method DescribeCell(agent: AgentDetails.Agent, content: map<nat, Stat>, rotation: seq<Rotation.Cell>, i: nat,
                      ghost perAbility: seq<real>, ghost info: seq<Detail>) returns (r: Result<Detail>)
    requires Grid.WellKeyed(content) && AbilitiesKeyed(agent)
    requires i < |rotation| && Damages(agent, content, CalcEnemy, rotation[..i]) == Ok(perAbility)
    requires |perAbility| == i && info == Annotated(agent, rotation[..i], perAbility)
    ensures r.Ok? ==> Damages(agent, content, CalcEnemy, rotation[..i + 1]) == Ok(perAbility + [r.value.dmg])
    ensures r.Ok? ==> info + [r.value] == Annotated(agent, rotation[..i + 1], perAbility + [r.value.dmg])
    ensures r.Err? ==> Damages(agent, content, CalcEnemy, rotation).Err?
  {
    var dmg := PriceCell(agent, content, CalcEnemy, rotation, i, perAbility);
    if dmg.Err? {
      return Err(dmg.error);
    }
    var d := Describe(agent, rotation[i]);
    assert rotation[..i + 1] == rotation[..i] + [rotation[i]];
    AnnotatedNext(agent, rotation[..i], perAbility, rotation[i], dmg.value);
    r := Ok(Detail(dmg.value, d.0, d.1));
  }

  /** The rotation loop of `eval_detailed`: each cell priced and described in turn. */
  method DescribeAll(agent: AgentDetails.Agent, content: map<nat, Stat>, rotation: seq<Rotation.Cell>)
    returns (r: Result<(real, seq<Detail>)>)
    requires Grid.WellKeyed(content) && AbilitiesKeyed(agent)
    ensures r.Ok? <==> Damages(agent, content, CalcEnemy, rotation).Ok?
    ensures r.Ok? ==> r.value == (Sum(Damages(agent, content, CalcEnemy, rotation).value),
                                  Annotated(agent, rotation, Damages(agent, content, CalcEnemy, rotation).value))
  {
    var total := 0.0;
    var info: seq<Detail> := [];
    ghost var perAbility: seq<real> := [];
    for i := 0 to |rotation|
      invariant Damages(agent, content, CalcEnemy, rotation[..i]) == Ok(perAbility)
      invariant |perAbility| == i && info == Annotated(agent, rotation[..i], perAbility)
      invariant total == Sum(perAbility)
    {
      var entry := DescribeCell(agent, content, rotation, i, perAbility, info);
      if entry.Err? {
        return Err(entry.error);
      }
      assert (perAbility + [entry.value.dmg])[..i] == perAbility;
      total := total + entry.value.dmg;
      perAbility := perAbility + [entry.value.dmg];
      info := info + [entry.value];
    }
    assert rotation[..|rotation|] == rotation;
    r := Ok((total, info));
  }
}
