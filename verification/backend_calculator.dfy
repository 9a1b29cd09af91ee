/**
 * The damage calculator of src/backend/calculator.cpp: the generation that
 * fetches the agent, the w-engine, the rotation and the drive disc sets
 * from an object manager, and reads them through the `stat` / `StatsGrid`
 * interface of src/zzz/stats.hpp, where a stat is a value with a type and a
 * tag and a grid holds one stat per (type, tag). That interface's `get`,
 * `get_all` and `get_only` are declared but defined nowhere in the
 * repository: here `get(type)` reads the Universal stat, `get_all(type,
 * tag)` the Universal one plus the tag's own, and `get_only(type, tag)` the
 * tag's own. Grids are the keyed maps of `KeyedGrid`, and the object
 * manager is a map per kind of object.
 */
module BackendCalculator {
  import opened Wrappers
  import opened Enums
  import opened Stats
  import opened KeyedGrid
  import opened StatsMath
  import SkillDetails
  import DriveDiscPiece
  import RequestDetails
  import Rotation
  import Converters
  import CalcCalculator

  /** `Calculator::level`. */
  const Level: nat := 60

  /** `Calculator::buff_level_mult`: 1 + (level - 1) / 59. */
  const BuffLevelMult: real := 1.0 + (Level as real - 1.0) / 59.0

  /** At level 60 the anomaly buff multiplier is exactly 2. */
  lemma BuffLevelIsTwo()
    ensures BuffLevelMult == 2.0
  {
  }

  // ------------------------------------------------------------ what the backend reads

  /** A skill as the backend reads it: its tag, its scales and its buffs. */
  datatype Skill = Skill(tag: Byte, scales: seq<SkillDetails.Scale>, buffs: map<nat, Stat>)

  /** An anomaly as the backend reads it: its scale, whether it can crit, and its buffs. */
  datatype Anomaly = Anomaly(scale: real, canCrit: bool, buffs: map<nat, Stat>)

  /** An agent: its stats, its element, and its skills and anomalies by name. */
  datatype Agent = Agent(stats: map<nat, Stat>, element: Byte, skills: map<string, Skill>,
                         anomalies: map<string, Anomaly>)

  /** A w-engine: the main and the sub stat, and the passive grid. */
  datatype Wengine = Wengine(mainStat: StatValue, subStat: StatValue, passive: map<nat, Stat>)

  /** A drive disc set: its id and its 2- and 4-piece bonuses. */
  datatype SetBonus = SetBonus(id: nat, p2: map<nat, Stat>, p4: map<nat, Stat>)

  /** `eval_data`: the ids to fetch, the six discs and the enemy. */
  datatype EvalData = EvalData(agentId: nat, wengineId: nat, rotationId: nat,
                               discs: seq<DriveDiscPiece.Piece>, enemy: Converters.Enemy)

  /** The object manager's registered objects, by id. */
  datatype Manager = Manager(agents: map<nat, Agent>, wengines: map<nat, Wengine>,
                             rotations: map<nat, seq<Rotation.Cell>>, sets: map<nat, SetBonus>)

  /** The `dds` multimap: the sets under key 2 in insertion order, then those under key 4. */
  datatype Tiers = Tiers(twos: seq<SetBonus>, fours: seq<SetBonus>)

  /** Every disc holds its four sub stats (the piece's fixed array). */
  predicate DiscsFull(discs: seq<DriveDiscPiece.Piece>)
  {
    forall i :: 0 <= i < |discs| ==> |discs[i].subStats| == 4
  }

  /** Every grid the manager holds keeps each stat under its own key. */
  predicate ManagerKeyed(m: Manager)
  {
    (forall id :: id in m.agents ==> WellKeyed(m.agents[id].stats)) &&
    (forall id :: id in m.wengines ==> WellKeyed(m.wengines[id].passive)) &&
    (forall id :: id in m.sets ==> WellKeyed(m.sets[id].p2) && WellKeyed(m.sets[id].p4))
  }

  /** `manager.get(id)`: an unregistered id throws. */
  function Loaded<T>(objects: map<nat, T>, id: nat): (r: Result<T>)
    ensures r.Ok? <==> id in objects
    ensures r.Ok? ==> r.value == objects[id]
  {
    if id in objects then Ok(objects[id]) else Err("object is not registered")
  }

  // ------------------------------------------------------------ reading a grid

  /** `get(type)`: the Universal value. */
  function Get(m: map<nat, Stat>, id: Byte): real
  {
    Lookup(m, id, Universal)
  }

  /** `get_all(type, tag)`: the Universal value plus the tag's own. */
  function GetAll(m: map<nat, Stat>, id: Byte, tag: Byte): real
  {
    Lookup(m, id, Universal) + if tag == Universal then 0.0 else Lookup(m, id, tag)
  }

  /** `get_only(type, tag)`: the tag's own value. */
  function GetOnly(m: map<nat, Stat>, id: Byte, tag: Byte): real
  {
    Lookup(m, id, tag)
  }

  /** `StatType::DmgRatio + element` or `StatType::ResPen + element`, which never throw. */
  function PlusElement(id: Byte, e: Byte): (r: Byte)
    requires id == DmgRatio || id == ResPen
    ensures AddElement(id, e) == Ok(r)
  {
    AddElement(id, e).value
  }

  // ------------------------------------------------------------ total attack

  /** `_calc_total_atk(stats, tag)`: the base scaled by the ratio under the tag, plus the flat attack. */
  function TotalAtk(m: map<nat, Stat>, tag: Byte): real
  {
    Get(m, AtkBase) * (1.0 + GetAll(m, AtkRatio, tag)) + Get(m, AtkFlat)
  }

  /** A tag's own attack ratio scales the base attack only; the flat attack is not scaled. */
  lemma TotalAtkTagged(m: map<nat, Stat>, tag: Byte)
    requires tag != Universal
    ensures TotalAtk(m, tag) == TotalAtk(m, Universal) + Get(m, AtkBase) * Lookup(m, AtkRatio, tag)
  {
    var b := Get(m, AtkBase);
    var u := Lookup(m, AtkRatio, Universal);
    var t := Lookup(m, AtkRatio, tag);
    assert b * (1.0 + (u + t)) == b * (1.0 + u) + b * t;
  }

  /**
   * `stats.at(AtkTotal).value = _calc_total_atk(stats, tag)`: `at` throws
   * when the grid has no Universal total attack; otherwise only that
   * stat's value changes.
   */
  function WithTotalAtk(m: map<nat, Stat>, tag: Byte): (r: Result<map<nat, Stat>>)
    ensures r.Ok? <==> GenKey(AtkTotal, Universal) in m
    ensures r.Ok? ==> r.value.Keys == m.Keys
  {
    var key := GenKey(AtkTotal, Universal);
    if key in m then Ok(m[key := m[key].(base := TotalAtk(m, tag))]) else Err("stat is not found")
  }

  /** After the write, the total attack reads the computed total, and every other value is as before. */
  lemma WithTotalAtkMeaning(m: map<nat, Stat>, tag: Byte, id: Byte, t: Byte)
    requires WellKeyed(m) && GenKey(AtkTotal, Universal) in m
    ensures WellKeyed(WithTotalAtk(m, tag).value)
    ensures Get(WithTotalAtk(m, tag).value, AtkTotal) == TotalAtk(m, tag)
    ensures !(id == AtkTotal && t == Universal) ==> Lookup(WithTotalAtk(m, tag).value, id, t) == Lookup(m, id, t)
  {
    GenKeyInjective(id, t, AtkTotal, Universal);
  }

  // ------------------------------------------------------------ multipliers

  /** `_calc_def_mult`: the multiplier of `calc_def_mult`, the penetration read under one tag. */
  function DefMult(enemy: Converters.Enemy, m: map<nat, Stat>, tag: Byte): (r: real)
    ensures 0.0 < r <= 1.0
  {
    CalcCalculator.DefMultOf(enemy.defense * (1.0 - GetAll(m, DefPenRatio, tag)) - GetAll(m, DefPenFlat, tag))
  }

  /** `_calc_dmg_taken_mult`: 1, less the enemy's damage reduction, plus vulnerability. */
  function DmgTakenMult(enemy: Converters.Enemy, m: map<nat, Stat>, tag: Byte): real
  {
    1.0 - enemy.dmgReduction + GetAll(m, Vulnerability, tag)
  }

  /**
   * `_calc_res_mult`: 1, less the element's resistance, plus the general
   * and the element's penetration. The resistance is read as written, at
   * the element's own value (see `CalcCalculator.ResAsWritten`): an index
   * past the end is an error.
   */
  function ResMult(enemy: Converters.Enemy, m: map<nat, Stat>, element: Byte, tag: Byte): (r: Result<real>)
    ensures r.Ok? <==> (element as int) < |enemy.res|
    ensures r.Ok? ==> r.value == 1.0 - enemy.res[element] + GetAll(m, ResPen, tag) + GetAll(m, PlusElement(ResPen, element), tag)
  {
    var res :- CalcCalculator.ResAsWritten(enemy, element);
    Ok(1.0 - res + GetAll(m, ResPen, tag) + GetAll(m, PlusElement(ResPen, element), tag))
  }

  /** The crit multiplier of this generation: the rate is not capped. */
  function Crit(rate: real, dmg: real): real
  {
    1.0 + rate * dmg
  }

  /** Past a rate of 100, this generation's crit multiplier exceeds the capped one of `calc`. */
  lemma CritUncapped(rate: real, dmg: real)
    requires rate > 100.0 && dmg > 0.0
    ensures Crit(rate, dmg) > CalcCalculator.CritMult(rate, dmg)
  {
    assert (rate - 100.0) * dmg > 0.0;
  }

  // ------------------------------------------------------------ damage

  /**
   * The factors of `_calc_regular_dmg` once the grid holds the total
   * attack: base (motion value over 100 times the total attack), crit,
   * damage ratio, damage taken, defense, resistance and stun.
   */
  function RegularFactors(scale: SkillDetails.Scale, tag: Byte, stats: map<nat, Stat>, enemy: Converters.Enemy, res: real): seq<real>
  {
    [scale.motionValue / 100.0 * Get(stats, AtkTotal),
     Crit(GetAll(stats, CritRate, tag), GetAll(stats, CritDmg, tag)),
     1.0 + GetAll(stats, DmgRatio, tag) + GetAll(stats, PlusElement(DmgRatio, scale.element), tag),
     DmgTakenMult(enemy, stats, tag), DefMult(enemy, stats, tag), res, CalcCalculator.StunFactor(enemy)]
  }

  /**
   * `_calc_regular_dmg(skill, index, stats, enemy)`: the scale at `index`
   * (read without a bounds check, so an index past the end is an error
   * here), the skill's buffs added to a copy of the grid, the total attack
   * written under the skill's tag, then the product of the factors.
   */
  function RegularDamage(skill: Skill, index: int, m: map<nat, Stat>, enemy: Converters.Enemy): (r: Result<real>)
    ensures r.Ok? <==> (0 <= index < |skill.scales| && GenKey(AtkTotal, Universal) in Summed(m, skill.buffs) &&
                        CalcCalculator.ResAsWritten(enemy, skill.scales[index].element).Ok?)
  {
    if !(0 <= index < |skill.scales|) then Err("vector index out of range")
    else
      var scale := skill.scales[index];
      var stats :- WithTotalAtk(Summed(m, skill.buffs), skill.tag);
      var res :- ResMult(enemy, stats, scale.element, skill.tag);
      Ok(CalcCalculator.Product(RegularFactors(scale, skill.tag, stats, enemy, res)))
  }

  /**
   * The factors of `_calc_anomaly_dmg` once the grid holds the total
   * attack: base, crit under the Anomaly tag only when the anomaly can
   * crit, the general and the anomaly damage ratios, the anomaly
   * proficiency over 100, the buff level multiplier, damage taken,
   * defense, resistance and stun.
   */
  function AnomalyFactors(anomaly: Anomaly, element: Byte, stats: map<nat, Stat>, enemy: Converters.Enemy, res: real): (r: seq<real>)
    ensures |r| == 10 && r[4] == Get(stats, Ap) / 100.0
  {
    var ratioId := PlusElement(DmgRatio, element);
    [anomaly.scale / 100.0 * Get(stats, AtkTotal),
     1.0 + (if anomaly.canCrit then GetOnly(stats, CritRate, AnomalyTag) * GetOnly(stats, CritDmg, AnomalyTag) else 0.0),
     1.0 + Get(stats, DmgRatio) + Get(stats, ratioId),
     1.0 + GetOnly(stats, DmgRatio, AnomalyTag) + GetOnly(stats, ratioId, AnomalyTag),
     Get(stats, Ap) / 100.0, BuffLevelMult,
     DmgTakenMult(enemy, stats, AnomalyTag), DefMult(enemy, stats, AnomalyTag), res,
     CalcCalculator.StunFactor(enemy)]
  }

  /**
   * `_calc_anomaly_dmg(anomaly, element, stats, enemy)`, `element` being
   * the agent's: the anomaly's buffs added to a copy of the grid, the total
   * attack written under the Anomaly tag, then the product of the factors.
   */
  function AnomalyDamage(anomaly: Anomaly, element: Byte, m: map<nat, Stat>, enemy: Converters.Enemy): (r: Result<real>)
    ensures r.Ok? <==> GenKey(AtkTotal, Universal) in Summed(m, anomaly.buffs) && CalcCalculator.ResAsWritten(enemy, element).Ok?
  {
    var stats :- WithTotalAtk(Summed(m, anomaly.buffs), AnomalyTag);
    var res :- ResMult(enemy, stats, element, AnomalyTag);
    Ok(CalcCalculator.Product(AnomalyFactors(anomaly, element, stats, enemy, res)))
  }

  /** A product with a zero factor is zero. */
  lemma {:induction false} ProductZero(factors: seq<real>, i: nat)
    requires i < |factors| && factors[i] == 0.0
    ensures CalcCalculator.Product(factors) == 0.0
  {
    if i > 0 {
      ProductZero(factors[1..], i - 1);
    }
  }

  /** Without anomaly proficiency in the grid or the anomaly's buffs, an anomaly deals no damage. */
  lemma NoApNoAnomaly(anomaly: Anomaly, element: Byte, m: map<nat, Stat>, enemy: Converters.Enemy)
    requires WellKeyed(m) && WellKeyed(anomaly.buffs)
    requires Get(m, Ap) + Get(anomaly.buffs, Ap) == 0.0
    ensures AnomalyDamage(anomaly, element, m, enemy).Ok? ==> AnomalyDamage(anomaly, element, m, enemy).value == 0.0
  {
    var summed := Summed(m, anomaly.buffs);
    SummedValues(m, anomaly.buffs, Ap, Universal);
    if AnomalyDamage(anomaly, element, m, enemy).Ok? {
      WithTotalAtkMeaning(summed, AnomalyTag, Ap, Universal);
      var stats := WithTotalAtk(summed, AnomalyTag).value;
      var res := ResMult(enemy, stats, element, AnomalyTag).value;
      ProductZero(AnomalyFactors(anomaly, element, stats, enemy, res), 4);
    }
  }

  // ------------------------------------------------------------ the rotation

  /**
   * One rotation cell: a skill (`is_skill_or_anomaly == 1`) at scale
   * `index - 1`, otherwise the anomaly of that name (`anomaly(name)` throws
   * for a name that is neither), with the agent's element.
   */
  function CellDamage(agent: Agent, stats: map<nat, Stat>, enemy: Converters.Enemy, cell: Rotation.Cell): (r: Result<real>)
    ensures r.Ok? ==> cell.command in agent.skills || cell.command in agent.anomalies
    ensures r.Ok? && cell.command in agent.skills ==> 1 <= cell.index <= |agent.skills[cell.command].scales|
  {
    if cell.command in agent.skills then RegularDamage(agent.skills[cell.command], cell.index - 1, stats, enemy)
    else if cell.command in agent.anomalies then AnomalyDamage(agent.anomalies[cell.command], agent.element, stats, enemy)
    else Err("unordered_map::at")
  }

  /** `CellDamage` on a fixed agent, grid and enemy, as a function of the cell. */
  function Pricer(agent: Agent, stats: map<nat, Stat>, enemy: Converters.Enemy): (f: Rotation.Cell -> Result<real>)
    ensures forall cell :: f(cell) == CellDamage(agent, stats, enemy, cell)
  {
    cell => CellDamage(agent, stats, enemy, cell)
  }

  /** The cells priced in order; the first cell that throws ends it. */
  function Damages(agent: Agent, stats: map<nat, Stat>, enemy: Converters.Enemy, cells: seq<Rotation.Cell>): Result<seq<real>>
  {
    MapResults(Pricer(agent, stats, enemy), cells)
  }

  /** One value per cell, in rotation order, each that cell's damage on the same grid. */
  lemma DamagesMeaning(agent: Agent, stats: map<nat, Stat>, enemy: Converters.Enemy, cells: seq<Rotation.Cell>)
    ensures Damages(agent, stats, enemy, cells).Ok? <==>
              forall i :: 0 <= i < |cells| ==> CellDamage(agent, stats, enemy, cells[i]).Ok?
    ensures Damages(agent, stats, enemy, cells).Ok? ==>
              |Damages(agent, stats, enemy, cells).value| == |cells| &&
              forall i :: 0 <= i < |cells| ==>
                Damages(agent, stats, enemy, cells).value[i] == CellDamage(agent, stats, enemy, cells[i]).value
  {
    MapResultsMeaning(Pricer(agent, stats, enemy), cells);
  }

  // ------------------------------------------------------------ the sets

  /** `manager.get(id)` for a set id. */
  function Fetch(sets: map<nat, SetBonus>): (f: nat -> Result<SetBonus>)
    ensures forall id :: f(id) == Loaded(sets, id)
  {
    (id: nat) => Loaded(sets, id)
  }

  /**
   * The sets fetched: one per id carried by at least two discs, in
   * ascending id order; an unregistered id throws.
   */
  lemma FetchedMeaning(discs: seq<DriveDiscPiece.Piece>, sets: map<nat, SetBonus>)
    ensures MapResults(Fetch(sets), RequestDetails.DdsList(discs)).Ok? <==>
              forall x :: multiset(RequestDetails.DiscIds(discs))[x] >= 2 ==> x in sets
    ensures MapResults(Fetch(sets), RequestDetails.DdsList(discs)).Ok? ==>
              forall i :: 0 <= i < |RequestDetails.DdsList(discs)| ==>
                RequestDetails.DdsList(discs)[i] in sets &&
                MapResults(Fetch(sets), RequestDetails.DdsList(discs)).value[i] == sets[RequestDetails.DdsList(discs)[i]]
  {
    var ids := RequestDetails.DdsList(discs);
    RequestDetails.DdsListMeaning(discs);
    MapResultsMeaning(Fetch(sets), ids);
    if MapResults(Fetch(sets), ids).Ok? {
      forall x | multiset(RequestDetails.DiscIds(discs))[x] >= 2
        ensures x in sets
      {
        var i :| 0 <= i < |ids| && ids[i] == x;
        assert Fetch(sets)(ids[i]).Ok?;
      }
    } else {
      var i :| 0 <= i < |ids| && Fetch(sets)(ids[i]).Err?;
      assert multiset(RequestDetails.DiscIds(discs))[ids[i]] >= 2;
    }
  }

  /**
   * The loop over the fetched sets: each set's count is looked up by the
   * set's own id (`map::at`, which throws for an id not counted); at least
   * two discs put it under key 2, at least four also under key 4.
   */
  function Bucketed(counts: map<nat, nat>, fetched: seq<SetBonus>): (r: Result<Tiers>)
  {
    if fetched == [] then Ok(Tiers([], []))
    else
      var before :- Bucketed(counts, fetched[..|fetched| - 1]);
      var s := fetched[|fetched| - 1];
      if s.id !in counts then Err("map::at")
      else
        var count := counts[s.id];
        Ok(Tiers(if count >= 2 then before.twos + [s] else before.twos,
                 if count >= 4 then before.fours + [s] else before.fours))
  }

  /** Bucketing succeeds iff every fetched set's id was counted; a set is under 2 (4) iff its count is at least 2 (4). */
  lemma {:induction false} BucketedMeaning(counts: map<nat, nat>, fetched: seq<SetBonus>)
    ensures Bucketed(counts, fetched).Ok? <==> forall i :: 0 <= i < |fetched| ==> fetched[i].id in counts
    ensures Bucketed(counts, fetched).Ok? ==>
              (forall s :: s in Bucketed(counts, fetched).value.twos <==> s in fetched && counts[s.id] >= 2) &&
              (forall s :: s in Bucketed(counts, fetched).value.fours <==> s in fetched && counts[s.id] >= 4)
  {
    if fetched != [] {
      var init := fetched[..|fetched| - 1];
      BucketedMeaning(counts, init);
      assert fetched == init + [fetched[|fetched| - 1]];
      assert forall i :: 0 <= i < |init| ==> init[i] == fetched[i];
    }
  }

  /** Bucketing one more fetched set. */
  lemma BucketedStep(counts: map<nat, nat>, fetched: seq<SetBonus>, i: nat)
    requires i < |fetched|
    ensures Bucketed(counts, fetched[..i + 1]) ==
              if Bucketed(counts, fetched[..i]).Err? then Bucketed(counts, fetched[..i])
              else if fetched[i].id !in counts then Err("map::at")
              else
                var before := Bucketed(counts, fetched[..i]).value;
                var count := counts[fetched[i].id];
                Ok(Tiers(if count >= 2 then before.twos + [fetched[i]] else before.twos,
                         if count >= 4 then before.fours + [fetched[i]] else before.fours))
  {
    assert fetched[..i + 1][..i] == fetched[..i];
  }

  /** Once a prefix of the fetched sets throws, bucketing them all throws the same way. */
  lemma {:induction false} BucketedStops(counts: map<nat, nat>, fetched: seq<SetBonus>, n: nat)
    requires n <= |fetched| && Bucketed(counts, fetched[..n]).Err?
    ensures Bucketed(counts, fetched) == Bucketed(counts, fetched[..n])
    decreases |fetched| - n
  {
    if n < |fetched| {
      assert fetched[..n + 1][..n] == fetched[..n];
      BucketedStops(counts, fetched, n + 1);
    } else {
      assert fetched[..n] == fetched;
    }
  }

  /** The multimap's iteration order: every (2, set) first, then every (4, set), each in insertion order. */
  function Entries(t: Tiers): seq<(nat, SetBonus)>
  {
    Pairs(2, t.twos) + Pairs(4, t.fours)
  }

  /** Each set under one key, in order. */
  function Pairs(key: nat, sets: seq<SetBonus>): (r: seq<(nat, SetBonus)>)
    ensures |r| == |sets| && forall i :: 0 <= i < |sets| ==> r[i] == (key, sets[i])
  {
    if sets == [] then [] else Pairs(key, sets[..|sets| - 1]) + [(key, sets[|sets| - 1])]
  }

  // ------------------------------------------------------------ stat aggregation

  /** A `stat` as a stored stat: its value is the base. */
  function AsStat(v: StatValue): Stat
  {
    Stat(v.value, v.statType, v.tag)
  }

  /** What one stat adds to the value under (id, tag). */
  function StatAt(s: Stat, id: Byte, tag: Byte): real
  {
    if s.id == id && s.tag == tag then s.base else 0.0
  }

  /** `add(stat)` of each stat in turn. */
  function StatsAdded(m: map<nat, Stat>, stats: seq<Stat>): (r: map<nat, Stat>)
    ensures WellKeyed(m) ==> WellKeyed(r)
  {
    if stats == [] then m else Added(StatsAdded(m, stats[..|stats| - 1]), stats[|stats| - 1])
  }

  /** The values the stats add under (id, tag), together. */
  function StatsValue(stats: seq<Stat>, id: Byte, tag: Byte): real
  {
    if stats == [] then 0.0 else StatsValue(stats[..|stats| - 1], id, tag) + StatAt(stats[|stats| - 1], id, tag)
  }

  /** Adding stats one by one adds each one's value under its own id and tag. */
  lemma {:induction false} StatsAddedValues(m: map<nat, Stat>, stats: seq<Stat>, id: Byte, tag: Byte)
    requires WellKeyed(m)
    ensures Lookup(StatsAdded(m, stats), id, tag) == Lookup(m, id, tag) + StatsValue(stats, id, tag)
  {
    if stats != [] {
      var init := stats[..|stats| - 1];
      StatsAddedValues(m, init, id, tag);
      AddedValues(StatsAdded(m, init), stats[|stats| - 1], id, tag);
    }
  }

  /** Adding the first `i + 1` stats is adding the first `i`, then stat `i`. */
  lemma StatsAddedStep(m: map<nat, Stat>, stats: seq<Stat>, i: nat)
    requires i < |stats|
    ensures StatsAdded(m, stats[..i + 1]) == Added(StatsAdded(m, stats[..i]), stats[i])
  {
    assert stats[..i + 1][..i] == stats[..i];
  }

  /** Adding `a` then `b` is adding `a + b`. */
  lemma {:induction false} StatsAddedAppend(m: map<nat, Stat>, a: seq<Stat>, b: seq<Stat>)
    ensures StatsAdded(m, a + b) == StatsAdded(StatsAdded(m, a), b)
  {
    if b == [] {
      assert a + b == a;
    } else {
      var init := b[..|b| - 1];
      assert (a + b)[..|a + b| - 1] == a + init;
      StatsAddedAppend(m, a, init);
    }
  }

  /** A disc's contribution: its main stat, then exactly its four sub stats. */
  function PieceStats(p: DriveDiscPiece.Piece): (r: seq<Stat>)
    requires |p.subStats| == 4
    ensures |r| == 5 && r[0] == AsStat(p.mainStat)
    ensures forall i :: 0 <= i < 4 ==> r[i + 1] == AsStat(p.subStats[i])
  {
    [AsStat(p.mainStat)] + seq(4, i requires 0 <= i < 4 => AsStat(p.subStats[i]))
  }

  /** Every disc's stats, disc by disc. */
  function AllPieceStats(discs: seq<DriveDiscPiece.Piece>): seq<Stat>
    requires DiscsFull(discs)
  {
    if discs == [] then [] else AllPieceStats(discs[..|discs| - 1]) + PieceStats(discs[|discs| - 1])
  }

  /** Every grid a multimap entry names is keyed. */
  predicate EntriesKeyed(entries: seq<(nat, SetBonus)>)
  {
    forall i :: 0 <= i < |entries| ==> WellKeyed(entries[i].1.p2) && WellKeyed(entries[i].1.p4)
  }

  /** One multimap entry: `p2` added for key 2, `p4` for key 4. */
  function EntryAdded(m: map<nat, Stat>, e: (nat, SetBonus)): map<nat, Stat>
  {
    var afterP2 := if e.0 == 2 then Summed(m, e.1.p2) else m;
    if e.0 == 4 then Summed(afterP2, e.1.p4) else afterP2
  }

  /** Every multimap entry in turn. */
  function EntriesAdded(m: map<nat, Stat>, entries: seq<(nat, SetBonus)>): map<nat, Stat>
  {
    if entries == [] then m else EntryAdded(EntriesAdded(m, entries[..|entries| - 1]), entries[|entries| - 1])
  }

  /** What the entries add under (id, tag): the 2-piece bonus of each key-2 set, the 4-piece one of each key-4 set. */
  function EntriesValue(entries: seq<(nat, SetBonus)>, id: Byte, tag: Byte): real
  {
    if entries == [] then 0.0
    else
      var e := entries[|entries| - 1];
      EntriesValue(entries[..|entries| - 1], id, tag) +
      (if e.0 == 2 then Lookup(e.1.p2, id, tag) else 0.0) + (if e.0 == 4 then Lookup(e.1.p4, id, tag) else 0.0)
  }

  /** Adding the entries' grids adds their values and keeps the grid keyed. */
  lemma {:induction false} EntriesAddedValues(m: map<nat, Stat>, entries: seq<(nat, SetBonus)>, id: Byte, tag: Byte)
    requires WellKeyed(m) && EntriesKeyed(entries)
    ensures WellKeyed(EntriesAdded(m, entries))
    ensures Lookup(EntriesAdded(m, entries), id, tag) == Lookup(m, id, tag) + EntriesValue(entries, id, tag)
  {
    if entries != [] {
      var init := entries[..|entries| - 1];
      var e := entries[|entries| - 1];
      EntriesAddedValues(m, init, id, tag);
      var before := EntriesAdded(m, init);
      SummedValues(before, e.1.p2, id, tag);
      var afterP2 := if e.0 == 2 then Summed(before, e.1.p2) else before;
      SummedValues(afterP2, e.1.p4, id, tag);
    }
  }

  /** The w-engine's grid: main stat, sub stat, then the passive grid. */
  function WengineGrid(w: Wengine): map<nat, Stat>
  {
    Summed(Added(Added(map[], AsStat(w.mainStat)), AsStat(w.subStat)), w.passive)
  }

  /** The agent's grid: its stats added to an empty grid. */
  function AgentGrid(agent: Agent): map<nat, Stat>
  {
    Summed(map[], agent.stats)
  }

  /** The discs' grid. */
  function DiscGrid(discs: seq<DriveDiscPiece.Piece>): map<nat, Stat>
    requires DiscsFull(discs)
  {
    StatsAdded(map[], AllPieceStats(discs))
  }

  /** The sets' grid, from the `dds` multimap. */
  function SetGrid(t: Tiers): map<nat, Stat>
  {
    EntriesAdded(map[], Entries(t))
  }

  /**
   * The aggregation of `eval`: the agent's, the w-engine's, the discs' and
   * the sets' grids, each built apart, added into one grid in that order.
   */
  function Aggregated(agent: Agent, w: Wengine, discs: seq<DriveDiscPiece.Piece>, t: Tiers): map<nat, Stat>
    requires DiscsFull(discs)
  {
    Summed(Summed(Summed(Summed(map[], AgentGrid(agent)), WengineGrid(w)), DiscGrid(discs)), SetGrid(t))
  }

  /** Adding four keyed grids into an empty one adds their values. */
  lemma ChainValues(a: map<nat, Stat>, b: map<nat, Stat>, c: map<nat, Stat>, d: map<nat, Stat>, id: Byte, tag: Byte)
    requires WellKeyed(a) && WellKeyed(b) && WellKeyed(c) && WellKeyed(d)
    ensures Lookup(Summed(Summed(Summed(Summed(map[], a), b), c), d), id, tag) ==
              Lookup(a, id, tag) + Lookup(b, id, tag) + Lookup(c, id, tag) + Lookup(d, id, tag)
  {
    var empty: map<nat, Stat> := map[];
    SummedValues(empty, a, id, tag);
    var s1 := Summed(empty, a);
    SummedValues(s1, b, id, tag);
    var s2 := Summed(s1, b);
    SummedValues(s2, c, id, tag);
    SummedValues(Summed(s2, c), d, id, tag);
  }

  /** The w-engine's grid holds its main and sub stat and its passive values. */
  lemma WengineValues(w: Wengine, id: Byte, tag: Byte)
    requires WellKeyed(w.passive)
    ensures WellKeyed(WengineGrid(w))
    ensures Lookup(WengineGrid(w), id, tag) ==
              StatAt(AsStat(w.mainStat), id, tag) + StatAt(AsStat(w.subStat), id, tag) + Lookup(w.passive, id, tag)
  {
    var empty: map<nat, Stat> := map[];
    var main := Added(empty, AsStat(w.mainStat));
    AddedValues(empty, AsStat(w.mainStat), id, tag);
    AddedValues(main, AsStat(w.subStat), id, tag);
    SummedValues(Added(main, AsStat(w.subStat)), w.passive, id, tag);
  }

  /** The 2-piece bonuses of the sets under (id, tag), together. */
  function P2Value(sets: seq<SetBonus>, id: Byte, tag: Byte): real
  {
    if sets == [] then 0.0 else P2Value(sets[..|sets| - 1], id, tag) + Lookup(sets[|sets| - 1].p2, id, tag)
  }

  /** The 4-piece bonuses of the sets under (id, tag), together. */
  function P4Value(sets: seq<SetBonus>, id: Byte, tag: Byte): real
  {
    if sets == [] then 0.0 else P4Value(sets[..|sets| - 1], id, tag) + Lookup(sets[|sets| - 1].p4, id, tag)
  }

  /** The entries of a concatenation add what each part adds. */
  lemma {:induction false} EntriesValueAppend(a: seq<(nat, SetBonus)>, b: seq<(nat, SetBonus)>, id: Byte, tag: Byte)
    ensures EntriesValue(a + b, id, tag) == EntriesValue(a, id, tag) + EntriesValue(b, id, tag)
  {
    if b == [] {
      assert a + b == a;
    } else {
      var init := b[..|b| - 1];
      assert (a + b)[..|a + b| - 1] == a + init;
      EntriesValueAppend(a, init, id, tag);
    }
  }

  /** Under key 2 a set adds its 2-piece bonus only; under key 4 its 4-piece bonus only. */
  lemma {:induction false} PairsValue(sets: seq<SetBonus>, id: Byte, tag: Byte)
    ensures EntriesValue(Pairs(2, sets), id, tag) == P2Value(sets, id, tag)
    ensures EntriesValue(Pairs(4, sets), id, tag) == P4Value(sets, id, tag)
  {
    if sets != [] {
      var init := sets[..|sets| - 1];
      PairsValue(init, id, tag);
      assert (Pairs(2, init) + [(2, sets[|sets| - 1])])[..|init|] == Pairs(2, init);
      assert (Pairs(4, init) + [(4, sets[|sets| - 1])])[..|init|] == Pairs(4, init);
    }
  }

  /** The multimap adds the 2-piece bonus of every set under key 2 and the 4-piece bonus of every set under key 4. */
  lemma EntriesValueTiers(t: Tiers, id: Byte, tag: Byte)
    ensures EntriesValue(Entries(t), id, tag) == P2Value(t.twos, id, tag) + P4Value(t.fours, id, tag)
  {
    EntriesValueAppend(Pairs(2, t.twos), Pairs(4, t.fours), id, tag);
    PairsValue(t.twos, id, tag);
    PairsValue(t.fours, id, tag);
  }

  /** The multimap's grids are keyed when every bucketed set's are. */
  lemma EntriesOfKeyed(t: Tiers)
    requires forall s :: s in t.twos || s in t.fours ==> WellKeyed(s.p2) && WellKeyed(s.p4)
    ensures EntriesKeyed(Entries(t))
  {
    var es := Entries(t);
    forall i | 0 <= i < |es|
      ensures WellKeyed(es[i].1.p2) && WellKeyed(es[i].1.p4)
    {
      if i < |t.twos| {
        assert es[i].1 == t.twos[i];
      } else {
        assert es[i].1 == t.fours[i - |t.twos|];
      }
    }
  }

  /**
   * Every value of the aggregated grid is the agent's value, plus the
   * w-engine's main and sub stat and passive value, plus every disc's main
   * and four sub stats, plus the 2-piece bonus of every set under key 2
   * and the 4-piece bonus of every set under key 4.
   */
  lemma AggregatedValues(agent: Agent, w: Wengine, discs: seq<DriveDiscPiece.Piece>, t: Tiers, id: Byte, tag: Byte)
    requires DiscsFull(discs) && WellKeyed(agent.stats) && WellKeyed(w.passive)
    requires forall s :: s in t.twos || s in t.fours ==> WellKeyed(s.p2) && WellKeyed(s.p4)
    ensures Lookup(Aggregated(agent, w, discs, t), id, tag) ==
              Lookup(agent.stats, id, tag) +
              (StatAt(AsStat(w.mainStat), id, tag) + StatAt(AsStat(w.subStat), id, tag) + Lookup(w.passive, id, tag)) +
              StatsValue(AllPieceStats(discs), id, tag) +
              (P2Value(t.twos, id, tag) + P4Value(t.fours, id, tag))
  {
    EntriesValueTiers(t, id, tag);
    var empty: map<nat, Stat> := map[];
    SummedValues(empty, agent.stats, id, tag);
    WengineValues(w, id, tag);
    StatsAddedValues(empty, AllPieceStats(discs), id, tag);
    EntriesOfKeyed(t);
    EntriesAddedValues(empty, Entries(t), id, tag);
    ChainValues(AgentGrid(agent), WengineGrid(w), DiscGrid(discs), SetGrid(t), id, tag);
  }

  // ------------------------------------------------------------ eval

  /**
   * The sets part of `eval`: count the discs per set id, fetch every set
   * carried by at least two discs in ascending id order, and bucket them
   * by tier.
   */
  ghost function TiersOf(discs: seq<DriveDiscPiece.Piece>, sets: map<nat, SetBonus>): Result<Tiers>
  {
    var counts := RequestDetails.Count(RequestDetails.DiscIds(discs));
    var fetched :- MapResults(Fetch(sets), RequestDetails.DdsList(discs));
    Bucketed(counts, fetched)
  }

  /** With every set registered under its own id, the sets fetched are the registered sets carried by two discs. */
  lemma FetchedMembers(discs: seq<DriveDiscPiece.Piece>, sets: map<nat, SetBonus>)
    requires forall id :: id in sets ==> sets[id].id == id
    requires MapResults(Fetch(sets), RequestDetails.DdsList(discs)).Ok?
    ensures forall s :: s in MapResults(Fetch(sets), RequestDetails.DdsList(discs)).value <==>
                          s in sets.Values && multiset(RequestDetails.DiscIds(discs))[s.id] >= 2
  {
    var ids := RequestDetails.DdsList(discs);
    var fetched := MapResults(Fetch(sets), ids).value;
    FetchedMeaning(discs, sets);
    RequestDetails.DdsListMeaning(discs);
    forall s
      ensures s in fetched <==> s in sets.Values && multiset(RequestDetails.DiscIds(discs))[s.id] >= 2
    {
      if s in fetched {
        var i :| 0 <= i < |fetched| && fetched[i] == s;
        assert s == sets[ids[i]];
      }
      if s in sets.Values && multiset(RequestDetails.DiscIds(discs))[s.id] >= 2 {
        var id :| id in sets && sets[id] == s;
        var i :| 0 <= i < |ids| && ids[i] == s.id;
        assert fetched[i] == s;
      }
    }
  }

  /**
   * With every set registered under its own id: the sets part of `eval`
   * throws unless every set id carried by at least two discs is
   * registered, and then the sets under key 2 are exactly the registered
   * sets carried by at least two discs, those under key 4 those carried by
   * at least four.
   */
  lemma TiersMeaning(discs: seq<DriveDiscPiece.Piece>, sets: map<nat, SetBonus>)
    requires forall id :: id in sets ==> sets[id].id == id
    ensures TiersOf(discs, sets).Ok? <==> forall x :: multiset(RequestDetails.DiscIds(discs))[x] >= 2 ==> x in sets
    ensures TiersOf(discs, sets).Ok? ==>
              (forall s :: s in TiersOf(discs, sets).value.twos <==>
                             s in sets.Values && multiset(RequestDetails.DiscIds(discs))[s.id] >= 2) &&
              (forall s :: s in TiersOf(discs, sets).value.fours <==>
                             s in sets.Values && multiset(RequestDetails.DiscIds(discs))[s.id] >= 4)
  {
    FetchedMeaning(discs, sets);
    var fetchedR := MapResults(Fetch(sets), RequestDetails.DdsList(discs));
    if fetchedR.Ok? {
      FetchedMembers(discs, sets);
      FetchedCounted(discs, sets);
      BucketedMeaning(RequestDetails.Count(RequestDetails.DiscIds(discs)), fetchedR.value);
    }
  }

  /** With every set registered under its own id, each fetched set's id is counted, as often as discs carry it. */
  lemma FetchedCounted(discs: seq<DriveDiscPiece.Piece>, sets: map<nat, SetBonus>)
    requires forall id :: id in sets ==> sets[id].id == id
    requires MapResults(Fetch(sets), RequestDetails.DdsList(discs)).Ok?
    ensures var counts := RequestDetails.Count(RequestDetails.DiscIds(discs));
            forall s :: s in MapResults(Fetch(sets), RequestDetails.DdsList(discs)).value ==>
                          s.id in counts && counts[s.id] == multiset(RequestDetails.DiscIds(discs))[s.id]
  {
    var counts := RequestDetails.Count(RequestDetails.DiscIds(discs));
    FetchedMembers(discs, sets);
    RequestDetails.CountedKeys(RequestDetails.DiscIds(discs));
    forall s | s in MapResults(Fetch(sets), RequestDetails.DdsList(discs)).value
      ensures s.id in counts && counts[s.id] == multiset(RequestDetails.DiscIds(discs))[s.id]
    {
      assert RequestDetails.Cnt(counts, s.id) >= 2;
    }
  }

  /** What `eval` has ready before the rotation loop: the agent, the aggregated grid and the rotation. */
  datatype Prepared = Prepared(agent: Agent, stats: map<nat, Stat>, rotation: seq<Rotation.Cell>)

  /**
   * The first part of `Calculator::eval(manager, data)`: fetch the agent,
   * the w-engine and the rotation, then the sets by tier, and aggregate
   * the grids. Any throw ends the call.
   */
  ghost function PreparedOf(data: EvalData, manager: Manager): Result<Prepared>
    requires DiscsFull(data.discs)
  {
    var agent :- Loaded(manager.agents, data.agentId);
    var wengine :- Loaded(manager.wengines, data.wengineId);
    var rotation :- Loaded(manager.rotations, data.rotationId);
    var tiers :- TiersOf(data.discs, manager.sets);
    Ok(Prepared(agent, Aggregated(agent, wengine, data.discs, tiers), rotation))
  }

  /** `Calculator::eval(manager, data)`: the preparation, then every rotation cell priced in order. */
  ghost function EvalOf(data: EvalData, manager: Manager): Result<(real, seq<real>)>
    requires DiscsFull(data.discs)
  {
    var prepared :- PreparedOf(data, manager);
    var perSkill :- Damages(prepared.agent, prepared.stats, data.enemy, prepared.rotation);
    Ok((CalcCalculator.Sum(perSkill), perSkill))
  }

  /** `eval`'s preparation uses the agent and the rotation registered under the requested ids. */
  lemma PreparedParts(data: EvalData, manager: Manager)
    requires DiscsFull(data.discs) && PreparedOf(data, manager).Ok?
    ensures PreparedOf(data, manager).value.agent == manager.agents[data.agentId]
    ensures PreparedOf(data, manager).value.rotation == manager.rotations[data.rotationId]
  {
  }

  /**
   * What `eval` promises: one value per rotation cell of the requested
   * rotation, in order, each that cell's damage on the aggregated grid,
   * and a total that is their sum.
   */
  lemma EvalMeaning(data: EvalData, manager: Manager)
    requires DiscsFull(data.discs)
    ensures EvalOf(data, manager).Ok? ==>
              var prepared := PreparedOf(data, manager).value;
              var (total, perSkill) := EvalOf(data, manager).value;
              prepared.rotation == manager.rotations[data.rotationId] &&
              |perSkill| == |prepared.rotation| && total == CalcCalculator.Sum(perSkill) &&
              forall i :: 0 <= i < |prepared.rotation| ==>
                CellDamage(prepared.agent, prepared.stats, data.enemy, prepared.rotation[i]) == Ok(perSkill[i])
  {
    if EvalOf(data, manager).Ok? {
      PreparedParts(data, manager);
      var prepared := PreparedOf(data, manager).value;
      DamagesMeaning(prepared.agent, prepared.stats, data.enemy, prepared.rotation);
    }
  }

  /**
   * `eval` throws on a rotation cell whose command is neither a skill nor
   * an anomaly of the requested agent, and on a skill cell with index 0.
   */
  lemma EvalCells(data: EvalData, manager: Manager)
    requires DiscsFull(data.discs)
    ensures EvalOf(data, manager).Ok? ==>
              var agent := manager.agents[data.agentId];
              var rotation := manager.rotations[data.rotationId];
              (forall i :: 0 <= i < |rotation| ==> rotation[i].command in agent.skills || rotation[i].command in agent.anomalies) &&
              (forall i :: 0 <= i < |rotation| && rotation[i].command in agent.skills ==> rotation[i].index >= 1)
  {
    if EvalOf(data, manager).Ok? {
      PreparedParts(data, manager);
      var prepared := PreparedOf(data, manager).value;
      DamagesCells(prepared.agent, prepared.stats, data.enemy, prepared.rotation);
    }
  }

  /** A priced rotation names only known abilities, and no skill cell has index 0. */
  lemma DamagesCells(agent: Agent, stats: map<nat, Stat>, enemy: Converters.Enemy, cells: seq<Rotation.Cell>)
    requires Damages(agent, stats, enemy, cells).Ok?
    ensures forall i :: 0 <= i < |cells| ==> cells[i].command in agent.skills || cells[i].command in agent.anomalies
    ensures forall i :: 0 <= i < |cells| && cells[i].command in agent.skills ==> cells[i].index >= 1
  {
    DamagesMeaning(agent, stats, enemy, cells);
    forall i | 0 <= i < |cells|
      ensures cells[i].command in agent.skills || cells[i].command in agent.anomalies
      ensures cells[i].command in agent.skills ==> cells[i].index >= 1
    {
      assert CellDamage(agent, stats, enemy, cells[i]).Ok?;
    }
  }

  /** `dds_count`: each disc's set id counted in turn. */
  method CountSets(discs: seq<DriveDiscPiece.Piece>) returns (counts: map<nat, nat>)
    ensures counts == RequestDetails.Count(RequestDetails.DiscIds(discs))
  {
    counts := map[];
    for i := 0 to |discs|
      invariant counts == RequestDetails.Count(RequestDetails.DiscIds(discs[..i]))
    {
      assert RequestDetails.DiscIds(discs[..i + 1]) == RequestDetails.DiscIds(discs[..i]) + [discs[i].discId];
      counts := RequestDetails.CountOne(counts, discs[i].discId, RequestDetails.DiscIds(discs[..i]));
    }
    assert discs[..|discs|] == discs;
  }

  /** Fetching one more id: its set appended, or the fetch fails. */
  lemma FetchStep(sets: map<nat, SetBonus>, ids: seq<nat>, id: nat, fetched: seq<SetBonus>)
    requires MapResults(Fetch(sets), ids) == Ok(fetched)
    ensures MapResults(Fetch(sets), ids + [id]) == if id in sets then Ok(fetched + [sets[id]]) else Err(Loaded(sets, id).error)
  {
    assert (ids + [id])[..|ids|] == ids;
  }

  /** A set id that fails to fetch fails the fetch of every id listed. */
  lemma FetchStops(counts: map<nat, nat>, sets: map<nat, SetBonus>, done: seq<nat>, rest: seq<nat>)
    requires MapResults(Fetch(sets), RequestDetails.AtLeast(counts, done, 2)).Err?
    ensures MapResults(Fetch(sets), RequestDetails.AtLeast(counts, done + rest, 2)) ==
              MapResults(Fetch(sets), RequestDetails.AtLeast(counts, done, 2))
  {
    var selected := RequestDetails.AtLeast(counts, done, 2);
    AtLeastAppend(counts, done, rest);
    assert (selected + RequestDetails.AtLeast(counts, rest, 2))[..|selected|] == selected;
    MapResultsStop(Fetch(sets), selected + RequestDetails.AtLeast(counts, rest, 2), |selected|);
  }

  /** Selecting from a concatenation selects from each part. */
  lemma {:induction false} AtLeastAppend(counts: map<nat, nat>, a: seq<nat>, b: seq<nat>)
    ensures RequestDetails.AtLeast(counts, a + b, 2) == RequestDetails.AtLeast(counts, a, 2) + RequestDetails.AtLeast(counts, b, 2)
  {
    if b == [] {
      assert a + b == a;
    } else {
      var init := b[..|b| - 1];
      assert (a + b)[..|a + b| - 1] == a + init;
      AtLeastAppend(counts, a, init);
    }
  }

  /**
   * The fetch loop over `dds_count` in ascending id order: every id counted
   * at least twice is fetched; an unregistered one throws.
   */
  method FetchSets(counts: map<nat, nat>, sets: map<nat, SetBonus>) returns (r: Result<seq<SetBonus>>)
    ensures r == MapResults(Fetch(sets), RequestDetails.AtLeast(counts, RequestDetails.Ascending(counts.Keys), 2))
  {
    var remaining := counts.Keys;
    ghost var done: seq<nat> := [];
    var fetched: seq<SetBonus> := [];
    while remaining != {}
      invariant remaining <= counts.Keys
      invariant done + RequestDetails.Ascending(remaining) == RequestDetails.Ascending(counts.Keys)
      invariant MapResults(Fetch(sets), RequestDetails.AtLeast(counts, done, 2)) == Ok(fetched)
      decreases remaining
    {
      var id :| id in remaining && forall k :: k in remaining ==> id <= k;
      RequestDetails.AscendingFirst(remaining, id);
      ghost var rest := RequestDetails.Ascending(remaining - {id});
      assert done + [id] + rest == done + ([id] + rest);
      RequestDetails.TiersStep(counts, done, id);
      if counts[id] >= 2 {
        var loaded := Loaded(sets, id);
        FetchStep(sets, RequestDetails.AtLeast(counts, done, 2), id, fetched);
        if loaded.Err? {
          FetchStops(counts, sets, done + [id], rest);
          return Err(loaded.error);
        }
        fetched := fetched + [loaded.value];
        assert MapResults(Fetch(sets), RequestDetails.AtLeast(counts, done + [id], 2)) == Ok(fetched);
      } else {
        assert RequestDetails.Cnt(counts, id) < 2;
        assert RequestDetails.AtLeast(counts, done + [id], 2) == RequestDetails.AtLeast(counts, done, 2);
      }
      done := done + [id];
      remaining := remaining - {id};
    }
    assert RequestDetails.Ascending(remaining) == [];
    assert done == done + RequestDetails.Ascending(remaining);
    r := Ok(fetched);
  }

  /** The loop over the fetched sets, filling the `dds` multimap. */
  method BucketSets(counts: map<nat, nat>, fetched: seq<SetBonus>) returns (r: Result<Tiers>)
    ensures r == Bucketed(counts, fetched)
  {
    var twos: seq<SetBonus> := [];
    var fours: seq<SetBonus> := [];
    for i := 0 to |fetched|
      invariant Bucketed(counts, fetched[..i]) == Ok(Tiers(twos, fours))
    {
      BucketedStep(counts, fetched, i);
      var bonus := fetched[i];
      if bonus.id !in counts {
        BucketedStops(counts, fetched, i + 1);
        return Err("map::at");
      }
      var count := counts[bonus.id];
      if count >= 2 {
        twos := twos + [bonus];
      }
      if count >= 4 {
        fours := fours + [bonus];
      }
    }
    assert fetched[..|fetched|] == fetched;
    r := Ok(Tiers(twos, fours));
  }

  /** A grid object holding the given stats. */
  method GridOf(m: map<nat, Stat>) returns (g: StatsGrid)
    requires WellKeyed(m)
    ensures fresh(g) && g.Valid() && g.content == m
  {
    g := new StatsGrid();
    g.content := m;
  }

  /** One disc: `add(main_stat())`, then `add(sub_stat(i))` for i below 4. */
  method AddPiece(grid: StatsGrid, p: DriveDiscPiece.Piece)
    requires grid.Valid() && |p.subStats| == 4
    modifies grid
    ensures grid.Valid() && grid.content == StatsAdded(old(grid.content), PieceStats(p))
  {
    ghost var start := grid.content;
    ghost var stats := PieceStats(p);
    StatsAddedStep(start, stats, 0);
    assert stats[..0] == [];
    grid.Add(AsStat(p.mainStat));
    for i := 0 to 4
      invariant grid.Valid() && grid.content == StatsAdded(start, stats[..i + 1])
    {
      StatsAddedStep(start, stats, i + 1);
      grid.Add(AsStat(p.subStats[i]));
    }
    assert stats[..5] == stats;
  }

  /** The disc loop: every disc's stats added in disc order. */
  method AddDiscs(grid: StatsGrid, discs: seq<DriveDiscPiece.Piece>)
    requires grid.Valid() && DiscsFull(discs)
    modifies grid
    ensures grid.Valid() && grid.content == StatsAdded(old(grid.content), AllPieceStats(discs))
  {
    ghost var start := grid.content;
    for k := 0 to |discs|
      invariant grid.Valid() && grid.content == StatsAdded(start, AllPieceStats(discs[..k]))
    {
      assert discs[..k + 1][..k] == discs[..k];
      StatsAddedAppend(start, AllPieceStats(discs[..k]), PieceStats(discs[k]));
      AddPiece(grid, discs[k]);
    }
    assert discs[..|discs|] == discs;
  }

  /** The set loop: for each multimap entry, `p2` for key 2 and `p4` for key 4. */
  method AddBonuses(grid: StatsGrid, entries: seq<(nat, SetBonus)>)
    requires grid.Valid() && EntriesKeyed(entries)
    modifies grid
    ensures grid.Valid() && grid.content == EntriesAdded(old(grid.content), entries)
  {
    ghost var start := grid.content;
    for i := 0 to |entries|
      invariant grid.Valid() && grid.content == EntriesAdded(start, entries[..i])
    {
      assert entries[..i + 1][..i] == entries[..i];
      var (count, entry) := entries[i];
      if count == 2 {
        var bonus := GridOf(entry.p2);
        grid.AddGrid(bonus);
      }
      if count == 4 {
        var bonus := GridOf(entry.p4);
        grid.AddGrid(bonus);
      }
    }
    assert entries[..|entries|] == entries;
  }

  /** The agent's grid: `agent_stats.add(agent->stats())`. */
  method AgentStats(agent: Agent) returns (g: StatsGrid)
    requires WellKeyed(agent.stats)
    ensures fresh(g) && g.Valid() && g.content == AgentGrid(agent)
  {
    g := new StatsGrid();
    var stats := GridOf(agent.stats);
    g.AddGrid(stats);
  }

  /** The w-engine's grid: main stat, sub stat, then the passive grid. */
  method WengineStats(w: Wengine) returns (g: StatsGrid)
    requires WellKeyed(w.passive)
    ensures fresh(g) && g.Valid() && g.content == WengineGrid(w)
  {
    g := new StatsGrid();
    g.Add(AsStat(w.mainStat));
    g.Add(AsStat(w.subStat));
    var passive := GridOf(w.passive);
    g.AddGrid(passive);
  }

  /** The discs' grid. */
  method DiscStats(discs: seq<DriveDiscPiece.Piece>) returns (g: StatsGrid)
    requires DiscsFull(discs)
    ensures fresh(g) && g.Valid() && g.content == DiscGrid(discs)
  {
    g := new StatsGrid();
    AddDiscs(g, discs);
  }

  /** The sets' grid, from the `dds` multimap. */
  method SetStats(t: Tiers) returns (g: StatsGrid)
    requires forall s :: s in t.twos || s in t.fours ==> WellKeyed(s.p2) && WellKeyed(s.p4)
    ensures fresh(g) && g.Valid() && g.content == SetGrid(t)
  {
    g := new StatsGrid();
    EntriesOfKeyed(t);
    AddBonuses(g, Entries(t));
  }

  /** The aggregation block of `eval`: four grids built apart, then added into one in order. */
  method Aggregate(agent: Agent, w: Wengine, discs: seq<DriveDiscPiece.Piece>, t: Tiers) returns (stats: map<nat, Stat>)
    requires DiscsFull(discs) && WellKeyed(agent.stats) && WellKeyed(w.passive)
    requires forall s :: s in t.twos || s in t.fours ==> WellKeyed(s.p2) && WellKeyed(s.p4)
    ensures stats == Aggregated(agent, w, discs, t)
  {
    var agentStats := AgentStats(agent);
    var wengineStats := WengineStats(w);
    var ddpStats := DiscStats(discs);
    var ddsStats := SetStats(t);
    var total := new StatsGrid();
    total.AddGrid(agentStats);
    total.AddGrid(wengineStats);
    total.AddGrid(ddpStats);
    total.AddGrid(ddsStats);
    stats := total.content;
  }

  /** The sets fetched from a manager whose grids are keyed have keyed grids. */
  lemma FetchedKeyed(sets: map<nat, SetBonus>, ids: seq<nat>)
    requires forall id :: id in sets ==> WellKeyed(sets[id].p2) && WellKeyed(sets[id].p4)
    requires MapResults(Fetch(sets), ids).Ok?
    ensures forall s :: s in MapResults(Fetch(sets), ids).value ==> WellKeyed(s.p2) && WellKeyed(s.p4)
  {
    MapResultsMeaning(Fetch(sets), ids);
    var fetched := MapResults(Fetch(sets), ids).value;
    forall s | s in fetched
      ensures WellKeyed(s.p2) && WellKeyed(s.p4)
    {
      var i :| 0 <= i < |fetched| && fetched[i] == s;
      assert Fetch(sets)(ids[i]) == Ok(s);
    }
  }

  /** The part of `eval` before the rotation loop: exactly `PreparedOf`, every throw included. */
  method Prepare(data: EvalData, manager: Manager) returns (r: Result<Prepared>)
    requires DiscsFull(data.discs) && ManagerKeyed(manager)
    ensures r == PreparedOf(data, manager)
  {
    var agent :- Loaded(manager.agents, data.agentId);
    var wengine :- Loaded(manager.wengines, data.wengineId);
    var rotation :- Loaded(manager.rotations, data.rotationId);
    var counts := CountSets(data.discs);
    var fetched := FetchSets(counts, manager.sets);
    if fetched.Err? {
      return Err(fetched.error);
    }
    var tiers := BucketSets(counts, fetched.value);
    if tiers.Err? {
      return Err(tiers.error);
    }
    FetchedKeyed(manager.sets, RequestDetails.DdsList(data.discs));
    BucketedMeaning(counts, fetched.value);
    var stats := Aggregate(agent, wengine, data.discs, tiers.value);
    r := Ok(Prepared(agent, stats, rotation));
  }

  /** Once a prefix of the rotation throws, pricing all of it throws the same way. */
  lemma DamagesStop(agent: Agent, stats: map<nat, Stat>, enemy: Converters.Enemy, cells: seq<Rotation.Cell>, n: nat)
    requires n <= |cells| && Damages(agent, stats, enemy, cells[..n]).Err?
    ensures Damages(agent, stats, enemy, cells) == Damages(agent, stats, enemy, cells[..n])
  {
    MapResultsStop(Pricer(agent, stats, enemy), cells, n);
  }

  /** The rotation loop: each cell priced in turn, its value appended and added to the total. */
  method PriceAll(agent: Agent, stats: map<nat, Stat>, enemy: Converters.Enemy, rotation: seq<Rotation.Cell>)
    returns (r: Result<(real, seq<real>)>)
    ensures r.Ok? <==> Damages(agent, stats, enemy, rotation).Ok?
    ensures r.Ok? ==> r.value == (CalcCalculator.Sum(Damages(agent, stats, enemy, rotation).value),
                                  Damages(agent, stats, enemy, rotation).value)
  {
    var total := 0.0;
    var perSkill: seq<real> := [];
    for i := 0 to |rotation|
      invariant Damages(agent, stats, enemy, rotation[..i]) == Ok(perSkill)
      invariant total == CalcCalculator.Sum(perSkill)
    {
      var dmg := PriceCell(agent, stats, enemy, rotation, i, perSkill);
      if dmg.Err? {
        return Err(dmg.error);
      }
      assert (perSkill + [dmg.value])[..|perSkill|] == perSkill;
      total := total + dmg.value;
      perSkill := perSkill + [dmg.value];
    }
    assert rotation[..|rotation|] == rotation;
    r := Ok((total, perSkill));
  }

  /** The body of the rotation loop: cell `i` priced after the cells before it. */
  method PriceCell(agent: Agent, stats: map<nat, Stat>, enemy: Converters.Enemy,
                   cells: seq<Rotation.Cell>, i: nat, ghost done: seq<real>) returns (r: Result<real>)
    requires i < |cells| && Damages(agent, stats, enemy, cells[..i]) == Ok(done)
    ensures r.Ok? ==> Damages(agent, stats, enemy, cells[..i + 1]) == Ok(done + [r.value])
    ensures r.Ok? ==> r == CellDamage(agent, stats, enemy, cells[i])
    ensures r.Err? ==> Damages(agent, stats, enemy, cells).Err?
  {
    assert cells[..i + 1][..i] == cells[..i];
    r := CellDamage(agent, stats, enemy, cells[i]);
    if r.Err? {
      DamagesStop(agent, stats, enemy, cells, i + 1);
    }
  }

  /** `Calculator::eval`: succeeds exactly when `EvalOf` does, with its value. */
  method Eval(data: EvalData, manager: Manager) returns (r: Result<(real, seq<real>)>)
    requires DiscsFull(data.discs) && ManagerKeyed(manager)
    ensures r.Ok? <==> EvalOf(data, manager).Ok?
    ensures r.Ok? ==> r.value == EvalOf(data, manager).value
  {
    var prepared :- Prepare(data, manager);
    r := PriceAll(prepared.agent, prepared.stats, data.enemy, prepared.rotation);
  }
}
