/**
 * The small enumerations of the game model: each is a class around one
 * `uint8_t`, so every byte is a representable value. Each enumeration has a
 * printing table (indexed by value; a value past the end prints the first
 * entry) and a parsing table (an unknown name parses to a default value).
 * The tables are written as `match` expressions, one case per table entry,
 * in the source's order.
 */
module Enums {
  import opened Wrappers

  /** The `uint8_t` underlying every enumeration. */
  newtype Byte = x: int | 0 <= x < 256

  // ---------------------------------------------------------------- Element

  const ElementNone: Byte := 0
  const Physical: Byte := 1
  const Fire: Byte := 2
  const Ice: Byte := 3
  const Electric: Byte := 4
  const Ether: Byte := 5
  const ElementCount: Byte := 6

  /** The element names that the parsing table knows. */
  const ElementKeys: set<string> := {"phys", "fire", "ice", "electric", "ether"}

  /** `Element::_from_string`: an unknown name gives None. */
  function ElementFromString(name: string): (e: Byte)
    ensures e < ElementCount
    ensures e == ElementNone <==> name !in ElementKeys
  {
    match name
    case "phys" => Physical
    case "fire" => Fire
    case "ice" => Ice
    case "electric" => Electric
    case "ether" => Ether
    case _ => ElementNone
  }

  /** `Element::_to_string`: the printing table, "none" for any value past its end. */
  function ElementToString(v: Byte): string
  {
    match v
    case 0 => "none"
    case 1 => "phys"
    case 2 => "fire"
    case 3 => "ice"
    case 4 => "electric"
    case 5 => "ether"
    case _ => "none"
  }

  // ---------------------------------------------------------------- Tag

  const Universal: Byte := 0
  const AnomalyTag: Byte := 1
  const Basic: Byte := 2
  const Dash: Byte := 3
  const Counter: Byte := 4
  const QuickAssist: Byte := 5
  const FollowupAssist: Byte := 6
  const DefensiveAssist: Byte := 7
  const EvasiveAssist: Byte := 8
  const Special: Byte := 9
  const ExSpecial: Byte := 10
  const Chain: Byte := 11
  const Ultimate: Byte := 12
  const TagCount: Byte := 13

  /** `Tag::_from_string`: an unknown name gives Universal. */
  function TagFromString(name: string): (t: Byte)
    ensures t < TagCount
  {
    match name
    case "universal" => Universal
    case "anomaly" => AnomalyTag
    case "basic" => Basic
    case "dash" => Dash
    case "counter" => Counter
    case "quick_assist" => QuickAssist
    case "followup_assist" => FollowupAssist
    case "defensive_assist" => DefensiveAssist
    case "evasive_assist" => EvasiveAssist
    case "special" => Special
    case "ex_special" => ExSpecial
    case "chain" => Chain
    case "ultimate" => Ultimate
    case _ => Universal
  }

  /** `Tag::_to_string`: the printing table, "universal" for any value past its end. */
  function TagToString(v: Byte): string
  {
    match v
    case 0 => "universal"
    case 1 => "anomaly"
    case 2 => "basic"
    case 3 => "dash"
    case 4 => "counter"
    case 5 => "quick_assist"
    case 6 => "followup_assist"
    case 7 => "defensive_assist"
    case 8 => "evasive_assist"
    case 9 => "special"
    case 10 => "ex_special"
    case 11 => "chain"
    case 12 => "ultimate"
    case _ => "universal"
  }

  // ---------------------------------------------------------------- Speciality

  const SpecialityNone: Byte := 0
  const Attack: Byte := 1
  const AnomalySpeciality: Byte := 2
  const Stun: Byte := 3
  const Support: Byte := 4
  const Defense: Byte := 5
  const SpecialityCount: Byte := 6

  /** The speciality names that the parsing table knows. */
  const SpecialityKeys: set<string> := {"attack", "anomaly", "stun", "support", "defense"}

  /** `Speciality::_from_string`: an unknown name gives None. */
  function SpecialityFromString(name: string): (s: Byte)
    ensures s < SpecialityCount
    ensures s == SpecialityNone <==> name !in SpecialityKeys
  {
    match name
    case "attack" => Attack
    case "anomaly" => AnomalySpeciality
    case "stun" => Stun
    case "support" => Support
    case "defense" => Defense
    case _ => SpecialityNone
  }

  /** `Speciality::_to_string`: the printing table, "none" for any value past its end. */
  function SpecialityToString(v: Byte): string
  {
    match v
    case 0 => "none"
    case 1 => "attack"
    case 2 => "anomaly"
    case 3 => "stun"
    case 4 => "support"
    case 5 => "defense"
    case _ => "none"
  }

  // ---------------------------------------------------------------- Rarity

  const NotSet: Byte := 0
  const RarityB: Byte := 2
  const RarityA: Byte := 3
  const RarityS: Byte := 4
  const RarityCount: Byte := 5

  /** `Rarity::_from_string`: only "B", "A" and "S" are known; anything else is NotSet. */
  function RarityFromString(name: string): (r: Byte)
    ensures r in {NotSet, RarityB, RarityA, RarityS}
    ensures r == NotSet <==> name !in {"B", "A", "S"}
  {
    match name
    case "B" => RarityB
    case "A" => RarityA
    case "S" => RarityS
    case _ => NotSet
  }

  /** `Rarity::_to_string`: values 0 and 1 both print "not_set". */
  function RarityToString(v: Byte): string
  {
    match v
    case 0 => "not_set"
    case 1 => "not_set"
    case 2 => "B"
    case 3 => "A"
    case 4 => "S"
    case _ => "not_set"
  }

  /** `Rarity::_from_char`. */
  function RarityFromChar(c: char): (r: Byte)
    ensures r in {NotSet, RarityB, RarityA, RarityS}
    ensures r == NotSet <==> c !in {'B', 'A', 'S'}
  {
    match c
    case 'B' => RarityB
    case 'A' => RarityA
    case 'S' => RarityS
    case _ => NotSet
  }

  /** `Rarity::_to_char`: the NUL character for every value but B, A and S. */
  function RarityToChar(v: Byte): (c: char)
    ensures c == '\0' <==> v !in {RarityB, RarityA, RarityS}
  {
    match v
    case 2 => 'B'
    case 3 => 'A'
    case 4 => 'S'
    case _ => '\0'
  }

  // ---------------------------------------------------------------- StatId

  const StatNone: Byte := 0
  const HpTotal: Byte := 1
  const HpBase: Byte := 2
  const HpRatio: Byte := 3
  const HpFlat: Byte := 4
  const AtkTotal: Byte := 5
  const AtkBase: Byte := 6
  const AtkRatio: Byte := 7
  const AtkFlat: Byte := 8
  const DefTotal: Byte := 9
  const DefBase: Byte := 10
  const DefRatio: Byte := 11
  const DefFlat: Byte := 12
  const CritRate: Byte := 13
  const CritDmg: Byte := 14
  const DefPenRatio: Byte := 15
  const DefPenFlat: Byte := 16
  const Ap: Byte := 17
  const AmTotal: Byte := 18
  const AmBase: Byte := 19
  const AmRatio: Byte := 20
  const AbRate: Byte := 21
  const AbPen: Byte := 22
  const ImpactTotal: Byte := 23
  const ImpactBase: Byte := 24
  const ImpactRatio: Byte := 25
  const ErTotal: Byte := 26
  const ErBase: Byte := 27
  const ErRatio: Byte := 28
  const ShieldEffect: Byte := 29
  const ReceivedDmgReduction: Byte := 30
  const Vulnerability: Byte := 31
  const DmgRatio: Byte := 32
  const PhysRatio: Byte := 33
  const FireRatio: Byte := 34
  const IceRatio: Byte := 35
  const ElectricRatio: Byte := 36
  const EtherRatio: Byte := 37
  const ResPen: Byte := 38
  const PhysResPen: Byte := 39
  const FireResPen: Byte := 40
  const IceResPen: Byte := 41
  const ElectricResPen: Byte := 42
  const EtherResPen: Byte := 43
  const StatCount: Byte := 44

  /** `StatId::_from_string`: an unknown name gives None. */
  function StatFromString(name: string): (id: Byte)
    ensures id < StatCount
  {
    match name
    case "none" => StatNone
    case "hp_total" => HpTotal
    case "hp_base" => HpBase
    case "hp_ratio" => HpRatio
    case "hp_flat" => HpFlat
    case "atk_total" => AtkTotal
    case "atk_base" => AtkBase
    case "atk_ratio" => AtkRatio
    case "atk_flat" => AtkFlat
    case "def_total" => DefTotal
    case "def_base" => DefBase
    case "def_ratio" => DefRatio
    case "def_flat" => DefFlat
    case "crit_rate" => CritRate
    case "crit_dmg" => CritDmg
    case "def_pen_ratio" => DefPenRatio
    case "def_pen_flat" => DefPenFlat
    case "ap" => Ap
    case "am_total" => AmTotal
    case "am_base" => AmBase
    case "am_ratio" => AmRatio
    case "ab_rate" => AbRate
    case "ab_pen" => AbPen
    case "impact_total" => ImpactTotal
    case "impact_base" => ImpactBase
    case "impact_ratio" => ImpactRatio
    case "er_total" => ErTotal
    case "er_base" => ErBase
    case "er_ratio" => ErRatio
    case "shield_effect" => ShieldEffect
    case "received_dmg_reduction" => ReceivedDmgReduction
    case "vulnerability" => Vulnerability
    case "dmg_ratio" => DmgRatio
    case "phys_ratio" => PhysRatio
    case "fire_ratio" => FireRatio
    case "ice_ratio" => IceRatio
    case "electric_ratio" => ElectricRatio
    case "ether_ratio" => EtherRatio
    case "res_pen" => ResPen
    case "phys_res_pen" => PhysResPen
    case "fire_res_pen" => FireResPen
    case "ice_res_pen" => IceResPen
    case "electric_res_pen" => ElectricResPen
    case "ether_res_pen" => EtherResPen
    case _ => StatNone
  }

  /** `StatId::_to_string`: the printing table, "none" for any value past its end. */
  function StatToString(v: Byte): string
  {
    match v
    case 0 => "none"
    case 1 => "hp_total"
    case 2 => "hp_base"
    case 3 => "hp_ratio"
    case 4 => "hp_flat"
    case 5 => "atk_total"
    case 6 => "atk_base"
    case 7 => "atk_ratio"
    case 8 => "atk_flat"
    case 9 => "def_total"
    case 10 => "def_base"
    case 11 => "def_ratio"
    case 12 => "def_flat"
    case 13 => "crit_rate"
    case 14 => "crit_dmg"
    case 15 => "def_pen_ratio"
    case 16 => "def_pen_flat"
    case 17 => "ap"
    case 18 => "am_total"
    case 19 => "am_base"
    case 20 => "am_ratio"
    case 21 => "ab_rate"
    case 22 => "ab_pen"
    case 23 => "impact_total"
    case 24 => "impact_base"
    case 25 => "impact_ratio"
    case 26 => "er_total"
    case 27 => "er_base"
    case 28 => "er_ratio"
    case 29 => "shield_effect"
    case 30 => "received_dmg_reduction"
    case 31 => "vulnerability"
    case 32 => "dmg_ratio"
    case 33 => "phys_ratio"
    case 34 => "fire_ratio"
    case 35 => "ice_ratio"
    case 36 => "electric_ratio"
    case 37 => "ether_ratio"
    case 38 => "res_pen"
    case 39 => "phys_res_pen"
    case 40 => "fire_res_pen"
    case 41 => "ice_res_pen"
    case 42 => "electric_res_pen"
    case 43 => "ether_res_pen"
    case _ => "none"
  }

  /**
   * `StatId + Element`: only DmgRatio and ResPen may be offset by an element,
   * anything else throws; the sum is cast back to the `uint8_t` enumeration.
   */
  function AddElement(id: Byte, e: Byte): (r: Result<Byte>)
    ensures r.Ok? <==> id == DmgRatio || id == ResPen
    ensures r.Ok? ==> r.value as int == (id as int + e as int) % 256
  {
    if id != DmgRatio && id != ResPen then Err("you only can sum DmgRatio or ResPen with Element")
    else Ok(((id as int + e as int) % 256) as Byte)
  }

  // ---------------------------------------------------------------- properties

  /** Printing then parsing gives every in-range element back (None prints "none", which parses to None). */
  lemma ElementRoundTrip(e: Byte, name: string)
    ensures e < ElementCount ==> ElementFromString(ElementToString(e)) == e
    ensures name in ElementKeys ==> ElementToString(ElementFromString(name)) == name
    ensures e >= ElementCount ==> ElementToString(e) == ElementToString(ElementNone)
  {
  }

  lemma TagRoundTrip(t: Byte)
    ensures t < TagCount ==> TagFromString(TagToString(t)) == t
    ensures t >= TagCount ==> TagToString(t) == TagToString(Universal)
    ensures TagFromString("") == Universal
  {
  }

  lemma SpecialityRoundTrip(s: Byte, name: string)
    ensures s < SpecialityCount ==> SpecialityFromString(SpecialityToString(s)) == s
    ensures name in SpecialityKeys ==> SpecialityToString(SpecialityFromString(name)) == name
    ensures s >= SpecialityCount ==> SpecialityToString(s) == SpecialityToString(SpecialityNone)
  {
  }

  lemma StatRoundTrip(id: Byte)
    ensures id < StatCount ==> StatFromString(StatToString(id)) == id
    ensures id >= StatCount ==> StatToString(id) == StatToString(StatNone)
    ensures StatFromString("") == StatNone
  {
    if id < 11 { StatRoundTripFrom0(id); }
    else if id < 22 { StatRoundTripFrom11(id); }
    else if id < 33 { StatRoundTripFrom22(id); }
    else if id < StatCount { StatRoundTripFrom33(id); }
  }

  // The 44 names in four quarters, so that each proof stays small.

  lemma StatRoundTripFrom0(id: Byte)
    requires id < 11
    ensures StatFromString(StatToString(id)) == id
  {
  }

  lemma StatRoundTripFrom11(id: Byte)
    requires 11 <= id < 22
    ensures StatFromString(StatToString(id)) == id
  {
  }

  lemma StatRoundTripFrom22(id: Byte)
    requires 22 <= id < 33
    ensures StatFromString(StatToString(id)) == id
  {
  }

  lemma StatRoundTripFrom33(id: Byte)
    requires 33 <= id < StatCount
    ensures StatFromString(StatToString(id)) == id
  {
  }

  /** The rarity letters round-trip both ways; NotSet prints as NUL. */
  lemma RarityRoundTrip(c: char, v: Byte)
    ensures c in {'B', 'A', 'S'} ==> RarityToChar(RarityFromChar(c)) == c
    ensures v in {RarityB, RarityA, RarityS} ==> RarityFromChar(RarityToChar(v)) == v
    ensures v in {RarityB, RarityA, RarityS} ==> RarityFromString(RarityToString(v)) == v
    ensures RarityToString(NotSet) == RarityToString(1) == "not_set"
    ensures v >= RarityCount ==> RarityToString(v) == "not_set"
    ensures RarityToChar(NotSet) == '\0'
  {
  }

  /**
   * The element offset lands exactly on the per-element stat: its printed name
   * is the element's name followed by "_ratio" (or "_res_pen" below).
   */
  lemma AddElementRatioNames(e: Byte)
    requires Physical <= e <= Ether
    ensures AddElement(DmgRatio, e).Ok?
    ensures StatToString(AddElement(DmgRatio, e).value) == ElementToString(e) + "_ratio"
  {
    if e == Physical {
      assert AddElement(DmgRatio, e).value == 33;
      assert StatToString(33) == "phys_ratio" == "phys" + "_ratio";
    } else if e == Fire {
      assert AddElement(DmgRatio, e).value == 34;
      assert StatToString(34) == "fire_ratio" == "fire" + "_ratio";
    } else if e == Ice {
      assert AddElement(DmgRatio, e).value == 35;
      assert StatToString(35) == "ice_ratio" == "ice" + "_ratio";
    } else if e == Electric {
      assert AddElement(DmgRatio, e).value == 36;
      assert StatToString(36) == "electric_ratio" == "electric" + "_ratio";
    } else {
      assert AddElement(DmgRatio, e).value == 37;
      assert StatToString(37) == "ether_ratio" == "ether" + "_ratio";
    }
  }

  lemma AddElementResPenNames(e: Byte)
    requires Physical <= e <= Ether
    ensures AddElement(ResPen, e).Ok?
    ensures StatToString(AddElement(ResPen, e).value) == ElementToString(e) + "_res_pen"
  {
    if e == Physical {
      assert AddElement(ResPen, e).value == 39;
      assert StatToString(39) == "phys_res_pen" == "phys" + "_res_pen";
    } else if e == Fire {
      assert AddElement(ResPen, e).value == 40;
      assert StatToString(40) == "fire_res_pen" == "fire" + "_res_pen";
    } else if e == Ice {
      assert AddElement(ResPen, e).value == 41;
      assert StatToString(41) == "ice_res_pen" == "ice" + "_res_pen";
    } else if e == Electric {
      assert AddElement(ResPen, e).value == 42;
      assert StatToString(42) == "electric_res_pen" == "electric" + "_res_pen";
    } else {
      assert AddElement(ResPen, e).value == 43;
      assert StatToString(43) == "ether_res_pen" == "ether" + "_res_pen";
    }
  }

  /** Offsetting by None is the identity; any other base stat throws. */
  lemma AddElementIdentity()
    ensures AddElement(DmgRatio, ElementNone) == Ok(DmgRatio)
    ensures AddElement(ResPen, ElementNone) == Ok(ResPen)
    ensures forall id: Byte, e: Byte :: id != DmgRatio && id != ResPen ==> AddElement(id, e).Err?
  {
  }
}
