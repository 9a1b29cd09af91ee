/**
 * The older string conversions of src/zzz/enums.cpp. Printing indexes a
 * fixed-size array by the enumeration's value (a value past the array is
 * undefined behaviour, so it is excluded by `requires`); parsing uses a map's
 * `at`, so an unknown name throws instead of giving a default. The arrays are
 * sized by the enumeration's `Count`, so the Element and Speciality arrays
 * have a sixth, empty entry. `StatType` is the older name of `StatId` with
 * the same 44 values.
 */
module EnumsConvert {
  import opened Wrappers
  import opened Enums

  // ---------------------------------------------------------------- StatType

  /** `stat_type_to_string`: the i-th name of `stat_type2cstr`. */
  function StatTypeToString(v: Byte): string
    requires v < StatCount
  {
    match v
    case 0 => "none"
    case 1 => "hp_total"
    case 2 => "hp_base"
    case 3 => "hp_ratio"
    case 4 => "hp_flat"
    case 5 => "atk_total"
    case 6 => "atk_base"
    case 7 => "atk_ratio"
    case 8 => "atk_flat"
    case 9 => "def_total"
    case 10 => "def_base"
    case 11 => "def_ratio"
    case 12 => "def_flat"
    case 13 => "crit_rate"
    case 14 => "crit_dmg"
    case 15 => "def_pen_ratio"
    case 16 => "def_pen_flat"
    case 17 => "ap"
    case 18 => "am_total"
    case 19 => "am_base"
    case 20 => "am_ratio"
    case 21 => "ab_rate"
    case 22 => "ab_pen"
    case 23 => "impact_total"
    case 24 => "impact_base"
    case 25 => "impact_ratio"
    case 26 => "er_total"
    case 27 => "er_base"
    case 28 => "er_ratio"
    case 29 => "shield_effect"
    case 30 => "received_dmg_reduction"
    case 31 => "vulnerability"
    case 32 => "dmg_ratio"
    case 33 => "phys_ratio"
    case 34 => "fire_ratio"
    case 35 => "ice_ratio"
    case 36 => "electric_ratio"
    case 37 => "ether_ratio"
    case 38 => "res_pen"
    case 39 => "phys_res_pen"
    case 40 => "fire_res_pen"
    case 41 => "ice_res_pen"
    case 42 => "electric_res_pen"
    case 43 => "ether_res_pen"
  }

  /** The names `cstr2stat_type` knows. */
  const StatTypeKeys: set<string> := {"none", "hp_total", "hp_base", "hp_ratio", "hp_flat", "atk_total", "atk_base", "atk_ratio", "atk_flat", "def_total", "def_base", "def_ratio", "def_flat", "crit_rate", "crit_dmg", "def_pen_ratio", "def_pen_flat", "ap", "am_total", "am_base", "am_ratio", "ab_rate", "ab_pen", "impact_total", "impact_base", "impact_ratio", "er_total", "er_base", "er_ratio", "shield_effect", "received_dmg_reduction", "vulnerability", "dmg_ratio", "phys_ratio", "fire_ratio", "ice_ratio", "electric_ratio", "ether_ratio", "res_pen", "phys_res_pen", "fire_res_pen", "ice_res_pen", "electric_res_pen", "ether_res_pen"}

  /** `string_to_stat_type`: an unknown name throws; a known one agrees with `StatId`'s parser. */
  function StringToStatType(name: string): (r: Result<Byte>)
    ensures r.Ok? <==> name in StatTypeKeys
    ensures r.Ok? ==> r.value == StatFromString(name) && r.value < StatCount
  {
    match name
    case "none" => Ok(StatNone)
    case "hp_total" => Ok(HpTotal)
    case "hp_base" => Ok(HpBase)
    case "hp_ratio" => Ok(HpRatio)
    case "hp_flat" => Ok(HpFlat)
    case "atk_total" => Ok(AtkTotal)
    case "atk_base" => Ok(AtkBase)
    case "atk_ratio" => Ok(AtkRatio)
    case "atk_flat" => Ok(AtkFlat)
    case "def_total" => Ok(DefTotal)
    case "def_base" => Ok(DefBase)
    case "def_ratio" => Ok(DefRatio)
    case "def_flat" => Ok(DefFlat)
    case "crit_rate" => Ok(CritRate)
    case "crit_dmg" => Ok(CritDmg)
    case "def_pen_ratio" => Ok(DefPenRatio)
    case "def_pen_flat" => Ok(DefPenFlat)
    case "ap" => Ok(Ap)
    case "am_total" => Ok(AmTotal)
    case "am_base" => Ok(AmBase)
    case "am_ratio" => Ok(AmRatio)
    case "ab_rate" => Ok(AbRate)
    case "ab_pen" => Ok(AbPen)
    case "impact_total" => Ok(ImpactTotal)
    case "impact_base" => Ok(ImpactBase)
    case "impact_ratio" => Ok(ImpactRatio)
    case "er_total" => Ok(ErTotal)
    case "er_base" => Ok(ErBase)
    case "er_ratio" => Ok(ErRatio)
    case "shield_effect" => Ok(ShieldEffect)
    case "received_dmg_reduction" => Ok(ReceivedDmgReduction)
    case "vulnerability" => Ok(Vulnerability)
    case "dmg_ratio" => Ok(DmgRatio)
    case "phys_ratio" => Ok(PhysRatio)
    case "fire_ratio" => Ok(FireRatio)
    case "ice_ratio" => Ok(IceRatio)
    case "electric_ratio" => Ok(ElectricRatio)
    case "ether_ratio" => Ok(EtherRatio)
    case "res_pen" => Ok(ResPen)
    case "phys_res_pen" => Ok(PhysResPen)
    case "fire_res_pen" => Ok(FireResPen)
    case "ice_res_pen" => Ok(IceResPen)
    case "electric_res_pen" => Ok(ElectricResPen)
    case "ether_res_pen" => Ok(EtherResPen)
    case _ => Err("unknown name")
  }

  // ---------------------------------------------------------------- Tag

  /** `tag_to_string`: the i-th name of `tag2cstr`, whose entry 6 is "assist_followup". */
  function TagToStringAsWritten(v: Byte): string
    requires v < TagCount
  {
    match v
    case 0 => "universal"
    case 1 => "anomaly"
    case 2 => "basic"
    case 3 => "dash"
    case 4 => "counter"
    case 5 => "quick_assist"
    case 6 => "assist_followup"
    case 7 => "defensive_assist"
    case 8 => "evasive_assist"
    case 9 => "special"
    case 10 => "ex_special"
    case 11 => "chain"
    case 12 => "ultimate"
  }

  /** `tag2cstr` with entry 6 spelt as the parser and `Tag`'s own table spell it. */
  function TagToStringCorrected(v: Byte): string
    requires v < TagCount
  {
    match v
    case 0 => "universal"
    case 1 => "anomaly"
    case 2 => "basic"
    case 3 => "dash"
    case 4 => "counter"
    case 5 => "quick_assist"
    case 6 => "followup_assist"
    case 7 => "defensive_assist"
    case 8 => "evasive_assist"
    case 9 => "special"
    case 10 => "ex_special"
    case 11 => "chain"
    case 12 => "ultimate"
  }

  const TagKeys: set<string> := {"universal", "anomaly", "basic", "dash", "counter", "quick_assist", "followup_assist", "defensive_assist", "evasive_assist", "special", "ex_special", "chain", "ultimate"}

  /** `string_to_tag`: an unknown name throws; a known one agrees with `Tag`'s parser. */
  function StringToTag(name: string): (r: Result<Byte>)
    ensures r.Ok? <==> name in TagKeys
    ensures r.Ok? ==> r.value == TagFromString(name) && r.value < TagCount
  {
    match name
    case "universal" => Ok(Universal)
    case "anomaly" => Ok(AnomalyTag)
    case "basic" => Ok(Basic)
    case "dash" => Ok(Dash)
    case "counter" => Ok(Counter)
    case "quick_assist" => Ok(QuickAssist)
    case "followup_assist" => Ok(FollowupAssist)
    case "defensive_assist" => Ok(DefensiveAssist)
    case "evasive_assist" => Ok(EvasiveAssist)
    case "special" => Ok(Special)
    case "ex_special" => Ok(ExSpecial)
    case "chain" => Ok(Chain)
    case "ultimate" => Ok(Ultimate)
    case _ => Err("unknown name")
  }

  // ---------------------------------------------------------------- Speciality

  /** `speciality_to_string`: `speciality2cstr` starts at "attack" and ends with an empty entry. */
  function SpecialityToStringAsWritten(v: Byte): string
    requires v < SpecialityCount
  {
    match v
    case 0 => "attack"
    case 1 => "anomaly"
    case 2 => "stun"
    case 3 => "support"
    case 4 => "defense"
    case 5 => ""
  }

  /** The printing table shifted by one, so that index `v` holds the name of value `v`. */
  function SpecialityToStringCorrected(v: Byte): string
    requires Attack <= v < SpecialityCount
  {
    match v
    case 0 => ""
    case 1 => "attack"
    case 2 => "anomaly"
    case 3 => "stun"
    case 4 => "support"
    case 5 => "defense"
  }

  /** `string_to_speciality`: an unknown name throws; a known one agrees with `Speciality`'s parser. */
  function StringToSpeciality(name: string): (r: Result<Byte>)
    ensures r.Ok? <==> name in SpecialityKeys
    ensures r.Ok? ==> r.value == SpecialityFromString(name) && Attack <= r.value <= Defense
  {
    match name
    case "attack" => Ok(Attack)
    case "anomaly" => Ok(AnomalySpeciality)
    case "stun" => Ok(Stun)
    case "support" => Ok(Support)
    case "defense" => Ok(Defense)
    case _ => Err("unknown name")
  }

  // ---------------------------------------------------------------- Element

  /** `element_to_string`: `element2cstr` starts at "phys" and ends with an empty entry. */
  function ElementToStringAsWritten(v: Byte): string
    requires v < ElementCount
  {
    match v
    case 0 => "phys"
    case 1 => "fire"
    case 2 => "ice"
    case 3 => "electric"
    case 4 => "ether"
    case 5 => ""
  }

  /** The printing table shifted by one, so that index `v` holds the name of value `v`. */
  function ElementToStringCorrected(v: Byte): string
    requires Physical <= v < ElementCount
  {
    match v
    case 0 => ""
    case 1 => "phys"
    case 2 => "fire"
    case 3 => "ice"
    case 4 => "electric"
    case 5 => "ether"
  }

  /** `string_to_element`: an unknown name throws; a known one agrees with `Element`'s parser. */
  function StringToElement(name: string): (r: Result<Byte>)
    ensures r.Ok? <==> name in ElementKeys
    ensures r.Ok? ==> r.value == ElementFromString(name) && Physical <= r.value <= Ether
  {
    match name
    case "phys" => Ok(Physical)
    case "fire" => Ok(Fire)
    case "ice" => Ok(Ice)
    case "electric" => Ok(Electric)
    case "ether" => Ok(Ether)
    case _ => Err("unknown name")
  }

  // ---------------------------------------------------------------- properties

  /** The stat-type tables are inverse to each other on all 44 values and all 44 names. */
  lemma StatTypeRoundTrip(v: Byte)
    requires v < StatCount
    ensures StringToStatType(StatTypeToString(v)) == Ok(v)
  {
    if v < 22 { StatTypeRoundTripLow(v); } else { StatTypeRoundTripHigh(v); }
  }

  lemma StatTypeRoundTripLow(v: Byte)
    requires v < 22
    ensures StringToStatType(StatTypeToString(v)) == Ok(v)
  {
  }

  lemma StatTypeRoundTripHigh(v: Byte)
    requires 22 <= v < StatCount
    ensures StringToStatType(StatTypeToString(v)) == Ok(v)
  {
  }

  lemma StatTypeNamesRoundTrip(name: string)
    requires name in StatTypeKeys
    ensures StatTypeToString(StringToStatType(name).value) == name
  {
    var v := StringToStatType(name).value;
    if v < 11 { StatTypeNamesFrom0(name); }
    else if v < 22 { StatTypeNamesFrom11(name); }
    else if v < 33 { StatTypeNamesFrom22(name); }
    else { StatTypeNamesFrom33(name); }
  }

  lemma StatTypeNamesFrom0(name: string)
    requires name in StatTypeKeys && StringToStatType(name).value < 11
    ensures StatTypeToString(StringToStatType(name).value) == name
  {
  }

  lemma StatTypeNamesFrom11(name: string)
    requires name in StatTypeKeys && 11 <= StringToStatType(name).value < 22
    ensures StatTypeToString(StringToStatType(name).value) == name
  {
  }

  lemma StatTypeNamesFrom22(name: string)
    requires name in StatTypeKeys && 22 <= StringToStatType(name).value < 33
    ensures StatTypeToString(StringToStatType(name).value) == name
  {
  }

  lemma StatTypeNamesFrom33(name: string)
    requires name in StatTypeKeys && 33 <= StringToStatType(name).value
    ensures StatTypeToString(StringToStatType(name).value) == name
  {
  }

  /** As written, the tag round trip holds for twelve tags and throws for FollowupAssist. */
  lemma TagRoundTripAsWritten(v: Byte)
    ensures v < TagCount && v != FollowupAssist ==> StringToTag(TagToStringAsWritten(v)) == Ok(v)
    ensures StringToTag(TagToStringAsWritten(FollowupAssist)).Err?
  {
  }

  /** With the corrected spelling the tag round trip holds for all thirteen tags. */
  lemma TagRoundTripCorrected(v: Byte, name: string)
    ensures v < TagCount ==> StringToTag(TagToStringCorrected(v)) == Ok(v)
    ensures name in TagKeys ==> TagToStringCorrected(StringToTag(name).value) == name
  {
  }

  /**
   * As written, printing is off by one against the enumeration's numbering:
   * Physical prints "fire", which parses back to Fire, and Ether prints the
   * empty entry, which does not parse at all.
   */
  lemma ElementRoundTripAsWritten(v: Byte)
    ensures StringToElement(ElementToStringAsWritten(Physical)) == Ok(Fire)
    ensures ElementNone <= v < Ether ==> StringToElement(ElementToStringAsWritten(v)) == Ok(v + 1)
    ensures StringToElement(ElementToStringAsWritten(Ether)).Err?
  {
  }

  /** With the table shifted by one, printing and parsing are inverse on Physical..Ether. */
  lemma ElementRoundTripCorrected(v: Byte, name: string)
    ensures Physical <= v <= Ether ==> StringToElement(ElementToStringCorrected(v)) == Ok(v)
    ensures name in ElementKeys ==> ElementToStringCorrected(StringToElement(name).value) == name
  {
  }

  /** The same off-by-one for specialities: Attack prints "anomaly". */
  lemma SpecialityRoundTripAsWritten(v: Byte)
    ensures StringToSpeciality(SpecialityToStringAsWritten(Attack)) == Ok(AnomalySpeciality)
    ensures SpecialityNone <= v < Defense ==> StringToSpeciality(SpecialityToStringAsWritten(v)) == Ok(v + 1)
    ensures StringToSpeciality(SpecialityToStringAsWritten(Defense)).Err?
  {
  }

  lemma SpecialityRoundTripCorrected(v: Byte, name: string)
    ensures Attack <= v <= Defense ==> StringToSpeciality(SpecialityToStringCorrected(v)) == Ok(v)
    ensures name in SpecialityKeys ==> SpecialityToStringCorrected(StringToSpeciality(name).value) == name
  {
  }
}
