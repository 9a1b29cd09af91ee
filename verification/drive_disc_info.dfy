/**
 * The `drive_disc_info` tables that src/zzz/details/ddp.cpp and
 * src/zzz/combat/drive_disc_piece.cpp both define, identically (the first
 * over `StatId`, the second over `StatType`, with the same numbering):
 * which main stats a slot admits, and the main and sub stat values by
 * rarity B, A, S (table index rarity − 2).
 */
module DriveDiscInfo {
  import opened Enums

  /** `mss4_limits`: the main stats slot 4 admits. */
  const Mss4: set<Byte> := {AtkRatio, HpRatio, DefRatio, Ap, CritRate, CritDmg}

  /** `mss5_limits`. */
  const Mss5: set<Byte> := {AtkRatio, HpRatio, DefRatio, DefPenRatio, PhysRatio, FireRatio, IceRatio,
                            ElectricRatio, EtherRatio}

  /** `mss6_limits`. */
  const Mss6: set<Byte> := {AtkRatio, HpRatio, DefRatio, AmRatio, ErRatio, ImpactRatio}

  /** The main stats slot `slot` admits: one flat stat on slots 1-3, a list on 4-6, none elsewhere. */
  function AllowedMainStats(slot: Byte): (s: set<Byte>)
    ensures slot == 0 || slot > 6 ==> s == {}
  {
    match slot
    case 1 => {HpFlat}
    case 2 => {AtkFlat}
    case 3 => {DefFlat}
    case 4 => Mss4
    case 5 => Mss5
    case 6 => Mss6
    case _ => {}
  }

  /** `check_ms_limits(slot, type)`. */
  function CheckMsLimits(slot: Byte, t: Byte): (ok: bool)
    ensures ok <==> t in AllowedMainStats(slot)
    ensures ok ==> 1 <= slot <= 6
    ensures slot == 1 ==> (ok <==> t == HpFlat)
    ensures slot == 2 ==> (ok <==> t == AtkFlat)
    ensures slot == 3 ==> (ok <==> t == DefFlat)
  {
    match slot
    case 1 => t == HpFlat
    case 2 => t == AtkFlat
    case 3 => t == DefFlat
    case 4 => t in Mss4
    case 5 => t in Mss5
    case 6 => t in Mss6
    case _ => false
  }

  /**
   * `main_stat_conversion_table` as written: the B value of CritRate reads
   * 0.8, ten times the 0.08 that the A (0.16) and S (0.24) values and the
   * identical DefPenRatio row imply.
   */
  const MainTableAsWritten: map<Byte, seq<real>> := map[
    HpFlat := [734.0, 1468.0, 2200.0],
    AtkFlat := [104.0, 212.0, 316.0],
    DefFlat := [60.0, 124.0, 184.0],
    AtkRatio := [0.1, 0.2, 0.3],
    HpRatio := [0.1, 0.2, 0.3],
    DefRatio := [0.16, 0.32, 0.48],
    Ap := [32.0, 60.0, 92.0],
    CritRate := [0.8, 0.16, 0.24],
    CritDmg := [0.16, 0.32, 0.48],
    DefPenRatio := [0.08, 0.16, 0.24],
    PhysRatio := [0.1, 0.2, 0.3],
    FireRatio := [0.1, 0.2, 0.3],
    IceRatio := [0.1, 0.2, 0.3],
    ElectricRatio := [0.1, 0.2, 0.3],
    EtherRatio := [0.1, 0.2, 0.3],
    AmRatio := [0.1, 0.2, 0.3],
    ErRatio := [0.2, 0.4, 0.6],
    ImpactRatio := [0.06, 0.12, 0.18]]

  /**
   * The main stat table with the CritRate B value corrected to 0.08, the
   * evidently intended one; `MainValue`, and so every builder, reads the
   * table as written.
   */
  const MainTable: map<Byte, seq<real>> := MainTableAsWritten[CritRate := [0.08, 0.16, 0.24]]

  /** `sub_stat_convertion_table`. */
  const SubTable: map<Byte, seq<real>> := map[
    AtkFlat := [7.0, 15.0, 19.0],
    AtkRatio := [0.01, 0.02, 0.03],
    HpFlat := [39.0, 79.0, 112.0],
    HpRatio := [0.01, 0.02, 0.03],
    DefFlat := [5.0, 10.0, 15.0],
    DefRatio := [0.016, 0.032, 0.048],
    CritRate := [0.008, 0.016, 0.024],
    CritDmg := [0.016, 0.032, 0.048],
    DefPenFlat := [3.0, 6.0, 9.0],
    Ap := [3.0, 6.0, 9.0]]

  /** A rarity the tables have a column for: B, A or S. */
  predicate Rated(rarity: Byte)
  {
    RarityB <= rarity <= RarityS
  }

  /** A table row: three positive values that grow from B to A to S. */
  predicate Increasing(row: seq<real>)
  {
    |row| == 3 && 0.0 < row[0] < row[1] < row[2]
  }

  /**
   * As written, the CritRate row falls from B to A: a B-rarity disc with a
   * CritRate main stat gets 80% where an A-rarity one gets 16%.
   */
  lemma CritRateRowAsWritten()
    ensures CritRate in MainTableAsWritten && |MainTableAsWritten[CritRate]| == 3
    ensures MainTableAsWritten[CritRate][0] > MainTableAsWritten[CritRate][1]
    ensures !Increasing(MainTableAsWritten[CritRate])
  {
  }

  /**
   * In the corrected table every row increases, and every main stat any
   * slot admits has a row, so `main_stat_conversion_table.at` never throws
   * after `check_ms_limits` passed.
   */
  lemma MainTableRows(slot: Byte, t: Byte)
    ensures t in MainTable ==> Increasing(MainTable[t])
    ensures CheckMsLimits(slot, t) ==> t in MainTable
    ensures MainTable.Keys == MainTableAsWritten.Keys
    ensures forall u :: u in MainTable && u != CritRate ==> MainTable[u] == MainTableAsWritten[u]
  {
  }

  /** Every sub table row increases. */
  lemma SubTableRows(t: Byte)
    ensures t in SubTable ==> Increasing(SubTable[t])
  {
  }

  /**
   * The main stat value for an admitted stat at a rated rarity, read from
   * the table as written: it is the corrected value everywhere except the
   * B-rarity CritRate cell, where it is ten times that.
   */
  function MainValue(t: Byte, rarity: Byte): (v: real)
    requires t in MainTable && Rated(rarity)
    ensures v > 0.0
    ensures t != CritRate || rarity != RarityB ==> v == MainTable[t][rarity - RarityB]
    ensures t == CritRate && rarity == RarityB ==> v == 10.0 * MainTable[t][0]
  {
    MainTableRows(0, t);
    MainTableAsWritten[t][rarity - RarityB]
  }

  /** A sub stat's value at a rated rarity, scaled by `level + 1`. */
  function SubValue(t: Byte, rarity: Byte, level: Byte): (v: real)
    requires t in SubTable && Rated(rarity)
    ensures v > 0.0
  {
    SubTableRows(t);
    SubTable[t][rarity - RarityB] * (level as real + 1.0)
  }

  /**
   * The number of sub stats `is_built` asks for: `rarity − 1` as a `size_t`,
   * which wraps to the largest value for NotSet, so nothing satisfies it.
   */
  function RequiredSubStats(rarity: Byte): (n: nat)
    ensures rarity == RarityB ==> n == 1
    ensures rarity == RarityA ==> n == 2
    ensures rarity == RarityS ==> n == 3
    ensures rarity == NotSet ==> n > 255
  {
    if rarity == 0 then 0x1_0000_0000_0000_0000 - 1 else rarity as nat - 1
  }
}
