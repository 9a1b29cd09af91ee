/**
 * The `DdpBuilder` of src/zzz/combat/drive_disc_piece.cpp: the generation
 * that stores a drive disc piece's main stat and its four sub stats in
 * fixed fields of `zzz::stat` rather than in a grid. The product starts
 * value-initialised: slot 0, rarity NotSet, stats of type None.
 */
module DriveDiscPiece {
  import opened Wrappers
  import opened Enums
  import opened DriveDiscInfo
  import opened StatsMath

  /** A default `zzz::stat`: value 0, type None, Universal tag. */
  const NoStat: StatValue := StatValue(0.0, StatNone, Universal)

  /** `DriveDiscPiece`: the finished piece with its four sub stat slots. */
  datatype Piece = Piece(discId: nat, slot: Byte, rarity: Byte, mainStat: StatValue, subStats: seq<StatValue>)

  class DdpBuilder {
    var discId: nat
    var slot: Byte
    var rarity: Byte
    var mainStat: StatValue
    /** `m_sub_stats[4]`. */
    const subStats: array<StatValue>
    /** `_is_set`. */
    var discIdSet: bool
    var slotSet: bool
    var raritySet: bool
    var mainStatSet: bool
    /** `_current_sub_stat`, a 3-bit field. */
    var currentSubStat: nat
    /** The sub stats added so far, in order. */
    ghost var added: seq<StatValue>

    ghost predicate Valid()
      reads this, subStats
    {
      subStats.Length == 4 && currentSubStat <= 4 && |added| == currentSubStat &&
      subStats[..currentSubStat] == added &&
      forall i :: currentSubStat <= i < 4 ==> subStats[i] == NoStat
    }

    constructor ()
      ensures Valid() && fresh(subStats)
      ensures discId == 0 && slot == 0 && rarity == NotSet && mainStat == NoStat && added == []
      ensures subStats[..] == [NoStat, NoStat, NoStat, NoStat]
      ensures !discIdSet && !slotSet && !raritySet && !mainStatSet && currentSubStat == 0
    {
      discId, slot, rarity, mainStat := 0, 0, NotSet, NoStat;
      subStats := new StatValue[4](_ => NoStat);
      discIdSet, slotSet, raritySet, mainStatSet := false, false, false, false;
      currentSubStat := 0;
      added := [];
    }

    /**
     * `sub_stat(index)` on the product: the index-th sub stat added, or
     * the default stat for a slot not filled yet.
     */
    function SubStat(index: nat): (s: StatValue)
      reads this, subStats
      requires Valid() && index < 4
      ensures index < currentSubStat ==> s == added[index]
      ensures index >= currentSubStat ==> s == NoStat
    {
      if index < currentSubStat then
        assert subStats[..currentSubStat][index] == subStats[index];
        subStats[index]
      else subStats[index]
    }

    /** `set_disc_id`: stores the id and sets its flag only. */
    method SetDiscId(id: nat)
      requires Valid()
      modifies this
      ensures Valid() && discId == id && discIdSet
      ensures slot == old(slot) && rarity == old(rarity) && mainStat == old(mainStat) && added == old(added)
      ensures slotSet == old(slotSet) && raritySet == old(raritySet) && mainStatSet == old(mainStatSet)
      ensures currentSubStat == old(currentSubStat)
    {
      discId, discIdSet := id, true;
    }

    /** `set_slot`: stores the slot and sets its flag only. */
    method SetSlot(s: Byte)
      requires Valid()
      modifies this
      ensures Valid() && slot == s && slotSet
      ensures discId == old(discId) && rarity == old(rarity) && mainStat == old(mainStat) && added == old(added)
      ensures discIdSet == old(discIdSet) && raritySet == old(raritySet) && mainStatSet == old(mainStatSet)
      ensures currentSubStat == old(currentSubStat)
    {
      slot, slotSet := s, true;
    }

    /** `set_rarity`: stores the rarity and sets its flag only. */
    method SetRarity(r: Byte)
      requires Valid()
      modifies this
      ensures Valid() && rarity == r && raritySet
      ensures discId == old(discId) && slot == old(slot) && mainStat == old(mainStat) && added == old(added)
      ensures discIdSet == old(discIdSet) && slotSet == old(slotSet) && mainStatSet == old(mainStatSet)
      ensures currentSubStat == old(currentSubStat)
    {
      rarity, raritySet := r, true;
    }

    /**
     * `set_main_stat(type, level)`: the same checks in the same order as the
     * grid version; then the main stat becomes {table value, type,
     * Universal} (whatever the level) and its flag is set. A rarity other
     * than B, A or S past both checks would index the table out of bounds.
     */
    method SetMainStat(t: Byte, level: Byte) returns (r: Result<()>)
      requires Valid()
      requires slot != 0 && rarity != NotSet && CheckMsLimits(slot, t) ==> Rated(rarity)
      modifies this
      ensures Valid() && added == old(added) && currentSubStat == old(currentSubStat)
      ensures slot == old(slot) && rarity == old(rarity) && discId == old(discId)
      ensures discIdSet == old(discIdSet) && slotSet == old(slotSet) && raritySet == old(raritySet)
      ensures r.Ok? <==> slot != 0 && rarity != NotSet && CheckMsLimits(slot, t)
      ensures r.Ok? ==> t in MainTable && mainStatSet && mainStat == StatValue(MainValue(t, rarity), t, Universal)
      ensures r.Err? ==> mainStat == old(mainStat) && mainStatSet == old(mainStatSet)
    {
      if slot == 0 || rarity == NotSet {
        return Err("you have to specify slot and rarity first");
      }
      if !CheckMsLimits(slot, t) {
        return Err("for this slot main stat doesn't exist");
      }
      MainTableRows(slot, t);
      mainStat := StatValue(MainValue(t, rarity), t, Universal);
      mainStatSet := true;
      r := Ok(());
    }

    /**
     * `add_sub_stat(type, level)`: after the slot and rarity check, a type
     * equal to the main stat's throws, as does one missing from the sub
     * table; otherwise the next slot receives {table value × (level + 1),
     * type, Universal}. Only four slots exist, so a fifth call would write
     * past the array.
     */
    method AddSubStat(t: Byte, level: Byte) returns (r: Result<()>)
      requires Valid() && currentSubStat < 4
      requires slot != 0 && rarity != NotSet && mainStat.statType != t && t in SubTable ==> Rated(rarity)
      modifies this, subStats
      ensures Valid() && mainStat == old(mainStat) && slot == old(slot) && rarity == old(rarity)
      ensures discId == old(discId) && discIdSet == old(discIdSet) && slotSet == old(slotSet)
      ensures raritySet == old(raritySet) && mainStatSet == old(mainStatSet)
      ensures r.Ok? <==> slot != 0 && rarity != NotSet && mainStat.statType != t && t in SubTable
      ensures r.Ok? ==> added == old(added) + [StatValue(SubValue(t, rarity, level), t, Universal)]
      ensures r.Ok? ==> currentSubStat == old(currentSubStat) + 1
      ensures r.Err? ==> added == old(added) && currentSubStat == old(currentSubStat) && subStats[..] == old(subStats[..])
    {
      if slot == 0 || rarity == NotSet {
        return Err("you have to specify slot and main stat first");
      }
      if mainStat.statType == t {
        return Err("you can't have same main and sub stat");
      }
      if t !in SubTable {
        return Err("unordered_map::at");
      }
      var s := StatValue(SubValue(t, rarity, level), t, Universal);
      subStats[currentSubStat] := s;
      assert subStats[..currentSubStat + 1] == old(subStats[..currentSubStat]) + [s];
      currentSubStat := currentSubStat + 1;
      added := added + [s];
      r := Ok(());
    }

    /** `is_built()`: all four flags, and at least rarity − 1 sub stats. */
    predicate IsBuilt()
      reads this
    {
      discIdSet && slotSet && raritySet && mainStatSet && currentSubStat >= RequiredSubStats(rarity)
    }

    /** `get_product()`: throws unless built; the piece carries all four sub stat slots. */
    method GetProduct() returns (r: Result<Piece>)
      requires Valid()
      ensures r.Ok? <==> IsBuilt()
      ensures r.Ok? ==> r.value == Piece(discId, slot, rarity, mainStat, subStats[..])
      ensures r.Ok? ==> |r.value.subStats| == 4 && r.value.subStats[..currentSubStat] == added &&
                        forall i :: currentSubStat <= i < 4 ==> r.value.subStats[i] == NoStat
    {
      if !IsBuilt() {
        return Err("you have to specify slot, main stat and at least 3 sub stats");
      }
      r := Ok(Piece(discId, slot, rarity, mainStat, subStats[..]));
    }
  }
}
