/**
 * The `DdpBuilder` of src/zzz/details/ddp.cpp: it builds a drive disc piece
 * whose stats live in a `StatsGrid` (src/zzz/stats_grid.cpp). The product
 * starts value-initialised: slot 0, rarity NotSet, no stats.
 */
module Ddp {
  import opened Wrappers
  import opened Enums
  import opened DriveDiscInfo
  import Stats
  import KeyedGrid

  /** `Ddp`: the finished piece. */
  datatype Piece = Piece(discId: nat, slot: Byte, rarity: Byte, stats: map<nat, Stats.Stat>)

  class DdpBuilder {
    var discId: nat
    var slot: Byte
    var rarity: Byte
    /** `m_product->m_stats`, owned by the builder. */
    const stats: KeyedGrid.StatsGrid
    /** `_is_set`. */
    var discIdSet: bool
    var slotSet: bool
    var raritySet: bool
    /** `_current_sub_stat`, a `uint8_t`. */
    var currentSubStat: nat
    /** `_main_stat_id`, None until a main stat is chosen. */
    var mainStatId: Byte

    predicate Valid()
      reads this, stats
    {
      stats.Valid() && currentSubStat < 256
    }

    constructor ()
      ensures Valid() && fresh(stats) && stats.content == map[]
      ensures discId == 0 && slot == 0 && rarity == NotSet
      ensures !discIdSet && !slotSet && !raritySet && currentSubStat == 0 && mainStatId == StatNone
    {
      discId, slot, rarity := 0, 0, NotSet;
      stats := new KeyedGrid.StatsGrid();
      discIdSet, slotSet, raritySet := false, false, false;
      currentSubStat, mainStatId := 0, StatNone;
    }

    /** `set_disc_id`: stores the id and sets its flag only. */
    method SetDiscId(id: nat)
      modifies this
      ensures discId == id && discIdSet
      ensures slot == old(slot) && rarity == old(rarity) && slotSet == old(slotSet) && raritySet == old(raritySet)
      ensures currentSubStat == old(currentSubStat) && mainStatId == old(mainStatId)
    {
      discId, discIdSet := id, true;
    }

    /** `set_slot`: stores the slot and sets its flag only. */
    method SetSlot(s: Byte)
      modifies this
      ensures slot == s && slotSet
      ensures discId == old(discId) && rarity == old(rarity) && discIdSet == old(discIdSet) && raritySet == old(raritySet)
      ensures currentSubStat == old(currentSubStat) && mainStatId == old(mainStatId)
    {
      slot, slotSet := s, true;
    }

    /** `set_rarity`: stores the rarity and sets its flag only. */
    method SetRarity(r: Byte)
      modifies this
      ensures rarity == r && raritySet
      ensures discId == old(discId) && slot == old(slot) && discIdSet == old(discIdSet) && slotSet == old(slotSet)
      ensures currentSubStat == old(currentSubStat) && mainStatId == old(mainStatId)
    {
      rarity, raritySet := r, true;
    }

    /**
     * `set_main_stat(type, level)`: needs a slot and a rarity, and a stat the
     * slot admits; then the table value for the rarity (whatever the level)
     * is added to the grid under Universal and the stat becomes the main
     * one. A rarity other than B, A or S past the NotSet check would index
     * the table out of bounds.
     */
    method SetMainStat(t: Byte, level: Byte) returns (r: Result<()>)
      requires Valid()
      requires slot != 0 && rarity != NotSet && CheckMsLimits(slot, t) ==> Rated(rarity)
      modifies this, stats
      ensures Valid()
      ensures currentSubStat == old(currentSubStat) && slot == old(slot) && rarity == old(rarity)
      ensures r.Ok? <==> slot != 0 && rarity != NotSet && CheckMsLimits(slot, t)
      ensures r.Ok? ==> t in MainTable && mainStatId == t &&
                        stats.content == KeyedGrid.Added(old(stats.content), Stats.Make(MainValue(t, rarity), t, Universal))
      ensures r.Ok? ==> stats.Get(t, Universal) == old(stats.Get(t, Universal)) + MainValue(t, rarity)
      ensures r.Err? ==> mainStatId == old(mainStatId) && stats.content == old(stats.content)
    {
      if slot == 0 || rarity == NotSet {
        return Err("you have to specify slot and rarity first");
      }
      if !CheckMsLimits(slot, t) {
        return Err("for this slot main stat doesn't exist");
      }
      MainTableRows(slot, t);
      stats.AddRegular(MainValue(t, rarity), t, Universal);
      KeyedGrid.AddedValues(old(stats.content), Stats.Make(MainValue(t, rarity), t, Universal), t, Universal);
      mainStatId := t;
      r := Ok(());
    }

    /**
     * `add_sub_stat(type, level)`: needs a slot and a rarity, and a stat
     * other than the main one; a stat missing from the sub table throws.
     * The table value times `level + 1` is added to the grid under
     * Universal, so a repeated sub stat accumulates into one entry.
     */
    method AddSubStat(t: Byte, level: Byte) returns (r: Result<()>)
      requires Valid()
      requires slot != 0 && rarity != NotSet && mainStatId != t && t in SubTable ==> Rated(rarity)
      modifies this, stats
      ensures Valid()
      ensures mainStatId == old(mainStatId) && slot == old(slot) && rarity == old(rarity)
      ensures r.Ok? <==> slot != 0 && rarity != NotSet && mainStatId != t && t in SubTable
      ensures r.Ok? ==> currentSubStat == (old(currentSubStat) + 1) % 256 &&
                        stats.content == KeyedGrid.Added(old(stats.content), Stats.Make(SubValue(t, rarity, level), t, Universal))
      ensures r.Ok? ==> stats.Get(t, Universal) == old(stats.Get(t, Universal)) + SubValue(t, rarity, level)
      ensures r.Err? ==> currentSubStat == old(currentSubStat) && stats.content == old(stats.content)
    {
      if slot == 0 || rarity == NotSet {
        return Err("you have to specify slot and main stat first");
      }
      if mainStatId == t {
        return Err("you can't have same main and sub stat");
      }
      if t !in SubTable {
        return Err("unordered_map::at");
      }
      stats.AddRegular(SubValue(t, rarity, level), t, Universal);
      KeyedGrid.AddedValues(old(stats.content), Stats.Make(SubValue(t, rarity, level), t, Universal), t, Universal);
      currentSubStat := (currentSubStat + 1) % 256;
      r := Ok(());
    }

    /**
     * `is_built()`: the id, slot and rarity were set, a main stat was chosen,
     * and there are at least rarity − 1 sub stats.
     */
    predicate IsBuilt()
      reads this
    {
      discIdSet && slotSet && raritySet && mainStatId != StatNone && currentSubStat >= RequiredSubStats(rarity)
    }

    /** `get_product()`: throws unless built. */
    method GetProduct() returns (r: Result<Piece>)
      requires Valid()
      ensures r.Ok? <==> IsBuilt()
      ensures r.Ok? ==> r.value == Piece(discId, slot, rarity, stats.content)
    {
      if !IsBuilt() {
        return Err("you have to specify slot, main stat and at least 3 sub stats");
      }
      r := Ok(Piece(discId, slot, rarity, stats.content));
    }
  }

  /**
   * How many sub stats a built piece needs: one for B, two for A, three
   * for S; a piece whose rarity was set to NotSet is never built.
   */
  lemma BuiltNeedsSubStats(b: DdpBuilder)
    ensures b.IsBuilt() && b.rarity == RarityB ==> b.currentSubStat >= 1
    ensures b.IsBuilt() && b.rarity == RarityA ==> b.currentSubStat >= 2
    ensures b.IsBuilt() && b.rarity == RarityS ==> b.currentSubStat >= 3
    ensures b.currentSubStat < 256 && b.rarity == NotSet ==> !b.IsBuilt()
    ensures b.IsBuilt() <==> b.discIdSet && b.slotSet && b.raritySet && b.mainStatId != StatNone &&
                             b.currentSubStat >= RequiredSubStats(b.rarity)
  {
  }
}
