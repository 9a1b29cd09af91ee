/**
 * `prepare_request_details` of src/backend/impl/details.cpp: a JSON request
 * names the agent and the w-engine by id, gives the rotation either as an
 * id or as lines of commands, and lists up to six drive discs. Disc i is
 * built with the fixed-array `DdpBuilder` into slot i + 1 and stored in
 * `ddps[i]`; the discs carrying each set id are counted, and every set id
 * with at least two discs is listed, in ascending id order, with a
 * 2-piece tier and, from four discs on, a 4-piece tier.
 *
 * Reading an element past the end of a `stats` or `levels` array, an empty
 * rotation line, or a rarity outside B, A and S reaching the stat tables
 * is undefined in the source; each is an error here.
 */
module RequestDetails {
  import opened Wrappers
  import opened Enums
  import opened DriveDiscInfo
  import opened StatsMath
  import opened JsonNode
  import Funcs
  import StringFuncs
  import Converters
  import DriveDiscPiece
  import Rotation

  /** `what.rotation`: an id to look up later, or the cells given inline. */
  datatype RotationRef = RotationId(id: nat) | RotationCells(cells: seq<Rotation.Cell>)

  /** What the request sets apart from the set tiers. */
  datatype Details = Details(agentId: nat, wengineId: nat, rotation: RotationRef, pieces: seq<DriveDiscPiece.Piece>)

  /** The fields of one disc object: `id`, `rarity`, `stats` and `levels`. */
  datatype DiscFields = DiscFields(id: nat, rarity: Byte, stats: seq<Node>, levels: seq<Node>)

  const DiscCount: nat := Converters.DiscCount

  /** Writing disc i to `ddps[i]` for i past five would write past the array. */
  predicate DiscsFit(source: Node)
  {
    source.Object? && "discs" in source.fields && source.fields["discs"].Array? ==>
      |source.fields["discs"].items| <= DiscCount
  }

  // ---------------------------------------------------------------- reading the JSON

  /** A stat selector: an integer is cast to a stat id, a string looked up by name, anything else throws. */
  function StatSelector(n: Node): (r: Result<Byte>)
    ensures r.Ok? <==> n.Integral? || n.String?
    ensures n.Integral? ==> r == Ok(Converters.AsU8(n.integral))
    ensures n.String? ==> r == Ok(StatFromString(n.str))
  {
    if n.Integral? then Ok(Converters.AsU8(n.integral))
    else
      var name :- AsString(n);
      Ok(StatFromString(name))
  }

  /** A level: an integer narrowed to the builder's `uint8_t` parameter. */
  function Level(n: Node): (r: Result<Byte>)
  {
    var v :- AsIntegral(n);
    Ok(Converters.AsU8(v))
  }

  /** The four fields of a disc object, each of the expected kind. */
  function ReadDisc(v: Node): (r: Result<DiscFields>)
  {
    var idNode :- At(v, "id");
    var id :- AsIntegral(idNode);
    var statsNode :- At(v, "stats");
    var stats :- AsArray(statsNode);
    var levelsNode :- At(v, "levels");
    var levels :- AsArray(levelsNode);
    var rarityNode :- At(v, "rarity");
    var rarity :- AsIntegral(rarityNode);
    Ok(DiscFields(Converters.AsU64(id), Converters.AsU8(rarity), stats, levels))
  }

  /** The sub stats that `stats[1..5]` and `levels[1..5]` add, in order; the first refused one throws. */
  function SubsFrom(stats: seq<Node>, levels: seq<Node>, mainType: Byte, rarity: Byte): (r: Result<seq<StatValue>>)
    requires |stats| == |levels| && Rated(rarity)
    ensures r.Ok? ==> |r.value| == |stats|
    ensures r.Ok? ==> forall i :: 0 <= i < |stats| ==>
                        StatSelector(stats[i]) == Ok(r.value[i].statType) && Level(levels[i]).Ok? &&
                        r.value[i].statType != mainType && r.value[i].statType in SubTable &&
                        r.value[i] == StatValue(SubValue(r.value[i].statType, rarity, Level(levels[i]).value),
                                                r.value[i].statType, Universal)
  {
    if stats == [] then Ok([])
    else
      var prev :- SubsFrom(stats[..|stats| - 1], levels[..|levels| - 1], mainType, rarity);
      var t :- StatSelector(stats[|stats| - 1]);
      var level :- Level(levels[|levels| - 1]);
      if t == mainType then Err("you can't have same main and sub stat")
      else if t !in SubTable then Err("unordered_map::at")
      else Ok(prev + [StatValue(SubValue(t, rarity, level), t, Universal)])
  }

  /**
   * The piece one disc object builds in the given slot: the set id, the
   * rarity, the main stat from `stats[0]` and four sub stats from
   * positions 1 to 4; any refusal of the builder throws.
   */
  function DiscPiece(slot: Byte, v: Node): (r: Result<DriveDiscPiece.Piece>)
  {
    var f :- ReadDisc(v);
    if |f.stats| < 5 || |f.levels| < 5 then Err("vector index out of range")
    else
      var mainType :- StatSelector(f.stats[0]);
      var mainLevel :- Level(f.levels[0]);
      if slot == 0 || f.rarity == NotSet then Err("you have to specify slot and rarity first")
      else if !CheckMsLimits(slot, mainType) then Err("for this slot main stat doesn't exist")
      else if !Rated(f.rarity) then Err("rarity outside the stat tables")
      else
        MainTableRows(slot, mainType);
        var subs :- SubsFrom(f.stats[1..5], f.levels[1..5], mainType, f.rarity);
        Ok(DriveDiscPiece.Piece(f.id, slot, f.rarity, StatValue(MainValue(mainType, f.rarity), mainType, Universal), subs))
  }

  /** Each disc with the slot it is built into: disc i goes to slot i + 1. */
  function Slotted(discs: seq<Node>): (r: seq<(Byte, Node)>)
    requires |discs| <= DiscCount
    ensures |r| == |discs| && forall i :: 0 <= i < |discs| ==> r[i] == ((i + 1) as Byte, discs[i])
  {
    seq(|discs|, i requires 0 <= i < |discs| => ((i + 1) as Byte, discs[i]))
  }

  function SlotPiece(d: (Byte, Node)): Result<DriveDiscPiece.Piece>
  {
    DiscPiece(d.0, d.1)
  }

  /** The discs in order, each built into its slot; the first refused disc throws. */
  function Pieces(discs: seq<Node>): (r: Result<seq<DriveDiscPiece.Piece>>)
    requires |discs| <= DiscCount
    ensures r.Ok? ==> |r.value| == |discs|
  {
    MapResults(SlotPiece, Slotted(discs))
  }

  // ---------------------------------------------------------------- reading a rotation line

  /**
   * One rotation line, cut at every space with `split_as_copy` (a trailing
   * space adds no piece): the first piece is the command, and the second,
   * when there is one, is read by `stoul` as the index. A line with no
   * piece at all reads `splitted[0]` past the end.
   */
  function ItemCell(n: Node): (r: Result<Rotation.Cell>)
    ensures r.Ok? ==> n.String? && StringFuncs.Split(n.str, Funcs.Space) != [] &&
                      r.value.command == StringFuncs.Split(n.str, Funcs.Space)[0]
    ensures n.String? ==> var pieces := StringFuncs.Split(n.str, Funcs.Space);
                          |pieces| == 1 ==> r == Ok(Rotation.Cell(pieces[0], 0))
    ensures n.String? ==> var pieces := StringFuncs.Split(n.str, Funcs.Space);
                          |pieces| >= 2 ==> (r.Ok? <==> Funcs.Stoul(pieces[1]).Ok?) &&
                                            (r.Ok? ==> r.value.index == Funcs.Stoul(pieces[1]).value)
  {
    var line :- AsString(n);
    var splitted := StringFuncs.Split(line, Funcs.Space);
    if |splitted| > 1 then
      var index :- Funcs.Stoul(splitted[1]);
      Ok(Rotation.Cell(splitted[0], index))
    else if splitted == [] then Err("empty line: no command")
    else Ok(Rotation.Cell(splitted[0], 0))
  }

  /** `rotation`: an array gives its lines as cells in order; anything else must be an integer id. */
  function RotationFrom(source: Node): (r: Result<RotationRef>)
  {
    var node :- At(source, "rotation");
    if !node.Array? then
      var id :- AsIntegral(node);
      Ok(RotationId(Converters.AsU64(id)))
    else
      var cells :- MapResults(ItemCell, node.items);
      Ok(RotationCells(cells))
  }

  /** Everything but the set tiers, read in the order the source reads it. */
  function ReadDetails(source: Node): (r: Result<Details>)
    requires DiscsFit(source)
  {
    var aidNode :- At(source, "aid");
    var aid :- AsIntegral(aidNode);
    var widNode :- At(source, "wid");
    var wid :- AsIntegral(widNode);
    var rotation :- RotationFrom(source);
    var discsNode :- At(source, "discs");
    var discs :- AsArray(discsNode);
    var pieces :- Pieces(discs);
    Ok(Details(Converters.AsU64(aid), Converters.AsU64(wid), rotation, pieces))
  }

  // ---------------------------------------------------------------- counting the sets

  /** The set ids of the pieces, in order. */
  function DiscIds(pieces: seq<DriveDiscPiece.Piece>): (ids: seq<nat>)
    ensures |ids| == |pieces| && forall i :: 0 <= i < |pieces| ==> ids[i] == pieces[i].discId
  {
    seq(|pieces|, i requires 0 <= i < |pieces| => pieces[i].discId)
  }

  /** The count of `x` in `counts`, zero when absent. */
  function Cnt(counts: map<nat, nat>, x: nat): nat
  {
    if x in counts then counts[x] else 0
  }

  /** `dds_count`: each id seen, with the number of times it was seen. */
  function Count(ids: seq<nat>): (counts: map<nat, nat>)
  {
    if ids == [] then map[]
    else
      var counts := Count(ids[..|ids| - 1]);
      var x := ids[|ids| - 1];
      counts[x := Cnt(counts, x) + 1]
  }

  /** The least element of a non-empty set. */
  ghost function Min(s: set<nat>): (m: nat)
    requires s != {}
    ensures m in s && forall k :: k in s ==> m <= k
    decreases s
  {
    var x :| x in s;
    if s == {x} then x
    else
      var m := Min(s - {x});
      assert forall k :: k in s ==> k == x || k in s - {x};
      if x < m then x else m
  }

  /** The elements of a set in ascending order: the iteration order of a `std::map`'s keys. */
  ghost function Ascending(s: set<nat>): seq<nat>
    decreases s
  {
    if s == {} then [] else [Min(s)] + Ascending(s - {Min(s)})
  }

  /** `dds_list`: the keys, in the given order, seen at least `n` times. */
  function AtLeast(counts: map<nat, nat>, keys: seq<nat>, n: nat): (r: seq<nat>)
    ensures |r| <= |keys|
  {
    if keys == [] then []
    else
      var x := keys[|keys| - 1];
      AtLeast(counts, keys[..|keys| - 1], n) + (if Cnt(counts, x) >= n then [x] else [])
  }

  /** `dds_by_count` in emplace order: (2, id) for an id seen twice, then (4, id) if seen four times. */
  function PairsOf(counts: map<nat, nat>, keys: seq<nat>): seq<(nat, nat)>
  {
    if keys == [] then []
    else
      var x := keys[|keys| - 1];
      PairsOf(counts, keys[..|keys| - 1]) +
      (if Cnt(counts, x) >= 2 then [(2, x)] else []) +
      (if Cnt(counts, x) >= 4 then [(4, x)] else [])
  }

  // ---------------------------------------------------------------- the request, as written

  /** `calc::request_t`, the part `prepare_request_details` writes. */
  class Request {
    var agentId: nat
    var wengineId: nat
    var rotation: RotationRef
    /** `ddps`: a slot never written holds a default piece, None here. */
    const ddps: array<Option<DriveDiscPiece.Piece>>
    var ddsList: seq<nat>
    var ddsByCount: seq<(nat, nat)>

    constructor ()
      ensures fresh(ddps) && ddps[..] == seq(DiscCount, _ => None)
      ensures agentId == 0 && wengineId == 0 && rotation == RotationId(0) && ddsList == [] && ddsByCount == []
    {
      agentId, wengineId, rotation := 0, 0, RotationId(0);
      ddps := new Option<DriveDiscPiece.Piece>[DiscCount](_ => None);
      ddsList, ddsByCount := [], [];
    }

    /**
     * The disc loop: disc i is built into slot i + 1, written to `ddps[i]`
     * and its set id counted; the returned map is `dds_count`.
     */
    method FillDiscs(discs: seq<Node>) returns (r: Result<map<nat, nat>>)
      requires ddps.Length == DiscCount && |discs| <= DiscCount
      modifies ddps
      ensures r.Ok? <==> Pieces(discs).Ok?
      ensures r.Ok? ==> ddps[..] == Placed(old(ddps[..]), Pieces(discs).value) &&
                        r.value == Count(DiscIds(Pieces(discs).value))
    {
      var counts: map<nat, nat> := map[];
      var currentDisk := 0;
      ghost var pieces: seq<DriveDiscPiece.Piece> := [];
      ghost var slotted := Slotted(discs);
      ghost var ids: seq<nat> := [];
      while currentDisk < |discs|
        invariant currentDisk <= |discs| && |pieces| == currentDisk
        invariant MapResults(SlotPiece, slotted[..currentDisk]) == Ok(pieces)
        invariant ddps[..] == Placed(old(ddps[..]), pieces)
        invariant ids == DiscIds(pieces) && counts == Count(ids)
      {
        var piece := BuildDisc((currentDisk + 1) as Byte, discs[currentDisk]);
        assert slotted[..currentDisk + 1][..currentDisk] == slotted[..currentDisk];
        assert slotted[..currentDisk + 1][currentDisk] == slotted[currentDisk];
        if piece.Err? {
          MapResultsMeaning(SlotPiece, slotted);
          return Err(piece.error);
        }
        PlacedStep(old(ddps[..]), pieces, piece.value);
        ddps[currentDisk] := Some(piece.value);
        counts := CountOne(counts, piece.value.discId, ids);
        assert DiscIds(pieces + [piece.value]) == ids + [piece.value.discId];
        ids := ids + [piece.value.discId];
        pieces := pieces + [piece.value];
        currentDisk := currentDisk + 1;
      }
      assert slotted[..|discs|] == slotted;
      r := Ok(counts);
    }

    /**
     * The loop over `dds_count` in ascending id order: an id seen at least
     * twice is appended to `dds_list` with a 2-piece tier, and one seen at
     * least four times also gets a 4-piece tier.
     */
    method ListSets(counts: map<nat, nat>)
      modifies this
      ensures ddsList == old(ddsList) + AtLeast(counts, Ascending(counts.Keys), 2)
      ensures ddsByCount == old(ddsByCount) + PairsOf(counts, Ascending(counts.Keys))
      ensures agentId == old(agentId) && wengineId == old(wengineId) && rotation == old(rotation)
    {
      var remaining := counts.Keys;
      ghost var done: seq<nat> := [];
      while remaining != {}
        invariant done + Ascending(remaining) == Ascending(counts.Keys)
        invariant ddsList == old(ddsList) + AtLeast(counts, done, 2)
        invariant ddsByCount == old(ddsByCount) + PairsOf(counts, done)
        invariant agentId == old(agentId) && wengineId == old(wengineId) && rotation == old(rotation)
        decreases remaining
      {
        ghost var least := Min(remaining);
        var id :| id in remaining && forall k :: k in remaining ==> id <= k;
        AscendingFirst(remaining, id);
        assert done + [id] + Ascending(remaining - {id}) == done + ([id] + Ascending(remaining - {id}));
        TiersStep(counts, done, id);
        var count := Cnt(counts, id);
        if count >= 2 {
          ddsList := ddsList + [id];
          ddsByCount := ddsByCount + [(2, id)];
          if count >= 4 {
            ddsByCount := ddsByCount + [(4, id)];
          }
        }
        done := done + [id];
        remaining := remaining - {id};
      }
      assert Ascending(remaining) == [];
      assert done == done + Ascending(remaining);
    }

    /**
     * `prepare_request_details(what, source)`: the ids, the rotation and
     * the discs as `ReadDetails` reads them; discs past the last given keep
     * their slots; the set ids seen at least twice are appended in
     * ascending order with their tiers.
     */
    method Prepare(source: Node) returns (r: Result<()>)
      requires ddps.Length == DiscCount && DiscsFit(source)
      modifies this, ddps
      ensures r.Ok? <==> ReadDetails(source).Ok?
      ensures r.Ok? ==> agentId == ReadDetails(source).value.agentId &&
                        wengineId == ReadDetails(source).value.wengineId &&
                        rotation == ReadDetails(source).value.rotation
      ensures r.Ok? ==> ddps[..] == Placed(old(ddps[..]), ReadDetails(source).value.pieces)
      ensures r.Ok? ==> ddsList == old(ddsList) + DdsList(ReadDetails(source).value.pieces) &&
                        ddsByCount == old(ddsByCount) + DdsByCount(ReadDetails(source).value.pieces)
    {
      var aidNode :- At(source, "aid");
      var aid :- AsIntegral(aidNode);
      agentId := Converters.AsU64(aid);
      var widNode :- At(source, "wid");
      var wid :- AsIntegral(widNode);
      wengineId := Converters.AsU64(wid);
      var rot :- ReadRotation(source);
      rotation := rot;
      var discsNode :- At(source, "discs");
      var discs :- AsArray(discsNode);
      var counts :- FillDiscs(discs);
      ListSets(counts);
      r := Ok(());
    }
  }

  /** `ddps` after the loop: the first slots hold the pieces, the rest are as before. */
  function Placed(before: seq<Option<DriveDiscPiece.Piece>>, pieces: seq<DriveDiscPiece.Piece>): (r: seq<Option<DriveDiscPiece.Piece>>)
    requires |pieces| <= |before|
    ensures |r| == |before|
    ensures forall i :: 0 <= i < |pieces| ==> r[i] == Some(pieces[i])
    ensures forall i :: |pieces| <= i < |before| ==> r[i] == before[i]
  {
    seq(|before|, i requires 0 <= i < |before| => if i < |pieces| then Some(pieces[i]) else before[i])
  }

  /** The set ids a request lists: those carried by at least two of its pieces, ascending. */
  ghost function DdsList(pieces: seq<DriveDiscPiece.Piece>): seq<nat>
  {
    var counts := Count(DiscIds(pieces));
    AtLeast(counts, Ascending(counts.Keys), 2)
  }

  /** The tiers a request lists, in emplace order. */
  ghost function DdsByCount(pieces: seq<DriveDiscPiece.Piece>): seq<(nat, nat)>
  {
    var counts := Count(DiscIds(pieces));
    PairsOf(counts, Ascending(counts.Keys))
  }

  /** The `rotation` entry; an array is fed line by line to the rotation builder. */
  method ReadRotation(source: Node) returns (r: Result<RotationRef>)
    ensures r.Ok? <==> RotationFrom(source).Ok?
    ensures r.Ok? ==> r == RotationFrom(source)
  {
    var node :- At(source, "rotation");
    if !node.Array? {
      var id :- AsIntegral(node);
      return Ok(RotationId(Converters.AsU64(id)));
    }
    var items := node.items;
    var cells: seq<Rotation.Cell> := [];
    for i := 0 to |items|
      invariant MapResults(ItemCell, items[..i]) == Ok(cells)
    {
      assert items[..i + 1][..i] == items[..i];
      var cell := ItemCell(items[i]);
      if cell.Err? {
        MapResultsMeaning(ItemCell, items);
        return Err(cell.error);
      }
      cells := cells + [cell.value];
    }
    assert items[..|items|] == items;
    r := Ok(RotationCells(cells));
  }

  /** The four `add_sub_stat` calls. */
  method AddSubs(builder: DriveDiscPiece.DdpBuilder, stats: seq<Node>, levels: seq<Node>, mainType: Byte)
    returns (r: Result<()>)
    requires builder.Valid() && builder.currentSubStat == 0 && |stats| == 4 && |levels| == 4
    requires builder.slot != 0 && Rated(builder.rarity) && builder.mainStat.statType == mainType
    modifies builder, builder.subStats
    ensures builder.Valid() && builder.slot == old(builder.slot) && builder.rarity == old(builder.rarity)
    ensures builder.mainStat == old(builder.mainStat) && builder.discId == old(builder.discId)
    ensures builder.discIdSet == old(builder.discIdSet) && builder.slotSet == old(builder.slotSet)
    ensures builder.raritySet == old(builder.raritySet) && builder.mainStatSet == old(builder.mainStatSet)
    ensures r.Ok? <==> SubsFrom(stats, levels, mainType, builder.rarity).Ok?
    ensures r.Ok? ==> builder.added == SubsFrom(stats, levels, mainType, builder.rarity).value &&
                      builder.currentSubStat == 4
  {
    for j := 0 to 4
      invariant builder.Valid() && builder.slot == old(builder.slot) && builder.rarity == old(builder.rarity)
      invariant builder.mainStat == old(builder.mainStat) && builder.discId == old(builder.discId)
      invariant builder.discIdSet == old(builder.discIdSet) && builder.slotSet == old(builder.slotSet)
      invariant builder.raritySet == old(builder.raritySet) && builder.mainStatSet == old(builder.mainStatSet)
      invariant SubsFrom(stats[..j], levels[..j], mainType, builder.rarity) == Ok(builder.added)
      invariant builder.currentSubStat == j
    {
      assert stats[..j + 1][..j] == stats[..j] && levels[..j + 1][..j] == levels[..j];
      var t := StatSelector(stats[j]);
      var level := Level(levels[j]);
      if t.Err? || level.Err? {
        SubsPrefix(stats, levels, mainType, builder.rarity, j + 1);
        return Err(if t.Err? then t.error else level.error);
      }
      var added := builder.AddSubStat(t.value, level.value);
      if added.Err? {
        SubsPrefix(stats, levels, mainType, builder.rarity, j + 1);
        return Err(added.error);
      }
    }
    assert stats[..4] == stats && levels[..4] == levels;
    r := Ok(());
  }

  /** The body of the disc loop: a fresh builder fed one disc object. */
  method BuildDisc(slot: Byte, v: Node) returns (r: Result<DriveDiscPiece.Piece>)
    ensures r.Ok? <==> DiscPiece(slot, v).Ok?
    ensures r.Ok? ==> r == DiscPiece(slot, v)
  {
    var builder := new DriveDiscPiece.DdpBuilder();
    var fields := ReadDisc(v);
    if fields.Err? {
      return Err(fields.error);
    }
    var f := fields.value;
    builder.SetDiscId(f.id);
    builder.SetSlot(slot);
    builder.SetRarity(f.rarity);
    if |f.stats| < 5 || |f.levels| < 5 {
      return Err("vector index out of range");
    }
    var mainType :- StatSelector(f.stats[0]);
    var mainLevel :- Level(f.levels[0]);
    if slot != 0 && f.rarity != NotSet && CheckMsLimits(slot, mainType) && !Rated(f.rarity) {
      return Err("rarity outside the stat tables");
    }
    var mainSet := builder.SetMainStat(mainType, mainLevel);
    if mainSet.Err? {
      return Err(mainSet.error);
    }
    var subsAdded := AddSubs(builder, f.stats[1..5], f.levels[1..5], mainType);
    if subsAdded.Err? {
      return Err(subsAdded.error);
    }
    assert builder.subStats[..] == builder.subStats[..4];
    r := builder.GetProduct();
  }

  // ---------------------------------------------------------------- step lemmas

  /** A failure among the first sub stats is a failure of all four. */
  lemma {:induction false} SubsPrefix(stats: seq<Node>, levels: seq<Node>, mainType: Byte, rarity: Byte, n: nat)
    requires |stats| == |levels| && Rated(rarity) && n <= |stats|
    ensures SubsFrom(stats[..n], levels[..n], mainType, rarity).Err? ==> SubsFrom(stats, levels, mainType, rarity).Err?
    decreases |stats| - n
  {
    if n < |stats| {
      assert stats[..n + 1][..n] == stats[..n] && levels[..n + 1][..n] == levels[..n];
      SubsPrefix(stats, levels, mainType, rarity, n + 1);
    } else {
      assert stats[..n] == stats && levels[..n] == levels;
    }
  }

  /** One more key: its entries come after those of the keys before it. */
  lemma TiersStep(counts: map<nat, nat>, keys: seq<nat>, x: nat)
    ensures AtLeast(counts, keys + [x], 2) == AtLeast(counts, keys, 2) + (if Cnt(counts, x) >= 2 then [x] else [])
    ensures PairsOf(counts, keys + [x]) == PairsOf(counts, keys) +
              (if Cnt(counts, x) >= 2 then [(2, x)] else []) + (if Cnt(counts, x) >= 4 then [(4, x)] else [])
  {
    assert (keys + [x])[..|keys|] == keys;
  }

  /** `dds_count[id]++`, or 1 for an id not seen before. */
  method CountOne(counts: map<nat, nat>, id: nat, ghost ids: seq<nat>) returns (r: map<nat, nat>)
    requires counts == Count(ids)
    ensures r == Count(ids + [id])
  {
    CountStep(ids, id);
    if id in counts {
      r := counts[id := counts[id] + 1];
    } else {
      r := counts[id := 1];
    }
  }

  /** Writing the next slot. */
  lemma PlacedStep(before: seq<Option<DriveDiscPiece.Piece>>, pieces: seq<DriveDiscPiece.Piece>, p: DriveDiscPiece.Piece)
    requires |pieces| < |before|
    ensures Placed(before, pieces)[|pieces| := Some(p)] == Placed(before, pieces + [p])
  {
  }

  /** Counting one more piece. */
  lemma CountStep(ids: seq<nat>, x: nat)
    ensures Count(ids + [x]) == Count(ids)[x := Cnt(Count(ids), x) + 1]
  {
    assert (ids + [x])[..|ids|] == ids;
  }

  /** The least element comes first, then the rest in ascending order. */
  lemma AscendingFirst(s: set<nat>, m: nat)
    requires m in s && forall k :: k in s ==> m <= k
    ensures Ascending(s) == [m] + Ascending(s - {m})
  {
    assert Min(s) <= m && m <= Min(s);
  }

  // ---------------------------------------------------------------- properties

  /** A disc object reads when it has an integral `id` and `rarity` and array `stats` and `levels`. */
  lemma ReadDiscMeaning(v: Node)
    ensures ReadDisc(v).Ok? <==>
              v.Object? && "id" in v.fields && "stats" in v.fields && "levels" in v.fields && "rarity" in v.fields &&
              v.fields["id"].Integral? && v.fields["stats"].Array? && v.fields["levels"].Array? &&
              v.fields["rarity"].Integral?
    ensures ReadDisc(v).Ok? ==>
              ReadDisc(v).value == DiscFields(Converters.AsU64(v.fields["id"].integral),
                                              Converters.AsU8(v.fields["rarity"].integral),
                                              v.fields["stats"].items, v.fields["levels"].items)
  {
  }

  /**
   * A built piece lies in the given slot with the disc's id and rated
   * rarity, its main stat is the one `stats[0]` selects and the slot
   * admits, and its four sub stats are those `stats[1..5]` select, none
   * equal to the main stat. Short arrays and an unset rarity throw.
   */
  lemma DiscPieceMeaning(slot: Byte, v: Node)
    ensures DiscPiece(slot, v).Ok? ==>
              ReadDisc(v).Ok? &&
              var f := ReadDisc(v).value;
              var p := DiscPiece(slot, v).value;
              |f.stats| >= 5 && |f.levels| >= 5 &&
              p.slot == slot && p.discId == f.id && p.rarity == f.rarity && Rated(p.rarity) &&
              StatSelector(f.stats[0]) == Ok(p.mainStat.statType) && CheckMsLimits(slot, p.mainStat.statType) &&
              p.mainStat == StatValue(MainValue(p.mainStat.statType, p.rarity), p.mainStat.statType, Universal) &&
              |p.subStats| == 4 &&
              forall i :: 0 <= i < 4 ==>
                StatSelector(f.stats[i + 1]) == Ok(p.subStats[i].statType) &&
                p.subStats[i].statType != p.mainStat.statType && p.subStats[i].tag == Universal
    ensures ReadDisc(v).Ok? && (|ReadDisc(v).value.stats| < 5 || |ReadDisc(v).value.levels| < 5) ==>
              DiscPiece(slot, v).Err?
    ensures ReadDisc(v).Ok? && ReadDisc(v).value.rarity == NotSet ==> DiscPiece(slot, v).Err?
    ensures slot == 0 ==> DiscPiece(slot, v).Err?
  {
    if DiscPiece(slot, v).Ok? {
      var f := ReadDisc(v).value;
      var subs := SubsFrom(f.stats[1..5], f.levels[1..5], DiscPiece(slot, v).value.mainStat.statType, f.rarity);
      assert subs.Ok? && DiscPiece(slot, v).value.subStats == subs.value;
      forall i | 0 <= i < 4
        ensures StatSelector(f.stats[i + 1]) == Ok(subs.value[i].statType)
      {
        assert f.stats[1..5][i] == f.stats[i + 1];
      }
    }
  }

  /** Disc i is built into slot i + 1: the array succeeds iff every disc does, and holds their pieces in order. */
  lemma PiecesMeaning(discs: seq<Node>)
    requires |discs| <= DiscCount
    ensures Pieces(discs).Ok? <==> forall i :: 0 <= i < |discs| ==> DiscPiece((i + 1) as Byte, discs[i]).Ok?
    ensures Pieces(discs).Ok? ==> forall i :: 0 <= i < |discs| ==>
              DiscPiece((i + 1) as Byte, discs[i]) == Ok(Pieces(discs).value[i])
  {
    var slotted := Slotted(discs);
    assert Pieces(discs) == MapResults(SlotPiece, slotted);
    MapResultsMeaning(SlotPiece, slotted);
    forall i | 0 <= i < |discs|
      ensures SlotPiece(slotted[i]) == DiscPiece((i + 1) as Byte, discs[i])
    {
    }
  }

  /** Disc i lands in slot i + 1 with its own set id. */
  lemma PieceSlots(discs: seq<Node>)
    requires |discs| <= DiscCount
    ensures Pieces(discs).Ok? ==> forall i :: 0 <= i < |discs| ==>
              Pieces(discs).value[i].slot as int == i + 1 && ReadDisc(discs[i]).Ok? &&
              Pieces(discs).value[i].discId == ReadDisc(discs[i]).value.id
  {
    PiecesMeaning(discs);
    if Pieces(discs).Ok? {
      forall i | 0 <= i < |discs|
        ensures Pieces(discs).value[i].slot as int == i + 1 && ReadDisc(discs[i]).Ok? &&
                Pieces(discs).value[i].discId == ReadDisc(discs[i]).value.id
      {
        DiscPieceMeaning((i + 1) as Byte, discs[i]);
      }
    }
  }

  /**
   * An array rotation gives one cell per line in order; any other value
   * must be an integer, taken as the rotation's id.
   */
  lemma RotationMeaning(source: Node)
    ensures RotationFrom(source).Ok? ==> source.Object? && "rotation" in source.fields
    ensures source.Object? && "rotation" in source.fields && !source.fields["rotation"].Array? ==>
              (RotationFrom(source).Ok? <==> source.fields["rotation"].Integral?) &&
              (RotationFrom(source).Ok? ==>
                 RotationFrom(source).value == RotationId(Converters.AsU64(source.fields["rotation"].integral)))
    ensures source.Object? && "rotation" in source.fields && source.fields["rotation"].Array? ==>
              var items := source.fields["rotation"].items;
              (RotationFrom(source).Ok? <==> forall i :: 0 <= i < |items| ==> ItemCell(items[i]).Ok?) &&
              (RotationFrom(source).Ok? ==>
                 RotationFrom(source).value.RotationCells? && |RotationFrom(source).value.cells| == |items| &&
                 forall i :: 0 <= i < |items| ==> ItemCell(items[i]) == Ok(RotationFrom(source).value.cells[i]))
  {
    if source.Object? && "rotation" in source.fields && source.fields["rotation"].Array? {
      MapResultsMeaning(ItemCell, source.fields["rotation"].items);
    }
  }

  /** A line "cmd" and a line "cmd " are the cell (cmd, 0); the empty line is refused. */
  lemma ItemCellWord(cmd: string)
    requires cmd != [] && Funcs.Space !in cmd
    ensures ItemCell(String(cmd)) == Ok(Rotation.Cell(cmd, 0))
    ensures ItemCell(String(cmd + [Funcs.Space])) == Ok(Rotation.Cell(cmd, 0))
    ensures ItemCell(String("")).Err?
  {
    StringFuncs.NoDelimFirstIndex(cmd, Funcs.Space);
    WordThen(cmd, []);
    assert cmd + [Funcs.Space] + [] == cmd + [Funcs.Space];
  }

  /** A line "cmd n" is the cell (cmd, n), and a line "cmd -n" the cell with n negated modulo 2^64. */
  lemma ItemCellText(cmd: string, n: nat, sign: string)
    requires cmd != [] && Funcs.Space !in cmd && n < StringFuncs.SizeMax
    requires sign == [] || sign == ['+'] || sign == ['-']
    ensures ItemCell(String(cmd + [Funcs.Space] + (sign + StringFuncs.DecimalString(n)))) ==
            Ok(Rotation.Cell(cmd, if sign == ['-'] then (StringFuncs.SizeMax - n) % StringFuncs.SizeMax else n))
  {
    NumberPiece(sign, n);
    WordThen(cmd, sign + StringFuncs.DecimalString(n));
  }

  /** A printed number, with or without a sign, is one piece, and `stoul` reads it back. */
  lemma NumberPiece(sign: string, n: nat)
    requires sign == [] || sign == ['+'] || sign == ['-']
    requires n < StringFuncs.SizeMax
    ensures StringFuncs.Split(sign + StringFuncs.DecimalString(n), Funcs.Space) == [sign + StringFuncs.DecimalString(n)]
    ensures Funcs.Stoul(sign + StringFuncs.DecimalString(n)) ==
            Ok(if sign == ['-'] then (StringFuncs.SizeMax - n) % StringFuncs.SizeMax else n)
  {
    var d := StringFuncs.DecimalString(n);
    var token := sign + d;
    assert Funcs.Space !in token by {
      assert forall j :: 0 <= j < |d| ==> StringFuncs.IsDigit(d[j]);
    }
    StringFuncs.NoDelimFirstIndex(token, Funcs.Space);
    Funcs.StoulDecimal([], sign, n, []);
    assert [] + (sign + (d + [])) == token;
  }

  /** A space-free word, a space and a rest split into the word and the pieces of the rest. */
  lemma WordThen(cmd: string, rest: string)
    requires Funcs.Space !in cmd
    ensures StringFuncs.Split(cmd + [Funcs.Space] + rest, Funcs.Space) == [cmd] + StringFuncs.Split(rest, Funcs.Space)
  {
    var s := cmd + [Funcs.Space] + rest;
    forall j | 0 <= j < |cmd| ensures s[j] != Funcs.Space {
      assert s[j] == cmd[j];
    }
    StringFuncs.SplitAt(s, Funcs.Space, |cmd|);
    assert s[..|cmd|] == cmd && s[|cmd| + 1..] == rest;
  }

  /** Each id seen is counted as often as it occurs, and no other id is counted. */
  lemma {:induction false} CountMeaning(ids: seq<nat>)
    ensures forall x :: x in Count(ids) <==> x in ids
    ensures forall x :: Cnt(Count(ids), x) == multiset(ids)[x]
  {
    if ids != [] {
      var init := ids[..|ids| - 1];
      CountMeaning(init);
      assert ids == init + [ids[|ids| - 1]];
    }
  }

  /** The keys come out in strictly ascending order, each key once. */
  lemma {:induction false} AscendingMeaning(s: set<nat>)
    ensures forall x :: x in Ascending(s) <==> x in s
    ensures forall i, j :: 0 <= i < j < |Ascending(s)| ==> Ascending(s)[i] < Ascending(s)[j]
    decreases s
  {
    if s != {} {
      var m := Min(s);
      var rest := Ascending(s - {m});
      AscendingMeaning(s - {m});
      var r := Ascending(s);
      assert r == [m] + rest;
      forall i, j | 0 <= i < j < |r|
        ensures r[i] < r[j]
      {
        assert r[j] == rest[j - 1] && rest[j - 1] in s - {m};
        if i > 0 {
          assert r[i] == rest[i - 1];
        }
      }
    }
  }

  /** `AtLeast` keeps exactly the keys counted at least `n` times. */
  lemma {:induction false} AtLeastMeaning(counts: map<nat, nat>, keys: seq<nat>, n: nat)
    ensures forall x :: x in AtLeast(counts, keys, n) <==> x in keys && Cnt(counts, x) >= n
  {
    if keys != [] {
      var init := keys[..|keys| - 1];
      AtLeastMeaning(counts, init, n);
      assert keys == init + [keys[|keys| - 1]];
    }
  }

  /** `AtLeast` keeps the keys' order. */
  lemma {:induction false} AtLeastSorted(counts: map<nat, nat>, keys: seq<nat>, n: nat)
    requires forall i, j :: 0 <= i < j < |keys| ==> keys[i] < keys[j]
    ensures forall i, j :: 0 <= i < j < |AtLeast(counts, keys, n)| ==> AtLeast(counts, keys, n)[i] < AtLeast(counts, keys, n)[j]
  {
    if keys != [] {
      var init := keys[..|keys| - 1];
      var x := keys[|keys| - 1];
      AtLeastSorted(counts, init, n);
      AtLeastMeaning(counts, init, n);
      var prev := AtLeast(counts, init, n);
      var r := AtLeast(counts, keys, n);
      assert r == prev + (if Cnt(counts, x) >= n then [x] else []);
      forall i, j | 0 <= i < j < |r|
        ensures r[i] < r[j]
      {
        if j >= |prev| {
          assert r[j] == x && r[i] == prev[i] && prev[i] in prev;
          var k :| 0 <= k < |init| && init[k] == prev[i];
          assert init[k] == keys[k] && keys[k] < keys[|keys| - 1];
        } else {
          assert r[i] == prev[i] && r[j] == prev[j];
        }
      }
    }
  }

  /** The tiers: (2, x) for a key counted twice, (4, x) for one counted four times, nothing else. */
  lemma {:induction false} PairsOfMeaning(counts: map<nat, nat>, keys: seq<nat>)
    ensures forall p :: p in PairsOf(counts, keys) <==>
              p.1 in keys && ((p.0 == 2 && Cnt(counts, p.1) >= 2) || (p.0 == 4 && Cnt(counts, p.1) >= 4))
  {
    if keys != [] {
      var init := keys[..|keys| - 1];
      PairsOfMeaning(counts, init);
      assert keys == init + [keys[|keys| - 1]];
    }
  }

  /** The number of discs the given keys account for. */
  function Total(counts: map<nat, nat>, keys: seq<nat>): nat
  {
    if keys == [] then 0 else Total(counts, keys[..|keys| - 1]) + Cnt(counts, keys[|keys| - 1])
  }

  /** Counting one more `x` adds one to the total of distinct keys exactly when `x` is among them. */
  lemma {:induction false} TotalBump(counts: map<nat, nat>, keys: seq<nat>, x: nat)
    requires forall i, j :: 0 <= i < j < |keys| ==> keys[i] != keys[j]
    ensures Total(counts[x := Cnt(counts, x) + 1], keys) == Total(counts, keys) + (if x in keys then 1 else 0)
  {
    if keys != [] {
      var init := keys[..|keys| - 1];
      TotalBump(counts, init, x);
      assert keys == init + [keys[|keys| - 1]];
      if x == keys[|keys| - 1] {
        assert x !in init;
      }
    }
  }

  lemma {:induction false} TotalNone(keys: seq<nat>)
    ensures Total(map[], keys) == 0
  {
    if keys != [] {
      TotalNone(keys[..|keys| - 1]);
    }
  }

  /** Distinct keys account for no more discs than there are. */
  lemma {:induction false} TotalBound(ids: seq<nat>, keys: seq<nat>)
    requires forall i, j :: 0 <= i < j < |keys| ==> keys[i] != keys[j]
    ensures Total(Count(ids), keys) <= |ids|
  {
    if ids == [] {
      TotalNone(keys);
    } else {
      var init := ids[..|ids| - 1];
      TotalBound(init, keys);
      TotalBump(Count(init), keys, ids[|ids| - 1]);
    }
  }

  /** Each key kept by `AtLeast` accounts for at least `n` discs. */
  lemma {:induction false} AtLeastBound(counts: map<nat, nat>, keys: seq<nat>, n: nat)
    ensures n * |AtLeast(counts, keys, n)| <= Total(counts, keys)
  {
    if keys != [] {
      var init := keys[..|keys| - 1];
      AtLeastBound(counts, init, n);
      MulStep(n, |AtLeast(counts, init, n)|);
      assert keys[..|keys| - 1] == init;
    }
  }

  lemma MulStep(n: nat, k: nat)
    ensures n * (k + 1) == n * k + n
  {
  }

  /** The set ids carried by four or more of the pieces, ascending. */
  ghost function FourPiece(pieces: seq<DriveDiscPiece.Piece>): seq<nat>
  {
    var counts := Count(DiscIds(pieces));
    AtLeast(counts, Ascending(counts.Keys), 4)
  }

  /** The keys of a count in ascending order are exactly the ids counted. */
  lemma CountedKeys(ids: seq<nat>)
    ensures forall x :: x in Ascending(Count(ids).Keys) <==> x in ids
    ensures forall x :: Cnt(Count(ids), x) == multiset(ids)[x]
  {
    CountMeaning(ids);
    AscendingMeaning(Count(ids).Keys);
  }

  /**
   * `dds_list` gains the set ids carried by at least two pieces, each
   * once and ascending; the 4-piece list holds those carried by four or
   * more.
   */
  lemma DdsListMeaning(pieces: seq<DriveDiscPiece.Piece>)
    ensures forall x :: x in DdsList(pieces) <==> multiset(DiscIds(pieces))[x] >= 2
    ensures forall x :: x in FourPiece(pieces) <==> multiset(DiscIds(pieces))[x] >= 4
    ensures forall i, j :: 0 <= i < j < |DdsList(pieces)| ==> DdsList(pieces)[i] < DdsList(pieces)[j]
  {
    var ids := DiscIds(pieces);
    var counts := Count(ids);
    var keys := Ascending(counts.Keys);
    CountedKeys(ids);
    AscendingMeaning(counts.Keys);
    AtLeastMeaning(counts, keys, 2);
    AtLeastMeaning(counts, keys, 4);
    AtLeastSorted(counts, keys, 2);
    assert DdsList(pieces) == AtLeast(counts, keys, 2);
  }

  /** `dds_by_count` gains (2, id) for each listed id and (4, id) for each 4-piece id, and nothing else. */
  lemma DdsByCountMeaning(pieces: seq<DriveDiscPiece.Piece>)
    ensures forall p :: p in DdsByCount(pieces) <==>
              (p.0 == 2 && p.1 in DdsList(pieces)) || (p.0 == 4 && p.1 in FourPiece(pieces))
  {
    var counts := Count(DiscIds(pieces));
    var keys := Ascending(counts.Keys);
    AtLeastMeaning(counts, keys, 2);
    AtLeastMeaning(counts, keys, 4);
    PairsOfMeaning(counts, keys);
  }

  /** With six discs, at most three sets reach two pieces and at most one reaches four. */
  lemma SetBonusLimits(pieces: seq<DriveDiscPiece.Piece>)
    requires |pieces| <= DiscCount
    ensures |DdsList(pieces)| <= 3 && |FourPiece(pieces)| <= 1
  {
    var ids := DiscIds(pieces);
    var counts := Count(ids);
    var keys := Ascending(counts.Keys);
    AscendingMeaning(counts.Keys);
    TotalBound(ids, keys);
    AtLeastBound(counts, keys, 2);
    AtLeastBound(counts, keys, 4);
  }

  /** Counting the sample request's set ids. */
  lemma SampleCounts(ids: seq<nat>) returns (counts: map<nat, nat>)
    requires ids == [31000, 32800, 31000, 32800, 32800, 32800]
    ensures counts == Count(ids) && counts == map[31000 := 2, 32800 := 4]
  {
    var a: seq<nat> := [31000];
    var b: seq<nat> := a + [32800];
    var c: seq<nat> := b + [31000];
    var d: seq<nat> := c + [32800];
    var e: seq<nat> := d + [32800];
    CountStep([], 31000);
    assert [] + [31000] == a;
    assert Count(a) == map[31000 := 1];
    CountStep(a, 32800);
    assert Count(b) == map[31000 := 1, 32800 := 1];
    CountStep(b, 31000);
    assert Count(c) == map[31000 := 2, 32800 := 1];
    CountStep(c, 32800);
    assert Count(d) == map[31000 := 2, 32800 := 2];
    CountStep(d, 32800);
    assert Count(e) == map[31000 := 2, 32800 := 3];
    CountStep(e, 32800);
    assert e + [32800] == ids;
    counts := Count(ids);
  }

  /** The sample request's discs: two of set 31000 and four of set 32800. */
  lemma SampleRequestSets(pieces: seq<DriveDiscPiece.Piece>)
    requires DiscIds(pieces) == [31000, 32800, 31000, 32800, 32800, 32800]
    ensures DdsList(pieces) == [31000, 32800]
    ensures FourPiece(pieces) == [32800]
    ensures DdsByCount(pieces) == [(2, 31000), (2, 32800), (4, 32800)]
  {
    var counts := SampleCounts(DiscIds(pieces));
    AscendingFirst({31000, 32800}, 31000);
    assert {31000, 32800} - {31000} == {32800};
    AscendingFirst({32800}, 32800);
    assert {32800} - {32800} == {};
    assert Ascending(counts.Keys) == [31000, 32800];
    TiersStep(counts, [], 31000);
    TiersStep(counts, [31000], 32800);
    assert AtLeast(counts, [31000, 32800], 4) == AtLeast(counts, [31000], 4) + [32800];
  }
}
