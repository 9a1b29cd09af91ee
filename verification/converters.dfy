/**
 * `ToEvalDataConverter::from` of src/backend/converters.cpp: a request
 * names the primary agent and w-engine and, under the agent's id, a table
 * of drive discs; each disc is built with the fixed-array `DdpBuilder`
 * and stored in a six-element array, and the agent, w-engine and
 * rotation are looked up in stores that `init` filled from files.
 *
 * The rotation converter of the same file (lines 16-87) is the code of
 * src/zzz/details/rotation.cpp again and is modelled by `Rotation`.
 */
module Converters {
  import opened Wrappers
  import opened Enums
  import opened DriveDiscInfo
  import opened StatsMath
  import Funcs
  import StringFuncs
  import EnumsConvert
  import DriveDiscPiece
  import Rotation

  /** One disc of the request: its `set` (as setId), `rarity`, `main`, `level` and `subs` entries. */
  datatype DiscEntry = DiscEntry(setId: int, rarity: string, main: string, level: int, subs: seq<SubEntry>)

  /** A `subs` item: a stat name and a level. */
  datatype SubEntry = SubEntry(name: string, level: int)

  /**
   * The request: the two ids and, per agent id as a decimal string, the
   * discs as (slot key, entry) in the table's iteration order.
   */
  datatype Request = Request(agentId: int, wengineId: int, discTables: map<string, seq<(string, DiscEntry)>>)

  /** `enemy_details`. */
  datatype Enemy = Enemy(dmgReduction: real, defense: real, stunMult: real, res: seq<real>, isStunned: bool)

  /** `eval_data_details`: a disc slot never written holds an indeterminate piece, None here. */
  datatype EvalData<A, W> = EvalData(agent: A, wengine: W, driveDisks: seq<Option<DriveDiscPiece.Piece>>,
                                     rotation: seq<Rotation.Cell>, enemy: Enemy)

  /** `ToEvalDataConverter::enemy`. */
  const TheEnemy: Enemy := Enemy(0.2, 953.0, 1.5, [0.2, 0.2, 0.2, 0.2, 0.2], false)

  const DiscCount: nat := 6

  /** An `int64` taken as a `uint64_t`. */
  function AsU64(v: int): (r: nat)
    ensures r < StringFuncs.SizeMax
    ensures 0 <= v < StringFuncs.SizeMax ==> r == v
  {
    v % StringFuncs.SizeMax
  }

  /** An integer narrowed to a `uint8_t`. */
  function AsU8(v: int): (r: Byte)
    ensures 0 <= v < 256 ==> r as int == v
  {
    (v % 256) as Byte
  }

  /**
   * `char_to_rarity(s[0])`, which no file of the repository defines; it is
   * taken to read the letter as `Rarity::_from_char` does: 'B', 'A' and
   * 'S' give their rarity, anything else (an empty string yields its
   * terminating NUL) NotSet.
   */
  function FirstCharRarity(s: string): (r: Byte)
    ensures r in {NotSet, RarityB, RarityA, RarityS}
    ensures |s| > 0 && s[0] == 'S' ==> r == RarityS
  {
    RarityFromString([if |s| == 0 then 0 as char else s[0]])
  }

  /** The sub stats a disc's `subs` list adds, in order; the first refused one throws. */
  function SubStats(subs: seq<SubEntry>, mainType: Byte, rarity: Byte): (r: Result<seq<StatValue>>)
    requires Rated(rarity)
    ensures r.Ok? ==> |r.value| == |subs|
    ensures r.Ok? ==> forall i :: 0 <= i < |subs| ==>
                        EnumsConvert.StringToStatType(subs[i].name) == Ok(r.value[i].statType) &&
                        r.value[i].statType != mainType && r.value[i].tag == Universal
  {
    if subs == [] then Ok([])
    else
      var prev :- SubStats(subs[..|subs| - 1], mainType, rarity);
      var last := subs[|subs| - 1];
      var t :- EnumsConvert.StringToStatType(last.name);
      if t == mainType then Err("you can't have same main and sub stat")
      else if t !in SubTable then Err("unordered_map::at")
      else Ok(prev + [StatValue(SubValue(t, rarity, AsU8(last.level)), t, Universal)])
  }

  /** The four sub stat slots of a piece: the added ones, then default stats. */
  function Padded(subs: seq<StatValue>): (r: seq<StatValue>)
    requires |subs| <= 4
    ensures |r| == 4 && r[..|subs|] == subs
    ensures forall i :: |subs| <= i < 4 ==> r[i] == DriveDiscPiece.NoStat
  {
    subs + seq(4 - |subs|, _ => DriveDiscPiece.NoStat)
  }

  /** What the setters fix before the sub stats: the slot, the rarity and the main stat's type. */
  datatype Head = Head(slot: Byte, rarity: Byte, mainType: Byte)

  /** A head the builder accepts: a slot and a rarity are set, and the main stat is one the slot admits. */
  predicate Admitted(h: Head)
  {
    h.slot != 0 && Rated(h.rarity) && CheckMsLimits(h.slot, h.mainType) && h.mainType in MainTable
  }

  /** The slot from the key (`std::stoul`), the rarity from the first letter, the main stat by name, and the builder's checks. */
  function PieceHead(key: string, e: DiscEntry): (r: Result<Head>)
    ensures r.Ok? ==> r.value.slot != 0 && Rated(r.value.rarity) && CheckMsLimits(r.value.slot, r.value.mainType)
    ensures r.Ok? ==> r.value.mainType in MainTable
  {
    HeadFrom(Funcs.Stoul(key), e)
  }

  /** The head once the key has been converted, or its conversion error. */
  function HeadFrom(slotNumber: Result<nat>, e: DiscEntry): (r: Result<Head>)
    ensures r.Ok? ==> r.value.slot != 0 && Rated(r.value.rarity) && CheckMsLimits(r.value.slot, r.value.mainType)
    ensures r.Ok? ==> r.value.mainType in MainTable
    ensures r.Ok? ==> slotNumber.Ok? && r.value.slot == AsU8(slotNumber.value) &&
                      r.value.rarity == FirstCharRarity(e.rarity) &&
                      EnumsConvert.StringToStatType(e.main) == Ok(r.value.mainType)
  {
    var n :- slotNumber;
    var slot := AsU8(n);
    var rarity := FirstCharRarity(e.rarity);
    var mainType :- EnumsConvert.StringToStatType(e.main);
    if slot == 0 || rarity == NotSet then Err("you have to specify slot and rarity first")
    else if !CheckMsLimits(slot, mainType) then Err("for this slot main stat doesn't exist")
    else
      MainTableRows(slot, mainType);
      Ok(Head(slot, rarity, mainType))
  }

  /**
   * The piece one disc entry builds: slot from the key, set id, rarity
   * from the first letter, main stat by name, sub stats in listed order;
   * any refusal of the builder throws.
   */
  function BuildPiece(key: string, e: DiscEntry): (r: Result<DriveDiscPiece.Piece>)
    requires |e.subs| <= 4
  {
    PieceFrom(PieceHead(key, e), e)
  }

  /** The piece built on a head, or the head's error. */
  function PieceFrom(head: Result<Head>, e: DiscEntry): (r: Result<DriveDiscPiece.Piece>)
    requires |e.subs| <= 4 && (head.Ok? ==> Admitted(head.value))
  {
    var h :- head;
    var subs :- SubStats(e.subs, h.mainType, h.rarity);
    if |subs| < RequiredSubStats(h.rarity) then Err("you have to specify slot, main stat and at least 3 sub stats")
    else Ok(DriveDiscPiece.Piece(AsU64(e.setId), h.slot, h.rarity,
                                 StatValue(MainValue(h.mainType, h.rarity), h.mainType, Universal), Padded(subs)))
  }

  /**
   * What a built piece holds: the slot the key names, the set id, the
   * rarity of the first letter, the named main stat (one the slot admits),
   * and the listed sub stats in order, enough of them for the rarity.
   */
  lemma BuildPieceMeaning(key: string, e: DiscEntry)
    requires |e.subs| <= 4
    ensures var r := BuildPiece(key, e);
            r.Ok? ==> Funcs.Stoul(key).Ok? && r.value.slot == AsU8(Funcs.Stoul(key).value) &&
                      r.value.discId == AsU64(e.setId) && r.value.rarity == FirstCharRarity(e.rarity) &&
                      EnumsConvert.StringToStatType(e.main) == Ok(r.value.mainStat.statType) &&
                      CheckMsLimits(r.value.slot, r.value.mainStat.statType) && Rated(r.value.rarity) &&
                      |r.value.subStats| == 4 && |e.subs| >= RequiredSubStats(r.value.rarity) &&
                      forall i :: 0 <= i < |e.subs| ==>
                        EnumsConvert.StringToStatType(e.subs[i].name) == Ok(r.value.subStats[i].statType)
  {
    PieceHeadMeaning(key, e);
    PieceFromMeaning(PieceHead(key, e), e);
  }

  /** A piece built on a head keeps the head's slot, rarity and main stat, and holds the listed sub stats. */
  lemma PieceFromMeaning(head: Result<Head>, e: DiscEntry)
    requires |e.subs| <= 4 && (head.Ok? ==> Admitted(head.value))
    ensures var r := PieceFrom(head, e);
            r.Ok? ==> head.Ok? && r.value.slot == head.value.slot && r.value.rarity == head.value.rarity &&
                      r.value.discId == AsU64(e.setId) && r.value.mainStat.statType == head.value.mainType &&
                      |r.value.subStats| == 4 && |e.subs| >= RequiredSubStats(r.value.rarity) &&
                      forall i :: 0 <= i < |e.subs| ==>
                        EnumsConvert.StringToStatType(e.subs[i].name) == Ok(r.value.subStats[i].statType)
  {
  }

  /** The head holds the slot the key names, the rarity of the first letter and the named main stat. */
  lemma PieceHeadMeaning(key: string, e: DiscEntry)
    ensures var r := PieceHead(key, e);
            r.Ok? ==> Funcs.Stoul(key).Ok? && r.value.slot == AsU8(Funcs.Stoul(key).value) &&
                      r.value.rarity == FirstCharRarity(e.rarity) &&
                      EnumsConvert.StringToStatType(e.main) == Ok(r.value.mainType)
  {
    assert PieceHead(key, e) == HeadFrom(Funcs.Stoul(key), e);
  }

  /** A request the source can store: at most six discs with at most four sub stats each. */
  predicate Fits(discs: seq<(string, DiscEntry)>)
  {
    |discs| <= DiscCount && forall i :: 0 <= i < |discs| ==> |discs[i].1.subs| <= 4
  }

  /** One (slot key, entry) pair built; an entry with more than four sub stats overflows the array. */
  function BuildEntry(d: (string, DiscEntry)): Result<DriveDiscPiece.Piece>
  {
    if |d.1.subs| <= 4 then BuildPiece(d.0, d.1) else Err("sub stat array overflow")
  }

  /** The table of the request's agent, when there is one, fits. */
  predicate RequestFits(request: Request)
  {
    var key := StringFuncs.DecimalString(AsU64(request.agentId));
    key in request.discTables ==> Fits(request.discTables[key])
  }

  /** Every disc built, in table order. */
  function BuildPieces(discs: seq<(string, DiscEntry)>): (r: Result<seq<DriveDiscPiece.Piece>>)
    ensures r.Ok? ==> |r.value| == |discs|
  {
    MapResults(BuildEntry, discs)
  }

  /** The six disc slots: the built pieces in order, then slots never written. */
  function DiscSlots(pieces: seq<DriveDiscPiece.Piece>): (r: seq<Option<DriveDiscPiece.Piece>>)
    requires |pieces| <= DiscCount
    ensures |r| == DiscCount
    ensures forall i :: 0 <= i < |pieces| ==> r[i] == Some(pieces[i])
    ensures forall i :: |pieces| <= i < DiscCount ==> r[i] == None
  {
    seq(DiscCount, i requires 0 <= i => if i < |pieces| then Some(pieces[i]) else None)
  }

  /** The whole conversion; a missing disc table, agent, w-engine or rotation throws (`.at`). */
  function Convert<A, W>(agents: map<nat, A>, wengines: map<nat, W>, rotations: map<nat, seq<Rotation.Cell>>,
                         request: Request): (r: Result<EvalData<A, W>>)
    requires RequestFits(request)
    ensures r.Ok? <==> StringFuncs.DecimalString(AsU64(request.agentId)) in request.discTables &&
                       BuildPieces(request.discTables[StringFuncs.DecimalString(AsU64(request.agentId))]).Ok? &&
                       AsU64(request.agentId) in agents && AsU64(request.wengineId) in wengines &&
                       AsU64(request.agentId) in rotations
    ensures r.Ok? ==> r.value.agent == agents[AsU64(request.agentId)] &&
                      r.value.wengine == wengines[AsU64(request.wengineId)] &&
                      r.value.rotation == rotations[AsU64(request.agentId)]
    ensures r.Ok? ==> r.value.enemy == Enemy(0.2, 953.0, 1.5, [0.2, 0.2, 0.2, 0.2, 0.2], false)
    ensures r.Ok? ==> r.value.driveDisks ==
                        DiscSlots(BuildPieces(request.discTables[StringFuncs.DecimalString(AsU64(request.agentId))]).value)
  {
    var agentId := AsU64(request.agentId);
    var agentKey := StringFuncs.DecimalString(agentId);
    if agentKey !in request.discTables then Err("table key not found")
    else
      var pieces :- BuildPieces(request.discTables[agentKey]);
      if agentId !in agents then Err("agent not found")
      else if AsU64(request.wengineId) !in wengines then Err("wengine not found")
      else if agentId !in rotations then Err("rotation not found")
      else Ok(EvalData(agents[agentId], wengines[AsU64(request.wengineId)], DiscSlots(pieces), rotations[agentId], TheEnemy))
  }

  // ---------------------------------------------------------------- the conversion as written

  /** The loop over one disc's `subs`, feeding the builder. */
  method AddSubs(builder: DriveDiscPiece.DdpBuilder, subs: seq<SubEntry>, mainType: Byte) returns (r: Result<()>)
    requires builder.Valid() && builder.currentSubStat == 0 && |subs| <= 4
    requires builder.slot != 0 && Rated(builder.rarity) && builder.mainStat.statType == mainType
    modifies builder, builder.subStats
    ensures builder.Valid() && builder.slot == old(builder.slot) && builder.rarity == old(builder.rarity)
    ensures builder.mainStat == old(builder.mainStat)
    ensures builder.discId == old(builder.discId) && builder.discIdSet == old(builder.discIdSet)
    ensures builder.slotSet == old(builder.slotSet) && builder.raritySet == old(builder.raritySet)
    ensures builder.mainStatSet == old(builder.mainStatSet)
    ensures r.Ok? <==> SubStats(subs, mainType, builder.rarity).Ok?
    ensures r.Ok? ==> builder.added == SubStats(subs, mainType, builder.rarity).value &&
                      builder.currentSubStat == |subs|
  {
    for j := 0 to |subs|
      invariant builder.Valid() && builder.slot == old(builder.slot) && builder.rarity == old(builder.rarity)
      invariant builder.mainStat == old(builder.mainStat)
      invariant builder.discId == old(builder.discId) && builder.discIdSet == old(builder.discIdSet)
      invariant builder.slotSet == old(builder.slotSet) && builder.raritySet == old(builder.raritySet)
      invariant builder.mainStatSet == old(builder.mainStatSet)
      invariant SubStats(subs[..j], mainType, builder.rarity) == Ok(builder.added) && builder.currentSubStat == j
    {
      assert subs[..j + 1][..j] == subs[..j];
      var t := EnumsConvert.StringToStatType(subs[j].name);
      if t.Err? {
        SubStatsPrefix(subs, mainType, builder.rarity, j + 1);
        return Err(t.error);
      }
      var added := builder.AddSubStat(t.value, AsU8(subs[j].level));
      if added.Err? {
        SubStatsPrefix(subs, mainType, builder.rarity, j + 1);
        return Err(added.error);
      }
    }
    assert subs[..|subs|] == subs;
    r := Ok(());
  }

  /** A failure among the first sub stats is a failure of the whole list. */
  lemma {:induction false} SubStatsPrefix(subs: seq<SubEntry>, mainType: Byte, rarity: Byte, n: nat)
    requires Rated(rarity) && n <= |subs|
    ensures SubStats(subs[..n], mainType, rarity).Err? ==> SubStats(subs, mainType, rarity).Err?
    decreases |subs| - n
  {
    if n < |subs| {
      assert subs[..n + 1][..n] == subs[..n];
      SubStatsPrefix(subs, mainType, rarity, n + 1);
    } else {
      assert subs[..n] == subs;
    }
  }

  /** The setters called before the sub stats, on a fresh builder. */
  method SetUp(builder: DriveDiscPiece.DdpBuilder, key: string, e: DiscEntry) returns (r: Result<Head>)
    requires builder.Valid() && builder.currentSubStat == 0
    modifies builder
    ensures builder.Valid() && builder.currentSubStat == 0 && builder.added == old(builder.added)
    ensures r.Ok? <==> PieceHead(key, e).Ok?
    ensures r.Ok? ==> r == PieceHead(key, e) && builder.slot == r.value.slot && builder.rarity == r.value.rarity
    ensures r.Ok? ==> builder.mainStat == StatValue(MainValue(r.value.mainType, r.value.rarity), r.value.mainType, Universal)
    ensures r.Ok? ==> builder.discId == AsU64(e.setId)
    ensures r.Ok? ==> builder.discIdSet && builder.slotSet && builder.raritySet && builder.mainStatSet
  {
    var slotNumber := Funcs.Stoul(key);
    if slotNumber.Err? {
      return Err(slotNumber.error);
    }
    builder.SetSlot(AsU8(slotNumber.value));
    builder.SetDiscId(AsU64(e.setId));
    builder.SetRarity(FirstCharRarity(e.rarity));
    var mainType := EnumsConvert.StringToStatType(e.main);
    if mainType.Err? {
      return Err(mainType.error);
    }
    var mainSet := builder.SetMainStat(mainType.value, AsU8(e.level));
    if mainSet.Err? {
      return Err(mainSet.error);
    }
    r := Ok(Head(builder.slot, builder.rarity, mainType.value));
  }

  /** The body of the disc loop: a fresh builder fed one entry. */
  method BuildDisc(key: string, e: DiscEntry) returns (r: Result<DriveDiscPiece.Piece>)
    requires |e.subs| <= 4
    ensures r.Ok? <==> BuildPiece(key, e).Ok?
    ensures r.Ok? ==> r == BuildPiece(key, e)
  {
    var builder := new DriveDiscPiece.DdpBuilder();
    var head := SetUp(builder, key, e);
    if head.Err? {
      return Err(head.error);
    }
    r := FinishPiece(builder, e, head.value);
  }

  /** The rest of the loop body once the head is set: the sub stats added, then the product taken. */
  method FinishPiece(builder: DriveDiscPiece.DdpBuilder, e: DiscEntry, h: Head) returns (r: Result<DriveDiscPiece.Piece>)
    requires builder.Valid() && builder.currentSubStat == 0 && |e.subs| <= 4 && Admitted(h)
    requires builder.slot == h.slot && builder.rarity == h.rarity && builder.discId == AsU64(e.setId)
    requires builder.mainStat == StatValue(MainValue(h.mainType, h.rarity), h.mainType, Universal)
    requires builder.discIdSet && builder.slotSet && builder.raritySet && builder.mainStatSet
    modifies builder, builder.subStats
    ensures r.Ok? <==> PieceFrom(Ok(h), e).Ok?
    ensures r.Ok? ==> r == PieceFrom(Ok(h), e)
  {
    var subsAdded := AddSubs(builder, e.subs, h.mainType);
    if subsAdded.Err? {
      return Err(subsAdded.error);
    }
    var product := builder.GetProduct();
    if product.Err? {
      return Err(product.error);
    }
    assert product.value.subStats == Padded(builder.added);
    r := product;
  }

  /** The disc loop: each entry built and written to the next slot. */
  method BuildAll(discs: seq<(string, DiscEntry)>) returns (r: Result<seq<Option<DriveDiscPiece.Piece>>>)
    requires Fits(discs)
    ensures r.Ok? <==> BuildPieces(discs).Ok?
    ensures r.Ok? ==> r.value == DiscSlots(BuildPieces(discs).value)
  {
    var driveDiscs: seq<Option<DriveDiscPiece.Piece>> := seq(DiscCount, _ => None);
    var currentDisk := 0;
    ghost var pieces: seq<DriveDiscPiece.Piece> := [];
    while currentDisk < |discs|
      invariant currentDisk <= |discs| && |pieces| == currentDisk
      invariant BuildPieces(discs[..currentDisk]) == Ok(pieces)
      invariant driveDiscs == DiscSlots(pieces)
    {
      var piece := BuildDisc(discs[currentDisk].0, discs[currentDisk].1);
      if piece.Err? {
        BuildPiecesStep(discs, currentDisk);
        BuildPiecesPrefix(discs, currentDisk + 1);
        return Err(piece.error);
      }
      BuildPiecesStep(discs, currentDisk);
      DiscSlotsStep(pieces, piece.value);
      driveDiscs := driveDiscs[currentDisk := Some(piece.value)];
      pieces := pieces + [piece.value];
      currentDisk := currentDisk + 1;
    }
    assert discs[..|discs|] == discs;
    r := Ok(driveDiscs);
  }

  /**
   * `ToEvalDataConverter::from`: every disc of the agent's table is built
   * and written to the next of six slots, then the stores are consulted.
   */
  method From<A, W>(agents: map<nat, A>, wengines: map<nat, W>, rotations: map<nat, seq<Rotation.Cell>>,
                    request: Request) returns (r: Result<EvalData<A, W>>)
    requires RequestFits(request)
    ensures r.Ok? <==> Convert(agents, wengines, rotations, request).Ok?
    ensures r.Ok? ==> r == Convert(agents, wengines, rotations, request)
  {
    var agentId := AsU64(request.agentId);
    var agentKey := StringFuncs.DecimalString(agentId);
    var wengineId := AsU64(request.wengineId);
    if agentKey !in request.discTables {
      return Err("table key not found");
    }
    var driveDiscs := BuildAll(request.discTables[agentKey]);
    if driveDiscs.Err? {
      return Err(driveDiscs.error);
    }
    if agentId !in agents {
      return Err("agent not found");
    }
    if wengineId !in wengines {
      return Err("wengine not found");
    }
    if agentId !in rotations {
      return Err("rotation not found");
    }
    r := Ok(EvalData(agents[agentId], wengines[wengineId], driveDiscs.value, rotations[agentId], TheEnemy));
  }

  /** Each disc is built on its own: the table succeeds iff every disc does, and the i-th piece is the i-th disc's. */
  lemma BuildPiecesMeaning(discs: seq<(string, DiscEntry)>)
    requires Fits(discs)
    ensures BuildPieces(discs).Ok? <==> forall i :: 0 <= i < |discs| ==> BuildPiece(discs[i].0, discs[i].1).Ok?
    ensures BuildPieces(discs).Ok? ==>
              forall i :: 0 <= i < |discs| ==> BuildPiece(discs[i].0, discs[i].1) == Ok(BuildPieces(discs).value[i])
  {
    MapResultsMeaning(BuildEntry, discs);
  }

  /** One more disc: the table so far, then that disc's piece. */
  lemma BuildPiecesStep(discs: seq<(string, DiscEntry)>, n: nat)
    requires Fits(discs) && n < |discs|
    ensures BuildPieces(discs[..n + 1]) ==
              if BuildPieces(discs[..n]).Err? || BuildPiece(discs[n].0, discs[n].1).Err? then BuildPieces(discs[..n + 1])
              else Ok(BuildPieces(discs[..n]).value + [BuildPiece(discs[n].0, discs[n].1).value])
    ensures BuildPiece(discs[n].0, discs[n].1).Err? ==> BuildPieces(discs[..n + 1]).Err?
  {
    assert discs[..n + 1][..n] == discs[..n];
    assert discs[..n + 1][n] == discs[n];
  }

  /** Writing the next slot. */
  lemma DiscSlotsStep(pieces: seq<DriveDiscPiece.Piece>, p: DriveDiscPiece.Piece)
    requires |pieces| < DiscCount
    ensures DiscSlots(pieces)[|pieces| := Some(p)] == DiscSlots(pieces + [p])
  {
  }

  /** A failure among the first discs is a failure of the whole table. */
  lemma BuildPiecesPrefix(discs: seq<(string, DiscEntry)>, n: nat)
    requires n <= |discs|
    ensures BuildPieces(discs[..n]).Err? ==> BuildPieces(discs).Err?
  {
    var init := discs[..n];
    assert forall i :: 0 <= i < |init| ==> init[i] == discs[i];
    MapResultsMeaning(BuildEntry, init);
    MapResultsMeaning(BuildEntry, discs);
  }
}
