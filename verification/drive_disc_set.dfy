/**
 * `ToDdsConverter::from` of src/zzz/details/drive_disc_set.cpp: the older
 * generation that reads a drive disc set from a TOML table (an abstract
 * tree, the same `Node` shape as JSON) and drives the same `DdsBuilder`,
 * there named with `set_p2`/`set_p4`. The grid reader it calls,
 * `global::to_stats_grid`, is not defined anywhere in the repository, so it
 * is a parameter here.
 */
module DriveDiscSet {
  import opened Wrappers
  import opened JsonNode
  import opened StatBasic
  import Grid
  import Converters
  import DdsDetails

  /** A grid reader whose grids are keyed by their stats' qualifiers. */
  ghost predicate Keyed(toGrid: Node -> Result<map<nat, Stat>>)
  {
    forall n :: toGrid(n).Ok? ==> Grid.WellKeyed(toGrid(n).value)
  }

  /** What `ToDdsConverter::from` yields: id, name, then `set_bonus.p2` and `set_bonus.p4`. */
  function ConvertedFrom(data: Node, toGrid: Node -> Result<map<nat, Stat>>): (r: Result<DdsDetails.Dds>)
  {
    var idNode :- At(data, "id");
    var id :- AsIntegral(idNode);
    var nameNode :- At(data, "name");
    var name :- AsString(nameNode);
    var bonusNode :- At(data, "set_bonus");
    var bonuses :- AsObject(bonusNode);
    var p2Node :- At(bonusNode, "p2");
    var p2 :- toGrid(p2Node);
    var p4Node :- At(bonusNode, "p4");
    var p4 :- toGrid(p4Node);
    Ok(DdsDetails.Dds(Converters.AsU64(id), name, p2, p4))
  }

  /** When converting succeeds, and what it yields: the id cast to 64 bits, the name, the grid read from `p2` at index 0, from `p4` at index 1. */
  lemma ConvertedMeaning(data: Node, toGrid: Node -> Result<map<nat, Stat>>)
    ensures ConvertedFrom(data, toGrid).Ok? <==>
              data.Object? && "id" in data.fields && data.fields["id"].Integral? &&
              "name" in data.fields && data.fields["name"].String? &&
              "set_bonus" in data.fields && data.fields["set_bonus"].Object? &&
              "p2" in data.fields["set_bonus"].fields && toGrid(data.fields["set_bonus"].fields["p2"]).Ok? &&
              "p4" in data.fields["set_bonus"].fields && toGrid(data.fields["set_bonus"].fields["p4"]).Ok?
    ensures ConvertedFrom(data, toGrid).Ok? ==>
              ConvertedFrom(data, toGrid).value.id == Converters.AsU64(data.fields["id"].integral) &&
              ConvertedFrom(data, toGrid).value.name == data.fields["name"].str &&
              toGrid(data.fields["set_bonus"].fields["p2"]) == Ok(ConvertedFrom(data, toGrid).value.pc2) &&
              toGrid(data.fields["set_bonus"].fields["p4"]) == Ok(ConvertedFrom(data, toGrid).value.pc4)
  {
  }

  /** `ToDdsConverter::from`, driving a `DdsBuilder`: exactly `ConvertedFrom`, errors included. */
  method From(data: Node, toGrid: Node -> Result<map<nat, Stat>>) returns (r: Result<DdsDetails.Dds>)
    requires Keyed(toGrid)
    ensures r == ConvertedFrom(data, toGrid)
  {
    var builder := new DdsDetails.DdsBuilder();
    var idNode :- At(data, "id");
    var id :- AsIntegral(idNode);
    builder.SetId(Converters.AsU64(id));
    var nameNode :- At(data, "name");
    var name :- AsString(nameNode);
    builder.SetName(name);
    var bonusNode :- At(data, "set_bonus");
    var bonuses :- AsObject(bonusNode);
    var p2Node :- At(bonusNode, "p2");
    var p2 :- toGrid(p2Node);
    builder.SetPc2(p2);
    var p4Node :- At(bonusNode, "p4");
    var p4 :- toGrid(p4Node);
    builder.SetPc4(p4);
    r := builder.GetProduct();
  }

  /**
   * The two generations disagree on the key names: a set whose bonuses sit
   * under "2pc"/"4pc" loads through `load_dds_from_json` but not through
   * this converter, which looks for "p2"/"p4".
   */
  lemma KeyNamesDiffer(toGrid: Node -> Result<map<nat, Stat>>)
    ensures var data := Object(map["id" := Integral(31000), "name" := String("set"),
                                   "set_bonus" := Object(map["2pc" := Array([]), "4pc" := Array([])])]);
            DdsDetails.DdsFrom(data).Ok? && ConvertedFrom(data, toGrid).Err?
  {
    var data := Object(map["id" := Integral(31000), "name" := String("set"),
                           "set_bonus" := Object(map["2pc" := Array([]), "4pc" := Array([])])]);
    DdsDetails.DdsFromMeaning(data);
    assert Grid.ParseEntries([]).Ok?;
  }
}
