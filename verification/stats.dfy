/**
 * The stat classes and the `StatFactory` of src/zzz/stats.cpp. Every maker
 * builds a `RegularStat` and stores it as a plain stat of base, id and tag,
 * so a stat is modelled by those three fields. The header these classes
 * are declared in is not part of this model; a stat whose tag is not set
 * carries the Universal tag.
 */
module Stats {
  import opened Wrappers
  import opened Enums
  import opened JsonNode
  import EnumsConvert

  datatype Stat = Stat(base: real, id: Byte, tag: Byte)

  /** `RegularStat::value()` of the older src/zzz/stats.cpp: the base. */
  function Value(s: Stat): real
  {
    s.base
  }

  /** `RegularStat::make(base, id, tag)`: its value is the given base. */
  function Make(base: real, id: Byte, tag: Byte): (s: Stat)
    ensures Value(s) == base && s.id == id && s.tag == tag
  {
    Stat(base, id, tag)
  }

  /** `copy_as_ptr()`: a fresh stat with the same base, id and tag, and so the same value. */
  function CopyAsPtr(s: Stat): (r: Stat)
    ensures r.base == s.base && r.id == s.id && r.tag == s.tag && Value(r) == Value(s)
  {
    Make(s.base, s.id, s.tag)
  }

  /**
   * `RegularStat::make_from_floating(json)`: the node must hold a floating
   * number, which becomes the base; the tag stays Universal. The stat id is
   * the one the node's key names (`Node` has no key of its own here, so the
   * caller passes it).
   */
  function MakeFromFloating(json: Node, id: Byte): (r: Result<Stat>)
    ensures r.Ok? <==> json.Floating?
    ensures r.Ok? ==> r.value == Make(json.floating, id, Universal)
  {
    var base :- AsFloating(json);
    Ok(Make(base, id, Universal))
  }

  /**
   * `RegularStat::make_from_object(json)`: the base is the floating "val"
   * (a missing key throws); the tag is named by "tag", "universal" when the
   * key is absent, and an unknown tag name throws.
   */
  function MakeFromObject(json: Node, id: Byte): (r: Result<Stat>)
    ensures r.Ok? ==> json.Object? && "val" in json.fields && json.fields["val"] == Floating(r.value.base)
    ensures r.Ok? ==> r.value.id == id && r.value.tag < TagCount
    ensures json.Object? && "val" in json.fields && json.fields["val"].Floating? && "tag" !in json.fields ==>
              r == Ok(Make(json.fields["val"].floating, id, Universal))
  {
    var val :- At(json, "val");
    var base :- AsFloating(val);
    var tagNode :- ValueOr(json, "tag", 3, String("universal"));
    var tag :- EnumsConvert.StringToTag(tagNode.str);
    Ok(Make(base, id, tag))
  }

  /** The makers `init_default` registers; both relative makers are stubs. */
  datatype Maker = RegularFromObject | RegularFromFloating | RelativeFromString

  /**
   * Running a maker: the stubs give a null pointer (`None`) without
   * looking at the node.
   */
  function RunMaker(m: Maker, json: Node, id: Byte): (r: Result<Option<Stat>>)
    ensures m == RelativeFromString ==> r == Ok(None)
    ensures r.Ok? && r.value.Some? ==> r.value.value.id == id
  {
    match m
    case RegularFromObject => var s :- MakeFromObject(json, id); Ok(Some(s))
    case RegularFromFloating => var s :- MakeFromFloating(json, id); Ok(Some(s))
    case RelativeFromString => Ok(None)
  }

  /** The decimal digit of `n`, as `std::to_string` writes a one-digit number. */
  function Digit(n: nat): (c: char)
    requires n < 10
    ensures '0' <= c <= '9'
  {
    ('0' as int + n) as char
  }

  /** The registry `init_default` installs. */
  const DefaultMakers: map<string, Maker> := map[
    "regular 1" := RegularFromObject,
    "regular 5" := RegularFromFloating,
    "relative 1" := RegularFromObject,
    "relative 3" := RelativeFromString]

  class StatFactory {
    /** `default_type_name`. */
    var defaultTypeName: string
    /** `m_makers`. */
    var makers: map<string, Maker>

    /** A factory before `init_default`: no makers, an empty default type name. */
    constructor ()
      ensures defaultTypeName == "" && makers == map[]
    {
      defaultTypeName := "";
      makers := map[];
    }

    /** `init_default()`: the type name "regular" and the four default makers. */
    method InitDefault()
      modifies this
      ensures defaultTypeName == "regular" && makers == DefaultMakers
    {
      defaultTypeName := "regular";
      makers := DefaultMakers;
    }

    /** `add_maker(key, value)`: `emplace` inserts only under a new key and reports whether it did. */
    method AddMaker(key: string, value: Maker) returns (inserted: bool)
      modifies this
      ensures inserted <==> key !in old(makers)
      ensures makers == if inserted then old(makers)[key := value] else old(makers)
      ensures key in makers && defaultTypeName == old(defaultTypeName)
    {
      inserted := key !in makers;
      if inserted {
        makers := makers[key := value];
      }
    }

    /**
     * The key `make` looks up: for an object, its "type" (the default type
     * name when absent; a non-string "type" throws) followed by a space and
     * the node's type index; for anything else, the default type name.
     */
    function Key(json: Node): (r: Result<string>)
      reads this
      ensures !json.Object? ==> r == Ok(defaultTypeName)
      ensures json.Object? && r.Ok? ==> |r.value| >= 2 && r.value[|r.value| - 2..] == " 1"
      ensures json.Object? && "type" !in json.fields ==> r == Ok(defaultTypeName + " 1")
    {
      if json.Object? then
        var typeName :- ValueOr(json, "type", 3, String(defaultTypeName));
        Ok(typeName.str + [' ', Digit(TypeIndex(json))])
      else Ok(defaultTypeName)
    }

    /** `make(json)`: the maker registered under the key, or a null pointer for an unknown key. */
    function Make(json: Node, id: Byte): (r: Result<Option<Stat>>)
      reads this
      ensures Key(json).Ok? && Key(json).value in makers ==> r == RunMaker(makers[Key(json).value], json, id)
      ensures Key(json).Ok? && Key(json).value !in makers ==> r == Ok(None)
      ensures Key(json).Err? ==> r.Err?
      ensures r.Ok? && r.value.Some? ==> Key(json).Ok? && Key(json).value in makers
    {
      var key :- Key(json);
      if key in makers then RunMaker(makers[key], json, id) else Ok(None)
    }
  }

  /**
   * With the default registry, a non-object node looks up "regular", which
   * is not registered, so it yields a null pointer; and since an object's key
   * always ends in " 1", the floating maker registered as "regular 5" is
   * never reached.
   */
  lemma DefaultFactoryReach(f: StatFactory, json: Node, id: Byte)
    requires f.defaultTypeName == "regular" && f.makers == DefaultMakers
    ensures !json.Object? ==> f.Make(json, id) == Ok(None)
    ensures f.Key(json).Ok? ==> f.Key(json).value != "regular 5" && f.Key(json).value != "relative 3"
  {
    if json.Object? && f.Key(json).Ok? {
      var k := f.Key(json).value;
      assert k[|k| - 2..] == " 1";
      assert "regular 5"[7..] == " 5";
      assert "relative 3"[8..] == " 3";
    } else if !json.Object? {
      assert "regular" !in DefaultMakers;
    }
  }

  /** Under the default registry an object without "type" is made by `make_from_object`. */
  lemma DefaultFactoryObject(f: StatFactory, json: Node, id: Byte)
    requires f.defaultTypeName == "regular" && f.makers == DefaultMakers
    requires json.Object? && "type" !in json.fields
    ensures f.Make(json, id) == (var s :- MakeFromObject(json, id); Ok(Some(s)))
  {
    assert Digit(TypeIndex(json)) == '1';
    assert "regular" + [' ', '1'] == "regular 1";
  }
}
