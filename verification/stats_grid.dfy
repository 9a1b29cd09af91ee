/**
 * The `StatsGrid` of src/zzz/stats_grid.cpp (the generation built on the
 * stats of src/zzz/stats.cpp): regular stats keyed by `gen_key(id, tag)` in
 * an ordered map, where adding a stat under a taken key adds its base into
 * the stored one. Relative stats are not stored by this grid.
 */
module KeyedGrid {
  import opened Wrappers
  import opened Enums
  import opened Stats

  /** Every key lies below this bound: the tag in the high byte, the id in the low one. */
  const KeyBound: nat := 65536

  /** `gen_key(id, tag)`: `tag << 8 | uint8_t(id)`; the two bytes do not overlap. */
  function GenKey(id: Byte, tag: Byte): (k: nat)
    ensures k < KeyBound
    ensures k % 256 == id as int && k / 256 == tag as int
  {
    tag as int * 256 + id as int
  }

  /** Distinct (id, tag) pairs get distinct keys. */
  lemma GenKeyInjective(id1: Byte, tag1: Byte, id2: Byte, tag2: Byte)
    ensures GenKey(id1, tag1) == GenKey(id2, tag2) <==> id1 == id2 && tag1 == tag2
  {
    if GenKey(id1, tag1) == GenKey(id2, tag2) {
      assert id1 as int == GenKey(id1, tag1) % 256;
    }
  }

  function KeyOf(s: Stat): nat
  {
    GenKey(s.id, s.tag)
  }

  /** Each stored stat sits under its own key. */
  predicate WellKeyed(m: map<nat, Stat>)
  {
    forall k :: k in m ==> KeyOf(m[k]) == k
  }

  /** The value stored for (id, tag), 0.0 when there is none. */
  function Lookup(m: map<nat, Stat>, id: Byte, tag: Byte): real
  {
    var key := GenKey(id, tag);
    if key in m then Value(m[key]) else 0.0
  }

  /** `add(RegularStat)` on a map: the base goes into the stored stat, or the stat is inserted. */
  function Added(m: map<nat, Stat>, s: Stat): (r: map<nat, Stat>)
    ensures r.Keys == m.Keys + {KeyOf(s)}
    ensures forall k :: k in m && k != KeyOf(s) ==> r[k] == m[k]
    ensures WellKeyed(m) ==> WellKeyed(r)
  {
    var key := KeyOf(s);
    if key in m then m[key := m[key].(base := m[key].base + s.base)] else m[key := s]
  }

  /** After `add(s)`, the value under `s`'s own (id, tag) has grown by `s`'s base; no other value changes. */
  lemma AddedValues(m: map<nat, Stat>, s: Stat, id: Byte, tag: Byte)
    requires WellKeyed(m)
    ensures Lookup(Added(m, s), id, tag) ==
              Lookup(m, id, tag) + (if id == s.id && tag == s.tag then s.base else 0.0)
  {
    GenKeyInjective(id, tag, s.id, s.tag);
  }

  /** The stat `add(grid)` stores under key `k` of either map once the loop has passed it. */
  function SummedEntry(a: map<nat, Stat>, b: map<nat, Stat>, k: nat): Stat
    requires k in a || k in b
  {
    if k in a && k in b then a[k].(base := a[k].base + b[k].base)
    else if k in a then a[k]
    else CopyAsPtr(b[k])
  }

  function KeysBelow(b: map<nat, Stat>, below: nat): set<nat>
  {
    set k | k in b && k < below
  }

  /** The map after `add(grid)` has visited the keys of `b` below `below`. */
  function SummedBelow(a: map<nat, Stat>, b: map<nat, Stat>, below: nat): map<nat, Stat>
  {
    map k | k in a.Keys + KeysBelow(b, below) :: if k < below then SummedEntry(a, b, k) else a[k]
  }

  /** The whole of `add(grid)`. */
  function Summed(a: map<nat, Stat>, b: map<nat, Stat>): map<nat, Stat>
  {
    SummedBelow(a, b, KeyBound)
  }

  /** Visiting a key that `b` lacks changes nothing. */
  lemma SummedSkip(a: map<nat, Stat>, b: map<nat, Stat>, h: nat)
    requires h !in b
    ensures SummedBelow(a, b, h + 1) == SummedBelow(a, b, h)
  {
    assert KeysBelow(b, h + 1) == KeysBelow(b, h);
  }

  /** Visiting a key `h` of `b` is `add(b[h])` on the map built so far. */
  lemma SummedAdd(a: map<nat, Stat>, b: map<nat, Stat>, h: nat)
    requires WellKeyed(a) && h in b && KeyOf(b[h]) == h
    ensures Added(SummedBelow(a, b, h), b[h]) == SummedBelow(a, b, h + 1)
  {
    assert KeysBelow(b, h + 1) == KeysBelow(b, h) + {h};
    assert Added(SummedBelow(a, b, h), b[h]).Keys == SummedBelow(a, b, h + 1).Keys;
  }

  /**
   * The meaning of `add(grid)`: every value becomes the sum of the two
   * grids' values, so a key of only one grid keeps that grid's value.
   */
  lemma {:induction false} SummedValues(a: map<nat, Stat>, b: map<nat, Stat>, id: Byte, tag: Byte)
    requires WellKeyed(a) && WellKeyed(b)
    ensures WellKeyed(Summed(a, b))
    ensures Summed(a, b).Keys == a.Keys + b.Keys
    ensures Lookup(Summed(a, b), id, tag) == Lookup(a, id, tag) + Lookup(b, id, tag)
  {
    assert KeysBelow(b, KeyBound) == b.Keys by {
      forall k | k in b ensures k < KeyBound {
        assert KeyOf(b[k]) == k;
      }
    }
  }

  class StatsGrid {
    /** `m_content`: the stats by key. */
    var content: map<nat, Stat>

    predicate Valid()
      reads this
    {
      WellKeyed(content)
    }

    constructor ()
      ensures Valid() && content == map[]
    {
      content := map[];
    }

    /** `get(id, tag)`: the value of the stat of exactly that id and tag, 0.0 when there is none. */
    function Get(id: Byte, tag: Byte): (r: real)
      reads this
      requires Valid()
      ensures r == Lookup(content, id, tag)
      ensures GenKey(id, tag) in content ==> content[GenKey(id, tag)].id == id && content[GenKey(id, tag)].tag == tag
    {
      var key := GenKey(id, tag);
      if key in content then
        GenKeyInjective(id, tag, content[key].id, content[key].tag);
        Value(content[key])
      else 0.0
    }

    /**
     * `get_summed(id, tag)`: the Universal value plus, for another tag, that
     * tag's value; but 0.0 whenever there is no Universal entry, even if the
     * tagged one exists.
     */
    function GetSummed(id: Byte, tag: Byte): (r: real)
      reads this
      requires Valid()
      ensures GenKey(id, Universal) !in content ==> r == 0.0
      ensures GenKey(id, Universal) in content && tag == Universal ==> r == Get(id, Universal)
      ensures GenKey(id, Universal) in content && tag != Universal ==> r == Get(id, Universal) + Get(id, tag)
    {
      var universal := GenKey(id, Universal);
      if universal !in content then 0.0
      else
        var result := Value(content[universal]);
        if tag == Universal then result
        else
          var key := GenKey(id, tag);
          if key !in content then result else result + Value(content[key])
    }

    /** The const `at(id, tag)`: the stored base, or an exception when the key is absent. */
    function At(id: Byte, tag: Byte): (r: Result<real>)
      reads this
      requires Valid()
      ensures r.Ok? <==> GenKey(id, tag) in content
      ensures r.Ok? ==> r.value == Get(id, tag)
    {
      var key := GenKey(id, tag);
      if key in content then Ok(content[key].base)
      else Err("key with id and tag is not found")
    }

    /**
     * Writing through the non-const `at(id, tag)`: the stored base becomes
     * `b`; an absent key throws and nothing changes.
     */
    method SetAt(id: Byte, tag: Byte, b: real) returns (r: Result<()>)
      requires Valid()
      modifies this
      ensures Valid()
      ensures r.Ok? <==> GenKey(id, tag) in old(content)
      ensures r.Ok? ==> content == old(content)[GenKey(id, tag) := old(content)[GenKey(id, tag)].(base := b)]
      ensures r.Err? ==> content == old(content)
    {
      var key := GenKey(id, tag);
      if key !in content {
        return Err("key with id and tag is not found");
      }
      content := content[key := content[key].(base := b)];
      r := Ok(());
    }

    /** `add(RegularStat)`: the base is added into the stored stat, or the stat is inserted. */
    method Add(s: Stat)
      requires Valid()
      modifies this
      ensures Valid() && content == Added(old(content), s)
    {
      var key := KeyOf(s);
      if key in content {
        content := content[key := content[key].(base := content[key].base + s.base)];
      } else {
        content := content[key := s];
      }
    }

    /** `add_regular(value, id, tag)`: `add` of the regular stat with that base, id and tag. */
    method AddRegular(value: real, id: Byte, tag: Byte)
      requires Valid()
      modifies this
      ensures Valid() && content == Added(old(content), Make(value, id, tag))
    {
      var onEmplace := Make(value, id, tag);
      Add(onEmplace);
    }

    /** `add(RelativeStat)` and `add_relative(formula, id, tag)` are empty: the grid is unchanged. */
    method AddRelative(formula: string, id: Byte, tag: Byte)
      modifies this
      ensures content == old(content)
    {
    }

    /**
     * `add(another)`: for each stat of the other grid, in key order, its
     * base is added into the stored stat or a copy is inserted. `another`
     * may be this grid, whose values then double.
     */
    method AddGrid(another: StatsGrid)
      requires Valid() && another.Valid()
      modifies this
      ensures Valid() && content == Summed(old(content), old(another.content))
    {
      var other := another.content;
      ghost var start := content;
      var h := 0;
      while h < KeyBound
        invariant h <= KeyBound && WellKeyed(other) && WellKeyed(start)
        invariant content == SummedBelow(start, other, h) && Valid()
      {
        if h in other {
          SummedAdd(start, other, h);
          Add(CopyAsPtr(other[h]));
        } else {
          SummedSkip(start, other, h);
        }
        h := h + 1;
      }
    }
  }
}
