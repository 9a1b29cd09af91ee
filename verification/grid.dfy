/**
 * `StatsGrid` of src/zzz/stats/grid.cpp: stats of both kinds keyed by their
 * qualifier's hash in an ordered map (`boost::flat_map`). Adding a stat
 * whose key is taken replaces the entry with `add_as_copy` of the two.
 */
module Grid {
  import opened Wrappers
  import opened Enums
  import opened JsonNode
  import opened StatBasic
  import RegularStat
  import RelativeStat

  /** Every qualifier hash lies below this bound (two bytes). */
  const HashBound: nat := 65536

  /**
   * A stat a grid can hold and later evaluate: the formulas of a relative
   * stat can all run on the RPN stack (evaluating any other is undefined).
   */
  predicate Admissible(s: Stat)
  {
    s.Relative? ==> RelativeStat.FormulasRunnable(s.formulas)
  }

  /** Each entry sits under its own qualifier's hash. */
  predicate WellKeyed(m: map<nat, Stat>)
  {
    forall k :: k in m ==> Hash(m[k].q) == k && Admissible(m[k])
  }

  /**
   * `IStat::add_as_copy`, dispatched on the stat already in the grid: the
   * qualifier is the holder's and the bases add; only relative plus
   * relative throws.
   */
  function AddAsCopy(self: Stat, another: Stat): (r: Result<Stat>)
    ensures r.Ok? <==> !(self.Relative? && another.Relative?)
    ensures r.Ok? ==> r.value.q == self.q && r.value.base == self.base + another.base
    ensures r.Ok? ==> (r.value.Regular? <==> self.Regular? && another.Regular?)
    ensures r.Ok? && Admissible(self) && Admissible(another) ==> Admissible(r.value)
  {
    if self.Regular? then RegularStat.AddAsCopy(self, another) else RelativeStat.AddAsCopy(self, another)
  }

  /** What `add(stat)` leaves in the map `m`, or the exception it throws. */
  function Inserted(m: map<nat, Stat>, s: Stat): (r: Result<map<nat, Stat>>)
    ensures r.Ok? <==> !(Hash(s.q) in m && m[Hash(s.q)].Relative? && s.Relative?)
    ensures r.Ok? ==> r.value.Keys == m.Keys + {Hash(s.q)}
    ensures r.Ok? ==> forall k :: k in m && k != Hash(s.q) ==> r.value[k] == m[k]
    ensures r.Ok? && Hash(s.q) !in m ==> r.value[Hash(s.q)] == s
    ensures r.Ok? && Hash(s.q) in m ==>
              r.value[Hash(s.q)].q == m[Hash(s.q)].q &&
              r.value[Hash(s.q)].base == m[Hash(s.q)].base + s.base
    ensures r.Ok? && WellKeyed(m) && Admissible(s) ==> WellKeyed(r.value)
  {
    var key := Hash(s.q);
    if key in m then
      var sum :- AddAsCopy(m[key], s);
      Ok(m[key := sum])
    else Ok(m[key := s])
  }

  /** The entry `add(grid)` computes for key `k` once the loop has passed it. */
  function MergedEntry(a: map<nat, Stat>, b: map<nat, Stat>, k: nat): Stat
    requires k in a || k in b
  {
    if k in a && k in b then
      match AddAsCopy(a[k], b[k])
      case Ok(v) => v
      case Err(_) => a[k]
    else if k in a then a[k]
    else b[k]
  }

  /** The keys of `b` the loop of `add(grid)` has visited before reaching `below`. */
  function KeysBelow(b: map<nat, Stat>, below: nat): set<nat>
  {
    set k | k in b && k < below
  }

  /** The map after `add(grid)` has added every entry of `b` whose key is below `below`. */
  function MergedBelow(a: map<nat, Stat>, b: map<nat, Stat>, below: nat): map<nat, Stat>
  {
    map k | k in a.Keys + KeysBelow(b, below) :: if k < below then MergedEntry(a, b, k) else a[k]
  }

  /** The whole of `add(grid)`: every entry of `b` added into `a`. */
  function Merged(a: map<nat, Stat>, b: map<nat, Stat>): map<nat, Stat>
  {
    MergedBelow(a, b, HashBound)
  }

  /** A key below `below` where both grids hold a relative stat, so that adding throws. */
  predicate ClashBelow(a: map<nat, Stat>, b: map<nat, Stat>, below: nat)
  {
    exists k :: k in a && k in b && k < below && a[k].Relative? && b[k].Relative?
  }

  predicate Clash(a: map<nat, Stat>, b: map<nat, Stat>)
  {
    exists k :: k in a && k in b && a[k].Relative? && b[k].Relative?
  }

  /**
   * The meaning of `add(grid)`: the key set becomes the union; a key of one
   * grid only keeps that grid's stat; a key of both gets the sum, which
   * for two regular stats is regular with the bases added.
   */
  lemma MergedMeaning(a: map<nat, Stat>, b: map<nat, Stat>)
    requires WellKeyed(b)
    ensures Merged(a, b).Keys == a.Keys + b.Keys
    ensures forall k :: k in a && k !in b ==> Merged(a, b)[k] == a[k]
    ensures forall k :: k in b && k !in a ==> Merged(a, b)[k] == b[k]
    ensures forall k :: k in a && k in b && !(a[k].Relative? && b[k].Relative?) ==>
              Merged(a, b)[k].base == a[k].base + b[k].base && Merged(a, b)[k].q == a[k].q
    ensures forall k :: k in a && k in b && a[k].Regular? && b[k].Regular? ==> Merged(a, b)[k].Regular?
  {
    assert KeysBelow(b, HashBound) == b.Keys by {
      forall k | k in b ensures k < HashBound {
        assert Hash(b[k].q) == k;
      }
    }
  }

  /** Every key of a well-keyed grid is below `HashBound`, so `ClashBelow` there is `Clash`. */
  lemma ClashAll(a: map<nat, Stat>, b: map<nat, Stat>)
    requires WellKeyed(b)
    ensures ClashBelow(a, b, HashBound) <==> Clash(a, b)
  {
    if Clash(a, b) {
      var k :| k in a && k in b && a[k].Relative? && b[k].Relative?;
      assert Hash(b[k].q) == k;
    }
  }

  /** Passing a key `h` that `b` lacks changes nothing. */
  lemma MergedSkip(a: map<nat, Stat>, b: map<nat, Stat>, h: nat)
    requires h !in b
    ensures MergedBelow(a, b, h + 1) == MergedBelow(a, b, h)
    ensures ClashBelow(a, b, h + 1) == ClashBelow(a, b, h)
  {
    assert KeysBelow(b, h + 1) == KeysBelow(b, h);
  }

  /** Passing a key `h` of `b` performs `add(b[h])` on the map built so far. */
  lemma MergedAdd(a: map<nat, Stat>, b: map<nat, Stat>, h: nat)
    requires h in b && Hash(b[h].q) == h
    ensures Inserted(MergedBelow(a, b, h), b[h]).Ok? <==> !(h in a && a[h].Relative? && b[h].Relative?)
    ensures Inserted(MergedBelow(a, b, h), b[h]).Ok? ==>
              Inserted(MergedBelow(a, b, h), b[h]).value == MergedBelow(a, b, h + 1)
  {
    var m := MergedBelow(a, b, h);
    assert h in m <==> h in a;
    assert h in a ==> m[h] == a[h];
    assert KeysBelow(b, h + 1) == KeysBelow(b, h) + {h};
    if Inserted(m, b[h]).Ok? {
      var n := Inserted(m, b[h]).value;
      assert n.Keys == MergedBelow(a, b, h + 1).Keys;
    }
  }

  /** A clash below `h + 1` is one below `h` or one at `h`. */
  lemma ClashStep(a: map<nat, Stat>, b: map<nat, Stat>, h: nat)
    ensures ClashBelow(a, b, h + 1) <==>
              ClashBelow(a, b, h) || (h in a && h in b && a[h].Relative? && b[h].Relative?)
  {
    if ClashBelow(a, b, h + 1) && !ClashBelow(a, b, h) {
      var k :| k in a && k in b && k < h + 1 && a[k].Relative? && b[k].Relative?;
      assert k == h;
    }
  }

  /**
   * One element of `StatsGrid::make_from`'s input: it must be an array
   * (`as_array` throws otherwise) and is read as a regular stat; one whose
   * last item is a string (a relative stat) throws "TODO".
   */
  function ParseOne(n: Node): (r: Result<Stat>)
    requires n.Array? ==> n.items != []
    ensures r.Ok? ==> n.Array? && r.value.Regular?
  {
    var items :- AsArray(n);
    if items[|items| - 1].String? then Err("TODO")
    else RegularStat.MakeFrom(items)
  }

  /** Every element read in order; the first failing one decides the exception. */
  function ParseEntries(entries: seq<Node>): (r: Result<seq<Stat>>)
    requires forall i :: 0 <= i < |entries| && entries[i].Array? ==> entries[i].items != []
    ensures r.Ok? ==> |r.value| == |entries| && forall i :: 0 <= i < |r.value| ==> r.value[i].Regular?
  {
    if entries == [] then Ok([])
    else
      var init :- ParseEntries(entries[..|entries| - 1]);
      var s :- ParseOne(entries[|entries| - 1]);
      Ok(init + [s])
  }

  /** Reading one more element of a prefix. */
  lemma ParseNext(entries: seq<Node>, i: nat)
    requires forall j :: 0 <= j < |entries| && entries[j].Array? ==> entries[j].items != []
    requires i < |entries| && ParseEntries(entries[..i]).Ok?
    ensures ParseOne(entries[i]).Ok? ==>
              ParseEntries(entries[..i + 1]) == Ok(ParseEntries(entries[..i]).value + [ParseOne(entries[i]).value])
    ensures ParseOne(entries[i]).Err? ==> ParseEntries(entries[..i + 1]).Err?
  {
    assert entries[..i + 1][..i] == entries[..i];
  }

  /** An element that fails to read makes every longer prefix fail. */
  lemma {:induction false} ParseStops(entries: seq<Node>, i: nat)
    requires forall j :: 0 <= j < |entries| && entries[j].Array? ==> entries[j].items != []
    requires i < |entries| && ParseEntries(entries[..i + 1]).Err?
    ensures ParseEntries(entries).Err?
  {
    if i + 1 < |entries| {
      var init := entries[..|entries| - 1];
      assert init[..i + 1] == entries[..i + 1];
      ParseStops(init, i);
    } else {
      assert entries[..i + 1] == entries;
    }
  }

  /** The map after adding the stats `ss` one by one into `m`. */
  function Accumulate(m: map<nat, Stat>, ss: seq<Stat>): Result<map<nat, Stat>>
  {
    if ss == [] then Ok(m)
    else
      var before :- Accumulate(m, ss[..|ss| - 1]);
      Inserted(before, ss[|ss| - 1])
  }

  lemma AccumulateNext(m: map<nat, Stat>, ss: seq<Stat>, s: Stat)
    ensures Accumulate(m, ss + [s]) == (var before :- Accumulate(m, ss); Inserted(before, s))
  {
    assert (ss + [s])[..|ss|] == ss;
  }

  /** The keys the stats of `ss` sit under. */
  function KeysOf(ss: seq<Stat>): set<nat>
  {
    if ss == [] then {} else KeysOf(ss[..|ss| - 1]) + {Hash(ss[|ss| - 1].q)}
  }

  /** The sum of the bases of the stats of `ss` that sit under key `k`. */
  function BaseSum(ss: seq<Stat>, k: nat): real
  {
    if ss == [] then 0.0
    else BaseSum(ss[..|ss| - 1], k) + (if Hash(ss[|ss| - 1].q) == k then ss[|ss| - 1].base else 0.0)
  }

  /**
   * Adding regular stats never throws; the result holds one regular stat
   * per qualifier that occurs, whose base is the sum of that qualifier's
   * bases.
   */
  lemma {:induction false} AccumulateSums(ss: seq<Stat>)
    requires forall i :: 0 <= i < |ss| ==> ss[i].Regular?
    ensures Accumulate(map[], ss).Ok?
    ensures Accumulate(map[], ss).value.Keys == KeysOf(ss)
    ensures forall k :: k in Accumulate(map[], ss).value ==>
              Accumulate(map[], ss).value[k].Regular? && Accumulate(map[], ss).value[k].base == BaseSum(ss, k)
  {
    if ss != [] {
      var init, s := ss[..|ss| - 1], ss[|ss| - 1];
      AccumulateSums(init);
      var before := Accumulate(map[], init).value;
      var after := Inserted(before, s).value;
      forall k | k in after
        ensures after[k].Regular? && after[k].base == BaseSum(ss, k)
      {
        if k !in before {
          NotPresentSum(init, k);
        }
      }
    }
  }

  /** A key no stat of `ss` sits under sums to zero. */
  lemma {:induction false} NotPresentSum(ss: seq<Stat>, k: nat)
    requires k !in KeysOf(ss)
    ensures BaseSum(ss, k) == 0.0
  {
    if ss != [] {
      NotPresentSum(ss[..|ss| - 1], k);
    }
  }

  /** Adding admissible stats one by one keeps every entry under its own key. */
  lemma {:induction false} AccumulateKeyed(m: map<nat, Stat>, ss: seq<Stat>)
    requires WellKeyed(m) && forall i :: 0 <= i < |ss| ==> Admissible(ss[i])
    ensures Accumulate(m, ss).Ok? ==> WellKeyed(Accumulate(m, ss).value)
  {
    if ss != [] {
      AccumulateKeyed(m, ss[..|ss| - 1]);
    }
  }

  /**
   * `StatsGrid::make_from` on a JSON value, as the entries of the grid it
   * builds: the value must be an array (`as_array`), and an empty element,
   * whose `back()` would be read, is refused.
   */
  function FromNode(n: Node): (r: Result<map<nat, Stat>>)
    ensures r.Ok? <==> n.Array? && (forall i :: 0 <= i < |n.items| && n.items[i].Array? ==> n.items[i].items != []) &&
                       ParseEntries(n.items).Ok?
    ensures r.Ok? ==> WellKeyed(r.value) && r.value.Keys == KeysOf(ParseEntries(n.items).value)
    ensures r.Ok? ==> forall k :: k in r.value ==> r.value[k].Regular? && r.value[k].base == BaseSum(ParseEntries(n.items).value, k)
  {
    var entries :- AsArray(n);
    if exists i :: 0 <= i < |entries| && entries[i].Array? && entries[i].items == [] then Err("back() of an empty array")
    else
      var stats :- ParseEntries(entries);
      AccumulateSums(stats);
      AccumulateKeyed(map[], stats);
      Accumulate(map[], stats)
  }

  /** `add(grid)` of two well-keyed grids leaves a well-keyed grid. */
  lemma MergedKeyed(a: map<nat, Stat>, b: map<nat, Stat>)
    requires WellKeyed(a) && WellKeyed(b)
    ensures WellKeyed(Merged(a, b))
  {
    MergedMeaning(a, b);
    forall k | k in a && k in b
      ensures Hash(Merged(a, b)[k].q) == k && Admissible(Merged(a, b)[k])
    {
      assert k < HashBound by {
        assert Hash(b[k].q) == k;
      }
    }
  }

  /** Every entry is a regular stat, as in a grid read by `make_from`. */
  predicate AllRegular(m: map<nat, Stat>)
  {
    forall k :: k in m ==> m[k].Regular?
  }

  /** The base under key `k`, 0.0 for a key the grid lacks. */
  function BaseAt(m: map<nat, Stat>, k: nat): real
  {
    if k in m then m[k].base else 0.0
  }

  /**
   * `add(grid)` of two all-regular grids never throws, keeps every entry
   * regular and under its own key, and adds the bases key by key.
   */
  lemma RegularMerge(a: map<nat, Stat>, b: map<nat, Stat>)
    requires WellKeyed(a) && WellKeyed(b) && AllRegular(a) && AllRegular(b)
    ensures !Clash(a, b)
    ensures WellKeyed(Merged(a, b)) && AllRegular(Merged(a, b))
    ensures Merged(a, b).Keys == a.Keys + b.Keys
    ensures forall k :: BaseAt(Merged(a, b), k) == BaseAt(a, k) + BaseAt(b, k)
  {
    MergedMeaning(a, b);
  }

  /**
   * `get_value(qualifier)` on a grid's entries: the value of the stat under
   * the qualifier, 0.0 when there is none; a relative stat's value may throw.
   */
  function ValueIn(content: map<nat, Stat>, q: Qualifier): (r: Result<real>)
    requires WellKeyed(content)
    ensures Hash(q) !in content ==> r == Ok(0.0)
    ensures Hash(q) in content && content[Hash(q)].Regular? ==> r == Ok(RegularStat.Value(content[Hash(q)]))
    ensures Hash(q) in content && content[Hash(q)].Relative? ==> r == RelativeStat.Value(content[Hash(q)])
    ensures Hash(q) in content ==> content[Hash(q)].q == q
  {
    var key := Hash(q);
    if key !in content then Ok(0.0)
    else
      HashInjective(q, content[key].q);
      var s := content[key];
      if s.Regular? then Ok(RegularStat.Value(s)) else RelativeStat.Value(s)
  }

  class StatsGrid {
    /** `m_content`: the stats by qualifier hash. */
    var content: map<nat, Stat>

    predicate Valid()
      reads this
    {
      WellKeyed(content)
    }

    /** The default constructor: an empty grid. */
    constructor Empty()
      ensures Valid() && content == map[]
    {
      content := map[];
    }

    /** The copy constructor: `add(another)` into an empty grid gives an equal grid. */
    constructor CopyOf(another: StatsGrid)
      requires another.Valid()
      ensures Valid() && content == another.content
    {
      content := another.content;
      assert Merged(map[], another.content) == another.content by {
        MergedMeaning(map[], another.content);
      }
    }

    /**
     * `get_value(qualifier)`: the value of the stat under the qualifier, 0.0
     * when there is none; a relative stat's value may throw.
     */
    function GetValue(q: Qualifier): (r: Result<real>)
      reads this
      requires Valid()
      ensures r == ValueIn(content, q)
    {
      ValueIn(content, q)
    }

    /** The const `at(qualifier)`: the stat of exactly that qualifier; `map::at` throws when absent. */
    function At(q: Qualifier): (r: Result<Stat>)
      reads this
      requires Valid()
      ensures r.Ok? <==> Hash(q) in content
      ensures r.Ok? ==> r.value.q == q && r.value == content[Hash(q)]
    {
      var key := Hash(q);
      if key in content then
        HashInjective(q, content[key].q);
        Ok(content[key])
      else Err("map::at")
    }

    /** `set(stat)`: the stat replaces whatever sat under its own key; no other entry changes. */
    method Set(s: Stat)
      requires Valid() && Admissible(s)
      modifies this
      ensures Valid()
      ensures content == old(content)[Hash(s.q) := s]
    {
      content := content[Hash(s.q) := s];
    }

    /**
     * The non-const `at(qualifier)`, used to write the base of an existing
     * stat: only that entry's base changes. An absent key default-inserts a
     * null pointer that is then dereferenced, so the key must be present.
     */
    method SetBaseAt(q: Qualifier, b: real)
      requires Valid() && Hash(q) in content
      modifies this
      ensures Valid()
      ensures content == old(content)[Hash(q) := WithBase(old(content)[Hash(q)], b)]
      ensures At(q).Ok? && At(q).value.base == b
    {
      content := content[Hash(q) := WithBase(content[Hash(q)], b)];
      assert content[Hash(q)].q == old(content)[Hash(q)].q;
    }

    /**
     * `add(stat)`: a copy is inserted under a new key; under a taken key the
     * entry becomes `add_as_copy` of the two, which throws (leaving the grid
     * unchanged) for two relative stats.
     */
    method Add(s: Stat) returns (r: Result<()>)
      requires Valid() && Admissible(s)
      modifies this
      ensures Valid()
      ensures r.Ok? <==> Inserted(old(content), s).Ok?
      ensures r.Ok? ==> content == Inserted(old(content), s).value
      ensures r.Err? ==> content == old(content)
    {
      var key := Hash(s.q);
      if key in content {
        var sum := AddAsCopy(content[key], s);
        if sum.Err? {
          return Err(sum.error);
        }
        content := content[key := sum.value];
      } else {
        content := content[key := s];
      }
      r := Ok(());
    }

    /**
     * `add(another)`: the other grid's stats are added in ascending key
     * order. The first key where both grids hold a relative stat throws,
     * after the keys before it have been added. `another` may be this grid.
     */
    method AddGrid(another: StatsGrid) returns (r: Result<()>)
      requires Valid() && another.Valid()
      modifies this
      ensures Valid()
      ensures r.Ok? <==> !Clash(old(content), old(another.content))
      ensures r.Ok? ==> content == Merged(old(content), old(another.content))
    {
      var other := another.content;
      ghost var start := content;
      var h := 0;
      while h < HashBound
        invariant h <= HashBound
        invariant Valid() && WellKeyed(other)
        invariant !ClashBelow(start, other, h)
        invariant content == MergedBelow(start, other, h)
      {
        ClashStep(start, other, h);
        if h in other {
          MergedAdd(start, other, h);
          var step := Add(other[h]);
          if step.Err? {
            ClashAll(start, other);
            return step;
          }
        } else {
          MergedSkip(start, other, h);
        }
        h := h + 1;
      }
      ClashAll(start, other);
      r := Ok(());
    }

    /**
     * The copy assignment as written: clear, then `add(another)`. When
     * `another` is this very grid the clearing empties it first, so a
     * self-assignment loses every stat.
     */
    method Assign(another: StatsGrid) returns (r: Result<()>)
      requires Valid() && another.Valid()
      modifies this
      ensures Valid() && r.Ok?
      ensures another == this ==> content == map[]
      ensures another != this ==> content == old(another.content)
    {
      content := map[];
      r := AddGrid(another);
      MergedMeaning(map[], old(another.content));
    }

    /** The copy assignment with the self-assignment guard: the grid always ends equal to `another`. */
    method AssignChecked(another: StatsGrid) returns (r: Result<()>)
      requires Valid() && another.Valid()
      modifies this
      ensures Valid() && r.Ok?
      ensures content == old(another.content)
    {
      if another != this {
        r := Assign(another);
      } else {
        r := Ok(());
      }
    }

    /** The move constructor and move assignment: the entries are taken over as they are. */
    method MoveAssign(another: StatsGrid)
      requires another.Valid()
      modifies this
      ensures Valid() && content == old(another.content)
    {
      content := another.content;
    }
  }

  /**
   * `StatsGrid::make_from(array)`: one regular stat per element, added in
   * order. (The source function never returns the grid it builds; the model
   * returns it.)
   */
  method MakeFrom(entries: seq<Node>) returns (r: Result<StatsGrid>)
    requires forall i :: 0 <= i < |entries| && entries[i].Array? ==> entries[i].items != []
    ensures r.Ok? <==> ParseEntries(entries).Ok?
    ensures r.Ok? ==> r.value.Valid() && Accumulate(map[], ParseEntries(entries).value) == Ok(r.value.content)
  {
    var grid := new StatsGrid.Empty();
    ghost var added: seq<Stat> := [];
    var i := 0;
    while i < |entries|
      invariant i <= |entries| && grid.Valid()
      invariant ParseEntries(entries[..i]) == Ok(added)
      invariant Accumulate(map[], added) == Ok(grid.content)
      invariant forall k :: k in grid.content ==> grid.content[k].Regular?
    {
      ParseNext(entries, i);
      var s := ParseOne(entries[i]);
      if s.Err? {
        ParseStops(entries, i);
        return Err(s.error);
      }
      AccumulateNext(map[], added, s.value);
      var step := grid.Add(s.value);
      added := added + [s.value];
      i := i + 1;
    }
    assert entries[..i] == entries;
    r := Ok(grid);
  }

  /**
   * The self-assignment defect, on a concrete grid: one stat is added, the
   * grid is assigned to itself, and it ends empty.
   */
  method SelfAssignmentLosesStats() returns (before: map<nat, Stat>, after: map<nat, Stat>)
    ensures before != map[] && after == map[]
  {
    var grid := new StatsGrid.Empty();
    var added := grid.Add(RegularStat.Make(1, Universal, false, 1.0));
    before := grid.content;
    assert Hash(Qualifier(1, Universal)) in before;
    var copied := grid.Assign(grid);
    after := grid.content;
  }
}
