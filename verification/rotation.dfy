/**
 * `ToRotationConverter::from` of src/zzz/details/rotation.cpp: a rotation
 * file names custom blocks of commands and a main rotation; blocks are
 * expanded into mini rotations (a line naming another block inlines that
 * block's raw lines), then each main entry becomes one cell or copies of
 * a mini rotation.
 *
 * A number that `sv_to` cannot read leaves an indeterminate value behind,
 * and an empty line is indexed past its end; both make the conversion
 * an error here.
 */
module Rotation {
  import opened Wrappers
  import opened Funcs
  import StringFuncs

  /** `rotation_cell`: a command and the index that follows it. */
  datatype Cell = Cell(command: string, index: nat)

  /** A `custom` table entry: its priority and its raw lines. */
  datatype Block = Block(priority: int, values: seq<string>)

  /** `to_rotation_cell(splitted)`: the first token is the command, the second (if any) the index. */
  function ToRotationCell(tokens: seq<string>): (r: Result<Cell>)
    ensures r.Ok? ==> tokens != [] && r.value.command == tokens[0]
    ensures |tokens| == 1 ==> r == Ok(Cell(tokens[0], 0))
    ensures |tokens| >= 2 ==> (r.Ok? <==> SvTo(tokens[1]).Some?)
  {
    if tokens == [] then Err("empty line")
    else if |tokens| == 1 then Ok(Cell(tokens[0], 0))
    else
      match SvTo(tokens[1])
      case None => Err("unreadable index")
      case Some(n) => Ok(Cell(tokens[0], n))
  }

  /** `calc_loops(splitted)`: 1 without a second token, else its number with one leading 'x' dropped. */
  function CalcLoops(tokens: seq<string>): (r: Result<nat>)
    ensures |tokens| == 1 ==> r == Ok(1)
    ensures r.Ok? ==> r.value < StringFuncs.SizeMax
  {
    if |tokens| == 1 then Ok(1)
    else if |tokens| == 0 then Err("empty line")
    else
      var count := if |tokens[1]| > 0 && tokens[1][0] == 'x' then tokens[1][1..] else tokens[1];
      match SvTo(count)
      case None => Err("unreadable loop count")
      case Some(n) => Ok(n)
  }

  /** `n` copies of `cells`, one after the other. */
  function Repeat(cells: seq<Cell>, n: nat): (r: seq<Cell>)
  {
    if n == 0 then [] else Repeat(cells, n - 1) + cells
  }

  lemma {:induction false} RepeatLength(cells: seq<Cell>, n: nat)
    ensures |Repeat(cells, n)| == n * |cells|
  {
    if n > 0 {
      RepeatLength(cells, n - 1);
    }
  }

  /** Each raw line converted to a cell on its own. */
  function ConvertLines(lines: seq<string>): (r: Result<seq<Cell>>)
    ensures r.Ok? ==> |r.value| == |lines|
  {
    if lines == [] then Ok([])
    else
      var prev :- ConvertLines(lines[..|lines| - 1]);
      var cell :- ToRotationCell(SplitAsView(lines[|lines| - 1]));
      Ok(prev + [cell])
  }

  /**
   * The cells one line of a custom block contributes: a line naming a
   * block inlines that block's raw lines, `calc_loops` times; any other
   * line is one cell.
   */
  function InlineLine(byName: map<string, seq<string>>, line: string): (r: Result<seq<Cell>>)
  {
    var tokens := SplitAsView(line);
    if tokens == [] then Err("empty line")
    else if tokens[0] in byName then
      var loops :- CalcLoops(tokens);
      if loops == 0 then Ok([])
      else
        var cells :- ConvertLines(byName[tokens[0]]);
        Ok(Repeat(cells, loops))
    else
      var cell :- ToRotationCell(tokens);
      Ok([cell])
  }

  /** A whole custom block expanded, line after line. */
  function Inline(byName: map<string, seq<string>>, lines: seq<string>): (r: Result<seq<Cell>>)
  {
    if lines == [] then Ok([])
    else
      var prev :- Inline(byName, lines[..|lines| - 1]);
      var cells :- InlineLine(byName, lines[|lines| - 1]);
      Ok(prev + cells)
  }

  /** `by_name`: the raw lines of each custom block, whatever its priority. */
  function ByName(custom: map<string, Block>): (m: map<string, seq<string>>)
    ensures m.Keys == custom.Keys
    ensures forall k :: k in custom ==> m[k] == custom[k].values
  {
    map k | k in custom :: custom[k].values
  }

  /** `mini_rotations`: every block expanded; an error in any block is an error. */
  function MiniRotations(byName: map<string, seq<string>>): (r: Result<map<string, seq<Cell>>>)
    ensures r.Ok? <==> forall k :: k in byName ==> Inline(byName, byName[k]).Ok?
    ensures r.Ok? ==> r.value.Keys == byName.Keys &&
                      forall k :: k in byName ==> Inline(byName, byName[k]) == Ok(r.value[k])
  {
    if forall k :: k in byName ==> Inline(byName, byName[k]).Ok? then
      Ok(map k | k in byName :: Inline(byName, byName[k]).value)
    else Err("a custom block holds an unreadable line")
  }

  /** How many copies of a mini rotation a main entry asks for: `splitted.size() × calc_loops`, as a `size_t`. */
  function Copies(tokens: seq<string>, loops: nat): nat
  {
    (|tokens| * loops) % StringFuncs.SizeMax
  }

  /** The cells one main-rotation entry contributes. */
  function ExpandEntry(minis: map<string, seq<Cell>>, entry: string): (r: Result<seq<Cell>>)
  {
    var tokens := SplitAsView(entry);
    if tokens == [] then Err("empty line")
    else if tokens[0] in minis then
      var loops :- CalcLoops(tokens);
      Ok(Repeat(minis[tokens[0]], Copies(tokens, loops)))
    else
      var cell :- ToRotationCell(tokens);
      Ok([cell])
  }

  /** The main rotation expanded, entry after entry. */
  function Expand(minis: map<string, seq<Cell>>, rotation: seq<string>): (r: Result<seq<Cell>>)
  {
    if rotation == [] then Ok([])
    else
      var prev :- Expand(minis, rotation[..|rotation| - 1]);
      var cells :- ExpandEntry(minis, rotation[|rotation| - 1]);
      Ok(prev + cells)
  }

  /** The whole conversion. */
  function Convert(custom: map<string, Block>, rotation: seq<string>): Result<seq<Cell>>
  {
    var minis :- MiniRotations(ByName(custom));
    Expand(minis, rotation)
  }

  // ---------------------------------------------------------------- the conversion as written

  /** The inner loop over one custom block's lines. */
  method InlineBlock(byName: map<string, seq<string>>, lines: seq<string>) returns (r: Result<seq<Cell>>)
    ensures r.Ok? <==> Inline(byName, lines).Ok?
    ensures r.Ok? ==> r == Inline(byName, lines)
  {
    var onEmplace: seq<Cell> := [];
    for i := 0 to |lines|
      invariant Inline(byName, lines[..i]) == Ok(onEmplace)
    {
      assert lines[..i + 1][..i] == lines[..i];
      var cells := InlineLine(byName, lines[i]);
      if cells.Err? {
        InlineAppend(byName, lines[..i + 1], lines[i + 1..]);
        assert lines[..i + 1] + lines[i + 1..] == lines;
        return Err(cells.error);
      }
      onEmplace := onEmplace + cells.value;
    }
    assert lines[..|lines|] == lines;
    r := Ok(onEmplace);
  }

  /**
   * `ToRotationConverter::from`: collect the blocks, expand each one (in
   * an arbitrary order, which covers every priority order), then walk the
   * main rotation appending cells.
   */
  method From(custom: map<string, Block>, rotation: seq<string>) returns (r: Result<seq<Cell>>)
    ensures r.Ok? <==> Convert(custom, rotation).Ok?
    ensures r.Ok? ==> r.value == Convert(custom, rotation).value
  {
    var byName := CollectBlocks(custom);
    var minis := ExpandBlocks(byName);
    if minis.Err? {
      return Err(minis.error);
    }
    r := ExpandMain(minis.value, rotation);
  }

  /** The loop filling `by_name` from the `custom` table. */
  method CollectBlocks(custom: map<string, Block>) returns (byName: map<string, seq<string>>)
    ensures byName == ByName(custom)
  {
    byName := map[];
    var todo := custom.Keys;
    while todo != {}
      invariant todo <= custom.Keys
      invariant byName.Keys == custom.Keys - todo
      invariant forall k :: k in byName ==> byName[k] == custom[k].values
      decreases todo
    {
      var key :| key in todo;
      byName := byName[key := custom[key].values];
      todo := todo - {key};
    }
  }

  /** The loop filling `mini_rotations`, one block after another in any order. */
  method ExpandBlocks(byName: map<string, seq<string>>) returns (r: Result<map<string, seq<Cell>>>)
    ensures r.Ok? <==> MiniRotations(byName).Ok?
    ensures r.Ok? ==> r == MiniRotations(byName)
  {
    var minis: map<string, seq<Cell>> := map[];
    var names := byName.Keys;
    while names != {}
      invariant names <= byName.Keys
      invariant minis.Keys == byName.Keys - names
      invariant forall k :: k in minis ==> Inline(byName, byName[k]) == Ok(minis[k])
      decreases names
    {
      var name :| name in names;
      var cells := InlineBlock(byName, byName[name]);
      if cells.Err? {
        return Err(cells.error);
      }
      minis := minis[name := cells.value];
      names := names - {name};
    }
    assert minis == MiniRotations(byName).value;
    r := Ok(minis);
  }

  /** The loop over the main rotation. */
  method ExpandMain(minis: map<string, seq<Cell>>, rotation: seq<string>) returns (r: Result<seq<Cell>>)
    ensures r.Ok? <==> Expand(minis, rotation).Ok?
    ensures r.Ok? ==> r == Expand(minis, rotation)
  {
    var result: seq<Cell> := [];
    for i := 0 to |rotation|
      invariant Expand(minis, rotation[..i]) == Ok(result)
    {
      ExpandStep(minis, rotation, i);
      var cells := ExpandOne(minis, rotation[i]);
      if cells.Err? {
        ExpandPrefixErr(minis, rotation, i + 1);
        return Err(cells.error);
      }
      result := result + cells.value;
    }
    assert rotation[..|rotation|] == rotation;
    r := Ok(result);
  }

  /** One main-rotation entry: a mini rotation copied `splitted.size() × calc_loops` times, or one cell. */
  method ExpandOne(minis: map<string, seq<Cell>>, entry: string) returns (r: Result<seq<Cell>>)
    ensures r == ExpandEntry(minis, entry)
  {
    var tokens := SplitAsView(entry);
    if tokens == [] {
      return Err("empty line");
    }
    if tokens[0] in minis {
      var loops := CalcLoops(tokens);
      if loops.Err? {
        return Err(loops.error);
      }
      var cells: seq<Cell> := [];
      for j := 0 to Copies(tokens, loops.value)
        invariant cells == Repeat(minis[tokens[0]], j)
      {
        cells := cells + minis[tokens[0]];
      }
      r := Ok(cells);
    } else {
      var cell := ToRotationCell(tokens);
      if cell.Err? {
        return Err(cell.error);
      }
      r := Ok([cell.value]);
    }
  }

  // ---------------------------------------------------------------- properties

  /** "cmd" is the cell (cmd, 0) and "cmd n" the cell (cmd, n). */
  lemma CellFromText(cmd: string, n: nat)
    requires cmd != [] && Space !in cmd && n < StringFuncs.SizeMax
    ensures ToRotationCell(SplitAsView(cmd)) == Ok(Cell(cmd, 0))
    ensures ToRotationCell(SplitAsView(cmd + [Space] + StringFuncs.DecimalString(n))) == Ok(Cell(cmd, n))
  {
    SplitWord(cmd);
    TwoWords(cmd, StringFuncs.DecimalString(n));
    SvToDecimal(n);
  }

  /** Two words separated by one space split into exactly those two. */
  lemma TwoWords(w: string, v: string)
    requires Space !in w && v != [] && Space !in v
    ensures SplitAsView(w + [Space] + v) == [w, v]
  {
    SplitWords(w, v);
    StringFuncs.NoDelimFirstIndex(v, Space);
  }

  lemma DecimalHasNoSpace(n: nat)
    ensures Space !in StringFuncs.DecimalString(n)
  {
  }

  /** "name" loops once; "name n" and "name xn" loop n times. */
  lemma LoopsFromText(name: string, n: nat)
    requires name != [] && Space !in name && n < StringFuncs.SizeMax
    ensures CalcLoops(SplitAsView(name)) == Ok(1)
    ensures CalcLoops(SplitAsView(name + [Space] + StringFuncs.DecimalString(n))) == Ok(n)
    ensures CalcLoops(SplitAsView(name + [Space] + ['x'] + StringFuncs.DecimalString(n))) == Ok(n)
  {
    SplitWord(name);
    DecimalHasNoSpace(n);
    var d := StringFuncs.DecimalString(n);
    TwoWords(name, d);
    TimesToken(n);
    assert name + [Space] + ['x'] + d == name + [Space] + (['x'] + d);
    TwoWords(name, ['x'] + d);
    SvToDecimal(n);
  }

  /** "x" followed by a number, as a token: free of spaces, and the number once the 'x' is dropped. */
  lemma TimesToken(n: nat)
    ensures Space !in ['x'] + StringFuncs.DecimalString(n)
    ensures (['x'] + StringFuncs.DecimalString(n))[1..] == StringFuncs.DecimalString(n)
  {
    var d := StringFuncs.DecimalString(n);
    assert forall j :: 0 < j < |['x'] + d| ==> (['x'] + d)[j] == d[j - 1];
  }

  /** A main entry naming a mini rotation alone appends it once. */
  lemma MiniOnce(minis: map<string, seq<Cell>>, name: string)
    requires name in minis && name != [] && Space !in name
    ensures ExpandEntry(minis, name) == Ok(Repeat(minis[name], 1))
  {
    SplitWord(name);
  }

  /**
   * "name n" appends the mini rotation 2·n times, since the token count 2
   * multiplies the loop count.
   */
  lemma MiniTwice(minis: map<string, seq<Cell>>, name: string, n: nat)
    requires name in minis && name != [] && Space !in name && n < StringFuncs.SizeMax
    ensures ExpandEntry(minis, name + [Space] + StringFuncs.DecimalString(n)) == Ok(Repeat(minis[name], (2 * n) % StringFuncs.SizeMax))
  {
    var d := StringFuncs.DecimalString(n);
    TwoWords(name, d);
    SvToDecimal(n);
  }

  /** "name xn" does the same as "name n". */
  lemma MiniTimes(minis: map<string, seq<Cell>>, name: string, n: nat)
    requires name in minis && name != [] && Space !in name && n < StringFuncs.SizeMax
    ensures ExpandEntry(minis, name + [Space] + ['x'] + StringFuncs.DecimalString(n)) == Ok(Repeat(minis[name], (2 * n) % StringFuncs.SizeMax))
  {
    var d := StringFuncs.DecimalString(n);
    TimesToken(n);
    assert name + [Space] + ['x'] + d == name + [Space] + (['x'] + d);
    TwoWords(name, ['x'] + d);
    SvToDecimal(n);
  }

  /**
   * One main-rotation entry as evidently intended: a mini rotation is
   * copied `calc_loops` times, the token count taking no part; a plain
   * command is one cell, as written.
   */
  function ExpandEntryIntended(minis: map<string, seq<Cell>>, entry: string): (r: Result<seq<Cell>>)
    ensures r.Ok? <==> ExpandEntry(minis, entry).Ok?
    ensures var tokens := SplitAsView(entry);
            tokens != [] && tokens[0] !in minis ==> r == ExpandEntry(minis, entry)
  {
    var tokens := SplitAsView(entry);
    if tokens == [] then Err("empty line")
    else if tokens[0] in minis then
      var loops :- CalcLoops(tokens);
      Ok(Repeat(minis[tokens[0]], loops))
    else
      var cell :- ToRotationCell(tokens);
      Ok([cell])
  }

  /** With the intended count, "name" appends the mini rotation once, and "name n" and "name xn" n times. */
  lemma MiniLoopsIntended(minis: map<string, seq<Cell>>, name: string, n: nat)
    requires name in minis && name != [] && Space !in name && n < StringFuncs.SizeMax
    ensures ExpandEntryIntended(minis, name) == Ok(Repeat(minis[name], 1))
    ensures ExpandEntryIntended(minis, name + [Space] + StringFuncs.DecimalString(n)) == Ok(Repeat(minis[name], n))
    ensures ExpandEntryIntended(minis, name + [Space] + ['x'] + StringFuncs.DecimalString(n)) == Ok(Repeat(minis[name], n))
  {
    SplitWord(name);
    var d := StringFuncs.DecimalString(n);
    TwoWords(name, d);
    SvToDecimal(n);
    TimesToken(n);
    assert name + [Space] + ['x'] + d == name + [Space] + (['x'] + d);
    TwoWords(name, ['x'] + d);
  }

  /**
   * Expansion is append-only: the cells of a rotation split in two are
   * the cells of the first part followed by those of the second.
   */
  lemma {:induction false} ExpandAppend(minis: map<string, seq<Cell>>, a: seq<string>, b: seq<string>)
    ensures Expand(minis, a + b).Ok? <==> Expand(minis, a).Ok? && Expand(minis, b).Ok?
    ensures Expand(minis, a + b).Ok? ==> Expand(minis, a + b).value == Expand(minis, a).value + Expand(minis, b).value
    decreases |b|
  {
    if b == [] {
      assert a + b == a;
    } else {
      var b', last := b[..|b| - 1], b[|b| - 1];
      assert (a + b)[..|a + b| - 1] == a + b';
      assert (a + b)[|a + b| - 1] == last;
      ExpandAppend(minis, a, b');
      var e := ExpandEntry(minis, last);
      assert Expand(minis, a + b).Ok? <==> Expand(minis, a + b').Ok? && e.Ok?;
      assert Expand(minis, b).Ok? <==> Expand(minis, b').Ok? && e.Ok?;
      if Expand(minis, a + b).Ok? {
        var x, y, z := Expand(minis, a).value, Expand(minis, b').value, e.value;
        assert Expand(minis, a + b).value == (x + y) + z;
        assert Expand(minis, b).value == y + z;
        CellsAssoc(x, y, z);
      }
    }
  }

  lemma Halves<T>(s: seq<T>, i: nat)
    requires i <= |s|
    ensures s[..i] + s[i..] == s
  {
  }

  lemma CellsAssoc(x: seq<Cell>, y: seq<Cell>, z: seq<Cell>)
    ensures (x + y) + z == x + (y + z)
  {
  }

  /** The main rotation one entry longer: the cells so far, then the entry's. */
  lemma ExpandStep(minis: map<string, seq<Cell>>, rotation: seq<string>, i: nat)
    requires i < |rotation|
    ensures Expand(minis, rotation[..i + 1]) ==
              (var prev :- Expand(minis, rotation[..i]);
               var cells :- ExpandEntry(minis, rotation[i]);
               Ok(prev + cells))
  {
    assert rotation[..i + 1][..i] == rotation[..i];
  }

  /** A refused entry refuses the whole main rotation. */
  lemma ExpandPrefixErr(minis: map<string, seq<Cell>>, rotation: seq<string>, i: nat)
    requires i <= |rotation| && Expand(minis, rotation[..i]).Err?
    ensures Expand(minis, rotation).Err?
  {
    ExpandAppend(minis, rotation[..i], rotation[i..]);
    Halves(rotation, i);
  }

  /** Likewise a custom block: its cells are those of its first lines followed by those of the rest. */
  lemma {:induction false} InlineAppend(byName: map<string, seq<string>>, a: seq<string>, b: seq<string>)
    ensures Inline(byName, a + b).Ok? <==> Inline(byName, a).Ok? && Inline(byName, b).Ok?
    ensures Inline(byName, a + b).Ok? ==> Inline(byName, a + b).value == Inline(byName, a).value + Inline(byName, b).value
    decreases |b|
  {
    if b == [] {
      assert a + b == a;
    } else {
      var b', last := b[..|b| - 1], b[|b| - 1];
      assert (a + b)[..|a + b| - 1] == a + b';
      assert (a + b)[|a + b| - 1] == last;
      InlineAppend(byName, a, b');
      var e := InlineLine(byName, last);
      assert Inline(byName, a + b).Ok? <==> Inline(byName, a + b').Ok? && e.Ok?;
      assert Inline(byName, b).Ok? <==> Inline(byName, b').Ok? && e.Ok?;
      if Inline(byName, a + b).Ok? {
        var x, y, z := Inline(byName, a).value, Inline(byName, b').value, e.value;
        assert Inline(byName, a + b).value == (x + y) + z;
        assert Inline(byName, b).value == y + z;
        CellsAssoc(x, y, z);
      }
    }
  }

  /**
   * The length of an expanded rotation: each entry contributes its
   * copies times its mini rotation's length, or one cell.
   */
  lemma EntryLength(minis: map<string, seq<Cell>>, entry: string)
    requires ExpandEntry(minis, entry).Ok?
    ensures var tokens := SplitAsView(entry);
            |ExpandEntry(minis, entry).value| ==
              if tokens[0] in minis then Copies(tokens, CalcLoops(tokens).value) * |minis[tokens[0]]| else 1
  {
    var tokens := SplitAsView(entry);
    if tokens[0] in minis {
      RepeatLength(minis[tokens[0]], Copies(tokens, CalcLoops(tokens).value));
    }
  }

  /**
   * Inlining is one level deep: a custom line naming block `b`, whose
   * only raw line names block `c`, yields `c` as a plain cell instead of
   * inlining `c` in turn.
   */
  lemma OneLevel(byName: map<string, seq<string>>, b: string, c: string)
    requires b != [] && Space !in b && c != [] && Space !in c
    requires b in byName && byName[b] == [c] && c in byName
    ensures InlineLine(byName, b) == Ok([Cell(c, 0)])
    ensures Inline(byName, [b]) == Ok([Cell(c, 0)])
  {
    SplitWord(b);
    SplitWord(c);
    assert [c][..0] == [];
    assert ToRotationCell(SplitAsView(c)) == Ok(Cell(c, 0));
    assert ConvertLines([c]) == Ok([] + [Cell(c, 0)]);
    assert Repeat([Cell(c, 0)], 1) == [Cell(c, 0)];
    assert InlineLine(byName, b) == Ok([Cell(c, 0)]);
    assert [b][..0] == [];
  }

  /** The priorities never matter: blocks with the same lines give the same rotation. */
  lemma PrioritiesIrrelevant(custom: map<string, Block>, other: map<string, Block>, rotation: seq<string>)
    requires custom.Keys == other.Keys
    requires forall k :: k in custom ==> custom[k].values == other[k].values
    ensures Convert(custom, rotation) == Convert(other, rotation)
  {
    assert ByName(custom) == ByName(other);
  }
}
