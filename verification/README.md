# 3ZCalculator core, modelled in Dafny

3ZCalculator is a damage calculator for a gear-based action game, written in C++. A *build* has these parts:

- an agent, with its skills, their scales and its anomalies;
- a W-engine;
- up to six drive discs, each with a slot, a rarity, a main stat and up to four sub stats;
- the 2-piece and 4-piece bonuses of the drive disc sets that at least two or four discs share;
- a rotation, the ordered list of abilities the agent uses.

The calculator sums every stat of the build into one *stats grid*, a map from a stat qualifier (stat id and tag) to a stat. It then prices each rotation cell as a skill hit or an anomaly against a fixed enemy, and returns the per-cell damages and their total. Some stats are *relative*: their value is a formula, in a small infix language, over the other stats of the grid. Requests, agents, W-engines and sets arrive as JSON, read by the vendored `utl::json` library.

Several generations of the same component sit side by side in the repository and do not agree with each other:

- two stat enumerations (`StatType`, `StatId`);
- two stats grids;
- two drive disc piece builders;
- two rotation converters;
- two calculators;
- two infix parsers.

Each source file is modelled as its own module, on its own terms, and the generations are not linked into one program.

The model has three layers:

- **Values and functions** describe what each operation computes:
  - the enum tables;
  - the formula tokenizer, the shunting-yard reordering and the postfix evaluator;
  - stat values and grids;
  - the stat tables of the drive discs;
  - rotation expansion;
  - the set-bonus tiers;
  - damage;
  - the JSON text read and written.
- **Classes and methods** follow the source where it changes state step by step:
  - the builders, with their flags and `is_built` / `get_product`;
  - the JSON parser, with its recursion depth, and the JSON writer, with its buffer;
  - the object cache and its sweep;
  - the request preparation loops;
  - the calculators' loops.

  Each method is proved to compute what the matching function says.
- **Lemmas**. The main lemmas are:
  - enum round trips, and where they fail;
  - UTF-8 and UTF-16 round trips;
  - parsing the minimized JSON writer's output gives the node back (`JsonRoundTrip.FromStringRoundTrip`);
  - a well-formed infix formula reorders into a well-formed postfix one;
  - grid addition accumulates bases;
  - the set-bonus tiers are exactly the sets that at least two or four discs carry;
  - the per-cell damages of a rotation are computed independently and sum to the total;
  - `eval_detailed` agrees with `eval`.

Modelling conventions:

- Stat values and damage are `real`. No IEEE precision is modelled.
- Integers are unbounded. The source's widths are written out where they matter: `uint8_t` narrowing, 64-bit `unsigned long`, and the `int64_t` range of JSON integers.
- A name hashed with `lib::hash` is keyed by the name itself; the hash is taken to be injective.
- A thrown exception is an `Err` value of a `Result`.
- Behaviour the C++ leaves undefined is modelled in one of two ways.
  - As an `Err`:
    - an element read past the end of a `stats`, `levels`, `scales` or `res` array;
    - an empty rotation line, whose first piece is read past the end;
    - the indeterminate value a failed `from_chars` leaves behind in `sv_to`, for a rotation index;
    - a rarity outside B, A and S that reaches a stat table from the request's disc entries.
  - As a precondition, where a caller must already satisfy what the source silently assumes:
    - `DriveDiscPiece.DdpBuilder.AddSubStat`: at most four sub stats (`currentSubStat < 4`), since a fifth would write past the array;
    - the builders' `SetMainStat` and `AddSubStat` (`DriveDiscPiece`, `Ddp`): a rated rarity, but only on the path that reads a stat table;
    - `RequestDetails` (`Slotted`, `Pieces`, `PiecesMeaning`, `PieceSlots`, `Request.Prepare`, `DiscsFit`) and `Converters` (`DiscSlots`, `Convert`, `BuildAll`, `Fits`, `RequestFits`): at most six discs, the size of the disc array;
    - `MathParser.Tokenize`, `Rpn.Tokenize` and `Infix.TokenizedReorders` (`Lexable`): every character is one the tokenizer recognises. The source's tokenizer does not advance on any other character (src/library/rpn.cpp:59-83, src/math/parser.cpp:71-92), so it never ends;
    - `Infix.ShuntingYard`, `Rpn.ShuntingYard` and `MathParser.ShuntingYard` (`Closes`): every ')' closes an earlier '(', since otherwise an empty `std::stack` is popped;
    - `RelativeStat` evaluation (`Runnable`) and `Grid` insertion (`Admissible`): no operator pops an empty RPN stack;
    - the `EnumsConvert` printers (`StatTypeToString`, `TagToStringAsWritten`, `SpecialityToStringAsWritten`, `ElementToStringAsWritten`): a value below the enumeration's count;
    - `Grid.StatsGrid.SetBaseAt`: the key is present, since `at` on an absent key dereferences a null pointer;
    - `StringFuncs.SvTo`: the text starts with a digit and its value is below `SIZE_MAX` (`Funcs.SvTo` is the total version).
- File loading and the game data files are parameters: the content a load ends with, or the error it throws.

The crit rate is capped at 100 in `calc` (src/calc/calculator.cpp:63, 93) and not in `backend`; no value is rounded.

## Model

| member | source | states |
|---|---|---|
| Funcs.Pieces | src/library/funcs.hpp:26-34 | Every piece is free of spaces and there is one more piece than spaces (PiecesHaveNoSpace); `Pieces("") == [""]`. |
| Funcs.SplitAsView | src/library/funcs.hpp:26-34 | `split_as_view` splits at every space, ignoring `delim`; an empty source has no pieces. |
| Funcs.SplitWord | src/library/funcs.hpp:26-34 | A word without spaces is a single piece. |
| Funcs.SplitWords | src/library/funcs.hpp:26-34 | A word followed by a space and a rest: the word, then the pieces of the rest. |
| Funcs.PiecesHaveNoSpace | src/library/funcs.hpp:26-34 | Every piece is free of spaces, and there is one more piece than there are spaces. |
| Funcs.SvTo | src/library/funcs.hpp:47-53 | `sv_to<size_t>`: the value of the leading digits when a digit comes first and the number fits 64 bits; None for the indeterminate value otherwise. |
| Funcs.SvToDecimal | src/library/funcs.hpp:47-53 | A number printed in decimal reads back as itself. |
| StringFuncs.FirstIndexOf | src/library/string_funcs.hpp:14-28 | Index of the first delimiter, or the length when there is none (FirstIndexOfIsFirst). |
| StringFuncs.FirstIndexOfIsFirst | src/library/string_funcs.hpp:14-28 | The index found is the first delimiter: none before it, and one there unless it is \|s\|. |
| StringFuncs.SplitAsView | src/library/string_funcs.hpp:14-28 | The loop cuts at every delimiter and keeps a non-empty tail: its result equals `Split(source, delim)`, whose pieces hold no delimiter and join back to the source. |
| StringFuncs.CutAt | src/library/string_funcs.hpp:18-23 | One step of the loop: the piece from `pos` ends at the delimiter at `i`. |
| StringFuncs.CutTail | src/library/string_funcs.hpp:24-25 | After the loop: what is left from `pos` holds no delimiter, so it is one piece or none. |
| StringFuncs.SplitAsCopy | src/library/string_funcs.hpp:29-43 | The same loop producing owned strings: its result equals `Split(source, delim)`. |
| StringFuncs.SplitAt | src/library/string_funcs.hpp:14-28 | A split at the first delimiter. |
| StringFuncs.SplitPiecesHaveNoDelim | src/library/string_funcs.hpp:14-28 | No piece contains the delimiter. |
| StringFuncs.SplitCount | src/library/string_funcs.hpp:14-28 | The number of pieces is the number of delimiters, plus one for a non-empty unterminated tail. |
| StringFuncs.SplitJoin | src/library/string_funcs.hpp:14-28 | Joining the pieces gives the source back unless the source ends with the delimiter. |
| StringFuncs.JoinCons | src/library/string_funcs.hpp:14-28 | Joining a first piece in front of at least one more. |
| StringFuncs.LeadingDelimiter | src/library/string_funcs.hpp:18-23 | Leading and doubled delimiters give empty pieces. |
| StringFuncs.TrailingDelimiter | src/library/string_funcs.hpp:24-25 | A delimiter appended to a non-empty, unterminated source adds no piece; otherwise it adds an empty one. |
| StringFuncs.DigitPrefix | src/library/string_funcs.hpp:45-51 | The longest prefix of decimal digits: all digits, and the next character is not one. |
| StringFuncs.DecimalString | src/library/string_funcs.hpp:45-51 | The decimal spelling of a number, no sign and no leading zeros: the reference `sv_to` reads back (SvToDecimal). |
| StringFuncs.SvTo | src/library/string_funcs.hpp:45-51 | `sv_to<size_t>`: the value of the leading digits, defined when a digit comes first and the number fits 64 bits. |
| StringFuncs.SvToDecimal | src/library/string_funcs.hpp:45-51 | Reading back a printed number, followed by anything but a digit, gives the number. |
| TemplateMath.ToSChar | src/library/template_math.hpp:7-8 | A code point below 0x100 read back through a signed `char`: at most 0x7f unchanged, otherwise 256 less. |
| TemplateMath.Trunc | src/library/template_math.hpp:21-22 | Rounding toward zero: magnitude at most the argument's, off by less than one, same sign. |
| TemplateMath.BoolToReal | src/library/template_math.hpp:24-43 | `true` is 1.0 and `false` is 0.0. |
| TemplateMath.SwitchMathOp | src/library/template_math.hpp:7-48 | `switch_math_op`: an unknown code throws; arithmetic, comparison and logic codes give their results (Arithmetic, Division, Remainder, Comparisons); a zero divisor is an error value. |
| TemplateMath.Arithmetic | src/library/template_math.hpp:9-16 | The four arithmetic codes compute the exact arithmetic result. |
| TemplateMath.Division | src/library/template_math.hpp:18-19 | '/' by a non-zero divisor is the exact quotient. |
| TemplateMath.Remainder | src/library/template_math.hpp:21-22 | '%' leaves a remainder that has the dividend's sign, is smaller than the divisor in magnitude, and completes an integral multiple of the divisor. |
| TemplateMath.SmallFactor | src/library/template_math.hpp:15-16 | A factor below one in magnitude shrinks a product and keeps signs. |
| TemplateMath.Comparisons | src/library/template_math.hpp:24-43 | Comparisons and logic give 1.0 exactly when the relation holds. |
| TemplateMath.WideCodesThrow | src/library/template_math.hpp:30-37 | The cases labelled 0x80 ("<=") and 0x81 (">=") can never be taken: those codes read through a signed `char` become -128 and -127, which the switch sends to its throwing default. |
| StatsMath.Compute | src/zzz/stats_math.hpp:9-23 | The number an operator computes from two numbers: sum, difference, product, quotient, `fmod`; a zero divisor is an error value. |
| StatsMath.ScalarOp | src/zzz/stats_math.hpp:25-39 | `operator op(const stat&, double)`: the result carries the left stat's type and tag. |
| StatsMath.StatOp | src/zzz/stats_math.hpp:9-23 | `operator op(const stat&, const stat&)`: only the right stat's value takes part. |
| StatsMath.RightOperandIsItsValue | src/zzz/stats_math.hpp:9-23 | The right stat's type and tag are ignored: a stat on the right acts as its value would, and two right operands with equal values give equal results whatever their types and tags. |
| StatsMath.CommutingValues | src/zzz/stats_math.hpp:9-16 | '+' and '*' give the same value in either order, though the type and tag follow the left stat. |
| StatsMath.MinusUndoesPlus | src/zzz/stats_math.hpp:9-14 | '-' undoes '+', keeping the left stat's type and tag. |
| StatBasic.Hash | src/zzz/stats/basic.hpp:16 | `qualifier_t::hash`: the id in the low byte, the tag in the high one. |
| StatBasic.HashInjective | src/zzz/stats/basic.hpp:12-17 | Distinct qualifiers never share a hash, so a grid keyed by it keeps them apart. |
| StatBasic.Type | src/zzz/stats/basic.hpp:32 | `IStat::type()`: 1 for a regular stat, 2 for a relative one. |
| StatBasic.WithBase | src/zzz/stats/basic.hpp:29 | Writing through `base()` changes only the base; the qualifier and type are kept. |
| Enums.ElementFromString | src/zzz/enums.hpp:67-73 | `Element::_from_string`: a known name gives its element, an unknown name gives None. |
| Enums.TagFromString | src/zzz/enums.hpp:141-154 | `Tag::_from_string`: a known name gives its tag, an unknown name gives Universal. |
| Enums.SpecialityFromString | src/zzz/enums.hpp:227-237 | `Speciality::_from_string`: a known name gives its speciality, an unknown name gives None. |
| Enums.RarityFromString | src/zzz/enums.hpp:306-312 | `Rarity::_from_string`: only "B", "A" and "S" are known; anything else is NotSet. |
| Enums.RarityFromChar | src/zzz/enums.hpp:324-335 | `Rarity::_from_char`: 'B', 'A', 'S' give their rarity, any other character NotSet. |
| Enums.RarityToChar | src/zzz/enums.hpp:336-345 | `Rarity::_to_char`: the letter of B, A and S, NUL for every other value. |
| Enums.StatFromString | src/zzz/enums.hpp:419-440 | `StatId::_from_string`: a known name gives its stat, an unknown name gives None. |
| Enums.AddElement | src/zzz/enums.hpp:464-475 | `StatId + Element`: only DmgRatio and ResPen may be offset by an element, anything else throws; the sum is the per-element stat (AddElementRatioNames, AddElementResPenNames). |
| Enums.ElementRoundTrip | src/zzz/enums.hpp:67-83 | Printing then parsing gives every element back, parsing then printing every known name; a value past the table prints as None. |
| Enums.TagRoundTrip | src/zzz/enums.hpp:141-170 | Printing then parsing gives every tag back; a value past the table prints as Universal; the empty name parses to Universal. |
| Enums.SpecialityRoundTrip | src/zzz/enums.hpp:227-247 | Printing then parsing gives every speciality back, parsing then printing every known name; a value past the table prints as None. |
| Enums.StatRoundTrip | src/zzz/enums.hpp:419-461 | Printing then parsing gives every one of the 44 stats back; a value past the table prints as None; the empty name parses to None. |
| Enums.RarityRoundTrip | src/zzz/enums.hpp:306-345 | The rarity letters and names round-trip for B, A and S; NotSet and value 1 both print "not_set", NotSet prints as the NUL character. |
| Enums.AddElementRatioNames | src/zzz/enums.hpp:464-475 | The element offset lands exactly on the per-element stat: its printed name is the element's name followed by "_ratio" (or "_res_pen" below). |
| Enums.AddElementResPenNames | src/zzz/enums.hpp:464-475 | ResPen offset by an element lands on the stat printed as the element's name followed by "_res_pen". |
| Enums.AddElementIdentity | src/zzz/enums.hpp:464-475 | Offsetting by None is the identity; any other base stat throws. |
| EnumsConvert.StringToStatType | src/zzz/enums.cpp:179-181 | `string_to_stat_type`: an unknown name throws; a known one agrees with `StatId`'s parser. |
| EnumsConvert.StringToTag | src/zzz/enums.cpp:196-198 | `string_to_tag`: an unknown name throws; a known one agrees with `Tag`'s parser. |
| EnumsConvert.StringToSpeciality | src/zzz/enums.cpp:213-215 | `string_to_speciality`: an unknown name throws; a known one agrees with `Speciality`'s parser. |
| EnumsConvert.StringToElement | src/zzz/enums.cpp:230-232 | `string_to_element`: an unknown name throws; a known one agrees with `Element`'s parser. |
| EnumsConvert.StatTypeRoundTrip | src/zzz/enums.cpp:10-101 | The stat-type tables are inverse to each other on all 44 values and all 44 names. |
| EnumsConvert.StatTypeNamesRoundTrip | src/zzz/enums.cpp:10-101 | Parsing then printing gives every one of the 44 stat-type names back. |
| EnumsConvert.TagRoundTripAsWritten | src/zzz/enums.cpp:103-131 | As written, the tag round trip holds for twelve tags and throws for FollowupAssist. |
| EnumsConvert.TagRoundTripCorrected | src/zzz/enums.cpp:103-131 | With the corrected spelling the tag round trip holds for all thirteen tags. |
| EnumsConvert.ElementRoundTripAsWritten | src/zzz/enums.cpp:149-163 | As written, printing is off by one against the enumeration's numbering: Physical prints "fire", which parses back to Fire, and Ether prints the empty entry, which does not parse at all. |
| EnumsConvert.ElementRoundTripCorrected | src/zzz/enums.cpp:149-163 | With the table shifted by one, printing and parsing are inverse on Physical..Ether. |
| EnumsConvert.SpecialityRoundTripAsWritten | src/zzz/enums.cpp:134-147 | The same off-by-one for specialities: Attack prints "anomaly". |
| EnumsConvert.SpecialityRoundTripCorrected | src/zzz/enums.cpp:134-147 | With the table shifted by one, printing and parsing are inverse on Attack..Defense. |
| Stats.Make | src/zzz/stats.cpp:25-33 | `RegularStat::make(base, id, tag)`: a regular stat whose value is the given base, id and tag. |
| Stats.CopyAsPtr | src/zzz/stats.cpp:57-65 | `copy_as_ptr()`: a fresh stat with the same base, id and tag, and so the same value. |
| Stats.MakeFromFloating | src/zzz/stats.cpp:35-42 | `make_from_floating`: Ok exactly when the node holds a floating number; the base is that number, the tag Universal, and the id the one the caller passes in place of `json.key()`. |
| Stats.MakeFromObject | src/zzz/stats.cpp:43-51 | `make_from_object`: the base is the floating "val" (a missing key throws); the tag is named by "tag", "universal" when absent; an unknown tag name throws. |
| Stats.RunMaker | src/zzz/stats.cpp:73-80 | Running a maker: the two relative stubs give a null pointer without looking at the node; the regular makers are `make_from_object` and `make_from_floating`. |
| Stats.Digit | src/zzz/stats.cpp:105 | The decimal digit `std::to_string` writes for a type index below ten. |
| Stats.StatFactory.constructor | src/zzz/stats.hpp:47-86 | A factory before `init_default`: no makers, an empty default type name. |
| Stats.StatFactory.InitDefault | src/zzz/stats.cpp:88-96 | `init_default()`: the type name "regular" and exactly the four default makers. |
| Stats.StatFactory.AddMaker | src/zzz/stats.cpp:98-101 | `add_maker`: inserts only under a new key and returns whether it did; an existing maker is kept. |
| Stats.StatFactory.Key | src/zzz/stats.cpp:104-106 | The key `make` looks up: an object's "type" (the default name when absent; a non-string throws) then a space and the node's type index; any other node the default name. |
| Stats.StatFactory.Make | src/zzz/stats.cpp:103-109 | `make(json)`: a registered key runs its maker on the node, an unknown key gives a null pointer, and a key that cannot be formed throws. |
| Stats.DefaultFactoryReach | src/zzz/stats.cpp:88-109 | With the default registry, a non-object node looks up "regular", which is not registered, so it yields a null pointer; and since an object's key always ends in " 1", the floating maker registered as "regular 5" is never reached. |
| Stats.DefaultFactoryObject | src/zzz/stats.cpp:88-109 | Under the default registry an object without "type" is made by `make_from_object`. |
| KeyedGrid.GenKey | src/zzz/stats_grid.cpp:10-12 | `gen_key(id, tag)`: the tag in the high bits, the id in the low byte. |
| KeyedGrid.GenKeyInjective | src/zzz/stats_grid.cpp:10-12 | Distinct (id, tag) pairs get distinct keys. |
| KeyedGrid.Added | src/zzz/stats_grid.cpp:76-83 | `add(RegularStat)` on a map: the base goes into the stored stat, or the stat is inserted (AddedValues). |
| KeyedGrid.AddedValues | src/zzz/stats_grid.cpp:76-83 | After `add(s)`, the value under `s`'s own (id, tag) has grown by `s`'s base; no other value changes. |
| KeyedGrid.SummedSkip | src/zzz/stats_grid.cpp:97-105 | Visiting a key that `b` lacks changes nothing. |
| KeyedGrid.SummedAdd | src/zzz/stats_grid.cpp:97-105 | Visiting a key `h` of `b` is `add(b[h])` on the map built so far. |
| KeyedGrid.SummedValues | src/zzz/stats_grid.cpp:97-105 | The meaning of `add(grid)`: every value becomes the sum of the two grids' values, so a key of only one grid keeps that grid's value. |
| KeyedGrid.StatsGrid.constructor | src/zzz/stats_grid.hpp:40 | An empty grid. |
| KeyedGrid.StatsGrid.Get | src/zzz/stats_grid.cpp:38-41 | `get(id, tag)`: the value of the stat of exactly that id and tag, 0.0 when there is none. |
| KeyedGrid.StatsGrid.GetSummed | src/zzz/stats_grid.cpp:42-59 | `get_summed(id, tag)`: the Universal value plus, for another tag, that tag's value; but 0.0 whenever there is no Universal entry, even if the tagged one exists. |
| KeyedGrid.StatsGrid.At | src/zzz/stats_grid.cpp:68-74 | The const `at(id, tag)`: the stored base, or an exception when the key is absent. |
| KeyedGrid.StatsGrid.SetAt | src/zzz/stats_grid.cpp:61-67 | Writing through the non-const `at(id, tag)`: the stored base becomes `b`; an absent key throws and nothing changes. |
| KeyedGrid.StatsGrid.Add | src/zzz/stats_grid.cpp:76-83 | `add(RegularStat)`: the stat's own value grows by its base, all other values are unchanged. |
| KeyedGrid.StatsGrid.AddRegular | src/zzz/stats_grid.cpp:84-92 | `add_regular(value, id, tag)`: `add` of the regular stat with that base, id and tag. |
| KeyedGrid.StatsGrid.AddRelative | src/zzz/stats_grid.cpp:94-95 | `add(RelativeStat)` and `add_relative(formula, id, tag)` are empty: the grid is unchanged. |
| KeyedGrid.StatsGrid.AddGrid | src/zzz/stats_grid.cpp:97-105 | `add(another)`: every value becomes the sum of the two grids' values; `another` may be this grid, whose values then double. |
| Grid.AddAsCopy | src/zzz/stats/regular.cpp:49-79 | `add_as_copy` dispatched on the stat already in the grid: the holder's qualifier, the bases added; only relative plus relative throws. |
| Grid.Inserted | src/zzz/stats/grid.cpp:68-75 | What `add(stat)` leaves in the map: a copy under a new key, `add_as_copy` under a taken one, or the exception. |
| Grid.MergedMeaning | src/zzz/stats/grid.cpp:76-79 | The meaning of `add(grid)`: the key set becomes the union; a key of one grid only keeps that grid's stat; a key of both gets the sum, which for two regular stats is regular with the bases added. |
| Grid.MergedSkip | src/zzz/stats/grid.cpp:76-79 | Passing a key `h` that `b` lacks changes nothing. |
| Grid.MergedAdd | src/zzz/stats/grid.cpp:76-79 | Passing a key `h` of `b` performs `add(b[h])` on the map built so far. |
| Grid.ParseOne | src/zzz/stats/grid.cpp:17-25 | One element of `StatsGrid::make_from`'s input: it must be an array (`as_array` throws otherwise) and is read as a regular stat; one whose last item is a string (a relative stat) throws "TODO". |
| Grid.ParseEntries | src/zzz/stats/grid.cpp:17-25 | Every element read in order; the first failing one decides the exception (ParseNext, ParseStops). |
| Grid.ParseNext | src/zzz/stats/grid.cpp:17-25 | Reading one more element of a prefix. |
| Grid.ParseStops | src/zzz/stats/grid.cpp:17-25 | An element that fails to read makes every longer prefix fail. |
| Grid.AccumulateSums | src/zzz/stats/grid.cpp:14-26 | Adding regular stats never throws; the result holds one regular stat per qualifier that occurs, whose base is the sum of that qualifier's bases. |
| Grid.NotPresentSum | src/zzz/stats/grid.cpp:14-26 | A key no stat of `ss` sits under sums to zero. |
| Grid.AccumulateKeyed | src/zzz/stats/grid.cpp:14-26 | Adding admissible stats one by one keeps every entry under its own key. |
| Grid.FromNode | src/zzz/stats/grid.hpp:21 | `make_from` on a JSON value: it must be an array, and an empty element, whose `back()` would be read, is refused. |
| Grid.MergedKeyed | src/zzz/stats/grid.cpp:76-79 | `add(grid)` of two well-keyed grids leaves a well-keyed grid. |
| Grid.RegularMerge | src/zzz/stats/grid.cpp:76-79 | `add(grid)` of two all-regular grids never throws, keeps every entry regular and under its own key, and adds the bases key by key. |
| Grid.ValueIn | src/zzz/stats/grid.cpp:49-52 | `get_value(qualifier)` on a grid's entries: the value of the stat under the qualifier, 0.0 when there is none; a relative stat's value may throw. |
| Grid.StatsGrid.constructor | src/zzz/stats/grid.cpp:30-32 | The copy constructor: `add(another)` into an empty grid gives an equal grid. |
| Grid.StatsGrid.GetValue | src/zzz/stats/grid.cpp:49-52 | `get_value(qualifier)`: the value of the stat under the qualifier, 0.0 when there is none; a relative stat's value may throw. |
| Grid.StatsGrid.At | src/zzz/stats/grid.cpp:62-64 | The const `at(qualifier)`: the stat of exactly that qualifier; `map::at` throws when absent. |
| Grid.StatsGrid.Set | src/zzz/stats/grid.cpp:53-55 | `set(stat)`: the stat replaces whatever sat under its own key; no other entry changes. |
| Grid.StatsGrid.SetBaseAt | src/zzz/stats/grid.cpp:59-61 | The non-const `at(qualifier)`, used to write the base of an existing stat: only that entry's base changes. An absent key default-inserts a null pointer that is then dereferenced, so the key must be present. |
| Grid.StatsGrid.Add | src/zzz/stats/grid.cpp:68-75 | `add(stat)`: a copy is inserted under a new key; under a taken key the entry becomes `add_as_copy` of the two, which throws (leaving the grid unchanged) for two relative stats. |
| Grid.StatsGrid.AddGrid | src/zzz/stats/grid.cpp:76-79 | `add(another)`: the other grid's stats are added in ascending key order. The first key where both grids hold a relative stat throws, after the keys before it have been added. `another` may be this grid. |
| Grid.StatsGrid.Assign | src/zzz/stats/grid.cpp:33-37 | The copy assignment as written: clear, then `add(another)`. When `another` is this very grid the clearing empties it first, so a self-assignment loses every stat. |
| Grid.StatsGrid.AssignChecked | src/zzz/stats/grid.cpp:33-37 | The copy assignment with the self-assignment guard: the grid always ends equal to `another`. |
| Grid.StatsGrid.MoveAssign | src/zzz/stats/grid.cpp:39-45 | The move constructor and move assignment: the entries are taken over as they are. |
| Grid.MakeFrom | src/zzz/stats/grid.cpp:14-26 | `make_from(array)`: one regular stat per element, added in order; a relative element throws "TODO"; the grid holds the summed bases per qualifier. |
| Grid.SelfAssignmentLosesStats | src/zzz/stats/grid.cpp:33-37 | The self-assignment defect, on a concrete grid: one stat is added, the grid is assigned to itself, and it ends empty. |
| RegularStat.Make | src/zzz/stats/regular.cpp:13-15 | `make(id, tag, conditional, base)`: a regular stat carrying exactly those fields, whose value is its base. |
| RegularStat.MakeFrom | src/zzz/stats/regular.cpp:16-37 | `RegularStat::make_from(array)`: `[id, conditional, value]` under the Universal tag, or `[id, tag, conditional, value]`; names are read with the enumerations' string constructors (an unknown name gives the default), a wrong JSON type throws, and any other length throws. |
| RegularStat.MakeFromRoundTrip | src/zzz/stats/regular.cpp:16-37 | Writing a regular stat out as `[name, tag name, conditional, base]` and reading it back gives the same stat, for every in-range id and tag. |
| RegularStat.AddAsCopy | src/zzz/stats/regular.cpp:49-79 | `RegularStat::add_as_copy(another)`: a fresh stat with this stat's qualifier and flag and the two bases summed. Against a regular stat it is regular; against a relative one it is relative with the other's formulas (and, being new, without a lookup table). |
| RegularStat.AddValues | src/zzz/stats/regular.cpp:49-61 | Adding regular stats is adding their values, in either order. |
| RelativeStat.MathOpCode | src/zzz/stats/relative.cpp:72-76 | The operator code `math_ops` binds to each operator token; no entry for parentheses, numbers and names. |
| RelativeStat.ToStatToken | src/zzz/stats/relative.cpp:30-40 | One postfix token as a `StatToken`: names become stats, the rest keep their number. |
| RelativeStat.ToStatTokens | src/zzz/stats/relative.cpp:28-40 | The postfix tokens converted one by one, in order. |
| RelativeStat.CompileFormula | src/zzz/stats/relative.cpp:21-40 | The body of the loop of `make_formulas` for one formula text: tokenize, reorder, then turn each postfix token into a `StatToken`. |
| RelativeStat.MakeFormulas | src/zzz/stats/relative.cpp:16-47 | `make_formulas(source)`: split on ';', then each part on ':'; the first part with a given key wins. |
| RelativeStat.AddPartsKeys | src/zzz/stats/relative.cpp:19-45 | Earlier entries are never replaced, and every part's key ends up present. |
| RelativeStat.AddPartsKeeps | src/zzz/stats/relative.cpp:43 | An entry already present survives the rest of the parts. |
| RelativeStat.AddPartsFirstWins | src/zzz/stats/relative.cpp:43 | The formula kept under a key is the one of the first part carrying that key. |
| RelativeStat.FormulasOfSource | src/zzz/stats/relative.cpp:16-47 | The keys of the compiled formulas are exactly the parts' keys, and each key holds the formula of the first part that carries it. |
| RelativeStat.StackHeight | src/zzz/stats/relative.cpp:49-83 | The stack holds as many values as the height says. |
| RelativeStat.StackErrorSticks | src/zzz/stats/relative.cpp:49-83 | An error stays an error, with its message, whatever follows. |
| RelativeStat.StackNext | src/zzz/stats/relative.cpp:52-77 | One more token: the stack and the height advance by one step. |
| RelativeStat.EvalToken | src/zzz/stats/relative.cpp:52-77 | One pass of the loop of `eval`: a number or a stat's value is pushed; an operator pops rhs, then lhs, and pushes `math_ops[kind](lhs, rhs)`. |
| RelativeStat.Eval | src/zzz/stats/relative.cpp:49-83 | `eval(rpn, variables)`: drives a stack of doubles over the postfix tokens; afterwards a stack with more than one value throws. |
| RelativeStat.EvalStopsAt | src/zzz/stats/relative.cpp:52-77 | The first failing token decides what `eval` throws. |
| RelativeStat.EvalEnds | src/zzz/stats/relative.cpp:79-82 | A stack that survives every token is checked for a single value. |
| RelativeStat.EvalPostfix | src/zzz/stats/relative.cpp:49-83 | Evaluating the postfix form of a tree on top of any stack pushes the tree's value, or stops with the tree's first error. |
| RelativeStat.EvalPostfixApply | src/zzz/stats/relative.cpp:67-76 | The `Apply` case of `EvalPostfix`: both operands, then the operator. |
| RelativeStat.CompiledHeight | src/zzz/stats/relative.cpp:49-83 | A formula the tokenizer reads as a well-formed infix expression compiles to a sequence `eval` runs without an undefined pop and ends with exactly one value, so it never throws for a leftover stack. |
| RelativeStat.CompiledStep | src/zzz/stats/relative.cpp:30-40 | One more compiled token moves the height exactly as the rpn token does. |
| RelativeStat.Value | src/zzz/stats/relative.cpp:135-152 | `RelativeStat::value()`. Without a lookup table it throws. A 'c' formula that evaluates to zero yields the base alone; otherwise the 'f' formula (whose absence makes `at` throw), capped by 'm' when present, is added to the base. |
| RelativeStat.ConditionOff | src/zzz/stats/relative.cpp:139-141 | A condition that evaluates to zero switches the formula off: the value is the base. |
| RelativeStat.FormulaOn | src/zzz/stats/relative.cpp:143-151 | Otherwise the value is the base plus 'f', and never more than the base plus the cap 'm' when there is one. |
| RelativeStat.MissingFormula | src/zzz/stats/relative.cpp:143 | Without an 'f' formula and with the condition on, `at('f')` throws. |
| RelativeStat.WithLookup | src/zzz/stats/relative.cpp:156 | `RelativeStat::lookup_table(stats)`: attaches the grid's values; nothing else changes. |
| RelativeStat.AddAsCopy | src/zzz/stats/relative.cpp:158-180 | `RelativeStat::add_as_copy(another)`: against a regular stat, a fresh relative stat with the summed base and this stat's qualifier, flag and formulas (and no lookup table); against a relative stat it throws. |
| RelativeStat.Make | src/zzz/stats/relative.cpp:87-92 | `make(id, tag, conditional, base, source)`: the formulas compiled from the source, no lookup table yet. |
| RelativeStat.MakeFrom | src/zzz/stats/relative.cpp:93-116 | `RelativeStat::make_from(array)`: `[id, conditional, base, formulas]` under the Universal tag, or `[id, tag, conditional, base, formulas]`; a wrong JSON type throws, any other length throws. |
| RelativeStat.WellFormedFormulaRuns | src/zzz/stats/relative.cpp:16-83 | A formula the tokenizer reads as a well-formed infix expression compiles, and `eval` runs its postfix form to exactly one value. |
| Infix.PrimitiveKind | src/library/rpn.cpp:18-22 | The one-character tokens of each file: the rpn dialect also has '&' and '\|', the math dialect does not (src/math/parser.cpp:18-21). |
| Infix.Precedence | src/library/rpn.cpp:26-32 | The `precedence` table of each file (src/math/parser.cpp:25-29 for the math dialect); a kind missing from it gets 0. |
| Infix.PrecedenceOrder | src/library/rpn.cpp:26-32 | In both tables comparisons bind tighter than arithmetic and '=' tightest. |
| Infix.WithoutBlanks | src/library/rpn.cpp:57 | `remove_chars(what, " \t\n")`: spaces, tabs and newlines deleted, every other character kept in order (WithoutBlanksKeeps). |
| Infix.WithoutBlanksKeeps | src/library/rpn.cpp:57 | Deleting blanks keeps every other character, in order, and only those. |
| Infix.DigitRunEnd | src/library/rpn.cpp:34-42 | The end of the run of digits starting at a position (DigitRun). |
| Infix.DigitRun | src/library/rpn.cpp:34-42 | The run holds digits only and stops at the first non-digit (or the end). |
| Infix.WordRunEnd | src/library/rpn.cpp:43-51 | The end of the run of letters, digits and '_' starting at a position (WordRun). |
| Infix.WordRun | src/library/rpn.cpp:43-51 | The run holds word characters only and stops at the first other one (or the end). |
| Infix.MantissaEnd | src/library/rpn.cpp:34-42 | End of the digits, '.' and fraction digits of a literal starting at a digit. |
| Infix.NumberEnd | src/library/rpn.cpp:34-42 | End of the `from_chars` literal that starts with a digit: past the mantissa and an optional exponent. |
| Infix.NumberValue | src/library/rpn.cpp:34-42 | The exact value of the literal: a non-negative number. |
| Infix.Lex | src/library/rpn.cpp:60-84 | The token starting at a position of the blank-free text and where it ends: "<=" and ">=" (rpn dialect only) first, then a primitive character, a number at a digit, a name at a letter; an unrecognised character is None. |
| Infix.LexFacts | src/library/rpn.cpp:60-84 | A token's text is the stretch of input it was read from, and it has the shape of its kind. |
| Infix.NameShape | src/library/rpn.cpp:43-51 | A name read at a letter is a letter followed by word characters. |
| Infix.TokenizeAdvance | src/library/rpn.cpp:55-87 | Reading the token at i keeps the tokenizer's loop invariant. |
| Infix.TokenizeDone | src/library/rpn.cpp:55-87 | At the end of the text every token has been read. |
| Infix.TokenizeFirst | src/library/rpn.cpp:55-87 | The first token of a tokenizable text, where it ends, and what follows it. |
| Infix.TokenizeCovers | src/library/rpn.cpp:55-87 | The tokens' texts, read in order, spell the blank-free input exactly. |
| Infix.MinusIsOperator | src/library/rpn.cpp:67-70 | '-' is always the minus operator, never the sign of a literal. |
| Infix.TwoCharacterComparisons | src/library/rpn.cpp:61-66 | "<=" and ">=" are single tokens in the rpn dialect, tried before the one-character '<' and '>'; the math dialect reads them as two tokens. |
| Infix.LexOne | src/library/rpn.cpp:67-69 | A primitive character that starts no two-character token is a token of its own. |
| Infix.ParenCount | src/library/rpn.cpp:97-122 | The number of '(' on the operator stack. |
| Infix.PopToParen | src/library/rpn.cpp:103-106 | Stack tops move to the output until a '(' or the bottom: no '(' is emitted and the moved tokens come in pop order. |
| Infix.PopOperators | src/library/rpn.cpp:111-118 | Stack tops that bind at least as tightly move to the output, stopping at '(' or a looser operator. |
| Infix.SyStep | src/library/rpn.cpp:97-122 | One token of `shunting_yard_algorithm`: an operand to the output, '(' onto the stack, ')' pops to the matching '(' and drops it, an operator pops what binds at least as tightly and is pushed; any other kind throws. |
| Infix.OperandsSplit | src/library/rpn.cpp:97-122 | Splitting off the first token of `ts`, with `out` in front. |
| Infix.SyRunKeeps | src/library/rpn.cpp:88-134 | Whatever the input, a completed reordering emits the operands exactly in input order and never emits a parenthesis. |
| Infix.SyRunOk | src/library/rpn.cpp:88-134 | The reordering fails only on a token that is neither an operand, a parenthesis nor an operator of the dialect. |
| Infix.TokenizedReorders | src/library/rpn.cpp:55-134 | What the tokenizer produces always reorders without error once its parentheses close. |
| Infix.PushOperator | src/library/rpn.cpp:109-119 | Pushing an operator after popping: one more operator, no more output height. |
| Infix.DropOpen | src/library/rpn.cpp:107-108 | Dropping the '(' that stopped the popping keeps the operators and the height. |
| Infix.WellFormedStep | src/library/rpn.cpp:97-122 | One token of well-formed input keeps the invariant and the input's well-formedness. |
| Infix.ShuntingYardWellFormed | src/library/rpn.cpp:88-134 | On a well-formed infix formula the reordering never throws, and its output is a well-formed postfix formula without parentheses whose operands come in input order. |
| Infix.Associativity | src/library/rpn.cpp:109-119 | `a op1 b op2 c`: op1 is emitted before c when it binds at least as tightly as op2 (equal precedence groups to the left), after op2 otherwise. |
| Infix.FlushOne | src/library/rpn.cpp:124-130 | Flushing a one-operator stack emits that operator. |
| Infix.FlushTwo | src/library/rpn.cpp:124-130 | Flushing a two-operator stack emits the top first. |
| Infix.PopsLone | src/library/rpn.cpp:111-118 | An incoming operator that binds no tighter pops a lone stacked operator. |
| Infix.FirstThree | src/library/rpn.cpp:97-122 | `a op1 b` from the start: both operands go out, op1 waits on the stack. |
| Infix.FirstTwo | src/library/rpn.cpp:97-122 | The first operand goes out and the first operator onto the empty stack. |
| Infix.OperatorThenOperand | src/library/rpn.cpp:97-130 | The last two tokens `op c` of a sequence without parentheses, then the final flush. |
| Rpn.ParseLiteral | src/library/rpn.cpp:43-51 | `parse_literal`: the name runs over letters, digits and '_' up to the first other character; its length is what the loop advances. |
| Rpn.NextToken | src/library/rpn.cpp:61-83 | One pass of the tokenizer loop: the token and the advance equal the reference `Lex` at that position. |
| Rpn.Tokenize | src/library/rpn.cpp:55-87 | `RpnParser::tokenize`: the tokens equal the reference tokenization of the blank-free text, which spells that text exactly. |
| Rpn.TokenizeText | src/library/rpn.cpp:59-84 | The loop over the blank-free text: its tokens are the reference tokenization. |
| Rpn.PopToOpenParen | src/library/rpn.cpp:103-106 | The inner loop of ')' and of the final flush: the output and stack equal the reference `PopToParen`. |
| Rpn.PopBinding | src/library/rpn.cpp:111-118 | The inner loop of the operator case: the output and stack equal the reference `PopOperators`. |
| Rpn.ShuntingYard | src/library/rpn.cpp:88-134 | `shunting_yard_algorithm`: the output equals the reference reordering, or the exception for a token that is no operand, parenthesis or operator. |
| MathParser.IsFloating | src/math/parser.cpp:31-44 | `is_floating`: the flag starts true and is only set to true again, so the answer is always true. |
| MathParser.NextToken | src/math/parser.cpp:72-92 | One pass of the tokenizer loop: the token and the advance equal the reference `Lex` of the math dialect. |
| MathParser.Tokenize | src/math/parser.cpp:67-95 | `Parser::tokenize`: the tokens equal the reference tokenization of the blank-free text in the math dialect. |
| MathParser.TokenizeText | src/math/parser.cpp:71-92 | The loop over the blank-free text: its tokens are the reference tokenization. |
| MathParser.ShuntingYard | src/math/parser.cpp:96-141 | `Parser::shunting_yard_algorithm`: the queue equals the reference reordering of the math dialect, or the exception. |
| SkillDetails.SkillBuilder.constructor | src/zzz/details/skill.hpp:1-64 | A builder with an empty product and no flag set. |
| SkillDetails.SkillBuilder.SetName | src/zzz/details/skill.cpp:16-20 | `set_name`: stores the name and sets its flag; everything else unchanged. |
| SkillDetails.SkillBuilder.SetTag | src/zzz/details/skill.cpp:22-26 | `set_tag(Tag)`: stores the tag and sets its flag; everything else unchanged. |
| SkillDetails.SkillBuilder.SetTagNamed | src/zzz/details/skill.cpp:27-29 | `set_tag(string_view)`: Ok exactly for a known tag name, then as `set_tag`; an unknown name throws and changes nothing. |
| SkillDetails.SkillBuilder.AddScale | src/zzz/details/skill.cpp:31-34 | `add_scale(scale)`: the scale appended at the end, no flag touched. |
| SkillDetails.SkillBuilder.AddScaleOf | src/zzz/details/skill.cpp:35-41 | `add_scale(mv, daze, element)`: appends the scale of exactly those three. |
| SkillDetails.SkillBuilder.AddScaleNamed | src/zzz/details/skill.cpp:42-48 | `add_scale(mv, daze, string_view)`: Ok exactly for a known element name, which is then appended; otherwise nothing changes. |
| SkillDetails.SkillBuilder.AddBuff | src/zzz/details/skill.cpp:50-53 | `add_buff`: `StatsGrid::add` into the buffs, which accumulates; nothing else changes. |
| SkillDetails.SkillBuilder.SetBuffs | src/zzz/details/skill.cpp:54-57 | `set_buffs`: the buffs replaced wholesale; nothing else changes. |
| SkillDetails.SkillBuilder.GetProduct | src/zzz/details/skill.cpp:59-68 | `get_product`: the product exactly when name and tag are set, otherwise the exception. |
| SkillDetails.MaxIndex | src/calc/calculator.cpp:274 | `Skill::max_index()`: the number of scales. |
| SkillDetails.TwoScales | src/zzz/details/skill.cpp:16-68 | A builder given a name, a tag and two scales yields a skill holding those scales in the order they were added, and no buffs. |
| SkillDetails.UntaggedRefused | src/zzz/details/skill.cpp:59-68 | Without a tag the builder refuses to hand out its product, whatever else was set. |
| AnomalyDetails.MakeAsPair | src/zzz/details/anomaly.cpp:10-17 | `make_as_pair`: the anomaly keyed by its name with exactly the given fields and `m_can_crit` false. |
| AnomalyDetails.GetStandardAnomaly | src/zzz/details/anomaly.cpp:18-21 | `get_standard_anomaly`: the standard anomaly of that name, or the exception for an unknown name. |
| AnomalyDetails.StandardTable | src/zzz/details/anomaly.cpp:36-42 | The five standard anomalies: assault 731 physical, burn 1000 fire, shatter 500 ice, shock 1250 electric, corruption 1250 ether. |
| AnomalyDetails.StandardElementsDistinct | src/zzz/details/anomaly.cpp:36-42 | The standard anomalies have five distinct elements, one per damage element. |
| AnomalyDetails.AnomalyBuilder.constructor | src/zzz/details/anomaly.hpp:1-87 | A builder with an empty product and no flag set. |
| AnomalyDetails.AnomalyBuilder.SetName | src/zzz/details/anomaly.cpp:46-50 | `set_name`: stores the name and sets its flag; everything else unchanged. |
| AnomalyDetails.AnomalyBuilder.SetScale | src/zzz/details/anomaly.cpp:52-56 | `set_scale`: stores the scale and sets its flag; everything else unchanged. |
| AnomalyDetails.AnomalyBuilder.SetElement | src/zzz/details/anomaly.cpp:58-62 | `set_element(Element)`: stores the element and sets its flag; everything else unchanged. |
| AnomalyDetails.AnomalyBuilder.SetElementNamed | src/zzz/details/anomaly.cpp:63-65 | `set_element(string_view)`: an unknown element name throws and changes nothing. |
| AnomalyDetails.AnomalyBuilder.AddBuff | src/zzz/details/anomaly.cpp:67-70 | `add_buff`: `StatsGrid::add` into the buffs, which accumulates. |
| AnomalyDetails.AnomalyBuilder.SetBuffs | src/zzz/details/anomaly.cpp:71-74 | `set_buffs`: replaces the buffs wholesale. |
| AnomalyDetails.AnomalyBuilder.SetCrit | src/zzz/details/anomaly.cpp:76-79 | `set_crit`: stores the flag; it is not one of the required ones. |
| AnomalyDetails.AnomalyBuilder.GetProduct | src/zzz/details/anomaly.cpp:81-91 | `get_product`: the product exactly when name, scale and element are set, otherwise the exception. |
| AnomalyDetails.BuiltWithoutCrit | src/zzz/details/anomaly.cpp:46-91 | An anomaly built without `set_crit` cannot crit, and holds exactly what was set. |
| AnomalyDetails.UnscaledRefused | src/zzz/details/anomaly.cpp:81-91 | Without a scale the builder refuses, even with name, element and crit set. |
| CachedMemory.MObject.constructor | src/library/cached_memory.cpp:24-26 | `MObject(fullname)`: named, empty, never unused. |
| CachedMemory.MObject.Set | src/library/cached_memory.hpp:27-28 | `set(value)`: the content becomes the value, the object is allocated; the name and the period are unchanged, and the object stays valid unless its period had already reached the limit. |
| CachedMemory.Swept | src/library/cached_memory.cpp:110-123 | One object's step of a sweep: an unloaded object is skipped; a loaded one that nothing else references counts one more unused sweep; a loaded one whose period has reached the limit loses its content. |
| CachedMemory.Fetched | src/library/cached_memory.cpp:86-105 | the slot after `_get_logic`: the period is 0; held content is kept, and otherwise the content is what the load gave (null when it threw or found no file). |
| CachedMemory.SweptValid | src/library/cached_memory.cpp:110-123 | A sweep keeps a slot valid. |
| CachedMemory.SweptReferenced | src/library/cached_memory.cpp:114-115 | A referenced object is never changed by a sweep. |
| CachedMemory.SweptTimesMeaning | src/library/cached_memory.cpp:107-130 | An object loaded and left unreferenced keeps its content for fewer than `max_unused_period - period` sweeps, loses it at that sweep, and from then on is skipped, its period staying at the limit until the next `get`. |
| CachedMemory.FetchedLifetime | src/library/cached_memory.cpp:86-130 | A freshly fetched object survives exactly `max_unused_period - 1` unreferenced sweeps. |
| CachedMemory.ObjectManager.Slots | src/library/cached_memory.cpp:54-60 | Each registered object's slot, by name. |
| CachedMemory.ObjectManager.constructor | src/library/cached_memory.cpp:56-60 | `ObjectManager()`: nothing registered. |
| CachedMemory.ObjectManager.AddObject | src/library/cached_memory.cpp:76-78 | `add_object(value)`: registered under its name, unless that name is taken, in which case nothing changes. |
| CachedMemory.ObjectManager.Get | src/library/cached_memory.cpp:67-105 | `get(key)`: an unregistered name throws; otherwise the object's period starts over, and an object without content is loaded. A load that throws makes `get` throw after the reset, with the content still null. A load that finds no file leaves the content null and `get` returns the object. |
| CachedMemory.ObjectManager.Sweep | src/library/cached_memory.cpp:107-123 | One pass of the sweep loop of `_launch_logic`, over every registered object (in any order, as each object's step is its own); the names in `unreferenced` are those of the objects nothing but the manager holds. |
| CachedMemory.SweepOne | src/library/cached_memory.cpp:110-123 | One object's step of the sweep loop: the object's new slot is `Swept` of its old one. |
| AgentDetails.AbilityOf | src/zzz/details/agent.cpp:28 | `ability(name)`: the ability under that name, or the exception for an unknown one. |
| AgentDetails.Emplaced | src/zzz/details/agent.cpp:80-89 | `emplace(key, value)`: inserts only under a key not yet present; an existing entry is kept. |
| AgentDetails.EmplaceFirstWins | src/zzz/details/agent.cpp:80-89 | A second ability under a name already taken is ignored: the first one wins. |
| AgentDetails.AgentBuilder.constructor | src/zzz/details/agent.hpp:1-91 | A builder with an empty product and no flag set. |
| AgentDetails.AgentBuilder.SetId | src/zzz/details/agent.cpp:32-36 | `set_id`: stores the id and sets its flag; everything else unchanged. |
| AgentDetails.AgentBuilder.SetName | src/zzz/details/agent.cpp:37-41 | `set_name`: stores the name and sets its flag; everything else unchanged. |
| AgentDetails.AgentBuilder.SetSpeciality | src/zzz/details/agent.cpp:43-47 | `set_speciality(Speciality)`: stores the speciality and sets its flag; everything else unchanged. |
| AgentDetails.AgentBuilder.SetSpecialityNamed | src/zzz/details/agent.cpp:48-52 | `set_speciality(string_view)`: Ok exactly for a known name, then stored with its flag; an unknown name throws and changes nothing. |
| AgentDetails.AgentBuilder.SetElement | src/zzz/details/agent.cpp:54-58 | `set_element(Element)`: stores the element and sets its flag; everything else unchanged. |
| AgentDetails.AgentBuilder.SetElementNamed | src/zzz/details/agent.cpp:59-63 | `set_element(string_view)`: Ok exactly for a known name, then stored with its flag; an unknown name throws and changes nothing. |
| AgentDetails.AgentBuilder.SetRarity | src/zzz/details/agent.cpp:65-69 | `set_rarity`: stores the rarity and sets its flag; everything else unchanged. |
| AgentDetails.AgentBuilder.AddStat | src/zzz/details/agent.cpp:71-74 | `add_stat`: `StatsGrid::set`, which replaces the entry under the stat's key; nothing else changes. |
| AgentDetails.AgentBuilder.SetStats | src/zzz/details/agent.cpp:75-78 | `set_stats`: the grid replaced wholesale; nothing else changes. |
| AgentDetails.AgentBuilder.AddSkill | src/zzz/details/agent.cpp:80-84 | `add_skill`: emplaced under the skill's name, so an ability already there is kept. |
| AgentDetails.AgentBuilder.AddAnomaly | src/zzz/details/agent.cpp:85-89 | `add_anomaly`: emplaced under the anomaly's name, in the same table as the skills. |
| AgentDetails.AgentBuilder.GetProduct | src/zzz/details/agent.cpp:91-103 | `get_product`: the product exactly when id, name, speciality, element and rarity are set, otherwise the exception. |
| AgentDetails.Member | src/zzz/details/agent.cpp:188-202 | A member of an object node read with `at`: the value under the key, or the exception when the node is no object or lacks the key. |
| AgentDetails.ScaleFromMeaning | src/zzz/details/agent.cpp:141-156 | A scale read from JSON carries the two numbers, and its element is the default exactly when there is no third item. |
| AgentDetails.ScalesFrom | src/zzz/details/agent.cpp:168-171 | Each item of a `scales` array read in order; the first failure is the exception. |
| AgentDetails.ScalesNext | src/zzz/details/agent.cpp:168-171 | Reading one more item of a prefix. |
| AgentDetails.ScalesFail | src/zzz/details/agent.cpp:168-171 | A prefix that fails decides the exception of the whole array. |
| AgentDetails.AnomalyFrom | src/zzz/details/agent.cpp:111-139 | `make_anomaly_from(key, json, default_element)`: the string "standard" names a standard anomaly and any other string throws; an object gives a scale, an optional element name and optional buffs, and the anomaly can crit iff its buffs hold both the crit rate and the crit damage under the Anomaly tag. |
| AgentDetails.AnomalyFromMeaning | src/zzz/details/agent.cpp:111-139 | What an anomaly read from JSON is. |
| AgentDetails.SkillFrom | src/zzz/details/agent.cpp:157-179 | `make_skill_from(key, json, default_element)`: the tag is required; a "scale" gives one scale, otherwise "scales" gives each in order; "buffs" are optional. |
| AgentDetails.BuffsOf | src/zzz/details/agent.cpp:173-176 | The optional "buffs" of a table as a grid, an empty grid without them. |
| AgentDetails.SkillFromMeaning | src/zzz/details/agent.cpp:157-179 | What a skill read from JSON is: "scale" wins over "scales", whose items keep their order. |
| AgentDetails.AnomalyStep | src/zzz/details/agent.cpp:197-200 | Emplacing one more anomaly, under its own name, reads one more key. |
| AgentDetails.SkillStep | src/zzz/details/agent.cpp:202-203 | Emplacing one more skill, under its own name, into skills read so far over the abilities already present, reads one more key; where the name is already present, that ability stays. |
| AgentDetails.AgentFrom | src/zzz/details/agent.cpp:182-206 | `load_from_json(json)`: a loaded agent comes from an object, and its abilities are those its table reads under its own element. |
| AgentDetails.AgentFromMeaning | src/zzz/details/agent.cpp:182-206 | Loading succeeds exactly when the root is an object with a known "element" name, integral "id" and "rarity", a string "name", a known "speciality" name, a "stats" grid that reads, and abilities that read; the agent then holds exactly those values, the id and rarity narrowed to `uint64_t` and `uint8_t`. |
| AgentDetails.AgentAbilities | src/zzz/details/agent.cpp:197-203 | The abilities of a loaded agent: every anomaly and every skill under its key, and where an anomaly and a skill share a name the anomaly, emplaced first, is the one kept. Every ability inherits the agent's element as its default. |
| AgentDetails.AbilitiesParts | src/zzz/details/agent.cpp:197-203 | Abilities that read are the skills overridden by the anomalies. |
| AgentDetails.MakeAnomalyFrom | src/zzz/details/agent.cpp:111-139 | `make_anomaly_from` driving an `AnomalyBuilder`: exactly `AnomalyFrom`, errors included. |
| AgentDetails.MakeSkillFrom | src/zzz/details/agent.cpp:157-179 | `make_skill_from` driving a `SkillBuilder`: exactly `SkillFrom`, errors included. |
| AgentDetails.AddScales | src/zzz/details/agent.cpp:168-171 | The loop over a "scales" array: the builder's scales grow by `ScalesFrom` of the items, in order, or the first failure. |
| AgentDetails.AddAnomalies | src/zzz/details/agent.cpp:197-200 | The loop over the "anomalies" object: each entry, in whatever order the object yields them, is read and emplaced; the first failure stops it. |
| AgentDetails.AddSkills | src/zzz/details/agent.cpp:202-203 | The loop over the "skills" object: each entry is read and emplaced, so a skill named like an anomaly already present is dropped. |
| AgentDetails.LoadFromJson | src/zzz/details/agent.cpp:182-206 | `load_from_json(json)` driving an `AgentBuilder`: it fails exactly when `AgentFrom` does, and otherwise yields the same agent. |
| AgentDetails.AddAbilities | src/zzz/details/agent.cpp:197-203 | The anomalies, then the skills, emplaced into a builder with none yet: the abilities equal those `AgentFrom` reads. |
| AgentDetails.LoadFromString | src/zzz/details/agent.cpp:217-230 | `Agent::load_from_string(input, mode)`: in format 1 the text is parsed, the agent loaded from it is set as the object's content, and the answer is true; any other format leaves the object as it is and answers false. A parse or load error throws before the object changes. |
| AgentDetails.FromWrittenText | src/zzz/details/agent.cpp:217-230 | Loading the text the JSON writer produced for a node gives what loading the node gives, for a writable node within the default recursion limit. |
| WengineDetails.WengineBuilder.constructor | src/zzz/details/wengine.hpp:1-78 | A builder with an empty product and no flag set. |
| WengineDetails.WengineBuilder.SetId | src/zzz/details/wengine.cpp:30-34 | `set_id`: stores the id and sets its flag; everything else unchanged. |
| WengineDetails.WengineBuilder.SetName | src/zzz/details/wengine.cpp:35-39 | `set_name`: stores the name and sets its flag; everything else unchanged. |
| WengineDetails.WengineBuilder.SetRarity | src/zzz/details/wengine.cpp:40-44 | `set_rarity`: stores the rarity and sets its flag; everything else unchanged. |
| WengineDetails.WengineBuilder.SetSpeciality | src/zzz/details/wengine.cpp:46-50 | `set_speciality(Speciality)`: stores the speciality and sets its flag; everything else unchanged. |
| WengineDetails.WengineBuilder.SetSpecialityNamed | src/zzz/details/wengine.cpp:51-53 | `set_speciality(string_view)`: Ok exactly for a known name, then stored with its flag; an unknown name throws and changes nothing. |
| WengineDetails.WengineBuilder.AddStats | src/zzz/details/wengine.cpp:60 | `m_stats.add(grid)`: the stats become the reference merge of the two grids, or the exception with the grid left part-way. |
| WengineDetails.WengineBuilder.SetMainStat | src/zzz/details/wengine.cpp:56-63 | `set_main_stat(grid)`: added into the stats, unchecked; sets its flag only. |
| WengineDetails.WengineBuilder.SetSubStat | src/zzz/details/wengine.cpp:64-68 | `set_sub_stat(grid)`: added into the same stats; sets its flag only. |
| WengineDetails.WengineBuilder.SetPassiveStats | src/zzz/details/wengine.cpp:69-73 | `set_passive_stats(grid)`: added into the same stats; sets its flag only. |
| WengineDetails.WengineBuilder.GetProduct | src/zzz/details/wengine.cpp:75-89 | `get_product`: the product exactly when all seven flags are set, otherwise the exception. |
| WengineDetails.PassiveRequired | src/zzz/details/wengine.cpp:75-89 | Without passive stats the builder refuses, whatever else was set. |
| WengineDetails.WengineStats | src/zzz/details/wengine.cpp:105-108 | A loaded W-engine's stats are regular, one per qualifier that occurs in any of the three grids, each with the sum of the three bases there. |
| WengineDetails.WengineParts | src/zzz/details/wengine.cpp:96-111 | Where a loaded W-engine's stats come from. |
| WengineDetails.ThreeMerged | src/zzz/details/wengine.cpp:105-108 | Adding three all-regular grids into an empty one sums their bases key by key. |
| WengineDetails.LoadFromJson | src/zzz/details/wengine.cpp:96-111 | `load_from_json`, driving a `WengineBuilder`: exactly `WengineFrom`, errors included. |
| WengineDetails.LoadFromString | src/zzz/details/wengine.cpp:121-134 | `Wengine::load_from_string(input, mode)`: in format 1 the text is parsed, the w-engine loaded from it is set as the object's content, and the answer is true; any other format leaves the object as it is and answers false. A parse or load error throws before the object changes. |
| WengineDetails.FromWrittenText | src/zzz/details/wengine.cpp:121-134 | Loading the text the JSON writer produced for a node gives what loading the node gives, for a writable node within the default recursion limit. |
| Ddp.DdpBuilder.constructor | src/zzz/details/ddp.hpp:1-58 | A builder with an empty product, no flag set, no main stat and no sub stat. |
| Ddp.DdpBuilder.SetDiscId | src/zzz/details/ddp.cpp:105-109 | `set_disc_id`: stores the id and sets its flag; everything else unchanged. |
| Ddp.DdpBuilder.SetSlot | src/zzz/details/ddp.cpp:110-114 | `set_slot`: stores the slot and sets its flag; everything else unchanged. |
| Ddp.DdpBuilder.SetRarity | src/zzz/details/ddp.cpp:115-119 | `set_rarity`: stores the rarity and sets its flag; everything else unchanged. |
| Ddp.DdpBuilder.SetMainStat | src/zzz/details/ddp.cpp:120-133 | `set_main_stat`: throws without slot and rarity, or for a stat the slot does not admit; otherwise the table value for the rarity is added to the grid under Universal and the stat becomes the main one. |
| Ddp.DdpBuilder.AddSubStat | src/zzz/details/ddp.cpp:134-148 | `add_sub_stat`: throws without slot and rarity, for the main stat, or for a stat without a sub row; otherwise the table value times `level + 1` is added to the grid and the count grows by one. |
| Ddp.DdpBuilder.GetProduct | src/zzz/details/ddp.cpp:150-161 | `get_product`: the product exactly when id, slot, rarity and main stat are set and there are `rarity - 1` sub stats, otherwise the exception. |
| Ddp.BuiltNeedsSubStats | src/zzz/details/ddp.cpp:150-156 | How many sub stats a built piece needs: one for B, two for A, three for S; a piece whose rarity was set to NotSet is never built. |
| DdsDetails.DdsBuilder.constructor | src/zzz/details/dds.hpp:1-59 | A builder with an empty product and no flag set. |
| DdsDetails.DdsBuilder.SetId | src/zzz/details/dds.cpp:20-24 | `set_id`: stores the id and sets its flag; everything else unchanged. |
| DdsDetails.DdsBuilder.SetName | src/zzz/details/dds.cpp:25-29 | `set_name`: stores the name and sets its flag; everything else unchanged. |
| DdsDetails.DdsBuilder.SetPc2 | src/zzz/details/dds.cpp:30-34 | `set_pc2`: the 2-piece bonus goes to index 0; index 1 is untouched. |
| DdsDetails.DdsBuilder.SetPc4 | src/zzz/details/dds.cpp:35-39 | `set_pc4`: the 4-piece bonus goes to index 1; index 0 is untouched. |
| DdsDetails.DdsBuilder.GetProduct | src/zzz/details/dds.cpp:41-52 | `get_product`: the product exactly when id, name and both bonuses are set; `pc2()` reads index 0 and `pc4()` index 1 (src/zzz/details/dds.cpp:15-16). |
| DdsDetails.BonusesInEitherOrder | src/zzz/details/dds.cpp:15-39 | Whatever order the two bonuses are set in, the 2-piece one is the product's `pc2` and the 4-piece one its `pc4`. |
| DdsDetails.MissingPc4Refused | src/zzz/details/dds.cpp:41-52 | Without the 4-piece bonus the builder refuses to hand out its product. |
| DdsDetails.DdsFromMeaning | src/zzz/details/dds.cpp:58-70 | What a set read from JSON is, and when reading succeeds. |
| DdsDetails.LoadDdsFromJson | src/zzz/details/dds.cpp:58-70 | `load_dds_from_json`, driving a `DdsBuilder`: exactly `DdsFrom`, errors included. |
| DdsDetails.LoadFromString | src/zzz/details/dds.cpp:81-94 | `Dds::load_from_string(input, mode)`: in format 1 the text is parsed, the drive disc set loaded from it is set as the object's content, and the answer is true; any other format leaves the object as it is and answers false. A parse or load error throws before the object changes. |
| DdsDetails.FromWrittenText | src/zzz/details/dds.cpp:81-94 | Loading the text the JSON writer produced for a node gives what loading the node gives, for a writable node within the default recursion limit. |
| DriveDiscInfo.AllowedMainStats | src/zzz/details/ddp.cpp:12-40 | The main stats a slot admits: HP, ATK, DEF flat on slots 1-3, the `mss4/5/6_limits` lists on 4-6, none elsewhere. |
| DriveDiscInfo.CheckMsLimits | src/zzz/details/ddp.cpp:75-92 | `check_ms_limits(slot, type)`: true exactly when the slot admits the stat. |
| DriveDiscInfo.CritRateRowAsWritten | src/zzz/details/ddp.cpp:50 | As written, the CritRate row falls from B to A: a B-rarity disc with a CritRate main stat gets 80% where an A-rarity one gets 16%. |
| DriveDiscInfo.MainTableRows | src/zzz/details/ddp.cpp:42-61 | In the corrected table every row increases, and every main stat any slot admits has a row, so `main_stat_conversion_table.at` never throws after `check_ms_limits` passed. |
| DriveDiscInfo.SubTableRows | src/zzz/details/ddp.cpp:62-73 | Every sub table row increases. |
| DriveDiscInfo.MainValue | src/zzz/details/ddp.cpp:127 | The main stat value read from the table as written: positive, the corrected value everywhere except the B-rarity CritRate cell, where it is ten times that. |
| DriveDiscInfo.SubValue | src/zzz/details/ddp.cpp:140-142 | A sub stat's table value at a rated rarity times `level + 1`; positive. |
| DriveDiscInfo.RequiredSubStats | src/zzz/details/ddp.cpp:155 | `rarity - 1` as a `size_t`: 1, 2, 3 for B, A, S and the largest value for NotSet. |
| DriveDiscPiece.DdpBuilder.constructor | src/zzz/combat/drive_disc_piece.hpp:1-61 | A builder with an empty product, no flag set, no main stat and no sub stat. |
| DriveDiscPiece.DdpBuilder.SubStat | src/zzz/combat/drive_disc_piece.cpp:102 | `sub_stat(index)`: the index-th sub stat added, or the default stat for a slot not filled yet. |
| DriveDiscPiece.DdpBuilder.SetDiscId | src/zzz/combat/drive_disc_piece.cpp:106-110 | `set_disc_id`: stores the id and sets its flag; everything else unchanged. |
| DriveDiscPiece.DdpBuilder.SetSlot | src/zzz/combat/drive_disc_piece.cpp:111-115 | `set_slot`: stores the slot and sets its flag; everything else unchanged. |
| DriveDiscPiece.DdpBuilder.SetRarity | src/zzz/combat/drive_disc_piece.cpp:116-120 | `set_rarity`: stores the rarity and sets its flag; everything else unchanged. |
| DriveDiscPiece.DdpBuilder.SetMainStat | src/zzz/combat/drive_disc_piece.cpp:121-134 | `set_main_stat(type, level)`: the same checks in the same order as the grid version; then the main stat becomes {table value, type, Universal} (whatever the level) and its flag is set. A rarity other than B, A or S past both checks would index the table out of bounds. |
| DriveDiscPiece.DdpBuilder.AddSubStat | src/zzz/combat/drive_disc_piece.cpp:135-149 | `add_sub_stat(type, level)`: after the slot and rarity check, a type equal to the main stat's throws, as does one missing from the sub table; otherwise the next slot receives {table value × (level + 1), type, Universal}. Only four slots exist, so a fifth call would write past the array. |
| DriveDiscPiece.DdpBuilder.GetProduct | src/zzz/combat/drive_disc_piece.cpp:150-162 | `get_product()`: throws unless built; the piece carries all four sub stat slots. |
| DriveDiscSet.ConvertedMeaning | src/zzz/details/drive_disc_set.cpp:52-63 | When converting succeeds, and what it yields: the id cast to 64 bits, the name, the grid read from `p2` at index 0, from `p4` at index 1. |
| DriveDiscSet.From | src/zzz/details/drive_disc_set.cpp:52-63 | `ToDdsConverter::from`, driving a `DdsBuilder`: exactly `ConvertedFrom`, errors included. |
| DriveDiscSet.KeyNamesDiffer | src/zzz/details/drive_disc_set.cpp:59-60 | The two generations disagree on the key names: a set whose bonuses sit under "2pc"/"4pc" loads through `load_dds_from_json` but not through this converter, which looks for "p2"/"p4". |
| Rotation.ToRotationCell | src/zzz/details/rotation.cpp:14-20 | `to_rotation_cell`: the first token is the command; the index is 0 for a single token, otherwise the `sv_to` value of the second. |
| Rotation.CalcLoops | src/zzz/details/rotation.cpp:22-26 | `calc_loops`: 1 for a single token, otherwise the number of the second token with one leading 'x' dropped. |
| Rotation.ConvertLines | src/zzz/details/rotation.cpp:58-59 | Each raw line converted to a cell on its own, in order. |
| Rotation.ByName | src/zzz/details/rotation.cpp:32-46 | `by_name`: the raw lines of each custom block, whatever its priority. |
| Rotation.MiniRotations | src/zzz/details/rotation.cpp:48-65 | `mini_rotations`: every block expanded, with the same keys; an error in any block is an error. |
| Rotation.InlineBlock | src/zzz/details/rotation.cpp:53-62 | The inner loop over one custom block's lines: its cells equal the reference inlining of the block. |
| Rotation.From | src/zzz/details/rotation.cpp:28-81 | `ToRotationConverter::from` on the custom and rotation tables once read as typed values: the cells equal the reference expansion of the main rotation over the expanded blocks, and it fails exactly when that expansion does. |
| Rotation.CollectBlocks | src/zzz/details/rotation.cpp:32-46 | The loop filling `by_name`: it equals `ByName` of the custom table. |
| Rotation.ExpandBlocks | src/zzz/details/rotation.cpp:48-65 | The loop filling `mini_rotations`: it equals `MiniRotations`, whatever the order of the blocks. |
| Rotation.ExpandMain | src/zzz/details/rotation.cpp:67-80 | The loop over the main rotation: its cells equal the reference expansion, or its first error. |
| Rotation.ExpandOne | src/zzz/details/rotation.cpp:70-77 | One main-rotation entry: a mini rotation copied `splitted.size() × calc_loops` times, or one cell. |
| Rotation.CellFromText | src/zzz/details/rotation.cpp:14-20 | "cmd" is the cell (cmd, 0) and "cmd n" the cell (cmd, n). |
| Rotation.TwoWords | src/library/funcs.hpp:26-34 | Two words separated by one space split into exactly those two. |
| Rotation.LoopsFromText | src/zzz/details/rotation.cpp:22-26 | "name" loops once; "name n" and "name xn" loop n times. |
| Rotation.TimesToken | src/zzz/details/rotation.cpp:24 | "x" followed by a number, as a token: free of spaces, and the number once the 'x' is dropped. |
| Rotation.MiniOnce | src/zzz/details/rotation.cpp:72-75 | A main entry naming a mini rotation alone appends it once. |
| Rotation.MiniTwice | src/zzz/details/rotation.cpp:73 | "name n" appends the mini rotation 2·n times, since the token count 2 multiplies the loop count. |
| Rotation.MiniTimes | src/zzz/details/rotation.cpp:73 | "name xn" does the same as "name n". |
| Rotation.ExpandAppend | src/zzz/details/rotation.cpp:69-78 | Expansion is append-only: the cells of a rotation split in two are the cells of the first part followed by those of the second. |
| Rotation.ExpandStep | src/zzz/details/rotation.cpp:69-78 | The main rotation one entry longer: the cells so far, then the entry's. |
| Rotation.ExpandPrefixErr | src/zzz/details/rotation.cpp:69-78 | A refused entry refuses the whole main rotation. |
| Rotation.InlineAppend | src/zzz/details/rotation.cpp:53-62 | Likewise a custom block: its cells are those of its first lines followed by those of the rest. |
| Rotation.EntryLength | src/zzz/details/rotation.cpp:69-78 | The length of an expanded rotation: each entry contributes its copies times its mini rotation's length, or one cell. |
| Rotation.OneLevel | src/zzz/details/rotation.cpp:56-59 | Inlining is one level deep: a custom line naming block `b`, whose only raw line names block `c`, yields `c` as a plain cell instead of inlining `c` in turn. |
| Rotation.PrioritiesIrrelevant | src/zzz/details/rotation.cpp:30-65 | The priorities never matter: blocks with the same lines give the same rotation. |
| Rotation.ExpandEntryIntended | src/zzz/details/rotation.cpp:70-77 | One entry with the evidently intended count of copies: it succeeds exactly when the entry as written does, and a plain command gives the same cell. |
| Rotation.MiniLoopsIntended | src/zzz/details/rotation.cpp:73 | With the intended count, "name" appends the mini rotation once and "name n" and "name xn" n times each. |
| Funcs.SkipSpaces | src/backend/impl/details.cpp:105 | The text after its leading white space: a suffix that is empty or starts with a non-space. |
| Funcs.Stoul | src/backend/impl/details.cpp:105 | `std::stoul` with a 64-bit `unsigned long`: white space skipped, an optional sign, the leading digits; no digit or more than 64 bits throws; always below 2^64 (StoulDecimal, StoulFromChars). |
| Funcs.Signed | src/backend/impl/details.cpp:105 | The number after the white space: an optional '+' or '-' (negating modulo 2^64), then the magnitude. |
| Funcs.Magnitude | src/backend/impl/details.cpp:105 | The value of the leading digits: none throws, one past 64 bits throws; always below 2^64. |
| Funcs.MagnitudeDecimal | src/backend/impl/details.cpp:105 | A printed number followed by anything but a digit has itself as magnitude. |
| Funcs.SignedBody | src/backend/impl/details.cpp:105 | Without a sign, a plus sign, or a minus sign that negates modulo 2^64. |
| Funcs.StoulSkips | src/backend/impl/details.cpp:105 | White space before a token that does not start with white space is skipped. |
| Funcs.StoulDecimal | src/backend/impl/details.cpp:105 | A number printed in decimal, after any white space and an optional '+', reads back as itself; after '-', as its negation modulo 2^64. |
| Funcs.SkipLeading | src/backend/impl/details.cpp:105 | White space before a text that does not start with white space is skipped whole. |
| Funcs.StoulFromChars | src/backend/converters.cpp:123 | On a token that starts with a digit, `stoul` and `from_chars` (`sv_to`) succeed together and give the same number. |
| Converters.AsU64 | src/backend/converters.cpp:112-115 | An `int64` taken as a `uint64_t`: below 2^64, unchanged when non-negative. |
| Converters.AsU8 | src/backend/converters.cpp:123 | An integer narrowed to a `uint8_t`: below 256, unchanged when in range. |
| Converters.FirstCharRarity | src/backend/converters.cpp:125 | `char_to_rarity(s[0])`, declared but not defined in the repository and taken to be `Rarity::_from_char`: the result is always NotSet, B, A or S, and 'S' gives S. |
| Converters.SubStats | src/backend/converters.cpp:131-137 | The sub stats a disc's `subs` list adds, in order; the first refused one throws. |
| Converters.Padded | src/backend/converters.cpp:139 | The four sub stat slots of a piece: the added ones in order, then default stats. |
| Converters.PieceHead | src/backend/converters.cpp:121-129 | The slot from `stoul(key)`, the rarity from the first letter, the main stat by name, and the builder's checks: a head that passed them has a non-zero slot, a rated rarity and an admitted main stat. |
| Converters.HeadFrom | src/backend/converters.cpp:121-129 | The head from an already converted key: the slot is that number narrowed to 8 bits, the rarity and main stat those named, all checks passed. |
| Converters.BuildPieceMeaning | src/backend/converters.cpp:119-140 | What a built piece holds: the slot the key names, the set id, the rarity of the first letter, the named main stat (one the slot admits), and the listed sub stats in order, enough of them for the rarity. |
| Converters.PieceHeadMeaning | src/backend/converters.cpp:121-129 | The head holds the slot the key names, the rarity of the first letter and the named main stat. |
| Converters.BuildPieces | src/backend/converters.cpp:119-140 | Every disc built, in table order; the first refused disc throws. |
| Converters.DiscSlots | src/backend/converters.cpp:117-140 | The six disc slots: the built pieces in order, then slots never written. |
| Converters.Convert | src/backend/converters.cpp:111-149 | `ToEvalDataConverter::from` on a request document already read into typed records: the agent, w-engine, six disc slots, rotation and the fixed enemy, or the first exception the conversion itself raises. |
| Converters.AddSubs | src/backend/converters.cpp:131-137 | The loop over one disc's `subs`: the builder's sub stats grow by exactly `SubStats` of the list, or the first error. |
| Converters.SubStatsPrefix | src/backend/converters.cpp:131-137 | A failure among the first sub stats is a failure of the whole list. |
| Converters.SetUp | src/backend/converters.cpp:121-129 | The setters before the sub stats: Ok exactly when `PieceHead` is, with the builder holding the head's slot, rarity, main stat and the set id. |
| Converters.BuildDisc | src/backend/converters.cpp:120-139 | The body of the disc loop: exactly `BuildPiece` of the entry, errors included. |
| Converters.BuildAll | src/backend/converters.cpp:117-140 | The disc loop: the slots equal `DiscSlots` of `BuildPieces`, or its first error. |
| Converters.From | src/backend/converters.cpp:111-149 | `ToEvalDataConverter::from` on the typed request: exactly `Convert`, its errors included. |
| Converters.BuildPiecesMeaning | src/backend/converters.cpp:119-140 | Each disc is built on its own: the table succeeds iff every disc does, and the i-th piece is the i-th disc's. |
| Converters.BuildPiecesStep | src/backend/converters.cpp:119-140 | One more disc: the table so far, then that disc's piece. |
| Converters.DiscSlotsStep | src/backend/converters.cpp:139 | Writing the next slot. |
| Converters.BuildPiecesPrefix | src/backend/converters.cpp:119-140 | A failure among the first discs is a failure of the whole table. |
| RequestDetails.StatSelector | src/backend/impl/details.cpp:131 | A stat selector: an integer is cast to a stat id, a string looked up by name (an unknown name gives None), anything else throws. |
| RequestDetails.SubsFrom | src/backend/impl/details.cpp:134-138 | The sub stats `stats[1..5]` and `levels[1..5]` add, in order; the first refused one throws. |
| RequestDetails.Slotted | src/backend/impl/details.cpp:127 | Each disc with the slot it is built into: disc i goes to slot i + 1. |
| RequestDetails.Pieces | src/backend/impl/details.cpp:117-141 | The discs in order, each built into its slot; the first refused disc throws (PiecesMeaning). |
| RequestDetails.ItemCell | src/backend/impl/details.cpp:103-107 | One rotation line cut with `split_as_copy`: the first piece is the command; one piece gives index 0; with two or more the index is `stoul` of the second, which may throw; an empty line is refused. |
| RequestDetails.DiscIds | src/backend/impl/details.cpp:121 | The set ids of the pieces, in order. |
| RequestDetails.Min | src/backend/impl/details.cpp:152 | The least element of a non-empty set: in it and no greater than any other. |
| RequestDetails.AtLeast | src/backend/impl/details.cpp:152-163 | `dds_list`: the keys, in the given order, seen at least `n` times (AtLeastMeaning, AtLeastSorted). |
| RequestDetails.Request.constructor | src/backend/impl/details.hpp:1-55 | An empty request: six default disc slots, no sets. |
| RequestDetails.Request.FillDiscs | src/backend/impl/details.cpp:117-148 | The disc loop: disc i is built into slot i + 1, written to `ddps[i]` and its set id counted; the returned map is `dds_count`. |
| RequestDetails.Request.ListSets | src/backend/impl/details.cpp:152-163 | The loop over `dds_count` in ascending id order: an id seen at least twice is appended to `dds_list` with a 2-piece tier, and one seen at least four times also gets a 4-piece tier. |
| RequestDetails.Request.Prepare | src/backend/impl/details.cpp:84-164 | `prepare_request_details(what, source)`: the ids, the rotation and the discs as `ReadDetails` reads them; discs past the last given keep their slots; the set ids seen at least twice are appended in ascending order with their tiers. |
| RequestDetails.Placed | src/backend/impl/details.cpp:140 | `ddps` after the loop: the first slots hold the pieces, the rest are as before. |
| RequestDetails.ReadRotation | src/backend/impl/details.cpp:97-110 | The `rotation` entry: exactly `RotationFrom`, an array fed line by line to the rotation builder. |
| RequestDetails.AddSubs | src/backend/impl/details.cpp:134-138 | The four `add_sub_stat` calls: the builder's sub stats become exactly `SubsFrom`, or its first error. |
| RequestDetails.BuildDisc | src/backend/impl/details.cpp:118-140 | The body of the disc loop: exactly `DiscPiece` of the disc object and its slot, errors included. |
| RequestDetails.SubsPrefix | src/backend/impl/details.cpp:134-138 | A failure among the first sub stats is a failure of all four. |
| RequestDetails.TiersStep | src/backend/impl/details.cpp:152-163 | One more key: its entries come after those of the keys before it. |
| RequestDetails.CountOne | src/backend/impl/details.cpp:144-147 | `dds_count[id]++`, or 1 for an id not seen before: the count of that id grows by one, every other count is kept. |
| RequestDetails.PlacedStep | src/backend/impl/details.cpp:140 | Writing the next slot. |
| RequestDetails.CountStep | src/backend/impl/details.cpp:144-147 | Counting one more piece. |
| RequestDetails.AscendingFirst | src/backend/impl/details.cpp:152 | The least element comes first, then the rest in ascending order. |
| RequestDetails.ReadDiscMeaning | src/backend/impl/details.cpp:118-128 | A disc object reads when it has an integral `id` and `rarity` and array `stats` and `levels`. |
| RequestDetails.DiscPieceMeaning | src/backend/impl/details.cpp:117-141 | A built piece lies in the given slot with the disc's id and rated rarity, its main stat is the one `stats[0]` selects and the slot admits, and its four sub stats are those `stats[1..5]` select, none equal to the main stat. Short arrays and an unset rarity throw. |
| RequestDetails.PiecesMeaning | src/backend/impl/details.cpp:117-141 | Disc i is built into slot i + 1: the array succeeds iff every disc does, and holds their pieces in order. |
| RequestDetails.PieceSlots | src/backend/impl/details.cpp:121-140 | Disc i lands in slot i + 1 with its own set id. |
| RequestDetails.RotationMeaning | src/backend/impl/details.cpp:97-110 | An array rotation gives one cell per line in order; any other value must be an integer, taken as the rotation's id. |
| RequestDetails.ItemCellWord | src/backend/impl/details.cpp:103-107 | A line "cmd" and a line "cmd " are the cell (cmd, 0); the empty line is refused. |
| RequestDetails.ItemCellText | src/backend/impl/details.cpp:103-107 | A line "cmd n" is the cell (cmd, n), and a line "cmd -n" the cell with n negated modulo 2^64. |
| RequestDetails.NumberPiece | src/backend/impl/details.cpp:104-105 | A printed number, with or without a sign, is one piece, and `stoul` reads it back. |
| RequestDetails.WordThen | src/library/string_funcs.hpp:29-43 | A space-free word, a space and a rest split into the word and the pieces of the rest. |
| RequestDetails.CountMeaning | src/backend/impl/details.cpp:114-148 | Each id seen is counted as often as it occurs, and no other id is counted. |
| RequestDetails.AscendingMeaning | src/backend/impl/details.cpp:152 | The keys come out in strictly ascending order, each key once. |
| RequestDetails.AtLeastMeaning | src/backend/impl/details.cpp:152-163 | `AtLeast` keeps exactly the keys counted at least `n` times. |
| RequestDetails.AtLeastSorted | src/backend/impl/details.cpp:152-163 | `AtLeast` keeps the keys' order. |
| RequestDetails.PairsOfMeaning | src/backend/impl/details.cpp:152-163 | The tiers: (2, x) for a key counted twice, (4, x) for one counted four times, nothing else. |
| RequestDetails.TotalBump | src/backend/impl/details.cpp:144-147 | Counting one more `x` adds one to the total of distinct keys exactly when `x` is among them. |
| RequestDetails.TotalBound | src/backend/impl/details.cpp:114-148 | Distinct keys account for no more discs than there are. |
| RequestDetails.AtLeastBound | src/backend/impl/details.cpp:152-163 | Each key kept by `AtLeast` accounts for at least `n` discs. |
| RequestDetails.CountedKeys | src/backend/impl/details.cpp:152 | The keys of a count in ascending order are exactly the ids counted. |
| RequestDetails.DdsListMeaning | src/backend/impl/details.cpp:152-163 | `dds_list` gains the set ids carried by at least two pieces, each once and ascending; the 4-piece list holds those carried by four or more. |
| RequestDetails.DdsByCountMeaning | src/backend/impl/details.cpp:152-163 | `dds_by_count` gains (2, id) for each listed id and (4, id) for each 4-piece id, and nothing else. |
| RequestDetails.SetBonusLimits | src/backend/impl/details.cpp:114-163 | With six discs, at most three sets reach two pieces and at most one reaches four. |
| RequestDetails.SampleCounts | src/backend/impl/details.cpp:114-148 | Counting the sample request's set ids. |
| RequestDetails.SampleRequestSets | src/backend/impl/details.cpp:84-164 | The sample request's discs: two of set 31000 and four of set 32800. |
| Converters.PieceFromMeaning | src/backend/converters.cpp:124-139 | Once the head is set, the built piece keeps its slot, rarity and main stat, carries the set id, and holds the listed sub stats in order, at least as many as the rarity requires. |
| Converters.FinishPiece | src/backend/converters.cpp:131-139 | The sub stat loop and `get_product` on a builder whose head is set: exactly the piece that head and the listed sub stats make, errors included. |
| CalcCalculator.TagSumRegular | src/calc/calculator.cpp:22-29 | Over regular stats `get_value` never throws and is the Universal base plus the base under every listed tag; a missing entry counts as 0. |
| CalcCalculator.UniversalTagTwice | src/calc/calculator.cpp:22-29 | A skill tagged Universal has its Universal value counted twice. |
| CalcCalculator.TagSumStops | src/calc/calculator.cpp:25-26 | Once a prefix of the tags throws, the whole sum throws the same way. |
| CalcCalculator.GetValue | src/calc/calculator.cpp:22-29 | `get_value`, the loop: exactly `TagSum`, a throwing lookup included. |
| CalcCalculator.DefMultOf | src/calc/calculator.cpp:31-36 | `calc_def_mult` past the lookups: never above 1, and exactly 1 once the effective defence is gone. |
| CalcCalculator.DefMultMonotone | src/calc/calculator.cpp:31-36 | More effective defence never raises the multiplier. |
| CalcCalculator.DivAntitone | src/calc/calculator.cpp:35 | A positive numerator over a larger denominator gives a smaller quotient. |
| CalcCalculator.DefMult | src/calc/calculator.cpp:31-36 | `calc_def_mult`: 794 over the effective defence (clamped at 0) plus 794, the penetration read through `get_value`; in (0, 1], 1 when no defence is left (DefMultOf). |
| CalcCalculator.ResAsWritten | src/calc/calculator.cpp:43 | `enemy.res[element]` as written: the element's own value indexes the resistances, and an index past the end reads outside the array. |
| CalcCalculator.ResOf | src/calc/calculator.cpp:42-46 | The resistance lookup as intended: Physical..Ether read slots 0..4. |
| CalcCalculator.ResIndexAsWritten | src/calc/calculator.cpp:43 | With five resistances, Ether reads past the end as written, and Physical reads Fire's slot. |
| CalcCalculator.ResShifted | src/calc/calculator.cpp:43 | As written, every element reads the slot the intended lookup gives the next element. |
| CalcCalculator.ResIndexCorrected | src/calc/calculator.cpp:43 | With five resistances every damage element has one, each its own slot. |
| CalcCalculator.StunFactor | src/calc/calculator.cpp:48-50 | `1.0 + calc_stun_mult(enemy, stats)`: 2 for an enemy that is not stunned. |
| CalcCalculator.CritCapped | src/calc/calculator.cpp:62-64 | Any rate of 100 or more gives the same crit multiplier; below that, the rate itself counts. |
| CalcCalculator.ElementRatio | src/calc/calculator.cpp:67 | `StatId::DmgRatio + element`, which never throws for DmgRatio. |
| CalcCalculator.RegularDamage | src/calc/calculator.cpp:52-81 | `calc_regular_dmg(skill, index, stats, enemy)`: the scale at `index`, the skill's buffs added to a copy of the grid, then the product of the multipliers under the skill's tag. |
| CalcCalculator.AnomalyDamage | src/calc/calculator.cpp:82-116 | `calc_anomaly_dmg(anomaly, element, stats, enemy)`: the anomaly's buffs added to a copy of the grid; crit only when the anomaly can crit, read under the Anomaly tag; the elemental damage ratio counts in both ratio factors. The agent's element `agentElement` is passed but unused. |
| CalcCalculator.RegularExample | src/calc/calculator.cpp:52-81 | A basic attack of 100% motion value with 1000 total attack and no other stats, against the calculator's enemy: crit and ratio factors of 1, damage taken 0.8, defence 794 / (953 + 794), resistance 0.8 and the stun factor 2. |
| CalcCalculator.ExampleFactors | src/calc/calculator.cpp:61-72 | Each lookup and multiplier of the example, on its one-entry grid. |
| CalcCalculator.ExampleProduct | src/calc/calculator.cpp:74-80 | The example's product, factor by factor. |
| CalcCalculator.ZeroTagSum | src/calc/calculator.cpp:22-29 | A stat the single-entry grid of the example lacks sums to 0 under the Basic tag. |
| CalcCalculator.AnomalyCrit | src/calc/calculator.cpp:92-95 | The anomaly crit multiplier: 1 when the anomaly cannot crit, the stats not even read. |
| CalcCalculator.AgentElementUnused | src/calc/calculator.cpp:82-116 | The agent's element plays no part in an anomaly's damage. |
| CalcCalculator.AddAll | src/calc/calculator.cpp:118-137 | Each grid `add`ed in turn into `start`; the first clash of two relative stats throws. |
| CalcCalculator.AddAllStops | src/calc/calculator.cpp:118-137 | Once a prefix of the grids throws, so does the whole sequence. |
| CalcCalculator.AddAllRegular | src/calc/calculator.cpp:118-137 | Adding all-regular grids never throws, and every key ends up holding the sum of its bases across the start and all the grids. |
| CalcCalculator.StatsOf | src/calc/calculator.cpp:118-137 | `calc_stats`, as one value: the contributions added into an empty grid. |
| CalcCalculator.StatsOfRegular | src/calc/calculator.cpp:118-137 | A request of regular stats always sums: each key holds the agent's, the W-engine's, the discs' and the chosen set bonuses' bases added up. |
| CalcCalculator.AddTo | src/calc/calculator.cpp:121-133 | `result.add(grid)` for the `n`-th contribution, given the first `n` are in. |
| CalcCalculator.CalcStats | src/calc/calculator.cpp:118-137 | `calc_stats(request)`: agent, W-engine, the six discs, then for each set its 2-piece bonus when counted twice and its 4-piece bonus when counted four times. Succeeds exactly when `StatsOf` does, with its value. |
| CalcCalculator.AddTier | src/calc/calculator.cpp:127-134 | One set of the `dds_by_count` loop: the `j`-th set's bonus for its count, if any, added as the grid at position `at` of `all`; `next` is where the later sets' bonuses start. |
| CalcCalculator.TierStep | src/calc/calculator.cpp:127-134 | The `j`-th set's bonus, if any, sits at `at`, and the later sets' bonuses right after it. |
| CalcCalculator.AddSetBonuses | src/calc/calculator.cpp:127-134 | The `dds_by_count` loop: for each set its 2-piece bonus when counted twice, its 4-piece bonus when counted four times, nothing otherwise. `all` ends with those bonuses from position `start` on. |
| CalcCalculator.CellDamage | src/calc/calculator.cpp:234-245 | The damage of one rotation cell: the agent's ability by the cell's command (`unordered_map::at`, so an unknown command throws), priced as a skill at scale `index - 1` or as an anomaly. Every cell reads the same grid. |
| CalcCalculator.Pricer | src/calc/calculator.cpp:234-245 | `CellDamage` on a fixed agent, grid and enemy, as a function of the cell. |
| CalcCalculator.DamagesMeaning | src/calc/calculator.cpp:233-249 | One value per cell, in rotation order, each the cell's own damage on the shared grid: no cell sees what another cell's ability added. |
| CalcCalculator.DamagesStop | src/calc/calculator.cpp:233-249 | Once a prefix of the cells throws, the whole rotation throws the same way. |
| CalcCalculator.SumAppend | src/calc/calculator.cpp:247 | Summing is additive over a split. |
| CalcCalculator.DamagesAppend | src/calc/calculator.cpp:233-249 | A rotation split in two prices as its halves do: the values of the whole are those of the first half followed by those of the second, and the total is the sum of the halves' totals. |
| CalcCalculator.EvalStats | src/calc/calculator.cpp:229-230 | The grid `eval` prices against: the summed stats with `atkTotal` added under its qualifier. |
| CalcCalculator.Eval | src/calc/calculator.cpp:222-252 | `Calculator::eval(request)`: sums the stats, adds the total attack (`atkTotal` stands for `make_defined_relative_stat(AtkTotal, Universal)`, which the repository does not define), then prices every cell in order. Succeeds exactly when `EvalOf` does, with its value. |
| CalcCalculator.PriceAll | src/calc/calculator.cpp:232-249 | The rotation loop of `eval`: each cell priced in turn, its value appended and added to the total. |
| CalcCalculator.PriceCell | src/calc/calculator.cpp:234-248 | The body of the rotation loop: cell `i` priced after the cells before it. |
| CalcCalculator.PrepareStats | src/calc/calculator.cpp:229-230 | `calc_stats(request)` followed by `stats.add(atkTotal)`. |
| CalcCalculator.EvalMeaning | src/calc/calculator.cpp:222-252 | What `eval` promises: one value per rotation cell, in rotation order, each that cell's damage on the same grid, and a total that is their sum. An unknown command or a skill cell with index 0 makes the whole call throw. |
| CalcCalculator.DisplayName | src/calc/calculator.cpp:274-275 | The name `eval_detailed` shows: the command, with a space and the scale number appended only for a skill of more than one scale; the appended digits read back as the cell's index. |
| CalcCalculator.Describe | src/calc/calculator.cpp:270-281 | The tags and the display name of a cell: the skill's tag, or the Anomaly tag and the bare command. |
| CalcCalculator.Annotated | src/calc/calculator.cpp:264-285 | Each cell's damage with its tags and display name. |
| CalcCalculator.AnnotatedNext | src/calc/calculator.cpp:264-285 | Annotating one more cell appends its entry. |
| CalcCalculator.DmgsOf | src/calc/calculator.cpp:284 | The damages of a sequence of entries. |
| CalcCalculator.DetailedAgrees | src/calc/calculator.cpp:253-288 | `eval_detailed` agrees with `eval`: it throws for the same requests, and otherwise has the same total and, cell by cell, the same damages. |
| CalcCalculator.EvalDetailed | src/calc/calculator.cpp:253-288 | `Calculator::eval_detailed(request)`: as `eval`, but each cell yields its damage, its tags and its display name. Succeeds exactly when `EvalDetailedOf` does, with its value. |
| CalcCalculator.DescribeCell | src/calc/calculator.cpp:265-284 | The body of the detailed loop: cell `i` priced, then given its tags and display name. |
| CalcCalculator.DescribeAll | src/calc/calculator.cpp:263-285 | The rotation loop of `eval_detailed`: each cell priced and described in turn. |
| BackendCalculator.BuffLevelIsTwo | src/backend/calculator.hpp:23-25 | At level 60 the anomaly buff multiplier is exactly 2. |
| BackendCalculator.Loaded | src/backend/calculator.cpp:30-32 | `manager.get(id)`: the object registered under the id; an unregistered id throws. |
| BackendCalculator.PlusElement | src/backend/calculator.cpp:164 | `StatType::DmgRatio + element` or `StatType::ResPen + element`, which never throw. |
| BackendCalculator.TotalAtkTagged | src/backend/calculator.cpp:145-148 | A tag's own attack ratio scales the base attack only; the flat attack is not scaled. |
| BackendCalculator.WithTotalAtk | src/backend/calculator.cpp:179 | `stats.at(AtkTotal).value = _calc_total_atk(stats, tag)`: `at` throws when the grid has no Universal total attack; otherwise only that stat's value changes. |
| BackendCalculator.WithTotalAtkMeaning | src/backend/calculator.cpp:179 | After the write, the total attack reads the computed total, and every other value is as before. |
| BackendCalculator.DefMult | src/backend/calculator.cpp:150-154 | `_calc_def_mult`: 794 over the effective defence (clamped at 0) plus 794, the penetration read under one tag; in (0, 1]. |
| BackendCalculator.ResMult | src/backend/calculator.cpp:160-165 | `_calc_res_mult`: 1, less the element's resistance, plus the general and the element's penetration. The resistance is read as written, at the element's own value (see `CalcCalculator.ResAsWritten`): an index past the end is an error. |
| BackendCalculator.CritUncapped | src/backend/calculator.cpp:182-184 | Past a rate of 100, this generation's crit multiplier exceeds the capped one of `calc`. |
| BackendCalculator.RegularDamage | src/backend/calculator.cpp:171-195 | `_calc_regular_dmg(skill, index, stats, enemy)`: the scale at `index` (read without a bounds check, so an index past the end is an error here), the skill's buffs added to a copy of the grid, the total attack written under the skill's tag, then the product of the factors. |
| BackendCalculator.AnomalyFactors | src/backend/calculator.cpp:205-218 | The factors of `_calc_anomaly_dmg` once the grid holds the total attack: base, crit under the Anomaly tag only when the anomaly can crit, the general and the anomaly damage ratios, the anomaly proficiency over 100, the buff level multiplier, damage taken, defense, resistance and stun. |
| BackendCalculator.AnomalyDamage | src/backend/calculator.cpp:197-222 | `_calc_anomaly_dmg(anomaly, element, stats, enemy)`, `element` being the agent's: the anomaly's buffs added to a copy of the grid, the total attack written under the Anomaly tag, then the product of the factors. |
| BackendCalculator.ProductZero | src/backend/calculator.cpp:220-221 | A product with a zero factor is zero. |
| BackendCalculator.NoApNoAnomaly | src/backend/calculator.cpp:213 | Without anomaly proficiency in the grid or the anomaly's buffs, an anomaly deals no damage. |
| BackendCalculator.CellDamage | src/backend/calculator.cpp:111-113 | One rotation cell: a skill (`is_skill_or_anomaly == 1`) at scale `index - 1`, otherwise the anomaly of that name (`anomaly(name)` throws for a name that is neither), with the agent's element. |
| BackendCalculator.Pricer | src/backend/calculator.cpp:111-113 | `CellDamage` on a fixed agent, grid and enemy, as a function of the cell. |
| BackendCalculator.DamagesMeaning | src/backend/calculator.cpp:110-117 | One value per cell, in rotation order, each that cell's damage on the same grid. |
| BackendCalculator.Fetch | src/backend/calculator.cpp:45 | `manager.get(id)` for a set id. |
| BackendCalculator.FetchedMeaning | src/backend/calculator.cpp:43-46 | The sets fetched: one per id carried by at least two discs, in ascending id order; an unregistered id throws. |
| BackendCalculator.BucketedMeaning | src/backend/calculator.cpp:52-60 | Bucketing succeeds iff every fetched set's id was counted; a set is under 2 (4) iff its count is at least 2 (4). |
| BackendCalculator.BucketedStep | src/backend/calculator.cpp:52-60 | Bucketing one more fetched set. |
| BackendCalculator.BucketedStops | src/backend/calculator.cpp:52-60 | Once a prefix of the fetched sets throws, bucketing them all throws the same way. |
| BackendCalculator.Pairs | src/backend/calculator.cpp:56-59 | Each set under one key, in order. |
| BackendCalculator.StatsAdded | src/backend/calculator.cpp:72-76 | `add(stat)` of each stat in turn. |
| BackendCalculator.StatsAddedValues | src/backend/calculator.cpp:72-76 | Adding stats one by one adds each one's value under its own id and tag. |
| BackendCalculator.StatsAddedStep | src/backend/calculator.cpp:72-76 | Adding the first `i + 1` stats is adding the first `i`, then stat `i`. |
| BackendCalculator.StatsAddedAppend | src/backend/calculator.cpp:72-76 | Adding `a` then `b` is adding `a + b`. |
| BackendCalculator.PieceStats | src/backend/calculator.cpp:73-75 | A disc's contribution: its main stat, then exactly its four sub stats. |
| BackendCalculator.EntriesAddedValues | src/backend/calculator.cpp:78-83 | Adding the entries' grids adds their values and keeps the grid keyed. |
| BackendCalculator.ChainValues | src/backend/calculator.cpp:85-88 | Adding four keyed grids into an empty one adds their values. |
| BackendCalculator.WengineValues | src/backend/calculator.cpp:68-70 | The w-engine's grid holds its main and sub stat and its passive values. |
| BackendCalculator.EntriesValueAppend | src/backend/calculator.cpp:78-83 | The entries of a concatenation add what each part adds. |
| BackendCalculator.PairsValue | src/backend/calculator.cpp:78-83 | Under key 2 a set adds its 2-piece bonus only; under key 4 its 4-piece bonus only. |
| BackendCalculator.EntriesValueTiers | src/backend/calculator.cpp:78-83 | The multimap adds the 2-piece bonus of every set under key 2 and the 4-piece bonus of every set under key 4. |
| BackendCalculator.EntriesOfKeyed | src/backend/calculator.cpp:78-83 | The multimap's grids are keyed when every bucketed set's are. |
| BackendCalculator.AggregatedValues | src/backend/calculator.cpp:63-107 | Every value of the aggregated grid is the agent's value, plus the w-engine's main and sub stat and passive value, plus every disc's main and four sub stats, plus the 2-piece bonus of every set under key 2 and the 4-piece bonus of every set under key 4. |
| BackendCalculator.FetchedMembers | src/backend/calculator.cpp:34-46 | With every set registered under its own id, the sets fetched are the registered sets carried by two discs. |
| BackendCalculator.TiersMeaning | src/backend/calculator.cpp:34-60 | With every set registered under its own id: the sets part of `eval` throws unless every set id carried by at least two discs is registered, and then the sets under key 2 are exactly the registered sets carried by at least two discs, those under key 4 those carried by at least four. |
| BackendCalculator.FetchedCounted | src/backend/calculator.cpp:34-60 | With every set registered under its own id, each fetched set's id is counted, as often as discs carry it. |
| BackendCalculator.PreparedParts | src/backend/calculator.cpp:29-50 | `eval`'s preparation uses the agent and the rotation registered under the requested ids. |
| BackendCalculator.EvalMeaning | src/backend/calculator.cpp:19-142 | What `eval` promises: one value per rotation cell of the requested rotation, in order, each that cell's damage on the aggregated grid, and a total that is their sum. |
| BackendCalculator.EvalCells | src/backend/calculator.cpp:110-117 | `eval` throws on a rotation cell whose command is neither a skill nor an anomaly of the requested agent, and on a skill cell with index 0. |
| BackendCalculator.DamagesCells | src/backend/calculator.cpp:110-117 | A priced rotation names only known abilities, and no skill cell has index 0. |
| BackendCalculator.CountSets | src/backend/calculator.cpp:34-40 | `dds_count`: each disc's set id counted in turn. |
| BackendCalculator.FetchStep | src/backend/calculator.cpp:43-46 | Fetching one more id: its set appended, or the fetch fails. |
| BackendCalculator.FetchStops | src/backend/calculator.cpp:43-46 | A set id that fails to fetch fails the fetch of every id listed. |
| BackendCalculator.AtLeastAppend | src/backend/calculator.cpp:43-46 | Selecting from a concatenation selects from each part. |
| BackendCalculator.FetchSets | src/backend/calculator.cpp:42-46 | The fetch loop over `dds_count` in ascending id order: every id counted at least twice is fetched; an unregistered one throws. |
| BackendCalculator.BucketSets | src/backend/calculator.cpp:52-60 | The loop over the fetched sets, filling the `dds` multimap. |
| BackendCalculator.GridOf | src/backend/calculator.cpp:64 | A grid object holding the given stats. |
| BackendCalculator.AddPiece | src/backend/calculator.cpp:73-75 | One disc: `add(main_stat())`, then `add(sub_stat(i))` for i below 4. |
| BackendCalculator.AddDiscs | src/backend/calculator.cpp:72-76 | The disc loop: every disc's stats added in disc order. |
| BackendCalculator.AddBonuses | src/backend/calculator.cpp:78-83 | The set loop: for each multimap entry, `p2` for key 2 and `p4` for key 4. |
| BackendCalculator.AgentStats | src/backend/calculator.cpp:66 | The agent's grid: `agent_stats.add(agent->stats())`. |
| BackendCalculator.WengineStats | src/backend/calculator.cpp:68-70 | The w-engine's grid: main stat, sub stat, then the passive grid. |
| BackendCalculator.DiscStats | src/backend/calculator.cpp:72-76 | The discs' grid. |
| BackendCalculator.SetStats | src/backend/calculator.cpp:78-83 | The sets' grid, from the `dds` multimap. |
| BackendCalculator.Aggregate | src/backend/calculator.cpp:63-88 | The aggregation block of `eval`: four grids built apart, then added into one in order. |
| BackendCalculator.FetchedKeyed | src/backend/calculator.cpp:43-46 | The sets fetched from a manager whose grids are keyed have keyed grids. |
| BackendCalculator.Prepare | src/backend/calculator.cpp:29-61 | The part of `eval` before the rotation loop: exactly `PreparedOf`, every throw included. |
| BackendCalculator.DamagesStop | src/backend/calculator.cpp:110-117 | Once a prefix of the rotation throws, pricing all of it throws the same way. |
| BackendCalculator.PriceAll | src/backend/calculator.cpp:109-117 | The rotation loop: each cell priced in turn, its value appended and added to the total. |
| BackendCalculator.PriceCell | src/backend/calculator.cpp:110-116 | The body of the rotation loop: cell `i` priced after the cells before it. |
| BackendCalculator.Eval | src/backend/calculator.cpp:19-142 | `Calculator::eval`: succeeds exactly when `EvalOf` does, with its value. |
| JsonNode.TypeIndex | src/utl/json.cpp:343-345 | `Node::type()`: the index of the alternative in the variant, in the order of `NodeType` (null 0, object 1, array 2, string 3, integral 4, floating 5, bool 6). |
| JsonNode.TypeIndexIdentifiesAlternative | src/utl/json.hpp:242-264 | Two nodes have the same type index exactly when they are the same alternative. |
| JsonNode.DefaultIsNull | src/utl/json.hpp:257-266 | A default-constructed node is null, type index 0. |
| JsonNode.AsObject | src/utl/json.cpp:188 | `as_object`: Ok exactly on an object node, giving back the fields it was built from; `bad_variant_access` otherwise. |
| JsonNode.AsArray | src/utl/json.cpp:189 | `as_array`: Ok exactly on an array node, giving back its items; `bad_variant_access` otherwise. |
| JsonNode.AsString | src/utl/json.cpp:190 | `as_string`: Ok exactly on a string node, giving back its text; `bad_variant_access` otherwise. |
| JsonNode.AsIntegral | src/utl/json.cpp:191 | `as_integral`: Ok exactly on an integral node, giving back its value; `bad_variant_access` otherwise. |
| JsonNode.AsFloating | src/utl/json.cpp:192 | `as_floating`: Ok exactly on a floating node, giving back its value; `bad_variant_access` otherwise. |
| JsonNode.AsBool | src/utl/json.cpp:193 | `as_bool`: Ok exactly on a bool node, giving back its value; `bad_variant_access` otherwise. |
| JsonNode.Contains | src/utl/json.cpp:244-248 | `contains(key)`: on a non-object the `as_object` inside throws. |
| JsonNode.At | src/utl/json.cpp:227-242 | Const `operator[](key)` and `at(key)`: a missing key throws. |
| JsonNode.Index | src/utl/json.cpp:215-226 | Non-const `operator[](key)`: a null node first becomes an empty object, a missing key is inserted with a null child; the result is the updated node and the child the returned reference designates. |
| JsonNode.ValueOr | src/utl/json.hpp:339-345 | `value_or<T>(key, else_value)`: the stored value when the key exists (which must then hold the alternative `T`, whose index is `kind`), the fallback otherwise. The node itself is not touched. |
| JsonNode.AtPos | src/utl/json.cpp:256-257 | `at(pos)`: an index past the end throws `out_of_range`. |
| JsonNode.PushBack | src/utl/json.cpp:259-266 | `push_back(node)`: a null node first becomes an empty array. |
| JsonNode.AssignedType | src/utl/json.hpp:366-398 | Which alternative the converting `operator=` stores for a value type, as a `NodeType` index; `None` for a type none of the tests accept (rejected at compile time). Priority: string > object > array > bool > null > floating > integral. |
| JsonUtf8.CodepointToUtf8 | src/utl/json.cpp:42-81 | `_codepoint_to_utf8`: one, two, three or four bytes for code points up to 0x7F, 0x7FF, 0xFFFF and 0x10FFFF; `None` (false, nothing appended) above that. |
| JsonUtf8.ByteCharBits | src/utl/json.cpp:79 | The bytes read back as a `bv32`. |
| JsonUtf8.Utf8One | src/utl/json.cpp:49-52 | The one-byte form decodes back. |
| JsonUtf8.Utf8TwoBits | src/utl/json.cpp:54-58 | The bits of the two-byte form. |
| JsonUtf8.Utf8Two | src/utl/json.cpp:54-58 | The two-byte form decodes back. |
| JsonUtf8.Utf8ThreeDecode | src/utl/json.cpp:60-65 | Three bytes with a three-byte lead and two continuations decode to their payload, if in range. |
| JsonUtf8.Utf8ThreeBits | src/utl/json.cpp:60-65 | The bits of the three-byte form. |
| JsonUtf8.Utf8Three | src/utl/json.cpp:60-65 | The three-byte form of a non-surrogate decodes back. |
| JsonUtf8.Utf8FourDecode | src/utl/json.cpp:67-73 | Four bytes with a four-byte lead and three continuations decode to their payload, if in range. |
| JsonUtf8.Utf8FourBits | src/utl/json.cpp:67-73 | The bits of the four-byte form. |
| JsonUtf8.Utf8Four | src/utl/json.cpp:67-73 | The four-byte form decodes back. |
| JsonUtf8.Utf8RoundTrip | src/utl/json.cpp:42-81 | Every Unicode scalar value is written in the shortest form and decodes back to itself. |
| JsonUtf8.SurrogateNotUtf8 | src/utl/json.cpp:59-65 | A surrogate is written as three bytes all the same, which section 3 of RFC 3629 does not accept as UTF-8. |
| JsonUtf8.Utf16PairToCodepoint | src/utl/json.cpp:86-88 | `_utf16_pair_to_codepoint`: the high unit's ten low bits above the low unit's, past the basic plane. |
| JsonUtf8.Utf16PairRoundTrip | src/utl/json.cpp:86-88 | Section 2.1 of RFC 2781 writes a code point past the basic plane as the pair `0xD800 + (v >> 10)`, `0xDC00 + (v & 0x3FF)` with `v = cp - 0x10000`; combining that pair gives the code point back. |
| JsonUtf8.Utf16PairEncodes | src/utl/json.cpp:741-742 | What a pair combines to never needs the failure branch of `_codepoint_to_utf8`, and is never a surrogate. |
| JsonText.SkipFrom | src/utl/json.cpp:435-446 | `skip_nonsignificant_whitespace`: the first significant position at or after `cursor`. |
| JsonText.SkipMeaning | src/utl/json.cpp:435-446 | Skipping stops at the first significant character, everything before it being whitespace, and fails exactly when only whitespace is left. |
| JsonText.UnicodeAt | src/utl/json.cpp:663-751 | `parse_escaped_unicode_codepoint` with `cursor` at the `u`: the position of the escape's last character and the bytes it appends. A first unit in 0xD800..0xDFFF needs a second `\uXXXX` and the two are combined. |
| JsonText.UnicodeSingle | src/utl/json.cpp:746-750 | A `\u` escape outside the surrogate range takes four hexadecimal digits and appends their code point in UTF-8. |
| JsonText.UnicodePair | src/utl/json.cpp:733-744 | A `\u` escape in the surrogate range needs a second `\uXXXX`; it takes ten characters and appends, in UTF-8, the code point the pair combines to, which lies past the basic plane. |
| JsonText.UnicodeRejects | src/utl/json.cpp:703-730 | A `\u` escape throws when fewer than four characters follow the `u` before the end, or they are not all hexadecimal digits. |
| JsonText.UncheckedLowSurrogate | src/utl/json.cpp:733-743 | The second half of a pair is not checked to be a low surrogate, nor the first to be a high one: any two escapes whose first lies in the surrogate range are read as a pair, taking ten characters. |
| JsonText.EscapeAt | src/utl/json.cpp:787-802 | One escape, with `i` at the character after the backslash: the position of its last character and what it appends. |
| JsonText.StringBody | src/utl/json.cpp:766-820 | The loop of `parse_string` from `cursor`: the position past the closing quote and the string read. Ordinary characters are kept, escapes are replaced, and an unescaped control character or the end of the buffer throws. |
| JsonText.StringAt | src/utl/json.cpp:752-821 | `parse_string` at `cursor`: the opening quote is stepped over, not checked. |
| JsonText.PrependedTwice | src/utl/json.cpp:771 | Two prefixes in turn are their concatenation. |
| JsonText.StringVerbatim | src/utl/json.cpp:766-775 | A run of characters other than quotes, backslashes and control characters is copied verbatim: reading from its start is reading from its end with the run in front. |
| JsonText.StringControl | src/utl/json.cpp:812-816 | An unescaped control character throws once the string reaches it. |
| JsonText.KeyAsWritten | src/utl/json.cpp:487-491 | The key of an object pair as the parser reads it: `parse_string` at the pair's first character, whatever it is. |
| JsonText.UnquotedKeyAccepted | src/utl/json.cpp:487-491 | A pair whose key lacks its opening quote is read with its first character dropped where the parser reads it, and refused where the key must open with a quote. |
| JsonText.KeyAt | src/utl/json.cpp:487-491 | The key of an object pair as evidently intended: read only when it opens with a quote. |
| JsonText.RunEnd | src/utl/json.cpp:827-836 | The position where the scan stops: the first character that is neither a digit nor a minus sign. |
| JsonText.DigitsEnd | src/utl/json.cpp:848-853 | The first position at or after `i` that is not a decimal digit. |
| JsonText.IntegralAt | src/utl/json.cpp:847-855 | `std::from_chars` into an `int64_t`: an optional minus sign, then the longest run of digits (at least one); a value outside the 64-bit range throws. |
| JsonText.ExponentEnd | src/utl/json.cpp:839-846 | The end of the exponent part `std::from_chars` takes after a mantissa ending at `i`: an `e` or `E`, an optional sign and at least one digit; without the digits nothing is taken. |
| JsonText.FloatEnd | src/utl/json.cpp:839-846 | The numeral `std::from_chars` reads as a `double` (general format) from `cursor`: an optional minus sign, digits with an optional decimal point (at least one digit on either side of it), then an optional exponent. `None` when there is no such numeral. |
| JsonText.NumberAt | src/utl/json.cpp:822-874 | `parse_number`: a floating number is the numeral `from_chars` reads, rounded by the reader, any other is read by `IntegralAt`; no numeral and a value out of range throw. |
| JsonText.NodeAt | src/utl/json.cpp:447-483 | `parse_node` at a significant character, `depth` being `recursion_depth`: the node's first character selects what is read. |
| JsonText.PairAt | src/utl/json.cpp:484-547 | `parse_object_pair`: the key, then a colon between optional whitespace, then the value. The key is read by `parse_string` at the pair's first character, which is not checked to be a quote. |
| JsonText.PairValueAt | src/utl/json.cpp:502-546 | The value of a pair, from just past the colon: the depth goes up by one and must stay within the limit; `try_emplace` keeps a key already present. |
| JsonText.ObjectAt | src/utl/json.cpp:548-563 | `parse_object` with `cursor` at the opening brace: empty, or a first pair and then `ObjectRest`. |
| JsonText.ObjectRest | src/utl/json.cpp:579-600 | The loop of `parse_object`: past optional whitespace, a comma and another pair, or the closing brace. |
| JsonText.ObjectNext | src/utl/json.cpp:580-595 | One turn of the object loop at a significant character. |
| JsonText.ElementAt | src/utl/json.cpp:601-621 | `parse_array_element`: a node one level deeper, appended. |
| JsonText.ArrayAt | src/utl/json.cpp:622-637 | `parse_array` with `cursor` at the opening bracket: empty, or a first element and then `ArrayRest`. |
| JsonText.ArrayRest | src/utl/json.cpp:641-662 | The loop of `parse_array`: past optional whitespace, a comma and another element, or the closing bracket. |
| JsonText.ArrayNext | src/utl/json.cpp:642-657 | One turn of the array loop at a significant character. |
| JsonText.NodeNested | src/utl/json.cpp:503-507 | Whatever the parser returns from `depth` nests within the levels the recursion limit leaves: a text nested deeper than `recursion_limit` throws instead of being parsed. |
| JsonText.ObjectNested | src/utl/json.cpp:548-600 | An object's fields nest within the levels left. |
| JsonText.ObjectRestNested | src/utl/json.cpp:579-600 | The object loop keeps the fields within the levels left. |
| JsonText.ObjectNextNested | src/utl/json.cpp:580-595 | One turn of the object loop keeps the fields within the levels left. |
| JsonText.PairNested | src/utl/json.cpp:503-512 | A pair's value is one level down and nests within what is left. |
| JsonText.PairValueNested | src/utl/json.cpp:503-512 | The pair's value, read one level down. |
| JsonText.FieldsWithinAdded | src/utl/json.cpp:544 | Adding a field one level down that nests within what is left keeps the fields within the levels. |
| JsonText.ArrayNested | src/utl/json.cpp:622-662 | An array's items nest within the levels left. |
| JsonText.ArrayRestNested | src/utl/json.cpp:641-662 | The array loop keeps the items within the levels left. |
| JsonText.ArrayNextNested | src/utl/json.cpp:642-657 | One turn of the array loop keeps the items within the levels left. |
| JsonText.ElementNested | src/utl/json.cpp:607-616 | An element is one level down and nests within what is left. |
| JsonText.ElementValue | src/utl/json.cpp:607-618 | An element read is the node read one level down, appended. |
| JsonText.ItemsWithinAppended | src/utl/json.cpp:618 | Appending an item one level down that nests within what is left keeps the items within the levels. |
| JsonText.FromStringNested | src/utl/json.cpp:1289-1306 | A document `from_string` accepts nests within `recursion_limit`. |
| JsonText.LimitZero | src/utl/json.cpp:503-507 | With a recursion limit of 0 only a scalar or an empty container is accepted. |
| JsonText.PairKeepsFirst | src/utl/json.cpp:544 | A duplicated key keeps its first value: every field read before a pair keeps its value, the pair adds at most its own key. |
| JsonText.PairValueKeepsFirst | src/utl/json.cpp:544 | The value stage adds the key only when it is new. |
| JsonText.ObjectRestKeepsFirst | src/utl/json.cpp:579-600 | The object loop never replaces a field already read. |
| JsonText.ObjectNextKeepsFirst | src/utl/json.cpp:583-586 | One turn of the object loop never replaces a field already read. |
| JsonText.TrailingRejected | src/utl/json.cpp:1297-1300 | `from_string` of a text ending in whitespace-free garbage after the root throws. |
| JsonParser.Terminated | src/utl/json.cpp:830-836 | The NUL `std::string` keeps past its last character, which the number scan may read. |
| JsonParser.Parser.constructor | src/utl/json.cpp:431-434 | `_parser(chars, recursion_limit)`: the depth starts at zero. |
| JsonParser.Parser.SkipWhitespace | src/utl/json.cpp:435-446 | `skip_nonsignificant_whitespace`: the position `SkipFrom` gives, the first significant character at or after `cursor`; only whitespace left throws. |
| JsonParser.Parser.ParseNode | src/utl/json.cpp:447-483 | `parse_node`: the first character selects the reader; the result is exactly `NodeAt`, the depth restored. |
| JsonParser.Parser.ParseObjectPair | src/utl/json.cpp:484-500 | `parse_object_pair`, up to the colon: the key, read by `parse_string` at the pair's first character whatever it is, then the colon between optional whitespace. |
| JsonParser.Parser.ParsePairValue | src/utl/json.cpp:502-546 | The rest of `parse_object_pair`: past whitespace, `recursion_depth` goes up by one and must stay within the limit, the value is read and the depth goes back down; `try_emplace` keeps a key already in `parent`. |
| JsonParser.Parser.ParseObject | src/utl/json.cpp:548-600 | `parse_object`: the first pair, then commas and pairs up to the closing brace; exactly `ObjectAt`. |
| JsonParser.Parser.ParseNextPair | src/utl/json.cpp:583-586 | The comma branch of the loop of `parse_object`: past whitespace, one more pair. |
| JsonParser.Parser.ParseArrayElement | src/utl/json.cpp:601-621 | `parse_array_element`: a node one level deeper, appended to `parent`. |
| JsonParser.Parser.ParseArray | src/utl/json.cpp:622-662 | `parse_array`: the first element, then commas and elements up to the closing bracket; exactly `ArrayAt`. |
| JsonParser.Parser.ParseNextElement | src/utl/json.cpp:645-648 | The comma branch of the loop of `parse_array`: past whitespace, one more element. |
| JsonParser.Parser.ParseEscapedUnicode | src/utl/json.cpp:663-751 | `parse_escaped_unicode_codepoint` with `cursor` at the `u`: the position of the escape's last character and the UTF-8 bytes it appends. |
| JsonParser.Parser.ParseLowSurrogate | src/utl/json.cpp:734-739 | The second half of a surrogate pair, `\uXXXX` after the first four digits. |
| JsonParser.Parser.ParseString | src/utl/json.cpp:752-821 | `parse_string` at `cursor`: the characters between escapes are appended a whole segment at a time, from `segment_start` up to the escape or the closing quote. |
| JsonParser.Parser.ParseEscape | src/utl/json.cpp:787-802 | The escape step of `parse_string`, at the character after a backslash: a two-character escape is looked up, a `u` starts a unicode escape, anything else throws. |
| JsonParser.Parser.ParseNumber | src/utl/json.cpp:822-874 | `parse_number`: the scan runs over digits and minus signs, and the number is floating when the character that stops it is a point. |
| JsonParser.Parser.ParseTrue | src/utl/json.cpp:875-895 | `parse_true`: Ok exactly when the four characters at `cursor` are `true`, with the position past them. |
| JsonParser.Parser.ParseFalse | src/utl/json.cpp:896-917 | `parse_false`: Ok exactly when the five characters at `cursor` are `false`, with the position past them. |
| JsonParser.Parser.ParseNull | src/utl/json.cpp:918-938 | `parse_null`: Ok exactly when the four characters at `cursor` are `null`, with the position past them. |
| JsonParser.ObjectOpened | src/utl/json.cpp:551-563 | Past the opening of an object: skipping fails, or it closes at once, or its first pair follows. |
| JsonParser.ObjectFirst | src/utl/json.cpp:558-559 | An object that does not close at once fails with its first pair or goes on with the loop after it. |
| JsonParser.ObjectTurn | src/utl/json.cpp:580-581 | A turn of the object loop: skipping fails, or the turn goes on at the next significant character. |
| JsonParser.ObjectClosing | src/utl/json.cpp:587-595 | At anything but a comma, the object closes or is malformed. |
| JsonParser.ObjectComma | src/utl/json.cpp:583-585 | At a comma, skipping the whitespace after it may fail. |
| JsonParser.ObjectCommaNext | src/utl/json.cpp:586 | After a comma, one more pair fails or the object loop goes on past it. |
| JsonParser.ObjectRestEnd | src/utl/json.cpp:598-599 | The object loop at the end of the buffer. |
| JsonParser.ArrayOpened | src/utl/json.cpp:625-637 | Past the opening of an array: skipping fails, or it closes at once, or its first element follows. |
| JsonParser.ArrayFirst | src/utl/json.cpp:632-633 | An array that does not close at once fails with its first element or goes on with the loop after it. |
| JsonParser.ArrayTurn | src/utl/json.cpp:642-643 | A turn of the array loop: skipping fails, or the turn goes on at the next significant character. |
| JsonParser.ArrayClosing | src/utl/json.cpp:649-657 | At anything but a comma, the array closes or is malformed. |
| JsonParser.ArrayComma | src/utl/json.cpp:645-647 | At a comma, skipping the whitespace after it may fail. |
| JsonParser.ArrayCommaNext | src/utl/json.cpp:648 | After a comma, one more element fails or the array loop goes on past it. |
| JsonParser.ArrayRestEnd | src/utl/json.cpp:660-661 | The array loop at the end of the buffer. |
| JsonParser.StringScanEscaped | src/utl/json.cpp:776-809 | One escape of the string loop: the segment and the escape's text are appended and a new segment starts after it. |
| JsonParser.StringScanPlain | src/utl/json.cpp:766-767 | One ordinary character of the string loop: it joins the pending segment. |
| JsonParser.StringScanStart | src/utl/json.cpp:756-766 | The string loop as it starts, past the opening quote with nothing appended, reads the string at `cursor`. |
| JsonParser.StringScanMeaning | src/utl/json.cpp:766-821 | The segment-buffered loop reads what `StringBody` reads: when the pending segment holds only ordinary characters, scanning on is reading the rest of the string with the value and the segment in front. |
| JsonParser.FromString | src/utl/json.cpp:1289-1306 | `from_string`: leading whitespace, the root node, then a loop that throws at the first significant character after it. |
| JsonWriter.KeyLessTotal | src/utl/json.cpp:996-1008 | Two different keys are ordered one way or the other. |
| JsonWriter.LeastUnique | src/utl/json.cpp:996-1008 | Only one key comes first. |
| JsonWriter.Least | src/utl/json.cpp:996-1008 | The first key of a non-empty key set. |
| JsonWriter.SortedKeysMeaning | src/utl/json.cpp:996-1008 | The iteration order lists every key once, in strictly ascending order. |
| JsonWriter.EscapeInverted | src/utl/json.cpp:377-422 | The parser undoes every replacement; a character left alone is neither a quote nor a backslash; the forward slash, which the parser also accepts escaped, is left alone. |
| JsonWriter.EscapedAppend | src/utl/json.cpp:1049-1058 | Escaping works character by character. |
| JsonWriter.EscapedSegment | src/utl/json.cpp:1051-1055 | The string loop's step at an escaped character: what was written up to the segment start, then the segment as it is, then the escape. |
| JsonWriter.EscapedNext | src/utl/json.cpp:1051-1055 | Escaping one more character appends its escaped form. |
| JsonWriter.EscapedRest | src/utl/json.cpp:1058 | After the last escaped character the rest of the string is written as it is. |
| JsonWriter.EscapedStep | src/utl/json.cpp:1051-1055 | The string loop's step at an escaped character: the segment before it as it is, then the escape. |
| JsonWriter.EscapedVerbatim | src/utl/json.cpp:1049-1058 | A run without escaped characters is written as it is. |
| JsonWriter.IntegralText | src/utl/json.cpp:1063-1079 | `std::to_chars` on an `int64_t`: a minus sign for a negative value, then the decimal digits. |
| JsonWriter.DecimalLength | src/utl/json.cpp:1066 | A number below 10^k has at most k digits. |
| JsonWriter.IntegralFits | src/utl/json.cpp:1066-1074 | The 20-character buffer of the source holds every 64-bit value, so `to_chars` never fails there. |
| JsonWriter.MembersFirst | src/utl/json.cpp:1004-1007 | Writing the first member leaves the others, after a comma unless none is left. |
| JsonWriter.MemberListOrder | src/utl/json.cpp:996-1008 | The list holds, at each position, the member of the key `SortedKeys` puts there. |
| JsonWriter.MembersJoined | src/utl/json.cpp:994-1010 | An object's members are its keys' members in ascending key order, joined by single commas, with none after the last. |
| JsonWriter.ElementsJoined | src/utl/json.cpp:1022-1034 | An array's elements are its items' texts joined by single commas, with none after the last. |
| JsonWriter.Writer.constructor | src/utl/json.cpp:321-322 | An empty buffer holding the given double formatter. |
| JsonWriter.Writer.WriteNode | src/utl/json.cpp:977-1121 | `_serialize_json_recursion_minimized`: the node's text is appended. |
| JsonWriter.Writer.WriteObject | src/utl/json.cpp:984-1011 | The object branch: an opening brace, then each member in map order followed by a comma unless it is the last, then the closing brace. |
| JsonWriter.Writer.WriteMember | src/utl/json.cpp:997-1002 | One member: the key between quotes, a colon, the value. |
| JsonWriter.Writer.WriteArray | src/utl/json.cpp:1013-1035 | The array branch: an opening bracket, the elements separated by commas, the closing bracket. |
| JsonWriter.Writer.WriteString | src/utl/json.cpp:1037-1061 | The string branch: the characters between the escaped ones are appended a segment at a time, each escaped character as a backslash and its letter. |
| JsonWriter.ToString | src/utl/json.cpp:321-325 | `Node::to_string` with the minimized format: a fresh buffer, the node written into it. |
| JsonRoundTrip.WrittenSplit | src/utl/json.cpp:1037-1061 | A text written from `cursor` is its first part there, then its second part. |
| JsonRoundTrip.WrittenChar | src/utl/json.cpp:1037-1061 | A character of a text written from `cursor`. |
| JsonRoundTrip.CharRead | src/utl/json.cpp:766-775 | One written character is read back as itself, in front of what is read after it. |
| JsonRoundTrip.QuoteRead | src/utl/json.cpp:770-773 | The closing quote ends the string. |
| JsonRoundTrip.EscapedTail | src/utl/json.cpp:776-809 | What follows the first written character: the rest of the string, written, then the quote. |
| JsonRoundTrip.EscapedHead | src/utl/json.cpp:776-809 | Reading the first written character in front of the rest of the string read. |
| JsonRoundTrip.EscapedRead | src/utl/json.cpp:776-809 | The escaped characters of a representable string, followed by a quote, are read back as the string. |
| JsonRoundTrip.QuotedLayout | src/utl/json.cpp:1037-1061 | A written string is a quote, then its escaped characters and the closing quote. |
| JsonRoundTrip.StringRoundTrip | src/utl/json.cpp:752-821 | `parse_string` reads a written string node back. |
| JsonRoundTrip.DigitsEndAt | src/utl/json.cpp:847-855 | The digit scan stops at the end of a run of digits. |
| JsonRoundTrip.RunEndAt | src/utl/json.cpp:827-836 | The number scan stops at the end of a run of digits and minus signs. |
| JsonRoundTrip.DecimalRead | src/utl/json.cpp:847-855 | The digits of a written magnitude, read back. |
| JsonRoundTrip.NegativeRead | src/utl/json.cpp:1063-1079 | A written negative integer: the minus sign, then the digits of its magnitude. |
| JsonRoundTrip.NonNegativeRead | src/utl/json.cpp:1063-1079 | A written non-negative integer: its digits. |
| JsonRoundTrip.IntegralRun | src/utl/json.cpp:827-836 | A written integer is a run of digits and minus signs ending where the number ends. |
| JsonRoundTrip.IntegralRoundTrip | src/utl/json.cpp:822-874 | `parse_number` reads a written 64-bit integer back as an integral node: the text has no decimal point, so it is not taken for a floating number. |
| JsonRoundTrip.FirstSignificant | src/utl/json.cpp:453-476 | A written node starts with a character that selects a node, not whitespace or a closing bracket. |
| JsonRoundTrip.NodeStart | src/utl/json.cpp:435-446 | A written node starts at a significant character. |
| JsonRoundTrip.MarkerFirst | src/utl/json.cpp:435-446 | A text written from `cursor` that opens with a marker: skipping stops at once. |
| JsonRoundTrip.FieldChild | src/utl/json.cpp:503-512 | A field's value is writable and nests within one level less than its object. |
| JsonRoundTrip.ItemChild | src/utl/json.cpp:607-616 | An item is writable and nests within one level less than its array. |
| JsonRoundTrip.FieldsStep | src/utl/json.cpp:544 | Reading the pair of the least key left adds that key to what was read before. |
| JsonRoundTrip.KeysStep | src/utl/json.cpp:996-1008 | The keys left after the least one, when it was not the last. |
| JsonRoundTrip.FieldsLast | src/utl/json.cpp:996-1008 | Once the last key left is read, everything has been read. |
| JsonRoundTrip.MemberLayout | src/utl/json.cpp:997-1002 | A written member is a quote, the key, a quote and a colon, then the value. |
| JsonRoundTrip.KeyRead | src/utl/json.cpp:491 | A quoted plain key is read back as it is. |
| JsonRoundTrip.MembersLayout | src/utl/json.cpp:994-1010 | The members left, in map order: the first one, then a comma and the others, or the closing brace. |
| JsonRoundTrip.ElementsLayout | src/utl/json.cpp:1022-1034 | The elements from index `i`: the item's text, then a comma and the others, or the closing bracket. |
| JsonRoundTrip.ContainerLayout | src/utl/json.cpp:984-1035 | A written container: its opening character, then its members or elements and the closing character. |
| JsonRoundTrip.PairStep | src/utl/json.cpp:579-595 | A pair read, then either the closing brace or a comma and the pairs left. |
| JsonRoundTrip.ElementStep | src/utl/json.cpp:641-657 | An element read, then either the closing bracket or a comma and the elements left. |
| JsonRoundTrip.PairClosing | src/utl/json.cpp:587-589 | A pair read, then the closing brace: the object is complete. |
| JsonRoundTrip.PairComma | src/utl/json.cpp:583-586 | A pair read, then a comma: the loop goes on with the next pair. |
| JsonRoundTrip.ElementClosing | src/utl/json.cpp:649-651 | An element read, then the closing bracket: the array is complete. |
| JsonRoundTrip.ElementComma | src/utl/json.cpp:645-648 | An element read, then a comma: the loop goes on with the next element. |
| JsonRoundTrip.PairRead | src/utl/json.cpp:484-547 | A quoted plain key, a colon and a value read one level deeper make a pair added under that key. |
| JsonRoundTrip.PairKey | src/utl/json.cpp:484-500 | A quoted plain key and a colon: the pair goes on with its value from just past the colon. |
| JsonRoundTrip.PairFromKey | src/utl/json.cpp:494-500 | A key read up to a colon that directly follows it: the pair goes on past the colon. |
| JsonRoundTrip.PairValue | src/utl/json.cpp:502-546 | The value of a pair, read one level deeper and added under a new key. |
| JsonRoundTrip.ElementValue | src/utl/json.cpp:601-621 | An element read one level deeper and appended. |
| JsonRoundTrip.ObjectEmpty | src/utl/json.cpp:551-563 | An empty object: the opening brace, then the closing one. |
| JsonRoundTrip.ArrayEmpty | src/utl/json.cpp:625-637 | An empty array: the opening bracket, then the closing one. |
| JsonRoundTrip.ObjectOpening | src/utl/json.cpp:556-559 | An object opening on a pair. |
| JsonRoundTrip.ArrayOpening | src/utl/json.cpp:631-633 | An array opening on an element. |
| JsonRoundTrip.NodeObject | src/utl/json.cpp:456-457 | `parse_node` at an opening brace: the object read. |
| JsonRoundTrip.NodeArray | src/utl/json.cpp:458-459 | `parse_node` at an opening bracket: the array read. |
| JsonRoundTrip.NodeString | src/utl/json.cpp:460-461 | `parse_node` at a quote: the string read. |
| JsonRoundTrip.NodeNumber | src/utl/json.cpp:462-469 | `parse_node` at a digit or a minus sign: the number read. |
| JsonRoundTrip.NodeLiteral | src/utl/json.cpp:470-475 | `parse_node` at `t`, `f` or `n`: the literal written there. |
| JsonRoundTrip.NodeRoundTrip | src/utl/json.cpp:447-483 | `parse_node` reads a written node back, with the position just past its text, when it nests within the levels the recursion limit leaves. |
| JsonRoundTrip.ObjectRoundTrip | src/utl/json.cpp:548-600 | An object: `{}` when empty, otherwise its members read one after the other. |
| JsonRoundTrip.ArrayRoundTrip | src/utl/json.cpp:622-662 | An array: `[]` when empty, otherwise its elements read one after the other. |
| JsonRoundTrip.PairPlaced | src/utl/json.cpp:994-1010 | What the members of the keys left give the parser: the least key, plain and quoted, a colon, a writable value one level deeper, then a comma and the members of the other keys, or the closing brace. |
| JsonRoundTrip.ElementPlaced | src/utl/json.cpp:1022-1034 | What the elements from index `i` give the parser: a writable item one level deeper, then a comma and the elements after it, or the closing bracket. |
| JsonRoundTrip.MembersRoundTrip | src/utl/json.cpp:579-600 | The members of the keys left, followed by the closing brace, are read by the pair and the rest of the object loop; the object read is then the whole object. |
| JsonRoundTrip.PairRoundTrip | src/utl/json.cpp:484-547 | The pair of key `k`: its key, its colon and its value one level deeper, added to what was read before. |
| JsonRoundTrip.ElementRoundTrip | src/utl/json.cpp:601-621 | The item `value`: read one level deeper and appended to the items before it. |
| JsonRoundTrip.ElementsRoundTrip | src/utl/json.cpp:641-662 | The elements from index `i`, followed by the closing bracket, are read by one element and the rest of the array loop; the array read is then the whole array. |
| JsonRoundTrip.FromStringRoundTrip | src/utl/json.cpp:1289-1306 | `from_string(to_string(node))` gives the node back, for a writable node nested within the recursion limit, whatever the double reader. |

### Definitions without a contract of their own

A function or predicate that carries no `ensures` has no row above. Each one is a reference definition: the methods and lemmas of the table are proved against it, and their contracts say what it means. The ones that model a named operation of the source are listed here. Each entry gives the source lines and the members whose contracts state its meaning.

- `CalcCalculator.TagSum` (src/calc/calculator.cpp:22-29): `CalcCalculator.GetValue`, `TagSumRegular`, `TagSumStops`, `UniversalTagTwice`.
- `CalcCalculator.DmgTakenMult` (src/calc/calculator.cpp:37-41) and `CalcCalculator.ResMult` (src/calc/calculator.cpp:42-46): damage factors used by `CalcCalculator.RegularDamage` and `AnomalyDamage`. `ExampleFactors` evaluates them on a concrete grid, and `ResIndexAsWritten` / `ResShifted` describe the resistance they read.
- `CalcCalculator.Contributions` (src/calc/calculator.cpp:118-137): `CalcCalculator.StatsOf`, `StatsOfRegular`.
- `CalcCalculator.EvalOf` (src/calc/calculator.cpp:222-252) and `CalcCalculator.EvalDetailedOf` (src/calc/calculator.cpp:253-288): `CalcCalculator.Eval`, `EvalMeaning`, `EvalDetailed`, `DetailedAgrees`.
- `BackendCalculator.Get`, `GetAll`, `GetOnly` (src/zzz/stats.hpp:46-48, declared only): `BackendCalculator.TotalAtkTagged`, `ResMult`, `AnomalyFactors`. The assumed reading is under "## Left out".
- `BackendCalculator.TotalAtk` (src/backend/calculator.cpp:145-148): `BackendCalculator.TotalAtkTagged`, `WithTotalAtkMeaning`.
- `BackendCalculator.DmgTakenMult` (src/backend/calculator.cpp:155-159) and `BackendCalculator.RegularFactors` (src/backend/calculator.cpp:181-195): the factors `BackendCalculator.RegularDamage` multiplies.
- `BackendCalculator.Bucketed` (src/backend/calculator.cpp:52-60): `BackendCalculator.BucketedMeaning`, `BucketedStep`, `BucketSets`.
- `BackendCalculator.TiersOf` (src/backend/calculator.cpp:34-60): `BackendCalculator.TiersMeaning`.
- `BackendCalculator.Aggregated` (src/backend/calculator.cpp:63-107): `BackendCalculator.AggregatedValues`, `Aggregate`.
- `BackendCalculator.PreparedOf` (src/backend/calculator.cpp:29-61) and `BackendCalculator.EvalOf` (src/backend/calculator.cpp:19-142): `BackendCalculator.PreparedParts`, `Prepare`, `Eval`, `EvalMeaning`, `EvalCells`.
- The five `_to_string` printers `Enums.ElementToString`, `TagToString`, `SpecialityToString`, `RarityToString`, `StatToString` (src/zzz/enums.hpp:78, 165, 242, 317, 456): `Enums.ElementRoundTrip`, `TagRoundTrip`, `SpecialityRoundTrip`, `RarityRoundTrip`, `StatRoundTrip`.
- `EnumsConvert.StatTypeToString`, `TagToStringAsWritten`, `SpecialityToStringAsWritten`, `ElementToStringAsWritten` (src/zzz/enums.cpp:171-237): `EnumsConvert.StatTypeRoundTrip`, `StatTypeNamesRoundTrip`, and the `…RoundTripAsWritten` lemmas.
- `AgentDetails.ScaleFrom` (src/zzz/details/agent.cpp:141-156): `AgentDetails.ScaleFromMeaning`, `ScalesFrom`.
- `AgentDetails.AgentFromText`, `WengineDetails.WengineFromText`, `DdsDetails.DdsFromText` (the format-1 branch of `load_from_string`): the three `LoadFromString` methods and `FromWrittenText` lemmas.
- `WengineDetails.WengineFrom` (src/zzz/details/wengine.cpp:96-111): `WengineDetails.LoadFromJson`, `WengineParts`, `WengineStats`.
- `DdsDetails.DdsFrom` (src/zzz/details/dds.cpp:58-70): `DdsDetails.DdsFromMeaning`, `LoadDdsFromJson`.
- `DriveDiscSet.ConvertedFrom` (src/zzz/details/drive_disc_set.cpp:52-63): `DriveDiscSet.ConvertedMeaning`, `From`.
- The builders' `IsBuilt` predicates (`is_built`): the `GetProduct` method of the same builder.
- `CachedMemory.MObject.IsAllocated` (src/library/cached_memory.cpp:28): `CachedMemory.MObject.Set`.
- `RequestDetails.DiscPiece` (src/backend/impl/details.cpp:117-141): `RequestDetails.DiscPieceMeaning`, `BuildDisc`, `PiecesMeaning`.
- `RequestDetails.RotationFrom` (src/backend/impl/details.cpp:97-110): `RequestDetails.RotationMeaning`, `ReadRotation`.
- `RequestDetails.Count` (src/backend/impl/details.cpp:142-148): `RequestDetails.CountMeaning`, `CountOne`, `CountStep`.
- `RequestDetails.Ascending` (src/backend/impl/details.cpp:152): `RequestDetails.AscendingMeaning`, `AscendingFirst`.
- `RequestDetails.PairsOf` (src/backend/impl/details.cpp:152-163): `RequestDetails.PairsOfMeaning`, `DdsByCountMeaning`, `Request.ListSets`.
- `Grid.Merged` (src/zzz/stats/grid.cpp:76-79): `Grid.MergedMeaning`, `MergedKeyed`, `RegularMerge`.
- `KeyedGrid.Summed` (src/zzz/stats_grid.cpp:97-105): `KeyedGrid.SummedValues`, `StatsGrid.AddGrid`.
- `Infix.Tokenize` (src/library/rpn.cpp:55-87, src/math/parser.cpp:67-95): `Infix.TokenizeCovers`, `TokenizeFirst`, `Rpn.Tokenize`, `MathParser.Tokenize`.
- `RelativeStat.AddParts` and `RelativeStat.FormulasOf` (src/zzz/stats/relative.cpp:16-47): `RelativeStat.MakeFormulas`, `AddPartsKeys`, `AddPartsFirstWins`, `FormulasOfSource`.
- `RelativeStat.GridValue`, `ApplyOperator`, `Step` and `EvalSpec` (src/zzz/stats/relative.cpp:49-83): `RelativeStat.Eval`, `EvalToken`, `StackNext`, `EvalStopsAt`, `EvalEnds`, `EvalPostfix`.
- `RegularStat.Value` (src/zzz/stats/regular.cpp:47) and `Stats.Value` (src/zzz/stats.cpp:67-69): `RegularStat.Make`, `RegularStat.AddValues`, `Stats.Make`.
- `TemplateMath.Fmod` (src/library/template_math.hpp:21-22): `TemplateMath.Remainder`.
- `Rotation.InlineLine` (src/zzz/details/rotation.cpp:56-59): `Rotation.InlineBlock`, `InlineAppend`, `OneLevel`.
- `Rotation.Copies` and `Rotation.Repeat` (src/zzz/details/rotation.cpp:73-75): `Rotation.ExpandOne`, `MiniOnce`, `MiniTwice`, `MiniTimes`, `EntryLength`.
- `JsonText.FromString` (src/utl/json.cpp:1289-1306): `JsonParser.FromString`, `JsonText.FromStringNested`, `TrailingRejected`, `JsonRoundTrip.FromStringRoundTrip`.
- `JsonText.HexAt`, `ParsedEscape`, `LiteralAt` (src/utl/json.cpp:663-751, 787-802, 875-938): `JsonText.UnicodeSingle`, `JsonWriter.EscapeInverted`, `JsonParser.Parser.ParseTrue` / `ParseFalse` / `ParseNull`.
- `JsonParser.StringScan` (src/utl/json.cpp:766-821): `JsonParser.StringScanMeaning`, `StringScanStart`.
- `JsonWriter.Minimized` (src/utl/json.cpp:977-1121): `JsonWriter.Writer.WriteNode`, `ToString`, `MembersJoined`, `ElementsJoined`, `JsonRoundTrip.FromStringRoundTrip`.
- `JsonWriter.KeyLess` and `SortedKeys` (src/utl/json.cpp:996-1008): `JsonWriter.KeyLessTotal`, `SortedKeysMeaning`.
- `JsonWriter.EscapeReplacement` (src/utl/json.cpp:377-422): `JsonWriter.EscapeInverted`.

## Left out

- TemplateMath.SwitchMathOp: a zero divisor for '/' or '%' is an error here. In the source, `lhs / rhs` and `std::fmod` on doubles (src/library/template_math.hpp:19, 22) give an infinity or a NaN, and the computation goes on with it. IEEE special values are not part of the model.
- StatsMath.Compute: the same zero-divisor error, for the `stat` operators `/` and `%`. The source's doubles give an infinity or a NaN there.
- RelativeStat.MathOpCode: `lib::math_ops`, the table that binds each operator token to `switch_math_op`, is not part of this model.
  - The mapping is assumed: each token is bound to its own character, and "<=" and ">=" to the codes 0x80 and 0x81.
  - The `TokenType` enum of src/library/rpn.hpp:10-17 has no And, Or, LessEq or MoreEq entry, although rpn.cpp produces them. The token kinds of module Infix include them.
- RelativeStat.WithLookup: the source stores a pointer to a live grid; here the lookup table is a snapshot of the grid's values, taken when the table is attached. A relative stat therefore does not see grid changes made after the attachment.
- Funcs.Stoul: `unsigned long` is taken to be 64 bits wide. `std::stoul` is modelled in full: leading white space, an optional sign, negation modulo 2^64, and the `invalid_argument` and `out_of_range` throws. `RequestDetails.ItemCell` (src/backend/impl/details.cpp:105) and `Converters.PieceHead` (src/backend/converters.cpp:123) use it.
- RequestDetails.ReadRotation: the rotation builder that `prepare_request_details` feeds line by line is not part of this model. Its `add_cell` / `get_product` are assumed to collect the cells in the order added.
- BackendCalculator.GetAll: `StatsGrid::get`, `get_all` and `get_only` are declared in src/zzz/stats.hpp:46-48 and defined nowhere in the repository. They are assumed to read as follows:
  - `get(type)`: the Universal stat;
  - `get_all(type, tag)`: the Universal stat plus the tag's own;
  - `get_only(type, tag)`: the tag's own.

  A missing entry counts as 0. This differs from `get_summed` of src/zzz/stats_grid.cpp:42-59, which gives 0 for the whole sum when there is no Universal entry.
- BackendCalculator.GetOnly: assumed as described for `GetAll`, because it is declared but not defined.
- Grid.FromNode: `make_from` is declared with a `tag` parameter (src/zzz/stats/grid.hpp:21). The definition at src/zzz/stats/grid.cpp:14-26 takes none and returns no value (undefined behaviour). The model ignores the tag and returns the grid the loop builds.
- Stats.MakeFromFloating: the stat id comes from `json.key()` in the source. The model's `Node` has no key, so the caller passes the id.
- Stats.MakeFromObject: the id is passed in the same way.
- SkillDetails.MaxIndex: `max_index()` is used at src/calc/calculator.cpp:274 but its definition is not part of this model. It is taken to be the number of scales.
- CalcCalculator.RegularDamage: `skill.tags()` is not part of this model. It is taken to be the one-element list of the skill's tag.
- CalcCalculator.Describe: uses the same one-tag list for `skill.tags()`.
- Undefined behaviour is an error value only in the cases listed as such above. The other cases are preconditions, and the model says nothing about what the source does when they fail: a fifth sub stat written past the disc array, a seventh disc, a tokenizer spinning on an unknown character, an empty RPN or operator stack being popped, or an enumeration printed past its table.
- When a method returns an error, what it has already written into its out-objects is left unspecified. This applies to the request preparation, the converters and the JSON parser's `recursion_depth` after a throw.
- CachedMemory.ObjectManager.Sweep: models one pass of the sweep loop of `_launch_logic` (src/library/cached_memory.cpp:107-130). The following are left out:
  - the detached thread that runs it;
  - its `sleep_for`;
  - the unsynchronised access to `_unused_period`, which the source marks as a TODO for an atomic;
  - `launch`;
  - the destructor;
  - the `std::async` of `get`.
- CachedMemory.ObjectManager.Get: file loading (`MObject::load`, src/library/cached_memory.cpp:33-50) is the `load` parameter. It gives the content `load_from_stream` ends with, None when the file does not open, or an `Err` when loading throws, which `get` then propagates after resetting the period. The path formatting and `file_extensions.at(mode)` are inside that parameter.
- JsonText.NumberAt: a floating numeral is read by a `FloatReader` parameter. Floating values are reals, and the rounding of `std::from_chars` is not modelled.
- JsonWriter.Writer.WriteNode: a floating value is written by a `FloatWriter` parameter. Two source behaviours have no counterpart:
  - the non-finite values the source writes in quotes (src/utl/json.cpp:1101-1110);
  - the `to_chars` error branches (src/utl/json.cpp:1071-1074, 1095-1098).

  The integral branch is proved never to fail (`JsonWriter.IntegralFits`).
- JsonWriter.ToString: only the minimized format is modelled. The following are left out:
  - the pretty serializer (`_serialize_json_recursion_pretty`);
  - `to_file`;
  - `from_file`;
  - `_read_file_to_string`;
  - `_pretty_error`;
  - `_utf8_replace_non_ascii`;
  - the `_utl_json` literal.
- JsonParser.Parser.ParseNode: error messages are paraphrased, since only the fact of a throw is modelled. `recursion_depth` is unbounded, so the unsigned wrap-around past 2^32 is not modelled; the limit stops the descent long before that.
- JsonParser.Parser.ParseObject: the comma branch of the object loop is its own method (`ParseNextPair`). The array loop is split the same way (`ParseNextElement`). The behaviour is that of the single loop.
- Rotation.From: the `custom` and `rotation` tables reach the model already typed, as a map of `Block` records and a sequence of lines. The TOML accessor throws on a missing key or a wrong type are therefore not modelled. These are `data.at("custom")`, `data.at("rotation")`, `as_table`, `as_array`, `as_string` and `as_integer` (src/zzz/details/rotation.cpp:32-47, 69-70). The errors the model does give are those of the conversion itself (an unreadable number, an unknown block).
- Converters.Convert: the request document reaches the model already typed, as `Request`, `DiscEntry` and `SubEntry` records. Two kinds of source behaviour are therefore not modelled:
  - the throws of the TOML accessors `at`, `as_table`, `as_array`, `as_string` and `as_integer` on a missing key or a wrong type (src/backend/converters.cpp:112-136);
  - the undefined `array[1]` read of a `subs` item with fewer than two entries (src/backend/converters.cpp:134-135).

  `Converters.From` inherits both omissions.
- Converters.FirstCharRarity: `zzz::convert::char_to_rarity`, called at src/backend/converters.cpp:125, is declared but defined nowhere in the repository; src/zzz/enums.cpp defines only the stat-type, tag, speciality and element conversions. It is taken to read a letter as `Rarity::_from_char` does (src/zzz/enums.hpp:324-335).
- Converters.From: `ToEvalDataConverter::init` fills the stores by loading TOML files by id (`lib::load_by_id`, src/backend/converters.cpp:91-110). The stores are parameters here.
- RequestDetails.Request.Prepare: `prepare_request_composed` and `prepare_object_manager` (src/backend/impl/details.cpp:165-221) are left out. They fetch from the object manager and iterate over the data folders.
- AgentDetails.LoadFromString: the `load_from_string` dispatch is modelled for the JSON mode. `load_from_stream` over a file is left out.
- WengineDetails.LoadFromString: the same as `AgentDetails.LoadFromString`.
- DdsDetails.LoadFromString: the same as `AgentDetails.LoadFromString`.
- BackendCalculator.WithTotalAtk: `StatsGrid::at` and `StatsGrid::add` are declared in src/zzz/stats.hpp and defined nowhere in the repository. They drive the total-attack write at src/backend/calculator.cpp:179 and the buff aggregation at 178. `at` is taken to read the Universal entry and throw when there is none; `add` is taken to sum the grids key by key, as `KeyedGrid.Summed` does.
- BackendCalculator.CellDamage: `AgentDetails::is_skill_or_anomaly`, `skill` and `anomaly` (src/zzz/details/agent.hpp:29-30) are defined nowhere in the repository. They drive the choice at src/backend/calculator.cpp:111-113. A name is taken to be a skill when the agent's skill table has it, and otherwise an anomaly; an anomaly lookup by an unknown name throws.
- Infix.NumberValue: a numeral's value is exact, and reading it never fails. The source's `parse_number` throws "bad number parse" on any `from_chars` error, including `out_of_range` for a numeral such as "1e400" (src/library/rpn.cpp:36-39, src/math/parser.cpp:48-51). Double range and rounding are not part of the model.
- DriveDiscSet.ConvertedFrom: `global::to_stats_grid` is defined nowhere in the repository, so it is a parameter.
- Concurrency, logging, HTTP transport and the server entry points are left out.

## Findings

| source | as written | input that shows it | evidently intended | confidence | as-written member | corrected member |
|---|---|---|---|---|---|---|
| src/zzz/enums.cpp:110 | `tag2cstr` prints FollowupAssist as "assist_followup", but `cstr2tag` (enums.cpp:125) knows only "followup_assist" | `string_to_tag(tag_to_string(FollowupAssist))` throws | one spelling in both tables, so that every tag round-trips | high, not executed | EnumsConvert.TagRoundTripAsWritten | EnumsConvert.TagRoundTripCorrected |
| src/zzz/enums.cpp:149-155 | `element2cstr` starts at "phys", but `Element` numbers None as 0 and Physical as 1 | `element_to_string(Physical)` gives "fire", which parses to Fire; Ether reaches the empty sixth entry | the table indexed from Physical, so that printing and parsing are inverse | medium, not executed | EnumsConvert.ElementRoundTripAsWritten | EnumsConvert.ElementRoundTripCorrected |
| src/zzz/enums.cpp:134-140 | `speciality2cstr` starts at "attack", but `Speciality` numbers None as 0 | `speciality_to_string(Attack)` gives "anomaly" | the table indexed from Attack | medium, not executed | EnumsConvert.SpecialityRoundTripAsWritten | EnumsConvert.SpecialityRoundTripCorrected |
| src/zzz/details/ddp.cpp:50 | the CritRate main stat row is `{ 0.8, 0.16, 0.24 }` (also src/zzz/combat/drive_disc_piece.cpp:50) | a B-rarity disc with a CritRate main stat gets 80% crit rate, an A-rarity one 16% | 0.08 for B, so that the row increases with rarity as every other row does | high, not executed | DriveDiscInfo.CritRateRowAsWritten | DriveDiscInfo.MainTableRows |
| src/calc/calculator.cpp:43 | `enemy.res[element]` indexes the five resistances by the element's value, where None is 0 and Physical..Ether are 1..5 (also src/backend/calculator.cpp:162) | Ether reads `res[5]`, past the end; Physical reads Fire's resistance | `res[element - 1]`, so that each damage element reads its own resistance | medium, not executed | CalcCalculator.ResIndexAsWritten | CalcCalculator.ResIndexCorrected |
| src/utl/json.cpp:491 | `parse_object_pair` reads the key with `parse_string`, which steps over the first character without checking that it is a quote (json.cpp:758) | `{x":1}` parses as `{"":1}`, and `{ab":1}` as `{"b":1}` | an object key must open with a quote, and anything else throws | high, not executed | JsonText.UnquotedKeyAccepted | JsonText.KeyAt |
| src/zzz/stats/grid.cpp:33-37 | `operator=` clears the grid, then adds `another`, with no check that `another` is the grid itself | a grid holding one stat, assigned to itself, ends empty | a self-assignment leaves the grid unchanged | high, not executed | Grid.SelfAssignmentLosesStats | Grid.StatsGrid.AssignChecked |
| src/zzz/details/rotation.cpp:73 | a mini-rotation entry appends the mini rotation `splitted.size() * calc_loops(splitted)` times | "name 3" appends the mini rotation 6 times, "name x3" 6 times, while "name" alone appends it once | `calc_loops(splitted)` copies, so that the count written is the count applied | medium, not executed | Rotation.MiniTwice | Rotation.MiniLoopsIntended |

The modelled operations follow the source as written: the calculators read `ResAsWritten`, the disc builders read `MainTableAsWritten`, the JSON parser reads keys with `KeyAsWritten`, the rotation expands entries with `ExpandEntry`, grid copies use `Assign`, and the enum conversions use the source's tables. The corrected definitions sit beside them, with their properties proved.
