/** Engine-schematic scanner (src/day03.rs): symbols are collected into a map
    keyed by (column, row); every maximal run of digits that touches a symbol,
    diagonals included, is a part number, and part 1 is their sum; every part
    number bumps a count and multiplies a product in each cell around it, and
    part 2 adds up the products of the `*` cells touched by exactly two part
    numbers. */
module Schematic {
  import opened Text

  /** A position (x, y): column x of line y. */
  type Cell = (int, int)

  /** A gear-map entry: the product of the part numbers around a cell and how
      many there are. A cell not yet in the map counts as (1, 0). */
  datatype GearEntry = GearEntry(product: nat, count: nat)

  // ---------------------------------------------------------------------------
  // Symbols

  /** A symbol is any character except the digits and `.`. */
  predicate IsSymbol(c: char) {
    c !in "0123456789."
  }

  predicate IsSymbolCell(lines: seq<string>, x: int, y: int) {
    0 <= y < |lines| && 0 <= x < |lines[y]| && IsSymbol(lines[y][x])
  }

  /** `m` holds exactly the symbol cells of `lines`, each mapped to its character. */
  ghost predicate SymbolMapOf(m: map<Cell, char>, lines: seq<string>) {
    && (forall c: Cell :: c in m ==> IsSymbolCell(lines, c.0, c.1) && m[c] == lines[c.1][c.0])
    && (forall c: Cell :: IsSymbolCell(lines, c.0, c.1) ==> c in m)
  }

  /** `scan_symbols`: one map entry per symbol of the input. */
  method ScanSymbols(input: string) returns (symbols: map<Cell, char>)
    ensures SymbolMapOf(symbols, Lines(input))
  {
    var lines := Lines(input);
    symbols := map[];
    for y := 0 to |lines|
      invariant forall c: Cell :: c in symbols ==>
        IsSymbolCell(lines, c.0, c.1) && c.1 < y && symbols[c] == lines[c.1][c.0]
      invariant forall c: Cell :: IsSymbolCell(lines, c.0, c.1) && c.1 < y ==> c in symbols
    {
      var line := lines[y];
      for x := 0 to |line|
        invariant forall c: Cell :: c in symbols ==>
          IsSymbolCell(lines, c.0, c.1) && (c.1 < y || (c.1 == y && c.0 < x))
          && symbols[c] == lines[c.1][c.0]
        invariant forall c: Cell ::
          IsSymbolCell(lines, c.0, c.1) && (c.1 < y || (c.1 == y && c.0 < x)) ==> c in symbols
      {
        if IsSymbol(line[x]) {
          symbols := symbols[(x, y) := line[x]];
        }
      }
    }
  }

  /** The input determines its symbol map. */
  lemma {:induction false} SymbolMapUnique(m: map<Cell, char>, n: map<Cell, char>, lines: seq<string>)
    requires SymbolMapOf(m, lines) && SymbolMapOf(n, lines)
    ensures m == n
  {
    assert m.Keys == n.Keys;
    forall c | c in m ensures m[c] == n[c] {
      assert IsSymbolCell(lines, c.0, c.1);
    }
  }

  /** The eight cells around (x, y). */
  predicate IsNeighbour(c: Cell, x: int, y: int) {
    -1 <= c.0 - x <= 1 && -1 <= c.1 - y <= 1 && c != (x, y)
  }

  ghost predicate HasSymbolNeighbour(symbols: map<Cell, char>, x: int, y: int) {
    exists c: Cell :: c in symbols && IsNeighbour(c, x, y)
  }

  /** `symbol_in_nbhd`: visits the eight neighbours column by column and
      stops at the first one in the map. */
  method SymbolInNbhd(symbols: map<Cell, char>, x: int, y: int) returns (found: bool)
    ensures found <==> HasSymbolNeighbour(symbols, x, y)
  {
    for dx := -1 to 2
      invariant forall c: Cell :: c in symbols && IsNeighbour(c, x, y) ==> c.0 - x >= dx
    {
      for dy := -1 to 2
        invariant forall c: Cell :: c in symbols && IsNeighbour(c, x, y) ==>
          c.0 - x > dx || (c.0 - x == dx && c.1 - y >= dy)
      {
        if dx == 0 && dy == 0 {
          continue;
        }
        if (x + dx, y + dy) in symbols {
          assert IsNeighbour((x + dx, y + dy), x, y);
          return true;
        }
      }
    }
    return false;
  }

  /** Some neighbour of (x, y) in the text is a symbol. */
  ghost predicate SymbolNear(lines: seq<string>, x: int, y: int) {
    exists c: Cell :: IsNeighbour(c, x, y) && IsSymbolCell(lines, c.0, c.1)
  }

  /** Looking a neighbour up in the symbol map is looking at the text. */
  lemma {:induction false} NeighbourInMap(symbols: map<Cell, char>, lines: seq<string>, x: int, y: int)
    requires SymbolMapOf(symbols, lines)
    ensures HasSymbolNeighbour(symbols, x, y) <==> SymbolNear(lines, x, y)
  {
    if HasSymbolNeighbour(symbols, x, y) {
      var c :| c in symbols && IsNeighbour(c, x, y);
      assert IsSymbolCell(lines, c.0, c.1);
    }
    if SymbolNear(lines, x, y) {
      var c :| IsNeighbour(c, x, y) && IsSymbolCell(lines, c.0, c.1);
      assert c in symbols;
    }
  }

  // ---------------------------------------------------------------------------
  // Digit runs

  /** A run of digits: columns start..end-1 of one line. */
  datatype Run = Run(start: nat, end: nat)

  predicate DigitRun(line: string, r: Run) {
    r.start < r.end <= |line| && forall i :: r.start <= i < r.end ==> IsDigit(line[i])
  }

  /** A run that cannot be extended: no digit just before or just after it. */
  predicate MaximalRun(line: string, r: Run) {
    && DigitRun(line, r)
    && (r.start == 0 || !IsDigit(line[r.start - 1]))
    && (r.end == |line| || !IsDigit(line[r.end]))
  }

  /** Where the run of digits that ends just before column k begins (k itself
      when column k - 1 is not a digit). */
  function RunStart(line: string, k: nat): (s: nat)
    requires k <= |line|
    ensures s <= k
    ensures forall i :: s <= i < k ==> IsDigit(line[i])
    ensures AllDigits(line[s..k])
    ensures s == 0 || !IsDigit(line[s - 1])
  {
    if k > 0 && IsDigit(line[k - 1]) then RunStart(line, k - 1) else k
  }

  /** The runs that a non-digit before column k has ended, left to right. */
  function ClosedRuns(line: string, k: nat): (runs: seq<Run>)
    requires k <= |line|
    ensures forall i :: 0 <= i < |runs| ==> MaximalRun(line, runs[i]) && runs[i].end < k
  {
    if k == 0 then []
    else if IsDigit(line[k - 1]) then ClosedRuns(line, k - 1)
    else
      var s := RunStart(line, k - 1);
      ClosedRuns(line, k - 1) + if s < k - 1 then [Run(s, k - 1)] else []
  }

  /** The run still open at column k, if any. */
  function OpenRun(line: string, k: nat): seq<Run>
    requires k <= |line|
  {
    var s := RunStart(line, k);
    if s < k then [Run(s, k)] else []
  }

  /** Every run of digits of a line, left to right. */
  function AllRuns(line: string): seq<Run> {
    ClosedRuns(line, |line|) + OpenRun(line, |line|)
  }

  /** The run ending before column k starts at s when columns s..k-1 are
      digits and column s - 1 is not. */
  lemma {:induction false} RunStartUnique(line: string, k: nat, s: nat)
    requires s <= k <= |line|
    requires forall i :: s <= i < k ==> IsDigit(line[i])
    requires s == 0 || !IsDigit(line[s - 1])
    ensures RunStart(line, k) == s
  {
  }

  /** The closed runs are exactly the maximal runs that end before column k. */
  lemma {:induction false} ClosedRunsExactly(line: string, k: nat, r: Run)
    requires k <= |line|
    ensures r in ClosedRuns(line, k) <==> MaximalRun(line, r) && r.end < k
  {
    if k > 0 {
      ClosedRunsExactly(line, k - 1, r);
      if MaximalRun(line, r) && r.end == k - 1 {
        assert !IsDigit(line[k - 1]);
        RunStartUnique(line, k - 1, r.start);
        assert r in ClosedRuns(line, k);
      }
    }
  }

  /** The closed runs are in order and do not touch. */
  predicate RunsOrdered(runs: seq<Run>) {
    forall i, j :: 0 <= i < j < |runs| ==> runs[i].end < runs[j].start
  }

  lemma {:induction false} ClosedRunsOrdered(line: string, k: nat)
    requires k <= |line|
    ensures RunsOrdered(ClosedRuns(line, k))
  {
    if k > 0 {
      ClosedRunsOrdered(line, k - 1);
      var front := ClosedRuns(line, k - 1);
      var s := RunStart(line, k - 1);
      if !IsDigit(line[k - 1]) && s < k - 1 {
        var runs := ClosedRuns(line, k);
        assert runs == front + [Run(s, k - 1)];
        forall i, j | 0 <= i < j < |runs| ensures runs[i].end < runs[j].start {
          if j == |front| {
            assert runs[i] == front[i] && runs[j] == Run(s, k - 1);
            var e := front[i].end;
            assert e < k - 1 && !IsDigit(line[e]);
          } else {
            assert runs[i] == front[i] && runs[j] == front[j];
          }
        }
      } else {
        assert ClosedRuns(line, k) == front;
      }
    }
  }

  /** `AllRuns` lists exactly the maximal runs of digits of the line. */
  lemma {:induction false} AllRunsExactly(line: string, r: Run)
    ensures r in AllRuns(line) <==> MaximalRun(line, r)
  {
    ClosedRunsExactly(line, |line|, r);
    var s := RunStart(line, |line|);
    if MaximalRun(line, r) && r.end == |line| {
      RunStartUnique(line, |line|, r.start);
    }
  }

  // ---------------------------------------------------------------------------
  // Part numbers

  /** A run as `ScannedNumber` records it once the run has ended. */
  datatype PartNumber = PartNumber(value: nat, left: int, right: int, row: int)

  /** The column `left_x` ends at for columns s..e-1: each digit read while
      the value is still 0 moves it, so it is the first nonzero digit, or the
      last digit when all of them are zeros. */
  function LeftEdge(line: string, s: nat, e: nat): (l: nat)
    requires s < e <= |line|
    ensures s <= l < e
    ensures forall i :: s <= i < l ==> line[i] == '0'
    ensures l == e - 1 || line[l] != '0'
    decreases e - s
  {
    if s == e - 1 || line[s] != '0' then s else LeftEdge(line, s + 1, e)
  }

  lemma {:induction false} LeftEdgeUnique(line: string, s: nat, e: nat, l: nat)
    requires s <= l < e <= |line|
    requires forall i :: s <= i < l ==> line[i] == '0'
    requires l == e - 1 || line[l] != '0'
    ensures LeftEdge(line, s, e) == l
  {
  }

  /** A run of digits is worth 0 exactly when all its digits are zeros. */
  lemma {:induction false} DecimalValueZero(t: string)
    requires AllDigits(t)
    ensures DecimalValue(t) == 0 <==> forall i :: 0 <= i < |t| ==> t[i] == '0'
  {
    if |t| > 0 {
      var front := t[..|t| - 1];
      DecimalValueZero(front);
      assert forall i :: 0 <= i < |front| ==> front[i] == t[i];
    }
  }

  /** What one more digit does to `left_x`. */
  lemma {:induction false} LeftEdgeStep(line: string, s: nat, x: nat)
    requires s <= x < |line|
    requires forall i :: s <= i <= x ==> IsDigit(line[i])
    ensures AllDigits(line[s..x])
    ensures LeftEdge(line, s, x + 1)
         == if DecimalValue(line[s..x]) == 0 then x else LeftEdge(line, s, x)
  {
    var t := line[s..x];
    assert forall i :: 0 <= i < |t| ==> t[i] == line[s + i];
    DecimalValueZero(t);
    if DecimalValue(t) == 0 {
      LeftEdgeUnique(line, s, x + 1, x);
    } else {
      var l := LeftEdge(line, s, x);
      LeftEdgeUnique(line, s, x + 1, l);
    }
  }

  /** Some digit of columns s..e-1 of line y has a symbol neighbour. */
  ghost predicate TouchesSymbol(lines: seq<string>, y: int, s: int, e: int) {
    exists i :: s <= i < e && SymbolNear(lines, i, y)
  }

  /** The part number a run of line y gives. */
  function PartOf(lines: seq<string>, y: nat, r: Run): PartNumber
    requires y < |lines| && DigitRun(lines[y], r)
  {
    var line := lines[y];
    assert AllDigits(line[r.start..r.end]) by {
      assert forall i :: 0 <= i < r.end - r.start ==> line[r.start..r.end][i] == line[r.start + i];
    }
    PartNumber(DecimalValue(line[r.start..r.end]), LeftEdge(line, r.start, r.end), r.end - 1, y)
  }

  /** The part numbers of some runs of line y: those touching a symbol, in order. */
  ghost function PartsOf(lines: seq<string>, y: nat, runs: seq<Run>): seq<PartNumber>
    requires y < |lines|
    requires forall i :: 0 <= i < |runs| ==> DigitRun(lines[y], runs[i])
  {
    if |runs| == 0 then []
    else
      var r := runs[|runs| - 1];
      PartsOf(lines, y, runs[..|runs| - 1])
        + if TouchesSymbol(lines, y, r.start, r.end) then [PartOf(lines, y, r)] else []
  }

  lemma {:induction false} PartsOfSnoc(lines: seq<string>, y: nat, runs: seq<Run>, r: Run)
    requires y < |lines|
    requires forall i :: 0 <= i < |runs| ==> DigitRun(lines[y], runs[i])
    requires DigitRun(lines[y], r)
    ensures forall i :: 0 <= i < |runs + [r]| ==> DigitRun(lines[y], (runs + [r])[i])
    ensures PartsOf(lines, y, runs + [r])
         == PartsOf(lines, y, runs)
            + if TouchesSymbol(lines, y, r.start, r.end) then [PartOf(lines, y, r)] else []
  {
    assert (runs + [r])[..|runs|] == runs;
  }

  /** The part numbers of some runs are the runs that touch a symbol. */
  lemma {:induction false} PartsOfExactly(lines: seq<string>, y: nat, runs: seq<Run>, p: PartNumber)
    requires y < |lines|
    requires forall i :: 0 <= i < |runs| ==> DigitRun(lines[y], runs[i])
    ensures p in PartsOf(lines, y, runs)
        <==> exists r :: r in runs && TouchesSymbol(lines, y, r.start, r.end) && p == PartOf(lines, y, r)
  {
    if |runs| > 0 {
      var front := runs[..|runs| - 1];
      PartsOfExactly(lines, y, front, p);
      assert runs == front + [runs[|runs| - 1]];
    }
  }

  /** The part numbers of line y. */
  ghost function RowParts(lines: seq<string>, y: nat): seq<PartNumber>
    requires y < |lines|
  {
    var line := lines[y];
    var runs := AllRuns(line);
    assert forall i :: 0 <= i < |runs| ==> DigitRun(line, runs[i]);
    PartsOf(lines, y, runs)
  }

  /** The part numbers of line y are its maximal runs that touch a symbol. */
  lemma {:induction false} RowPartsExactly(lines: seq<string>, y: nat, p: PartNumber)
    requires y < |lines|
    ensures p in RowParts(lines, y)
        <==> exists r :: MaximalRun(lines[y], r) && TouchesSymbol(lines, y, r.start, r.end)
                         && p == PartOf(lines, y, r)
  {
    var runs := AllRuns(lines[y]);
    PartsOfExactly(lines, y, runs, p);
    if p in RowParts(lines, y) {
      var r :| r in runs && TouchesSymbol(lines, y, r.start, r.end) && p == PartOf(lines, y, r);
      AllRunsExactly(lines[y], r);
    }
    if exists r :: MaximalRun(lines[y], r) && TouchesSymbol(lines, y, r.start, r.end)
                   && p == PartOf(lines, y, r) {
      var r :| MaximalRun(lines[y], r) && TouchesSymbol(lines, y, r.start, r.end)
               && p == PartOf(lines, y, r);
      AllRunsExactly(lines[y], r);
    }
  }

  /** The part numbers of lines 0..n-1, line by line. */
  ghost function PartsBefore(lines: seq<string>, n: nat): seq<PartNumber>
    requires n <= |lines|
  {
    if n == 0 then [] else PartsBefore(lines, n - 1) + RowParts(lines, n - 1)
  }

  /** Every part number of the schematic, in scanning order. */
  ghost function Parts(lines: seq<string>): seq<PartNumber> {
    PartsBefore(lines, |lines|)
  }

  function SumValues(parts: seq<PartNumber>): nat {
    if |parts| == 0 then 0 else SumValues(parts[..|parts| - 1]) + parts[|parts| - 1].value
  }

  lemma {:induction false} SumValuesSnoc(parts: seq<PartNumber>, p: PartNumber)
    ensures SumValues(parts + [p]) == SumValues(parts) + p.value
  {
    assert (parts + [p])[..|parts|] == parts;
  }

  // ---------------------------------------------------------------------------
  // The gear map

  /** The cells `update_gear_ratio_map` visits for a part number: its columns
      widened by one, on its row and the rows above and below. */
  predicate InBox(p: PartNumber, c: Cell) {
    p.left - 1 <= c.0 <= p.right + 1 && p.row - 1 <= c.1 <= p.row + 1
  }

  function Box(p: PartNumber): set<Cell> {
    set x: int, y: int | p.left - 1 <= x <= p.right + 1 && p.row - 1 <= y <= p.row + 1 :: (x, y)
  }

  lemma {:induction false} BoxExactly(p: PartNumber, c: Cell)
    ensures c in Box(p) <==> InBox(p, c)
  {
    if InBox(p, c) {
      assert c == (c.0, c.1);
    }
  }

  /** The entry of a cell, (1, 0) when the map does not hold it. */
  function Entry(gears: map<Cell, GearEntry>, c: Cell): GearEntry {
    if c in gears then gears[c] else GearEntry(1, 0)
  }

  function Bump(e: GearEntry, value: nat): GearEntry {
    GearEntry(e.product * value, e.count + 1)
  }

  /** The gear map after `update_gear_ratio_map` for one part number. */
  function AddPart(gears: map<Cell, GearEntry>, p: PartNumber): map<Cell, GearEntry> {
    if p.value == 0 then gears
    else map c | c in gears.Keys + Box(p) :: if InBox(p, c) then Bump(Entry(gears, c), p.value) else Entry(gears, c)
  }

  /** A part number worth more than 0 bumps every cell of its box, a missing
      cell starting from (1, 0), and leaves every other cell as it was. */
  lemma {:induction false} AddPartEntry(gears: map<Cell, GearEntry>, p: PartNumber, c: Cell)
    ensures c in AddPart(gears, p) <==> c in gears || (p.value > 0 && InBox(p, c))
    ensures Entry(AddPart(gears, p), c)
         == if p.value > 0 && InBox(p, c) then Bump(Entry(gears, c), p.value) else Entry(gears, c)
  {
    BoxExactly(p, c);
  }

  /** The gear map after the given part numbers, one after the other. */
  function AddAll(gears: map<Cell, GearEntry>, parts: seq<PartNumber>): map<Cell, GearEntry> {
    if |parts| == 0 then gears else AddPart(AddAll(gears, parts[..|parts| - 1]), parts[|parts| - 1])
  }

  lemma {:induction false} AddAllSnoc(gears: map<Cell, GearEntry>, parts: seq<PartNumber>, p: PartNumber)
    ensures AddAll(gears, parts + [p]) == AddPart(AddAll(gears, parts), p)
  {
    assert (parts + [p])[..|parts|] == parts;
  }

  /** How many of the part numbers worth more than 0 have the cell in their box. */
  function TouchCount(parts: seq<PartNumber>, c: Cell): nat {
    if |parts| == 0 then 0
    else
      var p := parts[|parts| - 1];
      TouchCount(parts[..|parts| - 1], c) + if p.value > 0 && InBox(p, c) then 1 else 0
  }

  /** The product of those part numbers. */
  function TouchProduct(parts: seq<PartNumber>, c: Cell): nat {
    if |parts| == 0 then 1
    else
      var p := parts[|parts| - 1];
      TouchProduct(parts[..|parts| - 1], c) * if p.value > 0 && InBox(p, c) then p.value else 1
  }

  /** After any sequence of part numbers, each cell counts the part numbers
      worth more than 0 around it and multiplies their values. */
  lemma {:induction false} AddAllTable(gears: map<Cell, GearEntry>, parts: seq<PartNumber>, c: Cell)
    ensures c in AddAll(gears, parts) <==> c in gears || TouchCount(parts, c) > 0
    ensures Entry(AddAll(gears, parts), c)
         == GearEntry(Entry(gears, c).product * TouchProduct(parts, c),
                      Entry(gears, c).count + TouchCount(parts, c))
  {
    if |parts| > 0 {
      var front := parts[..|parts| - 1];
      var p := parts[|parts| - 1];
      AddAllTable(gears, front, c);
      AddPartEntry(AddAll(gears, front), p, c);
      var a := Entry(gears, c).product;
      var b := TouchProduct(front, c);
      var v := if p.value > 0 && InBox(p, c) then p.value else 1;
      MulAssoc(a, b, v);
    }
  }

  lemma MulAssoc(a: nat, b: nat, c: nat)
    ensures a * b * c == a * (b * c)
  {
  }

  /** The gear map of the whole schematic. */
  ghost function GearTable(lines: seq<string>): map<Cell, GearEntry> {
    AddAll(map[], Parts(lines))
  }

  predicate StarAt(lines: seq<string>, c: Cell) {
    0 <= c.1 < |lines| && 0 <= c.0 < |lines[c.1]| && lines[c.1][c.0] == '*'
  }

  /** What a cell of the gear map adds to part 2. */
  function GearRatio(table: map<Cell, GearEntry>, lines: seq<string>, c: Cell): nat
    requires c in table
  {
    if table[c].count == 2 && StarAt(lines, c) then table[c].product else 0
  }

  /** The cells of the schematic's gear map are the cells next to some part
      number worth more than 0, and each adds the product of its part numbers
      when it holds `*` and exactly two part numbers touch it. */
  lemma {:induction false} GearRatioMeaning(lines: seq<string>, c: Cell)
    ensures c in GearTable(lines) <==> TouchCount(Parts(lines), c) > 0
    ensures c in GearTable(lines) ==>
      GearRatio(GearTable(lines), lines, c)
        == if TouchCount(Parts(lines), c) == 2 && StarAt(lines, c) then TouchProduct(Parts(lines), c) else 0
  {
    AddAllTable(map[], Parts(lines), c);
  }

  /** The sum of the gear ratios of some cells of the map. */
  ghost function GearRatioSum(table: map<Cell, GearEntry>, lines: seq<string>, cells: set<Cell>): nat
    requires cells <= table.Keys
    decreases cells
  {
    if cells == {} then 0
    else
      var c :| c in cells;
      GearRatioSum(table, lines, cells - {c}) + GearRatio(table, lines, c)
  }

  /** The sum does not depend on the order the cells are visited in. */
  lemma {:induction false} GearRatioSumRemove(table: map<Cell, GearEntry>, lines: seq<string>, cells: set<Cell>, c: Cell)
    requires cells <= table.Keys && c in cells
    ensures GearRatioSum(table, lines, cells)
         == GearRatioSum(table, lines, cells - {c}) + GearRatio(table, lines, c)
    decreases cells
  {
    var d :| d in cells && GearRatioSum(table, lines, cells)
                           == GearRatioSum(table, lines, cells - {d}) + GearRatio(table, lines, d);
    if d != c {
      GearRatioSumRemove(table, lines, cells - {d}, c);
      GearRatioSumRemove(table, lines, cells - {c}, d);
      assert cells - {d} - {c} == cells - {c} - {d};
    }
  }

  /** Part 2's filter and sum over the gear map (src/day03.rs:40-45), over the
      cells in whatever order the map yields them. */
  method SumGearRatios(table: map<Cell, GearEntry>, symbols: map<Cell, char>, ghost lines: seq<string>)
    returns (part2: nat)
    requires SymbolMapOf(symbols, lines)
    ensures part2 == GearRatioSum(table, lines, table.Keys)
  {
    part2 := 0;
    var rest := table.Keys;
    while rest != {}
      invariant rest <= table.Keys
      invariant part2 + GearRatioSum(table, lines, rest) == GearRatioSum(table, lines, table.Keys)
      decreases rest
    {
      var c :| c in rest;
      GearRatioSumRemove(table, lines, rest, c);
      if table[c].count == 2 && c in symbols && symbols[c] == '*' {
        part2 := part2 + table[c].product;
      } else {
        assert !(table[c].count == 2 && StarAt(lines, c));
      }
      rest := rest - {c};
    }
  }

  // ---------------------------------------------------------------------------
  // The scanner

  /** The digits read so far of the run being scanned. */
  class ScannedNumber {
    var number: nat
    var isPart: bool
    var leftX: int
    var rightX: int
    var y: int

    /** `ScannedNumber::new`: no digits yet. */
    constructor ()
      ensures number == 0 && !isPart && leftX == 0 && rightX == 0 && y == 0
    {
      number := 0;
      isPart := false;
      leftX := 0;
      rightX := 0;
      y := 0;
    }

    /** `is_some`: some nonzero digit has been read. */
    predicate IsSome()
      reads this
    {
      number > 0
    }

    /** `extend`: appends a digit at column x of line `row`. The left edge
        moves only while the value is still 0, and `isPart`, once true, stays
        true. */
    method Extend(digit: nat, x: int, row: int, symbols: map<Cell, char>)
      modifies this
      ensures number == old(number) * 10 + digit
      ensures leftX == if old(number) == 0 then x else old(leftX)
      ensures rightX == x && y == row
      ensures isPart == (old(isPart) || HasSymbolNeighbour(symbols, x, row))
    {
      if number == 0 {
        leftX := x;
      }
      number := number * 10 + digit;
      rightX := x;
      y := row;
      if !isPart {
        isPart := SymbolInNbhd(symbols, x, row);
      }
    }

    /** The cells of the box around this number visited before (cx, cy). */
    predicate Visited(c: Cell, cx: int, cy: int)
      reads this
    {
      (leftX - 1 <= c.0 < cx && y - 1 <= c.1 <= y + 1) || (c.0 == cx && y - 1 <= c.1 < cy)
    }

    /** `update_gear_ratio_map`: for a number worth more than 0, bumps every
        cell of its box, column by column. */
    method UpdateGearRatioMap(gears: map<Cell, GearEntry>) returns (updated: map<Cell, GearEntry>)
      ensures updated == AddPart(gears, PartNumber(number, leftX, rightX, y))
    {
      var p := PartNumber(number, leftX, rightX, y);
      if !IsSome() {
        return gears;
      }
      updated := gears;
      var cx := leftX - 1;
      while cx <= rightX + 1
        invariant leftX - 1 <= cx && (cx <= rightX + 2 || cx == leftX - 1)
        invariant forall c: Cell :: c in updated <==> c in gears || Visited(c, cx, y - 1)
        invariant forall c: Cell :: Entry(updated, c)
                    == if Visited(c, cx, y - 1) then Bump(Entry(gears, c), number) else Entry(gears, c)
      {
        var cy := y - 1;
        while cy <= y + 1
          invariant y - 1 <= cy <= y + 2
          invariant forall c: Cell :: c in updated <==> c in gears || Visited(c, cx, cy)
          invariant forall c: Cell :: Entry(updated, c)
                      == if Visited(c, cx, cy) then Bump(Entry(gears, c), number) else Entry(gears, c)
        {
          var entry := Entry(updated, (cx, cy));
          updated := updated[(cx, cy) := GearEntry(entry.product * number, entry.count + 1)];
          cy := cy + 1;
        }
        cx := cx + 1;
      }
      forall c ensures c in updated <==> c in AddPart(gears, p) {
        AddPartEntry(gears, p, c);
      }
      forall c | c in updated ensures updated[c] == AddPart(gears, p)[c] {
        AddPartEntry(gears, p, c);
      }
    }
  }

  // ---------------------------------------------------------------------------
  // Both parts

  /** The part numbers of the lines before y and of the runs of line y that
      ended before column x. */
  ghost function ScannedParts(lines: seq<string>, y: nat, x: nat): seq<PartNumber>
    requires y < |lines| && x <= |lines[y]|
  {
    var runs := ClosedRuns(lines[y], x);
    assert forall i :: 0 <= i < |runs| ==> DigitRun(lines[y], runs[i]);
    PartsBefore(lines, y) + PartsOf(lines, y, runs)
  }

  /** The fields of a scanner: number, is_part, left_x, right_x and y. */
  datatype Fields = Fields(number: nat, isPart: bool, leftX: int, rightX: int, y: int)

  const NoRun: Fields := Fields(0, false, 0, 0, 0)

  /** What the scanner holds at column x of line y: the value of the open
      run, whether it touches a symbol, its left edge, its last column and
      its row; the fields of a fresh scanner while no run is open. */
  ghost function Expected(lines: seq<string>, y: nat, x: nat): Fields
    requires y < |lines| && x <= |lines[y]|
  {
    var line := lines[y];
    var s := RunStart(line, x);
    if s < x then Fields(DecimalValue(line[s..x]), TouchesSymbol(lines, y, s, x), LeftEdge(line, s, x), x - 1, y)
    else NoRun
  }

  ghost predicate Scanning(number: ScannedNumber, lines: seq<string>, y: nat, x: nat)
    requires y < |lines| && x <= |lines[y]|
    reads number
  {
    Fields(number.number, number.isPart, number.leftX, number.rightX, number.y) == Expected(lines, y, x)
  }

  /** The accumulator and the gear map account for exactly the given parts. */
  ghost predicate Accounted(parts: seq<PartNumber>, accumulator: nat, gears: map<Cell, GearEntry>) {
    accumulator == SumValues(parts) && gears == AddAll(map[], parts)
  }

  /** Tracking one part number adds its value to the accumulator and its box
      to the gear map. */
  function Track(accumulator: nat, gears: map<Cell, GearEntry>, isPart: bool, p: PartNumber)
    : (nat, map<Cell, GearEntry>)
  {
    if isPart then (accumulator + p.value, AddPart(gears, p)) else (accumulator, gears)
  }

  lemma {:induction false} TrackSnoc(parts: seq<PartNumber>, accumulator: nat, gears: map<Cell, GearEntry>, p: PartNumber)
    requires Accounted(parts, accumulator, gears)
    ensures var r := Track(accumulator, gears, true, p);
            Accounted(parts + [p], r.0, r.1)
  {
    SumValuesSnoc(parts, p);
    AddAllSnoc(map[], parts, p);
  }

  /** A digit at column x extends the open run. */
  lemma {:induction false} DigitStep(lines: seq<string>, y: nat, x: nat)
    requires y < |lines| && x < |lines[y]| && IsDigit(lines[y][x])
    ensures var line := lines[y];
            var s := RunStart(line, x);
            && RunStart(line, x + 1) == s
            && DecimalValue(line[s..x + 1]) == DecimalValue(line[s..x]) * 10 + DigitOf(line[x])
            && LeftEdge(line, s, x + 1) == (if DecimalValue(line[s..x]) == 0 then x else LeftEdge(line, s, x))
            && ScannedParts(lines, y, x + 1) == ScannedParts(lines, y, x)
  {
    var line := lines[y];
    var s := RunStart(line, x);
    assert line[s..x + 1] == line[s..x] + [line[x]];
    DecimalValueSnoc(line[s..x], line[x]);
    LeftEdgeStep(line, s, x);
  }

  /** One more digit touches a symbol when it or an earlier one does. */
  lemma {:induction false} TouchesStep(lines: seq<string>, y: int, s: int, x: int)
    requires s <= x
    ensures TouchesSymbol(lines, y, s, x + 1) <==> TouchesSymbol(lines, y, s, x) || SymbolNear(lines, x, y)
  {
    if TouchesSymbol(lines, y, s, x + 1) && !SymbolNear(lines, x, y) {
      var i :| s <= i < x + 1 && SymbolNear(lines, i, y);
      assert i < x;
    }
  }

  /** `extend` keeps the scanner in step with the open run. */
  lemma {:induction false} ExtendKeepsState(lines: seq<string>, symbols: map<Cell, char>, y: nat, x: nat)
    requires SymbolMapOf(symbols, lines)
    requires y < |lines| && x < |lines[y]| && IsDigit(lines[y][x])
    ensures var e := Expected(lines, y, x);
            Expected(lines, y, x + 1)
              == Fields(e.number * 10 + DigitOf(lines[y][x]), e.isPart || HasSymbolNeighbour(symbols, x, y),
                        if e.number == 0 then x else e.leftX, x, y)
    ensures ScannedParts(lines, y, x + 1) == ScannedParts(lines, y, x)
  {
    NeighbourInMap(symbols, lines, x, y);
    var s := RunStart(lines[y], x);
    DigitStep(lines, y, x);
    TouchesStep(lines, y, s, x);
    if s == x {
      assert lines[y][s..x] == [];
    }
  }

  /** A non-digit at column x ends the open run, which becomes a part number
      when it touches a symbol. */
  lemma {:induction false} OtherStep(lines: seq<string>, y: nat, x: nat)
    requires y < |lines| && x < |lines[y]| && !IsDigit(lines[y][x])
    ensures var line := lines[y];
            var s := RunStart(line, x);
            && RunStart(line, x + 1) == x + 1
            && (TouchesSymbol(lines, y, s, x) ==> s < x)
            && ScannedParts(lines, y, x + 1)
                 == ScannedParts(lines, y, x)
                    + if TouchesSymbol(lines, y, s, x) then [PartOf(lines, y, Run(s, x))] else []
  {
    var line := lines[y];
    var s := RunStart(line, x);
    var runs := ClosedRuns(line, x);
    if s < x {
      PartsOfSnoc(lines, y, runs, Run(s, x));
    } else {
      assert ClosedRuns(line, x + 1) == runs;
    }
  }

  /** Tracking the scanner at a non-digit accounts for the runs closed before
      column x + 1, and a fresh scanner is in step with the empty open run. */
  lemma {:induction false} CloseKeepsState(lines: seq<string>, y: nat, x: nat,
                                           accumulator: nat, gears: map<Cell, GearEntry>)
    requires y < |lines| && x < |lines[y]| && !IsDigit(lines[y][x])
    requires Accounted(ScannedParts(lines, y, x), accumulator, gears)
    ensures var e := Expected(lines, y, x);
            var r := Track(accumulator, gears, e.isPart, PartNumber(e.number, e.leftX, e.rightX, e.y));
            Accounted(ScannedParts(lines, y, x + 1), r.0, r.1)
    ensures Expected(lines, y, x + 1) == NoRun
  {
    OtherStep(lines, y, x);
    var s := RunStart(lines[y], x);
    var e := Expected(lines, y, x);
    var before := ScannedParts(lines, y, x);
    var p := PartNumber(e.number, e.leftX, e.rightX, e.y);
    if e.isPart {
      assert PartOf(lines, y, Run(s, x)) == p;
      assert ScannedParts(lines, y, x + 1) == before + [p];
      TrackSnoc(before, accumulator, gears, p);
    } else {
      assert ScannedParts(lines, y, x + 1) == before + [];
      assert before + [] == before;
    }
  }

  /** The end of line y ends the open run; then line y is done. */
  lemma {:induction false} RowStep(lines: seq<string>, y: nat)
    requires y < |lines|
    ensures var line := lines[y];
            var s := RunStart(line, |line|);
            && (TouchesSymbol(lines, y, s, |line|) ==> s < |line|)
            && PartsBefore(lines, y + 1)
                 == ScannedParts(lines, y, |line|)
                    + if TouchesSymbol(lines, y, s, |line|) then [PartOf(lines, y, Run(s, |line|))] else []
  {
    var line := lines[y];
    var s := RunStart(line, |line|);
    var runs := ClosedRuns(line, |line|);
    if s < |line| {
      PartsOfSnoc(lines, y, runs, Run(s, |line|));
    } else {
      assert AllRuns(line) == runs;
    }
  }

  /** Tracking the scanner at the end of line y accounts for every line up to
      and including y. */
  lemma {:induction false} EndKeepsState(lines: seq<string>, y: nat,
                                         accumulator: nat, gears: map<Cell, GearEntry>)
    requires y < |lines|
    requires Accounted(ScannedParts(lines, y, |lines[y]|), accumulator, gears)
    ensures var e := Expected(lines, y, |lines[y]|);
            var r := Track(accumulator, gears, e.isPart, PartNumber(e.number, e.leftX, e.rightX, e.y));
            Accounted(PartsBefore(lines, y + 1), r.0, r.1)
  {
    RowStep(lines, y);
    var k := |lines[y]|;
    var s := RunStart(lines[y], k);
    var e := Expected(lines, y, k);
    var before := ScannedParts(lines, y, k);
    var p := PartNumber(e.number, e.leftX, e.rightX, e.y);
    if e.isPart {
      assert PartOf(lines, y, Run(s, k)) == p;
      assert PartsBefore(lines, y + 1) == before + [p];
      TrackSnoc(before, accumulator, gears, p);
    } else {
      assert PartsBefore(lines, y + 1) == before + [];
      assert before + [] == before;
    }
  }

  /** A line starts with nothing open and nothing closed. */
  lemma {:induction false} StartKeepsState(lines: seq<string>, y: nat)
    requires y < |lines|
    ensures Expected(lines, y, 0) == NoRun
    ensures ScannedParts(lines, y, 0) == PartsBefore(lines, y)
  {
  }

  /** The `if number.is_part { ... }` block of `both_parts`: a part number is
      added to the accumulator and to the gear map. */
  method TrackNumber(number: ScannedNumber, accumulator: nat, gears: map<Cell, GearEntry>)
    returns (accumulator': nat, gears': map<Cell, GearEntry>)
    ensures (accumulator', gears')
            == Track(accumulator, gears, number.isPart,
                     PartNumber(number.number, number.leftX, number.rightX, number.y))
  {
    accumulator', gears' := accumulator, gears;
    if number.isPart {
      accumulator' := accumulator + number.number;
      gears' := number.UpdateGearRatioMap(gears);
    }
  }

  /** The digit branch of `both_parts`: `extend` keeps the scanner in step
      with the open run. */
  method ExtendScanner(number: ScannedNumber, lines: seq<string>, symbols: map<Cell, char>, y: nat, x: nat)
    requires SymbolMapOf(symbols, lines)
    requires y < |lines| && x < |lines[y]| && IsDigit(lines[y][x])
    requires Scanning(number, lines, y, x)
    modifies number
    ensures Scanning(number, lines, y, x + 1)
  {
    ExtendKeepsState(lines, symbols, y, x);
    number.Extend(DigitOf(lines[y][x]), x, y, symbols);
  }

  /** One line of `both_parts`: every part number of line y is added. */
  method ScanLine(lines: seq<string>, y: nat, symbols: map<Cell, char>,
                  accumulator: nat, gears: map<Cell, GearEntry>)
    returns (accumulator': nat, gears': map<Cell, GearEntry>)
    requires SymbolMapOf(symbols, lines) && y < |lines|
    requires Accounted(PartsBefore(lines, y), accumulator, gears)
    ensures Accounted(PartsBefore(lines, y + 1), accumulator', gears')
  {
    var line := lines[y];
    var number := new ScannedNumber();
    accumulator', gears' := accumulator, gears;
    StartKeepsState(lines, y);
    for x := 0 to |line|
      invariant fresh(number)
      invariant Scanning(number, lines, y, x)
      invariant Accounted(ScannedParts(lines, y, x), accumulator', gears')
    {
      var c := line[x];
      if IsDigit(c) {
        ExtendScanner(number, lines, symbols, y, x);
      } else {
        CloseKeepsState(lines, y, x, accumulator', gears');
        accumulator', gears' := TrackNumber(number, accumulator', gears');
        number := new ScannedNumber();
      }
    }
    EndKeepsState(lines, y, accumulator', gears');
    accumulator', gears' := TrackNumber(number, accumulator', gears');
  }

  /** `both_parts`: part 1 is the sum of all part numbers, part 2 the sum of
      all gear ratios. */
  method BothParts(input: string) returns (part1: nat, part2: nat)
    ensures part1 == SumValues(Parts(Lines(input)))
    ensures part2 == GearRatioSum(GearTable(Lines(input)), Lines(input), GearTable(Lines(input)).Keys)
  {
    var symbols := ScanSymbols(input);
    var lines := Lines(input);
    var gears: map<Cell, GearEntry> := map[];
    var accumulator: nat := 0;
    for y := 0 to |lines|
      invariant Accounted(PartsBefore(lines, y), accumulator, gears)
    {
      accumulator, gears := ScanLine(lines, y, symbols, accumulator, gears);
    }
    part1 := accumulator;
    part2 := SumGearRatios(gears, symbols, lines);
  }
}
