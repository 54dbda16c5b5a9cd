/**
 * The engine schematic of 03.py. The padded schematic is read row by row: a
 * maximal run of digits is a Number (its value and the columns of its first
 * and last digit), every other character except '.' is a Symbol. A number is a
 * part number when a symbol touches it, diagonals included; a gear is a '*'
 * touching exactly two numbers. Coordinates are those of the padded grid.
 */
module Schematic {
  import opened Wrappers
  import Padding
  import opened Digits

  datatype Symbol = Symbol(what: char, x: int, y: int)

  datatype Number = Number(value: nat, xStart: int, xEnd: int, y: int)

  // ---------------------------------------------------------------------
  // Adjacency

  /** Two cells touch when they are equal or neighbours, diagonals included. */
  predicate Touches(x1: int, y1: int, x2: int, y2: int) {
    -1 <= x1 - x2 <= 1 && -1 <= y1 - y2 <= 1
  }

  /** The column of lo..hi nearest to x. */
  function Clamp(x: int, lo: int, hi: int): int
    requires lo <= hi
  {
    if x < lo then lo else if x > hi then hi else x
  }

  /** Number.is_adjacent: the symbol lies in the box one cell wider than the
      number on every side; equivalently, the symbol touches the number's own
      cell nearest to it. */
  predicate IsAdjacent(n: Number, s: Symbol)
    ensures n.xStart <= n.xEnd ==>
      (IsAdjacent(n, s) <==> Touches(Clamp(s.x, n.xStart, n.xEnd), n.y, s.x, s.y))
  {
    n.xStart - 1 <= s.x <= n.xEnd + 1 && n.y - 1 <= s.y <= n.y + 1
  }

  /** The box test says exactly that one of the number's own cells touches the
      symbol. */
  lemma AdjacentIffTouches(n: Number, s: Symbol)
    requires n.xStart <= n.xEnd
    ensures IsAdjacent(n, s) <==> exists x :: n.xStart <= x <= n.xEnd && Touches(x, n.y, s.x, s.y)
  {
    if IsAdjacent(n, s) {
      assert Touches(Clamp(s.x, n.xStart, n.xEnd), n.y, s.x, s.y);
    }
  }

  // ---------------------------------------------------------------------
  // Digit runs of one row

  predicate AllDigits(row: string, i: nat, j: nat)
    requires i <= j <= |row|
  {
    forall k :: i <= k < j ==> IsDigit(row[k])
  }

  /** int() of a non-empty string of decimal digits. */
  function Decimal(s: string): nat
    requires forall k :: 0 <= k < |s| ==> IsDigit(s[k])
  {
    if s == [] then 0
    else
      assert IsDigit(s[|s| - 1]);
      10 * Decimal(s[..|s| - 1]) + DigitValue(s[|s| - 1])
  }

  /** The first position at or after i that does not hold a digit. */
  function RunEnd(row: string, i: nat): (e: nat)
    requires i <= |row|
    ensures i <= e <= |row|
    decreases |row| - i
  {
    if i < |row| && IsDigit(row[i]) then RunEnd(row, i + 1) else i
  }

  lemma {:induction false} RunEndSpec(row: string, i: nat)
    requires i <= |row|
    ensures var e := RunEnd(row, i);
      AllDigits(row, i, e) && (e < |row| ==> !IsDigit(row[e]))
    decreases |row| - i
  {
    if i < |row| && IsDigit(row[i]) {
      RunEndSpec(row, i + 1);
    }
  }

  /** A run of digits that stops at a non-digit ends there. */
  lemma {:induction false} RunEndAt(row: string, i: nat, e: nat)
    requires i <= e < |row| && AllDigits(row, i, e) && !IsDigit(row[e])
    ensures RunEnd(row, i) == e
    decreases e - i
  {
    if i < e {
      RunEndAt(row, i + 1, e);
    }
  }

  /** The number made of the digits row[start..end]. */
  function RunNumber(row: string, y: int, start: nat, end: nat): Number
    requires start <= end <= |row| && AllDigits(row, start, end)
  {
    Number(Decimal(row[start..end]), start, end - 1, y)
  }

  /** The maximal digit runs of row y from column x on, left to right. */
  function RunsFrom(row: string, y: int, x: nat): seq<Number>
    requires x <= |row|
    decreases |row| - x
  {
    if x == |row| then []
    else if !IsDigit(row[x]) then RunsFrom(row, y, x + 1)
    else
      var e := RunEnd(row, x);
      RunEndSpec(row, x);
      [RunNumber(row, y, x, e)] + RunsFrom(row, y, e)
  }

  /** n is a maximal run of digits of row y, and its value is their decimal
      value. */
  predicate IsRun(row: string, y: int, n: Number) {
    n.y == y && 0 <= n.xStart <= n.xEnd < |row| &&
    AllDigits(row, n.xStart, n.xEnd + 1) &&
    (n.xStart == 0 || !IsDigit(row[n.xStart - 1])) &&
    (n.xEnd + 1 == |row| || !IsDigit(row[n.xEnd + 1])) &&
    n.value == Decimal(row[n.xStart..n.xEnd + 1])
  }

  /** a comes before b in the row-major order of the scan, and they do not
      overlap. */
  predicate Before(a: Number, b: Number) {
    a.y < b.y || (a.y == b.y && a.xEnd + 1 < b.xStart)
  }

  /** Every number found is a maximal run, and they come left to right with a
      gap between them. */
  lemma {:induction false} RunsSpec(row: string, y: int, x: nat)
    requires x <= |row|
    requires x == 0 || x == |row| || !IsDigit(row[x - 1]) || !IsDigit(row[x])
    ensures var ns := RunsFrom(row, y, x);
      (forall n :: n in ns ==> IsRun(row, y, n) && x <= n.xStart) &&
      (forall i, j :: 0 <= i < j < |ns| ==> Before(ns[i], ns[j]))
    decreases |row| - x
  {
    if x == |row| {
    } else if !IsDigit(row[x]) {
      RunsSpec(row, y, x + 1);
      assert RunsFrom(row, y, x) == RunsFrom(row, y, x + 1);
    } else {
      var e := RunEnd(row, x);
      RunEndSpec(row, x);
      RunsSpec(row, y, e);
      var head := RunNumber(row, y, x, e);
      var tail := RunsFrom(row, y, e);
      assert RunsFrom(row, y, x) == [head] + tail;
      assert forall n :: n in tail ==> e < n.xStart;
    }
  }

  /** Every digit of the row lies in one of the numbers found. */
  lemma {:induction false} RunsCover(row: string, y: int, x: nat)
    requires x <= |row|
    ensures var ns := RunsFrom(row, y, x);
      forall k :: x <= k < |row| && IsDigit(row[k]) ==>
        exists n :: n in ns && n.xStart <= k <= n.xEnd
    decreases |row| - x
  {
    if x == |row| {
    } else if !IsDigit(row[x]) {
      RunsCover(row, y, x + 1);
    } else {
      var e := RunEnd(row, x);
      RunEndSpec(row, x);
      RunsCover(row, y, e);
      var head := RunNumber(row, y, x, e);
      var ns := RunsFrom(row, y, x);
      assert ns == [head] + RunsFrom(row, y, e);
      forall k | x <= k < |row| && IsDigit(row[k])
        ensures exists n :: n in ns && n.xStart <= k <= n.xEnd
      {
        if k < e {
          assert head in ns;
        } else {
          var n :| n in RunsFrom(row, y, e) && n.xStart <= k <= n.xEnd;
          assert n in ns;
        }
      }
    }
  }

  // ---------------------------------------------------------------------
  // Symbols of one row

  /** Anything but a digit or '.' is a symbol. */
  predicate IsSymbol(c: char) {
    !IsDigit(c) && c != '.'
  }

  /** The symbols of row y from column x on, left to right. */
  function SymbolsFrom(row: string, y: int, x: nat): seq<Symbol>
    requires x <= |row|
    decreases |row| - x
  {
    if x == |row| then []
    else if IsSymbol(row[x]) then [Symbol(row[x], x, y)] + SymbolsFrom(row, y, x + 1)
    else SymbolsFrom(row, y, x + 1)
  }

  /** The symbols found are exactly the symbol characters of the row, each with
      its column, in increasing column order. */
  lemma {:induction false} SymbolsSpec(row: string, y: int, x: nat)
    requires x <= |row|
    ensures var ss := SymbolsFrom(row, y, x);
      (forall s :: s in ss <==> s.y == y && x <= s.x < |row| && s.what == row[s.x] && IsSymbol(s.what)) &&
      (forall i, j :: 0 <= i < j < |ss| ==> ss[i].x < ss[j].x)
    decreases |row| - x
  {
    if x < |row| {
      SymbolsSpec(row, y, x + 1);
    }
  }

  // ---------------------------------------------------------------------
  // Scanning one padded row

  /** Python's truth value of digit_start: None and 0 are both false. */
  predicate Truthy(digitStart: Option<nat>) {
    digitStart.Some? && digitStart.value != 0
  }

  /** The scan of row y has reached column x with these numbers found and
      digit_start open at the start of a run of digits, or not. */
  predicate Scanned(row: string, y: int, x: nat, numbers: seq<Number>, digitStart: Option<nat>)
    requires x <= |row|
  {
    match digitStart
    case None => numbers + RunsFrom(row, y, x) == RunsFrom(row, y, 0)
    case Some(start) =>
      1 <= start < x && AllDigits(row, start, x) &&
      numbers + RunsFrom(row, y, start) == RunsFrom(row, y, 0)
  }

  /** A run that stops at the non-digit at x is the next number, and the scan
      goes on after x. */
  lemma CloseRun(row: string, y: int, start: nat, x: nat)
    requires start < x < |row| && AllDigits(row, start, x) && !IsDigit(row[x])
    ensures RunsFrom(row, y, start) == [RunNumber(row, y, start, x)] + RunsFrom(row, y, x + 1)
  {
    RunEndAt(row, start, x);
    RunEndSpec(row, start);
  }

  /** The inner loop of scan_schematic over one row of the padded schematic,
      which starts and ends with '.'. The leading '.' keeps digit_start from
      ever being 0, so its truth tests mean "a run is open"; the trailing '.'
      closes the last run. */
  method ScanRow(row: string, y: int) returns (numbers: seq<Number>, symbols: seq<Symbol>)
    requires |row| >= 1 && row[0] == '.' && row[|row| - 1] == '.'
    ensures numbers == RunsFrom(row, y, 0)
    ensures symbols == SymbolsFrom(row, y, 0)
  {
    var digitStart: Option<nat> := None;
    numbers, symbols := [], [];
    for x := 0 to |row|
      invariant Scanned(row, y, x, numbers, digitStart)
      invariant symbols + SymbolsFrom(row, y, x) == SymbolsFrom(row, y, 0)
    {
      numbers, symbols, digitStart := ScanChar(row, y, x, numbers, symbols, digitStart);
    }
    assert digitStart.None?;
  }

  /** One turn of the inner loop: the character at column x opens a run, closes
      the open one, or is a symbol. */
  method ScanChar(row: string, y: int, x: nat, numbers0: seq<Number>, symbols0: seq<Symbol>,
                  digitStart0: Option<nat>)
    returns (numbers: seq<Number>, symbols: seq<Symbol>, digitStart: Option<nat>)
    requires x < |row| && row[0] == '.'
    requires Scanned(row, y, x, numbers0, digitStart0)
    requires symbols0 + SymbolsFrom(row, y, x) == SymbolsFrom(row, y, 0)
    ensures Scanned(row, y, x + 1, numbers, digitStart)
    ensures symbols + SymbolsFrom(row, y, x + 1) == SymbolsFrom(row, y, 0)
  {
    numbers, symbols, digitStart := numbers0, symbols0, digitStart0;
    var c := row[x];
    if !Truthy(digitStart) && IsDigit(c) {
      digitStart := Some(x);
    } else if Truthy(digitStart) && !IsDigit(c) {
      var start := digitStart.value;
      CloseRun(row, y, start, x);
      numbers := numbers + [RunNumber(row, y, start, x)];
      assert numbers0 + RunsFrom(row, y, start) == numbers + RunsFrom(row, y, x + 1);
      digitStart := None;
    }
    if !Truthy(digitStart) && !IsDigit(c) && c != '.' {
      symbols := symbols + [Symbol(c, x, y)];
    }
  }

  // ---------------------------------------------------------------------
  // The whole schematic

  /** The numbers of the rows 1 to y - 1, in scan order. */
  function NumbersAbove(g: seq<string>, y: nat): seq<Number>
    requires y <= |g|
  {
    if y <= 1 then [] else NumbersAbove(g, y - 1) + RunsFrom(g[y - 1], y - 1, 0)
  }

  /** The symbols of the rows 1 to y - 1, in scan order. */
  function SymbolsAbove(g: seq<string>, y: nat): seq<Symbol>
    requires y <= |g|
  {
    if y <= 1 then [] else SymbolsAbove(g, y - 1) + SymbolsFrom(g[y - 1], y - 1, 0)
  }

  /** scan_schematic: the numbers and the symbols of the interior rows of the
      padded schematic; the border rows hold only '.'. */
  function Numbers(lines: seq<string>): seq<Number>
    requires |lines| > 0
  {
    NumbersAbove(Padding.Pad(lines), |lines| + 1)
  }

  function Symbols(lines: seq<string>): seq<Symbol>
    requires |lines| > 0
  {
    SymbolsAbove(Padding.Pad(lines), |lines| + 1)
  }

  /** Each number is a maximal run of its own row, and they come in row-major
      order without overlapping. */
  lemma {:induction false} NumbersAboveSpec(g: seq<string>, y: nat)
    requires y <= |g|
    ensures var ns := NumbersAbove(g, y);
      (forall n :: n in ns ==> 1 <= n.y < y && IsRun(g[n.y], n.y, n)) &&
      (forall i, j :: 0 <= i < j < |ns| ==> Before(ns[i], ns[j]))
  {
    if y > 1 {
      NumbersAboveSpec(g, y - 1);
      RunsSpec(g[y - 1], y - 1, 0);
      var above, row := NumbersAbove(g, y - 1), RunsFrom(g[y - 1], y - 1, 0);
      var ns := above + row;
      forall i, j | 0 <= i < j < |ns|
        ensures Before(ns[i], ns[j])
      {
        if j < |above| {
          assert ns[i] == above[i] && ns[j] == above[j];
        } else if i < |above| {
          assert ns[i] in above && ns[j] in row;
        } else {
          assert ns[i] == row[i - |above|] && ns[j] == row[j - |above|];
        }
      }
    }
  }

  /** Every digit of the rows 1 to y - 1 lies in one of the numbers. */
  lemma {:induction false} NumbersAboveCover(g: seq<string>, y: nat)
    requires y <= |g|
    ensures forall r, k :: 1 <= r < y && 0 <= k < |g[r]| && IsDigit(g[r][k]) ==>
      exists n :: n in NumbersAbove(g, y) && n.y == r && n.xStart <= k <= n.xEnd
  {
    if y > 1 {
      NumbersAboveCover(g, y - 1);
      RunsCover(g[y - 1], y - 1, 0);
      RunsSpec(g[y - 1], y - 1, 0);
      var ns := NumbersAbove(g, y);
      forall r, k | 1 <= r < y && 0 <= k < |g[r]| && IsDigit(g[r][k])
        ensures exists n :: n in ns && n.y == r && n.xStart <= k <= n.xEnd
      {
        if r < y - 1 {
          var n :| n in NumbersAbove(g, y - 1) && n.y == r && n.xStart <= k <= n.xEnd;
          assert n in ns;
        } else {
          var n :| n in RunsFrom(g[r], r, 0) && n.xStart <= k <= n.xEnd;
          assert n in ns;
        }
      }
    }
  }

  /** The symbols are exactly the symbol characters of the rows 1 to y - 1, in
      row-major order. */
  lemma {:induction false} SymbolsAboveSpec(g: seq<string>, y: nat)
    requires y <= |g|
    ensures var ss := SymbolsAbove(g, y);
      (forall s :: s in ss <==>
        1 <= s.y < y && 0 <= s.x < |g[s.y]| && s.what == g[s.y][s.x] && IsSymbol(s.what)) &&
      (forall i, j :: 0 <= i < j < |ss| ==> ss[i].y < ss[j].y || (ss[i].y == ss[j].y && ss[i].x < ss[j].x))
  {
    if y > 1 {
      SymbolsAboveSpec(g, y - 1);
      SymbolsSpec(g[y - 1], y - 1, 0);
      var above, row := SymbolsAbove(g, y - 1), SymbolsFrom(g[y - 1], y - 1, 0);
      var ss := above + row;
      forall i, j | 0 <= i < j < |ss|
        ensures ss[i].y < ss[j].y || (ss[i].y == ss[j].y && ss[i].x < ss[j].x)
      {
        if j < |above| {
          assert ss[i] == above[i] && ss[j] == above[j];
        } else if i < |above| {
          assert ss[i] in above && ss[j] in row;
        } else {
          assert ss[i] == row[i - |above|] && ss[j] == row[j - |above|];
        }
      }
    }
  }

  /** Every interior row of a padded schematic starts and ends with '.'. */
  predicate PaddedRows(g: seq<string>) {
    forall y :: 1 <= y < |g| - 1 ==> |g[y]| >= 2 && g[y][0] == '.' && g[y][|g[y]| - 1] == '.'
  }

  lemma PadRows(lines: seq<string>)
    requires |lines| > 0
    ensures PaddedRows(Padding.Pad(lines))
  {
    var g := Padding.Pad(lines);
    forall y | 1 <= y < |g| - 1
      ensures |g[y]| >= 2 && g[y][0] == '.' && g[y][|g[y]| - 1] == '.'
    {
      assert g[y] == Padding.PadRow(lines[y - 1]);
    }
  }

  /** scan_schematic: pad the lines, then scan them. */
  method ScanSchematic(lines: seq<string>) returns (numbers: seq<Number>, symbols: seq<Symbol>)
    requires |lines| > 0
    ensures numbers == Numbers(lines) && symbols == Symbols(lines)
  {
    var g := Padding.Pad(lines);
    PadRows(lines);
    numbers, symbols := ScanRows(g);
  }

  /** The outer loop of scan_schematic: every row but the two border rows is
      scanned, top to bottom. */
  method ScanRows(g: seq<string>) returns (numbers: seq<Number>, symbols: seq<Symbol>)
    requires |g| >= 2 && PaddedRows(g)
    ensures numbers == NumbersAbove(g, |g| - 1) && symbols == SymbolsAbove(g, |g| - 1)
  {
    numbers, symbols := [], [];
    for y := 0 to |g|
      invariant numbers == NumbersAbove(g, if y < |g| then y else |g| - 1)
      invariant symbols == SymbolsAbove(g, if y < |g| then y else |g| - 1)
    {
      if y == 0 || y == |g| - 1 {
        continue;
      }
      var rowNumbers, rowSymbols := ScanRow(g[y], y);
      numbers := numbers + rowNumbers;
      symbols := symbols + rowSymbols;
    }
  }

  // ---------------------------------------------------------------------
  // part_1

  /** Some symbol is adjacent to n. */
  predicate HasNeighbour(n: Number, symbols: seq<Symbol>) {
    exists s :: s in symbols && IsAdjacent(n, s)
  }

  /** The sum of the part numbers: each number counts once, when some symbol
      is adjacent to it. */
  function PartSum(numbers: seq<Number>, symbols: seq<Symbol>): nat {
    if numbers == [] then 0
    else
      var n := numbers[|numbers| - 1];
      PartSum(numbers[..|numbers| - 1], symbols) + (if HasNeighbour(n, symbols) then n.value else 0)
  }

  /** One more number adds its value when a symbol touches it. */
  lemma PartSumSnoc(numbers: seq<Number>, symbols: seq<Symbol>, k: nat)
    requires k < |numbers|
    ensures PartSum(numbers[..k + 1], symbols) ==
      PartSum(numbers[..k], symbols) + (if HasNeighbour(numbers[k], symbols) then numbers[k].value else 0)
  {
    assert numbers[..k + 1][..k] == numbers[..k];
  }

  /** The sum of all values. */
  function ValueSum(numbers: seq<Number>): nat {
    if numbers == [] then 0 else ValueSum(numbers[..|numbers| - 1]) + numbers[|numbers| - 1].value
  }

  /** No number counts twice: the part sum never exceeds the sum of all
      values, it equals that sum when every number touches a symbol, and it is
      0 when no number does. */
  lemma {:induction false} PartSumBounds(numbers: seq<Number>, symbols: seq<Symbol>)
    ensures PartSum(numbers, symbols) <= ValueSum(numbers)
    ensures (forall n :: n in numbers ==> HasNeighbour(n, symbols)) ==> PartSum(numbers, symbols) == ValueSum(numbers)
    ensures (forall n :: n in numbers ==> !HasNeighbour(n, symbols)) ==> PartSum(numbers, symbols) == 0
  {
    if numbers != [] {
      var init := numbers[..|numbers| - 1];
      PartSumBounds(init, symbols);
      assert forall n :: n in init ==> n in numbers;
    }
  }

  /** The inner loop of part_1: is some symbol adjacent to the number? It
      stops at the first one. */
  method AnyAdjacent(number: Number, symbols: seq<Symbol>) returns (found: bool)
    ensures found == HasNeighbour(number, symbols)
  {
    for i := 0 to |symbols|
      invariant forall k :: 0 <= k < i ==> !IsAdjacent(number, symbols[k])
    {
      if IsAdjacent(number, symbols[i]) {
        return true;
      }
    }
    return false;
  }

  /** part_1: the sum of the part numbers of the schematic. */
  method Part1(lines: seq<string>) returns (total: nat)
    requires |lines| > 0
    ensures total == PartSum(Numbers(lines), Symbols(lines))
  {
    var numbers, symbols := ScanSchematic(lines);
    total := 0;
    for i := 0 to |numbers|
      invariant total == PartSum(numbers[..i], symbols)
    {
      var found := AnyAdjacent(numbers[i], symbols);
      PartSumSnoc(numbers, symbols, i);
      if found {
        total := total + numbers[i].value;
      }
    }
    assert numbers[..|numbers|] == numbers;
  }

  // ---------------------------------------------------------------------
  // part_2

  /** The '*' symbols, in scan order. */
  function Stars(symbols: seq<Symbol>): seq<Symbol> {
    if symbols == [] then []
    else
      var s := symbols[|symbols| - 1];
      Stars(symbols[..|symbols| - 1]) + (if s.what == '*' then [s] else [])
  }

  /** A symbol is kept exactly when it is a '*'. */
  lemma {:induction false} StarsSpec(symbols: seq<Symbol>)
    ensures forall s :: s in Stars(symbols) <==> s in symbols && s.what == '*'
  {
    if symbols != [] {
      var init := symbols[..|symbols| - 1];
      StarsSpec(init);
      assert symbols == init + [symbols[|symbols| - 1]];
    }
  }

  /** How many numbers are adjacent to the star. */
  function AdjCount(numbers: seq<Number>, star: Symbol): nat {
    if numbers == [] then 0
    else
      var n := numbers[|numbers| - 1];
      AdjCount(numbers[..|numbers| - 1], star) + (if IsAdjacent(n, star) then 1 else 0)
  }

  /** The product of the numbers adjacent to the star. */
  function AdjProduct(numbers: seq<Number>, star: Symbol): nat {
    if numbers == [] then 1
    else
      var n := numbers[|numbers| - 1];
      AdjProduct(numbers[..|numbers| - 1], star) * (if IsAdjacent(n, star) then n.value else 1)
  }

  /** The sum of the gear ratios: a star counts when exactly two numbers are
      adjacent to it, with the product of their values. */
  function GearSum(numbers: seq<Number>, stars: seq<Symbol>): nat {
    if stars == [] then 0
    else
      var s := stars[|stars| - 1];
      GearSum(numbers, stars[..|stars| - 1]) + (if AdjCount(numbers, s) == 2 then AdjProduct(numbers, s) else 0)
  }

  /** No adjacent number: the count is 0 and the product is empty. */
  lemma {:induction false} NoneAdjacent(numbers: seq<Number>, star: Symbol)
    requires forall k :: 0 <= k < |numbers| ==> !IsAdjacent(numbers[k], star)
    ensures AdjCount(numbers, star) == 0 && AdjProduct(numbers, star) == 1
  {
    if numbers != [] {
      NoneAdjacent(numbers[..|numbers| - 1], star);
    }
  }

  /** Exactly one adjacent number, at index i: the product is its value. */
  lemma {:induction false} OneAdjacent(numbers: seq<Number>, star: Symbol, i: nat)
    requires i < |numbers| && IsAdjacent(numbers[i], star)
    requires forall k :: 0 <= k < |numbers| && k != i ==> !IsAdjacent(numbers[k], star)
    ensures AdjCount(numbers, star) == 1 && AdjProduct(numbers, star) == numbers[i].value
    decreases |numbers|
  {
    var init := numbers[..|numbers| - 1];
    if i == |numbers| - 1 {
      NoneAdjacent(init, star);
    } else {
      OneAdjacent(init, star, i);
    }
  }

  /** A star with exactly two adjacent numbers has them at some i < j, no
      other number is adjacent, and its ratio is the product of their values. */
  lemma {:induction false} GearRatio(numbers: seq<Number>, star: Symbol) returns (i: nat, j: nat)
    requires AdjCount(numbers, star) == 2
    ensures i < j < |numbers| && IsAdjacent(numbers[i], star) && IsAdjacent(numbers[j], star)
    ensures forall k :: 0 <= k < |numbers| && k != i && k != j ==> !IsAdjacent(numbers[k], star)
    ensures AdjProduct(numbers, star) == numbers[i].value * numbers[j].value
  {
    var init := numbers[..|numbers| - 1];
    if IsAdjacent(numbers[|numbers| - 1], star) {
      i := OnlyAdjacent(init, star);
      OneAdjacent(init, star, i);
      j := |numbers| - 1;
    } else {
      i, j := GearRatio(init, star);
    }
  }

  /** With a count of one, the one adjacent number and the absence of others. */
  lemma {:induction false} OnlyAdjacent(numbers: seq<Number>, star: Symbol) returns (i: nat)
    requires AdjCount(numbers, star) == 1
    ensures i < |numbers| && IsAdjacent(numbers[i], star)
    ensures forall k :: 0 <= k < |numbers| && k != i ==> !IsAdjacent(numbers[k], star)
  {
    var init, last := numbers[..|numbers| - 1], numbers[|numbers| - 1];
    if IsAdjacent(last, star) {
      ZeroAdjacent(init, star);
      i := |numbers| - 1;
    } else {
      i := OnlyAdjacent(init, star);
    }
  }

  /** With a count of zero, no number is adjacent. */
  lemma {:induction false} ZeroAdjacent(numbers: seq<Number>, star: Symbol)
    requires AdjCount(numbers, star) == 0
    ensures forall k :: 0 <= k < |numbers| ==> !IsAdjacent(numbers[k], star)
  {
    if numbers != [] {
      ZeroAdjacent(numbers[..|numbers| - 1], star);
    }
  }

  /** The inner loop of part_2 over the numbers, for one star. */
  method StarRatio(numbers: seq<Number>, star: Symbol) returns (ratio: nat, numAdj: nat)
    ensures ratio == AdjProduct(numbers, star) && numAdj == AdjCount(numbers, star)
  {
    ratio, numAdj := 1, 0;
    for i := 0 to |numbers|
      invariant ratio == AdjProduct(numbers[..i], star) && numAdj == AdjCount(numbers[..i], star)
    {
      assert numbers[..i + 1][..i] == numbers[..i];
      if IsAdjacent(numbers[i], star) {
        ratio := ratio * numbers[i].value;
        numAdj := numAdj + 1;
      }
    }
    assert numbers[..|numbers|] == numbers;
  }

  /** part_2: the sum of the gear ratios of the schematic. */
  method Part2(lines: seq<string>) returns (total: nat)
    requires |lines| > 0
    ensures total == GearSum(Numbers(lines), Stars(Symbols(lines)))
  {
    var numbers, symbols := ScanSchematic(lines);
    var stars := Stars(symbols);
    total := 0;
    for i := 0 to |stars|
      invariant total == GearSum(numbers, stars[..i])
    {
      var ratio, numAdj := StarRatio(numbers, stars[i]);
      assert stars[..i + 1][..i] == stars[..i];
      if numAdj == 2 {
        total := total + ratio;
      }
    }
    assert stars[..|stars|] == stars;
  }
}
