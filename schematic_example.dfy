/**
 * The example schematic printed in 03.py, scanned and summed: its part
 * numbers add up to 4361 and its two gear ratios to 467835.
 */
module SchematicExample {
  import Padding
  import opened Digits
  import opened Schematic

  const Lines: seq<string> := [
    "467..114..",
    "...*......",
    "..35..633.",
    "......#...",
    "617*......",
    ".....+.58.",
    "..592.....",
    "......755.",
    "...$.*....",
    ".664.598.."
  ]

  lemma Decimal2(s: string)
    requires |s| == 2 && IsDigit(s[0]) && IsDigit(s[1])
    ensures Decimal(s) == 10 * DigitValue(s[0]) + DigitValue(s[1])
  {
    assert s[..1][..0] == [];
    assert Decimal(s[..1]) == DigitValue(s[0]);
  }

  lemma Decimal3(s: string)
    requires |s| == 3 && IsDigit(s[0]) && IsDigit(s[1]) && IsDigit(s[2])
    ensures Decimal(s) == 100 * DigitValue(s[0]) + 10 * DigitValue(s[1]) + DigitValue(s[2])
  {
    assert s[..2][..1] == s[..1] && s[..1][..0] == [];
    assert Decimal(s[..1]) == DigitValue(s[0]);
    assert Decimal(s[..2]) == 10 * DigitValue(s[0]) + DigitValue(s[1]);
  }

  /** A line without whitespace is wrapped in one '.' on either side. */
  lemma PadRowOf(line: string)
    requires forall k :: 0 <= k < |line| ==> !Padding.IsSpace(line[k])
    ensures Padding.PadRow(line) == "." + line + "."
  {
    Padding.StripNoSpace(line);
  }

  /** Row k + 1 of the padded grid is line k wrapped in '.'. */
  lemma PaddedRowAt(lines: seq<string>, k: nat, line: string)
    requires k < |lines| && lines[k] == line
    requires forall c :: 0 <= c < |line| ==> !Padding.IsSpace(line[c])
    ensures Padding.Pad(lines)[k + 1] == "." + line + "."
  {
    PadRowOf(line);
  }

  /** Row k + 1 of the padded example, for each line k. */
  lemma PaddedRow1(lines: seq<string>)
    requires 0 < |lines| && lines[0] == "467..114.."
    ensures Padding.Pad(lines)[1] == ".467..114..."
  {
    assert Padding.Pad(lines)[1] == "." + lines[0] + "." by {
      PaddedRowAt(lines, 0, "467..114..");
    }
  }

  lemma PaddedRow2(lines: seq<string>)
    requires 1 < |lines| && lines[1] == "...*......"
    ensures Padding.Pad(lines)[2] == "....*......."
  {
    assert Padding.Pad(lines)[2] == "." + lines[1] + "." by {
      PaddedRowAt(lines, 1, "...*......");
    }
  }

  lemma PaddedRow3(lines: seq<string>)
    requires 2 < |lines| && lines[2] == "..35..633."
    ensures Padding.Pad(lines)[3] == "...35..633.."
  {
    assert Padding.Pad(lines)[3] == "." + lines[2] + "." by {
      PaddedRowAt(lines, 2, "..35..633.");
    }
  }

  lemma PaddedRow4(lines: seq<string>)
    requires 3 < |lines| && lines[3] == "......#..."
    ensures Padding.Pad(lines)[4] == ".......#...."
  {
    assert Padding.Pad(lines)[4] == "." + lines[3] + "." by {
      PaddedRowAt(lines, 3, "......#...");
    }
  }

  lemma PaddedRow5(lines: seq<string>)
    requires 4 < |lines| && lines[4] == "617*......"
    ensures Padding.Pad(lines)[5] == ".617*......."
  {
    assert Padding.Pad(lines)[5] == "." + lines[4] + "." by {
      PaddedRowAt(lines, 4, "617*......");
    }
  }

  lemma PaddedRow6(lines: seq<string>)
    requires 5 < |lines| && lines[5] == ".....+.58."
    ensures Padding.Pad(lines)[6] == "......+.58.."
  {
    assert Padding.Pad(lines)[6] == "." + lines[5] + "." by {
      PaddedRowAt(lines, 5, ".....+.58.");
    }
  }

  lemma PaddedRow7(lines: seq<string>)
    requires 6 < |lines| && lines[6] == "..592....."
    ensures Padding.Pad(lines)[7] == "...592......"
  {
    assert Padding.Pad(lines)[7] == "." + lines[6] + "." by {
      PaddedRowAt(lines, 6, "..592.....");
    }
  }

  lemma PaddedRow8(lines: seq<string>)
    requires 7 < |lines| && lines[7] == "......755."
    ensures Padding.Pad(lines)[8] == ".......755.."
  {
    assert Padding.Pad(lines)[8] == "." + lines[7] + "." by {
      PaddedRowAt(lines, 7, "......755.");
    }
  }

  lemma PaddedRow9(lines: seq<string>)
    requires 8 < |lines| && lines[8] == "...$.*...."
    ensures Padding.Pad(lines)[9] == "....$.*....."
  {
    assert Padding.Pad(lines)[9] == "." + lines[8] + "." by {
      PaddedRowAt(lines, 8, "...$.*....");
    }
  }

  lemma PaddedRow10(lines: seq<string>)
    requires 9 < |lines| && lines[9] == ".664.598.."
    ensures Padding.Pad(lines)[10] == "..664.598..."
  {
    assert Padding.Pad(lines)[10] == "." + lines[9] + "." by {
      PaddedRowAt(lines, 9, ".664.598..");
    }
  }

  lemma Row1()
    ensures RunsFrom(".467..114...", 1, 0) == [Number(467, 1, 3, 1), Number(114, 6, 8, 1)]
    ensures SymbolsFrom(".467..114...", 1, 0) == []
  {
    var row := ".467..114...";
    RunEndAt(row, 1, 4);
    Decimal3(row[1..4]);
    RunEndAt(row, 6, 9);
    Decimal3(row[6..9]);
  }

  lemma Row2()
    ensures RunsFrom("....*.......", 2, 0) == []
    ensures SymbolsFrom("....*.......", 2, 0) == [Symbol('*', 4, 2)]
  {
  }

  lemma Row3()
    ensures RunsFrom("...35..633..", 3, 0) == [Number(35, 3, 4, 3), Number(633, 7, 9, 3)]
    ensures SymbolsFrom("...35..633..", 3, 0) == []
  {
    var row := "...35..633..";
    RunEndAt(row, 3, 5);
    Decimal2(row[3..5]);
    RunEndAt(row, 7, 10);
    Decimal3(row[7..10]);
  }

  lemma Row4()
    ensures RunsFrom(".......#....", 4, 0) == []
    ensures SymbolsFrom(".......#....", 4, 0) == [Symbol('#', 7, 4)]
  {
  }

  lemma Row5()
    ensures RunsFrom(".617*.......", 5, 0) == [Number(617, 1, 3, 5)]
    ensures SymbolsFrom(".617*.......", 5, 0) == [Symbol('*', 4, 5)]
  {
    var row := ".617*.......";
    RunEndAt(row, 1, 4);
    Decimal3(row[1..4]);
  }

  lemma Row6()
    ensures RunsFrom("......+.58..", 6, 0) == [Number(58, 8, 9, 6)]
    ensures SymbolsFrom("......+.58..", 6, 0) == [Symbol('+', 6, 6)]
  {
    var row := "......+.58..";
    RunEndAt(row, 8, 10);
    Decimal2(row[8..10]);
  }

  lemma Row7()
    ensures RunsFrom("...592......", 7, 0) == [Number(592, 3, 5, 7)]
    ensures SymbolsFrom("...592......", 7, 0) == []
  {
    var row := "...592......";
    RunEndAt(row, 3, 6);
    Decimal3(row[3..6]);
  }

  lemma Row8()
    ensures RunsFrom(".......755..", 8, 0) == [Number(755, 7, 9, 8)]
    ensures SymbolsFrom(".......755..", 8, 0) == []
  {
    var row := ".......755..";
    RunEndAt(row, 7, 10);
    Decimal3(row[7..10]);
  }

  lemma Row9()
    ensures RunsFrom("....$.*.....", 9, 0) == []
    ensures SymbolsFrom("....$.*.....", 9, 0) == [Symbol('$', 4, 9), Symbol('*', 6, 9)]
  {
  }

  lemma Row10()
    ensures RunsFrom("..664.598...", 10, 0) == [Number(664, 2, 4, 10), Number(598, 6, 8, 10)]
    ensures SymbolsFrom("..664.598...", 10, 0) == []
  {
    var row := "..664.598...";
    RunEndAt(row, 2, 5);
    Decimal3(row[2..5]);
    RunEndAt(row, 6, 9);
    Decimal3(row[6..9]);
  }

  /** The numbers of the example, in scan order. */
  const ExampleNumbers: seq<Number> := [
    Number(467, 1, 3, 1), Number(114, 6, 8, 1), Number(35, 3, 4, 3), Number(633, 7, 9, 3),
    Number(617, 1, 3, 5), Number(58, 8, 9, 6), Number(592, 3, 5, 7), Number(755, 7, 9, 8),
    Number(664, 2, 4, 10), Number(598, 6, 8, 10)
  ]

  /** The symbols of the example, in scan order. */
  const ExampleSymbols: seq<Symbol> := [
    Symbol('*', 4, 2), Symbol('#', 7, 4), Symbol('*', 4, 5),
    Symbol('+', 6, 6), Symbol('$', 4, 9), Symbol('*', 6, 9)
  ]

  // The scan of the padded example, a few rows at a time.

  lemma NumbersRows1(g: seq<string>)
    requires |g| == 12 && g[1] == ".467..114..." && g[2] == "....*......." && g[3] == "...35..633.."
    ensures NumbersAbove(g, 4) == [Number(467, 1, 3, 1), Number(114, 6, 8, 1), Number(35, 3, 4, 3), Number(633, 7, 9, 3)]
  {
    Row1(); Row2(); Row3();
    assert NumbersAbove(g, 2) == [Number(467, 1, 3, 1), Number(114, 6, 8, 1)];
    assert NumbersAbove(g, 3) == [Number(467, 1, 3, 1), Number(114, 6, 8, 1)];
  }

  lemma NumbersRows2(g: seq<string>)
    requires |g| == 12 && g[4] == ".......#...." && g[5] == ".617*......." && g[6] == "......+.58.."
    requires NumbersAbove(g, 4) == [Number(467, 1, 3, 1), Number(114, 6, 8, 1), Number(35, 3, 4, 3), Number(633, 7, 9, 3)]
    ensures NumbersAbove(g, 7) == [Number(467, 1, 3, 1), Number(114, 6, 8, 1), Number(35, 3, 4, 3), Number(633, 7, 9, 3), Number(617, 1, 3, 5), Number(58, 8, 9, 6)]
  {
    Row4(); Row5(); Row6();
    assert NumbersAbove(g, 5) == [Number(467, 1, 3, 1), Number(114, 6, 8, 1), Number(35, 3, 4, 3), Number(633, 7, 9, 3)];
    assert NumbersAbove(g, 6) == [Number(467, 1, 3, 1), Number(114, 6, 8, 1), Number(35, 3, 4, 3), Number(633, 7, 9, 3), Number(617, 1, 3, 5)];
  }

  lemma NumbersRows3(g: seq<string>)
    requires |g| == 12 && g[7] == "...592......" && g[8] == ".......755.."
    requires NumbersAbove(g, 7) == [Number(467, 1, 3, 1), Number(114, 6, 8, 1), Number(35, 3, 4, 3), Number(633, 7, 9, 3), Number(617, 1, 3, 5), Number(58, 8, 9, 6)]
    ensures NumbersAbove(g, 9) == [Number(467, 1, 3, 1), Number(114, 6, 8, 1), Number(35, 3, 4, 3), Number(633, 7, 9, 3), Number(617, 1, 3, 5), Number(58, 8, 9, 6), Number(592, 3, 5, 7), Number(755, 7, 9, 8)]
  {
    Row7(); Row8();
    assert NumbersAbove(g, 8) == [Number(467, 1, 3, 1), Number(114, 6, 8, 1), Number(35, 3, 4, 3), Number(633, 7, 9, 3), Number(617, 1, 3, 5), Number(58, 8, 9, 6), Number(592, 3, 5, 7)];
  }

  lemma NumbersRows4(g: seq<string>)
    requires |g| == 12 && g[9] == "....$.*....." && g[10] == "..664.598..."
    requires NumbersAbove(g, 9) == [Number(467, 1, 3, 1), Number(114, 6, 8, 1), Number(35, 3, 4, 3), Number(633, 7, 9, 3), Number(617, 1, 3, 5), Number(58, 8, 9, 6), Number(592, 3, 5, 7), Number(755, 7, 9, 8)]
    ensures NumbersAbove(g, 11) == [Number(467, 1, 3, 1), Number(114, 6, 8, 1), Number(35, 3, 4, 3), Number(633, 7, 9, 3), Number(617, 1, 3, 5), Number(58, 8, 9, 6), Number(592, 3, 5, 7), Number(755, 7, 9, 8), Number(664, 2, 4, 10), Number(598, 6, 8, 10)]
  {
    Row9(); Row10();
    assert NumbersAbove(g, 10) == [Number(467, 1, 3, 1), Number(114, 6, 8, 1), Number(35, 3, 4, 3), Number(633, 7, 9, 3), Number(617, 1, 3, 5), Number(58, 8, 9, 6), Number(592, 3, 5, 7), Number(755, 7, 9, 8)];
  }

  lemma SymbolsRows1(g: seq<string>)
    requires |g| == 12 && g[1] == ".467..114..." && g[2] == "....*......." && g[3] == "...35..633.."
    ensures SymbolsAbove(g, 4) == [Symbol('*', 4, 2)]
  {
    Row1(); Row2(); Row3();
    assert SymbolsAbove(g, 2) == [];
    assert SymbolsAbove(g, 3) == [Symbol('*', 4, 2)];
  }

  lemma SymbolsRows2(g: seq<string>)
    requires |g| == 12 && g[4] == ".......#...." && g[5] == ".617*......." && g[6] == "......+.58.."
    requires SymbolsAbove(g, 4) == [Symbol('*', 4, 2)]
    ensures SymbolsAbove(g, 7) == [Symbol('*', 4, 2), Symbol('#', 7, 4), Symbol('*', 4, 5), Symbol('+', 6, 6)]
  {
    Row4(); Row5(); Row6();
    assert SymbolsAbove(g, 5) == [Symbol('*', 4, 2), Symbol('#', 7, 4)];
    assert SymbolsAbove(g, 6) == [Symbol('*', 4, 2), Symbol('#', 7, 4), Symbol('*', 4, 5)];
  }

  lemma SymbolsRows3(g: seq<string>)
    requires |g| == 12 && g[7] == "...592......" && g[8] == ".......755.."
    requires SymbolsAbove(g, 7) == [Symbol('*', 4, 2), Symbol('#', 7, 4), Symbol('*', 4, 5), Symbol('+', 6, 6)]
    ensures SymbolsAbove(g, 9) == [Symbol('*', 4, 2), Symbol('#', 7, 4), Symbol('*', 4, 5), Symbol('+', 6, 6)]
  {
    Row7(); Row8();
    assert SymbolsAbove(g, 8) == [Symbol('*', 4, 2), Symbol('#', 7, 4), Symbol('*', 4, 5), Symbol('+', 6, 6)];
  }

  lemma SymbolsRows4(g: seq<string>)
    requires |g| == 12 && g[9] == "....$.*....." && g[10] == "..664.598..."
    requires SymbolsAbove(g, 9) == [Symbol('*', 4, 2), Symbol('#', 7, 4), Symbol('*', 4, 5), Symbol('+', 6, 6)]
    ensures SymbolsAbove(g, 11) == [Symbol('*', 4, 2), Symbol('#', 7, 4), Symbol('*', 4, 5), Symbol('+', 6, 6), Symbol('$', 4, 9), Symbol('*', 6, 9)]
  {
    Row9(); Row10();
    assert SymbolsAbove(g, 10) == [Symbol('*', 4, 2), Symbol('#', 7, 4), Symbol('*', 4, 5), Symbol('+', 6, 6), Symbol('$', 4, 9), Symbol('*', 6, 9)];
  }

  /** scan_schematic on the example finds ten numbers and six symbols. */
  lemma ExampleScan()
    ensures Numbers(Lines) == ExampleNumbers && Symbols(Lines) == ExampleSymbols
  {
    PaddedRow1(Lines); PaddedRow2(Lines); PaddedRow3(Lines); PaddedRow4(Lines); PaddedRow5(Lines);
    PaddedRow6(Lines); PaddedRow7(Lines); PaddedRow8(Lines); PaddedRow9(Lines); PaddedRow10(Lines);
    var g := Padding.Pad(Lines);
    NumbersRows1(g); NumbersRows2(g); NumbersRows3(g); NumbersRows4(g);
    SymbolsRows1(g); SymbolsRows2(g); SymbolsRows3(g); SymbolsRows4(g);
  }
  // ---------------------------------------------------------------------
  // part_1 and part_2 on the example

  /** Every number of the example but 114 and 58 touches a symbol. */
  lemma ExampleParts()
    ensures HasNeighbour(ExampleNumbers[0], ExampleSymbols) &&
      HasNeighbour(ExampleNumbers[2], ExampleSymbols) &&
      HasNeighbour(ExampleNumbers[3], ExampleSymbols) &&
      HasNeighbour(ExampleNumbers[4], ExampleSymbols) &&
      HasNeighbour(ExampleNumbers[6], ExampleSymbols) &&
      HasNeighbour(ExampleNumbers[7], ExampleSymbols) &&
      HasNeighbour(ExampleNumbers[8], ExampleSymbols) &&
      HasNeighbour(ExampleNumbers[9], ExampleSymbols)
  {
    var ns, ss := ExampleNumbers, ExampleSymbols;
    assert IsAdjacent(ns[0], ss[0]) && ss[0] in ss;
    assert IsAdjacent(ns[2], ss[0]) && ss[0] in ss;
    assert IsAdjacent(ns[3], ss[1]) && ss[1] in ss;
    assert IsAdjacent(ns[4], ss[2]) && ss[2] in ss;
    assert IsAdjacent(ns[6], ss[3]) && ss[3] in ss;
    assert IsAdjacent(ns[7], ss[5]) && ss[5] in ss;
    assert IsAdjacent(ns[8], ss[4]) && ss[4] in ss;
    assert IsAdjacent(ns[9], ss[5]) && ss[5] in ss;
  }

  /** 114 touches no symbol. */
  lemma ExampleNotPart114()
    ensures !HasNeighbour(ExampleNumbers[1], ExampleSymbols)
  {
    var n := ExampleNumbers[1];
    assert n == Number(114, 6, 8, 1);
    forall s | s in ExampleSymbols
      ensures !IsAdjacent(n, s)
    {
    }
  }

  /** 58 touches no symbol. */
  lemma ExampleNotPart58()
    ensures !HasNeighbour(ExampleNumbers[5], ExampleSymbols)
  {
    var n := ExampleNumbers[5];
    assert n == Number(58, 8, 9, 6);
    forall s | s in ExampleSymbols
      ensures !IsAdjacent(n, s)
    {
    }
  }

  /** Ten numbers with the example's values, of which all but the second and
      the sixth touch a symbol, add up to 4361. */
  lemma PartSumOfTen(ns: seq<Number>, ss: seq<Symbol>)
    requires |ns| == 10
    requires ns[0].value == 467 && ns[1].value == 114 && ns[2].value == 35 && ns[3].value == 633 && ns[4].value == 617
    requires ns[5].value == 58 && ns[6].value == 592 && ns[7].value == 755 && ns[8].value == 664 && ns[9].value == 598
    requires HasNeighbour(ns[0], ss) && !HasNeighbour(ns[1], ss) && HasNeighbour(ns[2], ss)
    requires HasNeighbour(ns[3], ss) && HasNeighbour(ns[4], ss) && !HasNeighbour(ns[5], ss)
    requires HasNeighbour(ns[6], ss) && HasNeighbour(ns[7], ss) && HasNeighbour(ns[8], ss)
    requires HasNeighbour(ns[9], ss)
    ensures PartSum(ns, ss) == 4361
  {
    assert ns[..0] == [];
    PartSumSnoc(ns, ss, 0);
    assert PartSum(ns[..1], ss) == 467;
    PartSumSnoc(ns, ss, 1);
    assert PartSum(ns[..2], ss) == 467;
    PartSumSnoc(ns, ss, 2);
    assert PartSum(ns[..3], ss) == 502;
    PartSumSnoc(ns, ss, 3);
    assert PartSum(ns[..4], ss) == 1135;
    PartSumSnoc(ns, ss, 4);
    assert PartSum(ns[..5], ss) == 1752;
    PartSumSnoc(ns, ss, 5);
    assert PartSum(ns[..6], ss) == 1752;
    PartSumSnoc(ns, ss, 6);
    assert PartSum(ns[..7], ss) == 2344;
    PartSumSnoc(ns, ss, 7);
    assert PartSum(ns[..8], ss) == 3099;
    PartSumSnoc(ns, ss, 8);
    assert PartSum(ns[..9], ss) == 3763;
    PartSumSnoc(ns, ss, 9);
    assert PartSum(ns[..10], ss) == 4361;
    assert ns[..10] == ns;
  }

  /** The part numbers of the example add up to 4361. */
  lemma ExamplePartSum()
    ensures PartSum(ExampleNumbers, ExampleSymbols) == 4361
  {
    ExampleParts();
    ExampleNotPart114(); ExampleNotPart58();
    PartSumOfTen(ExampleNumbers, ExampleSymbols);
  }

  /** part_1 on the example. */
  lemma Part1Example()
    ensures PartSum(Numbers(Lines), Symbols(Lines)) == 4361
  {
    ExampleScan();
    ExamplePartSum();
  }

  /** The three '*' of the example. */
  lemma ExampleStars()
    ensures Stars(ExampleSymbols) == [Symbol('*', 4, 2), Symbol('*', 4, 5), Symbol('*', 6, 9)]
  {
    var ss := ExampleSymbols;
    assert ss[..1][..0] == ss[..0];
    assert Stars(ss[..1]) == [Symbol('*', 4, 2)];
    assert ss[..2][..1] == ss[..1];
    assert Stars(ss[..2]) == [Symbol('*', 4, 2)];
    assert ss[..3][..2] == ss[..2];
    assert Stars(ss[..3]) == [Symbol('*', 4, 2), Symbol('*', 4, 5)];
    assert ss[..4][..3] == ss[..3];
    assert Stars(ss[..4]) == [Symbol('*', 4, 2), Symbol('*', 4, 5)];
    assert ss[..5][..4] == ss[..4];
    assert Stars(ss[..5]) == [Symbol('*', 4, 2), Symbol('*', 4, 5)];
    assert ss[..6][..5] == ss[..5];
    assert Stars(ss[..6]) == [Symbol('*', 4, 2), Symbol('*', 4, 5), Symbol('*', 6, 9)];
    assert ss[..6] == ss;
  }

  lemma Star1()
    ensures AdjCount(ExampleNumbers, Symbol('*', 4, 2)) == 2
    ensures AdjProduct(ExampleNumbers, Symbol('*', 4, 2)) == 16345
  {
    var ns, star := ExampleNumbers, Symbol('*', 4, 2);
    assert ns[..1][..0] == ns[..0];
    assert AdjCount(ns[..1], star) == 1 && AdjProduct(ns[..1], star) == 467;
    assert ns[..2][..1] == ns[..1];
    assert AdjCount(ns[..2], star) == 1 && AdjProduct(ns[..2], star) == 467;
    assert ns[..3][..2] == ns[..2];
    assert AdjCount(ns[..3], star) == 2 && AdjProduct(ns[..3], star) == 16345;
    assert ns[..4][..3] == ns[..3];
    assert AdjCount(ns[..4], star) == 2 && AdjProduct(ns[..4], star) == 16345;
    assert ns[..5][..4] == ns[..4];
    assert AdjCount(ns[..5], star) == 2 && AdjProduct(ns[..5], star) == 16345;
    assert ns[..6][..5] == ns[..5];
    assert AdjCount(ns[..6], star) == 2 && AdjProduct(ns[..6], star) == 16345;
    assert ns[..7][..6] == ns[..6];
    assert AdjCount(ns[..7], star) == 2 && AdjProduct(ns[..7], star) == 16345;
    assert ns[..8][..7] == ns[..7];
    assert AdjCount(ns[..8], star) == 2 && AdjProduct(ns[..8], star) == 16345;
    assert ns[..9][..8] == ns[..8];
    assert AdjCount(ns[..9], star) == 2 && AdjProduct(ns[..9], star) == 16345;
    assert ns[..10][..9] == ns[..9];
    assert AdjCount(ns[..10], star) == 2 && AdjProduct(ns[..10], star) == 16345;
    assert ns[..10] == ns;
  }

  lemma Star2()
    ensures AdjCount(ExampleNumbers, Symbol('*', 4, 5)) == 1
    ensures AdjProduct(ExampleNumbers, Symbol('*', 4, 5)) == 617
  {
    var ns, star := ExampleNumbers, Symbol('*', 4, 5);
    assert ns[..1][..0] == ns[..0];
    assert AdjCount(ns[..1], star) == 0 && AdjProduct(ns[..1], star) == 1;
    assert ns[..2][..1] == ns[..1];
    assert AdjCount(ns[..2], star) == 0 && AdjProduct(ns[..2], star) == 1;
    assert ns[..3][..2] == ns[..2];
    assert AdjCount(ns[..3], star) == 0 && AdjProduct(ns[..3], star) == 1;
    assert ns[..4][..3] == ns[..3];
    assert AdjCount(ns[..4], star) == 0 && AdjProduct(ns[..4], star) == 1;
    assert ns[..5][..4] == ns[..4];
    assert AdjCount(ns[..5], star) == 1 && AdjProduct(ns[..5], star) == 617;
    assert ns[..6][..5] == ns[..5];
    assert AdjCount(ns[..6], star) == 1 && AdjProduct(ns[..6], star) == 617;
    assert ns[..7][..6] == ns[..6];
    assert AdjCount(ns[..7], star) == 1 && AdjProduct(ns[..7], star) == 617;
    assert ns[..8][..7] == ns[..7];
    assert AdjCount(ns[..8], star) == 1 && AdjProduct(ns[..8], star) == 617;
    assert ns[..9][..8] == ns[..8];
    assert AdjCount(ns[..9], star) == 1 && AdjProduct(ns[..9], star) == 617;
    assert ns[..10][..9] == ns[..9];
    assert AdjCount(ns[..10], star) == 1 && AdjProduct(ns[..10], star) == 617;
    assert ns[..10] == ns;
  }

  lemma Star3()
    ensures AdjCount(ExampleNumbers, Symbol('*', 6, 9)) == 2
    ensures AdjProduct(ExampleNumbers, Symbol('*', 6, 9)) == 451490
  {
    var ns, star := ExampleNumbers, Symbol('*', 6, 9);
    assert ns[..1][..0] == ns[..0];
    assert AdjCount(ns[..1], star) == 0 && AdjProduct(ns[..1], star) == 1;
    assert ns[..2][..1] == ns[..1];
    assert AdjCount(ns[..2], star) == 0 && AdjProduct(ns[..2], star) == 1;
    assert ns[..3][..2] == ns[..2];
    assert AdjCount(ns[..3], star) == 0 && AdjProduct(ns[..3], star) == 1;
    assert ns[..4][..3] == ns[..3];
    assert AdjCount(ns[..4], star) == 0 && AdjProduct(ns[..4], star) == 1;
    assert ns[..5][..4] == ns[..4];
    assert AdjCount(ns[..5], star) == 0 && AdjProduct(ns[..5], star) == 1;
    assert ns[..6][..5] == ns[..5];
    assert AdjCount(ns[..6], star) == 0 && AdjProduct(ns[..6], star) == 1;
    assert ns[..7][..6] == ns[..6];
    assert AdjCount(ns[..7], star) == 0 && AdjProduct(ns[..7], star) == 1;
    assert ns[..8][..7] == ns[..7];
    assert AdjCount(ns[..8], star) == 1 && AdjProduct(ns[..8], star) == 755;
    assert ns[..9][..8] == ns[..8];
    assert AdjCount(ns[..9], star) == 1 && AdjProduct(ns[..9], star) == 755;
    assert ns[..10][..9] == ns[..9];
    assert AdjCount(ns[..10], star) == 2 && AdjProduct(ns[..10], star) == 451490;
    assert ns[..10] == ns;
  }

  /** The two gears of the example have ratios 16345 and 451490; the '*'
      next to 617 alone is no gear. */
  lemma ExampleGearSum()
    ensures GearSum(ExampleNumbers, [Symbol('*', 4, 2), Symbol('*', 4, 5), Symbol('*', 6, 9)]) == 467835
  {
    Star1(); Star2(); Star3();
    var ns, stars := ExampleNumbers, [Symbol('*', 4, 2), Symbol('*', 4, 5), Symbol('*', 6, 9)];
    assert stars[..1][..0] == [] && stars[..2][..1] == stars[..1] && stars[..3][..2] == stars[..2];
    assert GearSum(ns, stars[..1]) == 16345;
    assert GearSum(ns, stars[..2]) == 16345;
    assert stars[..3] == stars;
  }

  /** part_2 on the example. */
  lemma Part2Example()
    ensures GearSum(Numbers(Lines), Stars(Symbols(Lines))) == 467835
  {
    ExampleScan();
    ExampleStars();
    ExampleGearSum();
  }
}
