/**
 * The cosmic expansion of 11.py. Every row of the image without a galaxy
 * ('#') is doubled; the image is transposed and its rows, the former columns,
 * are doubled the same way; the galaxies are collected in row-major order and
 * the Manhattan distances of all unordered pairs are added up. The image is
 * left transposed, so a galaxy's row is its expanded column and the other way
 * round.
 */
module Cosmic {

  datatype Galaxy = Galaxy(row: int, col: int)

  // ---------------------------------------------------------------------
  // Distance

  function Abs(n: int): nat {
    if n < 0 then -n else n
  }

  /** Galaxy.distance: the Manhattan distance, 0 exactly between equal
      positions. */
  function Distance(a: Galaxy, b: Galaxy): (d: nat)
    ensures d == 0 <==> a == b
  {
    Abs(a.row - b.row) + Abs(a.col - b.col)
  }

  /** With Distance's own contract, the distance is a metric: symmetric, and
      never longer than a detour through a third galaxy. */
  lemma DistanceMetric(a: Galaxy, b: Galaxy, c: Galaxy)
    ensures Distance(a, b) == Distance(b, a)
    ensures Distance(a, c) <= Distance(a, b) + Distance(b, c)
  {
  }

  /** The galaxy with its row and column exchanged, as the transpose places it. */
  function Swap(g: Galaxy): Galaxy {
    Galaxy(g.col, g.row)
  }

  /** Exchanging rows and columns keeps every distance. */
  lemma DistanceSwap(a: Galaxy, b: Galaxy)
    ensures Distance(Swap(a), Swap(b)) == Distance(a, b)
  {
  }

  // ---------------------------------------------------------------------
  // expand_vertical

  /** The line holds a galaxy. */
  predicate HasGalaxy(line: string) {
    '#' in line
  }

  /** expand_vertical: every line in order, a line without a galaxy twice.
      No line is lost or invented, and the image at most doubles. */
  function Expanded(lines: seq<string>): (e: seq<string>)
    ensures |lines| <= |e| <= 2 * |lines|
    ensures forall line :: line in e <==> line in lines
  {
    if lines == [] then []
    else
      var line := lines[|lines| - 1];
      Expanded(lines[..|lines| - 1]) + (if HasGalaxy(line) then [line] else [line, line])
  }

  /** The number of lines without a galaxy. */
  function Empty(lines: seq<string>): nat {
    if lines == [] then 0
    else Empty(lines[..|lines| - 1]) + (if HasGalaxy(lines[|lines| - 1]) then 0 else 1)
  }

  /** The expansion is longer by the number of lines without a galaxy. */
  lemma {:induction false} ExpandedLength(lines: seq<string>)
    ensures |Expanded(lines)| == |lines| + Empty(lines)
  {
    if lines != [] {
      ExpandedLength(lines[..|lines| - 1]);
    }
  }

  /** Line i of the input reappears unchanged, shifted down by the number of
      lines without a galaxy above it, and once more right after itself when
      it holds no galaxy. With ExpandedLength, this fixes every line of the
      expansion. */
  lemma {:induction false} ExpandedAt(lines: seq<string>, i: nat)
    requires i < |lines|
    ensures var e, p := Expanded(lines), i + Empty(lines[..i]);
      p < |e| && e[p] == lines[i] && (!HasGalaxy(lines[i]) ==> p + 1 < |e| && e[p + 1] == lines[i])
    decreases |lines|
  {
    var init := lines[..|lines| - 1];
    ExpandedLength(init);
    if i < |lines| - 1 {
      ExpandedAt(init, i);
      assert init[..i] == lines[..i];
    } else {
      assert init == lines[..i];
    }
  }

  /** The lines that hold a galaxy, in order. */
  function WithGalaxy(lines: seq<string>): seq<string> {
    if lines == [] then []
    else
      var line := lines[|lines| - 1];
      WithGalaxy(lines[..|lines| - 1]) + (if HasGalaxy(line) then [line] else [])
  }

  /** The expansion alters no line, and the lines that hold a galaxy stay the
      same and in the same order. */
  lemma {:induction false} ExpandedKeeps(lines: seq<string>)
    ensures forall line :: line in Expanded(lines) ==> line in lines
    ensures WithGalaxy(Expanded(lines)) == WithGalaxy(lines)
  {
    if lines != [] {
      var init, line := lines[..|lines| - 1], lines[|lines| - 1];
      ExpandedKeeps(init);
      var added := if HasGalaxy(line) then [line] else [line, line];
      WithGalaxyAppend(Expanded(init), added);
      if !HasGalaxy(line) {
        assert WithGalaxy([line, line]) == WithGalaxy([line]) == [];
      } else {
        assert WithGalaxy([line]) == [line];
      }
    }
  }

  lemma {:induction false} WithGalaxyAppend(a: seq<string>, b: seq<string>)
    ensures WithGalaxy(a + b) == WithGalaxy(a) + WithGalaxy(b)
    decreases |b|
  {
    if b != [] {
      var init := b[..|b| - 1];
      WithGalaxyAppend(a, init);
      assert (a + b)[..|a + b| - 1] == a + init;
    } else {
      assert a + b == a;
    }
  }

  /** expand_vertical, as the loop that appends to `expanded`. */
  method ExpandVertical(lines: seq<string>) returns (expanded: seq<string>)
    ensures expanded == Expanded(lines)
  {
    expanded := [];
    for i := 0 to |lines|
      invariant expanded == Expanded(lines[..i])
    {
      assert lines[..i + 1][..i] == lines[..i];
      expanded := expanded + [lines[i]];
      if '#' !in lines[i] {
        expanded := expanded + [lines[i]];
      }
    }
    assert lines[..|lines|] == lines;
  }

  // ---------------------------------------------------------------------
  // transpose

  /** The length of the shortest line: zip stops there. No lines, no columns. */
  function MinLen(lines: seq<string>): nat {
    if lines == [] then 0
    else if |lines| == 1 then |lines[0]|
    else
      var rest := MinLen(lines[1..]);
      if |lines[0]| < rest then |lines[0]| else rest
  }

  lemma {:induction false} MinLenSpec(lines: seq<string>)
    ensures forall j :: 0 <= j < |lines| ==> MinLen(lines) <= |lines[j]|
    ensures lines != [] ==> exists j :: 0 <= j < |lines| && |lines[j]| == MinLen(lines)
  {
    if |lines| > 1 {
      MinLenSpec(lines[1..]);
      forall j | 1 <= j < |lines|
        ensures MinLen(lines) <= |lines[j]|
      {
        assert lines[j] == lines[1..][j - 1];
      }
      if MinLen(lines) != |lines[0]| {
        var j :| 0 <= j < |lines[1..]| && |lines[1..][j]| == MinLen(lines[1..]);
        assert |lines[j + 1]| == MinLen(lines);
      }
    }
  }

  /** transpose: column i of the lines becomes row i, as far as every line
      reaches. */
  function Transpose(lines: seq<string>): (t: seq<string>)
    ensures |t| == MinLen(lines)
    ensures forall i :: 0 <= i < |t| ==> |t[i]| == |lines|
    ensures forall i, j :: 0 <= i < |t| && 0 <= j < |lines| ==> i < |lines[j]| && t[i][j] == lines[j][i]
  {
    MinLenSpec(lines);
    seq(MinLen(lines), i requires 0 <= i < MinLen(lines) =>
      seq(|lines|, j requires 0 <= j < |lines| => lines[j][i]))
  }

  /** All lines have width w. */
  predicate Rectangular(lines: seq<string>, w: nat) {
    forall j :: 0 <= j < |lines| ==> |lines[j]| == w
  }

  /** In particular an h by w image becomes w by h, with the cell of line j
      and column i at line i and column j. */
  lemma TransposeCells(lines: seq<string>, w: nat)
    requires lines != [] && Rectangular(lines, w)
    ensures var t := Transpose(lines);
      Rectangular(t, |lines|) && |t| == w &&
      forall i, j :: 0 <= i < w && 0 <= j < |lines| ==> t[i][j] == lines[j][i]
  {
    MinLenSpec(lines);
  }

  /** Transposing twice gives the image back, when it has at least one column. */
  lemma TransposeTwice(lines: seq<string>, w: nat)
    requires w > 0 && Rectangular(lines, w)
    ensures Transpose(Transpose(lines)) == lines
  {
    if lines != [] {
      TransposeCells(lines, w);
      var t := Transpose(lines);
      TransposeCells(t, |lines|);
      var tt := Transpose(t);
      assert |tt| == |lines|;
      forall j | 0 <= j < |lines|
        ensures tt[j] == lines[j]
      {
        assert |tt[j]| == |lines[j]|;
      }
    } else {
      MinLenSpec(lines);
    }
  }

  // ---------------------------------------------------------------------
  // Finding the galaxies

  /** The galaxies of line r among its first c columns, left to right. */
  function RowGalaxies(line: string, r: int, c: nat): seq<Galaxy>
    requires c <= |line|
  {
    if c == 0 then []
    else RowGalaxies(line, r, c - 1) + (if line[c - 1] == '#' then [Galaxy(r, c - 1)] else [])
  }

  /** The galaxies of all lines, in row-major order. */
  function Galaxies(lines: seq<string>): seq<Galaxy> {
    if lines == [] then []
    else
      var r := |lines| - 1;
      Galaxies(lines[..r]) + RowGalaxies(lines[r], r, |lines[r]|)
  }

  /** Galaxy a is found before galaxy b: an earlier row, or the same row and
      an earlier column. */
  predicate RowMajor(a: Galaxy, b: Galaxy) {
    a.row < b.row || (a.row == b.row && a.col < b.col)
  }

  lemma {:induction false} RowGalaxiesSpec(line: string, r: int, c: nat)
    requires c <= |line|
    ensures var gs := RowGalaxies(line, r, c);
      (forall g :: g in gs <==> g.row == r && 0 <= g.col < c && line[g.col] == '#') &&
      (forall i, j :: 0 <= i < j < |gs| ==> gs[i].row == r && gs[i].col < gs[j].col)
  {
    if c > 0 {
      RowGalaxiesSpec(line, r, c - 1);
    }
  }

  /** The galaxies are exactly the '#' cells, each once, in row-major order. */
  lemma {:induction false} GalaxiesSpec(lines: seq<string>)
    ensures var gs := Galaxies(lines);
      (forall g :: g in gs <==>
        0 <= g.row < |lines| && 0 <= g.col < |lines[g.row]| && lines[g.row][g.col] == '#') &&
      (forall i, j :: 0 <= i < j < |gs| ==> RowMajor(gs[i], gs[j]))
  {
    if lines != [] {
      var r := |lines| - 1;
      var init := lines[..r];
      GalaxiesSpec(init);
      RowGalaxiesSpec(lines[r], r, |lines[r]|);
      var above, row := Galaxies(init), RowGalaxies(lines[r], r, |lines[r]|);
      var gs := above + row;
      forall i, j | 0 <= i < j < |gs|
        ensures RowMajor(gs[i], gs[j])
      {
        if j < |above| {
          assert gs[i] == above[i] && gs[j] == above[j];
        } else if i < |above| {
          assert gs[i] in above && gs[j] in row;
        } else {
          assert gs[i] == row[i - |above|] && gs[j] == row[j - |above|];
        }
      }
    }
  }

  /** The loop of part_1 that appends every '#' it meets. */
  method CollectGalaxies(lines: seq<string>) returns (galaxies: seq<Galaxy>)
    ensures galaxies == Galaxies(lines)
  {
    galaxies := [];
    for row := 0 to |lines|
      invariant galaxies == Galaxies(lines[..row])
    {
      var line := lines[row];
      for col := 0 to |line|
        invariant galaxies == Galaxies(lines[..row]) + RowGalaxies(line, row, col)
      {
        if line[col] == '#' {
          galaxies := galaxies + [Galaxy(row, col)];
        }
      }
      assert lines[..row + 1][..row] == lines[..row];
    }
    assert lines[..|lines|] == lines;
  }

  // ---------------------------------------------------------------------
  // Summing the distances

  /** The distances from g to each of others. */
  function DistSum(g: Galaxy, others: seq<Galaxy>): nat {
    if others == [] then 0 else Distance(g, others[0]) + DistSum(g, others[1..])
  }

  /** The distances of all pairs i < j: each galaxy with every later one. */
  function PairSum(gs: seq<Galaxy>): nat {
    if gs == [] then 0 else DistSum(gs[0], gs[1..]) + PairSum(gs[1..])
  }

  /** The distances of every ordered pair, a galaxy with itself included: the
      plain double sum. */
  function AllPairs(gs: seq<Galaxy>, others: seq<Galaxy>): nat {
    if gs == [] then 0 else DistSum(gs[0], others) + AllPairs(gs[1..], others)
  }

  /** Adding g in front of others adds the distances from every galaxy of gs
      to g. */
  lemma {:induction false} AllPairsCons(gs: seq<Galaxy>, g: Galaxy, others: seq<Galaxy>)
    ensures AllPairs(gs, [g] + others) == DistSum(g, gs) + AllPairs(gs, others)
  {
    if gs != [] {
      AllPairsCons(gs[1..], g, others);
      assert ([g] + others)[1..] == others;
      DistanceMetric(gs[0], g, g);
    }
  }

  /** Every unordered pair is counted once: the pair sum is half the double
      sum over all ordered pairs. */
  lemma {:induction false} PairSumHalf(gs: seq<Galaxy>)
    ensures 2 * PairSum(gs) == AllPairs(gs, gs)
  {
    if gs != [] {
      var g, t := gs[0], gs[1..];
      PairSumHalf(t);
      assert gs == [g] + t;
      AllPairsCons(t, g, t);
      assert AllPairs(gs, gs) == DistSum(g, gs) + AllPairs(t, gs);
      assert DistSum(g, gs) == DistSum(g, t);
    }
  }

  /** Every galaxy with row and column exchanged. */
  function SwapAll(gs: seq<Galaxy>): (r: seq<Galaxy>)
    ensures |r| == |gs|
  {
    if gs == [] then [] else [Swap(gs[0])] + SwapAll(gs[1..])
  }

  lemma {:induction false} DistSumSwap(g: Galaxy, others: seq<Galaxy>)
    ensures DistSum(Swap(g), SwapAll(others)) == DistSum(g, others)
  {
    if others != [] {
      DistSumSwap(g, others[1..]);
      DistanceSwap(g, others[0]);
    }
  }

  /** Leaving the image transposed changes no distance and so not the sum. */
  lemma {:induction false} PairSumSwap(gs: seq<Galaxy>)
    ensures PairSum(SwapAll(gs)) == PairSum(gs)
  {
    if gs != [] {
      PairSumSwap(gs[1..]);
      DistSumSwap(gs[0], gs[1..]);
      assert SwapAll(gs)[1..] == SwapAll(gs[1..]);
    }
  }

  /** The nested loops of part_1: every galaxy but the last, with each galaxy
      after it. */
  method SumDistances(galaxies: seq<Galaxy>) returns (total: nat)
    ensures total == PairSum(galaxies)
  {
    total := 0;
    var n := |galaxies|;
    for idx := 0 to if n == 0 then 0 else n - 1
      invariant total + PairSum(galaxies[idx..]) == PairSum(galaxies)
    {
      assert galaxies[idx..][1..] == galaxies[idx + 1..];
      for k := idx + 1 to n
        invariant total + DistSum(galaxies[idx], galaxies[k..]) + PairSum(galaxies[idx + 1..]) == PairSum(galaxies)
      {
        assert galaxies[k..][1..] == galaxies[k + 1..];
        total := total + Distance(galaxies[idx], galaxies[k]);
      }
    }
    if n > 0 {
      assert galaxies[n - 1..][1..] == [];
    }
  }

  // ---------------------------------------------------------------------
  // part_1

  /** What part_1 computes: expand the rows, transpose, expand the former
      columns, and add the distances of all pairs of galaxies. */
  function Answer(lines: seq<string>): nat {
    PairSum(Galaxies(Expanded(Transpose(Expanded(lines)))))
  }

  method Part1(lines: seq<string>) returns (total: nat)
    ensures total == Answer(lines)
  {
    var expanded := ExpandVertical(lines);
    var transposed := Transpose(expanded);
    var again := ExpandVertical(transposed);
    var galaxies := CollectGalaxies(again);
    total := SumDistances(galaxies);
  }
}
