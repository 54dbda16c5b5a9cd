/**
 * The two loops of 10.py worked through part_1: the square loop, whose
 * farthest tile is 4 steps from the start, and the more complex loop, whose
 * farthest tile is 8 steps away.
 */
module PipeMazeExample {
  import opened Wrappers
  import opened Padding
  import opened PipeMaze

  /** A line of 5 characters, none of them whitespace. */
  predicate Plain(line: string) {
    |line| == 5 && forall c :: 0 <= c < 5 ==> !IsSpace(line[c])
  }

  /** Padding a 5-by-5 sketch without whitespace: a row of 7 '.' above and
      below, and each line wrapped in '.'. */
  lemma PadFive(lines: seq<string>)
    requires |lines| == 5 && Plain(lines[0]) && Plain(lines[1]) && Plain(lines[2])
    requires Plain(lines[3]) && Plain(lines[4])
    ensures SameWidth(lines)
    ensures |Pad(lines)| == 7 && Pad(lines)[0] == "......." && Pad(lines)[6] == "......."
    ensures Pad(lines)[1] == "." + lines[0] + "." && Pad(lines)[2] == "." + lines[1] + "."
    ensures Pad(lines)[3] == "." + lines[2] + "." && Pad(lines)[4] == "." + lines[3] + "."
    ensures Pad(lines)[5] == "." + lines[4] + "."
  {
    PaddedLine(lines, 0);
    PaddedLine(lines, 1);
    PaddedLine(lines, 2);
    PaddedLine(lines, 3);
    PaddedLine(lines, 4);
    forall i | 0 <= i < |lines|
      ensures |Strip(lines[i])| == 5
    {
      if i == 0 { PaddedLine(lines, 0); }
      else if i == 1 { PaddedLine(lines, 1); }
      else if i == 2 { PaddedLine(lines, 2); }
      else if i == 3 { PaddedLine(lines, 3); }
      else { PaddedLine(lines, 4); }
    }
    assert Pad(lines)[0] == "......." by {
      assert Pad(lines)[0] == Dots(7);
      SevenDots();
    }
  }

  lemma SevenDots()
    ensures Dots(7) == "......."
  {
    var d := Dots(7);
    assert |d| == 7 && d[0] == '.' && d[1] == '.' && d[2] == '.' && d[3] == '.';
    assert d[4] == '.' && d[5] == '.' && d[6] == '.';
  }

  /** Line k of a sketch without whitespace is padded to itself wrapped in
      '.'. */
  lemma PaddedLine(lines: seq<string>, k: nat)
    requires k < |lines| && Plain(lines[k])
    ensures |Strip(lines[k])| == 5 && Pad(lines)[k + 1] == "." + lines[k] + "."
  {
    StripNoSpace(lines[k]);
  }

  /** A line of 5 wrapped in '.' on either side, character by character. */
  lemma Wrap(line: string, row: string)
    requires |line| == 5 && |row| == 7 && row[0] == '.' && row[6] == '.'
    requires row[1] == line[0] && row[2] == line[1] && row[3] == line[2]
    requires row[4] == line[3] && row[5] == line[4]
    ensures "." + line + "." == row
  {
  }

  /** The padded sketches are 7 by 7. */
  predicate Dims(g: seq<string>) {
    |g| == 7 && |g[0]| == 7 && |g[1]| == 7 && |g[2]| == 7 && |g[3]| == 7 &&
    |g[4]| == 7 && |g[5]| == 7 && |g[6]| == 7
  }

  /** Every neighbour of a position away from the border is in the grid. */
  lemma Inside(g: seq<string>, s: Coord)
    requires Dims(g) && 1 <= s.row <= 5 && 1 <= s.col <= 5
    ensures forall a :: Near(a, s) ==> InGrid(g, a)
  {
  }

  /** Arriving at cur from last, a tile other than 'S', the walk goes on to
      next, inside the grid. */
  predicate Moves(g: seq<string>, last: Coord, cur: Coord, next: Coord) {
    InGrid(g, cur) && Tile(g, cur) != 'S' && Next(g, last, cur) == Some(next) && InGrid(g, next)
  }

  /** A walk one step longer: the walk moves from cur to next and the walk
      from next takes n steps. */
  lemma StepBack(g: seq<string>, last: Coord, cur: Coord, next: Coord, fuel: nat, n: nat)
    requires Moves(g, last, cur, next) && Walk(g, cur, next, fuel) == Some(n)
    ensures Walk(g, last, cur, fuel + 1) == Some(n + 1)
  {
  }

  /** The answer of part_1 once the start s, the first neighbour k that
      leads back to it and the length n of the walk from there are known. */
  lemma AnswerFrom(lines: seq<string>, fuel: nat, s: Coord, k: nat, n: nat, m: nat)
    requires |lines| > 0 && SameWidth(lines) && k < 8 && n + 1 == 2 * m
    requires var g := Pad(lines);
      FindStart(g) == Some(s) && (forall a :: Near(a, s) ==> InGrid(g, a)) &&
      FirstClaimant(g, s, 0) == Some(k) && Walk(g, s, Adjacent(s)[k], fuel) == Some(n)
    ensures LoopCloses(lines, fuel) && MaxDistance(lines, fuel) == Ok(m)
  {
    PadFramed(lines);
    var g := Pad(lines);
    FromStartOk(g, fuel, s, k, n, m);
    assert Closes(g, fuel);
  }

  /** FromStart, once the first neighbour k and the walk length n are known. */
  lemma FromStartOk(g: seq<string>, fuel: nat, s: Coord, k: nat, n: nat, m: nat)
    requires k < 8 && (forall a :: Near(a, s) ==> InGrid(g, a)) && n + 1 == 2 * m
    requires FirstClaimant(g, s, 0) == Some(k) && Walk(g, s, Adjacent(s)[k], fuel) == Some(n)
    ensures ClosesFrom(g, s, fuel) && FromStart(g, s, fuel) == Ok(m)
  {
    assert (n + 1) / 2 == m;
  }

  /** Three moves back: the walk from a takes m steps, three more than the
      walk from d. */
  lemma ThreeBack(g: seq<string>, a: Coord, b: Coord, c: Coord, d: Coord, e: Coord, n: nat, m: nat)
    requires Moves(g, a, b, c) && Moves(g, b, c, d) && Moves(g, c, d, e)
    requires Walk(g, d, e, n) == Some(n) && m == n + 3
    ensures Walk(g, a, b, m) == Some(m)
  {
    StepBack(g, c, d, e, n, n);
    StepBack(g, b, c, d, n + 1, n + 1);
    StepBack(g, a, b, c, n + 2, n + 2);
  }

  // ---------------------------------------------------------------------
  // The square loop

  const Square: seq<string> := [
    ".....",
    ".S-7.",
    ".|.|.",
    ".L-J.",
    "....."
  ]

  /** The padded square sketch. */
  predicate SquareGrid(g: seq<string>) {
    |g| == 7 &&
    g[0] == "......." &&
    g[1] == "......." &&
    g[2] == "..S-7.." &&
    g[3] == "..|.|.." &&
    g[4] == "..L-J.." &&
    g[5] == "......." &&
    g[6] == "......."
  }

  /** Padding the lines of the sketch gives the padded sketch. */
  lemma SquareRows(lines: seq<string>)
    requires |lines| == 5 &&
      lines[0] == "....." &&
      lines[1] == ".S-7." &&
      lines[2] == ".|.|." &&
      lines[3] == ".L-J." &&
      lines[4] == "....."
    ensures SameWidth(lines) && SquareGrid(Pad(lines))
  {
    assert Plain(lines[0]) && Plain(lines[1]) && Plain(lines[2]) && Plain(lines[3]) && Plain(lines[4]);
    PadFive(lines);
    Wrap(lines[0], ".......");
    Wrap(lines[1], "..S-7..");
    Wrap(lines[2], "..|.|..");
    Wrap(lines[3], "..L-J..");
    Wrap(lines[4], ".......");
  }

  lemma SquarePadded()
    ensures SameWidth(Square) && SquareGrid(Pad(Square))
  {
    SquareRows(Square);
  }

  /** The only 'S' of the padded sketch is at row 2, column 2. */
  lemma SquareStart(g: seq<string>)
    requires SquareGrid(g)
    ensures Framed(g) && FindStart(g) == Some(Coord(2, 2))
  {
    StartFound(g);
    assert Tile(g, Coord(2, 2)) == 'S';
    var s := FindStart(g).value;
    assert s.row == 2;
    assert s.col == 2;
  }

  /** Of the neighbours of the start, the one at position 4 of
      get_adjacent's order is the first to lead back to it. */
  lemma SquareClaimant(g: seq<string>)
    requires SquareTiles(g)
    ensures forall a :: Near(a, Coord(2, 2)) ==> InGrid(g, a)
    ensures FirstClaimant(g, Coord(2, 2), 0) == Some(4)
    ensures Adjacent(Coord(2, 2))[4] == Coord(2, 3)
  {
    Inside(g, Coord(2, 2));
    assert FirstClaimant(g, Coord(2, 2), 4) == Some(4);
    assert FirstClaimant(g, Coord(2, 2), 3) == Some(4);
    assert FirstClaimant(g, Coord(2, 2), 2) == Some(4);
    assert FirstClaimant(g, Coord(2, 2), 1) == Some(4);
    assert FirstClaimant(g, Coord(2, 2), 0) == Some(4);
  }

  /** The tiles of the square loop, from the 'S' round to the tile before it,
      and the neighbours of the 'S' looked at before the loop is found. */
  predicate SquareTiles(g: seq<string>) {
    Dims(g) &&
    g[2][2] == 'S' && g[2][3] == '-' && g[2][4] == '7' && g[3][4] == '|' &&
    g[4][4] == 'J' && g[4][3] == '-' && g[4][2] == 'L' && g[3][2] == '|' &&
    g[1][1] == '.' && g[1][2] == '.' && g[1][3] == '.' && g[2][1] == '.'
  }

  lemma SquareHasTiles(g: seq<string>)
    requires SquareGrid(g)
    ensures SquareTiles(g)
  {
  }

  /** From the first neighbour the walk is back on the 'S' after 7 steps. */
  lemma SquareWalk(g: seq<string>)
    requires SquareTiles(g)
    ensures Walk(g, Coord(2, 2), Coord(2, 3), 7) == Some(7)
  {
    SquareMove1(g);
    SquareMove2(g);
    SquareMove3(g);
    SquareMove4(g);
    SquareMove5(g);
    SquareMove6(g);
    SquareMove7(g);
    assert Walk(g, Coord(3, 2), Coord(2, 2), 0) == Some(0);
    ThreeBack(g, Coord(4, 4), Coord(4, 3), Coord(4, 2), Coord(3, 2), Coord(2, 2), 0, 3);
    ThreeBack(g, Coord(2, 3), Coord(2, 4), Coord(3, 4), Coord(4, 4), Coord(4, 3), 3, 6);
    StepBack(g, Coord(2, 2), Coord(2, 3), Coord(2, 4), 6, 6);
  }

  // Each move of the walk, from the tile alone.

  lemma SquareMove1(g: seq<string>)
    requires Dims(g) && g[2][3] == '-'
    ensures Moves(g, Coord(2, 2), Coord(2, 3), Coord(2, 4))
  {
  }

  lemma SquareMove2(g: seq<string>)
    requires Dims(g) && g[2][4] == '7'
    ensures Moves(g, Coord(2, 3), Coord(2, 4), Coord(3, 4))
  {
  }

  lemma SquareMove3(g: seq<string>)
    requires Dims(g) && g[3][4] == '|'
    ensures Moves(g, Coord(2, 4), Coord(3, 4), Coord(4, 4))
  {
  }

  lemma SquareMove4(g: seq<string>)
    requires Dims(g) && g[4][4] == 'J'
    ensures Moves(g, Coord(3, 4), Coord(4, 4), Coord(4, 3))
  {
  }

  lemma SquareMove5(g: seq<string>)
    requires Dims(g) && g[4][3] == '-'
    ensures Moves(g, Coord(4, 4), Coord(4, 3), Coord(4, 2))
  {
  }

  lemma SquareMove6(g: seq<string>)
    requires Dims(g) && g[4][2] == 'L'
    ensures Moves(g, Coord(4, 3), Coord(4, 2), Coord(3, 2))
  {
  }

  lemma SquareMove7(g: seq<string>)
    requires Dims(g) && g[3][2] == '|'
    ensures Moves(g, Coord(4, 2), Coord(3, 2), Coord(2, 2))
  {
  }

  /** What part_1 finds on the padded sketch: the start, its first
      neighbour that leads back to it, and the length of the walk. */
  lemma SquareFound(g: seq<string>, fuel: nat)
    requires SquareGrid(g) && fuel >= 7
    ensures FindStart(g) == Some(Coord(2, 2)) && (forall a :: Near(a, Coord(2, 2)) ==> InGrid(g, a))
    ensures FirstClaimant(g, Coord(2, 2), 0) == Some(4) && Walk(g, Coord(2, 2), Adjacent(Coord(2, 2))[4], fuel) == Some(7)
  {
    SquareStart(g);
    SquareHasTiles(g);
    SquareClaimant(g);
    SquareWalk(g);
    WalkFuel(g, Coord(2, 2), Coord(2, 3), 7, fuel);
    StartInside(g);
  }

  /** part_1 on the square loop answers 4, with any fuel that suffices for
      the 7 steps of the walk. */
  lemma Part1Square(fuel: nat)
    requires fuel >= 7
    ensures SameWidth(Square) && LoopCloses(Square, fuel)
    ensures MaxDistance(Square, fuel) == Ok(4)
  {
    SquarePadded();
    SquareFound(Pad(Square), fuel);
    AnswerFrom(Square, fuel, Coord(2, 2), 4, 7, 4);
  }

  // ---------------------------------------------------------------------
  // The more complex loop

  const Complex: seq<string> := [
    "..F7.",
    ".FJ|.",
    "SJ.L7",
    "|F--J",
    "LJ..."
  ]

  /** The padded sketch of the more complex loop. */
  predicate ComplexGrid(g: seq<string>) {
    |g| == 7 &&
    g[0] == "......." &&
    g[1] == "...F7.." &&
    g[2] == "..FJ|.." &&
    g[3] == ".SJ.L7." &&
    g[4] == ".|F--J." &&
    g[5] == ".LJ...." &&
    g[6] == "......."
  }

  /** Padding the lines of the sketch gives the padded sketch. */
  lemma ComplexRows(lines: seq<string>)
    requires |lines| == 5 &&
      lines[0] == "..F7." &&
      lines[1] == ".FJ|." &&
      lines[2] == "SJ.L7" &&
      lines[3] == "|F--J" &&
      lines[4] == "LJ..."
    ensures SameWidth(lines) && ComplexGrid(Pad(lines))
  {
    assert Plain(lines[0]) && Plain(lines[1]) && Plain(lines[2]) && Plain(lines[3]) && Plain(lines[4]);
    PadFive(lines);
    Wrap(lines[0], "...F7..");
    Wrap(lines[1], "..FJ|..");
    Wrap(lines[2], ".SJ.L7.");
    Wrap(lines[3], ".|F--J.");
    Wrap(lines[4], ".LJ....");
  }

  lemma ComplexPadded()
    ensures SameWidth(Complex) && ComplexGrid(Pad(Complex))
  {
    ComplexRows(Complex);
  }

  /** The only 'S' of the padded sketch is at row 3, column 1. */
  lemma ComplexStart(g: seq<string>)
    requires ComplexGrid(g)
    ensures Framed(g) && FindStart(g) == Some(Coord(3, 1))
  {
    StartFound(g);
    assert Tile(g, Coord(3, 1)) == 'S';
    var s := FindStart(g).value;
    assert s.row == 3;
    assert s.col == 1;
  }

  /** Of the neighbours of the start, the one at position 4 of
      get_adjacent's order is the first to lead back to it. */
  lemma ComplexClaimant(g: seq<string>)
    requires ComplexTiles(g)
    ensures forall a :: Near(a, Coord(3, 1)) ==> InGrid(g, a)
    ensures FirstClaimant(g, Coord(3, 1), 0) == Some(4)
    ensures Adjacent(Coord(3, 1))[4] == Coord(3, 2)
  {
    var s := Coord(3, 1);
    Inside(g, s);
    assert Claims(g, Coord(3, 2), s);
    assert FirstClaimant(g, s, 4) == Some(4);
    assert !Claims(g, Coord(3, 0), s);
    assert FirstClaimant(g, s, 3) == Some(4);
    assert !Claims(g, Coord(2, 2), s);
    assert FirstClaimant(g, s, 2) == Some(4);
    assert !Claims(g, Coord(2, 1), s);
    assert FirstClaimant(g, s, 1) == Some(4);
    assert !Claims(g, Coord(2, 0), s);
    assert FirstClaimant(g, s, 0) == Some(4);
  }

  /** The tiles of the complex loop, from the 'S' round to the tile before it,
      and the neighbours of the 'S' looked at before the loop is found. */
  predicate ComplexTiles(g: seq<string>) {
    Dims(g) &&
    g[3][1] == 'S' && g[3][2] == 'J' && g[2][2] == 'F' && g[2][3] == 'J' &&
    g[1][3] == 'F' && g[1][4] == '7' && g[2][4] == '|' && g[3][4] == 'L' &&
    g[3][5] == '7' && g[4][5] == 'J' && g[4][4] == '-' && g[4][3] == '-' &&
    g[4][2] == 'F' && g[5][2] == 'J' && g[5][1] == 'L' && g[4][1] == '|' &&
    g[2][0] == '.' && g[2][1] == '.' && g[3][0] == '.'
  }

  lemma ComplexHasTiles(g: seq<string>)
    requires ComplexGrid(g)
    ensures ComplexTiles(g)
  {
  }

  /** From the first neighbour the walk is back on the 'S' after 15 steps. */
  lemma ComplexWalk(g: seq<string>)
    requires ComplexTiles(g)
    ensures Walk(g, Coord(3, 1), Coord(3, 2), 15) == Some(15)
  {
    ComplexMove1(g);
    ComplexMove2(g);
    ComplexMove3(g);
    ComplexMove4(g);
    ComplexMove5(g);
    ComplexMove6(g);
    ComplexMove7(g);
    ComplexMove8(g);
    ComplexMove9(g);
    ComplexMove10(g);
    ComplexMove11(g);
    ComplexMove12(g);
    ComplexMove13(g);
    ComplexMove14(g);
    ComplexMove15(g);
    assert Walk(g, Coord(4, 1), Coord(3, 1), 0) == Some(0);
    ThreeBack(g, Coord(4, 2), Coord(5, 2), Coord(5, 1), Coord(4, 1), Coord(3, 1), 0, 3);
    ThreeBack(g, Coord(4, 5), Coord(4, 4), Coord(4, 3), Coord(4, 2), Coord(5, 2), 3, 6);
    ThreeBack(g, Coord(2, 4), Coord(3, 4), Coord(3, 5), Coord(4, 5), Coord(4, 4), 6, 9);
    ThreeBack(g, Coord(2, 3), Coord(1, 3), Coord(1, 4), Coord(2, 4), Coord(3, 4), 9, 12);
    ThreeBack(g, Coord(3, 1), Coord(3, 2), Coord(2, 2), Coord(2, 3), Coord(1, 3), 12, 15);
  }

  // Each move of the walk, from the tile alone.

  lemma ComplexMove1(g: seq<string>)
    requires Dims(g) && g[3][2] == 'J'
    ensures Moves(g, Coord(3, 1), Coord(3, 2), Coord(2, 2))
  {
  }

  lemma ComplexMove2(g: seq<string>)
    requires Dims(g) && g[2][2] == 'F'
    ensures Moves(g, Coord(3, 2), Coord(2, 2), Coord(2, 3))
  {
  }

  lemma ComplexMove3(g: seq<string>)
    requires Dims(g) && g[2][3] == 'J'
    ensures Moves(g, Coord(2, 2), Coord(2, 3), Coord(1, 3))
  {
  }

  lemma ComplexMove4(g: seq<string>)
    requires Dims(g) && g[1][3] == 'F'
    ensures Moves(g, Coord(2, 3), Coord(1, 3), Coord(1, 4))
  {
  }

  lemma ComplexMove5(g: seq<string>)
    requires Dims(g) && g[1][4] == '7'
    ensures Moves(g, Coord(1, 3), Coord(1, 4), Coord(2, 4))
  {
  }

  lemma ComplexMove6(g: seq<string>)
    requires Dims(g) && g[2][4] == '|'
    ensures Moves(g, Coord(1, 4), Coord(2, 4), Coord(3, 4))
  {
  }

  lemma ComplexMove7(g: seq<string>)
    requires Dims(g) && g[3][4] == 'L'
    ensures Moves(g, Coord(2, 4), Coord(3, 4), Coord(3, 5))
  {
  }

  lemma ComplexMove8(g: seq<string>)
    requires Dims(g) && g[3][5] == '7'
    ensures Moves(g, Coord(3, 4), Coord(3, 5), Coord(4, 5))
  {
  }

  lemma ComplexMove9(g: seq<string>)
    requires Dims(g) && g[4][5] == 'J'
    ensures Moves(g, Coord(3, 5), Coord(4, 5), Coord(4, 4))
  {
  }

  lemma ComplexMove10(g: seq<string>)
    requires Dims(g) && g[4][4] == '-'
    ensures Moves(g, Coord(4, 5), Coord(4, 4), Coord(4, 3))
  {
  }

  lemma ComplexMove11(g: seq<string>)
    requires Dims(g) && g[4][3] == '-'
    ensures Moves(g, Coord(4, 4), Coord(4, 3), Coord(4, 2))
  {
  }

  lemma ComplexMove12(g: seq<string>)
    requires Dims(g) && g[4][2] == 'F'
    ensures Moves(g, Coord(4, 3), Coord(4, 2), Coord(5, 2))
  {
  }

  lemma ComplexMove13(g: seq<string>)
    requires Dims(g) && g[5][2] == 'J'
    ensures Moves(g, Coord(4, 2), Coord(5, 2), Coord(5, 1))
  {
  }

  lemma ComplexMove14(g: seq<string>)
    requires Dims(g) && g[5][1] == 'L'
    ensures Moves(g, Coord(5, 2), Coord(5, 1), Coord(4, 1))
  {
  }

  lemma ComplexMove15(g: seq<string>)
    requires Dims(g) && g[4][1] == '|'
    ensures Moves(g, Coord(5, 1), Coord(4, 1), Coord(3, 1))
  {
  }

  /** What part_1 finds on the padded sketch: the start, its first
      neighbour that leads back to it, and the length of the walk. */
  lemma ComplexFound(g: seq<string>, fuel: nat)
    requires ComplexGrid(g) && fuel >= 15
    ensures FindStart(g) == Some(Coord(3, 1)) && (forall a :: Near(a, Coord(3, 1)) ==> InGrid(g, a))
    ensures FirstClaimant(g, Coord(3, 1), 0) == Some(4) && Walk(g, Coord(3, 1), Adjacent(Coord(3, 1))[4], fuel) == Some(15)
  {
    ComplexStart(g);
    ComplexHasTiles(g);
    ComplexClaimant(g);
    ComplexWalk(g);
    WalkFuel(g, Coord(3, 1), Coord(3, 2), 15, fuel);
    StartInside(g);
  }

  /** part_1 on the more complex loop answers 8, with any fuel that suffices
      for the 15 steps of the walk. */
  lemma Part1Complex(fuel: nat)
    requires fuel >= 15
    ensures SameWidth(Complex) && LoopCloses(Complex, fuel)
    ensures MaxDistance(Complex, fuel) == Ok(8)
  {
    ComplexPadded();
    ComplexFound(Pad(Complex), fuel);
    AnswerFrom(Complex, fuel, Coord(3, 1), 4, 15, 8);
  }
}
