/**
 * The example image of the 11.py docstring, carried through every stage of
 * part_1: the blank rows doubled, the image transposed, the blank columns
 * doubled, the nine galaxies found and the distances of their 36 pairs
 * summed to 374.
 *
 * Each stage is proved on a parameter whose lines are pinned by `requires`
 * and then applied to the constant; the expansion and the galaxy search
 * advance a few lines per lemma.
 */
module CosmicExample {
  import opened Cosmic

  /** The image as the docstring prints it, galaxies marked '#'. */
  const Image: seq<string> := [
    "...#......",
    ".......#..",
    "#.........",
    "..........",
    "......#...",
    ".#........",
    ".........#",
    "..........",
    ".......#..",
    "#...#....."
  ]

  /** Image with its two blank rows doubled. */
  const Rows: seq<string> := [
    "...#......",
    ".......#..",
    "#.........",
    "..........",
    "..........",
    "......#...",
    ".#........",
    ".........#",
    "..........",
    "..........",
    ".......#..",
    "#...#....."
  ]

  /** Rows transposed: the columns of the image. */
  const Columns: seq<string> := [
    "..#........#",
    "......#.....",
    "............",
    "#...........",
    "...........#",
    "............",
    ".....#......",
    ".#........#.",
    "............",
    ".......#...."
  ]

  /** Columns with its three blank lines doubled. */
  const Expansion: seq<string> := [
    "..#........#",
    "......#.....",
    "............",
    "............",
    "#...........",
    "...........#",
    "............",
    "............",
    ".....#......",
    ".#........#.",
    "............",
    "............",
    ".......#...."
  ]

  /** The galaxies of Expansion, in the order they are found. */
  const Found: seq<Galaxy> := [
    Galaxy(0, 2),
    Galaxy(0, 11),
    Galaxy(1, 6),
    Galaxy(4, 0),
    Galaxy(5, 11),
    Galaxy(8, 5),
    Galaxy(9, 1),
    Galaxy(9, 10),
    Galaxy(12, 7)
  ]

  // ---------------------------------------------------------------------
  // Helpers

  /** A line of '.' only holds no galaxy. */
  lemma NoGalaxy(line: string)
    requires forall c :: 0 <= c < |line| ==> line[c] == '.'
    ensures !HasGalaxy(line)
  {
  }

  /** The blank lines of the example hold no galaxy. */
  lemma Blank()
    ensures !HasGalaxy("..........") && !HasGalaxy("............")
  {
    NoGalaxy("..........");
    NoGalaxy("............");
  }

  /** Expanding one more line appends it, twice if it holds no galaxy. */
  lemma ExpandedSnoc(lines: seq<string>, k: nat)
    requires k < |lines|
    ensures Expanded(lines[..k + 1]) ==
      Expanded(lines[..k]) + (if HasGalaxy(lines[k]) then [lines[k]] else [lines[k], lines[k]])
  {
    assert lines[..k + 1][..k] == lines[..k];
  }

  // ---------------------------------------------------------------------
  // First expansion: the rows

  /** The image lines that hold a galaxy. */
  lemma MarkedImage()
    ensures HasGalaxy("...#......") &&
      HasGalaxy(".......#..") &&
      HasGalaxy("#.........") &&
      HasGalaxy("......#...") &&
      HasGalaxy(".#........") &&
      HasGalaxy(".........#") &&
      HasGalaxy("#...#.....")
  {
    assert "...#......"[3] == '#';
    assert ".......#.."[7] == '#';
    assert "#........."[0] == '#';
    assert "......#..."[6] == '#';
    assert ".#........"[1] == '#';
    assert ".........#"[9] == '#';
    assert "#...#....."[0] == '#';
  }

  /** Lines 0 to 2 of the image expand to themselves; the chunks that follow
      each carry the expansion a few lines further. */
  lemma ExpandImage1(lines: seq<string>)
    requires 3 <= |lines|
    requires HasGalaxy(lines[0])
    requires HasGalaxy(lines[1])
    requires HasGalaxy(lines[2])
    ensures Expanded(lines[..3]) == Expanded(lines[..0]) + [lines[0], lines[1], lines[2]]
  {
    ExpandedSnoc(lines, 0);
    ExpandedSnoc(lines, 1);
    ExpandedSnoc(lines, 2);
  }

  lemma ExpandImage2(lines: seq<string>)
    requires 6 <= |lines|
    requires !HasGalaxy(lines[3])
    requires HasGalaxy(lines[4])
    requires HasGalaxy(lines[5])
    ensures Expanded(lines[..6]) == Expanded(lines[..3]) + [lines[3], lines[3], lines[4], lines[5]]
  {
    ExpandedSnoc(lines, 3);
    ExpandedSnoc(lines, 4);
    ExpandedSnoc(lines, 5);
  }

  lemma ExpandImage3(lines: seq<string>)
    requires 8 <= |lines|
    requires HasGalaxy(lines[6])
    requires !HasGalaxy(lines[7])
    ensures Expanded(lines[..8]) == Expanded(lines[..6]) + [lines[6], lines[7], lines[7]]
  {
    ExpandedSnoc(lines, 6);
    ExpandedSnoc(lines, 7);
  }

  lemma ExpandImage4(lines: seq<string>)
    requires 10 <= |lines|
    requires HasGalaxy(lines[8])
    requires HasGalaxy(lines[9])
    ensures Expanded(lines[..10]) == Expanded(lines[..8]) + [lines[8], lines[9]]
  {
    ExpandedSnoc(lines, 8);
    ExpandedSnoc(lines, 9);
  }

  /** A ten-line image whose lines 3 and 7 are the blank ones expands to
      twelve lines, those two doubled. */
  lemma ExpandImage(lines: seq<string>)
    requires |lines| == 10
    requires HasGalaxy(lines[0])
    requires HasGalaxy(lines[1])
    requires HasGalaxy(lines[2])
    requires !HasGalaxy(lines[3])
    requires HasGalaxy(lines[4])
    requires HasGalaxy(lines[5])
    requires HasGalaxy(lines[6])
    requires !HasGalaxy(lines[7])
    requires HasGalaxy(lines[8])
    requires HasGalaxy(lines[9])
    ensures Expanded(lines) == [lines[0], lines[1], lines[2], lines[3], lines[3], lines[4], lines[5], lines[6], lines[7], lines[7], lines[8], lines[9]]
  {
    assert lines[..0] == [];
    ExpandImage1(lines);
    ExpandImage2(lines);
    ExpandImage3(lines);
    ExpandImage4(lines);
    assert lines[..10] == lines;
  }

  /** The image expands to Rows. */
  lemma ExpandsImage()
    ensures Expanded(Image) == Rows
  {
    MarkedImage();
    Blank();
    ExpandImage(Image);
    assert Rows == [Image[0], Image[1], Image[2], Image[3], Image[3], Image[4], Image[5], Image[6], Image[7], Image[7], Image[8], Image[9]];
  }

  // ---------------------------------------------------------------------
  // Transposition

  /** Column i of the twelve expanded rows, one lemma per column. */
  lemma TransposedColumn0(rows: seq<string>)
    requires Rectangular(rows, 10)
    requires |rows| == 12
    requires rows[0] == "...#......"
    requires rows[1] == ".......#.."
    requires rows[2] == "#........."
    requires rows[3] == ".........."
    requires rows[4] == ".........."
    requires rows[5] == "......#..."
    requires rows[6] == ".#........"
    requires rows[7] == ".........#"
    requires rows[8] == ".........."
    requires rows[9] == ".........."
    requires rows[10] == ".......#.."
    requires rows[11] == "#...#....."
    ensures |Transpose(rows)| == 10 && Transpose(rows)[0] == "..#........#"
  {
    TransposeCells(rows, 10);
  }

  lemma TransposedColumn1(rows: seq<string>)
    requires Rectangular(rows, 10)
    requires |rows| == 12
    requires rows[0] == "...#......"
    requires rows[1] == ".......#.."
    requires rows[2] == "#........."
    requires rows[3] == ".........."
    requires rows[4] == ".........."
    requires rows[5] == "......#..."
    requires rows[6] == ".#........"
    requires rows[7] == ".........#"
    requires rows[8] == ".........."
    requires rows[9] == ".........."
    requires rows[10] == ".......#.."
    requires rows[11] == "#...#....."
    ensures |Transpose(rows)| == 10 && Transpose(rows)[1] == "......#....."
  {
    TransposeCells(rows, 10);
  }

  lemma TransposedColumn2(rows: seq<string>)
    requires Rectangular(rows, 10)
    requires |rows| == 12
    requires rows[0] == "...#......"
    requires rows[1] == ".......#.."
    requires rows[2] == "#........."
    requires rows[3] == ".........."
    requires rows[4] == ".........."
    requires rows[5] == "......#..."
    requires rows[6] == ".#........"
    requires rows[7] == ".........#"
    requires rows[8] == ".........."
    requires rows[9] == ".........."
    requires rows[10] == ".......#.."
    requires rows[11] == "#...#....."
    ensures |Transpose(rows)| == 10 && Transpose(rows)[2] == "............"
  {
    TransposeCells(rows, 10);
  }

  lemma TransposedColumn3(rows: seq<string>)
    requires Rectangular(rows, 10)
    requires |rows| == 12
    requires rows[0] == "...#......"
    requires rows[1] == ".......#.."
    requires rows[2] == "#........."
    requires rows[3] == ".........."
    requires rows[4] == ".........."
    requires rows[5] == "......#..."
    requires rows[6] == ".#........"
    requires rows[7] == ".........#"
    requires rows[8] == ".........."
    requires rows[9] == ".........."
    requires rows[10] == ".......#.."
    requires rows[11] == "#...#....."
    ensures |Transpose(rows)| == 10 && Transpose(rows)[3] == "#..........."
  {
    TransposeCells(rows, 10);
  }

  lemma TransposedColumn4(rows: seq<string>)
    requires Rectangular(rows, 10)
    requires |rows| == 12
    requires rows[0] == "...#......"
    requires rows[1] == ".......#.."
    requires rows[2] == "#........."
    requires rows[3] == ".........."
    requires rows[4] == ".........."
    requires rows[5] == "......#..."
    requires rows[6] == ".#........"
    requires rows[7] == ".........#"
    requires rows[8] == ".........."
    requires rows[9] == ".........."
    requires rows[10] == ".......#.."
    requires rows[11] == "#...#....."
    ensures |Transpose(rows)| == 10 && Transpose(rows)[4] == "...........#"
  {
    TransposeCells(rows, 10);
  }

  lemma TransposedColumn5(rows: seq<string>)
    requires Rectangular(rows, 10)
    requires |rows| == 12
    requires rows[0] == "...#......"
    requires rows[1] == ".......#.."
    requires rows[2] == "#........."
    requires rows[3] == ".........."
    requires rows[4] == ".........."
    requires rows[5] == "......#..."
    requires rows[6] == ".#........"
    requires rows[7] == ".........#"
    requires rows[8] == ".........."
    requires rows[9] == ".........."
    requires rows[10] == ".......#.."
    requires rows[11] == "#...#....."
    ensures |Transpose(rows)| == 10 && Transpose(rows)[5] == "............"
  {
    TransposeCells(rows, 10);
  }

  lemma TransposedColumn6(rows: seq<string>)
    requires Rectangular(rows, 10)
    requires |rows| == 12
    requires rows[0] == "...#......"
    requires rows[1] == ".......#.."
    requires rows[2] == "#........."
    requires rows[3] == ".........."
    requires rows[4] == ".........."
    requires rows[5] == "......#..."
    requires rows[6] == ".#........"
    requires rows[7] == ".........#"
    requires rows[8] == ".........."
    requires rows[9] == ".........."
    requires rows[10] == ".......#.."
    requires rows[11] == "#...#....."
    ensures |Transpose(rows)| == 10 && Transpose(rows)[6] == ".....#......"
  {
    TransposeCells(rows, 10);
  }

  lemma TransposedColumn7(rows: seq<string>)
    requires Rectangular(rows, 10)
    requires |rows| == 12
    requires rows[0] == "...#......"
    requires rows[1] == ".......#.."
    requires rows[2] == "#........."
    requires rows[3] == ".........."
    requires rows[4] == ".........."
    requires rows[5] == "......#..."
    requires rows[6] == ".#........"
    requires rows[7] == ".........#"
    requires rows[8] == ".........."
    requires rows[9] == ".........."
    requires rows[10] == ".......#.."
    requires rows[11] == "#...#....."
    ensures |Transpose(rows)| == 10 && Transpose(rows)[7] == ".#........#."
  {
    TransposeCells(rows, 10);
  }

  lemma TransposedColumn8(rows: seq<string>)
    requires Rectangular(rows, 10)
    requires |rows| == 12
    requires rows[0] == "...#......"
    requires rows[1] == ".......#.."
    requires rows[2] == "#........."
    requires rows[3] == ".........."
    requires rows[4] == ".........."
    requires rows[5] == "......#..."
    requires rows[6] == ".#........"
    requires rows[7] == ".........#"
    requires rows[8] == ".........."
    requires rows[9] == ".........."
    requires rows[10] == ".......#.."
    requires rows[11] == "#...#....."
    ensures |Transpose(rows)| == 10 && Transpose(rows)[8] == "............"
  {
    TransposeCells(rows, 10);
  }

  lemma TransposedColumn9(rows: seq<string>)
    requires Rectangular(rows, 10)
    requires |rows| == 12
    requires rows[0] == "...#......"
    requires rows[1] == ".......#.."
    requires rows[2] == "#........."
    requires rows[3] == ".........."
    requires rows[4] == ".........."
    requires rows[5] == "......#..."
    requires rows[6] == ".#........"
    requires rows[7] == ".........#"
    requires rows[8] == ".........."
    requires rows[9] == ".........."
    requires rows[10] == ".......#.."
    requires rows[11] == "#...#....."
    ensures |Transpose(rows)| == 10 && Transpose(rows)[9] == ".......#...."
  {
    TransposeCells(rows, 10);
  }

  /** The twelve expanded rows transposed give the ten columns. */
  lemma TransposeRows(rows: seq<string>)
    requires |rows| == 12
    requires rows[0] == "...#......"
    requires rows[1] == ".......#.."
    requires rows[2] == "#........."
    requires rows[3] == ".........."
    requires rows[4] == ".........."
    requires rows[5] == "......#..."
    requires rows[6] == ".#........"
    requires rows[7] == ".........#"
    requires rows[8] == ".........."
    requires rows[9] == ".........."
    requires rows[10] == ".......#.."
    requires rows[11] == "#...#....."
    ensures Transpose(rows) == [
      "..#........#",
      "......#.....",
      "............",
      "#...........",
      "...........#",
      "............",
      ".....#......",
      ".#........#.",
      "............",
      ".......#...."
    ]
  {
    forall j | 0 <= j < 12
      ensures |rows[j]| == 10
    {
      assert j == 0 || j == 1 || j == 2 || j == 3 || j == 4 || j == 5 || j == 6 || j == 7 || j == 8 || j == 9 || j == 10 || j == 11;
    }
    TransposedColumn0(rows);
    TransposedColumn1(rows);
    TransposedColumn2(rows);
    TransposedColumn3(rows);
    TransposedColumn4(rows);
    TransposedColumn5(rows);
    TransposedColumn6(rows);
    TransposedColumn7(rows);
    TransposedColumn8(rows);
    TransposedColumn9(rows);
  }

  /** Rows transposed is Columns. */
  lemma TransposesRows()
    ensures Transpose(Rows) == Columns
  {
    TransposeRows(Rows);
  }

  // ---------------------------------------------------------------------
  // Second expansion: the columns

  /** The columns that hold a galaxy. */
  lemma MarkedColumns()
    ensures HasGalaxy("..#........#") &&
      HasGalaxy("......#.....") &&
      HasGalaxy("#...........") &&
      HasGalaxy("...........#") &&
      HasGalaxy(".....#......") &&
      HasGalaxy(".#........#.") &&
      HasGalaxy(".......#....")
  {
    assert "..#........#"[2] == '#';
    assert "......#....."[6] == '#';
    assert "#..........."[0] == '#';
    assert "...........#"[11] == '#';
    assert ".....#......"[5] == '#';
    assert ".#........#."[1] == '#';
    assert ".......#...."[7] == '#';
  }

  /** The expansion of the columns, a few lines per chunk. */
  lemma ExpandColumns1(lines: seq<string>)
    requires 3 <= |lines|
    requires HasGalaxy(lines[0])
    requires HasGalaxy(lines[1])
    requires !HasGalaxy(lines[2])
    ensures Expanded(lines[..3]) == Expanded(lines[..0]) + [lines[0], lines[1], lines[2], lines[2]]
  {
    ExpandedSnoc(lines, 0);
    ExpandedSnoc(lines, 1);
    ExpandedSnoc(lines, 2);
  }

  lemma ExpandColumns2(lines: seq<string>)
    requires 6 <= |lines|
    requires HasGalaxy(lines[3])
    requires HasGalaxy(lines[4])
    requires !HasGalaxy(lines[5])
    ensures Expanded(lines[..6]) == Expanded(lines[..3]) + [lines[3], lines[4], lines[5], lines[5]]
  {
    ExpandedSnoc(lines, 3);
    ExpandedSnoc(lines, 4);
    ExpandedSnoc(lines, 5);
  }

  lemma ExpandColumns3(lines: seq<string>)
    requires 8 <= |lines|
    requires HasGalaxy(lines[6])
    requires HasGalaxy(lines[7])
    ensures Expanded(lines[..8]) == Expanded(lines[..6]) + [lines[6], lines[7]]
  {
    ExpandedSnoc(lines, 6);
    ExpandedSnoc(lines, 7);
  }

  lemma ExpandColumns4(lines: seq<string>)
    requires 10 <= |lines|
    requires !HasGalaxy(lines[8])
    requires HasGalaxy(lines[9])
    ensures Expanded(lines[..10]) == Expanded(lines[..8]) + [lines[8], lines[8], lines[9]]
  {
    ExpandedSnoc(lines, 8);
    ExpandedSnoc(lines, 9);
  }

  /** Ten columns whose lines 2, 5 and 8 are blank expand to thirteen lines. */
  lemma ExpandColumns(lines: seq<string>)
    requires |lines| == 10
    requires HasGalaxy(lines[0])
    requires HasGalaxy(lines[1])
    requires !HasGalaxy(lines[2])
    requires HasGalaxy(lines[3])
    requires HasGalaxy(lines[4])
    requires !HasGalaxy(lines[5])
    requires HasGalaxy(lines[6])
    requires HasGalaxy(lines[7])
    requires !HasGalaxy(lines[8])
    requires HasGalaxy(lines[9])
    ensures Expanded(lines) == [lines[0], lines[1], lines[2], lines[2], lines[3], lines[4], lines[5], lines[5], lines[6], lines[7], lines[8], lines[8], lines[9]]
  {
    assert lines[..0] == [];
    ExpandColumns1(lines);
    ExpandColumns2(lines);
    ExpandColumns3(lines);
    ExpandColumns4(lines);
    assert lines[..10] == lines;
  }

  /** Columns expands to Expansion. */
  lemma ExpandsColumns()
    ensures Expanded(Columns) == Expansion
  {
    MarkedColumns();
    Blank();
    ExpandColumns(Columns);
    assert Expansion == [Columns[0], Columns[1], Columns[2], Columns[2], Columns[3], Columns[4], Columns[5], Columns[5], Columns[6], Columns[7], Columns[8], Columns[8], Columns[9]];
  }

  // ---------------------------------------------------------------------
  // Finding the galaxies

  /** The galaxies of each distinct line of the expansion, at any row r. */
  lemma LineGalaxies0(r: int)
    ensures RowGalaxies("..#........#", r, 12) == [Galaxy(r, 2), Galaxy(r, 11)]
  {
    assert RowGalaxies("..#........#", r, 1) == [];
    assert RowGalaxies("..#........#", r, 2) == [];
    assert RowGalaxies("..#........#", r, 3) == [Galaxy(r, 2)];
    assert RowGalaxies("..#........#", r, 4) == [Galaxy(r, 2)];
    assert RowGalaxies("..#........#", r, 5) == [Galaxy(r, 2)];
    assert RowGalaxies("..#........#", r, 6) == [Galaxy(r, 2)];
    assert RowGalaxies("..#........#", r, 7) == [Galaxy(r, 2)];
    assert RowGalaxies("..#........#", r, 8) == [Galaxy(r, 2)];
    assert RowGalaxies("..#........#", r, 9) == [Galaxy(r, 2)];
    assert RowGalaxies("..#........#", r, 10) == [Galaxy(r, 2)];
    assert RowGalaxies("..#........#", r, 11) == [Galaxy(r, 2)];
  }

  lemma LineGalaxies1(r: int)
    ensures RowGalaxies("......#.....", r, 12) == [Galaxy(r, 6)]
  {
    assert RowGalaxies("......#.....", r, 1) == [];
    assert RowGalaxies("......#.....", r, 2) == [];
    assert RowGalaxies("......#.....", r, 3) == [];
    assert RowGalaxies("......#.....", r, 4) == [];
    assert RowGalaxies("......#.....", r, 5) == [];
    assert RowGalaxies("......#.....", r, 6) == [];
    assert RowGalaxies("......#.....", r, 7) == [Galaxy(r, 6)];
    assert RowGalaxies("......#.....", r, 8) == [Galaxy(r, 6)];
    assert RowGalaxies("......#.....", r, 9) == [Galaxy(r, 6)];
    assert RowGalaxies("......#.....", r, 10) == [Galaxy(r, 6)];
    assert RowGalaxies("......#.....", r, 11) == [Galaxy(r, 6)];
  }

  lemma LineGalaxies2(r: int)
    ensures RowGalaxies("............", r, 12) == []
  {
    assert RowGalaxies("............", r, 1) == [];
    assert RowGalaxies("............", r, 2) == [];
    assert RowGalaxies("............", r, 3) == [];
    assert RowGalaxies("............", r, 4) == [];
    assert RowGalaxies("............", r, 5) == [];
    assert RowGalaxies("............", r, 6) == [];
    assert RowGalaxies("............", r, 7) == [];
    assert RowGalaxies("............", r, 8) == [];
    assert RowGalaxies("............", r, 9) == [];
    assert RowGalaxies("............", r, 10) == [];
    assert RowGalaxies("............", r, 11) == [];
  }

  lemma LineGalaxies3(r: int)
    ensures RowGalaxies("#...........", r, 12) == [Galaxy(r, 0)]
  {
    assert RowGalaxies("#...........", r, 1) == [Galaxy(r, 0)];
    assert RowGalaxies("#...........", r, 2) == [Galaxy(r, 0)];
    assert RowGalaxies("#...........", r, 3) == [Galaxy(r, 0)];
    assert RowGalaxies("#...........", r, 4) == [Galaxy(r, 0)];
    assert RowGalaxies("#...........", r, 5) == [Galaxy(r, 0)];
    assert RowGalaxies("#...........", r, 6) == [Galaxy(r, 0)];
    assert RowGalaxies("#...........", r, 7) == [Galaxy(r, 0)];
    assert RowGalaxies("#...........", r, 8) == [Galaxy(r, 0)];
    assert RowGalaxies("#...........", r, 9) == [Galaxy(r, 0)];
    assert RowGalaxies("#...........", r, 10) == [Galaxy(r, 0)];
    assert RowGalaxies("#...........", r, 11) == [Galaxy(r, 0)];
  }

  lemma LineGalaxies4(r: int)
    ensures RowGalaxies("...........#", r, 12) == [Galaxy(r, 11)]
  {
    assert RowGalaxies("...........#", r, 1) == [];
    assert RowGalaxies("...........#", r, 2) == [];
    assert RowGalaxies("...........#", r, 3) == [];
    assert RowGalaxies("...........#", r, 4) == [];
    assert RowGalaxies("...........#", r, 5) == [];
    assert RowGalaxies("...........#", r, 6) == [];
    assert RowGalaxies("...........#", r, 7) == [];
    assert RowGalaxies("...........#", r, 8) == [];
    assert RowGalaxies("...........#", r, 9) == [];
    assert RowGalaxies("...........#", r, 10) == [];
    assert RowGalaxies("...........#", r, 11) == [];
  }

  lemma LineGalaxies5(r: int)
    ensures RowGalaxies(".....#......", r, 12) == [Galaxy(r, 5)]
  {
    assert RowGalaxies(".....#......", r, 1) == [];
    assert RowGalaxies(".....#......", r, 2) == [];
    assert RowGalaxies(".....#......", r, 3) == [];
    assert RowGalaxies(".....#......", r, 4) == [];
    assert RowGalaxies(".....#......", r, 5) == [];
    assert RowGalaxies(".....#......", r, 6) == [Galaxy(r, 5)];
    assert RowGalaxies(".....#......", r, 7) == [Galaxy(r, 5)];
    assert RowGalaxies(".....#......", r, 8) == [Galaxy(r, 5)];
    assert RowGalaxies(".....#......", r, 9) == [Galaxy(r, 5)];
    assert RowGalaxies(".....#......", r, 10) == [Galaxy(r, 5)];
    assert RowGalaxies(".....#......", r, 11) == [Galaxy(r, 5)];
  }

  lemma LineGalaxies6(r: int)
    ensures RowGalaxies(".#........#.", r, 12) == [Galaxy(r, 1), Galaxy(r, 10)]
  {
    assert RowGalaxies(".#........#.", r, 1) == [];
    assert RowGalaxies(".#........#.", r, 2) == [Galaxy(r, 1)];
    assert RowGalaxies(".#........#.", r, 3) == [Galaxy(r, 1)];
    assert RowGalaxies(".#........#.", r, 4) == [Galaxy(r, 1)];
    assert RowGalaxies(".#........#.", r, 5) == [Galaxy(r, 1)];
    assert RowGalaxies(".#........#.", r, 6) == [Galaxy(r, 1)];
    assert RowGalaxies(".#........#.", r, 7) == [Galaxy(r, 1)];
    assert RowGalaxies(".#........#.", r, 8) == [Galaxy(r, 1)];
    assert RowGalaxies(".#........#.", r, 9) == [Galaxy(r, 1)];
    assert RowGalaxies(".#........#.", r, 10) == [Galaxy(r, 1)];
    assert RowGalaxies(".#........#.", r, 11) == [Galaxy(r, 1), Galaxy(r, 10)];
  }

  lemma LineGalaxies7(r: int)
    ensures RowGalaxies(".......#....", r, 12) == [Galaxy(r, 7)]
  {
    assert RowGalaxies(".......#....", r, 1) == [];
    assert RowGalaxies(".......#....", r, 2) == [];
    assert RowGalaxies(".......#....", r, 3) == [];
    assert RowGalaxies(".......#....", r, 4) == [];
    assert RowGalaxies(".......#....", r, 5) == [];
    assert RowGalaxies(".......#....", r, 6) == [];
    assert RowGalaxies(".......#....", r, 7) == [];
    assert RowGalaxies(".......#....", r, 8) == [Galaxy(r, 7)];
    assert RowGalaxies(".......#....", r, 9) == [Galaxy(r, 7)];
    assert RowGalaxies(".......#....", r, 10) == [Galaxy(r, 7)];
    assert RowGalaxies(".......#....", r, 11) == [Galaxy(r, 7)];
  }

  /** One more line adds its own galaxies at the end. */
  lemma GalaxiesSnoc(lines: seq<string>, k: nat)
    requires k < |lines|
    ensures Galaxies(lines[..k + 1]) == Galaxies(lines[..k]) + RowGalaxies(lines[k], k, |lines[k]|)
  {
    assert lines[..k + 1][..k] == lines[..k];
  }

  /** The galaxies of lines 0 to 2; the chunks that follow carry the search
      a few lines further. */
  lemma FindGalaxies1(lines: seq<string>)
    requires 3 <= |lines|
    requires RowGalaxies(lines[0], 0, |lines[0]|) == [Galaxy(0, 2), Galaxy(0, 11)]
    requires RowGalaxies(lines[1], 1, |lines[1]|) == [Galaxy(1, 6)]
    requires RowGalaxies(lines[2], 2, |lines[2]|) == []
    ensures Galaxies(lines[..3]) == Galaxies(lines[..0]) + [Galaxy(0, 2), Galaxy(0, 11), Galaxy(1, 6)]
  {
    GalaxiesSnoc(lines, 0);
    GalaxiesSnoc(lines, 1);
    GalaxiesSnoc(lines, 2);
  }

  lemma FindGalaxies2(lines: seq<string>)
    requires 6 <= |lines|
    requires RowGalaxies(lines[3], 3, |lines[3]|) == []
    requires RowGalaxies(lines[4], 4, |lines[4]|) == [Galaxy(4, 0)]
    requires RowGalaxies(lines[5], 5, |lines[5]|) == [Galaxy(5, 11)]
    ensures Galaxies(lines[..6]) == Galaxies(lines[..3]) + [Galaxy(4, 0), Galaxy(5, 11)]
  {
    GalaxiesSnoc(lines, 3);
    GalaxiesSnoc(lines, 4);
    GalaxiesSnoc(lines, 5);
  }

  lemma FindGalaxies3(lines: seq<string>)
    requires 9 <= |lines|
    requires RowGalaxies(lines[6], 6, |lines[6]|) == []
    requires RowGalaxies(lines[7], 7, |lines[7]|) == []
    requires RowGalaxies(lines[8], 8, |lines[8]|) == [Galaxy(8, 5)]
    ensures Galaxies(lines[..9]) == Galaxies(lines[..6]) + [Galaxy(8, 5)]
  {
    GalaxiesSnoc(lines, 6);
    GalaxiesSnoc(lines, 7);
    GalaxiesSnoc(lines, 8);
  }

  lemma FindGalaxies4(lines: seq<string>)
    requires 11 <= |lines|
    requires RowGalaxies(lines[9], 9, |lines[9]|) == [Galaxy(9, 1), Galaxy(9, 10)]
    requires RowGalaxies(lines[10], 10, |lines[10]|) == []
    ensures Galaxies(lines[..11]) == Galaxies(lines[..9]) + [Galaxy(9, 1), Galaxy(9, 10)]
  {
    GalaxiesSnoc(lines, 9);
    GalaxiesSnoc(lines, 10);
  }

  lemma FindGalaxies5(lines: seq<string>)
    requires 13 <= |lines|
    requires RowGalaxies(lines[11], 11, |lines[11]|) == []
    requires RowGalaxies(lines[12], 12, |lines[12]|) == [Galaxy(12, 7)]
    ensures Galaxies(lines[..13]) == Galaxies(lines[..11]) + [Galaxy(12, 7)]
  {
    GalaxiesSnoc(lines, 11);
    GalaxiesSnoc(lines, 12);
  }

  /** Thirteen lines with these galaxies per line give the nine galaxies in
      row-major order. */
  lemma GalaxiesOf(lines: seq<string>)
    requires |lines| == 13
    requires RowGalaxies(lines[0], 0, |lines[0]|) == [Galaxy(0, 2), Galaxy(0, 11)]
    requires RowGalaxies(lines[1], 1, |lines[1]|) == [Galaxy(1, 6)]
    requires RowGalaxies(lines[2], 2, |lines[2]|) == []
    requires RowGalaxies(lines[3], 3, |lines[3]|) == []
    requires RowGalaxies(lines[4], 4, |lines[4]|) == [Galaxy(4, 0)]
    requires RowGalaxies(lines[5], 5, |lines[5]|) == [Galaxy(5, 11)]
    requires RowGalaxies(lines[6], 6, |lines[6]|) == []
    requires RowGalaxies(lines[7], 7, |lines[7]|) == []
    requires RowGalaxies(lines[8], 8, |lines[8]|) == [Galaxy(8, 5)]
    requires RowGalaxies(lines[9], 9, |lines[9]|) == [Galaxy(9, 1), Galaxy(9, 10)]
    requires RowGalaxies(lines[10], 10, |lines[10]|) == []
    requires RowGalaxies(lines[11], 11, |lines[11]|) == []
    requires RowGalaxies(lines[12], 12, |lines[12]|) == [Galaxy(12, 7)]
    ensures Galaxies(lines) == [Galaxy(0, 2), Galaxy(0, 11), Galaxy(1, 6), Galaxy(4, 0), Galaxy(5, 11), Galaxy(8, 5), Galaxy(9, 1), Galaxy(9, 10), Galaxy(12, 7)]
  {
    assert lines[..0] == [];
    FindGalaxies1(lines);
    FindGalaxies2(lines);
    FindGalaxies3(lines);
    FindGalaxies4(lines);
    FindGalaxies5(lines);
    assert lines[..13] == lines;
  }

  /** The galaxies of each of the thirteen expanded lines. */
  lemma ExpansionLines(lines: seq<string>)
    requires |lines| == 13
    requires lines[0] == "..#........#"
    requires lines[1] == "......#....."
    requires lines[2] == "............"
    requires lines[3] == "............"
    requires lines[4] == "#..........."
    requires lines[5] == "...........#"
    requires lines[6] == "............"
    requires lines[7] == "............"
    requires lines[8] == ".....#......"
    requires lines[9] == ".#........#."
    requires lines[10] == "............"
    requires lines[11] == "............"
    requires lines[12] == ".......#...."
    ensures RowGalaxies(lines[0], 0, |lines[0]|) == [Galaxy(0, 2), Galaxy(0, 11)] &&
      RowGalaxies(lines[1], 1, |lines[1]|) == [Galaxy(1, 6)] &&
      RowGalaxies(lines[2], 2, |lines[2]|) == [] &&
      RowGalaxies(lines[3], 3, |lines[3]|) == [] &&
      RowGalaxies(lines[4], 4, |lines[4]|) == [Galaxy(4, 0)] &&
      RowGalaxies(lines[5], 5, |lines[5]|) == [Galaxy(5, 11)] &&
      RowGalaxies(lines[6], 6, |lines[6]|) == [] &&
      RowGalaxies(lines[7], 7, |lines[7]|) == [] &&
      RowGalaxies(lines[8], 8, |lines[8]|) == [Galaxy(8, 5)] &&
      RowGalaxies(lines[9], 9, |lines[9]|) == [Galaxy(9, 1), Galaxy(9, 10)] &&
      RowGalaxies(lines[10], 10, |lines[10]|) == [] &&
      RowGalaxies(lines[11], 11, |lines[11]|) == [] &&
      RowGalaxies(lines[12], 12, |lines[12]|) == [Galaxy(12, 7)]
  {
    LineGalaxies0(0);
    LineGalaxies1(1);
    LineGalaxies2(2);
    LineGalaxies2(3);
    LineGalaxies3(4);
    LineGalaxies4(5);
    LineGalaxies2(6);
    LineGalaxies2(7);
    LineGalaxies5(8);
    LineGalaxies6(9);
    LineGalaxies2(10);
    LineGalaxies2(11);
    LineGalaxies7(12);
  }

  /** The galaxies of Expansion are Found. */
  lemma GalaxiesOfExpansion()
    ensures Galaxies(Expansion) == Found
  {
    ExpansionLines(Expansion);
    GalaxiesOf(Expansion);
  }

  // ---------------------------------------------------------------------
  // Summing the distances

  /** Peeling one galaxy off the front of the later galaxies. */
  lemma DistSumFrom(g: Galaxy, gs: seq<Galaxy>, j: nat)
    requires j < |gs|
    ensures DistSum(g, gs[j..]) == Distance(g, gs[j]) + DistSum(g, gs[j + 1..])
  {
    assert gs[j..][1..] == gs[j + 1..];
  }

  /** Peeling one galaxy off the front of the list. */
  lemma PairSumFrom(gs: seq<Galaxy>, i: nat)
    requires i < |gs|
    ensures PairSum(gs[i..]) == DistSum(gs[i], gs[i + 1..]) + PairSum(gs[i + 1..])
  {
    assert gs[i..][1..] == gs[i + 1..];
  }

  /** The distances from galaxy i to every later one, one lemma per i. */
  lemma DistancesFrom0(gs: seq<Galaxy>)
    requires |gs| == 9
    requires gs[0] == Galaxy(0, 2)
    requires gs[1] == Galaxy(0, 11)
    requires gs[2] == Galaxy(1, 6)
    requires gs[3] == Galaxy(4, 0)
    requires gs[4] == Galaxy(5, 11)
    requires gs[5] == Galaxy(8, 5)
    requires gs[6] == Galaxy(9, 1)
    requires gs[7] == Galaxy(9, 10)
    requires gs[8] == Galaxy(12, 7)
    ensures DistSum(gs[0], gs[1..]) == 89
  {
    DistSumFrom(gs[0], gs, 1);
    DistSumFrom(gs[0], gs, 2);
    DistSumFrom(gs[0], gs, 3);
    DistSumFrom(gs[0], gs, 4);
    DistSumFrom(gs[0], gs, 5);
    DistSumFrom(gs[0], gs, 6);
    DistSumFrom(gs[0], gs, 7);
    DistSumFrom(gs[0], gs, 8);
    assert gs[9..] == [];
  }

  lemma DistancesFrom1(gs: seq<Galaxy>)
    requires |gs| == 9
    requires gs[1] == Galaxy(0, 11)
    requires gs[2] == Galaxy(1, 6)
    requires gs[3] == Galaxy(4, 0)
    requires gs[4] == Galaxy(5, 11)
    requires gs[5] == Galaxy(8, 5)
    requires gs[6] == Galaxy(9, 1)
    requires gs[7] == Galaxy(9, 10)
    requires gs[8] == Galaxy(12, 7)
    ensures DistSum(gs[1], gs[2..]) == 85
  {
    DistSumFrom(gs[1], gs, 2);
    DistSumFrom(gs[1], gs, 3);
    DistSumFrom(gs[1], gs, 4);
    DistSumFrom(gs[1], gs, 5);
    DistSumFrom(gs[1], gs, 6);
    DistSumFrom(gs[1], gs, 7);
    DistSumFrom(gs[1], gs, 8);
    assert gs[9..] == [];
  }

  lemma DistancesFrom2(gs: seq<Galaxy>)
    requires |gs| == 9
    requires gs[2] == Galaxy(1, 6)
    requires gs[3] == Galaxy(4, 0)
    requires gs[4] == Galaxy(5, 11)
    requires gs[5] == Galaxy(8, 5)
    requires gs[6] == Galaxy(9, 1)
    requires gs[7] == Galaxy(9, 10)
    requires gs[8] == Galaxy(12, 7)
    ensures DistSum(gs[2], gs[3..]) == 63
  {
    DistSumFrom(gs[2], gs, 3);
    DistSumFrom(gs[2], gs, 4);
    DistSumFrom(gs[2], gs, 5);
    DistSumFrom(gs[2], gs, 6);
    DistSumFrom(gs[2], gs, 7);
    DistSumFrom(gs[2], gs, 8);
    assert gs[9..] == [];
  }

  lemma DistancesFrom3(gs: seq<Galaxy>)
    requires |gs| == 9
    requires gs[3] == Galaxy(4, 0)
    requires gs[4] == Galaxy(5, 11)
    requires gs[5] == Galaxy(8, 5)
    requires gs[6] == Galaxy(9, 1)
    requires gs[7] == Galaxy(9, 10)
    requires gs[8] == Galaxy(12, 7)
    ensures DistSum(gs[3], gs[4..]) == 57
  {
    DistSumFrom(gs[3], gs, 4);
    DistSumFrom(gs[3], gs, 5);
    DistSumFrom(gs[3], gs, 6);
    DistSumFrom(gs[3], gs, 7);
    DistSumFrom(gs[3], gs, 8);
    assert gs[9..] == [];
  }

  lemma DistancesFrom4(gs: seq<Galaxy>)
    requires |gs| == 9
    requires gs[4] == Galaxy(5, 11)
    requires gs[5] == Galaxy(8, 5)
    requires gs[6] == Galaxy(9, 1)
    requires gs[7] == Galaxy(9, 10)
    requires gs[8] == Galaxy(12, 7)
    ensures DistSum(gs[4], gs[5..]) == 39
  {
    DistSumFrom(gs[4], gs, 5);
    DistSumFrom(gs[4], gs, 6);
    DistSumFrom(gs[4], gs, 7);
    DistSumFrom(gs[4], gs, 8);
    assert gs[9..] == [];
  }

  lemma DistancesFrom5(gs: seq<Galaxy>)
    requires |gs| == 9
    requires gs[5] == Galaxy(8, 5)
    requires gs[6] == Galaxy(9, 1)
    requires gs[7] == Galaxy(9, 10)
    requires gs[8] == Galaxy(12, 7)
    ensures DistSum(gs[5], gs[6..]) == 17
  {
    DistSumFrom(gs[5], gs, 6);
    DistSumFrom(gs[5], gs, 7);
    DistSumFrom(gs[5], gs, 8);
    assert gs[9..] == [];
  }

  lemma DistancesFrom6(gs: seq<Galaxy>)
    requires |gs| == 9
    requires gs[6] == Galaxy(9, 1)
    requires gs[7] == Galaxy(9, 10)
    requires gs[8] == Galaxy(12, 7)
    ensures DistSum(gs[6], gs[7..]) == 18
  {
    DistSumFrom(gs[6], gs, 7);
    DistSumFrom(gs[6], gs, 8);
    assert gs[9..] == [];
  }

  lemma DistancesFrom7(gs: seq<Galaxy>)
    requires |gs| == 9
    requires gs[7] == Galaxy(9, 10)
    requires gs[8] == Galaxy(12, 7)
    ensures DistSum(gs[7], gs[8..]) == 6
  {
    DistSumFrom(gs[7], gs, 8);
    assert gs[9..] == [];
  }

  /** The eight partial sums add up to the total. */
  lemma PairSumOfSums(gs: seq<Galaxy>)
    requires |gs| == 9
    requires DistSum(gs[0], gs[1..]) == 89
    requires DistSum(gs[1], gs[2..]) == 85
    requires DistSum(gs[2], gs[3..]) == 63
    requires DistSum(gs[3], gs[4..]) == 57
    requires DistSum(gs[4], gs[5..]) == 39
    requires DistSum(gs[5], gs[6..]) == 17
    requires DistSum(gs[6], gs[7..]) == 18
    requires DistSum(gs[7], gs[8..]) == 6
    ensures PairSum(gs) == 374
  {
    assert gs[9..] == [];
    PairSumFrom(gs, 8);
    assert PairSum(gs[8..]) == 0;
    PairSumFrom(gs, 7);
    assert PairSum(gs[7..]) == 6;
    PairSumFrom(gs, 6);
    assert PairSum(gs[6..]) == 24;
    PairSumFrom(gs, 5);
    assert PairSum(gs[5..]) == 41;
    PairSumFrom(gs, 4);
    assert PairSum(gs[4..]) == 80;
    PairSumFrom(gs, 3);
    assert PairSum(gs[3..]) == 137;
    PairSumFrom(gs, 2);
    assert PairSum(gs[2..]) == 200;
    PairSumFrom(gs, 1);
    assert PairSum(gs[1..]) == 285;
    PairSumFrom(gs, 0);
    assert PairSum(gs[0..]) == 374;
    assert gs[0..] == gs;
  }

  /** The nine galaxies found in the example are 374 steps apart in all. */
  lemma PairSumOfNine(gs: seq<Galaxy>)
    requires |gs| == 9
    requires gs[0] == Galaxy(0, 2)
    requires gs[1] == Galaxy(0, 11)
    requires gs[2] == Galaxy(1, 6)
    requires gs[3] == Galaxy(4, 0)
    requires gs[4] == Galaxy(5, 11)
    requires gs[5] == Galaxy(8, 5)
    requires gs[6] == Galaxy(9, 1)
    requires gs[7] == Galaxy(9, 10)
    requires gs[8] == Galaxy(12, 7)
    ensures PairSum(gs) == 374
  {
    DistancesFrom0(gs);
    DistancesFrom1(gs);
    DistancesFrom2(gs);
    DistancesFrom3(gs);
    DistancesFrom4(gs);
    DistancesFrom5(gs);
    DistancesFrom6(gs);
    DistancesFrom7(gs);
    PairSumOfSums(gs);
  }

  // ---------------------------------------------------------------------
  // The answer

  /** part_1 on the example image answers 374. */
  lemma Part1Example()
    ensures Answer(Image) == 374
  {
    ExpandsImage();
    TransposesRows();
    ExpandsColumns();
    GalaxiesOfExpansion();
    PairSumOfNine(Found);
  }

  /** The sample shortest paths: galaxies 1 and 7, 3 and 6, 8 and 9, 5 and 9,
      numbered in reading order of the expanded image, lie 15, 17, 5 and 9
      steps apart. */
  lemma SamplePaths()
    ensures Distance(Found[3], Found[7]) == 15
    ensures Distance(Found[0], Found[8]) == 17
    ensures Distance(Found[1], Found[4]) == 5
    ensures Distance(Found[2], Found[4]) == 9
  {
  }

}
