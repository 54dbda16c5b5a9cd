/**
 * The pipe-maze loop tracer of 10.py: a table of pipe shapes, the coordinate
 * helpers, padding and start-finding, and the walk that follows the loop from
 * the start tile back to a start tile, counting steps, and answers half the
 * count.
 */
module PipeMaze {
  import opened Wrappers
  import opened Padding

  /** A grid position, or an offset between two positions. */
  datatype Coord = Coord(row: int, col: int)

  function Plus(c: Coord, d: Coord): Coord {
    Coord(c.row + d.row, c.col + d.col)
  }

  /** One step north, south, east or west: one component 0, the other 1 or -1. */
  predicate IsUnitStep(d: Coord) {
    (d.row == 0 && (d.col == 1 || d.col == -1)) || (d.col == 0 && (d.row == 1 || d.row == -1))
  }

  /** The six pipe symbols that have an entry in the connectivity table. */
  predicate IsPipe(t: char) {
    t == '|' || t == '-' || t == 'L' || t == 'J' || t == '7' || t == 'F'
  }

  /** The connectivity table: the two offsets a pipe opens towards, in the
      table's order; None for any other character (ground, the start tile).
      Exactly the six pipe symbols have an entry, and each opens towards two
      different orthogonal neighbours. */
  function Directions(t: char): (r: Option<(Coord, Coord)>)
    ensures IsPipe(t) <==> r.Some?
    ensures r.Some? ==> r.value.0 != r.value.1 && IsUnitStep(r.value.0) && IsUnitStep(r.value.1)
  {
    match t
    case '|' => Some((Coord(-1, 0), Coord(1, 0)))
    case '-' => Some((Coord(0, 1), Coord(0, -1)))
    case 'L' => Some((Coord(-1, 0), Coord(0, 1)))
    case 'J' => Some((Coord(-1, 0), Coord(0, -1)))
    case '7' => Some((Coord(1, 0), Coord(0, -1)))
    case 'F' => Some((Coord(1, 0), Coord(0, 1)))
    case _ => None
  }

  /** Row-major order on positions. */
  predicate Before(a: Coord, b: Coord) {
    a.row < b.row || (a.row == b.row && a.col < b.col)
  }

  /** a lies in the 3-by-3 block centred on c. */
  predicate Near(a: Coord, c: Coord) {
    -1 <= a.row - c.row <= 1 && -1 <= a.col - c.col <= 1
  }

  /** Coord.get_adjacent: the 8 positions around c, in row-major order. */
  function Adjacent(c: Coord): (r: seq<Coord>)
    ensures |r| == 8 && forall i :: 0 <= i < 8 ==> Near(r[i], c)
  {
    [Coord(c.row - 1, c.col - 1), Coord(c.row - 1, c.col), Coord(c.row - 1, c.col + 1),
     Coord(c.row, c.col - 1), Coord(c.row, c.col + 1),
     Coord(c.row + 1, c.col - 1), Coord(c.row + 1, c.col), Coord(c.row + 1, c.col + 1)]
  }

  /** The 8 positions are exactly the neighbours of c, each once, in
      row-major order. */
  lemma AdjacentNeighbours(c: Coord)
    ensures forall a :: a in Adjacent(c) <==> Near(a, c) && a != c
    ensures forall i, j :: 0 <= i < j < 8 ==> Before(Adjacent(c)[i], Adjacent(c)[j])
  {
  }

  /** Node.get_connected_coords: the position reached through each opening of
      tile t placed at c. A pipe connects its position to two distinct
      orthogonal neighbours, c plus each offset of the table in turn; ground,
      the start tile and any other character connect to nothing. */
  function Connected(c: Coord, t: char): (r: seq<Coord>)
    ensures IsPipe(t) ==> |r| == 2 && r[0] != r[1] &&
                          r[0] == Plus(c, Directions(t).value.0) && r[1] == Plus(c, Directions(t).value.1)
    ensures !IsPipe(t) ==> r == []
    ensures forall i :: 0 <= i < |r| ==> Near(r[i], c) && (r[i].row == c.row) != (r[i].col == c.col)
  {
    match Directions(t)
    case None => []
    case Some((a, b)) => [Plus(c, a), Plus(c, b)]
  }

  // ---------------------------------------------------------------------
  // The grid

  predicate InGrid(g: seq<string>, c: Coord) {
    0 <= c.row < |g| && 0 <= c.col < |g[c.row]|
  }

  function Tile(g: seq<string>, c: Coord): char
    requires InGrid(g, c)
  {
    g[c.row][c.col]
  }

  /** In a grid framed by '.', every tile other than ground has all 8
      neighbours inside the grid. */
  lemma NeighboursInGrid(g: seq<string>, c: Coord)
    requires Framed(g) && InGrid(g, c) && Tile(g, c) != '.'
    ensures forall a :: Near(a, c) ==> InGrid(g, a)
  {
    var w := |g[0]|;
    assert |g[c.row]| == w;
    forall a | Near(a, c)
      ensures InGrid(g, a)
    {
      assert |g[a.row]| == w;
    }
  }

  /** "".join(lines): the rows laid end to end. */
  function Join(g: seq<string>): string {
    if g == [] then [] else g[0] + Join(g[1..])
  }

  lemma {:induction false} JoinLength(g: seq<string>)
    requires Rectangular(g) && g != []
    ensures |Join(g)| == |g| * |g[0]|
  {
    if |g| > 1 {
      assert Rectangular(g[1..]) && |g[1..][0]| == |g[0]|;
      JoinLength(g[1..]);
      assert |g| * |g[0]| == (|g| - 1) * |g[0]| + |g[0]|;
    }
  }

  /** Character c of row r of a rectangular grid sits at r * w + c in the
      joined rows. */
  lemma {:induction false} JoinAt(g: seq<string>, r: nat, c: nat)
    requires Rectangular(g) && r < |g| && c < |g[0]|
    ensures r * |g[0]| + c < |Join(g)| && Join(g)[r * |g[0]| + c] == g[r][c]
    decreases r
  {
    var w := |g[0]|;
    MulLe(r + 1, |g|, w);
    if r > 0 {
      var rest := g[1..];
      assert Rectangular(rest) && |rest[0]| == w;
      JoinAt(rest, r - 1, c);
      assert r * w == (r - 1) * w + w;
    }
  }

  lemma {:induction false} MulLe(a: nat, b: nat, w: nat)
    requires a <= b
    ensures a * w <= b * w
    decreases b - a
  {
    if a < b {
      MulLe(a, b - 1, w);
      assert b * w == (b - 1) * w + w;
    }
  }

  /** str.index: the first position of x in s, or None where Python raises. */
  function IndexOf(s: string, x: char): (r: Option<nat>)
    ensures r.Some? ==> r.value < |s| && s[r.value] == x && forall k :: 0 <= k < r.value ==> s[k] != x
    ensures r.None? ==> forall k :: 0 <= k < |s| ==> s[k] != x
  {
    if s == [] then None
    else if s[0] == x then Some(0)
    else match IndexOf(s[1..], x)
      case None => None
      case Some(k) => Some(k + 1)
  }

  /** The start position: the first 'S' in the joined rows, turned into a
      row and a column by dividing by the width of the first row. The column
      lies within that width, and row and column together name the position
      of the first 'S' in the joined rows; None when they hold no 'S'. */
  function FindStart(g: seq<string>): (r: Option<Coord>)
    requires g != [] && |g[0]| > 0
    ensures r.Some? ==>
      (0 <= r.value.row && 0 <= r.value.col < |g[0]| &&
       var i := r.value.row * |g[0]| + r.value.col;
       i < |Join(g)| && Join(g)[i] == 'S' && forall k :: 0 <= k < i ==> Join(g)[k] != 'S')
    ensures r.None? <==> forall k :: 0 <= k < |Join(g)| ==> Join(g)[k] != 'S'
  {
    match IndexOf(Join(g), 'S')
    case None => None
    case Some(i) => DivMod(i, |g[0]|); Some(Coord(i / |g[0]|, i % |g[0]|))
  }

  /** In a rectangular grid, the position found is an 'S' and no 'S' comes
      before it in row-major order; None means there is no 'S' at all. */
  lemma StartFound(g: seq<string>)
    requires Rectangular(g) && g != [] && |g[0]| > 0
    ensures match FindStart(g)
      case Some(s) =>
        InGrid(g, s) && Tile(g, s) == 'S' &&
        forall a :: InGrid(g, a) && Before(a, s) ==> Tile(g, a) != 'S'
      case None =>
        forall a :: InGrid(g, a) ==> Tile(g, a) != 'S'
  {
    match IndexOf(Join(g), 'S')
    case None =>
      forall a | InGrid(g, a)
        ensures Tile(g, a) != 'S'
      {
        JoinAt(g, a.row, a.col);
      }
    case Some(i) =>
      FirstS(g, i);
  }

  lemma FirstS(g: seq<string>, i: nat)
    requires Rectangular(g) && g != [] && |g[0]| > 0
    requires IndexOf(Join(g), 'S') == Some(i)
    ensures var s := Coord(i / |g[0]|, i % |g[0]|);
      InGrid(g, s) && Tile(g, s) == 'S' &&
      forall a :: InGrid(g, a) && Before(a, s) ==> Tile(g, a) != 'S'
  {
    var w := |g[0]|;
    var s := Coord(i / w, i % w);
    JoinIndex(g, i);
    DivMod(i, w);
    var joined := Join(g);
    assert forall k :: 0 <= k < i ==> joined[k] != 'S';
    forall a | InGrid(g, a) && Before(a, s)
      ensures Tile(g, a) != 'S'
    {
      assert |g[a.row]| == w;
      var k := a.row * w + a.col;
      JoinAt(g, a.row, a.col);
      EarlierIndex(a.row, a.col, s.row, s.col, w);
      assert k < i && joined[k] == Tile(g, a);
    }
  }

  /** Joined index i of a rectangular grid is column i % w of row i / w. */
  lemma JoinIndex(g: seq<string>, i: nat)
    requires Rectangular(g) && g != [] && |g[0]| > 0 && i < |Join(g)|
    ensures i / |g[0]| < |g| && Join(g)[i] == g[i / |g[0]|][i % |g[0]|]
  {
    var w := |g[0]|;
    DivMod(i, w);
    JoinLength(g);
    var r, c := i / w, i % w;
    assert i < |g| * w;
    if r >= |g| {
      MulLe(|g|, r, w);
    }
    JoinAt(g, r, c);
  }

  lemma DivMod(i: nat, w: nat)
    requires w > 0
    ensures i == (i / w) * w + i % w && 0 <= i / w && 0 <= i % w < w
  {
  }

  /** Row-major order agrees with the order of joined indices. */
  lemma EarlierIndex(r1: nat, c1: nat, r2: nat, c2: nat, w: nat)
    requires c1 < w && c2 < w
    requires r1 < r2 || (r1 == r2 && c1 < c2)
    ensures r1 * w + c1 < r2 * w + c2
  {
    if r1 < r2 {
      MulLe(r1 + 1, r2, w);
      assert r1 * w + c1 < (r1 + 1) * w;
    }
  }

  // ---------------------------------------------------------------------
  // Resolving the start

  /** Tile a, read from the grid, has an opening that leads to s. */
  predicate Claims(g: seq<string>, a: Coord, s: Coord)
    requires InGrid(g, a)
  {
    match Directions(Tile(g, a))
    case None => false
    case Some((d1, d2)) => Plus(a, d1) == s || Plus(a, d2) == s
  }

  /** Claims is the membership test of the source. */
  lemma ClaimsConnected(g: seq<string>, a: Coord, s: Coord)
    requires InGrid(g, a)
    ensures Claims(g, a, s) <==> s in Connected(a, Tile(g, a))
  {
  }

  /** The search for the first neighbour: the index, from k on, of the first
      position in Adjacent(s) that claims s. */
  function FirstClaimant(g: seq<string>, s: Coord, k: nat): (r: Option<nat>)
    requires forall a :: Near(a, s) ==> InGrid(g, a)
    requires k <= 8
    ensures r.Some? ==> k <= r.value < 8
    decreases 8 - k
  {
    if k == 8 then None
    else if Claims(g, Adjacent(s)[k], s) then Some(k)
    else FirstClaimant(g, s, k + 1)
  }

  /** The search finds the first neighbour, from k on, that claims s, and
      finds none only when no neighbour from k on claims s. */
  lemma {:induction false} FirstClaimantSpec(g: seq<string>, s: Coord, k: nat)
    requires forall a :: Near(a, s) ==> InGrid(g, a)
    requires k <= 8
    ensures var r := FirstClaimant(g, s, k);
      (r.Some? ==> Claims(g, Adjacent(s)[r.value], s) &&
                   forall m :: k <= m < r.value ==> !Claims(g, Adjacent(s)[m], s)) &&
      (r.None? ==> forall m :: k <= m < 8 ==> !Claims(g, Adjacent(s)[m], s))
    decreases 8 - k
  {
    if k < 8 && !Claims(g, Adjacent(s)[k], s) {
      FirstClaimantSpec(g, s, k + 1);
      assert FirstClaimant(g, s, k) == FirstClaimant(g, s, k + 1);
    }
  }

  /** A neighbour that claims s is one orthogonal step away from it, so none
      of the four diagonal neighbours is ever chosen. */
  lemma {:induction false} ClaimantIsOrthogonal(g: seq<string>, s: Coord)
    requires forall a :: Near(a, s) ==> InGrid(g, a)
    ensures match FirstClaimant(g, s, 0)
      case Some(k) => IsUnitStep(Coord(Adjacent(s)[k].row - s.row, Adjacent(s)[k].col - s.col))
      case None => true
  {
    FirstClaimantSpec(g, s, 0);
    match FirstClaimant(g, s, 0)
    case None =>
    case Some(k) =>
      var a := Adjacent(s)[k];
      assert s in Connected(a, Tile(g, a));
  }

  // ---------------------------------------------------------------------
  // The walk

  /** The inner search of each walk step: the first of cs that is not last. */
  function FirstOther(cs: seq<Coord>, last: Coord): Option<Coord> {
    if cs == [] then None
    else if cs[0] != last then Some(cs[0])
    else FirstOther(cs[1..], last)
  }

  /** The search finds nothing exactly when every element is last, and what
      it finds is an element other than last. */
  lemma {:induction false} FirstOtherSpec(cs: seq<Coord>, last: Coord)
    ensures FirstOther(cs, last).None? <==> forall k :: 0 <= k < |cs| ==> cs[k] == last
    ensures FirstOther(cs, last).Some? ==> FirstOther(cs, last).value in cs && FirstOther(cs, last).value != last
  {
    if cs != [] && cs[0] == last {
      FirstOtherSpec(cs[1..], last);
      assert forall k :: 1 <= k < |cs| ==> cs[k] == cs[1..][k - 1];
    }
  }

  /** The element found is the first one that differs from last. */
  lemma {:induction false} FirstOtherIsFirst(cs: seq<Coord>, last: Coord, k: nat)
    requires k < |cs| && cs[k] != last && forall m :: 0 <= m < k ==> cs[m] == last
    ensures FirstOther(cs, last) == Some(cs[k])
  {
    if k > 0 {
      FirstOtherIsFirst(cs[1..], last, k - 1);
    }
  }

  /** One step of the walk from cur, having arrived from last: the first
      opening of the tile that does not lead back to last. */
  function Next(g: seq<string>, last: Coord, cur: Coord): Option<Coord>
    requires InGrid(g, cur)
  {
    match Directions(Tile(g, cur))
    case None => None
    case Some((a, b)) =>
      if Plus(cur, a) != last then Some(Plus(cur, a))
      else if Plus(cur, b) != last then Some(Plus(cur, b))
      else None
  }

  /** The step is the inner search of the source run over the connected
      coordinates of the tile. */
  lemma NextIsFirstOther(g: seq<string>, last: Coord, cur: Coord)
    requires InGrid(g, cur)
    ensures Next(g, last, cur) == FirstOther(Connected(cur, Tile(g, cur)), last)
  {
    var cs := Connected(cur, Tile(g, cur));
    if cs != [] {
      assert cs[1..][1..] == [];
    }
  }

  /** Each step is forced: on a pipe reached through one of its openings there
      is exactly one way on, the other opening. */
  lemma StepIsForced(g: seq<string>, last: Coord, cur: Coord)
    requires InGrid(g, cur) && IsPipe(Tile(g, cur)) && last in Connected(cur, Tile(g, cur))
    ensures Next(g, last, cur).Some?
    ensures multiset(Connected(cur, Tile(g, cur))) == multiset{last, Next(g, last, cur).value}
  {
  }

  /** The number of steps a walk takes to reach a position where stop holds,
      each step going from cur, having arrived from last, to step(last, cur);
      None when a step is missing or fuel steps do not suffice. */
  function Trace(step: (Coord, Coord) -> Option<Coord>, stop: Coord -> bool,
                 last: Coord, cur: Coord, fuel: nat): (r: Option<nat>)
    ensures r.Some? ==> r.value <= fuel
    decreases fuel
  {
    if stop(cur) then Some(0)
    else if fuel == 0 || step(last, cur).None? then None
    else
      var rest := Trace(step, stop, cur, step(last, cur).value, fuel - 1);
      if rest.None? then None else Some(rest.value + 1)
  }

  /** A walk that has not stopped yet goes one step and finishes from there
      in one step less. */
  lemma TraceStep(step: (Coord, Coord) -> Option<Coord>, stop: Coord -> bool,
                  last: Coord, cur: Coord, fuel: nat)
    requires !stop(cur) && Trace(step, stop, last, cur, fuel).Some?
    ensures fuel > 0 && step(last, cur).Some?
    ensures var rest := Trace(step, stop, cur, step(last, cur).value, fuel - 1);
      rest.Some? && Trace(step, stop, last, cur, fuel) == Some(rest.value + 1)
  {
  }

  /** The step count does not depend on the fuel, once it is enough. */
  lemma {:induction false} TraceFuel(step: (Coord, Coord) -> Option<Coord>, stop: Coord -> bool,
                                     last: Coord, cur: Coord, f1: nat, f2: nat)
    requires Trace(step, stop, last, cur, f1).Some? && f1 <= f2
    ensures Trace(step, stop, last, cur, f2) == Trace(step, stop, last, cur, f1)
    decreases f1
  {
    if !stop(cur) {
      TraceStep(step, stop, last, cur, f1);
      TraceFuel(step, stop, cur, step(last, cur).value, f1 - 1, f2 - 1);
    }
  }

  /** One step of the walk inside the grid g: the way on, when there is one
      and it stays inside the grid. */
  function GridStep(g: seq<string>, last: Coord, cur: Coord): (r: Option<Coord>)
    ensures r.Some? ==> InGrid(g, cur) && InGrid(g, r.value) && r == Next(g, last, cur)
  {
    if !InGrid(g, cur) then None
    else match Next(g, last, cur)
      case Some(n) => if InGrid(g, n) then Some(n) else None
      case None => None
  }

  /** The walk stops on an 'S' tile. */
  predicate AtStart(g: seq<string>, c: Coord) {
    InGrid(g, c) && Tile(g, c) == 'S'
  }

  /** The number of steps the walk from cur (having arrived from last) takes
      to stand on an 'S' tile, if it gets there within fuel steps: at most
      fuel, and none exactly when it already stands on one. */
  function Walk(g: seq<string>, last: Coord, cur: Coord, fuel: nat): (r: Option<nat>)
    ensures r.Some? ==> r.value <= fuel
    ensures r == Some(0) <==> AtStart(g, cur)
    decreases fuel
  {
    if AtStart(g, cur) then Some(0)
    else if fuel == 0 || GridStep(g, last, cur).None? then None
    else
      var rest := Walk(g, cur, GridStep(g, last, cur).value, fuel - 1);
      if rest.None? then None else Some(rest.value + 1)
  }

  /** Walk is the walk of Trace whose step is GridStep and which stops on 'S'. */
  lemma {:induction false} WalkIsTrace(g: seq<string>, last: Coord, cur: Coord, fuel: nat)
    ensures Walk(g, last, cur, fuel) == Trace((l, c) => GridStep(g, l, c), c => AtStart(g, c), last, cur, fuel)
    decreases fuel
  {
    if !AtStart(g, cur) && fuel > 0 && GridStep(g, last, cur).Some? {
      WalkIsTrace(g, cur, GridStep(g, last, cur).value, fuel - 1);
    }
  }

  /** In a framed grid the walk never leaves the grid: the way on from any
      tile is one of its neighbours, so the out-of-grid case of GridStep
      never happens. */
  lemma NextInside(g: seq<string>, last: Coord, cur: Coord)
    requires Framed(g) && InGrid(g, cur) && Next(g, last, cur).Some?
    ensures InGrid(g, Next(g, last, cur).value)
    ensures GridStep(g, last, cur) == Next(g, last, cur)
  {
    NeighboursInGrid(g, cur);
  }

  /** The walk takes no step exactly when it already stands on an 'S' tile:
      it stops at the first 'S' it reaches. */
  lemma WalkZero(g: seq<string>, last: Coord, cur: Coord, fuel: nat)
    requires InGrid(g, cur)
    ensures Walk(g, last, cur, fuel) == Some(0) <==> Tile(g, cur) == 'S'
  {
  }

  /** The step count does not depend on the fuel, once it is enough. */
  lemma WalkFuel(g: seq<string>, last: Coord, cur: Coord, f1: nat, f2: nat)
    requires Walk(g, last, cur, f1).Some? && f1 <= f2
    ensures Walk(g, last, cur, f2) == Walk(g, last, cur, f1)
  {
    WalkIsTrace(g, last, cur, f1);
    WalkIsTrace(g, last, cur, f2);
    TraceFuel((l, c) => GridStep(g, l, c), c => AtStart(g, c), last, cur, f1, f2);
  }

  // ---------------------------------------------------------------------
  // part_1

  datatype Error =
    | NoStart       // str.index finds no 'S' (ValueError)
    | NoConnection  // no neighbour leads to the start (last_coord unbound)

  /** The start of a framed grid, when there is one, lies inside it together
      with all its neighbours. */
  lemma StartInside(g: seq<string>)
    requires Framed(g)
    ensures match FindStart(g)
      case Some(s) => InGrid(g, s) && Tile(g, s) == 'S' && forall a :: Near(a, s) ==> InGrid(g, a)
      case None => forall a :: InGrid(g, a) ==> Tile(g, a) != 'S'
  {
    StartFound(g);
    match FindStart(g)
    case None =>
    case Some(s) => NeighboursInGrid(g, s);
  }

  /** The walk from the first neighbour that claims s comes back to an 'S'
      tile within fuel steps (the source loops for ever when it does not). */
  predicate ClosesFrom(g: seq<string>, s: Coord, fuel: nat)
    requires forall a :: Near(a, s) ==> InGrid(g, a)
  {
    match FirstClaimant(g, s, 0)
    case None => true
    case Some(k) => Walk(g, s, Adjacent(s)[k], fuel).Some?
  }

  /** The answer of part_1 once the start s is known: half the number of
      steps around the loop, the initial step from the start counted as the
      first. When no neighbour claims the start the source only survives if
      the last neighbour it looked at, the bottom-right one, is itself an 'S';
      it then answers 0. */
  function FromStart(g: seq<string>, s: Coord, fuel: nat): Result<nat, Error>
    requires (forall a :: Near(a, s) ==> InGrid(g, a)) && ClosesFrom(g, s, fuel)
  {
    match FirstClaimant(g, s, 0)
    case None => if Tile(g, Adjacent(s)[7]) == 'S' then Ok(0) else Err(NoConnection)
    case Some(k) => Ok((Walk(g, s, Adjacent(s)[k], fuel).value + 1) / 2)
  }

  /** The loop from the start found in a framed grid closes within fuel steps. */
  predicate Closes(g: seq<string>, fuel: nat)
    requires Framed(g)
  {
    StartInside(g);
    match FindStart(g)
    case None => true
    case Some(s) => ClosesFrom(g, s, fuel)
  }

  /** The answer of part_1 on a framed grid. */
  function Farthest(g: seq<string>, fuel: nat): Result<nat, Error>
    requires Framed(g) && Closes(g, fuel)
  {
    StartInside(g);
    match FindStart(g)
    case None => Err(NoStart)
    case Some(s) => FromStart(g, s, fuel)
  }

  /** Closes, for the padded lines. */
  predicate LoopCloses(lines: seq<string>, fuel: nat)
    requires |lines| > 0 && SameWidth(lines)
  {
    PadFramed(lines);
    Closes(Pad(lines), fuel)
  }

  /** Farthest, for the padded lines. */
  function MaxDistance(lines: seq<string>, fuel: nat): Result<nat, Error>
    requires |lines| > 0 && SameWidth(lines) && LoopCloses(lines, fuel)
  {
    PadFramed(lines);
    Farthest(Pad(lines), fuel)
  }

  /** The search of part_1 for the first neighbour of s whose connected
      coordinates contain s. */
  method SearchStart(g: seq<string>, s: Coord) returns (k: Option<nat>)
    requires forall a :: Near(a, s) ==> InGrid(g, a)
    ensures k == FirstClaimant(g, s, 0)
  {
    var adjacent := Adjacent(s);
    var i := 0;
    while i < 8
      invariant 0 <= i <= 8
      invariant FirstClaimant(g, s, 0) == FirstClaimant(g, s, i)
    {
      var node := adjacent[i];
      ClaimsConnected(g, node, s);
      if s in Connected(node, Tile(g, node)) {
        return Some(i);
      }
      i := i + 1;
    }
    return None;
  }

  /** The inner search of each walk step: the first connected coordinate that
      is not the one just left. */
  method NextCoord(connected: seq<Coord>, last: Coord) returns (next: Option<Coord>)
    ensures next == FirstOther(connected, last)
  {
    FirstOtherSpec(connected, last);
    var j := 0;
    while j < |connected|
      invariant 0 <= j <= |connected|
      invariant forall m :: 0 <= m < j ==> connected[m] == last
    {
      if connected[j] != last {
        FirstOtherIsFirst(connected, last, j);
        return Some(connected[j]);
      }
      j := j + 1;
    }
    return None;
  }

  /** The walk of part_1: from the first neighbour, having left s, keep taking
      the way on until the tile is an 'S'; the count starts at 1 for the step
      out of s and grows by exactly 1 per step. */
  method TraceLoop(g: seq<string>, s: Coord, first: Coord, ghost fuel: nat) returns (distance: nat)
    requires InGrid(g, first) && Walk(g, s, first, fuel).Some?
    ensures distance == Walk(g, s, first, fuel).value + 1
  {
    var last, cur := s, first;
    distance := 1;
    ghost var togo := Walk(g, s, first, fuel).value;
    while Tile(g, cur) != 'S'
      invariant Remaining(g, last, cur, fuel, togo)
      invariant distance + togo == Walk(g, s, first, fuel).value + 1
      decreases togo
    {
      var next := StepOn(g, last, cur, fuel, togo);
      distance := distance + 1;
      last, cur := cur, next;
      togo := togo - 1;
    }
  }

  /** From cur, inside the grid, the walk reaches an 'S' in togo steps. */
  predicate Remaining(g: seq<string>, last: Coord, cur: Coord, fuel: nat, togo: nat) {
    InGrid(g, cur) && Walk(g, last, cur, fuel) == Some(togo)
  }

  /** One turn of the walk of TraceLoop: the inner search for the way on. */
  method StepOn(g: seq<string>, last: Coord, cur: Coord, ghost fuel: nat, ghost togo: nat) returns (next: Coord)
    requires Remaining(g, last, cur, fuel, togo) && Tile(g, cur) != 'S'
    ensures togo > 0 && Remaining(g, cur, next, fuel, togo - 1)
  {
    var n := NextCoord(Connected(cur, Tile(g, cur)), last);
    NextIsFirstOther(g, last, cur);
    WalkAdvance(g, last, cur, fuel, togo, n);
    next := n.value;
  }

  /** One turn of the loop of TraceLoop: the way on exists, stays in the
      grid, and is one step nearer the 'S'. */
  lemma WalkAdvance(g: seq<string>, last: Coord, cur: Coord, fuel: nat, togo: nat, next: Option<Coord>)
    requires InGrid(g, cur) && Tile(g, cur) != 'S'
    requires Walk(g, last, cur, fuel) == Some(togo)
    requires next == Next(g, last, cur)
    ensures next.Some? && InGrid(g, next.value) && togo > 0
    ensures Walk(g, cur, next.value, fuel) == Some(togo - 1)
  {
    WalkStep(g, last, cur, fuel);
    WalkFuel(g, cur, next.value, fuel - 1, fuel);
  }

  /** A walk that reaches an 'S' from a tile other than 'S' takes a step
      inside the grid and reaches the 'S' from there in one step less. */
  lemma WalkStep(g: seq<string>, last: Coord, cur: Coord, fuel: nat)
    requires !AtStart(g, cur) && Walk(g, last, cur, fuel).Some?
    ensures fuel > 0 && GridStep(g, last, cur).Some?
    ensures var rest := Walk(g, cur, GridStep(g, last, cur).value, fuel - 1);
      rest.Some? && Walk(g, last, cur, fuel) == Some(rest.value + 1)
  {
  }

  /** The body of part_1 after padding: find the start, then go round. */
  method Solve(g: seq<string>, ghost fuel: nat) returns (r: Result<nat, Error>)
    requires Framed(g) && Closes(g, fuel)
    ensures r == Farthest(g, fuel)
  {
    StartInside(g);
    var start := FindStart(g);
    if start.None? {
      return Err(NoStart);
    }
    r := SolveFrom(g, start.value, fuel);
  }

  /** part_1 from the start s on. */
  method SolveFrom(g: seq<string>, s: Coord, ghost fuel: nat) returns (r: Result<nat, Error>)
    requires (forall a :: Near(a, s) ==> InGrid(g, a)) && ClosesFrom(g, s, fuel)
    ensures r == FromStart(g, s, fuel)
  {
    var k := SearchStart(g, s);
    if k.None? {
      // the loop variable still holds the last neighbour looked at
      if Tile(g, Adjacent(s)[7]) == 'S' {
        return Ok(0);
      }
      return Err(NoConnection);
    }
    var distance := TraceLoop(g, s, Adjacent(s)[k.value], fuel);
    return Ok(distance / 2);
  }

  /** part_1 of 10.py over the lines of the sketch; fuel is a ghost bound on
      the number of steps, used only to state that the walk terminates. */
  method Part1(lines: seq<string>, ghost fuel: nat) returns (r: Result<nat, Error>)
    requires |lines| > 0 && SameWidth(lines) && LoopCloses(lines, fuel)
    ensures r == MaxDistance(lines, fuel)
  {
    var g := Pad(lines);
    PadFramed(lines);
    r := Solve(g, fuel);
  }
}
