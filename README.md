# Advent of Code 2023, days 1, 3, 10 and 11, in Dafny

This project models four puzzle solvers of the repository.

- **Pipe maze (10.py)** is the main one. `part_1` pads the sketch with `.` and finds the first `S` in row-major order. It then picks the first of the eight neighbours of `S`, in `get_adjacent` order, whose pipe connects back to `S`. From there it walks the loop, at each tile taking the first connected coordinate that is not the tile it came from. It counts steps until it stands on an `S` again, and answers half the count.
- **Engine schematic (03.py)** pads the schematic the same way. `scan_schematic` collects the maximal digit runs as `Number`s and every other non-`.` character as a `Symbol`. `part_1` adds the numbers that touch a symbol, diagonals included. `part_2` adds, for every `*` touching exactly two numbers, the product of the two.
- **Cosmic expansion (11.py)** doubles every galaxy-free row, transposes the image and doubles the galaxy-free rows again. It then collects the galaxies and adds the Manhattan distances of all unordered pairs.
- **Trebuchet calibration (01.py)** combines the first and the last digit of every line into a two-digit value and sums them. `part_1` knows only decimal digits. `part_2` also reads the names `one` to `nine`, which it finds with `str.index` and `str.rindex`.

Each solver is a module. `Padding` holds the stripping and padding that 03.py and 10.py share. `Digits` holds the decimal digits that 01.py and 03.py read. `Wrappers` holds `Option` and `Result`.

The source's loops are methods with loop invariants. Each is proved equal to a recursive specification function, for example:

- `PipeMaze.Part1` equals `MaxDistance`;
- `Schematic.Part1` equals `PartSum(Numbers(lines), Symbols(lines))`;
- `Cosmic.Part1` equals `Answer`;
- `Calibration.Part2` equals `Sum2(lines, AsWrittenStart)`.

Lemmas then prove what those functions mean:

- the start is the first `S`;
- the walk is forced through every pipe;
- every found number is a maximal digit run, and every digit lies in one;
- a gear's ratio is the product of exactly its two neighbours;
- expansion keeps the galaxy rows in order;
- transposition is an involution;
- the first and last digits are the extreme ones.

The `*Example` modules work each solver through the examples in its docstring.

The model follows the code:

- The code does not check that `S` is unique; it takes the first one.
- It does not check that exactly two neighbours claim `S`; it takes the first neighbour that does.
- It reports no broken loop. A walk that never comes back to an `S` runs for ever.
- A sketch without any claiming neighbour fails with a `NameError`. The exception is when the bottom-right neighbour is itself an `S`; then the answer is 0.

The model returns `Err(NoStart)` when the sketch has no `S`, where `str.index` raises. It returns `Err(NoConnection)` for the `NameError`. Taking the first `S` and the first claiming neighbour is behaviour, and the model does the same. A walk that never closes is not modelled: `PipeMaze.Part1` requires the walk to close within a given fuel bound.

## Model

| member | source | states |
|---|---|---|
| Padding.SkipSpaceSpec | 10.py:154 | every character skipped from position i is whitespace, and the scan stops at a non-whitespace character or the end |
| Padding.SkipSpaceBackSpec | 10.py:154 | every character skipped backwards from j is whitespace, and the scan stops after a non-whitespace character or at the lower bound |
| Padding.StripSpec | 10.py:154 | `str.strip`: the result is the slice between a whitespace-only prefix and a whitespace-only suffix, and it starts and ends with non-whitespace when non-empty |
| Padding.StripNoSpace | 03.py:90 | a line without whitespace is unchanged by stripping |
| Padding.Dots | 10.py:155 | `"." * n` has n characters, all `.` |
| Padding.PadRow | 10.py:154 | the f-string yields the stripped line with one `.` added on each side |
| Padding.Pad | 10.py:154-155 | the padded grid has two more rows; the first and last are all `.` and as wide as the first padded line; row i+1 is padded line i |
| Padding.PadFramed | 03.py:89-91 | when the stripped lines have equal width, the padded grid is rectangular with a `.` border, and its inner cells are the characters of the stripped lines |
| PipeMaze.Directions | 10.py:111-118 | a tile has connection directions exactly when it is one of the six pipes, and its two directions are distinct unit steps |
| PipeMaze.Adjacent | 10.py:126-133 | `get_adjacent` returns 8 coordinates, each within one row and one column of the centre |
| PipeMaze.AdjacentNeighbours | 10.py:126-133 | they are exactly the 8 positions around the centre, excluding the centre itself, in row-major order |
| PipeMaze.Connected | 10.py:141-146 | a pipe connects to the two distinct positions its directions point at, in the table's order, both orthogonal neighbours; `S`, `.` and any other character connect to nothing |
| PipeMaze.NeighboursInGrid | 10.py:153-155 | in a grid with a `.` border, every neighbour of a tile that is not `.` lies inside the grid |
| PipeMaze.JoinLength | 10.py:158 | joining a rectangular grid gives a string of rows × width characters |
| PipeMaze.JoinAt | 10.py:158 | cell (r, c) of a rectangular grid sits at index r·width + c of the joined string |
| PipeMaze.IndexOf | 10.py:158 | `str.index`: the position of the first occurrence, or none exactly when the character does not occur |
| PipeMaze.JoinIndex | 10.py:159 | index i of the joined string is cell (i // width, i % width) |
| PipeMaze.FindStart | 10.py:158-159 | the start's column lies within the first row's width, and row·width + column is the first `S` of the joined rows; none exactly when the joined rows hold no `S` |
| PipeMaze.FirstS | 10.py:158-159 | the first `S` of the joined string, divided and reduced by the width, is an `S` with no `S` before it in row-major order |
| PipeMaze.StartFound | 10.py:157-159 | the start found is the row-major first `S` of a rectangular grid; none is found exactly when the grid holds no `S` |
| PipeMaze.StartInside | 10.py:153-159 | in a padded grid the start and all eight of its neighbours lie inside the grid |
| PipeMaze.ClaimsConnected | 10.py:163-164 | a neighbour claims the start exactly when the start is among its connected coordinates |
| PipeMaze.FirstClaimantSpec | 10.py:162-166 | the chosen neighbour is the first in `get_adjacent` order that claims the start; none means no neighbour claims it |
| PipeMaze.ClaimantIsOrthogonal | 10.py:162-166 | the chosen neighbour is never diagonal to the start |
| PipeMaze.SearchStart | 10.py:162-166 | the search loop returns the first claiming neighbour, or none |
| PipeMaze.FirstOtherSpec | 10.py:172-175 | no coordinate is found exactly when all connected coordinates equal the one just left; otherwise the found one is connected and differs from it |
| PipeMaze.FirstOtherIsFirst | 10.py:172-175 | the found coordinate is the first that differs from the one just left |
| PipeMaze.NextCoord | 10.py:172-175 | the inner loop computes that first different coordinate |
| PipeMaze.NextIsFirstOther | 10.py:170-180 | the next position of the walk is the first connected coordinate of the current tile other than the previous position |
| PipeMaze.StepIsForced | 10.py:170-180 | entering a pipe through one end, the walk leaves through the other: the pipe's connections are exactly the previous and the next position |
| PipeMaze.Trace | 10.py:169-180 | a walk that stops within the fuel counts no more steps than the fuel |
| PipeMaze.TraceStep | 10.py:169-180 | a walk not yet at a stop tile takes one step and counts one more than the walk from the next position |
| PipeMaze.TraceFuel | 10.py:169-180 | more fuel does not change the count of a walk that already stops |
| PipeMaze.GridStep | 10.py:180 | a step the walk takes stays inside the grid and goes to the next position |
| PipeMaze.Walk | 10.py:169-180 | the walk over the grid counts at most fuel steps, and 0 exactly when it stands on an `S` |
| PipeMaze.WalkIsTrace | 10.py:169-180 | the walk over the grid is the generic trace with that step and `S` as the stop |
| PipeMaze.NextInside | 10.py:180 | in a padded grid the next position is always inside the grid, so the source's indexing never fails |
| PipeMaze.WalkZero | 10.py:170 | the walk counts 0 steps exactly when it stands on an `S` |
| PipeMaze.WalkFuel | 10.py:169-180 | the count of a closed walk does not depend on extra fuel |
| PipeMaze.WalkAdvance | 10.py:171-180 | from a tile that is not `S`, the next position exists and its walk is one step shorter |
| PipeMaze.WalkStep | 10.py:169-180 | the walk from a tile that is not `S` is the walk from the next position plus one |
| PipeMaze.StepOn | 10.py:171-180 | one iteration of the while loop moves to the next position, with one step fewer to go |
| PipeMaze.TraceLoop | 10.py:169-180 | the loop ends with a distance of the walk's step count plus one, the first step from `S` included |
| PipeMaze.SolveFrom | 10.py:161-183 | from a known start: half the loop length; or 0 when no neighbour claims the start but the last one looked at is an `S`; or the no-connection error |
| PipeMaze.Solve | 10.py:157-183 | on a padded grid: the no-start error without an `S`, otherwise the answer from the first `S` |
| PipeMaze.Part1 | 10.py:149-183 | `part_1` on the lines of a sketch |
| PipeMazeExample.Part1Square | 10.py:71-87 | on the square loop, the farthest tile is 4 steps away |
| PipeMazeExample.Part1Complex | 10.py:89-103 | on the more complex loop, the farthest tile is 8 steps away |
| Calibration.FirstDigitFrom | 01.py:56-61 | the digit found lies at or after the start position |
| Calibration.FirstDigitSpec | 01.py:56-61 | it is the first digit from there; none means no digit from there |
| Calibration.LastDigitBefore | 01.py:63-68 | the digit found in the reversed scan lies before the end bound |
| Calibration.LastDigitSpec | 01.py:63-68 | it is the last digit before the bound; none means no digit before it |
| Calibration.Value1 | 01.py:54-68 | a line's part one value is at most 99 |
| Calibration.Value1Bound | 01.py:54-68 | a line is worth at most 99, and 0 when it has no digit |
| Calibration.Value1At | 01.py:54-68 | a line whose first digit is at i and last at j is worth 10·line[i] + line[j] |
| Calibration.LoneDigit | 01.py:54-68 | a line with a single digit d is worth 11·d |
| Calibration.Sum1Bound | 01.py:52-70 | the total is at most 99 per line |
| Calibration.Part1 | 01.py:48-70 | the loop adds up the value of every line |
| Calibration.Part1Example | 01.py:18-25 | the four example lines total 142 |
| Calibration.FindFrom | 01.py:121 | an occurrence found from i starts at or after i and fits in the line |
| Calibration.FindFromSpec | 01.py:121 | `str.index`: the first occurrence of the name; none means the name does not occur |
| Calibration.FindBefore | 01.py:127 | an occurrence found before j starts before j |
| Calibration.FindBeforeSpec | 01.py:127 | `str.rindex`: the last occurrence; none means the name does not occur |
| Calibration.IndexRIndex | 01.py:119-127 | `index` finds the name exactly when `rindex` does, and never after it |
| Calibration.NameLength | 01.py:73-83 | every digit name has 3 to 5 letters |
| Calibration.NamesApart | 01.py:73-83 | a name never starts on a decimal digit, and two different names never start at the same position |
| Calibration.SpelledAt | 01.py:118-130 | the name found at a position is one of those not yet tried |
| Calibration.SpelledAtSpec | 01.py:118-130 | that name occurs at the position; none means no remaining name does |
| Calibration.DigitAtName | 01.py:118-130 | where a name occurs, the line holds that name's value |
| Calibration.NothingSpelled | 01.py:91-130 | a position with neither a decimal digit nor a name holds no digit |
| Calibration.FirstStepSeen | 01.py:118-125 | after each name the first candidate is the earliest digit among the decimal ones and the names tried so far |
| Calibration.FirstFoldSeen | 01.py:118-125 | after all nine names it is the earliest digit of any kind |
| Calibration.LastStepSeen | 01.py:126-130 | after each name the last candidate is the latest digit among the decimal ones and the names tried so far |
| Calibration.LastFoldSeen | 01.py:126-130 | after all nine names it is the latest digit of any kind, and none only when the line has no decimal digit |
| Calibration.FirstOfSpec | 01.py:91-125 | the first digit, decimal or spelled, of the line; none exactly when the line has none |
| Calibration.LastOfSpec | 01.py:105-130 | with the initial position corrected to -1: the last digit of the line; none exactly when the line has none |
| Calibration.LastFoldMoves | 01.py:126-130 | the name updates only move the last candidate to a later position, and to one with a value |
| Calibration.CandidatesAreDigits | 01.py:91-130 | for either initial position, a first or last candidate with a value holds what its position reads as |
| Calibration.LastOfAsWritten | 01.py:105-130 | with the initial position 0 as written: a last digit found is the corrected one; none is found exactly when the line has no decimal digit and nothing after position 0 reads as a digit |
| Calibration.LastAtAsWritten | 01.py:105-130 | as written, the last digit is the one at the line's last digit position, unless that is a name at position 0 |
| Calibration.LoneNameAtStart | 01.py:106 | the line `one` gets no last digit and no value as written; once corrected it is worth 11 |
| Calibration.FirstAt | 01.py:91-125 | the first digit of a line is the one at its first digit position |
| Calibration.LastAt | 01.py:105-130 | with the corrected start, the last digit of a line is the one at its last digit position |
| Calibration.Value2 | 01.py:89-132 | a line's part two value, when it has one, is at most 99 |
| Calibration.Value2NoneAsWritten | 01.py:106-132 | as written, a line has no value exactly when it holds no decimal digit and nothing after position 0 reads as a digit (the source then fails on `None * 10` or `+ None`) |
| Calibration.Value2Agree | 01.py:106-132 | a value found as written is the corrected value |
| Calibration.Value2None | 01.py:132 | with the corrected start, a line has no value exactly when it holds no digit of either kind |
| Calibration.Value2At | 01.py:89-132 | with the corrected start, a line whose first digit is at i and last at j is worth 10 times the first plus the last |
| Calibration.Value2AtAsWritten | 01.py:89-132 | as written, the same holds unless the last digit is a name at position 0 |
| Calibration.ScanFirst | 01.py:91-102 | the loop finds the first decimal digit, or keeps position `len(line)` and no value |
| Calibration.ScanLast | 01.py:105-116 | the reversed loop finds the last decimal digit, or keeps the given initial position and no value |
| Calibration.LineValue2 | 01.py:89-132 | the loop body computes the value of one line, for the given initial position of the last candidate |
| Calibration.AddLine | 01.py:132 | adding one line's value extends the running total by that value, or fails |
| Calibration.TotalAppend | 01.py:132 | the total of one more value is the old total plus it, or nothing when either is missing |
| Calibration.TotalStaysFailed | 01.py:132 | once a line has no value the whole sum fails, as the exception ends `part_2` |
| Calibration.TotalAgree | 01.py:132 | a total of values that agree wherever the first has one is the same total, when the first succeeds |
| Calibration.Sum2Agree | 01.py:88-134 | a sum that succeeds as written is the corrected sum |
| Calibration.SumLines | 01.py:88-134 | the loop adds up the value of every line, for the given initial position |
| Calibration.Part2 | 01.py:72-134 | `part_2` as written, with the last candidate starting at position 0 |
| Calibration.Part2Corrected | 01.py:72-134 | `part_2` with the last candidate starting at position -1 |
| CalibrationExample.Part2Example | 01.py:33-43 | the seven example lines of part two total 281, both as written and corrected |
| Schematic.IsAdjacent | 03.py:78-82 | `is_adjacent`: the symbol lies in the box around the number exactly when it touches the number's cell nearest to it |
| Schematic.AdjacentIffTouches | 03.py:78-82 | a number is adjacent to a symbol exactly when one of its digits is in the symbol's cell or one of the eight around it |
| Schematic.RunEnd | 03.py:101-113 | a digit run ends at or after its start and within the row |
| Schematic.RunEndSpec | 03.py:101-113 | it covers only digits and stops at a non-digit or the end of the row |
| Schematic.RunEndAt | 03.py:101-113 | a run of digits ending before a non-digit ends there |
| Schematic.RunsSpec | 03.py:100-113 | every number found in a row is a maximal digit run with its decimal value, its first and last column and its row, in left-to-right order |
| Schematic.RunsCover | 03.py:100-113 | every digit of the row lies inside one of the numbers found |
| Schematic.SymbolsSpec | 03.py:114-115 | the symbols of a row are exactly its characters that are neither a digit nor `.`, with their positions, in left-to-right order |
| Schematic.CloseRun | 03.py:104-113 | a run closed at a non-digit is the first number from its start |
| Schematic.ScanChar | 03.py:101-115 | each character extends the numbers and symbols found so far consistently with the row's runs and symbols |
| Schematic.ScanRow | 03.py:100-115 | scanning a `.`-bordered row yields its digit runs and its symbols |
| Schematic.NumbersAboveSpec | 03.py:96-117 | the numbers of the inner rows are maximal runs of their rows, in row-major order |
| Schematic.NumbersAboveCover | 03.py:96-117 | every digit of an inner row lies in one of them |
| Schematic.SymbolsAboveSpec | 03.py:96-117 | the symbols are exactly the inner rows' characters that are neither digits nor `.`, in row-major order |
| Schematic.PadRows | 03.py:89-91 | every padded row begins and ends with `.` |
| Schematic.ScanRows | 03.py:96-117 | the row loop, skipping the border rows, collects the numbers and symbols of the inner rows |
| Schematic.ScanSchematic | 03.py:85-117 | `scan_schematic` on the lines |
| Schematic.AnyAdjacent | 03.py:126-129 | the inner loop tells whether some symbol touches the number |
| Schematic.PartSumSnoc | 03.py:124-129 | each number adds its value exactly when a symbol touches it |
| Schematic.PartSumBounds | 03.py:120-131 | the part sum is at most the sum of all numbers; it is all of it when every number is a part, and 0 when none is |
| Schematic.Part1 | 03.py:120-131 | `part_1` adds the values of the numbers touching a symbol |
| Schematic.StarsSpec | 03.py:138 | the stars are exactly the `*` symbols |
| Schematic.NoneAdjacent | 03.py:140-148 | a star touching no number has count 0 and product 1 |
| Schematic.OneAdjacent | 03.py:140-148 | a star touching one number has count 1 and that number as product |
| Schematic.ZeroAdjacent | 03.py:140-148 | a count of 0 means no number touches the star |
| Schematic.OnlyAdjacent | 03.py:140-148 | a count of 1 names the single number touching the star |
| Schematic.GearRatio | 03.py:140-148 | a count of 2 names the two numbers touching the star, and the ratio is their product |
| Schematic.StarRatio | 03.py:141-146 | the inner loop computes the star's product and count |
| Schematic.Part2 | 03.py:134-150 | `part_2` adds the ratio of every star touching exactly two numbers |
| SchematicExample.ExampleNotPart114 | 03.py:29 | 114 touches no symbol |
| SchematicExample.ExampleNotPart58 | 03.py:29 | 58 touches no symbol |
| SchematicExample.Part1Example | 03.py:29 | the example's part numbers total 4361 |
| SchematicExample.Part2Example | 03.py:58 | the example's gear ratios total 467835 |
| Cosmic.Distance | 11.py:108-109 | the Manhattan distance is 0 exactly between equal positions |
| Cosmic.DistanceMetric | 11.py:108-109 | the distance is symmetric and obeys the triangle inequality |
| Cosmic.DistanceSwap | 11.py:108-109 | swapping row and column of both galaxies keeps their distance |
| Cosmic.Expanded | 11.py:112-119 | expansion keeps exactly the lines it was given, and at least as many and at most twice as many of them |
| Cosmic.ExpandedLength | 11.py:112-119 | expansion adds one line per galaxy-free line |
| Cosmic.ExpandedAt | 11.py:112-119 | every line reappears, in order, at its own position shifted by the earlier galaxy-free lines, and twice when it has no galaxy |
| Cosmic.ExpandedKeeps | 11.py:112-119 | expansion adds no new lines and keeps the lines with galaxies exactly, in order |
| Cosmic.ExpandVertical | 11.py:112-119 | the loop computes the expansion |
| Cosmic.MinLenSpec | 11.py:124 | `zip` stops at the shortest line |
| Cosmic.Transpose | 11.py:122-124 | the transpose has as many lines as the shortest line is long, each as long as the number of lines, and its cell (i, j) is cell (j, i) of the image |
| Cosmic.TransposeCells | 11.py:122-124 | in particular an h by w image becomes a w by h one |
| Cosmic.TransposeTwice | 11.py:122-124 | transposing a rectangular image twice gives it back |
| Cosmic.RowGalaxiesSpec | 11.py:141-143 | the galaxies of a line are exactly its `#` cells, left to right |
| Cosmic.GalaxiesSpec | 11.py:139-143 | the galaxies of an image are exactly its `#` cells, in row-major order |
| Cosmic.CollectGalaxies | 11.py:139-143 | the nested loop collects those galaxies |
| Cosmic.PairSumHalf | 11.py:146-149 | the sum over pairs i < j is half the sum over all ordered pairs: each unordered pair counts once |
| Cosmic.DistSumSwap | 11.py:134 | the distances from a galaxy do not change when every position is transposed |
| Cosmic.PairSumSwap | 11.py:134 | neither does the pair sum, which is why the image need not be transposed back |
| Cosmic.SumDistances | 11.py:146-149 | the double loop adds the distance of every unordered pair |
| Cosmic.Part1 | 11.py:127-151 | `part_1`: expand, transpose, expand again, collect the galaxies, add the pair distances |
| CosmicExample.SamplePaths | 11.py:89-93 | the three sample shortest paths are 15, 17 and 5 |
| CosmicExample.Part1Example | 11.py:95 | the pair distances of the example total 374 |

## Left out

- 06.py is not part of this model.
- Reading the input file is left out; every solver takes the file's lines as a sequence of strings. The lines are modelled without their line terminators. 03.py and 10.py strip terminators anyway. In 01.py a terminator is neither a digit nor part of a name. In 11.py a terminator column would only add a galaxy-free line after transposition.
- The `print` calls and the `__main__` blocks are left out. Their example inputs live in files outside the source, so only the docstring examples are worked through.
- Padding.IsSpace: covers `str.isspace` on the ASCII range only. Wider Unicode whitespace is not modelled.
- Digits.IsDigit: covers `int(c)` on ASCII `0` to `9` only. Other Unicode decimal digits, which Python's `int` also accepts, are not modelled.
- Padding.Pad: requires at least one line. On an empty file the source fails at `lines[0]`.
- PipeMaze.Part1: requires the stripped lines to have equal width. The row-major position that `str.index` gives on the joined string is only meaningful for a rectangular grid.
- PipeMaze.Part1: takes a ghost fuel bound and requires the walk to close within it. A walk that never comes back to an `S` makes the source loop for ever, which is not modelled.
- PipeMaze.NextCoord: when every connected coordinate equals the previous one, the source keeps a stale `next_coord` or fails with `NameError`. The model returns none. The walk stops there, which the closing requirement excludes.
- Schematic.ScanRow: requires the row to begin and end with `.`. Padding guarantees this, and it keeps Python's falsy `digit_start == 0` out of reach.
- Cosmic.Part1: the galaxies stay in the transposed, expanded image, as in the source. Only `PairSum(SwapAll(gs)) == PairSum(gs)` is proved. The galaxies of the transposed image are a reordering of the swapped galaxies of the untransposed one; that relation, and that the pair sum ignores the order of the galaxies, are not proved.
- CosmicExample.Part1Example: the 36 pairs of the example are not stated separately.
- Calibration.LastAt: stated for the corrected start only. Calibration.LastAtAsWritten states it for the start as written.
- Calibration.Value2None: stated for the corrected start only. Calibration.Value2NoneAsWritten states it for the start as written.
- Calibration.Value2At: stated for the corrected start only. Calibration.Value2AtAsWritten states it for the start as written.
- The example lemmas of CalibrationExample state the example lines through character-wise preconditions (`Spells`) instead of string literals. They still fix the characters of each line exactly.

## Findings

| source | as written | input that shows it | evidently intended | confidence | as-written member | corrected member |
|---|---|---|---|---|---|---|
| 01.py:106 | the last-digit candidate starts at position 0 and a name replaces it only at a strictly greater position | the line `one` (no decimal digit, a name at position 0): no last digit is found and `part_2` fails on `None` | the last digit of a line with a spelled name at position 0 is that name, so `one` is worth 11 | not executed | Calibration.LoneNameAtStart | Calibration.LastOfSpec |
