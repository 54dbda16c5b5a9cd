/**
 * The border padding that the pipe maze (10.py) and the engine schematic
 * scanner (03.py) both apply to their input before scanning it: every line is
 * stripped of surrounding whitespace and wrapped in one '.' on each side, and
 * an all-'.' row as wide as the first padded row is added above and below.
 */
module Padding {

  /** Python's str.isspace() on the ASCII range: space, \t \n \v \f \r and the
      separators \x1c to \x1f. */
  predicate IsSpace(c: char) {
    c == ' ' || 9 <= c as int <= 13 || 28 <= c as int <= 31
  }

  /** The first position at or after i that does not hold whitespace. */
  function SkipSpace(s: string, i: nat): (j: nat)
    requires i <= |s|
    ensures i <= j <= |s|
    decreases |s| - i
  {
    if i < |s| && IsSpace(s[i]) then SkipSpace(s, i + 1) else i
  }

  /** Going back from j, but not past lo, the first end that does not follow
      whitespace. */
  function SkipSpaceBack(s: string, lo: nat, j: nat): (i: nat)
    requires lo <= j <= |s|
    ensures lo <= i <= j
    decreases j
  {
    if lo < j && IsSpace(s[j - 1]) then SkipSpaceBack(s, lo, j - 1) else j
  }

  /** Where the stripped text starts and ends in s. */
  function StripStart(s: string): nat {
    SkipSpace(s, 0)
  }

  function StripEnd(s: string): (hi: nat)
    ensures StripStart(s) <= hi <= |s|
  {
    SkipSpaceBack(s, StripStart(s), |s|)
  }

  /** str.strip(). */
  function Strip(s: string): string {
    s[StripStart(s)..StripEnd(s)]
  }

  lemma {:induction false} SkipSpaceSpec(s: string, i: nat)
    requires i <= |s|
    ensures var j := SkipSpace(s, i);
      (forall k :: i <= k < j ==> IsSpace(s[k])) && (j < |s| ==> !IsSpace(s[j]))
    decreases |s| - i
  {
    if i < |s| && IsSpace(s[i]) {
      SkipSpaceSpec(s, i + 1);
    }
  }

  lemma {:induction false} SkipSpaceBackSpec(s: string, lo: nat, j: nat)
    requires lo <= j <= |s|
    ensures var i := SkipSpaceBack(s, lo, j);
      (forall k :: i <= k < j ==> IsSpace(s[k])) && (lo < i ==> !IsSpace(s[i - 1]))
    decreases j
  {
    if lo < j && IsSpace(s[j - 1]) {
      SkipSpaceBackSpec(s, lo, j - 1);
    }
  }

  /** Strip cuts a slice out of s: only whitespace is dropped, from both ends,
      and none is left at either end of the result. */
  lemma StripSpec(s: string)
    ensures var lo, hi := StripStart(s), StripEnd(s);
      Strip(s) == s[lo..hi] &&
      (forall k :: 0 <= k < lo ==> IsSpace(s[k])) &&
      (forall k :: hi <= k < |s| ==> IsSpace(s[k])) &&
      (lo < hi ==> !IsSpace(s[lo]) && !IsSpace(s[hi - 1]))
  {
    SkipSpaceSpec(s, 0);
    SkipSpaceBackSpec(s, StripStart(s), |s|);
  }

  /** A string without whitespace is its own strip. */
  lemma StripNoSpace(s: string)
    requires forall k :: 0 <= k < |s| ==> !IsSpace(s[k])
    ensures Strip(s) == s
  {
    StripSpec(s);
  }

  /** A row of n ground tiles. */
  function Dots(n: nat): (r: string)
    ensures |r| == n && forall k :: 0 <= k < n ==> r[k] == '.'
  {
    seq(n, _ => '.')
  }

  function PadRow(line: string): (r: string)
    ensures |r| == |Strip(line)| + 2 && r[0] == '.' && r[|r| - 1] == '.'
    ensures forall k :: 0 <= k < |Strip(line)| ==> r[k + 1] == Strip(line)[k]
  {
    "." + Strip(line) + "."
  }

  /** The padded grid; the source reads lines[0] to size the border rows, so
      it needs at least one line. */
  function Pad(lines: seq<string>): (g: seq<string>)
    requires |lines| > 0
    ensures |g| == |lines| + 2
    ensures g[0] == Dots(|Strip(lines[0])| + 2) && g[|g| - 1] == g[0]
    ensures forall i :: 0 <= i < |lines| ==> g[i + 1] == PadRow(lines[i])
  {
    var rows := seq(|lines|, i requires 0 <= i < |lines| => PadRow(lines[i]));
    [Dots(|rows[0]|)] + rows + [Dots(|rows[0]|)]
  }

  /** Every row has the width of the first one. */
  predicate Rectangular(g: seq<string>) {
    forall i :: 0 <= i < |g| ==> |g[i]| == |g[0]|
  }

  /** A rectangular grid at least 3 rows high and 2 columns wide whose border
      cells are all '.'. */
  predicate Framed(g: seq<string>) {
    |g| >= 3 && Rectangular(g) && |g[0]| >= 2 &&
    AllGround(g[0]) && AllGround(g[|g| - 1]) &&
    (forall r :: 0 <= r < |g| ==> g[r][0] == '.' && g[r][|g[0]| - 1] == '.')
  }

  predicate AllGround(row: string) {
    forall c :: 0 <= c < |row| ==> row[c] == '.'
  }

  /** All stripped lines have the same width. */
  predicate SameWidth(lines: seq<string>) {
    forall i :: 0 <= i < |lines| ==> |Strip(lines[i])| == |Strip(lines[0])|
  }

  /** Padding adds one row above and below and one column on each side: the
      result is framed by '.', it is two wider and two higher than the input,
      and its interior is the stripped input. */
  lemma PadFramed(lines: seq<string>)
    requires |lines| > 0 && SameWidth(lines)
    ensures var g := Pad(lines);
      Framed(g) && |g[0]| == |Strip(lines[0])| + 2 &&
      forall r, c :: 1 <= r < |g| - 1 && 1 <= c < |g[0]| - 1 ==> g[r][c] == Strip(lines[r - 1])[c - 1]
  {
    var g := Pad(lines);
    var w := |Strip(lines[0])| + 2;
    assert |g[0]| == w;
    forall r | 0 <= r < |g|
      ensures |g[r]| == |g[0]| && g[r][0] == '.' && g[r][|g[0]| - 1] == '.'
    {
      if 1 <= r < |g| - 1 {
        assert g[r] == PadRow(lines[r - 1]);
      }
    }
    forall r, c | 1 <= r < |g| - 1 && 1 <= c < |g[0]| - 1
      ensures g[r][c] == Strip(lines[r - 1])[c - 1]
    {
      assert g[r] == PadRow(lines[r - 1]);
    }
  }
}
