/**
 * The trebuchet calibration of 01.py: every line of the document yields a
 * two-digit value made of its first and its last digit, and the answer is the
 * sum of the values. part_1 only knows decimal digits; part_2 also reads the
 * spelled names "one" to "nine", found with str.index and str.rindex.
 */
module Calibration {
  import opened Wrappers
  import opened Digits

  // ---------------------------------------------------------------------
  // Digit positions

  /** The position of the first digit of s at or after i. */
  function FirstDigitFrom(s: string, i: nat): (r: Option<nat>)
    requires i <= |s|
    ensures r.Some? ==> i <= r.value < |s| && IsDigit(s[r.value])
    decreases |s| - i
  {
    if i == |s| then None
    else if IsDigit(s[i]) then Some(i)
    else FirstDigitFrom(s, i + 1)
  }

  /** No digit lies between i and the one found, and none at all from i on
      when none is found. */
  lemma {:induction false} FirstDigitSpec(s: string, i: nat)
    requires i <= |s|
    ensures var r := FirstDigitFrom(s, i);
      (r.Some? ==> forall k :: i <= k < r.value ==> !IsDigit(s[k])) &&
      (r.None? ==> forall k :: i <= k < |s| ==> !IsDigit(s[k]))
    decreases |s| - i
  {
    if i < |s| && !IsDigit(s[i]) {
      FirstDigitSpec(s, i + 1);
    }
  }

  /** The position of the last digit of s before j. */
  function LastDigitBefore(s: string, j: nat): (r: Option<nat>)
    requires j <= |s|
    ensures r.Some? ==> r.value < j && IsDigit(s[r.value])
  {
    if j == 0 then None
    else if IsDigit(s[j - 1]) then Some(j - 1)
    else LastDigitBefore(s, j - 1)
  }

  /** No digit lies between the one found and j, and none at all before j
      when none is found. */
  lemma {:induction false} LastDigitSpec(s: string, j: nat)
    requires j <= |s|
    ensures var r := LastDigitBefore(s, j);
      (r.Some? ==> forall k :: r.value < k < j ==> !IsDigit(s[k])) &&
      (r.None? ==> forall k :: 0 <= k < j ==> !IsDigit(s[k]))
  {
    if j > 0 && !IsDigit(s[j - 1]) {
      LastDigitSpec(s, j - 1);
    }
  }

  function FirstDigitPos(s: string): Option<nat> {
    FirstDigitFrom(s, 0)
  }

  function LastDigitPos(s: string): Option<nat> {
    LastDigitBefore(s, |s|)
  }

  // ---------------------------------------------------------------------
  // part_1

  /** The value part_1 computes for one line: the first digit counts ten
      times, the last digit once, and a missing digit adds nothing. */
  function Value1(line: string): (v: nat)
    ensures v <= 99
  {
    (match FirstDigitPos(line)
     case None => 0
     case Some(i) => 10 * DigitValue(line[i])) +
    (match LastDigitPos(line)
     case None => 0
     case Some(j) => DigitValue(line[j]))
  }

  /** A line's value lies in 0..99, and a line without digits is worth 0. */
  lemma Value1Bound(line: string)
    ensures Value1(line) <= 99
    ensures (forall k :: 0 <= k < |line| ==> !IsDigit(line[k])) ==> Value1(line) == 0
  {
    FirstDigitSpec(line, 0);
  }

  /** A line's value is ten times its leftmost digit plus its rightmost
      digit. */
  lemma Value1At(line: string, i: nat, j: nat)
    requires i <= j < |line| && IsDigit(line[i]) && IsDigit(line[j])
    requires forall k :: 0 <= k < i ==> !IsDigit(line[k])
    requires forall k :: j < k < |line| ==> !IsDigit(line[k])
    ensures Value1(line) == 10 * DigitValue(line[i]) + DigitValue(line[j])
  {
    FirstDigitSpec(line, 0);
    LastDigitSpec(line, |line|);
    assert FirstDigitPos(line) == Some(i);
    assert LastDigitPos(line) == Some(j);
  }

  /** A lone digit is used twice. */
  lemma {:induction false} LoneDigit(line: string, p: nat)
    requires p < |line| && IsDigit(line[p])
    requires forall k :: 0 <= k < |line| && k != p ==> !IsDigit(line[k])
    ensures Value1(line) == 11 * DigitValue(line[p])
  {
    Value1At(line, p, p);
  }

  /** The running total of part_1 over the first lines. */
  function Sum1(lines: seq<string>): nat {
    if lines == [] then 0 else Sum1(lines[..|lines| - 1]) + Value1(lines[|lines| - 1])
  }

  /** The total is at most 99 per line. */
  lemma {:induction false} Sum1Bound(lines: seq<string>)
    ensures Sum1(lines) <= 99 * |lines|
  {
    if lines != [] {
      Sum1Bound(lines[..|lines| - 1]);
      Value1Bound(lines[|lines| - 1]);
    }
  }

  /** part_1 of 01.py: for each line, scan forward to the first digit and
      backward to the last one, each scan stopping at the digit it finds. */
  method Part1(lines: seq<string>) returns (total: nat)
    ensures total == Sum1(lines)
  {
    total := 0;
    for n := 0 to |lines|
      invariant total == Sum1(lines[..n])
    {
      var line := lines[n];
      var num := 0;
      var i := 0;
      while i < |line|
        invariant i <= |line| && FirstDigitPos(line) == FirstDigitFrom(line, i)
      {
        if IsDigit(line[i]) {
          num := num + DigitValue(line[i]) * 10;
          break;
        }
        i := i + 1;
      }
      var tens := num;
      var j: nat := |line|;
      while j > 0
        invariant j <= |line| && LastDigitPos(line) == LastDigitBefore(line, j) && num == tens
      {
        if IsDigit(line[j - 1]) {
          num := num + DigitValue(line[j - 1]);
          break;
        }
        j := j - 1;
      }
      assert num == Value1(line);
      assert lines[..n + 1][..n] == lines[..n];
      total := total + num;
    }
    assert lines[..|lines|] == lines;
  }

  /** The four-line example of part_1 sums to 142. */
  lemma Part1Example()
    ensures Sum1(["1abc2", "pqr3stu8vwx", "a1b2c3d4e5f", "treb7uchet"]) == 142
  {
    assert LastDigitBefore("1abc2", 5) == Some(4);
    assert Value1("1abc2") == 12;
    assert FirstDigitFrom("pqr3stu8vwx", 0) == Some(3);
    assert LastDigitBefore("pqr3stu8vwx", 11) == Some(7);
    assert Value1("pqr3stu8vwx") == 38;
    assert LastDigitBefore("a1b2c3d4e5f", 11) == Some(9);
    assert Value1("a1b2c3d4e5f") == 15;
    assert FirstDigitFrom("treb7uchet", 0) == Some(4);
    assert LastDigitBefore("treb7uchet", 10) == Some(4);
    assert Value1("treb7uchet") == 77;
    var doc := ["1abc2", "pqr3stu8vwx", "a1b2c3d4e5f", "treb7uchet"];
    assert doc[..3][..2] == doc[..2];
    assert doc[..2][..1] == doc[..1];
    assert doc[..1][..0] == [];
    assert doc[..4] == doc;
    assert Sum1(doc[..1]) == 12;
    assert Sum1(doc[..2]) == 50;
    assert Sum1(doc[..3]) == 65;
  }

  // ---------------------------------------------------------------------
  // Substring search

  /** name occurs in s starting at position p. */
  predicate OccursAt(s: string, name: string, p: int) {
    0 <= p && p + |name| <= |s| && forall t :: 0 <= t < |name| ==> s[p + t] == name[t]
  }

  /** The first occurrence of name in s at or after i. */
  function FindFrom(s: string, name: string, i: nat): (r: Option<nat>)
    requires i <= |s|
    ensures r.Some? ==> i <= r.value && r.value + |name| <= |s|
    decreases |s| - i
  {
    if i + |name| > |s| then None
    else if OccursAt(s, name, i) then Some(i)
    else FindFrom(s, name, i + 1)
  }

  /** What is found is an occurrence with none between i and it; None means
      that name does not occur at or after i. */
  lemma {:induction false} FindFromSpec(s: string, name: string, i: nat)
    requires i <= |s|
    ensures var r := FindFrom(s, name, i);
      (r.Some? ==> OccursAt(s, name, r.value) && forall q :: i <= q < r.value ==> !OccursAt(s, name, q)) &&
      (r.None? ==> forall q :: i <= q ==> !OccursAt(s, name, q))
    decreases |s| - i
  {
    if i + |name| <= |s| && !OccursAt(s, name, i) {
      FindFromSpec(s, name, i + 1);
    }
  }

  /** The last occurrence of name in s that starts before j. */
  function FindBefore(s: string, name: string, j: nat): (r: Option<nat>)
    requires j <= |s|
    ensures r.Some? ==> r.value < j
  {
    if j == 0 then None
    else if OccursAt(s, name, j - 1) then Some(j - 1)
    else FindBefore(s, name, j - 1)
  }

  /** What is found is an occurrence with none between it and j; None means
      that no occurrence starts before j. */
  lemma {:induction false} FindBeforeSpec(s: string, name: string, j: nat)
    requires j <= |s|
    ensures var r := FindBefore(s, name, j);
      (r.Some? ==> OccursAt(s, name, r.value) && forall q :: r.value < q < j ==> !OccursAt(s, name, q)) &&
      (r.None? ==> forall q :: q < j ==> !OccursAt(s, name, q))
  {
    if j > 0 && !OccursAt(s, name, j - 1) {
      FindBeforeSpec(s, name, j - 1);
    }
  }

  /** str.index; None stands for the ValueError of a missing name, and
      `name in s` holds exactly when it is not None. */
  function Index(s: string, name: string): Option<nat> {
    FindFrom(s, name, 0)
  }

  /** str.rindex, for a name that is not empty. */
  function RIndex(s: string, name: string): Option<nat>
    requires |name| > 0
  {
    FindBefore(s, name, |s|)
  }

  /** index and rindex agree on whether name occurs, and the first
      occurrence is never after the last one. */
  lemma IndexRIndex(s: string, name: string)
    requires |name| > 0
    ensures Index(s, name).Some? <==> RIndex(s, name).Some?
    ensures Index(s, name).Some? ==> Index(s, name).value <= RIndex(s, name).value
  {
    FindFromSpec(s, name, 0);
    FindBeforeSpec(s, name, |s|);
    match Index(s, name)
    case None =>
    case Some(p) =>
      assert p < |s|;
  }

  // ---------------------------------------------------------------------
  // Spelled digits

  /** The keys of alpha_digits in the dictionary's order; Names[k] stands
      for k + 1. */
  const Names: seq<string> := ["one", "two", "three", "four", "five", "six", "seven", "eight", "nine"]

  lemma NameLength(k: nat)
    requires k < 9
    ensures 3 <= |Names[k]| <= 5
  {
  }

  /** Two different names never start with the same two letters, so at
      most one name occurs at any position, and a name never starts on a
      digit. */
  lemma NamesApart(s: string, p: int, a: nat, b: nat)
    requires a < 9 && b < 9 && OccursAt(s, Names[a], p)
    ensures !IsDigit(s[p])
    ensures OccursAt(s, Names[b], p) ==> a == b
  {
    assert s[p] == Names[a][0] && s[p + 1] == Names[a][1];
    if OccursAt(s, Names[b], p) {
      assert s[p] == Names[b][0] && s[p + 1] == Names[b][1];
    }
  }

  /** The digit a spelled name at position p stands for, trying names k on. */
  function SpelledAt(s: string, p: int, k: nat): (r: Option<nat>)
    requires k <= 9
    ensures r.Some? ==> k < r.value <= 9
    decreases 9 - k
  {
    if k == 9 then None
    else if OccursAt(s, Names[k], p) then Some(k + 1)
    else SpelledAt(s, p, k + 1)
  }

  /** The digit found is spelled at p; None means no name from k on is. */
  lemma {:induction false} SpelledAtSpec(s: string, p: int, k: nat)
    requires k <= 9
    ensures var r := SpelledAt(s, p, k);
      (r.Some? ==> OccursAt(s, Names[r.value - 1], p)) &&
      (r.None? <==> forall m :: k <= m < 9 ==> !OccursAt(s, Names[m], p))
    decreases 9 - k
  {
    if k < 9 && !OccursAt(s, Names[k], p) {
      SpelledAtSpec(s, p, k + 1);
    }
  }

  /** What position p of the line reads as in part_2: a decimal digit, or a
      spelled name starting there, or nothing. */
  function DigitAt(s: string, p: nat): Option<nat>
    requires p < |s|
  {
    if IsDigit(s[p]) then Some(DigitValue(s[p])) else SpelledAt(s, p, 0)
  }

  /** The name found at a position is the one that occurs there. */
  lemma DigitAtName(s: string, p: nat, a: nat)
    requires a < 9 && OccursAt(s, Names[a], p)
    ensures p < |s| && DigitAt(s, p) == Some(a + 1)
  {
    NamesApart(s, p, a, a);
    SpelledAtSpec(s, p, 0);
    var r := SpelledAt(s, p, 0);
    if r.Some? {
      NamesApart(s, p, a, r.value - 1);
    }
  }

  // ---------------------------------------------------------------------
  // part_2

  /** The first_digit / last_digit dictionaries: a position and a value,
      None until a digit has been found. */
  datatype Candidate = Candidate(pos: int, value: Option<nat>)

  /** first_digit after the forward scan for a decimal digit. */
  function FirstNumeric(line: string): Candidate {
    match FirstDigitPos(line)
    case None => Candidate(|line|, None)
    case Some(i) => Candidate(i, Some(DigitValue(line[i])))
  }

  /** last_digit after the backward scan, starting from position start. */
  function LastNumeric(line: string, start: int): Candidate {
    match LastDigitPos(line)
    case None => Candidate(start, None)
    case Some(j) => Candidate(j, Some(DigitValue(line[j])))
  }

  /** The update of first_digit for name k: taken when its first occurrence
      is strictly before the current position. */
  function FirstStep(line: string, k: nat, c: Candidate): Candidate
    requires k < 9
  {
    match Index(line, Names[k])
    case None => c
    case Some(p) => if p < c.pos then Candidate(p, Some(k + 1)) else c
  }

  /** The update of last_digit for name k: taken when its last occurrence is
      strictly after the current position. */
  function LastStep(line: string, k: nat, c: Candidate): Candidate
    requires k < 9
  {
    if Index(line, Names[k]).None? then c
    else
      IndexRIndex(line, Names[k]);
      var p := RIndex(line, Names[k]).value;
      if p > c.pos then Candidate(p, Some(k + 1)) else c
  }

  /** The updates for the names k to 8, in the dictionary's order. */
  function FirstFold(line: string, k: nat, c: Candidate): Candidate
    requires k <= 9
    decreases 9 - k
  {
    if k == 9 then c else FirstFold(line, k + 1, FirstStep(line, k, c))
  }

  function LastFold(line: string, k: nat, c: Candidate): Candidate
    requires k <= 9
    decreases 9 - k
  {
    if k == 9 then c else LastFold(line, k + 1, LastStep(line, k, c))
  }

  /** first_digit at the end of the line's processing. */
  function FirstOf(line: string): Candidate {
    FirstFold(line, 0, FirstNumeric(line))
  }

  /** last_digit at the end of the line's processing, when its position
      starts at start: 0 in 01.py as written, -1 once corrected. */
  function LastOf(line: string, start: int): Candidate {
    LastFold(line, 0, LastNumeric(line, start))
  }

  /** The position 01.py starts last_digit at. */
  const AsWrittenStart := 0
  /** A position before every character, so that a name at position 0 is
      still taken. */
  const CorrectedStart := -1

  /** The value of a line in part_2; None stands for the TypeError of adding
      a None value. */
  function Value2(line: string, start: int): (r: Option<nat>)
    ensures r.Some? ==> r.value <= 99
  {
    CandidatesAreDigits(line, start);
    Combine(FirstOf(line), LastOf(line, start))
  }

  /** first_digit["value"] * 10 + last_digit["value"]. */
  function Combine(first: Candidate, last: Candidate): Option<nat> {
    if first.value.None? || last.value.None? then None
    else Some(first.value.value * 10 + last.value.value)
  }

  /** The state of first_digit after the names before k: it holds the
      leftmost digit or name seen so far, and nothing seen lies before it. */
  predicate FirstSeen(line: string, k: nat, c: Candidate)
    requires k <= 9
  {
    (c.value.None? ==> c.pos == |line|) &&
    (c.value.Some? ==> 0 <= c.pos < |line| && DigitAt(line, c.pos) == c.value) &&
    (forall p :: 0 <= p < c.pos && p < |line| ==> !IsDigit(line[p])) &&
    (forall p, m :: 0 <= p < c.pos && 0 <= m < k ==> !OccursAt(line, Names[m], p))
  }

  /** The state of last_digit after the names before k: it holds the
      rightmost digit or name seen so far, nothing seen lies after it, and
      there is no decimal digit at all when it holds none. */
  predicate LastSeen(line: string, k: nat, c: Candidate, start: int)
    requires k <= 9
  {
    (c.value.None? ==> c.pos == start && forall p :: 0 <= p < |line| ==> !IsDigit(line[p])) &&
    (c.value.Some? ==> 0 <= c.pos < |line| && DigitAt(line, c.pos) == c.value) &&
    (forall p :: c.pos < p < |line| && 0 <= p ==> !IsDigit(line[p])) &&
    (forall p, m :: c.pos < p < |line| && 0 <= p && 0 <= m < k ==> !OccursAt(line, Names[m], p))
  }

  lemma FirstStepSeen(line: string, k: nat, c: Candidate)
    requires k < 9 && FirstSeen(line, k, c)
    ensures FirstSeen(line, k + 1, FirstStep(line, k, c))
  {
    var next := FirstStep(line, k, c);
    FindFromSpec(line, Names[k], 0);
    var found := Index(line, Names[k]);
    if found.Some? && found.value < c.pos {
      DigitAtName(line, found.value, k);
      assert next == Candidate(found.value, Some(k + 1));
    } else {
      assert next == c;
    }
    forall p | 0 <= p < next.pos
      ensures !OccursAt(line, Names[k], p)
    {
    }
  }

  lemma LastStepSeen(line: string, k: nat, c: Candidate, start: int)
    requires k < 9 && LastSeen(line, k, c, start)
    ensures LastSeen(line, k + 1, LastStep(line, k, c), start)
  {
    var next := LastStep(line, k, c);
    IndexRIndex(line, Names[k]);
    FindBeforeSpec(line, Names[k], |line|);
    var found := RIndex(line, Names[k]);
    if found.Some? && found.value > c.pos {
      DigitAtName(line, found.value, k);
      assert next == Candidate(found.value, Some(k + 1));
    } else {
      assert next == c;
    }
    forall p | next.pos < p < |line| && 0 <= p
      ensures !OccursAt(line, Names[k], p)
    {
    }
  }

  lemma {:induction false} FirstFoldSeen(line: string, k: nat, c: Candidate)
    requires k <= 9 && FirstSeen(line, k, c)
    ensures FirstSeen(line, 9, FirstFold(line, k, c))
    decreases 9 - k
  {
    if k < 9 {
      FirstStepSeen(line, k, c);
      FirstFoldSeen(line, k + 1, FirstStep(line, k, c));
    }
  }

  lemma {:induction false} LastFoldSeen(line: string, k: nat, c: Candidate, start: int)
    requires k <= 9 && LastSeen(line, k, c, start)
    ensures LastSeen(line, 9, LastFold(line, k, c), start)
    decreases 9 - k
  {
    if k < 9 {
      LastStepSeen(line, k, c, start);
      LastFoldSeen(line, k + 1, LastStep(line, k, c), start);
    }
  }

  /** No name occurs at p, so nothing is spelled there. */
  lemma NothingSpelled(line: string, p: nat)
    requires p < |line| && !IsDigit(line[p])
    requires forall m :: 0 <= m < 9 ==> !OccursAt(line, Names[m], p)
    ensures DigitAt(line, p).None?
  {
    SpelledAtSpec(line, p, 0);
  }

  /** part_2's first digit is what the leftmost position that reads as a
      digit or a spelled name stands for; it is None exactly when no
      position reads as one. */
  lemma FirstOfSpec(line: string)
    ensures FirstOf(line).value.Some? ==>
      0 <= FirstOf(line).pos < |line| && DigitAt(line, FirstOf(line).pos) == FirstOf(line).value &&
      forall p :: 0 <= p < FirstOf(line).pos ==> DigitAt(line, p).None?
    ensures FirstOf(line).value.None? <==> forall p :: 0 <= p < |line| ==> DigitAt(line, p).None?
  {
    var c0 := FirstNumeric(line);
    FirstDigitSpec(line, 0);
    assert FirstSeen(line, 0, c0);
    FirstFoldSeen(line, 0, c0);
    var c := FirstOf(line);
    forall p | 0 <= p < c.pos && p < |line|
      ensures DigitAt(line, p).None?
    {
      NothingSpelled(line, p);
    }
  }

  /** Both candidates, when they hold a value, hold what a position of the
      line reads as, whatever position last_digit starts at. */
  lemma CandidatesAreDigits(line: string, start: int)
    ensures var c := FirstOf(line);
      c.value.Some? ==> 0 <= c.pos < |line| && DigitAt(line, c.pos) == c.value
    ensures var c := LastOf(line, start);
      c.value.Some? ==> 0 <= c.pos < |line| && DigitAt(line, c.pos) == c.value
  {
    FirstOfSpec(line);
    LastIsDigit(line, start);
  }

  lemma LastIsDigit(line: string, start: int)
    ensures var c := LastOf(line, start);
      c.value.Some? ==> 0 <= c.pos < |line| && DigitAt(line, c.pos) == c.value
  {
    var c0 := LastNumeric(line, start);
    LastDigitSpec(line, |line|);
    assert LastSeen(line, 0, c0, start);
    LastFoldSeen(line, 0, c0, start);
  }

  /** With the corrected start, part_2's last digit is what the rightmost
      position that reads as a digit or a spelled name stands for; it is
      None exactly when no position reads as one. */
  lemma LastOfSpec(line: string)
    ensures var c := LastOf(line, CorrectedStart);
      (c.value.Some? ==>
        0 <= c.pos < |line| && DigitAt(line, c.pos) == c.value &&
        forall p :: c.pos < p < |line| ==> DigitAt(line, p).None?) &&
      (c.value.None? <==> forall p :: 0 <= p < |line| ==> DigitAt(line, p).None?)
  {
    var c0 := LastNumeric(line, CorrectedStart);
    LastDigitSpec(line, |line|);
    assert LastSeen(line, 0, c0, CorrectedStart);
    LastFoldSeen(line, 0, c0, CorrectedStart);
    var c := LastOf(line, CorrectedStart);
    forall p | c.pos < p < |line| && 0 <= p
      ensures DigitAt(line, p).None?
    {
      NothingSpelled(line, p);
    }
  }

  /** The name updates only ever move last_digit to a later position, and
      what they move it to holds a value. */
  lemma {:induction false} LastFoldMoves(line: string, k: nat, c: Candidate)
    requires k <= 9
    ensures var r := LastFold(line, k, c);
      r == c || (r.pos > c.pos && r.value.Some?)
    decreases 9 - k
  {
    if k < 9 {
      LastFoldMoves(line, k + 1, LastStep(line, k, c));
    }
  }

  /** As written, last_digit misses exactly a name at position 0 that is
      the line's only digit: it ends without a value exactly when the line
      holds no decimal digit and no position after 0 reads as a digit or a
      name, and whenever it has a value it agrees with the corrected start. */
  lemma LastOfAsWritten(line: string)
    ensures var c := LastOf(line, AsWrittenStart);
      (c.value.Some? ==> c == LastOf(line, CorrectedStart)) &&
      (c.value.None? <==>
        (forall p :: 0 <= p < |line| ==> !IsDigit(line[p])) &&
        forall p :: 0 < p < |line| ==> DigitAt(line, p).None?)
  {
    var c0 := LastNumeric(line, AsWrittenStart);
    LastDigitSpec(line, |line|);
    assert LastSeen(line, 0, c0, AsWrittenStart);
    LastFoldSeen(line, 0, c0, AsWrittenStart);
    var c := LastOf(line, AsWrittenStart);
    forall p | c.pos < p < |line| && 0 <= p
      ensures DigitAt(line, p).None?
    {
      NothingSpelled(line, p);
    }
    if c.value.Some? {
      LastAt(line, c.pos);
    }
    if (forall p :: 0 <= p < |line| ==> !IsDigit(line[p])) &&
       (forall p :: 0 < p < |line| ==> DigitAt(line, p).None?) {
      assert c0 == Candidate(AsWrittenStart, None);
      LastFoldMoves(line, 0, c0);
    }
  }

  /** As written, the last candidate is still the rightmost position that
      reads as a digit, unless that is a name at position 0. */
  lemma LastAtAsWritten(line: string, j: nat)
    requires j < |line| && DigitAt(line, j).Some?
    requires forall p :: j < p < |line| ==> DigitAt(line, p).None?
    requires 0 < j || IsDigit(line[j])
    ensures LastOf(line, AsWrittenStart) == Candidate(j, DigitAt(line, j))
  {
    LastOfAsWritten(line);
    LastAt(line, j);
  }

  /** The line "one": it reads as 11, but as written its last digit stays
      None and the addition fails; the corrected start gives 11. */
  lemma LoneNameAtStart()
    ensures LastOf("one", AsWrittenStart).value.None?
    ensures Value2("one", AsWrittenStart).None?
    ensures Value2("one", CorrectedStart) == Some(11)
  {
    var s := "one";
    assert OccursAt(s, Names[0], 0);
    assert LastDigitPos(s).None?;
    assert FirstDigitPos(s).None?;
    assert Index(s, Names[0]) == Some(0);
    assert RIndex(s, Names[0]) == Some(0);
    forall m | 1 <= m < 9
      ensures Index(s, Names[m]).None?
    {
      assert |Names[m]| >= 3;
      if Index(s, Names[m]).Some? {
        NamesApart(s, 0, 0, m);
      }
    }
  }

  /** As written, a line's part_2 value fails exactly when the line holds no
      decimal digit and nothing after position 0 reads as a name: a line
      whose only digit is a name at position 0 fails too. */
  lemma Value2NoneAsWritten(line: string)
    ensures Value2(line, AsWrittenStart).None? <==>
      (forall p :: 0 <= p < |line| ==> !IsDigit(line[p])) &&
      forall p :: 0 < p < |line| ==> DigitAt(line, p).None?
  {
    FirstOfSpec(line);
    LastOfSpec(line);
    LastOfAsWritten(line);
  }

  /** Whenever the as-written value of a line exists, it is the corrected
      one. */
  lemma Value2Agree(line: string)
    ensures Value2(line, AsWrittenStart).Some? ==> Value2(line, AsWrittenStart) == Value2(line, CorrectedStart)
  {
    LastOfAsWritten(line);
  }

  /** With the corrected start, a line's part_2 value fails exactly when no
      position reads as a digit or a spelled name. */
  lemma Value2None(line: string)
    ensures Value2(line, CorrectedStart).None? <==> forall p :: 0 <= p < |line| ==> DigitAt(line, p).None?
  {
    FirstOfSpec(line);
    LastOfSpec(line);
  }

  /** With the corrected start, a line's part_2 value is ten times what its
      leftmost digit or name stands for plus what its rightmost one stands
      for. */
  lemma Value2At(line: string, i: nat, j: nat)
    requires i <= j < |line| && DigitAt(line, i).Some? && DigitAt(line, j).Some?
    requires forall p :: 0 <= p < i ==> DigitAt(line, p).None?
    requires forall p :: j < p < |line| ==> DigitAt(line, p).None?
    ensures Value2(line, CorrectedStart) == Some(10 * DigitAt(line, i).value + DigitAt(line, j).value)
  {
    FirstAt(line, i);
    LastAt(line, j);
  }

  /** The same value as written, unless the rightmost digit is a name at
      position 0. */
  lemma Value2AtAsWritten(line: string, i: nat, j: nat)
    requires i <= j < |line| && DigitAt(line, i).Some? && DigitAt(line, j).Some?
    requires forall p :: 0 <= p < i ==> DigitAt(line, p).None?
    requires forall p :: j < p < |line| ==> DigitAt(line, p).None?
    requires 0 < j || IsDigit(line[j])
    ensures Value2(line, AsWrittenStart) == Some(10 * DigitAt(line, i).value + DigitAt(line, j).value)
  {
    assert LastOf(line, AsWrittenStart) == LastOf(line, CorrectedStart) by {
      LastAtAsWritten(line, j);
      LastAt(line, j);
    }
    Value2At(line, i, j);
  }

  /** The first candidate is the leftmost position that reads as a digit. */
  lemma FirstAt(line: string, i: nat)
    requires i < |line| && DigitAt(line, i).Some?
    requires forall p :: 0 <= p < i ==> DigitAt(line, p).None?
    ensures FirstOf(line) == Candidate(i, DigitAt(line, i))
  {
    FirstOfSpec(line);
  }

  /** The last candidate, with the corrected start, is the rightmost position
      that reads as a digit. */
  lemma LastAt(line: string, j: nat)
    requires j < |line| && DigitAt(line, j).Some?
    requires forall p :: j < p < |line| ==> DigitAt(line, p).None?
    ensures LastOf(line, CorrectedStart) == Candidate(j, DigitAt(line, j))
  {
    LastOfSpec(line);
  }

  /** The running total of part_2 over line values; None as soon as a
      value is None. */
  function Total(values: seq<Option<nat>>): Option<nat> {
    if values == [] then Some(0)
    else match Total(values[..|values| - 1])
      case None => None
      case Some(t) =>
        match values[|values| - 1]
        case None => None
        case Some(v) => Some(t + v)
  }

  /** The value of each line in part_2, last_digit starting at start. */
  function Values2(lines: seq<string>, start: int): (vs: seq<Option<nat>>)
    ensures |vs| == |lines|
  {
    seq(|lines|, i requires 0 <= i < |lines| => Value2(lines[i], start))
  }

  /** The sum of part_2 over the lines. */
  function Sum2(lines: seq<string>, start: int): Option<nat> {
    Total(Values2(lines, start))
  }

  /** Totals that agree on every value present agree whenever the first
      exists. */
  lemma {:induction false} TotalAgree(a: seq<Option<nat>>, b: seq<Option<nat>>)
    requires |a| == |b| && forall i :: 0 <= i < |a| && a[i].Some? ==> a[i] == b[i]
    ensures Total(a).Some? ==> Total(a) == Total(b)
    decreases |a|
  {
    if a != [] {
      var n := |a| - 1;
      TotalAgree(a[..n], b[..n]);
    }
  }

  /** Whenever part_2 as written produces a sum, it is the corrected sum. */
  lemma Sum2Agree(lines: seq<string>)
    ensures Sum2(lines, AsWrittenStart).Some? ==> Sum2(lines, AsWrittenStart) == Sum2(lines, CorrectedStart)
  {
    var a, b := Values2(lines, AsWrittenStart), Values2(lines, CorrectedStart);
    forall i | 0 <= i < |a| && a[i].Some?
      ensures a[i] == b[i]
    {
      Value2Agree(lines[i]);
    }
    TotalAgree(a, b);
  }

  /** The forward scan of part_2 for the first decimal digit. */
  method ScanFirst(line: string) returns (first: Candidate)
    ensures first == FirstNumeric(line)
  {
    first := Candidate(|line|, None);
    var i := 0;
    while i < |line|
      invariant i <= |line| && FirstDigitPos(line) == FirstDigitFrom(line, i)
      invariant first == Candidate(|line|, None)
    {
      if IsDigit(line[i]) {
        first := Candidate(i, Some(DigitValue(line[i])));
        break;
      }
      i := i + 1;
    }
  }

  /** The backward scan of part_2 for the last decimal digit, last_digit
      starting at position start. */
  method ScanLast(line: string, start: int) returns (last: Candidate)
    ensures last == LastNumeric(line, start)
  {
    last := Candidate(start, None);
    var j: nat := |line|;
    while j > 0
      invariant j <= |line| && LastDigitPos(line) == LastDigitBefore(line, j)
      invariant last == Candidate(start, None)
    {
      if IsDigit(line[j - 1]) {
        last := Candidate(j - 1, Some(DigitValue(line[j - 1])));
        break;
      }
      j := j - 1;
    }
  }

  /** The per-line work of part_2: the forward and backward digit scans,
      then one pass over the names updating both candidates. */
  method LineValue2(line: string, start: int) returns (v: Option<nat>)
    ensures v == Value2(line, start)
  {
    var first := ScanFirst(line);
    var last := ScanLast(line, start);
    for k := 0 to 9
      invariant FirstFold(line, k, first) == FirstOf(line)
      invariant LastFold(line, k, last) == LastOf(line, start)
    {
      var name := Names[k];
      if Index(line, name).Some? {
        var firstPos := Index(line, name).value;
        if firstPos < first.pos {
          first := Candidate(firstPos, Some(k + 1));
        }
        NameLength(k);
        IndexRIndex(line, name);
        var lastPos := RIndex(line, name).value;
        if lastPos > last.pos {
          last := Candidate(lastPos, Some(k + 1));
        }
      }
    }
    v := Combine(first, last);
  }

  /** part_2 of 01.py, last_digit starting at position 0 as written: the
      sum of the line values, or None at the first line whose value cannot
      be formed. */
  method Part2(lines: seq<string>) returns (total: Option<nat>)
    ensures total == Sum2(lines, AsWrittenStart)
  {
    total := SumLines(lines, AsWrittenStart);
  }

  /** part_2 with last_digit starting before the line, so that a name at
      position 0 can be the last digit. */
  method Part2Corrected(lines: seq<string>) returns (total: Option<nat>)
    ensures total == Sum2(lines, CorrectedStart)
  {
    total := SumLines(lines, CorrectedStart);
  }

  /** The loop of part_2 over the lines. */
  method SumLines(lines: seq<string>, start: int) returns (total: Option<nat>)
    ensures total == Sum2(lines, start)
  {
    var sum := 0;
    for n := 0 to |lines|
      invariant Total(Values2(lines, start)[..n]) == Some(sum)
    {
      var next := AddLine(lines, n, sum, start);
      if next.None? {
        TotalStaysFailed(Values2(lines, start), n + 1);
        return None;
      }
      sum := next.value;
    }
    assert Values2(lines, start)[..|lines|] == Values2(lines, start);
    return Some(sum);
  }

  /** One turn of part_2's loop: the value of line n added to the total of
      the lines before it. */
  method AddLine(lines: seq<string>, n: nat, sum: nat, start: int) returns (next: Option<nat>)
    requires n < |lines| && Total(Values2(lines, start)[..n]) == Some(sum)
    ensures next == Total(Values2(lines, start)[..n + 1])
  {
    var v := LineValue2(lines[n], start);
    ghost var values := Values2(lines, start);
    assert values[n] == v;
    TotalPrefix(values, n);
    if v.None? {
      return None;
    }
    next := Some(sum + v.value);
  }

  /** The running total after one more value. */
  lemma TotalAppend(values: seq<Option<nat>>, v: Option<nat>)
    ensures Total(values + [v]) ==
      if Total(values).None? || v.None? then None else Some(Total(values).value + v.value)
  {
    assert (values + [v])[..|values|] == values;
  }

  /** The running total after the first n + 1 values. */
  lemma TotalPrefix(values: seq<Option<nat>>, n: nat)
    requires n < |values|
    ensures Total(values[..n + 1]) ==
      if Total(values[..n]).None? || values[n].None? then None else Some(Total(values[..n]).value + values[n].value)
  {
    assert values[..n + 1] == values[..n] + [values[n]];
    TotalAppend(values[..n], values[n]);
  }

  /** Once a prefix fails, every longer prefix fails. */
  lemma {:induction false} TotalStaysFailed(values: seq<Option<nat>>, n: nat)
    requires n <= |values| && Total(values[..n]).None?
    ensures Total(values).None?
    decreases |values| - n
  {
    if n < |values| {
      assert values[..n + 1][..n] == values[..n];
      TotalStaysFailed(values, n + 1);
    } else {
      assert values[..n] == values;
    }
  }
}
