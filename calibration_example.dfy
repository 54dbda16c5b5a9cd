/**
 * The seven-line example of part_2 in 01.py, whose values 29, 83, 13, 24,
 * 42, 14 and 76 sum to 281, both as written and with the corrected start
 * of last_digit: every example line has a digit after position 0.
 */
module CalibrationExample {
  import opened Wrappers
  import opened Calibration
  import opened Digits

  /** s holds the characters of t, one by one. */
  predicate Spells(s: string, t: string) {
    |s| == |t| && forall k :: 0 <= k < |t| ==> s[k] == t[k]
  }

  /** Two letters that begin one of the nine names. */
  predicate NameStart(a: char, b: char) {
    (a == 'o' && b == 'n') || (a == 't' && (b == 'w' || b == 'h')) ||
    (a == 'f' && (b == 'o' || b == 'i')) || (a == 's' && (b == 'i' || b == 'e')) ||
    (a == 'e' && b == 'i') || (a == 'n' && b == 'i')
  }

  /** A position that holds no decimal digit and does not begin a name's
      first two letters reads as nothing. */
  lemma Unspelled(s: string, p: nat)
    requires p < |s| && !IsDigit(s[p])
    requires p + 1 < |s| ==> !NameStart(s[p], s[p + 1])
    ensures DigitAt(s, p).None?
  {
    forall m | 0 <= m < 9
      ensures !OccursAt(s, Names[m], p)
    {
      NameLength(m);
      if p + 1 < |s| {
        assert m == 0 || m == 1 || m == 2 || m == 3 || m == 4 || m == 5 || m == 6 || m == 7 || m == 8;
        assert s[p] != Names[m][0] || s[p + 1] != Names[m][1];
      }
    }
    NothingSpelled(s, p);
  }

  /** The line "two1nine": its first digit is two at 0 and its last nine at 4,
      so it is worth 29. */
  lemma Line1(s: string)
    requires |s| == 8
    requires s[0] == 't' && s[1] == 'w' && s[2] == 'o' && s[3] == '1' && s[4] == 'n' && s[5] == 'i'
    requires s[6] == 'n' && s[7] == 'e'
    ensures Value2(s, AsWrittenStart) == Some(29)
  {
    assert DigitAt(s, 0) == Some(2) by {
      DigitAtName(s, 0, 1);
    }
    assert DigitAt(s, 4) == Some(9) by {
      DigitAtName(s, 4, 8);
    }
    assert forall p :: 4 < p < |s| ==> DigitAt(s, p).None? by {
      forall p | 4 < p < |s|
        ensures DigitAt(s, p).None?
      {
        if p == 5 {
          Unspelled(s, 5);
        } else if p == 6 {
          Unspelled(s, 6);
        } else if p == 7 {
          Unspelled(s, 7);
        }
      }
    }
    Value2AtAsWritten(s, 0, 4);
  }

  /** The line "eightwothree": its first digit is eight at 0 and its last three at 7,
      so it is worth 83. */
  lemma Line2(s: string)
    requires |s| == 12
    requires s[0] == 'e' && s[1] == 'i' && s[2] == 'g' && s[3] == 'h' && s[4] == 't' && s[5] == 'w'
    requires s[6] == 'o' && s[7] == 't' && s[8] == 'h' && s[9] == 'r' && s[10] == 'e' && s[11] == 'e'
    ensures Value2(s, AsWrittenStart) == Some(83)
  {
    assert DigitAt(s, 0) == Some(8) by {
      DigitAtName(s, 0, 7);
    }
    assert DigitAt(s, 7) == Some(3) by {
      DigitAtName(s, 7, 2);
    }
    assert forall p :: 7 < p < |s| ==> DigitAt(s, p).None? by {
      forall p | 7 < p < |s|
        ensures DigitAt(s, p).None?
      {
        if p == 8 {
          Unspelled(s, 8);
        } else if p == 9 {
          Unspelled(s, 9);
        } else if p == 10 {
          Unspelled(s, 10);
        } else if p == 11 {
          Unspelled(s, 11);
        }
      }
    }
    Value2AtAsWritten(s, 0, 7);
  }

  /** The line "abcone2threexyz": its first digit is one at 3 and its last three at 7,
      so it is worth 13. */
  lemma Line3(s: string)
    requires |s| == 15
    requires s[0] == 'a' && s[1] == 'b' && s[2] == 'c' && s[3] == 'o' && s[4] == 'n' && s[5] == 'e'
    requires s[6] == '2' && s[7] == 't' && s[8] == 'h' && s[9] == 'r' && s[10] == 'e' && s[11] == 'e'
    requires s[12] == 'x' && s[13] == 'y' && s[14] == 'z'
    ensures Value2(s, AsWrittenStart) == Some(13)
  {
    assert DigitAt(s, 3) == Some(1) by {
      DigitAtName(s, 3, 0);
    }
    assert DigitAt(s, 7) == Some(3) by {
      DigitAtName(s, 7, 2);
    }
    assert forall p :: 0 <= p < 3 ==> DigitAt(s, p).None? by {
      forall p | 0 <= p < 3
        ensures DigitAt(s, p).None?
      {
        if p == 0 {
          Unspelled(s, 0);
        } else if p == 1 {
          Unspelled(s, 1);
        } else if p == 2 {
          Unspelled(s, 2);
        }
      }
    }
    assert forall p :: 7 < p < |s| ==> DigitAt(s, p).None? by {
      forall p | 7 < p < |s|
        ensures DigitAt(s, p).None?
      {
        if p == 8 {
          Unspelled(s, 8);
        } else if p == 9 {
          Unspelled(s, 9);
        } else if p == 10 {
          Unspelled(s, 10);
        } else if p == 11 {
          Unspelled(s, 11);
        } else if p == 12 {
          Unspelled(s, 12);
        } else if p == 13 {
          Unspelled(s, 13);
        } else if p == 14 {
          Unspelled(s, 14);
        }
      }
    }
    Value2AtAsWritten(s, 3, 7);
  }

  /** The line "xtwone3four": its first digit is two at 1 and its last four at 7,
      so it is worth 24. */
  lemma Line4(s: string)
    requires |s| == 11
    requires s[0] == 'x' && s[1] == 't' && s[2] == 'w' && s[3] == 'o' && s[4] == 'n' && s[5] == 'e'
    requires s[6] == '3' && s[7] == 'f' && s[8] == 'o' && s[9] == 'u' && s[10] == 'r'
    ensures Value2(s, AsWrittenStart) == Some(24)
  {
    assert DigitAt(s, 1) == Some(2) by {
      DigitAtName(s, 1, 1);
    }
    assert DigitAt(s, 7) == Some(4) by {
      DigitAtName(s, 7, 3);
    }
    assert forall p :: 0 <= p < 1 ==> DigitAt(s, p).None? by {
      forall p | 0 <= p < 1
        ensures DigitAt(s, p).None?
      {
        if p == 0 {
          Unspelled(s, 0);
        }
      }
    }
    assert forall p :: 7 < p < |s| ==> DigitAt(s, p).None? by {
      forall p | 7 < p < |s|
        ensures DigitAt(s, p).None?
      {
        if p == 8 {
          Unspelled(s, 8);
        } else if p == 9 {
          Unspelled(s, 9);
        } else if p == 10 {
          Unspelled(s, 10);
        }
      }
    }
    Value2AtAsWritten(s, 1, 7);
  }

  /** The line "4nineeightseven2": its first digit is '4' at 0 and its last '2' at 15,
      so it is worth 42. */
  lemma Line5(s: string)
    requires |s| == 16
    requires s[0] == '4' && s[1] == 'n' && s[2] == 'i' && s[3] == 'n' && s[4] == 'e' && s[5] == 'e'
    requires s[6] == 'i' && s[7] == 'g' && s[8] == 'h' && s[9] == 't' && s[10] == 's' && s[11] == 'e'
    requires s[12] == 'v' && s[13] == 'e' && s[14] == 'n' && s[15] == '2'
    ensures Value2(s, AsWrittenStart) == Some(42)
  {
    assert DigitAt(s, 0) == Some(4);
    assert DigitAt(s, 15) == Some(2);
    Value2AtAsWritten(s, 0, 15);
  }

  /** The line "zoneight234": its first digit is one at 1 and its last '4' at 10,
      so it is worth 14. */
  lemma Line6(s: string)
    requires |s| == 11
    requires s[0] == 'z' && s[1] == 'o' && s[2] == 'n' && s[3] == 'e' && s[4] == 'i' && s[5] == 'g'
    requires s[6] == 'h' && s[7] == 't' && s[8] == '2' && s[9] == '3' && s[10] == '4'
    ensures Value2(s, AsWrittenStart) == Some(14)
  {
    assert DigitAt(s, 1) == Some(1) by {
      DigitAtName(s, 1, 0);
    }
    assert DigitAt(s, 10) == Some(4);
    assert forall p :: 0 <= p < 1 ==> DigitAt(s, p).None? by {
      forall p | 0 <= p < 1
        ensures DigitAt(s, p).None?
      {
        if p == 0 {
          Unspelled(s, 0);
        }
      }
    }
    Value2AtAsWritten(s, 1, 10);
  }

  /** The line "7pqrstsixteen": its first digit is '7' at 0 and its last six at 6,
      so it is worth 76. */
  lemma Line7(s: string)
    requires |s| == 13
    requires s[0] == '7' && s[1] == 'p' && s[2] == 'q' && s[3] == 'r' && s[4] == 's' && s[5] == 't'
    requires s[6] == 's' && s[7] == 'i' && s[8] == 'x' && s[9] == 't' && s[10] == 'e' && s[11] == 'e'
    requires s[12] == 'n'
    ensures Value2(s, AsWrittenStart) == Some(76)
  {
    assert DigitAt(s, 0) == Some(7);
    assert DigitAt(s, 6) == Some(6) by {
      DigitAtName(s, 6, 5);
    }
    assert forall p :: 6 < p < |s| ==> DigitAt(s, p).None? by {
      forall p | 6 < p < |s|
        ensures DigitAt(s, p).None?
      {
        if p == 7 {
          Unspelled(s, 7);
        } else if p == 8 {
          Unspelled(s, 8);
        } else if p == 9 {
          Unspelled(s, 9);
        } else if p == 10 {
          Unspelled(s, 10);
        } else if p == 11 {
          Unspelled(s, 11);
        } else if p == 12 {
          Unspelled(s, 12);
        }
      }
    }
    Value2AtAsWritten(s, 0, 6);
  }

  /** The running total of the seven example values, one line at a time. */
  lemma ExampleTotal()
    ensures Total([Some(29), Some(83), Some(13), Some(24), Some(42), Some(14), Some(76)]) == Some(281)
  {
    var v0: seq<Option<nat>> := [];
    assert Total(v0) == Some(0);
    TotalAppend(v0, Some(29));
    assert v0 + [Some(29)] == [Some(29)];
    assert Total([Some(29)]) == Some(29);
    TotalAppend([Some(29)], Some(83));
    assert [Some(29)] + [Some(83)] == [Some(29), Some(83)];
    assert Total([Some(29), Some(83)]) == Some(112);
    TotalAppend([Some(29), Some(83)], Some(13));
    assert [Some(29), Some(83)] + [Some(13)] == [Some(29), Some(83), Some(13)];
    assert Total([Some(29), Some(83), Some(13)]) == Some(125);
    TotalAppend([Some(29), Some(83), Some(13)], Some(24));
    assert [Some(29), Some(83), Some(13)] + [Some(24)] == [Some(29), Some(83), Some(13), Some(24)];
    assert Total([Some(29), Some(83), Some(13), Some(24)]) == Some(149);
    TotalAppend([Some(29), Some(83), Some(13), Some(24)], Some(42));
    assert [Some(29), Some(83), Some(13), Some(24)] + [Some(42)] == [Some(29), Some(83), Some(13), Some(24), Some(42)];
    assert Total([Some(29), Some(83), Some(13), Some(24), Some(42)]) == Some(191);
    TotalAppend([Some(29), Some(83), Some(13), Some(24), Some(42)], Some(14));
    assert [Some(29), Some(83), Some(13), Some(24), Some(42)] + [Some(14)] == [Some(29), Some(83), Some(13), Some(24), Some(42), Some(14)];
    assert Total([Some(29), Some(83), Some(13), Some(24), Some(42), Some(14)]) == Some(205);
    TotalAppend([Some(29), Some(83), Some(13), Some(24), Some(42), Some(14)], Some(76));
    assert [Some(29), Some(83), Some(13), Some(24), Some(42), Some(14)] + [Some(76)] == [Some(29), Some(83), Some(13), Some(24), Some(42), Some(14), Some(76)];
    assert Total([Some(29), Some(83), Some(13), Some(24), Some(42), Some(14), Some(76)]) == Some(281);
  }

  /** The values of seven lines worth 29, 83, 13, 24, 42, 14 and 76. */
  lemma ExampleValues(doc: seq<string>)
    requires |doc| == 7
    requires Value2(doc[0], AsWrittenStart) == Some(29)
    requires Value2(doc[1], AsWrittenStart) == Some(83)
    requires Value2(doc[2], AsWrittenStart) == Some(13)
    requires Value2(doc[3], AsWrittenStart) == Some(24)
    requires Value2(doc[4], AsWrittenStart) == Some(42)
    requires Value2(doc[5], AsWrittenStart) == Some(14)
    requires Value2(doc[6], AsWrittenStart) == Some(76)
    ensures Values2(doc, AsWrittenStart) == [Some(29), Some(83), Some(13), Some(24), Some(42), Some(14), Some(76)]
  {
    var vs := Values2(doc, AsWrittenStart);
    assert vs[0] == Some(29) by { ValueOf(doc, 0); }
    assert vs[1] == Some(83) by { ValueOf(doc, 1); }
    assert vs[2] == Some(13) by { ValueOf(doc, 2); }
    assert vs[3] == Some(24) by { ValueOf(doc, 3); }
    assert vs[4] == Some(42) by { ValueOf(doc, 4); }
    assert vs[5] == Some(14) by { ValueOf(doc, 5); }
    assert vs[6] == Some(76) by { ValueOf(doc, 6); }
    SevenValues(vs, [Some(29), Some(83), Some(13), Some(24), Some(42), Some(14), Some(76)]);
  }

  lemma ValueOf(doc: seq<string>, k: nat)
    requires k < |doc|
    ensures Values2(doc, AsWrittenStart)[k] == Value2(doc[k], AsWrittenStart)
  {
  }

  lemma SevenValues(vs: seq<Option<nat>>, w: seq<Option<nat>>)
    requires |vs| == 7 && |w| == 7
    requires vs[0] == w[0] && vs[1] == w[1] && vs[2] == w[2] && vs[3] == w[3]
    requires vs[4] == w[4] && vs[5] == w[5] && vs[6] == w[6]
    ensures vs == w
  {
  }

  /** The same values, for a line that spells the example line. */
  lemma Spelled1(s: string)
    requires Spells(s, "two1nine")
    ensures Value2(s, AsWrittenStart) == Some(29)
  {
    Line1(s);
  }

  lemma Spelled2(s: string)
    requires Spells(s, "eightwothree")
    ensures Value2(s, AsWrittenStart) == Some(83)
  {
    Line2(s);
  }

  lemma Spelled3(s: string)
    requires Spells(s, "abcone2threexyz")
    ensures Value2(s, AsWrittenStart) == Some(13)
  {
    Line3(s);
  }

  lemma Spelled4(s: string)
    requires Spells(s, "xtwone3four")
    ensures Value2(s, AsWrittenStart) == Some(24)
  {
    Line4(s);
  }

  lemma Spelled5(s: string)
    requires Spells(s, "4nineeightseven2")
    ensures Value2(s, AsWrittenStart) == Some(42)
  {
    Line5(s);
  }

  lemma Spelled6(s: string)
    requires Spells(s, "zoneight234")
    ensures Value2(s, AsWrittenStart) == Some(14)
  {
    Line6(s);
  }

  lemma Spelled7(s: string)
    requires Spells(s, "7pqrstsixteen")
    ensures Value2(s, AsWrittenStart) == Some(76)
  {
    Line7(s);
  }

  /** The example of part_2 sums to 281. The document is any sequence whose
      lines spell the seven example lines, so that the solver reasons about
      their characters rather than evaluating part_2 on string literals. */
  lemma Part2Example(doc: seq<string>)
    requires |doc| == 7
    requires Spells(doc[0], "two1nine")
    requires Spells(doc[1], "eightwothree")
    requires Spells(doc[2], "abcone2threexyz")
    requires Spells(doc[3], "xtwone3four")
    requires Spells(doc[4], "4nineeightseven2")
    requires Spells(doc[5], "zoneight234")
    requires Spells(doc[6], "7pqrstsixteen")
    ensures Sum2(doc, AsWrittenStart) == Some(281)
    ensures Sum2(doc, CorrectedStart) == Some(281)
  {
    Spelled1(doc[0]);
    Spelled2(doc[1]);
    Spelled3(doc[2]);
    Spelled4(doc[3]);
    Spelled5(doc[4]);
    Spelled6(doc[5]);
    Spelled7(doc[6]);
    ExampleValues(doc);
    ExampleTotal();
    Sum2Agree(doc);
  }
}
