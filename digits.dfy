/**
 * Decimal digits as 01.py and 03.py read them: `int(c)` on a one-character
 * string and `c.isdigit()`, which agree on the ASCII digits.
 */
module Digits {

  /** int(c) succeeds on a one-character string, and c.isdigit() holds,
      exactly when c is an ASCII digit. */
  predicate IsDigit(c: char) {
    '0' <= c <= '9'
  }

  /** int(c) of a digit. */
  function DigitValue(c: char): (v: nat)
    requires IsDigit(c)
    ensures v <= 9
  {
    c as int - '0' as int
  }
}
