/** Dates in the zero-padded `YYYY-MM-DD` form, with a four-digit year, that
    `<input type="date">` yields for such years and the order records carry. The orders page compares them as
    strings; this module shows that, on well-formed dates, string order is
    exactly the order of (year, month, day). */
module Dates {
  import opened Text

  predicate IsDigit(c: char)
  {
    '0' <= c <= '9'
  }

  predicate AllDigits(s: string)
  {
    forall i :: 0 <= i < |s| ==> IsDigit(s[i])
  }

  /** Four digits, a dash, two digits, a dash, two digits. */
  predicate WellFormed(s: string)
  {
    |s| == 10 && s[4] == '-' && s[7] == '-' &&
    AllDigits(s[..4]) && AllDigits(s[5..7]) && AllDigits(s[8..])
  }

  /** A string of ten characters with dashes at 4 and 7 and digits elsewhere is well formed. */
  lemma WellFormedDate(s: string)
    requires |s| == 10 && s[4] == '-' && s[7] == '-'
    requires IsDigit(s[0]) && IsDigit(s[1]) && IsDigit(s[2]) && IsDigit(s[3])
    requires IsDigit(s[5]) && IsDigit(s[6]) && IsDigit(s[8]) && IsDigit(s[9])
    ensures WellFormed(s)
  {
  }

  /** The value of a decimal numeral, read left to right as `10 * value + digit`. */
  function Value(s: string): nat
    requires AllDigits(s)
    decreases |s|
  {
    if s == [] then 0 else 10 * Value(s[..|s| - 1]) + (s[|s| - 1] as int - '0' as int)
  }

  function Year(s: string): nat requires WellFormed(s) { Value(s[..4]) }
  function Month(s: string): nat requires WellFormed(s) { Value(s[5..7]) }
  function Day(s: string): nat requires WellFormed(s) { Value(s[8..]) }

  /** The calendar order on (year, month, day), compared field by field. */
  predicate Before(a: string, b: string)
    requires WellFormed(a) && WellFormed(b)
  {
    Year(a) < Year(b) ||
    (Year(a) == Year(b) && (Month(a) < Month(b) || (Month(a) == Month(b) && Day(a) < Day(b))))
  }

  /** On numerals of the same length, string order is numeric order: this is
      why the padding to fixed width matters. */
  lemma {:induction false} LessIsNumeric(x: string, y: string)
    requires AllDigits(x) && AllDigits(y) && |x| == |y|
    ensures Less(x, y) <==> Value(x) < Value(y)
    ensures x == y <==> Value(x) == Value(y)
    decreases |x|
  {
    LessTrichotomy(x, y);
    if x != [] {
      var n := |x| - 1;
      assert x == x[..n] + [x[n]] && y == y[..n] + [y[n]];
      LessConcat(x[..n], [x[n]], y[..n], [y[n]]);
      LessIsNumeric(x[..n], y[..n]);
    }
  }

  /** On well-formed dates, comparing the strings (as the orders page does)
      agrees with comparing the calendar dates. */
  lemma StringOrderIsCalendarOrder(a: string, b: string)
    requires WellFormed(a) && WellFormed(b)
    ensures Less(a, b) <==> Before(a, b)
    ensures a == b <==> Year(a) == Year(b) && Month(a) == Month(b) && Day(a) == Day(b)
  {
    var dash := "-";
    assert a == a[..4] + (dash + (a[5..7] + (dash + a[8..])));
    assert b == b[..4] + (dash + (b[5..7] + (dash + b[8..])));
    LessConcat(a[..4], dash + (a[5..7] + (dash + a[8..])), b[..4], dash + (b[5..7] + (dash + b[8..])));
    LessConcat(dash, a[5..7] + (dash + a[8..]), dash, b[5..7] + (dash + b[8..]));
    LessConcat(a[5..7], dash + a[8..], b[5..7], dash + b[8..]);
    LessConcat(dash, a[8..], dash, b[8..]);
    LessIrreflexive(dash);
    LessIsNumeric(a[..4], b[..4]);
    LessIsNumeric(a[5..7], b[5..7]);
    LessIsNumeric(a[8..], b[8..]);
  }
}
