/** Due dates are ISO calendar dates "YYYY-MM-DD". The sort compares them by
    timestamp; for such strings the timestamp order is the order of
    (year, month, day), which DateKey encodes as one integer. */
module Dates {

  predicate IsDigit(c: char)
  {
    '0' <= c <= '9'
  }

  /** The value of a string of decimal digits. */
  function DecimalValue(s: string): (n: nat)
    requires forall i :: 0 <= i < |s| ==> IsDigit(s[i])
    ensures |s| <= 1 ==> n <= 9
    ensures |s| <= 2 ==> n <= 99
    decreases |s|
  {
    if s == [] then 0
    else
      assert IsDigit(s[|s| - 1]);
      DecimalValue(s[..|s| - 1]) * 10 + (s[|s| - 1] as int - '0' as int)
  }

  /** A string shaped "YYYY-MM-DD": four digits, a dash, two digits, a dash, two digits. */
  predicate IsIsoDate(d: string)
  {
    |d| == 10 && d[4] == '-' && d[7] == '-'
    && forall i :: 0 <= i < 10 && i != 4 && i != 7 ==> IsDigit(d[i])
  }

  function Year(d: string): nat
    requires IsIsoDate(d)
  {
    DecimalValue(d[..4])
  }

  function Month(d: string): (m: nat)
    requires IsIsoDate(d)
    ensures m <= 99
  {
    DecimalValue(d[5..7])
  }

  function Day(d: string): (n: nat)
    requires IsIsoDate(d)
    ensures n <= 99
  {
    DecimalValue(d[8..10])
  }

  /** The sort key of a due date: year, month and day packed into one integer, so that
      comparing keys compares dates; any other string gets key 0. */
  function DateKey(d: string): int
  {
    if IsIsoDate(d) then Year(d) * 10000 + Month(d) * 100 + Day(d) else 0
  }

  /** (y1, m1, n1) is not later than (y2, m2, n2) in calendar order. */
  predicate NotLater(y1: int, m1: int, n1: int, y2: int, m2: int, n2: int)
  {
    y1 < y2 || (y1 == y2 && (m1 < m2 || (m1 == m2 && n1 <= n2)))
  }

  /** Comparing keys of two ISO dates is comparing them year first, then month, then day. */
  lemma DateKeyOrder(a: string, b: string)
    requires IsIsoDate(a) && IsIsoDate(b)
    ensures DateKey(a) <= DateKey(b) <==> NotLater(Year(a), Month(a), Day(a), Year(b), Month(b), Day(b))
  {
  }
}
