/** The records the expense report page works on, and the text of a year as
    the page compares it with the year selector. */
module Transactions {

  datatype Option<+T> = None | Some(value: T)

  /** One income or expense record as the report page receives it.
      `kind` is the record's `type` field, a free-form tag that the page
      compares with "income" and "expense"; `amount` is in minor currency
      units; `dateYear` is the calendar year of the record's date, or None
      when the date does not parse (JavaScript's Invalid Date). */
  datatype Transaction = Transaction(
    id: string,
    kind: string,
    amount: int,
    category: string,
    dateYear: Option<int>)

  /** The character of a decimal digit. */
  function DigitChar(d: nat): (c: char)
    requires d < 10
    ensures '0' <= c <= '9'
  {
    ('0' as int + d) as char
  }

  predicate IsDigit(c: char) {
    '0' <= c <= '9'
  }

  predicate AllDigits(s: string) {
    forall i :: 0 <= i < |s| ==> IsDigit(s[i])
  }

  /** The decimal text of a natural number: digits only, no leading zero. */
  function NatString(n: nat): (s: string)
    ensures |s| >= 1 && AllDigits(s)
    ensures |s| == 1 <==> n < 10
    ensures |s| > 1 ==> s[0] != '0'
    decreases n
  {
    if n < 10 then [DigitChar(n)] else NatString(n / 10) + [DigitChar(n % 10)]
  }

  /** The number a string of decimal digits denotes, read left to right. */
  function DigitsValue(s: string): nat
    requires AllDigits(s)
  {
    if s == [] then 0
    else DigitsValue(s[..|s| - 1]) * 10 + (s[|s| - 1] as int - '0' as int)
  }

  /** Reading the decimal text of `n` gives back `n`. */
  lemma {:induction false} NatStringRoundTrip(n: nat)
    ensures DigitsValue(NatString(n)) == n
  {
    var s := NatString(n);
    if n >= 10 {
      NatStringRoundTrip(n / 10);
      assert s[..|s| - 1] == NatString(n / 10);
    }
  }

  /** `getFullYear().toString()`: the decimal text of an integral year,
      with a leading '-' for a year before year 0. */
  function YearString(y: int): (s: string)
    ensures |s| >= 1
    ensures y >= 0 <==> IsDigit(s[0])
    ensures y < 0 <==> s[0] == '-'
  {
    if y < 0 then "-" + NatString(-y) else NatString(y)
  }

  /** Two years have the same text exactly when they are the same year. */
  lemma YearStringInjective(a: int, b: int)
    ensures YearString(a) == YearString(b) <==> a == b
  {
    if YearString(a) == YearString(b) {
      if a < 0 {
        assert YearString(a)[1..] == NatString(-a);
        assert YearString(b)[1..] == NatString(-b);
        NatStringRoundTrip(-a);
        NatStringRoundTrip(-b);
      } else {
        NatStringRoundTrip(a);
        NatStringRoundTrip(b);
      }
    }
  }

  /** The text of a record's year as the page computes it: the year's
      decimal text, or "NaN" for a date that does not parse. */
  function DateYearText(d: Option<int>): (s: string)
    ensures d.None? <==> s == "NaN"
  {
    match d
    case None => "NaN"
    case Some(y) => YearString(y)
  }

  /** A record's year text equals the text of year `y` exactly when the
      record is dated in year `y`. */
  lemma DateYearTextMatches(d: Option<int>, y: int)
    ensures DateYearText(d) == YearString(y) <==> d == Some(y)
  {
    match d
    case None =>
    case Some(x) => YearStringInjective(x, y);
  }
}
