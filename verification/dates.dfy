/**
 * Calendar days as the booking routes see them: a request date is a
 * "YYYY-MM-DD" string, turned into a day by a restricted parser that accepts
 * exactly that shape, and two days are compared in calendar order.
 */
module Dates {
  import opened Wrappers
  import opened Text

  datatype Day = Day(year: nat, month: nat, day: nat)

  predicate IsLeapYear(y: nat) { (y % 4 == 0 && y % 100 != 0) || y % 400 == 0 }

  function DaysInMonth(y: nat, m: nat): nat
    requires 1 <= m <= 12
  {
    if m == 2 then (if IsLeapYear(y) then 29 else 28)
    else if m == 4 || m == 6 || m == 9 || m == 11 then 30
    else 31
  }

  /** A day that exists in the Gregorian calendar and has a four-digit year. */
  predicate ValidDay(d: Day) {
    && d.year <= 9999
    && 1 <= d.month <= 12
    && 1 <= d.day <= DaysInMonth(d.year, d.month)
  }

  /** The day read as the number YYYYMMDD, which orders valid days like their timestamps. */
  function DayNumber(d: Day): nat {
    d.year * 10000 + d.month * 100 + d.day
  }

  /** Strict calendar order: `a` falls before `b`. */
  predicate Before(a: Day, b: Day)
    ensures ValidDay(a) && ValidDay(b) ==> (Before(a, b) <==> DayNumber(a) < DayNumber(b))
  {
    || a.year < b.year
    || (a.year == b.year && a.month < b.month)
    || (a.year == b.year && a.month == b.month && a.day < b.day)
  }

  /** `Before` is a strict total order, so "not before" means "same day or later". */
  lemma BeforeIsStrictTotalOrder(a: Day, b: Day, c: Day)
    ensures !Before(a, a)
    ensures Before(a, b) ==> !Before(b, a)
    ensures Before(a, b) && Before(b, c) ==> Before(a, c)
    ensures a == b || Before(a, b) || Before(b, a)
  {
  }

  /** The ISO-8601 calendar-date rendering "YYYY-MM-DD". */
  function FormatDay(d: Day): (s: string)
    requires ValidDay(d)
    ensures |s| == 10 && s[4] == '-' && s[7] == '-'
  {
    Fixed(d.year, 4) + "-" + Fixed(d.month, 2) + "-" + Fixed(d.day, 2)
  }

  /**
   * Parses "YYYY-MM-DD"; any other shape, or a day that does not exist,
   * is an invalid date.
   */
  function ParseDay(s: string): (r: Option<Day>)
    ensures r.Some? ==> ValidDay(r.value)
  {
    if |s| == 10 && s[4] == '-' && s[7] == '-'
       && AllDigits(s[..4]) && AllDigits(s[5..7]) && AllDigits(s[8..])
    then
      var d := Day(ValueOf(s[..4]), ValueOf(s[5..7]), ValueOf(s[8..]));
      if ValidDay(d) then Some(d) else None
    else None
  }

  /** Every valid day survives rendering and parsing back. */
  lemma ParseFormat(d: Day)
    requires ValidDay(d)
    ensures ParseDay(FormatDay(d)) == Some(d)
  {
    var y, m, dd := Fixed(d.year, 4), Fixed(d.month, 2), Fixed(d.day, 2);
    var s := FormatDay(d);
    assert s[..4] == y && s[5..7] == m && s[8..] == dd;
    ValueOfFixed(d.year, 4);
    ValueOfFixed(d.month, 2);
    ValueOfFixed(d.day, 2);
  }

  /** A string the parser accepts is exactly the rendering of the day it yields. */
  lemma FormatParse(s: string)
    requires ParseDay(s).Some?
    ensures FormatDay(ParseDay(s).value) == s
  {
    FixedValueOf(s[..4]);
    FixedValueOf(s[5..7]);
    FixedValueOf(s[8..]);
    assert s == s[..4] + "-" + s[5..7] + "-" + s[8..];
  }
}
