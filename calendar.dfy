/**
 * Calendar instants in the server's local time zone, as the JavaScript `Date`
 * values that the budget job builds and compares. Months are numbered 0..11,
 * as `Date.prototype.getMonth` numbers them.
 */
module Calendar {

  const MsPerDay: int := 86_400_000

  /** Gregorian leap-year rule. */
  predicate IsLeapYear(y: int) {
    (y % 4 == 0 && y % 100 != 0) || y % 400 == 0
  }

  /** Number of days of month `m` (0 = January) of year `y`. */
  function DaysInMonth(y: int, m: int): (n: int)
    requires 0 <= m < 12
    ensures 28 <= n <= 31
    ensures m == 1 ==> (n == 29 <==> IsLeapYear(y))
    ensures m != 1 ==> (n == 30 <==> m == 3 || m == 5 || m == 8 || m == 10)
  {
    if m == 1 then (if IsLeapYear(y) then 29 else 28)
    else if m == 3 || m == 5 || m == 8 || m == 10 then 30
    else 31
  }

  datatype DateTime = DateTime(year: int, month: int, day: int, ms: int)

  /** A real calendar instant: a month 0..11, a day of that month and a millisecond of the day. */
  predicate ValidDateTime(t: DateTime) {
    && 0 <= t.month < 12
    && 1 <= t.day <= DaysInMonth(t.year, t.month)
    && 0 <= t.ms < MsPerDay
  }

  type Instant = t: DateTime | ValidDateTime(t) witness DateTime(1970, 0, 1, 0)

  /** Months counted from year 0, so that two instants share a calendar month iff this agrees. */
  function MonthIndex(t: Instant): int {
    t.year * 12 + t.month
  }

  /**
   * A number that orders instants as time does (years, then months, days and
   * milliseconds). Comparing two `Date`s with `<=` compares these.
   */
  function Ordinal(t: Instant): int {
    (MonthIndex(t) * 32 + t.day) * MsPerDay + t.ms
  }

  /**
   * `new Date(y, m, d)`: midnight of day `d` of month `m`, where a month outside
   * 0..11 carries into the year and a day outside the month carries into the
   * neighbouring months (so day 0 is the last day of the previous month).
   */
  function NewDate(y: int, m: int, d: int): (r: Instant)
    ensures r.ms == 0
    ensures 0 <= m < 12 && 1 <= d <= DaysInMonth(y, m) ==> r == DateTime(y, m, d, 0)
  {
    NormalizeDay(y + m / 12, m % 12, d)
  }

  function NormalizeDay(y: int, m: int, d: int): (r: Instant)
    requires 0 <= m < 12
    ensures r.ms == 0
    ensures 1 <= d <= DaysInMonth(y, m) ==> r == DateTime(y, m, d, 0)
    decreases if d < 1 then 1 else 0, if d < 1 then -d else d
  {
    if d < 1 then
      var py := if m == 0 then y - 1 else y;
      var pm := if m == 0 then 11 else m - 1;
      NormalizeDay(py, pm, d + DaysInMonth(py, pm))
    else if d > DaysInMonth(y, m) then
      var ny := if m == 11 then y + 1 else y;
      var nm := if m == 11 then 0 else m + 1;
      NormalizeDay(ny, nm, d - DaysInMonth(y, m))
    else
      DateTime(y, m, d, 0)
  }

  /** A month outside 0..11 carries into the year: month 12 of year y is January of year y + 1. */
  lemma NewDateMonthCarry(y: int, m: int, d: int)
    ensures NewDate(y, m + 12, d) == NewDate(y + 1, m, d)
  {
    assert (m + 12) / 12 == m / 12 + 1 && (m + 12) % 12 == m % 12;
  }

  /** A day past the month's end rolls over into the next month. */
  lemma DayRollsForward(y: int, m: int, d: int)
    requires 0 <= m < 12
    requires DaysInMonth(y, m) < d <= DaysInMonth(y, m) + DaysInMonth(if m == 11 then y + 1 else y, (m + 1) % 12)
    ensures NormalizeDay(y, m, d) == DateTime(if m == 11 then y + 1 else y, (m + 1) % 12, d - DaysInMonth(y, m), 0)
  {
  }

  /** A day before the first rolls back into the previous month: day 0 is its last day. */
  lemma DayRollsBack(y: int, m: int, d: int)
    requires 0 <= m < 12
    requires 1 - DaysInMonth(if m == 0 then y - 1 else y, (m + 11) % 12) <= d < 1
    ensures NormalizeDay(y, m, d) == DateTime(if m == 0 then y - 1 else y, (m + 11) % 12,
                                              d + DaysInMonth(if m == 0 then y - 1 else y, (m + 11) % 12), 0)
  {
  }

  /** `new Date(y, m, 1)` is midnight on the first day of month `m`. */
  lemma FirstOfMonth(y: int, m: int)
    requires 0 <= m < 12
    ensures NewDate(y, m, 1) == DateTime(y, m, 1, 0)
  {
    assert m / 12 == 0 && m % 12 == m;
  }

  /**
   * `new Date(y, m + 1, 0)` is midnight at the START of the last calendar day
   * of month `m`, across the December-to-January carry and leap years.
   */
  lemma LastOfMonth(y: int, m: int)
    requires 0 <= m < 12
    ensures NewDate(y, m + 1, 0) == DateTime(y, m, DaysInMonth(y, m), 0)
  {
    if m == 11 {
      assert (m + 1) / 12 == 1 && (m + 1) % 12 == 0;
      assert NormalizeDay(y + 1, 0, 0) == NormalizeDay(y, 11, 31);
    } else {
      assert (m + 1) / 12 == 0 && (m + 1) % 12 == m + 1;
      assert NormalizeDay(y, m + 1, 0) == NormalizeDay(y, m, DaysInMonth(y, m));
    }
  }

  /** An earlier calendar month means an earlier instant, whatever the day and time. */
  lemma EarlierMonthIsEarlier(a: Instant, b: Instant)
    requires MonthIndex(a) < MonthIndex(b)
    ensures Ordinal(a) < Ordinal(b)
  {
    assert Ordinal(a) < (MonthIndex(a) * 32 + 32) * MsPerDay;
    assert (MonthIndex(a) * 32 + 32) * MsPerDay <= MonthIndex(b) * 32 * MsPerDay;
  }

  /** Two instants share a month index iff they agree on both month and year. */
  lemma MonthIndexInjective(a: Instant, b: Instant)
    ensures MonthIndex(a) == MonthIndex(b) <==> (a.year == b.year && a.month == b.month)
  {
  }
}
