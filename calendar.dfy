/**
 * Dates and month windows. A date is the calendar month it falls in plus the time elapsed
 * since that month began; dates compare by year, then month, then that elapsed time.
 * Time zones are not modelled: every date is read in one fixed local time.
 */
module Calendar {

  datatype Date = Date(year: int, month: int, offset: nat)

  /** A date that names a real month. */
  predicate IsInstant(d: Date)
  {
    1 <= d.month <= 12
  }

  /** `a` is strictly earlier than `b`. */
  predicate Before(a: Date, b: Date)
  {
    || a.year < b.year
    || (a.year == b.year && a.month < b.month)
    || (a.year == b.year && a.month == b.month && a.offset < b.offset)
  }

  predicate NotAfter(a: Date, b: Date)
  {
    !Before(b, a)
  }

  lemma NotAfterTransitive(a: Date, b: Date, c: Date)
    requires NotAfter(a, b) && NotAfter(b, c)
    ensures NotAfter(a, c)
  {
  }

  /** The Date constructor reads a year 0..99 as 1900..1999. */
  function FullYear(year: int): int
  {
    if 0 <= year <= 99 then 1900 + year else year
  }

  /**
   * `new Date(year, month - 1, 1)`: the first instant of month `month` (counted from 1) of
   * `year`; a month outside 1..12 is carried into the year, as the constructor does.
   */
  function MonthStart(year: int, month: int): (d: Date)
    ensures IsInstant(d) && d.offset == 0
    ensures 1 <= month <= 12 ==> d == Date(FullYear(year), month, 0)
  {
    Date(FullYear(year) + (month - 1) / 12, (month - 1) % 12 + 1, 0)
  }

  /** `MonthStart(year, month + 1)` is the start of the month right after `MonthStart(year, month)`. */
  lemma NextMonthStart(year: int, month: int)
    ensures var a, b := MonthStart(year, month), MonthStart(year, month + 1);
      if a.month == 12 then b == Date(a.year + 1, 1, 0) else b == Date(a.year, a.month + 1, 0)
  {
    var k := month - 1;
    var q, r := k / 12, k % 12;
    assert k == 12 * q + r && 0 <= r < 12;
    if r < 11 {
      assert k + 1 == 12 * q + (r + 1);
      assert (k + 1) / 12 == q && (k + 1) % 12 == r + 1;
    } else {
      assert k + 1 == 12 * (q + 1);
      assert (k + 1) / 12 == q + 1 && (k + 1) % 12 == 0;
    }
  }

  /** The half-open month window `[MonthStart(year, month), MonthStart(year, month + 1))`. */
  predicate InMonth(d: Date, year: int, month: int)
  {
    NotAfter(MonthStart(year, month), d) && Before(d, MonthStart(year, month + 1))
  }

  /** A date lies in the window exactly when it falls in the calendar month the window starts. */
  lemma InMonthIff(d: Date, year: int, month: int)
    requires IsInstant(d)
    ensures InMonth(d, year, month) <==>
      d.year == MonthStart(year, month).year && d.month == MonthStart(year, month).month
  {
    NextMonthStart(year, month);
  }
}
