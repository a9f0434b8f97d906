/**
 * Calendar dates as Django's `DateField` holds them (Python `datetime.date`),
 * with the `TruncMonth` and `TruncQuarter` database functions used to bucket sales.
 */
module Dates {

  datatype Date = Date(year: int, month: int, day: int)

  /** Python's `date` range: years 1 to 9999. */
  const MinYear := 1
  const MaxYear := 9999

  predicate IsLeapYear(y: int) {
    (y % 4 == 0 && y % 100 != 0) || y % 400 == 0
  }

  function DaysInMonth(y: int, m: int): (n: int)
    requires 1 <= m <= 12
    ensures 28 <= n <= 31
    ensures n == 29 <==> m == 2 && IsLeapYear(y)
  {
    if m == 2 then (if IsLeapYear(y) then 29 else 28)
    else if m == 4 || m == 6 || m == 9 || m == 11 then 30
    else 31
  }

  /** A real calendar date: what a `DateField` accepts and stores. */
  predicate ValidDate(d: Date) {
    && MinYear <= d.year <= MaxYear
    && 1 <= d.month <= 12
    && 1 <= d.day <= DaysInMonth(d.year, d.month)
  }

  /** Chronological order (`a <= b`), as the `__gte` / `__lte` lookups compare dates. */
  predicate OnOrBefore(a: Date, b: Date) {
    || a.year < b.year
    || (a.year == b.year && a.month < b.month)
    || (a.year == b.year && a.month == b.month && a.day <= b.day)
  }

  /** The quarter (0 to 3) a month falls in. */
  function QuarterOf(m: int): int {
    (m - 1) / 3
  }

  /** `TruncMonth('fecha')`: the first day of the date's month. */
  function TruncMonth(d: Date): (r: Date)
    ensures r.year == d.year && r.month == d.month && r.day == 1
    ensures ValidDate(d) ==> ValidDate(r) && OnOrBefore(r, d)
    ensures forall e :: ValidDate(e) && e.year == d.year && e.month == d.month ==> OnOrBefore(r, e)
  {
    Date(d.year, d.month, 1)
  }

  /** `TruncQuarter('fecha')`: the first day of the date's quarter (January, April, July or October). */
  function TruncQuarter(d: Date): (r: Date)
    ensures r.year == d.year && r.day == 1
    ensures ValidDate(d) ==> ValidDate(r) && OnOrBefore(r, d)
    ensures ValidDate(d) ==> r.month in {1, 4, 7, 10} && QuarterOf(r.month) == QuarterOf(d.month)
    ensures forall e :: ValidDate(e) && e.year == d.year && QuarterOf(e.month) == QuarterOf(d.month) ==> OnOrBefore(r, e)
  {
    Date(d.year, 3 * QuarterOf(d.month) + 1, 1)
  }

  /** Two valid dates share a monthly bucket exactly when they are in the same month of the same year. */
  lemma SameMonthBucket(d: Date, e: Date)
    requires ValidDate(d) && ValidDate(e)
    ensures TruncMonth(d) == TruncMonth(e) <==> d.year == e.year && d.month == e.month
  {
  }

  /** Two valid dates share a quarterly bucket exactly when they are in the same quarter of the same year. */
  lemma SameQuarterBucket(d: Date, e: Date)
    requires ValidDate(d) && ValidDate(e)
    ensures TruncQuarter(d) == TruncQuarter(e) <==> d.year == e.year && QuarterOf(d.month) == QuarterOf(e.month)
  {
  }

  /** Quarters are unions of months: bucketing the month start by quarter gives the date's quarter. */
  lemma QuarterOfMonthStart(d: Date)
    requires ValidDate(d)
    ensures TruncQuarter(TruncMonth(d)) == TruncQuarter(d)
  {
  }

  /** Truncation is idempotent: a bucket key is its own bucket. */
  lemma TruncIdempotent(d: Date)
    ensures TruncMonth(TruncMonth(d)) == TruncMonth(d)
    ensures TruncQuarter(TruncQuarter(d)) == TruncQuarter(d)
  {
  }
}
