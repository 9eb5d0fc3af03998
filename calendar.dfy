/** Calendar dates and instants as the backend compares them.
    The backend keeps dates as ISO `YYYY-MM-DD` strings and compares them as
    strings; for four-digit years that is the same as comparing
    (year, month, day) lexicographically, which is what `Before` does here.
    Instants (`created_at`, "now") are a date plus the microsecond of that day,
    the resolution of a Postgres `timestamptz`. */
module Calendar {

  predicate IsLeapYear(y: int) {
    y % 4 == 0 && (y % 100 != 0 || y % 400 == 0)
  }

  /** Number of days of month `m` (1..12) of year `y` in the Gregorian calendar. */
  function DaysInMonth(y: int, m: int): (n: int)
    requires 1 <= m <= 12
    ensures 28 <= n <= 31
    ensures m == 2 ==> (n == 29 <==> IsLeapYear(y))
    ensures m == 4 || m == 6 || m == 9 || m == 11 ==> n == 30
    ensures m != 2 && m != 4 && m != 6 && m != 9 && m != 11 ==> n == 31
  {
    if m == 2 then (if IsLeapYear(y) then 29 else 28)
    else if m == 4 || m == 6 || m == 9 || m == 11 then 30
    else 31
  }

  datatype YMD = YMD(year: int, month: int, day: int)

  /** A calendar date that exists. */
  type Date = d: YMD | 1 <= d.month <= 12 && 1 <= d.day <= DaysInMonth(d.year, d.month)
    witness YMD(2000, 1, 1)

  /** Strictly earlier: the order of the ISO strings. */
  predicate Before(a: Date, b: Date) {
    a.year < b.year
    || (a.year == b.year && a.month < b.month)
    || (a.year == b.year && a.month == b.month && a.day < b.day)
  }

  predicate AtOrBefore(a: Date, b: Date) {
    Before(a, b) || a == b
  }

  /** Inclusive window test, the `gte(lo).lte(hi)` pair of the queries. */
  predicate InWindow(d: Date, lo: Date, hi: Date) {
    AtOrBefore(lo, d) && AtOrBefore(d, hi)
  }

  lemma AtOrBeforeTotal(a: Date, b: Date)
    ensures AtOrBefore(a, b) || AtOrBefore(b, a)
  {
  }

  lemma AtOrBeforeTransitive(a: Date, b: Date, c: Date)
    requires AtOrBefore(a, b) && AtOrBefore(b, c)
    ensures AtOrBefore(a, c)
  {
  }

  /** The following calendar day: what `Date.now() + 86400000` lands on. */
  function NextDay(d: Date): (r: Date)
    ensures Before(d, r)
  {
    if d.day < DaysInMonth(d.year, d.month) then YMD(d.year, d.month, d.day + 1)
    else if d.month < 12 then YMD(d.year, d.month + 1, 1)
    else YMD(d.year + 1, 1, 1)
  }

  /** No date lies strictly between a day and the next one. */
  lemma NextDayIsSuccessor(d: Date, x: Date)
    requires Before(d, x)
    ensures AtOrBefore(NextDay(d), x)
  {
  }

  // ---------------------------------------------------------------- months

  datatype YearMonth = YearMonth(year: int, month: int)

  /** A `YYYY-MM` value with a month in 1..12. */
  type Month = ym: YearMonth | 1 <= ym.month <= 12 witness YearMonth(2000, 1)

  function MonthOf(d: Date): Month {
    YearMonth(d.year, d.month)
  }

  /** `${month}-01` */
  function FirstDay(ym: Month): Date {
    YMD(ym.year, ym.month, 1)
  }

  /** `new Date(y, m, 0)`: day 0 of the next month, the last day of this one. */
  function LastDay(ym: Month): Date {
    YMD(ym.year, ym.month, DaysInMonth(ym.year, ym.month))
  }

  /** `new Date(y, m + 1, 1)`: the month after `ym`, rolling into January. */
  function NextMonth(ym: Month): (r: Month)
    ensures Before(LastDay(ym), FirstDay(r))
  {
    if ym.month == 12 then YearMonth(ym.year + 1, 1) else YearMonth(ym.year, ym.month + 1)
  }

  /** The window [first day, last day] holds exactly the dates of that month. */
  lemma MonthWindowExact(d: Date, ym: Month)
    ensures InWindow(d, FirstDay(ym), LastDay(ym)) <==> MonthOf(d) == ym
  {
  }

  /** The window of a month and the window of the month after it share no date. */
  lemma MonthWindowsDisjoint(d: Date, ym: Month)
    ensures !(InWindow(d, FirstDay(ym), LastDay(ym)) && InWindow(d, FirstDay(NextMonth(ym)), LastDay(NextMonth(ym))))
  {
    MonthWindowExact(d, ym);
    MonthWindowExact(d, NextMonth(ym));
  }

  // -------------------------------------------------------------- instants

  const MicrosPerDay: int := 86_400_000_000

  /** `T23:59:59` as a microsecond of the day. */
  const LastWholeSecond: int := 86_399_000_000

  datatype Stamp = Stamp(date: Date, micros: int)

  /** A `timestamptz` value: a date and the microsecond within it. */
  type Instant = t: Stamp | 0 <= t.micros < MicrosPerDay witness Stamp(YMD(2000, 1, 1), 0)

  /** A bare `YYYY-MM-DD` used as a timestamp bound is that day's midnight. */
  function Midnight(d: Date): Instant {
    Stamp(d, 0)
  }

  /** `${d}T23:59:59` */
  function EndOfDayBound(d: Date): Instant {
    Stamp(d, LastWholeSecond)
  }

  predicate InstantBefore(a: Instant, b: Instant) {
    Before(a.date, b.date) || (a.date == b.date && a.micros < b.micros)
  }

  predicate InstantAtOrBefore(a: Instant, b: Instant) {
    InstantBefore(a, b) || a == b
  }

  lemma InstantAtOrBeforeTotal(a: Instant, b: Instant)
    ensures InstantAtOrBefore(a, b) || InstantAtOrBefore(b, a)
  {
  }

  lemma InstantAtOrBeforeTransitive(a: Instant, b: Instant, c: Instant)
    requires InstantAtOrBefore(a, b) && InstantAtOrBefore(b, c)
    ensures InstantAtOrBefore(a, c)
  {
  }

  /** Comparing an instant with a midnight bound is comparing its date. */
  lemma MidnightLowerBound(t: Instant, d: Date)
    ensures InstantAtOrBefore(Midnight(d), t) <==> AtOrBefore(d, t.date)
  {
  }
}
