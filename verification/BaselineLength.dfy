/**
 * Is the comparison baseline as long as its period? Custom periods always have such a baseline;
 * calendar periods are compared with as many months, and the calendar decides about the days.
 */
module BaselineLength {
  import opened BillingCycle
  import opened ReportingTime
  import opened AnalyticsPeriod

  function Duration(r: Range): int {
    r.end - r.start
  }

  // ---------------------------------------------------------------- days of a year

  /** Days of a year before its month with index `j`, or in the whole year when `j` is twelve. */
  function DaysBefore(j: int, leap: bool): int {
    var extra := if leap then 1 else 0;
    if j <= 0 then 0
    else if j == 1 then 31
    else if j == 2 then 59 + extra
    else if j == 3 then 90 + extra
    else if j == 4 then 120 + extra
    else if j == 5 then 151 + extra
    else if j == 6 then 181 + extra
    else if j == 7 then 212 + extra
    else if j == 8 then 243 + extra
    else if j == 9 then 273 + extra
    else if j == 10 then 304 + extra
    else if j == 11 then 334 + extra
    else 365 + extra
  }

  lemma LengthOfMonth(n: int, year: int, j: int)
    requires n == 12 * year + j && 0 <= j < 12
    ensures MonthStart(n + 1) == MonthStart(n) + MonthLength(year, j + 1)
  {
    assert n / 12 == year && n % 12 == j;
    MonthStartStep(n);
  }

  lemma DaysBeforeStep(year: int, j: int)
    requires 0 <= j < 12
    ensures DaysBefore(j + 1, IsLeap(year)) == DaysBefore(j, IsLeap(year)) + MonthLength(year, j + 1)
  {
  }

  lemma {:induction false} MonthInYear(january: int, year: int, j: nat)
    requires january == 12 * year && j <= 12
    ensures MonthStart(january + j) == MonthStart(january) + DaysBefore(j, IsLeap(year))
  {
    if j > 0 {
      MonthInYear(january, year, j - 1);
      LengthOfMonth(january + j - 1, year, j - 1);
      DaysBeforeStep(year, j - 1);
    }
  }

  lemma LeapsApart(year: int)
    ensures !(IsLeap(year) && IsLeap(year + 1))
  {
  }

  // ---------------------------------------------------------------- months before and after

  /** One, three or six months from index `i` of a year on have as many days as those before them. */
  predicate AsLongAtIndex(i: int, k: int, leap: bool, after: bool) {
    if k == 1 then i == 0 || i == 7
    else if k == 3 then i == 5 || i == 7 || i == 9 || i == 10 || (i == 3 && leap) || (i == 11 && after)
    else ((i == 3 || i == 5) && leap) || ((i == 9 || i == 11) && after)
  }

  /** Days in the `k` months from the one with index `i` on, in a year and perhaps the next. */
  function SpanDays(i: int, k: int, leap: bool, nextLeap: bool): int {
    if i + k <= 12 then DaysBefore(i + k, leap) - DaysBefore(i, leap)
    else DaysBefore(12, leap) - DaysBefore(i, leap) + DaysBefore(i + k - 12, nextLeap)
  }

  /** Days in the `k` months before the one with index `i`. */
  function DaysBack(i: int, k: int, before: bool, leap: bool): int {
    if i >= k then SpanDays(i - k, k, leap, leap) else SpanDays(i - k + 12, k, before, leap)
  }

  /** No two years in a row are leap years. */
  lemma SpansCompare(i: int, k: int, before: bool, leap: bool, after: bool)
    requires 0 <= i < 12 && (k == 1 || k == 3 || k == 6)
    requires !(before && leap) && !(leap && after)
    ensures SpanDays(i, k, leap, after) == DaysBack(i, k, before, leap) <==> AsLongAtIndex(i, k, leap, after)
  {
  }

  /** A count of days that goes through the year from `january` on as the calendar does. */
  ghost predicate Follows(count: int -> int, january: int, leap: bool) {
    forall j :: 0 <= j <= 12 ==> InYear(count, january, leap, j)
  }

  predicate InYear(count: int -> int, january: int, leap: bool, j: int) {
    count(january + j) == count(january) + DaysBefore(j, leap)
  }

  /** The `k` months before month `n` and the `k` from it on have equally many days. */
  predicate EqualSpans(count: int -> int, n: int, k: int) {
    count(n + k) - count(n) == count(n) - count(n - k)
  }

  lemma DaysAhead(count: int -> int, january: int, i: int, k: int, leap: bool, after: bool)
    requires 0 <= i < 12 && 0 <= k <= 12 && Follows(count, january, leap) && Follows(count, january + 12, after)
    ensures count(january + i + k) - count(january + i) == SpanDays(i, k, leap, after)
  {
    assert InYear(count, january, leap, i);
    if i + k <= 12 {
      assert InYear(count, january, leap, i + k);
    } else {
      assert InYear(count, january, leap, 12) && InYear(count, january + 12, after, i + k - 12);
    }
  }

  lemma DaysBehind(count: int -> int, january: int, i: int, k: int, before: bool, leap: bool)
    requires 0 <= i < 12 && 0 < k <= 12 && Follows(count, january - 12, before) && Follows(count, january, leap)
    ensures count(january + i) - count(january + i - k) == DaysBack(i, k, before, leap)
  {
    assert InYear(count, january, leap, i);
    if i >= k {
      assert InYear(count, january, leap, i - k);
    } else {
      assert InYear(count, january - 12, before, 12) && InYear(count, january - 12, before, i - k + 12);
    }
  }

  lemma YearsByLeap(count: int -> int, january: int, before: bool, leap: bool)
    requires !(before && leap) && Follows(count, january - 12, before) && Follows(count, january, leap)
    ensures EqualSpans(count, january, 12) <==> !before && !leap
  {
    assert InYear(count, january - 12, before, 12) && InYear(count, january, leap, 12);
  }

  // ---------------------------------------------------------------- what the calendar says

  /**
   * The months numbered `n` to `n + k - 1` have as many days as the `k` months before them. For one
   * month: January and August. For three or six: read off the first month and the leap years. For a
   * calendar year: neither it nor the year before is a leap year.
   */
  predicate AsLongBefore(n: int, k: int) {
    var (year, month) := (n / 12, n % 12 + 1);
    if k == 1 then month in {1, 8}
    else if k == 3 then month in {6, 8, 10, 11} || (month == 4 && IsLeap(year)) || (month == 12 && IsLeap(year + 1))
    else if k == 6 then (month in {4, 6} && IsLeap(year)) || (month in {10, 12} && IsLeap(year + 1))
    else !IsLeap(year) && !IsLeap(year - 1)
  }

  lemma AsLongByIndex(n: int, year: int, i: int, k: int)
    requires n == 12 * year + i && 0 <= i < 12 && (k == 1 || k == 3 || k == 6)
    ensures AsLongBefore(n, k) <==> AsLongAtIndex(i, k, IsLeap(year), IsLeap(year + 1))
  {
    assert n / 12 == year && n % 12 == i;
  }

  function Starts(): int -> int {
    (n: int) => MonthStart(n)
  }

  lemma StartsFollow(january: int, year: int)
    requires january == 12 * year
    ensures Follows(Starts(), january, IsLeap(year))
  {
    forall j | 0 <= j <= 12 ensures InYear(Starts(), january, IsLeap(year), j) {
      MonthInYear(january, year, j);
    }
  }

  lemma MonthDays(n: int, year: int, i: int, k: int)
    requires n == 12 * year + i && 0 <= i < 12 && 0 < k <= 12
    ensures Starts()(n + k) - Starts()(n) == SpanDays(i, k, IsLeap(year), IsLeap(year + 1))
    ensures Starts()(n) - Starts()(n - k) == DaysBack(i, k, IsLeap(year - 1), IsLeap(year))
  {
    StartsFollow(n - i - 12, year - 1);
    StartsFollow(n - i, year);
    StartsFollow(n - i + 12, year + 1);
    DaysAhead(Starts(), n - i, i, k, IsLeap(year), IsLeap(year + 1));
    DaysBehind(Starts(), n - i, i, k, IsLeap(year - 1), IsLeap(year));
  }

  lemma MonthsCompare(n: int, year: int, i: int, k: int)
    requires n == 12 * year + i && 0 <= i < 12 && (k == 1 || k == 3 || k == 6)
    ensures EqualSpans(Starts(), n, k) <==> AsLongBefore(n, k)
  {
    MonthDays(n, year, i, k);
    LeapsApart(year - 1);
    LeapsApart(year);
    SpansCompare(i, k, IsLeap(year - 1), IsLeap(year), IsLeap(year + 1));
    AsLongByIndex(n, year, i, k);
  }

  lemma YearsCompare(n: int, year: int)
    requires n == 12 * year
    ensures EqualSpans(Starts(), n, 12) <==> AsLongBefore(n, 12)
  {
    StartsFollow(n - 12, year - 1);
    StartsFollow(n, year);
    LeapsApart(year - 1);
    YearsByLeap(Starts(), n, IsLeap(year - 1), IsLeap(year));
    assert n / 12 == year;
  }

  lemma PeriodsCompare(p: Period, n: int)
    requires SpanMonths(p) > 0
    ensures EqualSpans(Starts(), FirstMonth(p, n), SpanMonths(p)) <==> AsLongBefore(FirstMonth(p, n), SpanMonths(p))
  {
    var first := FirstMonth(p, n);
    if p.CurrentYear? {
      YearsCompare(first, n / 12);
    } else {
      MonthsCompare(first, first / 12, first % 12, SpanMonths(p));
    }
  }

  // ---------------------------------------------------------------- periods and their baselines

  lemma MonthRunDurations(r: Resolved, offsetMs: int, n: int, k: int)
    requires IsMonthRun(r, FixedOffset(offsetMs), n, k)
    ensures Duration(r.range) == (MonthStart(n + k) - MonthStart(n)) * DAY_MS
    ensures Duration(r.previous) == (MonthStart(n) - MonthStart(n - k)) * DAY_MS
  {
  }

  lemma EqualRuns(r: Resolved, offsetMs: int, n: int, k: int)
    requires IsMonthRun(r, FixedOffset(offsetMs), n, k)
    ensures Duration(r.range) == Duration(r.previous) <==> EqualSpans(Starts(), n, k)
  {
    MonthRunDurations(r, offsetMs, n, k);
  }

  /**
   * A calendar period and its baseline last equally long exactly when the calendar says so: the
   * months are counted alike, their days are not.
   */
  lemma EqualDurationExactly(z: Zone, offsetMs: int, now: int, p: Period)
    requires z == FixedOffset(offsetMs) && SpanMonths(p) > 0
    ensures var r := ResolveAnalyticsPeriod(z, now, p).value;
      Duration(r.range) == Duration(r.previous) <==> AsLongBefore(FirstMonth(p, MonthOf(z.dayOf(now))), SpanMonths(p))
  {
    var n := MonthOf(z.dayOf(now));
    CalendarPeriods(z, now, p);
    EqualRuns(ResolveAnalyticsPeriod(z, now, p).value, offsetMs, FirstMonth(p, n), SpanMonths(p));
    PeriodsCompare(p, n);
  }

  // ---------------------------------------------------------------- zones with clock changes

  /** How far the clocks of a zone are ahead of UTC as a month begins. */
  function OffsetAt(z: Zone, n: int): int {
    MonthStart(n) * DAY_MS - z.midnight(MonthStart(n))
  }

  /** How much more the clocks go forward during the `k` months from month `n` on than in those before. */
  function Bend(z: Zone, n: int, k: int): int {
    (OffsetAt(z, n + k) - OffsetAt(z, n)) - (OffsetAt(z, n) - OffsetAt(z, n - k))
  }

  /** How many days more the months from month `n` on have. */
  function DaysGained(n: int, k: int): int {
    (MonthStart(n + k) - MonthStart(n)) - (MonthStart(n) - MonthStart(n - k))
  }

  /** In any zone: a period is longer than its baseline by the days gained, less the hours put forward. */
  lemma DurationsDiffer(z: Zone, now: int, p: Period)
    requires SpanMonths(p) > 0
    ensures var r := ResolveAnalyticsPeriod(z, now, p).value;
      var (first, k) := (FirstMonth(p, MonthOf(z.dayOf(now))), SpanMonths(p));
      Duration(r.range) - Duration(r.previous) == DaysGained(first, k) * DAY_MS - Bend(z, first, k)
  {
    CalendarPeriods(z, now, p);
    RunsDiffer(ResolveAnalyticsPeriod(z, now, p).value, z, FirstMonth(p, MonthOf(z.dayOf(now))), SpanMonths(p));
  }

  lemma RunsDiffer(r: Resolved, z: Zone, n: int, k: int)
    requires IsMonthRun(r, z, n, k)
    ensures Duration(r.range) - Duration(r.previous) == DaysGained(n, k) * DAY_MS - Bend(z, n, k)
  {
  }

  predicate SmallShift(from: int, to: int) {
    -12 * HOUR_MS < to - from < 12 * HOUR_MS
  }

  /** At the three edges of months `n - k`, `n` and `n + k` the clocks differ by less than half a day. */
  predicate SmallShifts(z: Zone, n: int, k: int) {
    SmallShift(OffsetAt(z, n), OffsetAt(z, n + k)) && SmallShift(OffsetAt(z, n - k), OffsetAt(z, n))
  }

  lemma WholeDays(r: Resolved, days: int, shift: int)
    requires -DAY_MS < shift < DAY_MS && Duration(r.range) - Duration(r.previous) == days * DAY_MS - shift
    ensures Duration(r.range) == Duration(r.previous) <==> days == 0 && shift == 0
  {
  }

  lemma GainedNothing(n: int, k: int)
    ensures DaysGained(n, k) == 0 <==> EqualSpans(Starts(), n, k)
  {
  }

  lemma EqualRunsInZone(r: Resolved, z: Zone, n: int, k: int)
    requires IsMonthRun(r, z, n, k) && SmallShifts(z, n, k)
    ensures Duration(r.range) == Duration(r.previous) <==> EqualSpans(Starts(), n, k) && Bend(z, n, k) == 0
  {
    RunsDiffer(r, z, n, k);
    WholeDays(r, DaysGained(n, k), Bend(z, n, k));
    GainedNothing(n, k);
  }

  /**
   * Where the clocks change by less than half a day in either half, a period lasts as long as its
   * baseline exactly when the calendar says so and both halves put the clocks forward alike.
   */
  lemma EqualDurationInZone(z: Zone, now: int, p: Period)
    requires SpanMonths(p) > 0 && SmallShifts(z, FirstMonth(p, MonthOf(z.dayOf(now))), SpanMonths(p))
    ensures var r := ResolveAnalyticsPeriod(z, now, p).value;
      var (first, k) := (FirstMonth(p, MonthOf(z.dayOf(now))), SpanMonths(p));
      Duration(r.range) == Duration(r.previous) <==> AsLongBefore(first, k) && Bend(z, first, k) == 0
  {
    var n := MonthOf(z.dayOf(now));
    CalendarPeriods(z, now, p);
    EqualRunsInZone(ResolveAnalyticsPeriod(z, now, p).value, z, FirstMonth(p, n), SpanMonths(p));
    PeriodsCompare(p, n);
  }

  // ---------------------------------------------------------------- an input

  /** The current month, seen at its first instant. */
  lemma MonthAtItsStart(z: Zone, now: int, n: int)
    requires IsZone(z) && now == z.midnight(MonthStart(n))
    ensures IsMonthRun(ResolveAnalyticsPeriod(z, now, CurrentMonth).value, z, n, 1)
  {
    MidnightsOrdered(z, MonthStart(n), MonthStart(n));
    MonthStartStep(n);
    MonthOwnsItsDays(MonthStart(n), n);
    CalendarPeriods(z, now, CurrentMonth);
  }

  lemma MarchAndFebruary(year: int, march: int)
    requires year == 2026 && march == 12 * year + 2
    ensures MonthStart(march + 1) - MonthStart(march) == 31 && MonthStart(march) - MonthStart(march - 1) == 28
  {
    LengthOfMonth(march, year, 2);
    LengthOfMonth(march - 1, year, 1);
  }

  /** March 2026 in Jakarta, seven hours ahead of UTC: thirty-one days, compared with twenty-eight. */
  lemma MarchIsLongerThanFebruary(z: Zone, now: int, year: int, march: int)
    requires z == FixedOffset(7 * HOUR_MS) && year == 2026 && march == 12 * year + 2 && now == z.midnight(MonthStart(march))
    ensures var r := ResolveAnalyticsPeriod(z, now, CurrentMonth).value;
      Duration(r.range) == 31 * DAY_MS && Duration(r.previous) == 28 * DAY_MS
  {
    FixedOffsetIsZone(7 * HOUR_MS);
    MonthAtItsStart(z, now, march);
    MarchAndFebruary(year, march);
    MonthRunDurations(ResolveAnalyticsPeriod(z, now, CurrentMonth).value, 7 * HOUR_MS, march, 1);
  }
}
