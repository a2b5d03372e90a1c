/**
 * Calendar dates and the monthly arithmetic of the billing cycle.
 *
 * A date is a `full-date` of section 5.6 of RFC 3339; month lengths follow section 5.7.
 * The program keeps dates as strings with four-digit years and compares the strings; Before is
 * that order (CalendarText proves the two orders agree).
 */
module BillingCycle {
  import opened Common

  datatype Date = Date(year: int, month: int, day: int)

  predicate IsLeap(year: int) {
    year % 4 == 0 && (year % 100 != 0 || year % 400 == 0)
  }

  function MonthLength(year: int, month: int): (n: int)
    ensures 28 <= n <= 31
  {
    if month == 2 then if IsLeap(year) then 29 else 28
    else if month in {4, 6, 9, 11} then 30
    else 31
  }

  predicate IsReal(d: Date) {
    1 <= d.month <= 12 && 1 <= d.day <= MonthLength(d.year, d.month)
  }

  /** A date that exists in the calendar: what the program's date parsers let through. */
  type CalendarDate = d: Date | IsReal(d) witness Date(2000, 1, 1)

  predicate Before(a: Date, b: Date) {
    || a.year < b.year
    || (a.year == b.year && a.month < b.month)
    || (a.year == b.year && a.month == b.month && a.day < b.day)
  }

  predicate NotAfter(a: Date, b: Date) {
    a == b || Before(a, b)
  }

  predicate IsBillingDay(day: int) {
    1 <= day <= 31
  }

  // ---------------------------------------------------------------- months

  /** Months counted from year zero: the program's `year * 12 + monthIndex`. */
  function MonthNumber(d: Date): int {
    d.year * 12 + d.month - 1
  }

  /** The day `day` of the month numbered `n`, moved back to the last day of a shorter month. */
  function ClampDay(n: int, day: int): (d: Date)
    requires IsBillingDay(day)
    ensures IsReal(d) && MonthNumber(d) == n
    ensures d.day <= day && (d.day < day ==> d.day == MonthLength(d.year, d.month))
  {
    var last := MonthLength(n / 12, n % 12 + 1);
    Date(n / 12, n % 12 + 1, if day <= last then day else last)
  }

  function AddBillingMonth(d: Date, months: int): (r: Date)
    requires IsReal(d)
    ensures IsReal(r) && MonthNumber(r) == MonthNumber(d) + months
    ensures r.day <= d.day && (r.day < d.day ==> r.day == MonthLength(r.year, r.month))
  {
    ClampDay(MonthNumber(d) + months, d.day)
  }

  lemma MonthNumberIsExact(a: Date, b: Date)
    requires IsReal(a) && IsReal(b)
    ensures MonthNumber(a) == MonthNumber(b) <==> a.year == b.year && a.month == b.month
    ensures MonthNumber(a) < MonthNumber(b) ==> Before(a, b)
    ensures Before(a, b) ==> MonthNumber(a) <= MonthNumber(b)
  {
  }

  // ---------------------------------------------------------------- days

  /** Days before the first day of the month numbered `n`, counted from month zero. */
  function MonthStart(n: int): int
    decreases if n >= 0 then n else -n
  {
    if n == 0 then 0
    else if n > 0 then MonthStart(n - 1) + MonthLength((n - 1) / 12, (n - 1) % 12 + 1)
    else MonthStart(n + 1) - MonthLength(n / 12, n % 12 + 1)
  }

  /** The day number of a date: consecutive dates have consecutive numbers. */
  function DayNumber(d: Date): int {
    MonthStart(MonthNumber(d)) + d.day - 1
  }

  lemma MonthStartStep(n: int)
    ensures MonthStart(n + 1) == MonthStart(n) + MonthLength(n / 12, n % 12 + 1)
  {
  }

  lemma {:induction false} MonthStartGap(a: int, b: int)
    requires a <= b
    ensures MonthStart(b) >= MonthStart(a) + 28 * (b - a)
    decreases b - a
  {
    if a < b {
      MonthStartStep(a);
      MonthStartGap(a + 1, b);
    }
  }

  /** The month lengths of section 5.7 of RFC 3339, with the leap years of its appendix C. */
  lemma MonthsOfTheYear(year: int)
    ensures var leap := year % 400 == 0 || (year % 4 == 0 && year % 100 != 0);
      forall month :: 1 <= month <= 12 ==>
        MonthLength(year, month) == [31, if leap then 29 else 28, 31, 30, 31, 30, 31, 31, 30, 31, 30, 31][month - 1]
  {
  }

  lemma YearLength(year: int)
    ensures MonthStart(12 * (year + 1)) == MonthStart(12 * year) + if IsLeap(year) then 366 else 365
  {
    MonthsLater(year, 12);
  }

  /** The first `k` months of a year. */
  function DaysBefore(year: int, k: nat): int {
    if k == 0 then 0 else DaysBefore(year, k - 1) + MonthLength(year, k)
  }

  /** The days of a year before its month `k + 1`. */
  function Elapsed(k: nat, leap: bool): int
    requires k <= 12
  {
    [0, 31, 59, 90, 120, 151, 181, 212, 243, 273, 304, 334, 365][k] + if k > 1 && leap then 1 else 0
  }

  lemma {:induction false} MonthsLater(year: int, k: nat)
    requires k <= 12
    ensures MonthStart(12 * year + k) == MonthStart(12 * year) + DaysBefore(year, k)
    ensures DaysBefore(year, k) == Elapsed(k, IsLeap(year))
  {
    if k > 0 {
      MonthsLater(year, k - 1);
      var n := 12 * year + k - 1;
      MonthStartStep(n);
      assert n / 12 == year && n % 12 + 1 == k;
    }
  }

  /** How many of the first `years` years, from year zero, are multiples of `n`. */
  function Multiples(n: nat, years: nat): nat {
    if years == 0 || n == 0 then 0 else Multiples(n, years - 1) + if (years - 1) % n == 0 then 1 else 0
  }

  /** One year in four is a leap year, but for three centuries in four. */
  function LeapDays(years: nat): int {
    Multiples(4, years) - Multiples(100, years) + Multiples(400, years)
  }

  lemma LeapDaysGrow(year: nat)
    ensures LeapDays(year + 1) == LeapDays(year) + if IsLeap(year) then 1 else 0
  {
    CenturiesAreFourths(year);
  }

  lemma CenturiesAreFourths(year: nat)
    ensures year % 400 == 0 ==> year % 100 == 0
    ensures year % 100 == 0 ==> year % 4 == 0
  {
    if year % 400 == 0 {
      HundredsOf(4 * (year / 400));
    }
    if year % 100 == 0 {
      FoursOf(25 * (year / 100));
    }
  }

  lemma HundredsOf(q: nat)
    ensures (100 * q) % 100 == 0
  {
  }

  lemma FoursOf(q: nat)
    ensures (4 * q) % 4 == 0
  {
  }

  lemma {:induction false} YearStart(year: nat)
    ensures MonthStart(12 * year) == 365 * year + LeapDays(year)
  {
    if year > 0 {
      YearStart(year - 1);
      YearLength(year - 1);
      LeapDaysGrow(year - 1);
    }
  }

  /** A date's number, counted out by hand: whole years, whole months, days. */
  lemma DayNumberIs(d: Date)
    requires IsReal(d) && d.year >= 0
    ensures DayNumber(d) == 365 * d.year + LeapDays(d.year) + Elapsed(d.month - 1, IsLeap(d.year)) + d.day - 1
  {
    YearStart(d.year);
    MonthsLater(d.year, d.month - 1);
    assert MonthNumber(d) == 12 * d.year + (d.month - 1);
  }

  /** Day numbers order dates exactly as the date strings do. */
  lemma DayNumberIsOrder(a: Date, b: Date)
    requires IsReal(a) && IsReal(b)
    ensures DayNumber(a) < DayNumber(b) <==> Before(a, b)
    ensures DayNumber(a) == DayNumber(b) <==> a == b
  {
    MonthNumberIsExact(a, b);
    MonthNumberIsExact(b, a);
    if MonthNumber(a) < MonthNumber(b) {
      DayNumberSeparates(a, b);
    } else if MonthNumber(b) < MonthNumber(a) {
      DayNumberSeparates(b, a);
    }
  }

  lemma DayNumberSeparates(a: Date, b: Date)
    requires IsReal(a) && IsReal(b) && MonthNumber(a) < MonthNumber(b)
    ensures DayNumber(a) < DayNumber(b)
  {
    MonthStartStep(MonthNumber(a));
    assert MonthNumber(a) / 12 == a.year && MonthNumber(a) % 12 + 1 == a.month;
    MonthStartGap(MonthNumber(a) + 1, MonthNumber(b));
  }

  function PreviousDay(d: Date): (p: Date)
    requires IsReal(d)
    ensures IsReal(p)
  {
    if d.day > 1 then Date(d.year, d.month, d.day - 1)
    else ClampDay(MonthNumber(d) - 1, 31)
  }

  lemma PreviousDayNumber(d: Date)
    requires IsReal(d)
    ensures DayNumber(PreviousDay(d)) == DayNumber(d) - 1
  {
    MonthStartStep(MonthNumber(d) - 1);
  }

  /** Calendar subtraction of days, as UTC date normalisation performs it. */
  function SubtractDays(d: Date, days: nat): (r: Date)
    requires IsReal(d)
    ensures IsReal(r)
    ensures DayNumber(r) == DayNumber(d) - days
    decreases days
  {
    if days == 0 then d
    else
      PreviousDayNumber(d);
      SubtractDays(PreviousDay(d), days - 1)
  }

  // ---------------------------------------------------------------- recurrence

  /** The k-th monthly occurrence of a recurrence: always counted from the start date. */
  function Occurrence(start: Date, k: nat): Date
    requires IsReal(start)
  {
    AddBillingMonth(start, k)
  }

  /** The next occurrence on or after `today`, or None once the recurrence has ended. */
  function NextMonthlyOccurrence(start: Date, end: Option<Date>, today: Date): Option<Date>
    requires IsReal(start) && IsReal(today)
  {
    if Before(today, start) then
      if end.Some? && Before(end.value, start) then None else Some(start)
    else
      var months := (today.year - start.year) * 12 + (today.month - start.month);
      var first := AddBillingMonth(start, months);
      var candidate := if Before(first, today) then AddBillingMonth(start, months + 1) else first;
      if end.Some? && Before(end.value, candidate) then None else Some(candidate)
  }

  predicate Within(d: Date, end: Option<Date>) {
    end.None? || NotAfter(d, end.value)
  }

  /** Occurrences are in order, at least 28 days apart for every month between them. */
  lemma {:induction false} OccurrenceGap(start: Date, j: nat, k: nat)
    requires IsReal(start) && j <= k
    ensures DayNumber(Occurrence(start, j)) + 28 * (k - j) <= DayNumber(Occurrence(start, k))
    decreases k - j
  {
    if j < k {
      OccurrenceGap(start, j, k - 1);
      OccurrenceStep(start, k - 1);
    }
  }

  lemma OccurrenceStep(start: Date, j: nat)
    requires IsReal(start)
    ensures DayNumber(Occurrence(start, j)) + 28 <= DayNumber(Occurrence(start, j + 1))
  {
    var a, b := Occurrence(start, j), Occurrence(start, j + 1);
    MonthStartStep(MonthNumber(a));
    assert MonthNumber(a) / 12 == a.year && MonthNumber(a) % 12 + 1 == a.month;
    // One month on, the day of month falls short only by landing on a last day >= 28.
    assert b.day >= a.day || b.day == MonthLength(b.year, b.month);
  }

  ghost predicate IsOccurrenceFrom(start: Date, end: Option<Date>, today: Date, k: nat)
    requires IsReal(start)
  {
    NotAfter(today, Occurrence(start, k)) && Within(Occurrence(start, k), end)
  }

  /** Before `index` every occurrence is strictly before `today`; from `index` on, none is. */
  ghost predicate Splits(start: Date, today: Date, index: nat)
    requires IsReal(start)
  {
    && (forall j: nat :: j < index ==> Before(Occurrence(start, j), today))
    && NotAfter(today, Occurrence(start, index))
  }

  lemma OccurrencesBeforeMonth(start: Date, today: Date, n: nat)
    requires IsReal(start) && IsReal(today)
    requires MonthNumber(start) + n <= MonthNumber(today)
    ensures forall j: nat :: j < n ==> Before(Occurrence(start, j), today)
  {
    forall j: nat | j < n ensures Before(Occurrence(start, j), today) {
      MonthNumberIsExact(Occurrence(start, j), today);
    }
  }

  lemma FirstOccurrenceIsStart(start: Date)
    requires IsReal(start)
    ensures Occurrence(start, 0) == start
  {
  }

  /** The occurrence one month past today's is after today. */
  lemma NextMonthIsLater(start: Date, today: Date, index: nat)
    requires IsReal(start) && IsReal(today) && MonthNumber(start) + index > MonthNumber(today)
    ensures NotAfter(today, Occurrence(start, index))
  {
    MonthNumberIsExact(today, Occurrence(start, index));
  }

  /** Which index the two-candidate search lands on. */
  lemma NextIndex(start: Date, today: Date) returns (index: nat)
    requires IsReal(start) && IsReal(today)
    ensures Splits(start, today, index)
    ensures NextMonthlyOccurrence(start, None, today) == Some(Occurrence(start, index))
  {
    if Before(today, start) {
      index := 0;
      FirstOccurrenceIsStart(start);
    } else {
      assert MonthNumber(start) <= MonthNumber(today) by {
        MonthNumberIsExact(today, start);
      }
      var months := MonthNumber(today) - MonthNumber(start);
      OccurrencesBeforeMonth(start, today, months);
      if Before(Occurrence(start, months), today) {
        index := months + 1;
        NextMonthIsLater(start, today, index);
      } else {
        index := months;
        SameMonthOrder(Occurrence(start, months), today);
      }
    }
  }

  lemma SameMonthOrder(a: Date, b: Date)
    requires IsReal(a) && IsReal(b) && MonthNumber(a) == MonthNumber(b)
    ensures Before(a, b) || NotAfter(b, a)
  {
  }

  lemma SplitsIsLeast(start: Date, today: Date, index: nat, k: nat)
    requires IsReal(start) && IsReal(today) && Splits(start, today, index)
    ensures NotAfter(today, Occurrence(start, k)) <==> index <= k
  {
    DayNumberIsOrder(Occurrence(start, k), today);
    DayNumberIsOrder(today, Occurrence(start, k));
    DayNumberIsOrder(today, Occurrence(start, index));
    if index < k {
      OccurrenceGap(start, index, k);
    }
  }

  /** An occurrence fewer than 28 days ahead is the next one. */
  lemma CloseOccurrenceIsNext(start: Date, today: Date, index: nat, k: nat)
    requires IsReal(start) && IsReal(today) && Splits(start, today, index)
    requires DayNumber(today) <= DayNumber(Occurrence(start, k)) < DayNumber(today) + 28
    ensures index == k
  {
    DayNumberIsOrder(today, Occurrence(start, k));
    SplitsIsLeast(start, today, index, k);
    if index < k {
      OccurrenceGap(start, index, k);
      DayNumberIsOrder(today, Occurrence(start, index));
    }
  }

  lemma NextWithin(start: Date, end: Option<Date>, today: Date)
    requires IsReal(start) && IsReal(today) && (end.Some? ==> IsReal(end.value))
    requires NextMonthlyOccurrence(start, None, today).Some?
    requires Within(NextMonthlyOccurrence(start, None, today).value, end)
    ensures NextMonthlyOccurrence(start, end, today) == NextMonthlyOccurrence(start, None, today)
  {
  }

  /**
   * The search returns the least occurrence on or after `today` that does not pass `end`, and
   * returns None exactly when there is none.
   */
  lemma NextMonthlyOccurrenceIsLeast(start: Date, end: Option<Date>, today: Date)
    requires IsReal(start) && IsReal(today) && (end.Some? ==> IsReal(end.value))
    ensures var r := NextMonthlyOccurrence(start, end, today);
      && (r.Some? ==> exists k: nat ::
           && r.value == Occurrence(start, k) && IsOccurrenceFrom(start, end, today, k)
           && forall j: nat :: IsOccurrenceFrom(start, end, today, j) ==> k <= j)
      && (r.None? ==> forall j: nat :: !IsOccurrenceFrom(start, end, today, j))
  {
    var index := NextIndex(start, today);
    var r := NextMonthlyOccurrence(start, end, today);
    var found := Occurrence(start, index);
    if end.Some? {
      DayNumberIsOrder(end.value, found);
      DayNumberIsOrder(found, end.value);
    }
    forall j: nat | IsOccurrenceFrom(start, end, today, j)
      ensures index <= j && r == Some(found)
    {
      SplitsIsLeast(start, today, index, j);
      if end.Some? {
        DayNumberIsOrder(Occurrence(start, j), end.value);
        if index < j {
          OccurrenceGap(start, index, j);
        }
      }
    }
    if r.Some? {
      assert IsOccurrenceFrom(start, end, today, index);
    }
  }

  // ---------------------------------------------------------------- first due date

  /** The due date of the bill a card transaction falls in; None when a day setting is invalid. */
  function CalculateFirstDueDate(transaction: Date, cutoffDay: int, paymentDueDay: int): Option<Date>
    requires IsReal(transaction)
  {
    if !IsBillingDay(cutoffDay) || !IsBillingDay(paymentDueDay) then None
    else
      var cutoff := ClampDay(MonthNumber(transaction), cutoffDay).day;
      var monthsUntilDue := if transaction.day <= cutoff then 1 else 2;
      Some(ClampDay(MonthNumber(transaction) + monthsUntilDue, paymentDueDay))
  }

  /** The due date falls in a strictly later month, one or two months on, later exactly after cutoff. */
  lemma FirstDueDateWindow(t: Date, cutoffDay: int, dueDay: int)
    requires IsReal(t) && IsBillingDay(cutoffDay) && IsBillingDay(dueDay)
    ensures var due := CalculateFirstDueDate(t, cutoffDay, dueDay);
      && due.Some? && IsReal(due.value) && Before(t, due.value)
      && MonthNumber(t) + 1 <= MonthNumber(due.value) <= MonthNumber(t) + 2
      && (MonthNumber(due.value) == MonthNumber(t) + 2 <==> cutoffDay < t.day)
      && (due.value.day == dueDay || (due.value.day < dueDay && due.value.day == MonthLength(due.value.year, due.value.month)))
  {
    MonthNumberIsExact(t, CalculateFirstDueDate(t, cutoffDay, dueDay).value);
  }

  /** A later card transaction is never due earlier. */
  lemma FirstDueDateMonotone(a: Date, b: Date, cutoffDay: int, dueDay: int)
    requires IsReal(a) && IsReal(b) && NotAfter(a, b)
    requires IsBillingDay(cutoffDay) && IsBillingDay(dueDay)
    ensures NotAfter(CalculateFirstDueDate(a, cutoffDay, dueDay).value,
                     CalculateFirstDueDate(b, cutoffDay, dueDay).value)
  {
    var da, db := CalculateFirstDueDate(a, cutoffDay, dueDay).value, CalculateFirstDueDate(b, cutoffDay, dueDay).value;
    MonthNumberIsExact(a, b);
    FirstDueDateWindow(a, cutoffDay, dueDay);
    FirstDueDateWindow(b, cutoffDay, dueDay);
    MonthNumberIsExact(da, db);
  }

  // ---------------------------------------------------------------- term dates

  /** The due date after `k` payments, each moving the stored date by one month. */
  function TermDueDate(first: Date, k: nat): (d: Date)
    requires IsReal(first)
    ensures IsReal(d)
    ensures MonthNumber(d) == MonthNumber(first) + k
  {
    if k == 0 then first else AddBillingMonth(TermDueDate(first, k - 1), 1)
  }

  /** Over a whole plan the day of the month never grows back after a short month. */
  lemma {:induction false} TermDaysNeverIncrease(first: Date, j: nat, k: nat)
    requires IsReal(first) && j <= k
    ensures TermDueDate(first, k).day <= TermDueDate(first, j).day
    ensures TermDueDate(first, k).day >= (if first.day < 28 then first.day else 28)
    decreases k
  {
    if j < k {
      TermDaysNeverIncrease(first, j, k - 1);
    } else if k > 0 {
      TermDaysNeverIncrease(first, k - 1, k - 1);
    }
  }
}
