/**
 * Analytics periods: which range of instants a period names, its comparison baseline, and the
 * buckets a trend series is drawn on.
 */
module AnalyticsPeriod {
  import opened Common
  import opened BillingCycle
  import opened ReportingTime

  const MAX_CUSTOM_RANGE_DAYS := 400
  const DAILY_BUCKET_MAX_DAYS := 62

  /** A custom bound: not given, given in another form than YYYY-MM-DD, or its three numbers. */
  datatype Bound = Missing | Malformed | Text(date: Date)

  datatype Period =
    | CurrentMonth
    | PreviousMonth
    | Last3Months
    | Last6Months
    | CurrentYear
    | Custom(start: Bound, end: Bound)
    | Unknown

  datatype PeriodError = InvalidPeriod | BoundsRequired | DateFormat | DateNotReal | Inverted | TooLong

  datatype Resolved = Resolved(range: Range, previous: Range)

  /** A duration in days, rounded half up. */
  function RoundedDays(r: Range): int {
    (2 * (r.end - r.start) + DAY_MS) / (2 * DAY_MS)
  }

  // ---------------------------------------------------------------- resolution

  /** The platform reads the years 0 to 99 as 1900 to 1999, so no date in them counts as real. */
  predicate IsRealCalendarDate(d: Date) {
    IsReal(d) && !(0 <= d.year <= 99)
  }

  function ParseBound(b: Bound): Result<Date, PeriodError> {
    if !b.Text? then Err(DateFormat)
    else if !IsRealCalendarDate(b.date) then Err(DateNotReal)
    else Ok(b.date)
  }

  function EqualLengthPrevious(r: Range): Range {
    Range(r.start - (r.end - r.start), r.start)
  }

  function ResolveCustom(z: Zone, start: Bound, end: Bound): Result<Resolved, PeriodError> {
    if start.Missing? || end.Missing? then Err(BoundsRequired)
    else
      var first :- ParseBound(start);
      var last :- ParseBound(end);
      var startDay, endDay := DayRange(z, DayNumber(first)), DayRange(z, DayNumber(last));
      if startDay.start > endDay.start then Err(Inverted)
      else
        var range := Range(startDay.start, endDay.end);
        if RoundedDays(range) > MAX_CUSTOM_RANGE_DAYS then Err(TooLong)
        else Ok(Resolved(range, EqualLengthPrevious(range)))
  }

  function ResolveAnalyticsPeriod(z: Zone, now: int, period: Period): (r: Result<Resolved, PeriodError>)
    ensures SpanMonths(period) > 0 ==> r.Ok?
  {
    ResolveFrom(z, ReportingTime.CurrentMonth(z, now), period)
  }

  function ResolveFrom(z: Zone, current: CalendarMonth, period: Period): (r: Result<Resolved, PeriodError>)
    requires IsMonth(current)
    ensures SpanMonths(period) > 0 ==> r.Ok?
  {
    match period
    case Unknown => Err(InvalidPeriod)
    case CurrentMonth =>
      Ok(Resolved(MonthRange(z, current), MonthRange(z, ShiftCalendarMonth(current, -1))))
    case PreviousMonth =>
      Ok(Resolved(MonthRange(z, ShiftCalendarMonth(current, -1)), MonthRange(z, ShiftCalendarMonth(current, -2))))
    case Last3Months =>
      Ok(Resolved(MonthsRange(z, current, 3), MonthsRange(z, ShiftCalendarMonth(current, -3), 3)))
    case Last6Months =>
      Ok(Resolved(MonthsRange(z, current, 6), MonthsRange(z, ShiftCalendarMonth(current, -6), 6)))
    case CurrentYear =>
      Ok(Resolved(YearRange(z, current.year), YearRange(z, current.year - 1)))
    case Custom(start, end) => ResolveCustom(z, start, end)
  }

  /** The months numbered `n` up to but not including `n + k`, as a range. */
  function MonthSpan(z: Zone, n: int, k: int): Range {
    Range(z.midnight(MonthStart(n)), z.midnight(MonthStart(n + k)))
  }

  /** How many calendar months a period spans; a custom period has none. */
  function SpanMonths(p: Period): int {
    match p
    case CurrentMonth => 1
    case PreviousMonth => 1
    case Last3Months => 3
    case Last6Months => 6
    case CurrentYear => 12
    case _ => 0
  }

  /** The number of the first month of a period, when the current month has number `n`. */
  function FirstMonth(p: Period, n: int): int {
    match p
    case CurrentMonth => n
    case PreviousMonth => n - 1
    case Last3Months => n - 2
    case Last6Months => n - 5
    case _ => n / 12 * 12
  }

  lemma MonthRangeIsSpan(z: Zone, m: CalendarMonth)
    requires IsMonth(m)
    ensures MonthRange(z, m) == MonthSpan(z, NumberOf(m), 1)
  {
    if m.month == 12 {
      assert NumberOf(CalendarMonth(m.year + 1, 1)) == NumberOf(m) + 1;
    } else {
      assert NumberOf(CalendarMonth(m.year, m.month + 1)) == NumberOf(m) + 1;
    }
  }

  lemma MonthsRangeIsSpan(z: Zone, anchor: CalendarMonth, k: int)
    requires IsMonth(anchor) && k > 0
    ensures MonthsRange(z, anchor, k) == MonthSpan(z, NumberOf(anchor) - k + 1, k)
  {
    MonthRangeIsSpan(z, ShiftCalendarMonth(anchor, -(k - 1)));
    MonthRangeIsSpan(z, anchor);
    assert NumberOf(anchor) - k + 1 + k == NumberOf(anchor) + 1;
  }

  lemma YearRangeIsSpan(z: Zone, year: int)
    ensures YearRange(z, year) == MonthSpan(z, year * 12, 12)
  {
    MonthRangeIsSpan(z, CalendarMonth(year, 1));
    MonthRangeIsSpan(z, CalendarMonth(year, 12));
    assert NumberOf(CalendarMonth(year, 12)) + 1 == year * 12 + 12;
  }

  /** A run of `k` whole months from the month numbered `first`, compared with the `k` months before. */
  predicate IsMonthRun(r: Resolved, z: Zone, first: int, k: int) {
    r.range == MonthSpan(z, first, k) && r.previous == MonthSpan(z, first - k, k)
  }

  lemma MonthPeriods(z: Zone, m: CalendarMonth)
    requires IsMonth(m)
    ensures IsMonthRun(ResolveFrom(z, m, CurrentMonth).value, z, NumberOf(m), 1)
    ensures IsMonthRun(ResolveFrom(z, m, PreviousMonth).value, z, NumberOf(m) - 1, 1)
  {
    MonthRangeIsSpan(z, m);
    MonthRangeIsSpan(z, ShiftCalendarMonth(m, -1));
    MonthRangeIsSpan(z, ShiftCalendarMonth(m, -2));
  }

  lemma LastMonths(z: Zone, m: CalendarMonth, k: int)
    requires IsMonth(m) && k > 0
    ensures MonthsRange(z, m, k) == MonthSpan(z, NumberOf(m) - k + 1, k)
    ensures MonthsRange(z, ShiftCalendarMonth(m, -k), k) == MonthSpan(z, NumberOf(m) - k + 1 - k, k)
  {
    MonthsRangeIsSpan(z, m, k);
    MonthsRangeIsSpan(z, ShiftCalendarMonth(m, -k), k);
  }

  lemma RollingPeriods(z: Zone, m: CalendarMonth)
    requires IsMonth(m)
    ensures IsMonthRun(ResolveFrom(z, m, Last3Months).value, z, NumberOf(m) - 2, 3)
    ensures IsMonthRun(ResolveFrom(z, m, Last6Months).value, z, NumberOf(m) - 5, 6)
  {
    LastMonths(z, m, 3);
    LastMonths(z, m, 6);
  }

  lemma YearPeriod(z: Zone, m: CalendarMonth)
    requires IsMonth(m)
    ensures IsMonthRun(ResolveFrom(z, m, CurrentYear).value, z, NumberOf(m) / 12 * 12, 12)
  {
    YearRangeIsSpan(z, m.year);
    YearRangeIsSpan(z, m.year - 1);
    YearStart(m);
  }

  lemma YearStart(m: CalendarMonth)
    requires IsMonth(m)
    ensures NumberOf(m) / 12 * 12 == m.year * 12
  {
  }

  /** A calendar period is a run of whole months, and its baseline the same number of months before. */
  lemma CalendarPeriods(z: Zone, now: int, p: Period)
    requires SpanMonths(p) > 0
    ensures IsMonthRun(ResolveAnalyticsPeriod(z, now, p).value, z, FirstMonth(p, MonthOf(z.dayOf(now))), SpanMonths(p))
  {
    var m := ReportingTime.CurrentMonth(z, now);
    PeriodsFrom(z, m, p);
  }

  lemma PeriodsFrom(z: Zone, m: CalendarMonth, p: Period)
    requires SpanMonths(p) > 0 && IsMonth(m)
    ensures IsMonthRun(ResolveFrom(z, m, p).value, z, FirstMonth(p, NumberOf(m)), SpanMonths(p))
  {
    match p
    case CurrentMonth => MonthPeriods(z, m);
    case PreviousMonth => MonthPeriods(z, m);
    case Last3Months => RollingPeriods(z, m);
    case Last6Months => RollingPeriods(z, m);
    case CurrentYear => YearPeriod(z, m);
  }

  lemma MonthSpanFacts(z: Zone, n: int, k: int)
    requires IsZone(z) && k > 0
    ensures MonthSpan(z, n, k).start < MonthSpan(z, n, k).end
  {
    MonthStartsOrdered(n, n + k);
    MidnightsOrdered(z, MonthStart(n), MonthStart(n + k));
  }

  /** Both ranges are non-empty, and the baseline ends exactly where the period starts. */
  predicate Abuts(r: Resolved) {
    r.previous.start < r.previous.end == r.range.start < r.range.end
  }

  lemma MonthRunAbuts(r: Resolved, z: Zone, first: int, k: int)
    requires IsZone(z) && k > 0 && IsMonthRun(r, z, first, k)
    ensures Abuts(r)
  {
    MonthSpanFacts(z, first, k);
    MonthSpanFacts(z, first - k, k);
  }

  lemma CalendarAbuts(z: Zone, now: int, p: Period)
    requires IsZone(z) && SpanMonths(p) > 0
    ensures Abuts(ResolveAnalyticsPeriod(z, now, p).value)
  {
    CalendarPeriods(z, now, p);
    MonthRunAbuts(ResolveAnalyticsPeriod(z, now, p).value, z, FirstMonth(p, MonthOf(z.dayOf(now))), SpanMonths(p));
  }

  /** Every period is non-empty, and its baseline is non-empty and ends exactly where it starts. */
  lemma PreviousAbuts(z: Zone, now: int, p: Period)
    requires IsZone(z) && ResolveAnalyticsPeriod(z, now, p).Ok?
    ensures Abuts(ResolveAnalyticsPeriod(z, now, p).value)
  {
    if SpanMonths(p) > 0 {
      CalendarAbuts(z, now, p);
    } else if p.Custom? {
      CustomAbuts(z, p.start, p.end);
    }
  }

  /** A custom baseline also lasts exactly as long as its period. */
  lemma CustomAbuts(z: Zone, start: Bound, end: Bound)
    requires IsZone(z) && ResolveCustom(z, start, end).Ok?
    ensures Abuts(ResolveCustom(z, start, end).value)
    ensures var r := ResolveCustom(z, start, end).value;
      r.range.end - r.range.start == r.previous.end - r.previous.start
  {
    MidnightsOrdered(z, DayNumber(start.date), DayNumber(start.date) + 1);
    MidnightsOrdered(z, DayNumber(end.date), DayNumber(end.date) + 1);
  }

  /** Only the previous month leaves the current one out, by ending with it. */
  lemma SpanAroundMonth(p: Period, n: int)
    requires SpanMonths(p) > 0
    ensures !p.PreviousMonth? ==> FirstMonth(p, n) <= n < FirstMonth(p, n) + SpanMonths(p)
    ensures p.PreviousMonth? ==> FirstMonth(p, n) + SpanMonths(p) == n
  {
  }

  lemma RunAroundNow(r: Resolved, z: Zone, now: int, first: int, k: int)
    requires IsZone(z) && k > 0 && IsMonthRun(r, z, first, k)
    ensures Holds(r.range, now) <==> first <= MonthOf(z.dayOf(now)) < first + k
    ensures r.range.end <= now <==> first + k <= MonthOf(z.dayOf(now))
  {
    SpanHolds(z, now, first, k);
    SpanEdge(z, now, first + k);
  }

  /** Every calendar period holds `now`, except the previous month, which ends at or before it. */
  lemma PeriodsAroundNow(z: Zone, now: int, p: Period)
    requires IsZone(z) && SpanMonths(p) > 0
    ensures p.PreviousMonth? || Holds(ResolveAnalyticsPeriod(z, now, p).value.range, now)
    ensures p.PreviousMonth? ==> ResolveAnalyticsPeriod(z, now, p).value.range.end <= now
  {
    var n := MonthOf(z.dayOf(now));
    CalendarPeriods(z, now, p);
    SpanAroundMonth(p, n);
    RunAroundNow(ResolveAnalyticsPeriod(z, now, p).value, z, now, FirstMonth(p, n), SpanMonths(p));
  }

  lemma SpanHolds(z: Zone, t: int, n: int, k: int)
    requires IsZone(z) && k > 0
    ensures Holds(MonthSpan(z, n, k), t) <==> n <= MonthOf(z.dayOf(t)) < n + k
  {
    var d := z.dayOf(t);
    SpanEdge(z, t, n);
    SpanEdge(z, t, n + k);
  }

  lemma SpanEdge(z: Zone, t: int, n: int)
    requires IsZone(z)
    ensures z.midnight(MonthStart(n)) <= t <==> n <= MonthOf(z.dayOf(t))
  {
    DayEdge(z, t, MonthStart(n));
    var m := MonthOf(z.dayOf(t));
    if n <= m {
      MonthStartGap(n, m);
    } else {
      MonthStartGap(m + 1, n);
    }
  }

  lemma DayEdge(z: Zone, t: int, d: int)
    requires IsZone(z)
    ensures z.midnight(d) <= t <==> d <= z.dayOf(t)
  {
    var e := z.dayOf(t);
    assert Holds(DayRange(z, e), t);
    if d <= e {
      MidnightsSpread(z, d, e);
    } else {
      MidnightsSpread(z, e + 1, d);
    }
  }

  /** The day after the last one accepted as an end, when the start is `first`. */
  predicate CustomFits(z: Zone, first: Date, last: Date) {
    RoundedDays(Range(z.midnight(DayNumber(first)), z.midnight(DayNumber(last) + 1))) <= MAX_CUSTOM_RANGE_DAYS
  }

  /** A custom period resolves exactly when both bounds are real dates in order and the span is short enough. */
  lemma CustomAccepts(z: Zone, now: int, start: Bound, end: Bound)
    requires IsZone(z)
    ensures ResolveAnalyticsPeriod(z, now, Custom(start, end)).Ok? <==>
      (start.Text? && end.Text? && AcceptableDates(start.date, end.date) && CustomFits(z, start.date, end.date))
  {
    CustomResolves(z, start, end);
  }

  predicate AcceptableDates(first: Date, last: Date) {
    IsRealCalendarDate(first) && IsRealCalendarDate(last) && NotAfter(first, last)
  }

  lemma CustomResolves(z: Zone, start: Bound, end: Bound)
    requires IsZone(z)
    ensures ResolveCustom(z, start, end).Ok? <==>
      (start.Text? && end.Text? && AcceptableDates(start.date, end.date) && CustomFits(z, start.date, end.date))
  {
    if start.Text? && end.Text? && IsReal(start.date) && IsReal(end.date) {
      DayNumberIsOrder(end.date, start.date);
      MidnightsOrdered(z, DayNumber(end.date), DayNumber(start.date));
    }
  }

  /** A bound that names a day of the calendar. */
  predicate NamesADay(b: Bound) {
    b.Text? && IsRealCalendarDate(b.date)
  }

  /** Otherwise the error says what is wrong: of two bounds the start is looked at first. */
  lemma CustomRefuses(z: Zone, now: int, start: Bound, end: Bound)
    requires IsZone(z)
    ensures var r := ResolveAnalyticsPeriod(z, now, Custom(start, end));
      && (r == Err(BoundsRequired) <==> start.Missing? || end.Missing?)
      && (r == Err(DateFormat) <==> (start.Malformed? && !end.Missing?) || (NamesADay(start) && end.Malformed?))
      && (r == Err(DateNotReal) <==> (start.Text? && !NamesADay(start) && !end.Missing?) || (NamesADay(start) && end.Text? && !NamesADay(end)))
      && (r == Err(Inverted) <==> NamesADay(start) && NamesADay(end) && Before(end.date, start.date))
      && (r == Err(TooLong) <==> NamesADay(start) && NamesADay(end) && NotAfter(start.date, end.date) && !CustomFits(z, start.date, end.date))
      && r != Err(InvalidPeriod) && ResolveAnalyticsPeriod(z, now, Unknown) == Err(InvalidPeriod)
  {
    if NamesADay(start) && NamesADay(end) {
      DayNumberIsOrder(end.date, start.date);
      DayNumberIsOrder(start.date, end.date);
      MidnightsOrdered(z, DayNumber(end.date), DayNumber(start.date));
    }
  }

  /** It then holds exactly the instants whose local day lies between the bounds, both included. */
  lemma CustomHolds(z: Zone, now: int, start: Bound, end: Bound, t: int)
    requires IsZone(z) && ResolveAnalyticsPeriod(z, now, Custom(start, end)).Ok?
    ensures Holds(ResolveAnalyticsPeriod(z, now, Custom(start, end)).value.range, t) <==>
      DayNumber(start.date) <= z.dayOf(t) <= DayNumber(end.date)
  {
    DayEdge(z, t, DayNumber(start.date));
    DayEdge(z, t, DayNumber(end.date) + 1);
  }

  // ---------------------------------------------------------------- buckets

  datatype Granularity = Day | Month

  function ResolveTrendGranularity(r: Range): Granularity {
    if RoundedDays(r) <= DAILY_BUCKET_MAX_DAYS then Day else Month
  }

  /** Days up to sixty-two and a half days exclusive, months from there on. */
  lemma GranularityExactly(r: Range)
    ensures ResolveTrendGranularity(r) == Day <==> 2 * (r.end - r.start) < 125 * DAY_MS
  {
  }

  /** The instant at which the day or month numbered `n` begins. */
  function Edge(z: Zone, g: Granularity, n: int): int {
    match g
    case Day => z.midnight(n)
    case Month => z.midnight(MonthStart(n))
  }

  /** The number of the day or month an instant lies in. */
  function UnitAt(z: Zone, g: Granularity, t: int): int {
    match g
    case Day => z.dayOf(t)
    case Month => MonthOf(z.dayOf(t))
  }

  /** An edge is at or before an instant exactly when its unit is at or before the instant's. */
  lemma EdgeIsFloor(z: Zone, g: Granularity, t: int, n: int)
    requires IsZone(z)
    ensures Edge(z, g, n) <= t <==> n <= UnitAt(z, g, t)
  {
    match g
    case Day => DayEdge(z, t, n);
    case Month => SpanEdge(z, t, n);
  }

  lemma UnitOfEdge(z: Zone, g: Granularity, n: int)
    requires IsZone(z)
    ensures UnitAt(z, g, Edge(z, g, n)) == n
    ensures Edge(z, g, n) < Edge(z, g, n + 1)
  {
    EdgeIsFloor(z, g, Edge(z, g, n), n);
    EdgeIsFloor(z, g, Edge(z, g, n), n + 1);
    match g
    case Day => MidnightsOrdered(z, n, n + 1);
    case Month => MonthSpanFacts(z, n, 1);
  }

  function Clip(b: Range, r: Range): Range {
    Range(if b.start < r.start then r.start else b.start, if b.end > r.end then r.end else b.end)
  }

  /** How many days or months a range touches. */
  function Units(z: Zone, g: Granularity, r: Range): int {
    if r.start >= r.end then 0 else UnitAt(z, g, r.end - 1) - UnitAt(z, g, r.start) + 1
  }

  /** The part of the `k`-th touched unit that lies in the range. */
  function Bucket(z: Zone, g: Granularity, r: Range, k: int): Range {
    var n := UnitAt(z, g, r.start) + k;
    Clip(Range(Edge(z, g, n), Edge(z, g, n + 1)), r)
  }

  /** Buckets that are non-empty and contiguous, and together are exactly the range. */
  predicate Tiles(buckets: seq<Range>, r: Range) {
    && |buckets| > 0
    && buckets[0].start == r.start
    && buckets[|buckets| - 1].end == r.end
    && (forall k :: 0 <= k < |buckets| ==> buckets[k].start < buckets[k].end)
    && (forall k :: 0 < k < |buckets| ==> buckets[k - 1].end == buckets[k].start)
  }

  /** Where the edge after `k` units lies relative to a range. */
  lemma EdgeInRange(z: Zone, g: Granularity, r: Range, k: int)
    requires IsZone(z) && r.start < r.end
    ensures Edge(z, g, UnitAt(z, g, r.start) + k) <= r.start <==> k <= 0
    ensures Edge(z, g, UnitAt(z, g, r.start) + k) < r.end <==> k < Units(z, g, r)
  {
    EdgeIsFloor(z, g, r.start, UnitAt(z, g, r.start) + k);
    EdgeIsFloor(z, g, r.end - 1, UnitAt(z, g, r.start) + k);
  }

  /** A touched unit begins before the next one does, and only the first one before the range. */
  lemma EdgesOfBucket(z: Zone, g: Granularity, r: Range, k: int)
    requires IsZone(z) && r.start < r.end
    ensures var (n, units) := (UnitAt(z, g, r.start) + k, Units(z, g, r));
      && Edge(z, g, n) < Edge(z, g, n + 1)
      && (Edge(z, g, n) <= r.start <==> k <= 0)
      && (Edge(z, g, n) < r.end <==> k < units)
  {
    UnitOfEdge(z, g, UnitAt(z, g, r.start) + k);
    EdgeInRange(z, g, r, k);
  }

  lemma BucketFacts(z: Zone, g: Granularity, r: Range, k: int)
    requires IsZone(z) && r.start < r.end && 0 <= k < Units(z, g, r)
    ensures Bucket(z, g, r, k).start < Bucket(z, g, r, k).end
    ensures k == 0 ==> Bucket(z, g, r, k).start == r.start
    ensures k == Units(z, g, r) - 1 <==> Bucket(z, g, r, k).end == r.end
    ensures k + 1 < Units(z, g, r) ==> Bucket(z, g, r, k).end == Bucket(z, g, r, k + 1).start
  {
    EdgesOfBucket(z, g, r, k);
    EdgesOfBucket(z, g, r, k + 1);
  }

  /** The first `count` buckets tile the range exactly when they are all of them. */
  lemma BucketsTile(z: Zone, g: Granularity, r: Range, buckets: seq<Range>)
    requires IsZone(z) && r.start < r.end && |buckets| <= Units(z, g, r)
    requires forall k :: 0 <= k < |buckets| ==> buckets[k] == Bucket(z, g, r, k)
    ensures Tiles(buckets, r) <==> |buckets| == Units(z, g, r)
  {
    UnitsArePositive(z, g, r);
    forall k | 0 <= k < |buckets|
      ensures buckets[k].start < buckets[k].end
      ensures k == 0 ==> buckets[k].start == r.start
      ensures k == Units(z, g, r) - 1 <==> buckets[k].end == r.end
    {
      BucketFacts(z, g, r, k);
    }
    forall k | 0 < k < |buckets|
      ensures buckets[k - 1].end == buckets[k].start
    {
      BucketFacts(z, g, r, k - 1);
    }
  }

  lemma UnitsArePositive(z: Zone, g: Granularity, r: Range)
    requires IsZone(z) && r.start < r.end
    ensures Units(z, g, r) > 0
  {
    EdgeIsFloor(z, g, r.start, UnitAt(z, g, r.start));
    EdgeIsFloor(z, g, r.end - 1, UnitAt(z, g, r.start));
  }

  /** Iterations the generator allows itself. */
  function Guard(g: Granularity): int {
    match g
    case Day => 10_000
    case Month => 1_000
  }

  /** What the generator has collected after `n` steps. */
  ghost predicate Collected(buckets: seq<Range>, z: Zone, g: Granularity, r: Range, n: int) {
    && |buckets| == n
    && (forall k :: 0 <= k < |buckets| ==> buckets[k] == Bucket(z, g, r, k))
  }

  /** One step of the day cursor. */
  lemma DayStep(z: Zone, r: Range, cursor: int)
    requires IsZone(z)
    ensures Clip(DayRange(z, cursor), r) == Bucket(z, Day, r, cursor - UnitAt(z, Day, r.start))
    ensures z.dayOf(DayRange(z, cursor).end) == cursor + 1
  {
    UnitOfEdge(z, Day, cursor + 1);
  }

  /** One step of the month cursor. */
  lemma MonthStep(z: Zone, r: Range, cursor: CalendarMonth)
    requires IsZone(z) && IsMonth(cursor)
    ensures MonthRange(z, cursor).start == Edge(z, Month, NumberOf(cursor))
    ensures Clip(MonthRange(z, cursor), r) == Bucket(z, Month, r, NumberOf(cursor) - UnitAt(z, Month, r.start))
    ensures NumberOf(ReportingTime.CurrentMonth(z, MonthRange(z, cursor).end)) == NumberOf(cursor) + 1
  {
    MonthRangeIsSpan(z, cursor);
    UnitOfEdge(z, Month, NumberOf(cursor) + 1);
  }

  /** What one turn of the month loop finds: where it stands, its bucket, and where it goes. */
  lemma MonthTurn(z: Zone, r: Range, cursor: CalendarMonth, guard: nat)
    requires IsZone(z) && r.start < r.end && IsMonth(cursor) && NumberOf(cursor) == UnitAt(z, Month, r.start) + guard
    ensures MonthRange(z, cursor).start >= r.end <==> guard >= Units(z, Month, r)
    ensures Clip(MonthRange(z, cursor), r) == Bucket(z, Month, r, guard)
    ensures NumberOf(ReportingTime.CurrentMonth(z, MonthRange(z, cursor).end)) == UnitAt(z, Month, r.start) + guard + 1
  {
    MonthStep(z, r, cursor);
    EdgeInRange(z, Month, r, guard);
  }

  method DailyBuckets(r: Range, z: Zone) returns (buckets: seq<Range>)
    requires IsZone(z) && r.start < r.end
    ensures |buckets| <= Guard(Day) && |buckets| <= Units(z, Day, r)
    ensures |buckets| == Units(z, Day, r) || |buckets| == Guard(Day) < Units(z, Day, r)
    ensures Collected(buckets, z, Day, r, |buckets|)
  {
    buckets := [];
    var cursor := z.dayOf(r.start);
    UnitsArePositive(z, Day, r);
    for guard := 0 to 10_000
      invariant guard <= Units(z, Day, r)
      invariant cursor == UnitAt(z, Day, r.start) + guard
      invariant Collected(buckets, z, Day, r, guard)
    {
      var dayRange := DayRange(z, cursor);
      EdgeInRange(z, Day, r, guard);
      if dayRange.start >= r.end {
        break;
      }
      DayStep(z, r, cursor);
      buckets := buckets + [Clip(dayRange, r)];
      cursor := z.dayOf(dayRange.end);
    }
  }

  method MonthlyBuckets(r: Range, z: Zone) returns (buckets: seq<Range>)
    requires IsZone(z) && r.start < r.end
    ensures |buckets| <= Guard(Month) && |buckets| <= Units(z, Month, r)
    ensures |buckets| == Units(z, Month, r) || |buckets| == Guard(Month) < Units(z, Month, r)
    ensures Collected(buckets, z, Month, r, |buckets|)
  {
    buckets := [];
    var cursor := ReportingTime.CurrentMonth(z, r.start);
    UnitsArePositive(z, Month, r);
    for guard := 0 to 1_000
      invariant guard <= Units(z, Month, r)
      invariant IsMonth(cursor) && NumberOf(cursor) == UnitAt(z, Month, r.start) + guard
      invariant Collected(buckets, z, Month, r, guard)
    {
      var monthRange := MonthRange(z, cursor);
      MonthTurn(z, r, cursor, guard);
      if monthRange.start >= r.end {
        break;
      }
      buckets := buckets + [Clip(monthRange, r)];
      cursor := ReportingTime.CurrentMonth(z, monthRange.end);
    }
  }

  /**
   * Contiguous buckets over a range, by walking a cursor from midnight to midnight. They tile the
   * range exactly when the range touches no more days or months than the loop allows itself.
   */
  method GenerateTrendBuckets(r: Range, g: Granularity, z: Zone) returns (buckets: seq<Range>)
    requires IsZone(z)
    ensures r.start >= r.end ==> buckets == []
    ensures r.start < r.end ==> (Tiles(buckets, r) <==> Units(z, g, r) <= Guard(g))
    ensures r.start < r.end && Units(z, g, r) <= Guard(g) ==> |buckets| == Units(z, g, r)
    ensures Collected(buckets, z, g, r, |buckets|)
  {
    if r.start >= r.end {
      return [];
    }
    match g {
      case Day => buckets := DailyBuckets(r, z);
      case Month => buckets := MonthlyBuckets(r, z);
    }
    BucketsTile(z, g, r, buckets);
  }

  // ---------------------------------------------------------------- the guards are out of reach

  lemma {:induction false} MonthStartCeiling(n: int, k: nat)
    ensures MonthStart(n + k) <= MonthStart(n) + 31 * k
  {
    if k > 0 {
      MonthStartCeiling(n, k - 1);
      MonthStartStep(n + k - 1);
    }
  }

  /** Days last at least twenty hours, so a range bounds the number of days it touches. */
  lemma DaysTouched(z: Zone, r: Range)
    requires IsZone(z) && r.start < r.end
    ensures (Units(z, Day, r) - 2) * 20 * HOUR_MS <= r.end - r.start
  {
    var a, b := z.dayOf(r.start), z.dayOf(r.end - 1);
    UnitsArePositive(z, Day, r);
    assert Holds(DayRange(z, a), r.start) && Holds(DayRange(z, b), r.end - 1);
    if a < b {
      MidnightsSpread(z, a + 1, b);
    }
  }

  lemma MonthsAreFewer(z: Zone, r: Range)
    requires IsZone(z) && r.start < r.end
    ensures Units(z, Month, r) <= Units(z, Day, r)
  {
    var a, b := z.dayOf(r.start), z.dayOf(r.end - 1);
    UnitsArePositive(z, Day, r);
    if MonthOf(a) < MonthOf(b) {
      MonthStartGap(MonthOf(a) + 1, MonthOf(b));
    }
  }

  lemma ShortRangeFits(z: Zone, r: Range, g: Granularity)
    requires IsZone(z) && r.start < r.end <= r.start + 434 * DAY_MS
    ensures 0 < Units(z, g, r) < Guard(g)
  {
    DaysTouched(z, r);
    MonthsAreFewer(z, r);
    UnitsArePositive(z, g, r);
  }

  lemma MonthSpanIsShort(z: Zone, n: int, k: nat)
    requires IsZone(z) && k <= 12
    ensures MonthSpan(z, n, k).end - MonthSpan(z, n, k).start <= 434 * DAY_MS
  {
    MonthStartCeiling(n, k);
    MonthStartGap(n, n + k);
    MidnightsSpread(z, MonthStart(n), MonthStart(n + k));
  }

  /** No resolved period is longer than a little over four hundred days. */
  lemma ResolvedIsShort(z: Zone, now: int, p: Period)
    requires IsZone(z) && ResolveAnalyticsPeriod(z, now, p).Ok?
    ensures var r := ResolveAnalyticsPeriod(z, now, p).value.range; r.end - r.start <= 434 * DAY_MS
  {
    if SpanMonths(p) > 0 {
      CalendarPeriods(z, now, p);
      MonthSpanIsShort(z, FirstMonth(p, MonthOf(z.dayOf(now))), SpanMonths(p));
    } else if p.Custom? {
      CustomIsShort(z, p.start, p.end);
    }
  }

  lemma CustomIsShort(z: Zone, start: Bound, end: Bound)
    requires ResolveCustom(z, start, end).Ok?
    ensures var r := ResolveCustom(z, start, end).value.range; r.end - r.start <= 434 * DAY_MS
  {
  }

  /** So the buckets of a resolved period always tile it: the guards are never the reason to stop. */
  lemma ResolvedNeverHitsGuard(z: Zone, now: int, p: Period)
    requires IsZone(z) && ResolveAnalyticsPeriod(z, now, p).Ok?
    ensures var r := ResolveAnalyticsPeriod(z, now, p).value.range;
      0 < Units(z, ResolveTrendGranularity(r), r) < Guard(ResolveTrendGranularity(r))
  {
    var r := ResolveAnalyticsPeriod(z, now, p).value.range;
    PreviousAbuts(z, now, p);
    ResolvedIsShort(z, now, p);
    ShortRangeFits(z, r, ResolveTrendGranularity(r));
  }
}
