/**
 * Reporting days and months as half-open ranges of instants (milliseconds), in a time zone that
 * is known only through its midnights.
 */
module ReportingTime {
  import opened Common
  import opened BillingCycle

  const DAY_MS := 86_400_000
  const HOUR_MS := 3_600_000

  /** Days are numbered as in BillingCycle.DayNumber. */
  datatype Zone = Zone(midnight: int -> int, dayOf: int -> int)

  datatype Range = Range(start: int, end: int)

  datatype CalendarMonth = CalendarMonth(year: int, month: int)

  /** Every local day starts at a midnight, lasts between 20 and 28 hours, and owns its instants. */
  ghost predicate IsZone(z: Zone) {
    && (forall d :: LastsADay(DayRange(z, d)))
    && (forall t :: Holds(DayRange(z, z.dayOf(t)), t))
  }

  predicate LastsADay(r: Range) {
    r.start + 20 * HOUR_MS <= r.end <= r.start + 28 * HOUR_MS
  }

  predicate Holds(r: Range, t: int) {
    r.start <= t < r.end
  }

  function DayRange(z: Zone, day: int): Range {
    Range(z.midnight(day), z.midnight(day + 1))
  }

  /** A zone at a fixed distance from UTC, such as the default Asia/Jakarta at seven hours. */
  function FixedOffset(offsetMs: int): Zone {
    Zone(d => d * DAY_MS - offsetMs, t => (t + offsetMs) / DAY_MS)
  }

  lemma FixedOffsetIsZone(offsetMs: int)
    ensures IsZone(FixedOffset(offsetMs))
  {
  }

  lemma {:induction false} MidnightsSpread(z: Zone, a: int, b: int)
    requires IsZone(z) && a <= b
    ensures z.midnight(a) + (b - a) * 20 * HOUR_MS <= z.midnight(b) <= z.midnight(a) + (b - a) * 28 * HOUR_MS
    decreases b - a
  {
    if a < b {
      MidnightsSpread(z, a, b - 1);
      assert LastsADay(DayRange(z, b - 1));
    }
  }

  lemma MidnightsOrdered(z: Zone, a: int, b: int)
    requires IsZone(z)
    ensures z.midnight(a) < z.midnight(b) <==> a < b
    ensures z.dayOf(z.midnight(a)) == a
  {
    if a <= b {
      MidnightsSpread(z, a, b);
    } else {
      MidnightsSpread(z, b, a);
    }
    DayOwnsItsInstants(z, z.midnight(a), a);
  }

  /** An instant lies in exactly one local day. */
  lemma DayOwnsItsInstants(z: Zone, t: int, d: int)
    requires IsZone(z)
    ensures z.dayOf(t) == d <==> Holds(DayRange(z, d), t)
  {
    var e := z.dayOf(t);
    assert Holds(DayRange(z, e), t);
    if e < d {
      MidnightsSpread(z, e + 1, d);
    } else if d < e {
      MidnightsSpread(z, d + 1, e);
    }
  }

  // ---------------------------------------------------------------- months of days

  lemma {:induction false} EarlyMonthStart(n: int)
    requires n <= 0
    ensures MonthStart(n) <= 28 * n
    decreases -n
  {
    MonthStartGap(n, 0);
  }

  function MonthFrom(day: int, n: int): (m: int)
    requires MonthStart(n) <= day
    ensures MonthStart(m) <= day < MonthStart(m + 1)
    decreases day - MonthStart(n)
  {
    MonthStartStep(n);
    if day < MonthStart(n + 1) then n else MonthFrom(day, n + 1)
  }

  /** The number of the month a day belongs to. */
  function MonthOf(day: int): (m: int)
    ensures MonthStart(m) <= day < MonthStart(m + 1)
  {
    if day >= 0 then MonthFrom(day, 0)
    else
      EarlyMonthStart(day);
      MonthFrom(day, day)
  }

  lemma MonthStartsOrdered(a: int, b: int)
    ensures MonthStart(a) < MonthStart(b) <==> a < b
  {
    if a <= b {
      MonthStartGap(a, b);
    } else {
      MonthStartGap(b, a);
    }
  }

  /** A day lies in exactly one month. */
  lemma MonthOwnsItsDays(day: int, n: int)
    ensures MonthOf(day) == n <==> MonthStart(n) <= day < MonthStart(n + 1)
  {
    var m := MonthOf(day);
    MonthStartStep(n);
    if m < n {
      MonthStartGap(m + 1, n);
    } else if n < m {
      MonthStartGap(n + 1, m);
    }
  }

  function NumberOf(m: CalendarMonth): int {
    m.year * 12 + (m.month - 1)
  }

  predicate IsMonth(m: CalendarMonth) {
    1 <= m.month <= 12
  }

  function CurrentMonth(z: Zone, now: int): (m: CalendarMonth)
    ensures IsMonth(m) && NumberOf(m) == MonthOf(z.dayOf(now))
  {
    var n := MonthOf(z.dayOf(now));
    CalendarMonth(n / 12, n % 12 + 1)
  }

  function ShiftCalendarMonth(m: CalendarMonth, delta: int): (r: CalendarMonth)
    ensures IsMonth(r) && NumberOf(r) == NumberOf(m) + delta
  {
    var total := m.year * 12 + (m.month - 1) + delta;
    var year := total / 12;
    CalendarMonth(year, total - year * 12 + 1)
  }

  /** Shifting months is an action of the integers: shifts add up and undo each other. */
  lemma ShiftsCompose(m: CalendarMonth, a: int, b: int)
    requires IsMonth(m)
    ensures ShiftCalendarMonth(ShiftCalendarMonth(m, a), b) == ShiftCalendarMonth(m, a + b)
    ensures ShiftCalendarMonth(m, 0) == m
  {
    MonthIsNumber(ShiftCalendarMonth(ShiftCalendarMonth(m, a), b), ShiftCalendarMonth(m, a + b));
    MonthIsNumber(ShiftCalendarMonth(m, 0), m);
  }

  lemma MonthIsNumber(a: CalendarMonth, b: CalendarMonth)
    requires IsMonth(a) && IsMonth(b) && NumberOf(a) == NumberOf(b)
    ensures a == b
  {
  }

  // ---------------------------------------------------------------- ranges

  function MonthRange(z: Zone, m: CalendarMonth): Range
    requires IsMonth(m)
  {
    var next := if m.month == 12 then CalendarMonth(m.year + 1, 1) else CalendarMonth(m.year, m.month + 1);
    Range(z.midnight(MonthStart(NumberOf(m))), z.midnight(MonthStart(NumberOf(next))))
  }

  /** `monthsBack` calendar months ending with and including `anchor`. */
  function MonthsRange(z: Zone, anchor: CalendarMonth, monthsBack: int): Range
    requires IsMonth(anchor) && monthsBack > 0
  {
    Range(MonthRange(z, ShiftCalendarMonth(anchor, -(monthsBack - 1))).start, MonthRange(z, anchor).end)
  }

  function YearRange(z: Zone, year: int): Range {
    Range(MonthRange(z, CalendarMonth(year, 1)).start, MonthRange(z, CalendarMonth(year, 12)).end)
  }

  /** The `days` reporting days ending with today, oldest first. */
  function RollingDays(z: Zone, now: int, days: nat): (r: seq<Range>)
    ensures |r| == days
    ensures forall i :: 0 <= i < days ==> r[i] == DayRange(z, z.dayOf(now) + i - days + 1)
  {
    seq(days, i => DayRange(z, z.dayOf(now) + i - days + 1))
  }

  /** Rolling days are adjacent, in order, and the last one holds `now`. */
  lemma RollingDaysTile(z: Zone, now: int, days: nat)
    requires IsZone(z) && days > 0
    ensures var r := RollingDays(z, now, days);
      && (forall i :: 0 <= i < days - 1 ==> r[i].end == r[i + 1].start)
      && (forall i :: 0 <= i < days ==> r[i].start < r[i].end)
      && r[days - 1].start <= now < r[days - 1].end
  {
    var r, today := RollingDays(z, now, days), z.dayOf(now);
    TodayHolds(z, now);
    forall i | 0 <= i < days
      ensures r[i].start < r[i].end
    {
      DayIsNonEmpty(z, today + i - days + 1);
    }
    forall i | 0 <= i < days - 1
      ensures r[i].end == r[i + 1].start
    {
      assert r[i] == DayRange(z, today + i - days + 1);
    }
    assert r[days - 1] == DayRange(z, today);
  }

  lemma DayIsNonEmpty(z: Zone, day: int)
    requires IsZone(z)
    ensures DayRange(z, day).start < DayRange(z, day).end
  {
    MidnightsOrdered(z, day, day + 1);
  }

  lemma TodayHolds(z: Zone, now: int)
    requires IsZone(z)
    ensures DayRange(z, z.dayOf(now)).start <= now < DayRange(z, z.dayOf(now)).end
  {
    assert Holds(DayRange(z, z.dayOf(now)), now);
  }

  // ---------------------------------------------------------------- finding midnight

  /** The wall clock a zone shows at an instant, read as if it were UTC. */
  function WallClock(offset: int -> int, instant: int): int {
    instant + offset(instant)
  }

  /** The UTC guess after `n` corrections by the error its wall clock displays. */
  function Corrected(offset: int -> int, target: int, n: nat): int {
    if n == 0 then target
    else
      var guess := Corrected(offset, target, n - 1);
      guess + (target - WallClock(offset, guess))
  }

  /** The wall clock shows some time in the first hour of the day that begins at `target`. */
  predicate ShowsHourZero(offset: int -> int, target: int, instant: int) {
    target <= WallClock(offset, instant) < target + HOUR_MS
  }

  lemma {:induction false} CorrectionStays(offset: int -> int, target: int, i: nat, n: nat)
    requires i <= n && WallClock(offset, Corrected(offset, target, i)) == target
    ensures Corrected(offset, target, n) == Corrected(offset, target, i)
  {
    if i < n {
      CorrectionStays(offset, target, i, n - 1);
    }
  }

  /**
   * The search for a local midnight in any zone: at most four corrections, then a look at the date
   * and hour shown. None stands for the error that the day cannot be resolved.
   */
  method LocalMidnight(day: int, offset: int -> int) returns (instant: Option<int>)
    ensures var guess := Corrected(offset, day * DAY_MS, 4);
      instant == if ShowsHourZero(offset, day * DAY_MS, guess) then Some(guess) else None
  {
    var target := day * DAY_MS;
    var candidate := target;
    for i := 0 to 4
      invariant candidate == Corrected(offset, target, i)
    {
      var next := candidate + (target - WallClock(offset, candidate));
      if next == candidate {
        CorrectionStays(offset, target, i, 4);
        break;
      }
      candidate := next;
    }
    if !ShowsHourZero(offset, target, candidate) {
      return None;
    }
    return Some(candidate);
  }

  /** The offset of a zone whose clock is changed once, at `change`. */
  function ChangesAt(change: int, before: int, after: int): int -> int {
    (t: int) => if t < change then before else after
  }

  /** Some instant is the midnight looked for. */
  ghost predicate HasMidnight(offset: int -> int, target: int) {
    exists m :: WallClock(offset, m) == target
  }

  lemma ChangesGuess(change: int, before: int, after: int, target: int, n: nat)
    requires n > 0
    ensures var o := ChangesAt(change, before, after);
      Corrected(o, target, n) == target - (if Corrected(o, target, n - 1) < change then before else after)
  {
  }

  /**
   * Around one clock change of any size, in either direction: if the day has a midnight, the search
   * ends on one. If the clock skips midnight, it ends shortly past it when the skip is shorter
   * than an hour and was over by midnight UTC, and gives up otherwise.
   */
  lemma MidnightAroundChange(offset: int -> int, change: int, before: int, after: int, target: int)
    requires offset == ChangesAt(change, before, after)
    ensures var guess := Corrected(offset, target, 4);
      && (HasMidnight(offset, target) <==> WallClock(offset, guess) == target)
      && (HasMidnight(offset, target) <==> !(target - after < change <= target - before))
      && (!HasMidnight(offset, target) ==>
            (ShowsHourZero(offset, target, guess) <==> after - before < HOUR_MS && change <= target))
  {
    ChangesGuess(change, before, after, target, 1);
    ChangesGuess(change, before, after, target, 2);
    ChangesGuess(change, before, after, target, 3);
    ChangesGuess(change, before, after, target, 4);
    assert WallClock(offset, target - before) == target || !(target - before < change);
    assert WallClock(offset, target - after) == target || !(change <= target - after);
  }

  /** In particular a zone at a fixed offset always resolves to the midnight of its day. */
  lemma FixedOffsetResolves(offsetMs: int, day: int)
    ensures var offset := ChangesAt(0, offsetMs, offsetMs);
      && Corrected(offset, day * DAY_MS, 4) == FixedOffset(offsetMs).midnight(day)
      && ShowsHourZero(offset, day * DAY_MS, FixedOffset(offsetMs).midnight(day))
  {
    MidnightAroundChange(ChangesAt(0, offsetMs, offsetMs), 0, offsetMs, offsetMs, day * DAY_MS);
  }
}
