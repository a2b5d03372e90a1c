/**
 * The seven-day sparkline of one wallet: the cached balance is walked backwards over the rows of
 * the window, and each point should be the close that replaying the ledger forwards would give.
 */
module Sparkline {
  import opened Common
  import opened SeqSums
  import opened ReportingTime
  import opened TransactionBalance

  const SPARKLINE_DAYS := 7

  datatype DatedRow = DatedRow(date: int, entry: LedgerRow)

  // ---------------------------------------------------------------- the second definition of an effect

  function PersistedAmount(e: LedgerRow, grandTotals: map<Id, int>): int {
    if e.txType == Expense && e.isInstallment && e.installmentId.Some? && e.installmentId.value in grandTotals
    then grandTotals[e.installmentId.value] else e.amount
  }

  function ReportingEffect(e: LedgerRow, grandTotals: map<Id, int>, w: Id): int {
    var amount := PersistedAmount(e, grandTotals);
    match e.txType
    case Income => if e.walletId == w then amount else 0
    case Expense => if e.walletId == w then -amount else 0
    case Transfer =>
      if e.walletId == w then -amount
      else if e.toWalletId == Some(w) then amount
      else 0
  }

  /** A transfer of some money from a wallet to itself. */
  predicate SelfTransfer(e: LedgerRow, w: Id) {
    e.txType == Transfer && e.walletId == w && e.toWalletId == Some(w) && e.amount != 0
  }

  function SelfAmount(e: LedgerRow, w: Id): int {
    if SelfTransfer(e, w) then e.amount else 0
  }

  /** The two definitions agree on a wallet for every row but a transfer from that wallet to itself. */
  lemma ReportingAgrees(e: LedgerRow, grandTotals: map<Id, int>, w: Id)
    requires e.isInstallment ==> e.txType == Expense
    ensures ReportingEffect(e, grandTotals, w) == RowEffect(e, grandTotals, w) <==> !SelfTransfer(e, w)
    ensures ReportingEffect(e, grandTotals, w) == RowEffect(e, grandTotals, w) - SelfAmount(e, w)
  {
    EffectClosedForm(AuditInput(e, grandTotals), w);
  }

  // ---------------------------------------------------------------- sums over dated rows

  function Reported(g: map<Id, int>, w: Id): DatedRow -> int {
    (row: DatedRow) => ReportingEffect(row.entry, g, w)
  }

  function Audited(g: map<Id, int>, w: Id): DatedRow -> int {
    (row: DatedRow) => RowEffect(row.entry, g, w)
  }

  function ToSelf(w: Id): DatedRow -> int {
    (row: DatedRow) => SelfAmount(row.entry, w)
  }

  function Since(f: DatedRow -> int, t: int): DatedRow -> int {
    (row: DatedRow) => if row.date >= t then f(row) else 0
  }

  function Until(f: DatedRow -> int, t: int): DatedRow -> int {
    (row: DatedRow) => if row.date < t then f(row) else 0
  }

  predicate NewestFirst(rows: seq<DatedRow>) {
    forall i, j :: 0 <= i < j < |rows| ==> rows[i].date >= rows[j].date
  }

  lemma {:induction false} NothingSince(rows: seq<DatedRow>, f: DatedRow -> int, t: int)
    requires forall i :: 0 <= i < |rows| ==> rows[i].date < t
    ensures SumOf(rows, Since(f, t)) == 0
  {
    if rows != [] {
      NothingSince(rows[..|rows| - 1], f, t);
    }
  }

  /** Where a newest-first list crosses an instant, the rows passed are exactly those since it. */
  lemma PassedAreSince(rows: seq<DatedRow>, n: nat, f: DatedRow -> int, t: int)
    requires n <= |rows| && NewestFirst(rows)
    requires forall i :: 0 <= i < n ==> rows[i].date >= t
    requires n < |rows| ==> rows[n].date < t
    ensures SumOf(rows[..n], f) == SumOf(rows, Since(f, t))
  {
    var (passed, left) := (rows[..n], rows[n..]);
    assert rows == passed + left;
    SumOfConcat(passed, left, Since(f, t));
    SumOfAgree(passed, f, Since(f, t));
    LeftIsOlder(rows, n, t);
    NothingSince(left, f, t);
  }

  lemma LeftIsOlder(rows: seq<DatedRow>, n: nat, t: int)
    requires n <= |rows| && NewestFirst(rows) && (n < |rows| ==> rows[n].date < t)
    ensures forall i :: 0 <= i < |rows[n..]| ==> rows[n..][i].date < t
  {
  }

  lemma OneMore(rows: seq<DatedRow>, n: nat, f: DatedRow -> int)
    requires n < |rows|
    ensures SumOf(rows[..n + 1], f) == SumOf(rows[..n], f) + f(rows[n])
  {
    assert rows[..n + 1][..n] == rows[..n];
  }

  // ---------------------------------------------------------------- the backward walk

  datatype SparklinePoint = SparklinePoint(day: int, balance: Option<int>)

  /** The instant from which effects are taken out of the `k`-th close: its midnight, or after `now` for today. */
  function Cut(z: Zone, now: int, k: nat): int {
    if k >= SPARKLINE_DAYS - 1 then now + 1 else z.midnight(z.dayOf(now) + k - SPARKLINE_DAYS + 2)
  }

  lemma CutsOrdered(z: Zone, now: int, k: nat)
    requires IsZone(z)
    ensures Cut(z, now, k) <= Cut(z, now, k + 1)
  {
    var d := z.dayOf(now) + k - SPARKLINE_DAYS + 2;
    MidnightsOrdered(z, d, d + 1);
    TodayHolds(z, now);
  }

  /** What the walk takes out for the `k`-th close. */
  function TakenOut(recent: seq<DatedRow>, z: Zone, now: int, g: map<Id, int>, w: Id, k: nat): int {
    SumOf(recent, Since(Reported(g, w), Cut(z, now, k)))
  }

  /**
   * The point of the `k`-th day, oldest first: the balance without what is dated since that day's
   * close, and no figure for a day that was over before the wallet existed.
   */
  predicate IsPoint(p: SparklinePoint, k: int, z: Zone, now: int, balance: int, createdAt: int,
                    recent: seq<DatedRow>, g: map<Id, int>, w: Id) {
    && 0 <= k < SPARKLINE_DAYS
    && p.day == z.dayOf(now) + k - SPARKLINE_DAYS + 1
    && p.balance == if z.midnight(p.day + 1) <= createdAt then None else Some(balance - TakenOut(recent, z, now, g, w, k))
  }

  /** The first `n` rows are dated at or after `cut` and have been taken out of the balance. */
  ghost predicate Walked(recent: seq<DatedRow>, n: nat, taken: int, f: DatedRow -> int, cut: int) {
    && n <= |recent|
    && taken == SumOf(recent[..n], f)
    && (forall i :: 0 <= i < n ==> recent[i].date >= cut)
  }

  /** The inner loop: the rows of one day, and those after `now` for today. */
  method TakeDay(recent: seq<DatedRow>, index: nat, balance: int, isToday: bool, closingBoundary: int, g: map<Id, int>, w: Id,
                 ghost total: int)
    returns (transactionIndex: nat, runningBalance: int)
    requires NewestFirst(recent)
    requires Walked(recent, index, total - balance, Reported(g, w), closingBoundary + if isToday then 1 else 0)
    ensures Walked(recent, transactionIndex, total - runningBalance, Reported(g, w), closingBoundary + if isToday then 1 else 0)
    ensures total - runningBalance == SumOf(recent, Since(Reported(g, w), closingBoundary + if isToday then 1 else 0))
  {
    runningBalance, transactionIndex := balance, index;
    while transactionIndex < |recent|
          && (if isToday then recent[transactionIndex].date > closingBoundary
              else recent[transactionIndex].date >= closingBoundary)
      invariant Walked(recent, transactionIndex, total - runningBalance, Reported(g, w), closingBoundary + if isToday then 1 else 0)
    {
      OneMore(recent, transactionIndex, Reported(g, w));
      runningBalance := runningBalance - ReportingEffect(recent[transactionIndex].entry, g, w);
      transactionIndex := transactionIndex + 1;
    }
    PassedAreSince(recent, transactionIndex, Reported(g, w), closingBoundary + if isToday then 1 else 0);
  }

  /** One turn of the outer loop: take out the rows since the close of a day, then note its balance. */
  method CloseDay(z: Zone, now: int, bucketIndex: nat, bucket: Range, createdAt: int, w: Id, recent: seq<DatedRow>,
                  g: map<Id, int>, index: nat, balance: int, ghost total: int)
    returns (transactionIndex: nat, runningBalance: int, point: SparklinePoint)
    requires bucketIndex < SPARKLINE_DAYS && bucket == RollingDays(z, now, SPARKLINE_DAYS)[bucketIndex]
    requires NewestFirst(recent) && Walked(recent, index, total - balance, Reported(g, w), Cut(z, now, bucketIndex))
    ensures Walked(recent, transactionIndex, total - runningBalance, Reported(g, w), Cut(z, now, bucketIndex))
    ensures IsPoint(point, bucketIndex, z, now, total, createdAt, recent, g, w)
  {
    var isToday := bucketIndex == SPARKLINE_DAYS - 1;
    var closingBoundary := if isToday then now else bucket.end;
    transactionIndex, runningBalance := TakeDay(recent, index, balance, isToday, closingBoundary, g, w, total);
    point := SparklinePoint(z.dayOf(now) + bucketIndex - SPARKLINE_DAYS + 1,
                            if bucket.end <= createdAt then None else Some(runningBalance));
  }

  method GetWalletSparkline(z: Zone, now: int, balance: int, createdAt: int, w: Id, recent: seq<DatedRow>, g: map<Id, int>)
    returns (points: seq<SparklinePoint>)
    requires IsZone(z) && NewestFirst(recent)
    ensures |points| == SPARKLINE_DAYS
    ensures forall k :: 0 <= k < SPARKLINE_DAYS ==> IsPoint(points[k], k, z, now, balance, createdAt, recent, g, w)
  {
    var buckets := RollingDays(z, now, SPARKLINE_DAYS);
    var runningBalance, transactionIndex := balance, 0;
    var newestFirst: seq<SparklinePoint> := [];
    for bucketIndex := SPARKLINE_DAYS downto 0
      invariant |newestFirst| == SPARKLINE_DAYS - bucketIndex
      invariant Walked(recent, transactionIndex, balance - runningBalance, Reported(g, w), Cut(z, now, bucketIndex))
      invariant forall i :: 0 <= i < |newestFirst| ==> IsPoint(newestFirst[i], SPARKLINE_DAYS - 1 - i, z, now, balance, createdAt, recent, g, w)
    {
      CutsOrdered(z, now, bucketIndex);
      var point;
      transactionIndex, runningBalance, point :=
        CloseDay(z, now, bucketIndex, buckets[bucketIndex], createdAt, w, recent, g, transactionIndex, runningBalance, balance);
      newestFirst := newestFirst + [point];
    }
    points := seq(SPARKLINE_DAYS, k requires 0 <= k < SPARKLINE_DAYS => newestFirst[SPARKLINE_DAYS - 1 - k]);
  }

  // ---------------------------------------------------------------- the forward replay

  predicate Touches(e: LedgerRow, w: Id) {
    e.walletId == w || e.toWalletId == Some(w)
  }

  /** The sparkline's query: rows on either side of the wallet, dated in the seven days. */
  function InWindow(w: Id, start: int, end: int): DatedRow -> bool {
    (row: DatedRow) => Touches(row.entry, w) && start <= row.date < end
  }

  ghost predicate WellFormed(table: seq<DatedRow>) {
    forall row :: row in table && row.entry.isInstallment ==> row.entry.txType == Expense
  }

  function EntriesOf(table: seq<DatedRow>): seq<LedgerRow> {
    if table == [] then [] else EntriesOf(table[..|table| - 1]) + [table[|table| - 1].entry]
  }

  lemma {:induction false} EntriesSum(table: seq<DatedRow>, g: map<Id, int>, w: Id)
    ensures SumEffects(EntriesOf(table), g, w) == SumOf(table, Audited(g, w))
  {
    if table != [] {
      var rest := EntriesOf(table[..|table| - 1]);
      EntriesSum(table[..|table| - 1], g, w);
      assert (rest + [table[|table| - 1].entry])[..|rest|] == rest;
    }
  }

  /** What the walk takes out, in terms of the audited effects. */
  lemma ReversedEffects(table: seq<DatedRow>, recent: seq<DatedRow>, g: map<Id, int>, w: Id, start: int, cut: int, end: int)
    requires WellFormed(table) && start <= cut
    requires multiset(recent) == multiset(Filtered(table, InWindow(w, start, end)))
    ensures SumOf(recent, Since(Reported(g, w), cut))
            == SumOf(table, Until(Since(Audited(g, w), cut), end)) - SumOf(table, Until(Since(ToSelf(w), cut), end))
  {
    var since, bounded := Since(Reported(g, w), cut), Until(Since(Reported(g, w), cut), end);
    var window := Filtered(table, InWindow(w, start, end));
    SumOfReorder(recent, window, since);
    FilteredKept(table, InWindow(w, start, end));
    SumOfAgree(window, since, bounded);
    SumOfFiltered(table, InWindow(w, start, end), bounded);
    forall row | row in table
      ensures Until(Since(Audited(g, w), cut), end)(row) == bounded(row) + Until(Since(ToSelf(w), cut), end)(row)
    {
      ReportingAgrees(row.entry, g, w);
    }
    SumOfSplit(table, Until(Since(Audited(g, w), cut), end), bounded, Until(Since(ToSelf(w), cut), end));
  }

  /** Past, window and future together are the whole ledger. */
  lemma SplitAt(table: seq<DatedRow>, f: DatedRow -> int, cut: int, end: int)
    requires cut <= end
    ensures SumOf(table, f) == SumOf(table, Until(f, cut)) + SumOf(table, Until(Since(f, cut), end)) + SumOf(table, Since(f, end))
  {
    SumOfSplit(table, f, Until(f, cut), Since(f, cut));
    SumOfSplit(table, Since(f, cut), Until(Since(f, cut), end), Since(f, end));
  }

  /** The close that replaying the ledger forwards gives: opening balance plus what is dated before. */
  function Replayed(table: seq<DatedRow>, initialBalance: int, g: map<Id, int>, w: Id, cut: int): int {
    initialBalance + SumOf(table, Until(Audited(g, w), cut))
  }

  /** The money a point carries beyond the replayed close: what later days and self-transfers add. */
  function Excess(table: seq<DatedRow>, g: map<Id, int>, w: Id, cut: int, end: int): int {
    SumOf(table, Since(Audited(g, w), end)) + SumOf(table, Until(Since(ToSelf(w), cut), end))
  }

  /**
   * For a reconciled wallet, every point of the backward walk is the forward replay plus the
   * excess, so the two agree exactly when the rows dated after today and the wallet's transfers
   * to itself since that close cancel out.
   */
  lemma WalkRefinesReplay(
      z: Zone, now: int, k: int, table: seq<DatedRow>, recent: seq<DatedRow>,
      initialBalance: int, balance: int, createdAt: int, g: map<Id, int>, w: Id, point: SparklinePoint)
    requires IsZone(z) && WellFormed(table)
    requires IsPoint(point, k, z, now, balance, createdAt, recent, g, w)
    requires balance == initialBalance + SumEffects(EntriesOf(table), g, w)
    requires var days := RollingDays(z, now, SPARKLINE_DAYS);
      multiset(recent) == multiset(Filtered(table, InWindow(w, days[0].start, days[SPARKLINE_DAYS - 1].end)))
    ensures var (cut, end) := (Cut(z, now, k), RollingDays(z, now, SPARKLINE_DAYS)[SPARKLINE_DAYS - 1].end);
      point.balance.Some? ==>
        (point.balance.value == Replayed(table, initialBalance, g, w, cut) <==> Excess(table, g, w, cut, end) == 0)
  {
    var days := RollingDays(z, now, SPARKLINE_DAYS);
    var start, cut, end := days[0].start, Cut(z, now, k), days[SPARKLINE_DAYS - 1].end;
    CutInWindow(z, now, k);
    ReversedEffects(table, recent, g, w, start, cut, end);
    EntriesSum(table, g, w);
    SplitAt(table, Audited(g, w), cut, end);
  }

  lemma CutInWindow(z: Zone, now: int, k: int)
    requires IsZone(z) && 0 <= k < SPARKLINE_DAYS
    ensures var days := RollingDays(z, now, SPARKLINE_DAYS);
      days[0].start <= Cut(z, now, k) <= days[SPARKLINE_DAYS - 1].end
    decreases k
  {
    RollingDaysTile(z, now, SPARKLINE_DAYS);
    DaysInOrder(RollingDays(z, now, SPARKLINE_DAYS), 0, k);
    DaysInOrder(RollingDays(z, now, SPARKLINE_DAYS), k, SPARKLINE_DAYS - 1);
  }

  lemma {:induction false} DaysInOrder(days: seq<Range>, j: nat, k: nat)
    requires j <= k < |days|
    requires forall i :: 0 <= i < |days| - 1 ==> days[i].end == days[i + 1].start
    requires forall i :: 0 <= i < |days| ==> days[i].start < days[i].end
    ensures days[j].start <= days[k].start && days[j].end <= days[k].end
    decreases k - j
  {
    if j < k {
      DaysInOrder(days, j + 1, k);
      assert days[j].end == days[j + 1].start;
    }
  }

  lemma OneRowTable(row: DatedRow, g: map<Id, int>, w: Id, cut: int)
    ensures SumEffects(EntriesOf([row]), g, w) == RowEffect(row.entry, g, w)
    ensures SumOf([row], Until(Audited(g, w), cut)) == if row.date < cut then RowEffect(row.entry, g, w) else 0
  {
    EntriesSum([row], g, w);
    SumOfOne(row, Audited(g, w));
    SumOfOne(row, Until(Audited(g, w), cut));
  }

  lemma OneRowWindow(row: DatedRow, w: Id, start: int, end: int)
    ensures Filtered([row], InWindow(w, start, end)) == if InWindow(w, start, end)(row) then [row] else []
  {
    assert Filtered([row][..0], InWindow(w, start, end)) == [];
  }

  /** An income not yet due by `cut`: outside the window, in the balance, not in the replay. */
  lemma LaterIncome(row: DatedRow, w: Id, start: int, end: int, cut: int, initialBalance: int)
    requires row == DatedRow(end, LedgerRow(Income, 500, w, None, false, None)) && cut <= end
    ensures Filtered([row], InWindow(w, start, end)) == []
    ensures SumEffects(EntriesOf([row]), map[], w) == 500
    ensures Replayed([row], initialBalance, map[], w, cut) == initialBalance
  {
    OneRowWindow(row, w, start, end);
    OneRowTable(row, map[], w, cut);
    EffectClosedForm(AuditInput(row.entry, map[]), w);
  }

  /** With nothing in the window, the point of today is the balance. */
  lemma TodaysPoint(z: Zone, now: int, balance: int, createdAt: int, g: map<Id, int>, w: Id, point: SparklinePoint)
    requires IsZone(z) && createdAt <= now && IsPoint(point, SPARKLINE_DAYS - 1, z, now, balance, createdAt, [], g, w)
    ensures point.balance == Some(balance)
  {
    TodayHolds(z, now);
  }

  /**
   * A row dated tomorrow is in the balance but not in the window, so the point of today still holds
   * its 500, which the replay of the ledger up to now does not.
   */
  lemma TomorrowIsNotReversed(z: Zone, now: int, w: Id, initialBalance: int, createdAt: int, point: SparklinePoint)
    requires IsZone(z) && createdAt <= now
    requires IsPoint(point, SPARKLINE_DAYS - 1, z, now, initialBalance + 500, createdAt, [], map[], w)
    ensures var (tomorrow, cut) := (RollingDays(z, now, SPARKLINE_DAYS)[SPARKLINE_DAYS - 1].end, Cut(z, now, SPARKLINE_DAYS - 1));
      var table := [DatedRow(tomorrow, LedgerRow(Income, 500, w, None, false, None))];
      && Filtered(table, InWindow(w, RollingDays(z, now, SPARKLINE_DAYS)[0].start, tomorrow)) == []
      && SumEffects(EntriesOf(table), map[], w) == 500
      && point.balance == Some(initialBalance + 500) && Replayed(table, initialBalance, map[], w, cut) == initialBalance
  {
    var tomorrow := RollingDays(z, now, SPARKLINE_DAYS)[SPARKLINE_DAYS - 1].end;
    CutInWindow(z, now, SPARKLINE_DAYS - 1);
    LaterIncome(DatedRow(tomorrow, LedgerRow(Income, 500, w, None, false, None)), w,
                RollingDays(z, now, SPARKLINE_DAYS)[0].start, tomorrow, Cut(z, now, SPARKLINE_DAYS - 1), initialBalance);
    TodaysPoint(z, now, initialBalance + 500, createdAt, map[], w, point);
  }
}
