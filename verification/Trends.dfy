/**
 * The trend series: one pass over date-sorted rows fills buckets made in advance, and the series
 * adds up to the overview totals of the same period.
 */
module Trends {
  import opened Common
  import opened SeqSums
  import opened ReportingTime
  import opened AnalyticsPeriod

  datatype FlowType = Income | Expense | Transfer

  /** A ledger row as the reports select it; amounts in cents. */
  datatype FlowRow = FlowRow(date: int, kind: FlowType, amount: int)

  datatype Point = Point(start: int, end: int, income: int, expense: int, netCashFlow: int)

  // ---------------------------------------------------------------- totals by definition

  function AmountIn(row: FlowRow, kind: FlowType, r: Range): int {
    if row.kind == kind && Holds(r, row.date) then row.amount else 0
  }

  function Share(kind: FlowType, r: Range): FlowRow -> int {
    row => AmountIn(row, kind, r)
  }

  /** The sum of the amounts of one kind dated in a range. */
  function TotalIn(rows: seq<FlowRow>, kind: FlowType, r: Range): int {
    SumOf(rows, Share(kind, r))
  }

  // ---------------------------------------------------------------- the one-pass fold

  /** What the row query of a period returns: its income and expense rows, oldest first. */
  predicate IsQueryResult(rows: seq<FlowRow>, r: Range) {
    && (forall i :: 0 <= i < |rows| ==> Holds(r, rows[i].date) && !rows[i].kind.Transfer?)
    && (forall i, j :: 0 <= i < j < |rows| ==> rows[i].date <= rows[j].date)
  }

  function RangeOf(p: Point): Range {
    Range(p.start, p.end)
  }

  /** The series filled in with the first `n` rows. */
  ghost predicate Filled(points: seq<Point>, buckets: seq<Range>, rows: seq<FlowRow>) {
    && |points| == |buckets|
    && (forall k :: 0 <= k < |points| ==>
      && RangeOf(points[k]) == buckets[k]
      && points[k].income == TotalIn(rows, Income, buckets[k])
      && points[k].expense == TotalIn(rows, Expense, buckets[k]))
  }

  /** The buckets before `index` end at or before `t`, and the one at `index` is as far as they go. */
  predicate Advanced(buckets: seq<Range>, index: nat, t: int) {
    && index < |buckets|
    && (index > 0 ==> buckets[index - 1].end <= t)
  }

  lemma {:induction false} TilesInOrder(buckets: seq<Range>, r: Range, j: nat, k: nat)
    requires Tiles(buckets, r) && j < k < |buckets|
    ensures buckets[j].end <= buckets[k].start
    decreases k - j
  {
    if j + 1 < k {
      TilesInOrder(buckets, r, j + 1, k);
      assert buckets[j + 1].start < buckets[j + 1].end;
    }
  }

  /** An instant of a tiled range lies in the bucket the cursor stops at, and in no other. */
  lemma BucketIsUnique(buckets: seq<Range>, r: Range, index: nat, t: int)
    requires Tiles(buckets, r) && Holds(r, t) && Advanced(buckets, index, t)
    requires index == |buckets| - 1 || t < buckets[index].end
    ensures forall k :: 0 <= k < |buckets| ==> (Holds(buckets[k], t) <==> k == index)
  {
    forall k | 0 <= k < |buckets|
      ensures Holds(buckets[k], t) <==> k == index
    {
      if k < index {
        TilesInOrder(buckets, r, k, index);
        assert buckets[k].end <= buckets[index].start;
      } else if index < k {
        TilesInOrder(buckets, r, index, k);
      }
    }
  }

  lemma AppendRow(rows: seq<FlowRow>, n: nat, kind: FlowType, r: Range)
    requires n < |rows|
    ensures TotalIn(rows[..n + 1], kind, r) == TotalIn(rows[..n], kind, r) + AmountIn(rows[n], kind, r)
  {
    assert rows[..n + 1][..n] == rows[..n];
  }

  /** Adding one row to the bucket it belongs to, and to no other, keeps the series filled. */
  lemma FillStep(before: seq<Point>, after: seq<Point>, buckets: seq<Range>, rows: seq<FlowRow>, n: nat, index: nat)
    requires n < |rows| && index < |buckets| == |before| == |after|
    requires Filled(before, buckets, rows[..n])
    requires forall k :: 0 <= k < |buckets| ==> (Holds(buckets[k], rows[n].date) <==> k == index)
    requires forall k :: 0 <= k < |buckets| && k != index ==> after[k] == before[k]
    requires RangeOf(after[index]) == RangeOf(before[index])
    requires after[index].income == before[index].income + AmountIn(rows[n], Income, buckets[index])
    requires after[index].expense == before[index].expense + AmountIn(rows[n], Expense, buckets[index])
    ensures Filled(after, buckets, rows[..n + 1])
  {
    forall k | 0 <= k < |after|
      ensures after[k].income == TotalIn(rows[..n + 1], Income, buckets[k])
      ensures after[k].expense == TotalIn(rows[..n + 1], Expense, buckets[k])
    {
      AppendRow(rows, n, Income, buckets[k]);
      AppendRow(rows, n, Expense, buckets[k]);
    }
  }

  /** One pass over the rows, advancing the bucket cursor as the dates grow. */
  method FoldRows(points: array<Point>, buckets: seq<Range>, rows: seq<FlowRow>, ghost r: Range)
    requires Tiles(buckets, r) && IsQueryResult(rows, r)
    requires Filled(points[..], buckets, [])
    modifies points
    ensures Filled(points[..], buckets, rows)
  {
    var bucketIndex := 0;
    for n := 0 to |rows|
      invariant bucketIndex < |buckets|
      invariant n < |rows| ==> Advanced(buckets, bucketIndex, rows[n].date)
      invariant Filled(points[..], buckets, rows[..n])
    {
      ghost var before := points[..];
      var row := rows[n];
      while bucketIndex < |buckets| - 1 && row.date >= points[bucketIndex].end
        invariant Advanced(buckets, bucketIndex, row.date)
      {
        assert RangeOf(points[..][bucketIndex]) == buckets[bucketIndex];
        bucketIndex := bucketIndex + 1;
      }
      var bucket := points[bucketIndex];
      assert RangeOf(points[..][bucketIndex]) == buckets[bucketIndex];
      BucketIsUnique(buckets, r, bucketIndex, row.date);
      // The source skips a row outside its bucket; that branch cannot be taken.
      if row.date < bucket.start || row.date >= bucket.end {
        assert false;
      }
      if row.kind == Income {
        points[bucketIndex] := bucket.(income := bucket.income + row.amount);
      } else {
        points[bucketIndex] := bucket.(expense := bucket.expense + row.amount);
      }
      FillStep(before, points[..], buckets, rows, n, bucketIndex);
    }
    assert rows[..|rows|] == rows;
  }

  /** The last pass: every bucket's net flow. */
  method SetNets(points: array<Point>)
    modifies points
    ensures forall k :: 0 <= k < points.Length ==> points[k] == WithNet(old(points[k]))
  {
    for k := 0 to points.Length
      invariant forall j :: 0 <= j < k ==> points[j] == WithNet(old(points[j]))
      invariant forall j :: k <= j < points.Length ==> points[j] == old(points[j])
    {
      points[k] := WithNet(points[k]);
    }
  }

  function WithNet(p: Point): Point {
    p.(netCashFlow := p.income - p.expense)
  }

  method FillSeries(buckets: seq<Range>, rows: seq<FlowRow>, ghost r: Range) returns (series: seq<Point>)
    requires buckets == [] || Tiles(buckets, r)
    requires IsQueryResult(rows, r)
    ensures Filled(series, buckets, if buckets == [] then [] else rows)
    ensures forall k :: 0 <= k < |series| ==> series[k].netCashFlow == series[k].income - series[k].expense
  {
    if |buckets| == 0 {
      return [];
    }
    var points := new Point[|buckets|](k requires 0 <= k < |buckets| => Point(buckets[k].start, buckets[k].end, 0, 0, 0));
    FoldRows(points, buckets, rows, r);
    ghost var folded := points[..];
    SetNets(points);
    series := points[..];
    assert forall k :: 0 <= k < |series| ==> series[k] == WithNet(folded[k]);
  }

  // ---------------------------------------------------------------- conservation

  function IncomeOf(): Point -> int {
    (p: Point) => p.income
  }

  function ExpenseOf(): Point -> int {
    (p: Point) => p.expense
  }

  function NetOf(): Point -> int {
    (p: Point) => p.netCashFlow
  }

  function SeriesIncome(series: seq<Point>): int {
    SumOf(series, IncomeOf())
  }

  function SeriesExpense(series: seq<Point>): int {
    SumOf(series, ExpenseOf())
  }

  function SeriesNet(series: seq<Point>): int {
    SumOf(series, NetOf())
  }

  /** The overview of one range: grouped sums over the whole table, transfers left out. */
  datatype Overview = Overview(income: int, expense: int, netCashFlow: int)

  function GetOverview(table: seq<FlowRow>, r: Range): Overview {
    var (income, expense) := (TotalIn(table, Income, r), TotalIn(table, Expense, r));
    Overview(income, expense, income - expense)
  }

  lemma AdjacentTotals(rows: seq<FlowRow>, kind: FlowType, a: int, b: int, c: int)
    requires a <= b <= c
    ensures TotalIn(rows, kind, Range(a, c)) == TotalIn(rows, kind, Range(a, b)) + TotalIn(rows, kind, Range(b, c))
  {
    SumOfSplit(rows, Share(kind, Range(a, c)), Share(kind, Range(a, b)), Share(kind, Range(b, c)));
  }

  lemma {:induction false} SeriesSums(series: seq<Point>, buckets: seq<Range>, rows: seq<FlowRow>, r: Range)
    requires Tiles(buckets, r) && Filled(series, buckets, rows)
    ensures SeriesIncome(series) == TotalIn(rows, Income, r)
    ensures SeriesExpense(series) == TotalIn(rows, Expense, r)
    decreases |series|
  {
    var n := |series| - 1;
    var last := buckets[n];
    assert RangeOf(series[n]) == last;
    if n == 0 {
      assert last == r;
      assert SumOf(series[..n], IncomeOf()) == 0 == SumOf(series[..n], ExpenseOf());
    } else {
      TilesInOrder(buckets, r, 0, n);
      SeriesSums(series[..n], buckets[..n], rows, Range(r.start, last.start));
      AdjacentTotals(rows, Income, r.start, last.start, last.end);
      AdjacentTotals(rows, Expense, r.start, last.start, last.end);
    }
  }

  lemma {:induction false} SeriesNetIsDifference(series: seq<Point>)
    requires forall k :: 0 <= k < |series| ==> series[k].netCashFlow == series[k].income - series[k].expense
    ensures SeriesNet(series) == SeriesIncome(series) - SeriesExpense(series)
  {
    if series != [] {
      SeriesNetIsDifference(series[..|series| - 1]);
    }
  }

  /** The row query of a period selects income and expense rows dated in its range. */
  function InQuery(r: Range): FlowRow -> bool {
    (row: FlowRow) => Holds(r, row.date) && !row.kind.Transfer?
  }

  lemma SelectionKeepsTotals(table: seq<FlowRow>, kind: FlowType, r: Range, part: Range)
    requires !kind.Transfer? && r.start <= part.start && part.end <= r.end
    ensures TotalIn(Filtered(table, InQuery(r)), kind, part) == TotalIn(table, kind, part)
  {
    SumOfFiltered(table, InQuery(r), Share(kind, part));
  }

  function RangesOf(series: seq<Point>): (r: seq<Range>)
    ensures |r| == |series| && forall k :: 0 <= k < |r| ==> r[k] == RangeOf(series[k])
  {
    seq(|series|, k requires 0 <= k < |series| => RangeOf(series[k]))
  }

  /** A series that tiles the range, with the totals of the table in every bucket. */
  ghost predicate IsTrendOf(series: seq<Point>, table: seq<FlowRow>, r: Range) {
    && Tiles(RangesOf(series), r)
    && Filled(series, RangesOf(series), table)
    && (forall k :: 0 <= k < |series| ==> series[k].netCashFlow == series[k].income - series[k].expense)
  }

  /** Filling from the query result is filling from the table. */
  lemma FilledFromTable(series: seq<Point>, buckets: seq<Range>, rows: seq<FlowRow>, table: seq<FlowRow>, r: Range)
    requires Tiles(buckets, r) && Filled(series, buckets, rows)
    requires multiset(rows) == multiset(Filtered(table, InQuery(r)))
    ensures RangesOf(series) == buckets && Filled(series, buckets, table)
  {
    forall k | 0 <= k < |buckets|
      ensures TotalIn(rows, Income, buckets[k]) == TotalIn(table, Income, buckets[k])
      ensures TotalIn(rows, Expense, buckets[k]) == TotalIn(table, Expense, buckets[k])
    {
      BucketInside(buckets, r, k);
      SumOfReorder(rows, Filtered(table, InQuery(r)), Share(Income, buckets[k]));
      SumOfReorder(rows, Filtered(table, InQuery(r)), Share(Expense, buckets[k]));
      SelectionKeepsTotals(table, Income, r, buckets[k]);
      SelectionKeepsTotals(table, Expense, r, buckets[k]);
    }
  }

  lemma BucketInside(buckets: seq<Range>, r: Range, k: nat)
    requires Tiles(buckets, r) && k < |buckets|
    ensures r.start <= buckets[k].start && buckets[k].end <= r.end
  {
    var n := |buckets| - 1;
    if 0 < k {
      TilesInOrder(buckets, r, 0, k);
      assert buckets[0].start < buckets[0].end;
    }
    if k < n {
      TilesInOrder(buckets, r, k, n);
      assert buckets[n].start < buckets[n].end;
    }
  }

  /** The series of a period adds up to the overview of the same period. */
  lemma TrendSumsToOverview(series: seq<Point>, table: seq<FlowRow>, r: Range)
    requires IsTrendOf(series, table, r)
    ensures Overview(SeriesIncome(series), SeriesExpense(series), SeriesNet(series)) == GetOverview(table, r)
  {
    SeriesSums(series, RangesOf(series), table, r);
    SeriesNetIsDifference(series);
  }

  /** One point for every day, or for every month, that the range touches. */
  ghost predicate HasGranularity(series: seq<Point>, z: Zone, r: Range) {
    Collected(RangesOf(series), z, ResolveTrendGranularity(r), r, Units(z, ResolveTrendGranularity(r), r))
  }

  /** What the row query returns for a period, when the table holds these rows. */
  ghost predicate Fetched(rows: seq<FlowRow>, table: seq<FlowRow>, r: Range) {
    IsQueryResult(rows, r) && multiset(rows) == multiset(Filtered(table, InQuery(r)))
  }

  method TrendsIn(z: Zone, r: Range, rows: seq<FlowRow>, ghost table: seq<FlowRow>) returns (series: seq<Point>)
    requires IsZone(z) && r.start < r.end && Fetched(rows, table, r)
    requires Units(z, ResolveTrendGranularity(r), r) <= Guard(ResolveTrendGranularity(r))
    ensures IsTrendOf(series, table, r) && HasGranularity(series, z, r)
  {
    var buckets := GenerateTrendBuckets(r, ResolveTrendGranularity(r), z);
    series := FillSeries(buckets, rows, r);
    FilledFromTable(series, buckets, rows, table, r);
  }

  /** The trend series of any period that resolves, from the rows the query returns for it. */
  method GetTrends(z: Zone, now: int, period: Period, rows: seq<FlowRow>, ghost table: seq<FlowRow>)
    returns (result: Result<seq<Point>, PeriodError>)
    requires IsZone(z)
    requires ResolveAnalyticsPeriod(z, now, period).Ok? ==>
      Fetched(rows, table, ResolveAnalyticsPeriod(z, now, period).value.range)
    ensures match ResolveAnalyticsPeriod(z, now, period)
      case Err(e) => result == Err(e)
      case Ok(resolved) => result.Ok? && IsTrendOf(result.value, table, resolved.range) && HasGranularity(result.value, z, resolved.range)
  {
    var resolved :- ResolveAnalyticsPeriod(z, now, period);
    PreviousAbuts(z, now, period);
    ResolvedNeverHitsGuard(z, now, period);
    var series := TrendsIn(z, resolved.range, rows, table);
    result := Ok(series);
  }
}
