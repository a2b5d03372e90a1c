/**
 * Two payments of one bill in flight at once. A payment checks the bill and its source before its
 * transaction and neither again inside it, so the ledger stays reconciled but two payments can
 * settle the same term, and a source can be overdrawn. Each has an exact condition.
 */
module PaymentRaces {
  import opened Common
  import opened Runs
  import opened Sums
  import opened BillingCycle
  import opened TransactionBalance
  import opened Ledger
  import opened Requests
  import opened ConcurrentLedger
  import opened InstallmentRun

  // ---------------------------------------------------------------- when a late commit is clean

  lemma CommittedPaymentMoves(t: Store, p: Requests.Plan, v: Id)
    requires p.PayTerm? && CommitPay(t, p).Ok? && v in t.wallets
    requires p.row.entry.txType == Transfer && !p.row.entry.isInstallment && p.row.entry.toWalletId.Some?
    ensures v in CommitPay(t, p).value.wallets
    ensures CommitPay(t, p).value.wallets[v].balance
            == t.wallets[v].balance + Moved(p.row.entry, p.row.entry.walletId, p.row.entry.toWalletId.value, v)
  {
    ReversalIsExact(RegularInput(p.row.entry), v);
    EffectClosedForm(RegularInput(p.row.entry), v);
  }

  /** What the source must still hold for the payment not to overdraw it. */
  function Needed(e: LedgerRow): int {
    if e.toWalletId == Some(e.walletId) then 0 else e.amount
  }

  /**
   * A payment decided on tables `s` and committed on tables `t` advances the bill by one term
   * exactly when the bill still has the terms paid that were read, and leaves its source without
   * debt exactly when the source can still afford it.
   */
  lemma PaymentCommitExact(s: Store, r: PayInput, newRow: Id, t: Store)
    requires PreparePay(s, r, newRow).Ok? && CommitPay(t, PreparePay(s, r, newRow).value).Ok?
    ensures var (i, source) := (r.installmentId, r.sourceWalletId);
      var (e, t') := (PreparePay(s, r, newRow).value.row.entry, CommitPay(t, PreparePay(s, r, newRow).value).value);
      && i in t.installments && i in t'.installments && source in t.wallets && source in t'.wallets
      && (t'.installments[i].paidTerms == t.installments[i].paidTerms + 1 <==> t.installments[i].paidTerms == s.installments[i].paidTerms)
      && (t'.wallets[source].balance >= 0 <==> t.wallets[source].balance >= Needed(e))
  {
    var p := PreparePay(s, r, newRow).value;
    assert p.row.entry.walletId in t.wallets;
    CommittedPaymentMoves(t, p, r.sourceWalletId);
  }

  // ---------------------------------------------------------------- the run that pays a term twice

  /** A payment of the bill's next term, decided on these tables. */
  ghost predicate PaysNextTerm(s: Store, i: Id, p: Requests.Plan) {
    && p.PayTerm? && p.instId == i && p.row.categoryId.None?
    && i in s.installments && p.paidTerms == s.installments[i].paidTerms + 1
    && (var e := p.row.entry;
        && e.txType == Transfer && !e.isInstallment && e.installmentId.None?
        && e.walletId in s.wallets && e.toWalletId == Some(s.installments[i].walletId) && s.installments[i].walletId in s.wallets)
  }

  lemma PreparedPayment(s: Store, r: PayInput, newRow: Id)
    requires Intact(s) && PreparePay(s, r, newRow).Ok?
    ensures PaysNextTerm(s, r.installmentId, PreparePay(s, r, newRow).value) && PreparePay(s, r, newRow).value.rowId == newRow
    ensures PreparePay(s, r, newRow).value.row.entry.walletId == r.sourceWalletId
  {
  }

  lemma PaymentGoesThrough(t: Store, p: Requests.Plan)
    requires p.PayTerm? && p.rowId !in t.rows && p.instId in t.installments && p.row.categoryId.None?
    requires var e := p.row.entry;
      && e.txType == Transfer && !e.isInstallment && e.installmentId.None? && e.walletId in t.wallets
      && e.toWalletId.Some? && e.toWalletId.value in t.wallets
    ensures CommitPay(t, p).Ok?
    ensures var t' := CommitPay(t, p).value;
      && t'.rows == t.rows[p.rowId := p.row] && t'.wallets.Keys == t.wallets.Keys
      && t'.installments.Keys == t.installments.Keys && t'.installments[p.instId].paidTerms == p.paidTerms
  {
    var s1 := InsertRow(t, p.rowId, p.row).value;
    var deltas := ComputeBalanceEffect(RegularInput(p.row.entry)).value;
    forall d | d in deltas ensures d.walletId in s1.wallets {
    }
  }

  /** Both rows are stored and both amounts moved, but the bill is one term further. */
  ghost predicate PaidTwice(s: Store, t: Store, i: Id, p: Requests.Plan, q: Requests.Plan)
    requires PaysNextTerm(s, i, p) && PaysNextTerm(s, i, q)
  {
    && i in t.installments && t.installments[i].paidTerms == s.installments[i].paidTerms + 1
    && t.rows == s.rows[p.rowId := p.row][q.rowId := q.row]
    && t.wallets.Keys == s.wallets.Keys
    && (forall v :: v in s.wallets ==> t.wallets[v].balance == s.wallets[v].balance + Shift(s, i, p, v) + Shift(s, i, q, v))
  }

  ghost function Shift(s: Store, i: Id, p: Requests.Plan, v: Id): int
    requires PaysNextTerm(s, i, p)
  {
    Moved(p.row.entry, p.row.entry.walletId, s.installments[i].walletId, v)
  }

  lemma BothCommit(s: Store, i: Id, p: Requests.Plan, q: Requests.Plan) returns (s1: Store, t: Store)
    requires PaysNextTerm(s, i, p) && PaysNextTerm(s, i, q) && p.rowId != q.rowId && p.rowId !in s.rows && q.rowId !in s.rows
    ensures Commit(s, p) == Ok(s1) && Commit(s1, q) == Ok(t)
    ensures PaidTwice(s, t, i, p, q)
  {
    PaymentGoesThrough(s, p);
    s1 := CommitPay(s, p).value;
    PaymentGoesThrough(s1, q);
    t := CommitPay(s1, q).value;
    forall v | v in s.wallets
      ensures t.wallets[v].balance == s.wallets[v].balance + Shift(s, i, p, v) + Shift(s, i, q, v)
    {
      CommittedPaymentMoves(s, p, v);
      CommittedPaymentMoves(s1, q, v);
    }
  }

  lemma Step(y: System, m: ConcurrentLedger.Move)
    requires Enabled(y, m) && Allowed(m)
    ensures Reaches(Takes, y, Next(y, m))
  {
    ReachesByStep(Takes, y, m, Next(y, m));
  }

  /** Two requests decide on the same tables before either commits. */
  ghost predicate BothPending(y: System, s: Store, m: Id, p: Requests.Plan, n: Id, q: Requests.Plan) {
    y.store == s && m in y.pending && n in y.pending && y.pending[m] == p && y.pending[n] == q
  }

  lemma BothRead(y: System, m: Id, a: Request, n: Id, b: Request)
    requires m != n && m !in y.pending && n !in y.pending && Interleaves(a) && Interleaves(b)
    requires NewIds(a) !! y.used && NewIds(b) !! y.used && NewIds(a) !! NewIds(b)
    requires Prepare(y.store, a).Ok? && Prepare(y.store, b).Ok?
    ensures exists y' :: Reaches(Takes, y, y') && BothPending(y', y.store, m, Prepare(y.store, a).value, n, Prepare(y.store, b).value)
  {
    var y1 := Next(y, Read(m, a));
    Step(y, Read(m, a));
    var y2 := Next(y1, Read(n, b));
    Step(y1, Read(n, b));
    ReachesOn(Takes, y, y1, y2);
    assert BothPending(y2, y.store, m, Prepare(y.store, a).value, n, Prepare(y.store, b).value);
  }

  lemma BothFinish(y: System, s: Store, m: Id, p: Requests.Plan, n: Id, q: Requests.Plan, s1: Store, t: Store)
    requires m != n && BothPending(y, s, m, p, n, q) && Commit(s, p) == Ok(s1) && Commit(s1, q) == Ok(t)
    ensures exists y' :: Reaches(Takes, y, y') && y'.store == t
  {
    var y1 := Next(y, Finish(m));
    Step(y, Finish(m));
    var y2 := Next(y1, Finish(n));
    Step(y1, Finish(n));
    ReachesOn(Takes, y, y1, y2);
  }

  /** Any two requests that decide on the same tables and then both commit make a run. */
  lemma BothRun(y: System, m: Id, a: Request, n: Id, b: Request, s1: Store, t: Store)
    requires m != n && m !in y.pending && n !in y.pending && Interleaves(a) && Interleaves(b)
    requires NewIds(a) !! y.used && NewIds(b) !! y.used && NewIds(a) !! NewIds(b)
    requires Prepare(y.store, a).Ok? && Commit(y.store, Prepare(y.store, a).value) == Ok(s1)
    requires Prepare(y.store, b).Ok? && Commit(s1, Prepare(y.store, b).value) == Ok(t)
    ensures exists y' :: Reaches(Takes, y, y') && y'.store == t
  {
    var (p, q) := (Prepare(y.store, a).value, Prepare(y.store, b).value);
    BothRead(y, m, a, n, b);
    var y2 :| Reaches(Takes, y, y2) && BothPending(y2, y.store, m, p, n, q);
    BothFinish(y2, y.store, m, p, n, q, s1, t);
    var y' :| Reaches(Takes, y2, y') && y'.store == t;
    ReachesOn(Takes, y, y2, y');
  }

  /**
   * So two accepted payments of the same term both commit, in a run of the concurrent ledger: both
   * rows are stored and both amounts moved, and the bill advances by one term only.
   */
  lemma SameTermPaidTwice(y: System, m: Id, n: Id, a: Request, b: Request, i: Id)
    requires ConcurrentLedger.Starts(y) && m != n
    requires a.PayInstallment? && b.PayInstallment? && a.pay.installmentId == i == b.pay.installmentId
    requires a.newRow != b.newRow && a.newRow !in y.used && b.newRow !in y.used
    requires Prepare(y.store, a).Ok? && Prepare(y.store, b).Ok?
    ensures var (p, q) := (Prepare(y.store, a).value, Prepare(y.store, b).value);
      && PaysNextTerm(y.store, i, p) && PaysNextTerm(y.store, i, q)
      && exists y' :: Reaches(Takes, y, y') && PaidTwice(y.store, y'.store, i, p, q)
  {
    PreparedPayment(y.store, a.pay, a.newRow);
    PreparedPayment(y.store, b.pay, b.newRow);
    var s1, t := BothCommit(y.store, i, Prepare(y.store, a).value, Prepare(y.store, b).value);
    BothRun(y, m, a, n, b, s1, t);
  }

  /** From one source that cannot afford both terms, the second payment overdraws it. */
  lemma SourceIsOverdrawn(s: Store, t: Store, i: Id, p: Requests.Plan, q: Requests.Plan)
    requires PaysNextTerm(s, i, p) && PaysNextTerm(s, i, q) && PaidTwice(s, t, i, p, q)
    requires p.row.entry.walletId == q.row.entry.walletId != s.installments[i].walletId
    ensures t.wallets[p.row.entry.walletId].balance < 0
      <==> s.wallets[p.row.entry.walletId].balance < p.row.entry.amount + q.row.entry.amount
  {
    assert p.row.entry.walletId in s.wallets;
  }

  // ---------------------------------------------------------------- an input

  const DUE_DAY: CalendarDate := Date(2026, 1, 15)

  /** A card with one bill of 100, and a cash wallet holding 100. */
  const ONE_BILL := Store(
    map[1 := Wallet(7, CreditCard, -100, 0, 500, None, None), 2 := Wallet(7, Cash, 100, 100, 0, None, None)],
    map[5 := Row(7, Some(3), DUE_DAY, LedgerRow(Expense, 100, 1, None, true, Some(6)))],
    map[6 := Installment(7, 1, 100, 100, 1, FullBill, 1, 0, DUE_DAY, Active)],
    map[], map[], map[3 := Category(7, Expense)])

  predicate PaysFromCash(r: PayInput) {
    r == PayInput(7, 6, None, 2, Some(DUE_DAY))
  }

  lemma OneBillIsIntact(s: Store)
    requires s == ONE_BILL
    ensures Intact(s)
  {
  }

  /** With one row, the effects on a wallet are those of that row. */
  lemma OneRowDrift(s: Store, k: Id, w: Id)
    requires s.rows.Keys == {k} && w in s.wallets
    ensures Drift(s, w) == s.wallets[w].balance - s.wallets[w].initialBalance - RowEffect(s.rows[k].entry, GrandTotals(s), w)
  {
    var effect := RowEffect(s.rows[k].entry, GrandTotals(s), w);
    TotalInsert(map[], k, effect);
    assert EffectsOn(s, w) == map[][k := effect];
  }

  lemma OneBillIsReconciled(s: Store)
    requires s == ONE_BILL
    ensures Reconciled(s)
  {
    forall w | w in s.wallets ensures Drift(s, w) == 0 {
      OneRowDrift(s, 5, w);
      EffectClosedForm(AuditInput(s.rows[5].entry, GrandTotals(s)), w);
    }
  }

  predicate IsFullBill(bill: Installment) {
    bill.status == Active && bill.months == 1 && bill.paidTerms == 0 && bill.grandTotal > 0
  }

  /** The one term of a bill billed in full is accepted from any asset wallet that can afford it. */
  lemma FullBillPrepares(s: Store, r: PayInput, newRow: Id) returns (p: Requests.Plan)
    requires Intact(s) && r.date.Some? && r.amount.None? && r.installmentId in s.installments
    requires Owned(s, r.userId, r.sourceWalletId) && IsAsset(s.wallets[r.sourceWalletId].walletType)
    requires s.installments[r.installmentId].userId == r.userId && IsFullBill(s.installments[r.installmentId])
    requires s.wallets[r.sourceWalletId].balance >= s.installments[r.installmentId].grandTotal
    ensures Prepare(s, PayInstallment(r, newRow)) == Ok(p) && PaysNextTerm(s, r.installmentId, p) && p.rowId == newRow
    ensures var bill := s.installments[r.installmentId];
      p.row.entry == LedgerRow(Transfer, bill.grandTotal, r.sourceWalletId, Some(bill.walletId), false, None)
  {
    p := PreparePay(s, r, newRow).value;
    PreparedPayment(s, r, newRow);
  }

  /** What the two payments leave behind: both rows, a bill paid once, and a cash wallet in debt. */
  predicate Overdrawn(s: Store) {
    && 8 in s.rows && 9 in s.rows && 6 in s.installments && s.installments[6].paidTerms == 1
    && 2 in s.wallets && s.wallets[2].balance == -100
  }

  lemma OverdrawnByTwo(s: Store, t: Store, p: Requests.Plan, q: Requests.Plan)
    requires s == ONE_BILL && PaysNextTerm(s, 6, p) && PaysNextTerm(s, 6, q) && PaidTwice(s, t, 6, p, q)
    requires p.rowId == 8 && q.rowId == 9
    requires p.row.entry == q.row.entry == LedgerRow(Transfer, 100, 2, Some(1), false, None)
    ensures Overdrawn(t)
  {
    assert 2 in s.wallets;
  }

  /** So from these tables a bill of 100 is paid twice, out of a wallet that held 100. */
  lemma OneBillPaidTwice(y: System, r: PayInput)
    requires y == System(ONE_BILL, map[], {5}, []) && PaysFromCash(r)
    ensures ConcurrentLedger.Starts(y)
    ensures exists y' :: Reaches(Takes, y, y') && Overdrawn(y'.store)
  {
    OneBillIsIntact(y.store);
    OneBillIsReconciled(y.store);
    var p := FullBillPrepares(y.store, r, 8);
    var q := FullBillPrepares(y.store, r, 9);
    OneBillRuns(y, PayInstallment(r, 8), PayInstallment(r, 9), p, q);
  }

  lemma OneBillRuns(y: System, a: Request, b: Request, p: Requests.Plan, q: Requests.Plan)
    requires y == System(ONE_BILL, map[], {5}, []) && Prepare(y.store, a) == Ok(p) && Prepare(y.store, b) == Ok(q)
    requires a.PayInstallment? && b.PayInstallment? && a.newRow == 8 && b.newRow == 9
    requires PaysNextTerm(y.store, 6, p) && PaysNextTerm(y.store, 6, q) && p.rowId == 8 && q.rowId == 9
    requires p.row.entry == q.row.entry == LedgerRow(Transfer, 100, 2, Some(1), false, None)
    ensures exists y' :: Reaches(Takes, y, y') && Overdrawn(y'.store)
  {
    var s1, t := BothCommit(y.store, 6, p, q);
    BothRun(y, 1, a, 2, b, s1, t);
    OverdrawnByTwo(y.store, t, p, q);
  }
}
