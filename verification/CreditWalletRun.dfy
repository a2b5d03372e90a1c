/**
 * A purchase on credit seen from its wallet: the purchase takes the grand total out, the payments
 * bring it back term by term, and once the bill is settled the two cancel.
 */
module CreditWalletRun {
  import opened Common
  import opened TransactionBalance
  import opened Ledger
  import opened Requests
  import opened LedgerInvariant
  import opened InstallmentPlan
  import opened InstallmentRun

  function BalanceOf(s: Store, w: Id): int {
    if w in s.wallets then s.wallets[w].balance else 0
  }

  // ---------------------------------------------------------------- one request

  /** What the payment row of a request, if it pays bill `i`, adds to wallet `w`. */
  ghost function PaymentEffect(s: Store, q: Request, i: Id, w: Id): int {
    if Pays(s, q, i) then Effect(RegularInput(PreparePay(s, q.pay, q.newRow).value.row.entry), w) else 0
  }

  /** The request pays bill `i` out of wallet `w`. */
  ghost predicate PaysFrom(s: Store, q: Request, i: Id, w: Id) {
    Pays(s, q, i) && q.pay.sourceWalletId == w
  }

  ghost function PaidFrom(s: Store, q: Request, i: Id, w: Id): int {
    if PaysFrom(s, q, i, w) then Payment(s, q, i) else 0
  }

  /** What a request that does not pay bill `i` moves on wallet `w`. */
  ghost function OtherMove(s: Store, q: Request, i: Id, w: Id): int {
    if Pays(s, q, i) then 0 else BalanceOf(After(s, q), w) - BalanceOf(s, w)
  }

  lemma RequestOnWallet(s: Store, q: Request, i: Id, w: Id)
    requires w in s.wallets
    ensures BalanceOf(After(s, q), w) == BalanceOf(s, w) + PaymentEffect(s, q, i, w) + OtherMove(s, q, i, w)
  {
    if Pays(s, q, i) {
      PaymentMoves(s, q.pay, q.newRow, w);
    }
  }

  /** On the bill's own wallet a payment counts in full, unless it came from that wallet. */
  lemma EffectOfPayment(s: Store, q: Request, i: Id)
    requires i in s.installments
    ensures var w := s.installments[i].walletId;
      && PaymentEffect(s, q, i, w) == Payment(s, q, i) - PaidFrom(s, q, i, w)
      && PaidFrom(s, q, i, w) >= 0
      && (PaidFrom(s, q, i, w) == 0 <==> !PaysFrom(s, q, i, w))
  {
    if Pays(s, q, i) {
      EffectClosedForm(RegularInput(PreparePay(s, q.pay, q.newRow).value.row.entry), s.installments[i].walletId);
    }
  }

  // ---------------------------------------------------------------- requests that leave a wallet alone

  predicate RowNames(e: LedgerRow, w: Id) {
    e.walletId == w || e.toWalletId == Some(w)
  }

  /** Nothing a plan writes, reverses or deletes is about wallet `w`. */
  predicate QuietOn(p: Requests.Plan, w: Id) {
    match p
    case RecordRow(_, row) => !RowNames(row.entry, w)
    case RecordCreditExpense(_, row, _, _) => !RowNames(row.entry, w)
    case ReviseRow(_, existing, v) => !RowNames(existing.entry, w) && v.effect.walletId != w && v.effect.toWalletId != Some(w)
    case RemoveRow(_, existing, _) => !RowNames(existing.entry, w)
    case PayTerm(_, row, _, _, _, _, _) => !RowNames(row.entry, w)
    case CompleteReminder(_, row, _) => !RowNames(row.entry, w)
    case OpenWallet(_, _) => true
    case EditWallet(_, _) => true
    case CloseWallet(v) => v != w
  }

  lemma {:induction false} QuietDeltas(deltas: seq<Delta>, w: Id)
    requires forall d :: d in deltas ==> d.walletId != w
    ensures Net(deltas, w) == 0
  {
    if deltas != [] {
      QuietDeltas(deltas[..|deltas| - 1], w);
    }
  }

  lemma QuietInput(input: EffectInput, w: Id)
    requires ComputeBalanceEffect(input).Some? && input.walletId != w && input.toWalletId != Some(w)
    ensures Net(ComputeBalanceEffect(input).value, w) == 0
    ensures ReverseBalanceEffect(input).Some? && Net(ReverseBalanceEffect(input).value, w) == 0
  {
    QuietDeltas(ComputeBalanceEffect(input).value, w);
    ReversalIsExact(input, w);
  }

  lemma QuietRecord(s: Store, rowId: Id, row: Row, w: Id)
    requires CommitRecord(s, rowId, row).Ok? && !RowNames(row.entry, w) && w in s.wallets
    ensures BalanceOf(CommitRecord(s, rowId, row).value, w) == BalanceOf(s, w)
  {
    QuietInput(RegularInput(row.entry), w);
  }

  lemma QuietRevise(s: Store, rowId: Id, existing: Row, v: Revision, w: Id)
    requires CommitRevise(s, rowId, existing, v).Ok? && QuietOn(ReviseRow(rowId, existing, v), w) && w in s.wallets
    ensures BalanceOf(CommitRevise(s, rowId, existing, v).value, w) == BalanceOf(s, w)
  {
    QuietInput(RegularInput(existing.entry), w);
    QuietInput(v.effect, w);
  }

  lemma QuietRemove(s: Store, rowId: Id, existing: Row, grandTotal: int, w: Id)
    requires CommitRemove(s, rowId, existing, grandTotal).Ok? && !RowNames(existing.entry, w) && w in s.wallets
    ensures BalanceOf(CommitRemove(s, rowId, existing, grandTotal).value, w) == BalanceOf(s, w)
  {
    var e := existing.entry;
    QuietInput(if e.isInstallment then InstallmentInput(e, grandTotal) else RegularInput(e), w);
  }

  /** A committed plan that is not about a wallet leaves its balance as it was. */
  lemma QuietLeavesBalance(s: Store, p: Requests.Plan, w: Id)
    requires Commit(s, p).Ok? && QuietOn(p, w) && w in s.wallets
    ensures w in Commit(s, p).value.wallets && BalanceOf(Commit(s, p).value, w) == BalanceOf(s, w)
  {
    WalletsAfter(s, p);
    match p
    case RecordRow(rowId, row) => QuietRecord(s, rowId, row, w);
    case RecordCreditExpense(rowId, row, _, inst) => NetOfOne(Delta(row.entry.walletId, -inst.grandTotal), w);
    case ReviseRow(rowId, existing, v) => QuietRevise(s, rowId, existing, v, w);
    case RemoveRow(rowId, existing, grandTotal) => QuietRemove(s, rowId, existing, grandTotal, w);
    case PayTerm(rowId, row, _, _, _, _, _) => QuietRecord(s, rowId, row, w);
    case CompleteReminder(rowId, row, _) => QuietRecord(s, rowId, row, w);
    case _ =>
  }

  // ---------------------------------------------------------------- whole runs

  /** A quantity of each request, at the tables it was served on, summed over a run. */
  ghost function SumAlong(s: Store, requests: seq<Request>, f: (Store, Request) -> int): int {
    if requests == [] then 0
    else
      var n := |requests| - 1;
      SumAlong(s, requests[..n], f) + f(Run(s, requests[..n]), requests[n])
  }

  ghost function PaymentEffects(i: Id, w: Id): (Store, Request) -> int {
    (s: Store, q: Request) => PaymentEffect(s, q, i, w)
  }

  ghost function PaymentsFrom(i: Id, w: Id): (Store, Request) -> int {
    (s: Store, q: Request) => PaidFrom(s, q, i, w)
  }

  ghost function OtherMoves(i: Id, w: Id): (Store, Request) -> int {
    (s: Store, q: Request) => OtherMove(s, q, i, w)
  }

  /** No request of the run pays the bill out of wallet `w`. */
  ghost predicate NonePaysFrom(s: Store, requests: seq<Request>, i: Id, w: Id) {
    requests == []
    || (var n := |requests| - 1;
        !PaysFrom(Run(s, requests[..n]), requests[n], i, w) && NonePaysFrom(s, requests[..n], i, w))
  }

  /** The payment rows of a bill add up, on its own wallet, to what was paid from elsewhere. */
  lemma {:induction false} PaymentsOnWallet(s: Store, requests: seq<Request>, i: Id, bill: Installment)
    requires Survives(s, requests, i) && i in s.installments && AfterPayments(bill, s.installments[i], 0)
    ensures var w := bill.walletId;
      && SumAlong(s, requests, PaymentEffects(i, w)) == Paid(s, requests, i) - SumAlong(s, requests, PaymentsFrom(i, w))
      && SumAlong(s, requests, PaymentsFrom(i, w)) >= 0
      && (SumAlong(s, requests, PaymentsFrom(i, w)) == 0 <==> NonePaysFrom(s, requests, i, w))
    decreases |requests|
  {
    if requests != [] {
      var n := |requests| - 1;
      PaymentsOnWallet(s, requests[..n], i, bill);
      RunOnBill(s, requests[..n], i, bill);
      EffectOfPayment(Run(s, requests[..n]), requests[n], i);
      LastRequest(s, requests, i);
    }
  }

  /**
   * In any run in which the bill survives: once it is settled, the purchase's effect on the wallet
   * and those of the bill's payment rows sum to zero, exactly when no term was paid out of that
   * wallet itself.
   */
  lemma PurchaseAndPaymentsCancel(s: Store, requests: seq<Request>, i: Id, bill: Installment, purchase: Row)
    requires Survives(s, requests, i) && i in s.installments && AfterPayments(bill, s.installments[i], 0)
    requires CreditRow(s, purchase, i, s.installments[i])
    requires Run(s, requests).installments[i].status == Settled
    ensures var w := bill.walletId;
      RowEffect(purchase.entry, GrandTotals(s), w) + SumAlong(s, requests, PaymentEffects(i, w)) == 0 <==> NonePaysFrom(s, requests, i, w)
  {
    SettledExactlyAfterAllTerms(s, requests, i, bill);
    PaymentsOnWallet(s, requests, i, bill);
    EffectClosedForm(AuditInput(purchase.entry, GrandTotals(s)), bill.walletId);
  }

  /** The wallet's balance moves by the bill's payments and by what the other requests move. */
  lemma {:induction false} RunOnWallet(s: Store, requests: seq<Request>, i: Id, bill: Installment)
    requires Valid(s) && Survives(s, requests, i) && i in s.installments && AfterPayments(bill, s.installments[i], 0)
    ensures var w := bill.walletId;
      && w in Run(s, requests).wallets
      && BalanceOf(Run(s, requests), w)
         == BalanceOf(s, w) + SumAlong(s, requests, PaymentEffects(i, w)) + SumAlong(s, requests, OtherMoves(i, w))
    decreases |requests|
  {
    RunKeepsValid(s, requests);
    RunOnBill(s, requests, i, bill);
    if requests != [] {
      var n := |requests| - 1;
      RunOnWallet(s, requests[..n], i, bill);
      RequestOnWallet(Run(s, requests[..n]), requests[n], i, bill.walletId);
      LastRequest(s, requests, i);
    }
  }

  predicate IsCreditPurchase(s: Store, q: Request, i: Id) {
    && q.CreateTransaction? && q.newInstallment == i && Serve(s, q).Ok?
    && Prepare(s, q).value.RecordCreditExpense?
  }

  /** The purchase stores its bill and charges the wallet the grand total. */
  lemma PurchaseCharges(s: Store, q: Request, i: Id)
    requires IsCreditPurchase(s, q, i)
    ensures var bill := Prepare(s, q).value.inst;
      && i in After(s, q).installments && After(s, q).installments[i] == bill && AfterPayments(bill, bill, 0)
      && BalanceOf(After(s, q), bill.walletId) == BalanceOf(s, bill.walletId) - bill.grandTotal
  {
    var p := Prepare(s, q).value;
    PurchaseStartsPlan(s, q.create, q.newRow, q.newInstallment);
    NetOfOne(Delta(p.row.entry.walletId, -p.inst.grandTotal), p.inst.walletId);
  }

  /**
   * From an accepted purchase on, at every point of every run in which the bill survives: the
   * wallet stands at its balance before the purchase, less the grand total, plus the terms paid so
   * far, apart from terms paid out of the wallet itself and from what other requests moved on it.
   */
  lemma WalletAccount(s: Store, q: Request, requests: seq<Request>, i: Id)
    requires Valid(s) && IsCreditPurchase(s, q, i) && Survives(After(s, q), requests, i)
    ensures var (bill, s1) := (Prepare(s, q).value.inst, After(s, q));
      var w := bill.walletId;
      BalanceOf(Run(s1, requests), w) == BalanceOf(s, w) - bill.grandTotal
        + PaidAfter(bill.grandTotal, bill.monthlyAmount, bill.months, PaymentCount(s1, requests, i))
        - SumAlong(s1, requests, PaymentsFrom(i, w)) + SumAlong(s1, requests, OtherMoves(i, w))
  {
    var bill := Prepare(s, q).value.inst;
    PurchaseCharges(s, q, i);
    ServeKeepsValid(s, q);
    RunOnWallet(After(s, q), requests, i, bill);
    PaymentsOnWallet(After(s, q), requests, i, bill);
    RunOnBill(After(s, q), requests, i, bill);
  }

  /** Every request of a run pays the bill from another wallet, fails, or leaves the wallet alone. */
  ghost predicate OnlyPaysBill(s: Store, requests: seq<Request>, i: Id, w: Id) {
    requests == []
    || (var n := |requests| - 1;
        PaysOrIsQuiet(Run(s, requests[..n]), requests[n], i, w) && OnlyPaysBill(s, requests[..n], i, w))
  }

  ghost predicate PaysOrIsQuiet(s: Store, q: Request, i: Id, w: Id) {
    if Pays(s, q, i) then q.pay.sourceWalletId != w
    else Serve(s, q).Err? || QuietOn(Prepare(s, q).value, w)
  }

  lemma {:induction false} QuietRun(s: Store, requests: seq<Request>, i: Id, bill: Installment)
    requires Valid(s) && Survives(s, requests, i) && i in s.installments && AfterPayments(bill, s.installments[i], 0)
    requires OnlyPaysBill(s, requests, i, bill.walletId)
    ensures SumAlong(s, requests, OtherMoves(i, bill.walletId)) == 0
    ensures NonePaysFrom(s, requests, i, bill.walletId)
    decreases |requests|
  {
    if requests != [] {
      var (n, w) := (|requests| - 1, bill.walletId);
      QuietRun(s, requests[..n], i, bill);
      RunOnWallet(s, requests[..n], i, bill);
      var (before, last) := (Run(s, requests[..n]), requests[n]);
      QuietRequest(before, last, i, w);
    }
  }

  lemma QuietRequest(s: Store, q: Request, i: Id, w: Id)
    requires w in s.wallets && PaysOrIsQuiet(s, q, i, w)
    ensures OtherMove(s, q, i, w) == 0 && !PaysFrom(s, q, i, w)
  {
    if !Pays(s, q, i) && Serve(s, q).Ok? {
      QuietLeavesBalance(s, Prepare(s, q).value, w);
    }
  }

  /**
   * If nothing but payments from other wallets touches the wallet, then after the n-th payment it
   * is back exactly where it was before the purchase.
   */
  lemma SettledWalletComesBack(s: Store, q: Request, requests: seq<Request>, i: Id)
    requires Valid(s) && IsCreditPurchase(s, q, i) && Survives(After(s, q), requests, i)
    requires OnlyPaysBill(After(s, q), requests, i, Prepare(s, q).value.inst.walletId)
    requires PaymentCount(After(s, q), requests, i) == Prepare(s, q).value.inst.months
    ensures var w := Prepare(s, q).value.inst.walletId;
      w in Run(After(s, q), requests).wallets && BalanceOf(Run(After(s, q), requests), w) == BalanceOf(s, w)
  {
    var bill := Prepare(s, q).value.inst;
    PurchaseCharges(s, q, i);
    ServeKeepsValid(s, q);
    WalletAccount(s, q, requests, i);
    QuietRun(After(s, q), requests, i, bill);
    PaymentsOnWallet(After(s, q), requests, i, bill);
    RunOnWallet(After(s, q), requests, i, bill);
    ScheduleIsExact(bill.grandTotal, bill.monthlyAmount, bill.months);
  }
}
