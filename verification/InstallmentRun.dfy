/**
 * A bill over its whole life: the term fields advance one payment at a time, whatever else the
 * ledger serves in between, and the payments add up to the grand total the purchase locked.
 */
module InstallmentRun {
  import opened Common
  import opened BillingCycle
  import opened InstallmentPlan
  import opened TransactionBalance
  import opened Ledger
  import opened Requests
  import opened LedgerInvariant
  import opened TransactionOutcomes

  /** The installment `i` as its purchase created it, `k` payments later. */
  ghost predicate AfterPayments(bill: Installment, i: Installment, k: nat) {
    && bill.months >= 1 && k <= bill.months
    && i.userId == bill.userId && i.walletId == bill.walletId && i.kind == bill.kind
    && i.grandTotal == bill.grandTotal && i.monthlyAmount == bill.monthlyAmount && i.months == bill.months
    && i.paidTerms == k
    && i.currentTerm == (if k + 1 <= bill.months then k + 1 else bill.months)
    && i.status == (if k == bill.months then Settled else Active)
    && i.nextDueDate == TermDueDate(bill.nextDueDate, if k < bill.months then k else bill.months - 1)
  }

  /** Paid in full, a purchase is one term of its own amount, without interest. */
  predicate IsFullBill(bill: Installment, amount: int) {
    bill.months == 1 && bill.grandTotal == amount && bill.monthlyAmount == amount
  }

  /** A credit expense starts a fresh bill for its amount and the interest of its rate and months. */
  lemma PurchaseStartsPlan(s: Store, r: CreateInput, newRow: Id, newInstallment: Id)
    requires PrepareCreate(s, r, newRow, newInstallment).Ok? && PrepareCreate(s, r, newRow, newInstallment).value.RecordCreditExpense?
    ensures WellAddressed(s, r) && IsCreditExpense(s, r) && MonthsOf(r).Some?
    ensures var bill := PrepareCreate(s, r, newRow, newInstallment).value.inst;
      && AfterPayments(bill, bill, 0) && IsBillFor(bill, s.wallets[ChosenWallet(r).value], r)
      && bill.months <= MAX_MONTHS && bill.grandTotal >= r.amount.value
      && bill.monthlyAmount == ToMoney(bill.grandTotal as real / bill.months as real)
      && (bill.kind == FullBill ==> IsFullBill(bill, r.amount.value))
  {
    PrepareCreateExactly(s, r, newRow, newInstallment);
    var bill := PrepareCreate(s, r, newRow, newInstallment).value.inst;
    PlanIsDefined(r.amount.value, RateOf(r), MonthsOf(r).value);
    if bill.kind == FullBill {
      FullBillHasNoInterest(bill, r.amount.value);
    }
  }

  lemma FullBillHasNoInterest(bill: Installment, amount: int)
    requires bill.months == 1 && IsNearest(bill.grandTotal - amount, SimpleInterest(amount, 0.0, 1))
    requires IsNearest(bill.monthlyAmount, bill.grandTotal as real / bill.months as real)
    ensures IsFullBill(bill, amount)
  {
    assert SimpleInterest(amount, 0.0, 1) == 0.0;
    assert bill.grandTotal as real / 1 as real == bill.grandTotal as real;
  }

  // ---------------------------------------------------------------- one request

  predicate Pays(s: Store, q: Request, i: Id) {
    q.PayInstallment? && q.pay.installmentId == i && Serve(s, q).Ok?
  }

  /** A successful payment takes the amount due and advances the bill by one term. */
  lemma PaymentAdvances(s: Store, r: PayInput, newRow: Id, bill: Installment, k: nat)
    requires PreparePay(s, r, newRow).Ok? && AfterPayments(bill, s.installments[r.installmentId], k)
    requires CommitPay(s, PreparePay(s, r, newRow).value).Ok?
    ensures k < bill.months
    ensures PreparePay(s, r, newRow).value.row.entry.amount == TermAmount(bill.grandTotal, bill.monthlyAmount, bill.months, k)
    ensures var s' := CommitPay(s, PreparePay(s, r, newRow).value).value;
      r.installmentId in s'.installments && AfterPayments(bill, s'.installments[r.installmentId], k + 1)
  {
  }

  lemma PaymentMoves(s: Store, r: PayInput, newRow: Id, v: Id)
    requires PreparePay(s, r, newRow).Ok? && CommitPay(s, PreparePay(s, r, newRow).value).Ok? && v in s.wallets
    ensures var p := PreparePay(s, r, newRow).value;
      var s' := CommitPay(s, p).value;
      && v in s'.wallets
      && s'.wallets[v].balance == s.wallets[v].balance + Effect(RegularInput(p.row.entry), v)
  {
    ReversalIsExact(RegularInput(PreparePay(s, r, newRow).value.row.entry), v);
  }

  /** An amount out of one wallet and into another: nothing, when they are the same. */
  function Moved(e: LedgerRow, source: Id, to: Id, v: Id): int {
    (if v == to then e.amount else 0) - (if v == source then e.amount else 0)
  }

  /**
   * A payment moves exactly its amount from the source to the bill's wallet and leaves every other
   * wallet alone. Paying from the bill's own wallet moves nothing, and the bill still advances.
   */
  lemma PaymentMovesDebt(s: Store, r: PayInput, newRow: Id)
    requires Intact(s) && PreparePay(s, r, newRow).Ok? && CommitPay(s, PreparePay(s, r, newRow).value).Ok?
    ensures var p, w := PreparePay(s, r, newRow).value, s.installments[r.installmentId].walletId;
      var s' := CommitPay(s, p).value;
      && w in s.wallets && r.sourceWalletId in s.wallets && s'.wallets.Keys == s.wallets.Keys
      && s'.wallets[r.sourceWalletId].balance >= 0
      && (forall v :: v in s.wallets ==> s'.wallets[v].balance == s.wallets[v].balance + Moved(p.row.entry, r.sourceWalletId, w, v))
      && r.installmentId in s'.installments
      && s'.installments[r.installmentId].paidTerms == s.installments[r.installmentId].paidTerms + 1
  {
    var p := PreparePay(s, r, newRow).value;
    WalletsAfter(s, p);
    forall v | v in s.wallets
      ensures CommitPay(s, p).value.wallets[v].balance == s.wallets[v].balance + Effect(RegularInput(p.row.entry), v)
      ensures Effect(RegularInput(p.row.entry), v)
        == Moved(p.row.entry, r.sourceWalletId, s.installments[r.installmentId].walletId, v)
    {
      PaymentMoves(s, r, newRow, v);
      EffectClosedForm(RegularInput(p.row.entry), v);
    }
  }

  predicate TouchesInstallment(p: Requests.Plan, i: Id) {
    p.PayTerm? && p.instId == i
  }

  lemma RemoveLeavesInstallment(s: Store, rowId: Id, existing: Row, grandTotal: int, i: Id)
    requires i in s.installments && CommitRemove(s, rowId, existing, grandTotal).Ok?
    requires i in CommitRemove(s, rowId, existing, grandTotal).value.installments
    ensures CommitRemove(s, rowId, existing, grandTotal).value.installments[i] == s.installments[i]
  {
  }

  /** No other transaction changes a bill; it may only remove it with its purchase or wallet. */
  lemma OthersLeaveInstallment(s: Store, p: Requests.Plan, i: Id)
    requires i in s.installments && Commit(s, p).Ok? && i in Commit(s, p).value.installments && !TouchesInstallment(p, i)
    ensures Commit(s, p).value.installments[i] == s.installments[i]
  {
    match p
    case RemoveRow(rowId, existing, grandTotal) => RemoveLeavesInstallment(s, rowId, existing, grandTotal, i);
    case _ =>
  }

  /** The bill's payment made by a request, if it is one. */
  ghost function Payment(s: Store, q: Request, i: Id): int {
    if Pays(s, q, i) then PreparePay(s, q.pay, q.newRow).value.row.entry.amount else 0
  }

  lemma RequestOnBill(s: Store, q: Request, i: Id, bill: Installment, k: nat)
    requires i in s.installments && AfterPayments(bill, s.installments[i], k)
    requires i in After(s, q).installments
    ensures var k' := if Pays(s, q, i) then k + 1 else k;
      AfterPayments(bill, After(s, q).installments[i], k')
    ensures Payment(s, q, i) == if Pays(s, q, i) then TermAmount(bill.grandTotal, bill.monthlyAmount, bill.months, k) else 0
  {
    if Serve(s, q).Ok? {
      var p := Prepare(s, q).value;
      if Pays(s, q, i) {
        PaymentAdvances(s, q.pay, q.newRow, bill, k);
      } else {
        OnlyPaymentsPay(s, q, i);
        OthersLeaveInstallment(s, p, i);
      }
    }
  }

  lemma OnlyPaymentsPay(s: Store, q: Request, i: Id)
    requires Prepare(s, q).Ok? && !(q.PayInstallment? && q.pay.installmentId == i)
    ensures !TouchesInstallment(Prepare(s, q).value, i)
  {
  }

  // ---------------------------------------------------------------- whole runs

  ghost function Paid(s: Store, requests: seq<Request>, i: Id): int {
    if requests == [] then 0
    else
      var n := |requests| - 1;
      Paid(s, requests[..n], i) + Payment(Run(s, requests[..n]), requests[n], i)
  }

  ghost function PaymentCount(s: Store, requests: seq<Request>, i: Id): nat {
    if requests == [] then 0
    else
      var n := |requests| - 1;
      PaymentCount(s, requests[..n], i) + (if Pays(Run(s, requests[..n]), requests[n], i) then 1 else 0)
  }

  /** The bill is stored throughout the run: neither its purchase nor its wallet is deleted. */
  ghost predicate Survives(s: Store, requests: seq<Request>, i: Id) {
    i in Run(s, requests).installments && (requests != [] ==> Survives(s, requests[..|requests| - 1], i))
  }

  /** The bill is `k` payments old, and those payments came to `paid`. */
  ghost predicate BillAt(s: Store, i: Id, bill: Installment, k: nat, paid: int) {
    && i in s.installments && AfterPayments(bill, s.installments[i], k)
    && paid == PaidAfter(bill.grandTotal, bill.monthlyAmount, bill.months, k)
  }

  lemma BillStep(s: Store, q: Request, i: Id, bill: Installment, k: nat, paid: int)
    requires BillAt(s, i, bill, k, paid) && i in After(s, q).installments
    ensures BillAt(After(s, q), i, bill, if Pays(s, q, i) then k + 1 else k, paid + Payment(s, q, i))
  {
    RequestOnBill(s, q, i, bill, k);
    NextPaid(bill, k);
  }

  /** At every point of a run the bill is exactly as many payments old as succeeded, and they sum to the schedule. */
  lemma {:induction false} RunOnBill(s: Store, requests: seq<Request>, i: Id, bill: Installment)
    requires Survives(s, requests, i) && i in s.installments && AfterPayments(bill, s.installments[i], 0)
    ensures BillAt(Run(s, requests), i, bill, PaymentCount(s, requests, i), Paid(s, requests, i))
    decreases |requests|
  {
    if requests != [] {
      var n := |requests| - 1;
      RunOnBill(s, requests[..n], i, bill);
      LastRequest(s, requests, i);
      BillStep(Run(s, requests[..n]), requests[n], i, bill, PaymentCount(s, requests[..n], i), Paid(s, requests[..n], i));
    }
  }

  lemma NextPaid(bill: Installment, k: nat)
    ensures PaidAfter(bill.grandTotal, bill.monthlyAmount, bill.months, k + 1)
            == PaidAfter(bill.grandTotal, bill.monthlyAmount, bill.months, k) + TermAmount(bill.grandTotal, bill.monthlyAmount, bill.months, k)
  {
  }

  /** The last request of a run, apart from those before it. */
  lemma LastRequest(s: Store, requests: seq<Request>, i: Id)
    requires requests != []
    ensures var (before, last) := (Run(s, requests[..|requests| - 1]), requests[|requests| - 1]);
      && Run(s, requests) == After(before, last)
      && PaymentCount(s, requests, i) == PaymentCount(s, requests[..|requests| - 1], i) + (if Pays(before, last, i) then 1 else 0)
      && Paid(s, requests, i) == Paid(s, requests[..|requests| - 1], i) + Payment(before, last, i)
  {
  }

  /**
   * A plan of n terms never takes more than n payments; it is settled exactly after the n-th, and
   * then the payments sum to the grand total the purchase locked.
   */
  lemma SettledExactlyAfterAllTerms(s: Store, requests: seq<Request>, i: Id, bill: Installment)
    requires Survives(s, requests, i) && i in s.installments && AfterPayments(bill, s.installments[i], 0)
    ensures PaymentCount(s, requests, i) <= bill.months
    ensures Run(s, requests).installments[i].status == Settled <==> PaymentCount(s, requests, i) == bill.months
    ensures Run(s, requests).installments[i].status == Settled ==> Paid(s, requests, i) == bill.grandTotal
  {
    RunOnBill(s, requests, i, bill);
    ScheduleIsExact(bill.grandTotal, bill.monthlyAmount, bill.months);
  }

  /** A settled bill refuses every further payment. */
  lemma SettledRefuses(s: Store, r: PayInput, newRow: Id, bill: Installment)
    requires bill.months >= 1 && r.installmentId in s.installments && AfterPayments(bill, s.installments[r.installmentId], bill.months)
    ensures PreparePay(s, r, newRow).Err?
  {
  }

  /** Between two terms the due date moves by one calendar month, to a day of month no later. */
  lemma DueDateAdvances(bill: Installment, i: Installment, i': Installment, k: nat)
    requires AfterPayments(bill, i, k) && AfterPayments(bill, i', k + 1) && k + 1 < bill.months
    ensures MonthNumber(i'.nextDueDate) == MonthNumber(i.nextDueDate) + 1 && i'.nextDueDate.day <= i.nextDueDate.day
  {
  }

  // ---------------------------------------------------------------- which plans can be paid off

  /** A source that can afford the term: the payment goes through exactly when the amount due is positive. */
  lemma NextPaymentAccepted(s: Store, r: PayInput, newRow: Id, bill: Installment, k: nat)
    requires r.installmentId in s.installments && AfterPayments(bill, s.installments[r.installmentId], k) && k < bill.months
    requires r.date.Some? && r.amount.None? && r.userId == bill.userId
    requires Owned(s, r.userId, r.sourceWalletId) && IsAsset(s.wallets[r.sourceWalletId].walletType)
    requires s.wallets[r.sourceWalletId].balance >= TermAmount(bill.grandTotal, bill.monthlyAmount, bill.months, k)
    ensures PreparePay(s, r, newRow).Ok? <==> TermAmount(bill.grandTotal, bill.monthlyAmount, bill.months, k) > 0
  {
  }

  ghost predicate EveryTermPayable(grandTotal: int, monthly: int, months: nat) {
    forall k: nat :: k < months ==> TermAmount(grandTotal, monthly, months, k) > 0
  }

  /** Every term can be paid exactly when the recurring amount is positive and does not overshoot. */
  lemma PayableExactly(grandTotal: int, monthly: int, months: nat)
    requires months >= 1
    ensures EveryTermPayable(grandTotal, monthly, months)
      <==> (months == 1 || monthly > 0) && monthly * (months - 1) < grandTotal
  {
    assert TermAmount(grandTotal, monthly, months, months - 1) == ComputeFinalMonthlyAmount(grandTotal, monthly, months);
    if months > 1 {
      assert TermAmount(grandTotal, monthly, months, 0) == monthly;
    }
  }

  /** In particular every purchase whose monthly amount is at least 0.61 can be paid off. */
  lemma OrdinaryPlansArePayable(principal: int, rate: real, months: nat)
    requires principal > 0 && 0.0 <= rate <= 100.0 && 1 <= months <= MAX_MONTHS
    requires ComputeInstallmentPlan(principal, rate, months).value.monthlyAmount >= 61
    ensures var plan := ComputeInstallmentPlan(principal, rate, months).value;
      EveryTermPayable(plan.grandTotal, plan.monthlyAmount, months)
  {
    FinalTermPositive(principal, rate, months);
    var plan := ComputeInstallmentPlan(principal, rate, months).value;
    PayableExactly(plan.grandTotal, plan.monthlyAmount, months);
  }
}
