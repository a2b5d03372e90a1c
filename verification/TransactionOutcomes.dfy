/**
 * What the transaction requests do, told from the request and the tables before and after it alone:
 * which requests are accepted, which row they leave, and how far each balance moves.
 */
module TransactionOutcomes {
  import opened Common
  import opened BillingCycle
  import opened TransactionBalance
  import opened Ledger
  import opened Requests
  import opened InstallmentPlan

  // ---------------------------------------------------------------- money

  /** What a regular transaction moves on wallet `v`. */
  function Moves(t: TxType, amount: int, w: Id, to: Option<Id>, v: Id): int {
    (if v != w then 0 else if t == Income then amount else -amount)
    + (if t == Transfer && to == Some(v) then amount else 0)
  }

  function MovesOf(e: LedgerRow, v: Id): int {
    Moves(e.txType, e.amount, e.walletId, e.toWalletId, v)
  }

  /** Every wallet keeps everything but its balance, which moves by `move`. */
  ghost predicate BalancesMove(s: Store, s': Store, move: Id -> int) {
    && s'.wallets.Keys == s.wallets.Keys
    && (forall v :: v in s.wallets ==> s'.wallets[v] == s.wallets[v].(balance := s.wallets[v].balance + move(v)))
  }

  ghost predicate OnlyRowsAndBalances(s: Store, s': Store) {
    s'.installments == s.installments && s'.events == s.events && s'.templates == s.templates && s'.categories == s.categories
  }

  ghost function MoveOf(e: LedgerRow): Id -> int {
    (v: Id) => MovesOf(e, v)
  }

  lemma NetIsMove(e: LedgerRow, v: Id)
    requires !e.isInstallment && ComputeBalanceEffect(RegularInput(e)).Some?
    ensures Net(ComputeBalanceEffect(RegularInput(e)).value, v) == MovesOf(e, v)
    ensures ReverseBalanceEffect(RegularInput(e)).Some? && Net(ReverseBalanceEffect(RegularInput(e)).value, v) == -MovesOf(e, v)
  {
    ReversalIsExact(RegularInput(e), v);
    EffectClosedForm(RegularInput(e), v);
  }

  /** Recording a regular row adds that row and moves what it says. */
  lemma RecordOutcome(s: Store, rowId: Id, row: Row)
    requires CommitRecord(s, rowId, row).Ok? && !row.entry.isInstallment
    ensures var s' := CommitRecord(s, rowId, row).value;
      && rowId !in s.rows && s'.rows == s.rows[rowId := row]
      && BalancesMove(s, s', MoveOf(row.entry)) && OnlyRowsAndBalances(s, s')
  {
    forall v | v in s.wallets ensures Net(ComputeBalanceEffect(RegularInput(row.entry)).value, v) == MovesOf(row.entry, v) {
      NetIsMove(row.entry, v);
    }
  }

  lemma RecordAccepted(s: Store, rowId: Id, row: Row)
    requires !row.entry.isInstallment && (row.entry.txType == Transfer ==> row.entry.toWalletId.Some?)
    ensures CommitRecord(s, rowId, row).Ok? <==> rowId !in s.rows && ReferencesExist(s, row)
  {
    if ReferencesExist(s, row) {
      var deltas := ComputeBalanceEffect(RegularInput(row.entry)).value;
      assert forall d :: d in deltas ==> d.walletId in s.wallets;
    }
  }

  // ---------------------------------------------------------------- wallets

  /** Wallets that hold money, and wallets that owe it on credit. */
  predicate HoldsMoney(wallet: Wallet) {
    wallet.walletType in {Cash, Bank, EWallet}
  }

  predicate OnCredit(wallet: Wallet) {
    wallet.walletType in {CreditCard, Paylater}
  }

  /** A stored wallet of this user. */
  predicate Has(s: Store, userId: Id, w: Id) {
    w in s.wallets && s.wallets[w].userId == userId
  }

  // ---------------------------------------------------------------- create

  /** The wallet named, or else the user's first. */
  function ChosenWallet(r: CreateInput): Option<Id> {
    if r.walletId.Some? then r.walletId else r.firstWallet
  }

  /** An expense on a credit card or a paylater account. */
  predicate IsCreditExpense(s: Store, r: CreateInput) {
    && r.txType == Some(Expense) && ChosenWallet(r).Some? && ChosenWallet(r).value in s.wallets
    && OnCredit(s.wallets[ChosenWallet(r).value])
  }

  /** The row is what was asked for, in the wallet chosen, with a destination exactly for a transfer. */
  ghost predicate RegularCreated(s: Store, r: CreateInput, k: Id, s': Store)
    requires r.txType.Some? && r.amount.Some? && r.date.Some? && ChosenWallet(r).Some?
  {
    var (t, amount, w) := (r.txType.value, r.amount.value, ChosenWallet(r).value);
    var to := if t == Transfer then r.toWalletId else None;
    && k !in s.rows
    && s'.rows == s.rows[k := Row(r.userId, r.categoryId, r.date.value, LedgerRow(t, amount, w, to, false, None))]
    && BalancesMove(s, s', (v: Id) => Moves(t, amount, w, to, v))
    && OnlyRowsAndBalances(s, s')
  }

  function BillKindOf(r: CreateInput): BillKind {
    if r.billingMode.Some? then r.billingMode.value else if r.isInstallment then InstallmentBill else FullBill
  }

  /** A bill in full is one month; otherwise the months asked for. */
  function MonthsOf(r: CreateInput): Option<int> {
    if BillKindOf(r) == FullBill then Some(1) else r.installmentMonths
  }

  /** A bill in full bears no interest; otherwise the rate asked for, nought when none was. */
  function RateOf(r: CreateInput): real {
    if BillKindOf(r) == InstallmentBill && r.interestRate.Some? then r.interestRate.value else 0.0
  }

  /** The wallet's own billing days, both set, decide the first due date; otherwise the request does. */
  function FirstDue(wallet: Wallet, r: CreateInput): Option<CalendarDate>
    requires r.date.Some?
  {
    if wallet.cutoffDay.Some? && wallet.paymentDueDay.Some? && wallet.cutoffDay != Some(0) && wallet.paymentDueDay != Some(0)
    then CalculateFirstDueDate(r.date.value, wallet.cutoffDay.value, wallet.paymentDueDay.value)
    else if r.firstDueDate.Some? then r.firstDueDate.value else None
  }

  /** A bill of the amount asked for and its interest, in equal terms rounded to the cent. */
  ghost predicate IsBillFor(bill: Installment, wallet: Wallet, r: CreateInput)
    requires r.amount.Some? && r.date.Some? && ChosenWallet(r).Some? && MonthsOf(r).Some?
  {
    && bill.userId == r.userId && bill.walletId == ChosenWallet(r).value && bill.kind == BillKindOf(r)
    && bill.months == MonthsOf(r).value > 0
    && IsNearest(bill.grandTotal - r.amount.value, SimpleInterest(r.amount.value, RateOf(r), bill.months))
    && IsNearest(bill.monthlyAmount, bill.grandTotal as real / bill.months as real)
    && bill.currentTerm == 1 && bill.paidTerms == 0 && bill.status == Active
    && FirstDue(wallet, r) == Some(bill.nextDueDate)
  }

  /** The bill is stored and charged in full; the row shows one term and is tied to the bill. */
  ghost predicate CreditCreated(s: Store, r: CreateInput, k: Id, i: Id, s': Store)
    requires r.amount.Some? && r.date.Some? && IsCreditExpense(s, r) && MonthsOf(r).Some?
  {
    var w := ChosenWallet(r).value;
    && k !in s.rows && i !in s.installments && i in s'.installments
    && s'.installments == s.installments[i := s'.installments[i]] && IsBillFor(s'.installments[i], s.wallets[w], r)
    && s'.rows == s.rows[k := Row(r.userId, r.categoryId, r.date.value,
                                  LedgerRow(Expense, s'.installments[i].monthlyAmount, w, None, true, Some(i)))]
    && BalancesMove(s, s', (v: Id) => if v == w then -s'.installments[i].grandTotal else 0)
    && s'.events == s.events && s'.templates == s.templates && s'.categories == s.categories
  }

  /** A request that names a kind, a positive amount and a date, and a wallet of the user's own. */
  predicate WellAddressed(s: Store, r: CreateInput) {
    && r.txType.Some? && r.amount.Some? && r.amount.value > 0 && r.date.Some?
    && ChosenWallet(r).Some? && Has(s, r.userId, ChosenWallet(r).value)
  }

  predicate TransferAllowed(s: Store, r: CreateInput)
    requires WellAddressed(s, r)
  {
    && r.toWalletId.Some? && r.toWalletId != ChosenWallet(r) && Has(s, r.userId, r.toWalletId.value)
    && HoldsMoney(s.wallets[ChosenWallet(r).value])
  }

  predicate Funded(s: Store, r: CreateInput)
    requires WellAddressed(s, r)
  {
    s.wallets[ChosenWallet(r).value].balance >= r.amount.value
  }

  /** A category of the user's own and of the transaction's kind; none for a transfer. */
  predicate Categorised(s: Store, r: CreateInput)
    requires r.txType.Some?
  {
    if r.txType.value == Transfer then r.categoryId.None?
    else r.categoryId.Some? && r.categoryId.value in s.categories && s.categories[r.categoryId.value] == Category(r.userId, r.txType.value)
  }

  /** Nobody spends from a loan, and income goes to assets only. */
  predicate WalletSuits(s: Store, r: CreateInput)
    requires WellAddressed(s, r)
  {
    var wallet := s.wallets[ChosenWallet(r).value];
    && (r.txType.value == Expense ==> wallet.walletType != Loan)
    && (r.txType.value == Income ==> HoldsMoney(wallet))
    && (r.billingMode.Some? ==> IsCreditExpense(s, r))
  }

  /** Up to 120 months, at least two in instalments, nought to a hundred per cent, and a due date. */
  predicate TermsAllowed(s: Store, r: CreateInput)
    requires WellAddressed(s, r)
  {
    && MonthsOf(r).Some? && 1 <= MonthsOf(r).value <= 120 && (BillKindOf(r) == InstallmentBill ==> MonthsOf(r).value >= 2)
    && 0.0 <= RateOf(r) <= 100.0
    && FirstDue(s.wallets[ChosenWallet(r).value], r).Some?
  }

  /** The grand total is within the credit limit less what is already owed. */
  ghost predicate WithinLimit(s: Store, r: CreateInput)
    requires WellAddressed(s, r)
  {
    var wallet := s.wallets[ChosenWallet(r).value];
    var owed := if wallet.balance < 0 then -wallet.balance else 0;
    forall interest :: MonthsOf(r).Some? && IsNearest(interest, SimpleInterest(r.amount.value, RateOf(r), MonthsOf(r).value)) ==>
      r.amount.value + interest + owed <= wallet.creditLimit
  }

  ghost predicate CreateAllowed(s: Store, r: CreateInput) {
    && WellAddressed(s, r) && Categorised(s, r) && WalletSuits(s, r)
    && (r.txType.value == Transfer ==> TransferAllowed(s, r) && Funded(s, r))
    && (IsCreditExpense(s, r) ==> TermsAllowed(s, r) && WithinLimit(s, r))
  }

  lemma CreditPlan(s: Store, r: CreateInput, newRow: Id, newInstallment: Id)
    requires WellAddressed(s, r) && IsCreditExpense(s, r)
    requires var w := ChosenWallet(r).value;
      PrepareCreditExpense(s.wallets[w], r, w, r.amount.value, newRow, newInstallment).Ok?
    ensures var w := ChosenWallet(r).value;
      var p := PrepareCreditExpense(s.wallets[w], r, w, r.amount.value, newRow, newInstallment).value;
      && p.RecordCreditExpense? && p.rowId == newRow && p.instId == newInstallment
      && MonthsOf(r).Some? && IsBillFor(p.inst, s.wallets[w], r)
      && p.row == Row(r.userId, r.categoryId, r.date.value, LedgerRow(Expense, p.inst.monthlyAmount, w, None, true, Some(newInstallment)))
  {
    PlanExactly(r.amount.value, RateOf(r), MonthsOf(r).value);
  }

  lemma CreditLimitIs(s: Store, r: CreateInput)
    requires WellAddressed(s, r) && MonthsOf(r).Some? && MonthsOf(r).value >= 1 && 0.0 <= RateOf(r) <= 100.0
    ensures ComputeInstallmentPlan(r.amount.value, RateOf(r), MonthsOf(r).value).Ok?
    ensures var wallet := s.wallets[ChosenWallet(r).value];
      var owed := if wallet.balance < 0 then -wallet.balance else 0;
      WithinLimit(s, r) <==> ComputeInstallmentPlan(r.amount.value, RateOf(r), MonthsOf(r).value).value.grandTotal + owed <= wallet.creditLimit
  {
    PlanExactly(r.amount.value, RateOf(r), MonthsOf(r).value);
    var plan := ComputeInstallmentPlan(r.amount.value, RateOf(r), MonthsOf(r).value).value;
    forall interest | IsNearest(interest, SimpleInterest(r.amount.value, RateOf(r), MonthsOf(r).value)) ensures interest == plan.totalInterest {
      NearestIsUnique(interest, plan.totalInterest, SimpleInterest(r.amount.value, RateOf(r), MonthsOf(r).value));
    }
  }

  lemma CreditAccepted(s: Store, r: CreateInput, newRow: Id, newInstallment: Id)
    requires WellAddressed(s, r)
    ensures var w := ChosenWallet(r).value;
      var p := PrepareCreditExpense(s.wallets[w], r, w, r.amount.value, newRow, newInstallment);
      && (p.Ok? <==> TermsAllowed(s, r) && WithinLimit(s, r))
      && (TermsAllowed(s, r) && !WithinLimit(s, r) ==> p == Err(InsufficientCredit))
  {
    if MonthsOf(r).Some? && MonthsOf(r).value >= 1 {
      PlanExactly(r.amount.value, RateOf(r), MonthsOf(r).value);
      if 0.0 <= RateOf(r) <= 100.0 {
        CreditLimitIs(s, r);
        PlanIsDefined(r.amount.value, RateOf(r), MonthsOf(r).value);
      }
    }
  }

  lemma PrepareCreateExactly(s: Store, r: CreateInput, newRow: Id, newInstallment: Id)
    ensures PrepareCreate(s, r, newRow, newInstallment).Ok? <==> CreateAllowed(s, r)
    ensures CreateAllowed(s, r) ==> CreatePlanIs(s, r, newRow, newInstallment, PrepareCreate(s, r, newRow, newInstallment).value)
  {
    if WellAddressed(s, r) {
      CreditAccepted(s, r, newRow, newInstallment);
      if IsCreditExpense(s, r) && TermsAllowed(s, r) && WithinLimit(s, r) {
        CreditPlan(s, r, newRow, newInstallment);
      }
    }
  }

  ghost predicate CreatePlanIs(s: Store, r: CreateInput, newRow: Id, newInstallment: Id, p: Requests.Plan)
    requires CreateAllowed(s, r)
  {
    var (t, amount, w) := (r.txType.value, r.amount.value, ChosenWallet(r).value);
    if IsCreditExpense(s, r) then
      && p.RecordCreditExpense? && p.rowId == newRow && p.instId == newInstallment && IsBillFor(p.inst, s.wallets[w], r)
      && p.row == Row(r.userId, r.categoryId, r.date.value, LedgerRow(Expense, p.inst.monthlyAmount, w, None, true, Some(newInstallment)))
    else
      p == RecordRow(newRow, Row(r.userId, r.categoryId, r.date.value,
                                 LedgerRow(t, amount, w, if t == Transfer then r.toWalletId else None, false, None)))
  }

  lemma CreditOutcome(s: Store, rowId: Id, row: Row, instId: Id, inst: Installment)
    requires row.entry.walletId in s.wallets && inst.walletId == row.entry.walletId && row.entry.toWalletId.None?
    requires row.entry.installmentId == Some(instId) && (row.categoryId.Some? ==> row.categoryId.value in s.categories)
    ensures var r := CommitCreditExpense(s, rowId, row, instId, inst);
      && (r.Ok? <==> rowId !in s.rows && instId !in s.installments)
      && (r.Ok? ==>
            && r.value.rows == s.rows[rowId := row] && r.value.installments == s.installments[instId := inst]
            && BalancesMove(s, r.value, (v: Id) => if v == row.entry.walletId then -inst.grandTotal else 0)
            && r.value.events == s.events && r.value.templates == s.templates && r.value.categories == s.categories)
  {
    forall v | v in s.wallets
      ensures Net([Delta(row.entry.walletId, -inst.grandTotal)], v) == if v == row.entry.walletId then -inst.grandTotal else 0
    {
      NetOfOne(Delta(row.entry.walletId, -inst.grandTotal), v);
    }
  }

  /**
   * A create request is served exactly when it is allowed and its identifiers are new. It then leaves
   * the row asked for and moves that amount on the wallets named; on credit it leaves the bill for that
   * amount, rate and tenor, and charges its grand total.
   */
  lemma CreateOutcome(s: Store, r: CreateInput, k: Id, i: Id)
    ensures var served := Serve(s, CreateTransaction(r, k, i));
      && (served.Ok? <==> CreateAllowed(s, r) && k !in s.rows && (IsCreditExpense(s, r) ==> i !in s.installments))
      && (served.Ok? ==> if IsCreditExpense(s, r) then CreditCreated(s, r, k, i, served.value) else RegularCreated(s, r, k, served.value))
  {
    PrepareCreateExactly(s, r, k, i);
    if CreateAllowed(s, r) {
      var p := PrepareCreate(s, r, k, i).value;
      if IsCreditExpense(s, r) {
        CreditOutcome(s, k, p.row, i, p.inst);
      } else {
        RecordAccepted(s, k, p.row);
        if CommitRecord(s, k, p.row).Ok? {
          RecordOutcome(s, k, p.row);
        }
      }
    }
  }

  predicate OnlyWalletIsMissing(s: Store, r: CreateInput) {
    && r.txType.Some? && r.txType.value != Transfer && r.amount.Some? && r.amount.value > 0 && r.date.Some?
    && ChosenWallet(r).Some? && !Has(s, r.userId, ChosenWallet(r).value)
  }

  /** What a refused request is told, as far as one reason alone decides it. */
  lemma CreateRefusals(s: Store, r: CreateInput, k: Id, i: Id)
    ensures ChosenWallet(r).None? ==> Serve(s, CreateTransaction(r, k, i)) == Err(NoWallet)
    ensures WellAddressed(s, r) && r.txType.value == Transfer && r.toWalletId == ChosenWallet(r) ==>
      Serve(s, CreateTransaction(r, k, i)) == Err(InvalidTransfer)
    ensures WellAddressed(s, r) && r.txType.value == Transfer && TransferAllowed(s, r) && !Funded(s, r) ==>
      Serve(s, CreateTransaction(r, k, i)) == Err(InsufficientFunds)
    ensures WellAddressed(s, r) && Categorised(s, r) && WalletSuits(s, r) && IsCreditExpense(s, r) && TermsAllowed(s, r) && !WithinLimit(s, r) ==>
      Serve(s, CreateTransaction(r, k, i)) == Err(InsufficientCredit)
    ensures OnlyWalletIsMissing(s, r) ==> Serve(s, CreateTransaction(r, k, i)) == Err(NotFound)
    ensures ChosenWallet(r).Some? && (r.txType.None? || r.amount.None? || r.amount.value <= 0) ==>
      Serve(s, CreateTransaction(r, k, i)) == Err(BadRequest)
  {
    if WellAddressed(s, r) {
      CreditAccepted(s, r, k, i);
    }
  }
}
