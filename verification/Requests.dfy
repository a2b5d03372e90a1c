/**
 * The requests that change the ledger. Each one is served in two phases, as in the services:
 * Prepare reads the tables and validates, Commit runs one database transaction on what Prepare
 * decided. A serialized request runs both on the same tables; concurrent ones do not.
 */
module Requests {
  import opened Common
  import opened BillingCycle
  import opened TransactionBalance
  import opened Ledger
  import InstallmentPlan

  datatype CreateInput = CreateInput(
    userId: Id, txType: Option<TxType>, amount: Option<int>,
    walletId: Option<Id>, firstWallet: Option<Id>, toWalletId: Option<Id>, categoryId: Option<Id>,
    date: Option<CalendarDate>, isInstallment: bool, billingMode: Option<BillKind>,
    installmentMonths: Option<int>, interestRate: Option<real>, firstDueDate: Option<Option<CalendarDate>>)

  datatype UpdateInput = UpdateInput(
    userId: Id, rowId: Id, txType: Option<TxType>, amount: Option<int>, date: Option<Option<CalendarDate>>,
    categoryId: Option<Option<Id>>, walletId: Option<Id>, toWalletId: Option<Id>, isInstallment: bool)

  datatype PayInput = PayInput(userId: Id, installmentId: Id, amount: Option<int>, sourceWalletId: Id, date: Option<CalendarDate>)

  datatype ConfirmInput = ConfirmInput(userId: Id, eventId: Id, amount: Option<int>, today: CalendarDate)

  datatype WalletInput = WalletInput(
    userId: Id, walletType: Option<WalletType>, principal: Option<int>, balance: Option<int>,
    creditLimit: Option<int>, cutoffDay: Option<int>, paymentDueDay: Option<int>)

  datatype WalletEdit = WalletEdit(
    walletType: Option<WalletType>, balance: Option<int>, creditLimit: Option<int>,
    cutoffDay: Option<int>, paymentDueDay: Option<int>)

  /** A request, with the identifiers the database will hand out for the rows it creates. */
  datatype Request =
    | CreateTransaction(create: CreateInput, newRow: Id, newInstallment: Id)
    | UpdateTransaction(update: UpdateInput)
    | DeleteTransaction(userId: Id, rowId: Id)
    | PayInstallment(pay: PayInput, newRow: Id)
    | ConfirmReminder(confirm: ConfirmInput, newRow: Id)
    | CreateWallet(wallet: WalletInput, newWallet: Id)
    | UpdateWallet(userId: Id, walletId: Id, edit: WalletEdit)
    | DeleteWallet(userId: Id, walletId: Id, force: bool)

  /** The fields an update writes, and the effect it will apply for the row it expects to see. */
  datatype Revision = Revision(
    txType: Option<TxType>, amount: Option<int>, date: Option<CalendarDate>,
    categoryId: Option<Option<Id>>, walletId: Option<Id>, toWalletId: Option<Id>, effect: EffectInput)

  /** What a request has decided to commit, including the rows it read. */
  datatype Plan =
    | RecordRow(rowId: Id, row: Row)
    | RecordCreditExpense(rowId: Id, row: Row, instId: Id, inst: Installment)
    | ReviseRow(rowId: Id, existing: Row, revision: Revision)
    | RemoveRow(rowId: Id, existing: Row, grandTotal: int)
    | PayTerm(rowId: Id, row: Row, instId: Id, currentTerm: int, paidTerms: int, due: CalendarDate, status: InstallmentStatus)
    | CompleteReminder(rowId: Id, row: Row, eventId: Id)
    | OpenWallet(walletId: Id, wallet: Wallet)
    | EditWallet(walletId: Id, edit: WalletEdit)
    | CloseWallet(walletId: Id)

  predicate IsAsset(t: WalletType) {
    t == Cash || t == Bank || t == EWallet
  }

  predicate IsCredit(t: WalletType) {
    t == CreditCard || t == Paylater
  }

  predicate Owned(s: Store, userId: Id, w: Id) {
    w in s.wallets && s.wallets[w].userId == userId
  }

  // ---------------------------------------------------------------- create

  function PrepareCreate(s: Store, r: CreateInput, newRow: Id, newInstallment: Id): Result<Plan, Error> {
    if r.walletId.None? && r.firstWallet.None? then Err(NoWallet)
    else if r.txType.None? || r.amount.None? || r.amount.value <= 0 then Err(BadRequest)
    else
      var w := if r.walletId.Some? then r.walletId.value else r.firstWallet.value;
      var t, amount := r.txType.value, r.amount.value;
      if t == Transfer && r.toWalletId.None? then Err(BadRequest)
      else if t == Transfer && r.toWalletId == Some(w) then Err(InvalidTransfer)
      else if r.date.None? then Err(BadRequest)
      else if !Owned(s, r.userId, w) then Err(NotFound)
      else
        var wallet := s.wallets[w];
        if t == Transfer && !IsAsset(wallet.walletType) then Err(InvalidTransfer)
        else if t == Transfer && wallet.balance < amount then Err(InsufficientFunds)
        else if t == Transfer && !Owned(s, r.userId, r.toWalletId.value) then Err(NotFound)
        else if t == Transfer && r.categoryId.Some? then Err(BadRequest)
        else if t != Transfer && r.categoryId.None? then Err(BadRequest)
        else if r.categoryId.Some? && !(r.categoryId.value in s.categories && s.categories[r.categoryId.value].userId == r.userId) then Err(NotFound)
        else if r.categoryId.Some? && s.categories[r.categoryId.value].forType != t then Err(BadRequest)
        else if t == Expense && wallet.walletType == Loan then Err(BadRequest)
        else if t == Income && !IsAsset(wallet.walletType) then Err(BadRequest)
        else if r.billingMode.Some? && !(t == Expense && IsCredit(wallet.walletType)) then Err(BadRequest)
        else if t == Expense && IsCredit(wallet.walletType) then PrepareCreditExpense(wallet, r, w, amount, newRow, newInstallment)
        else
          var to := if t == Transfer then r.toWalletId else None;
          Ok(RecordRow(newRow, Row(r.userId, r.categoryId, r.date.value, LedgerRow(t, amount, w, to, false, None))))
  }

  predicate IsSet(day: Option<int>) {
    day.Some? && day.value != 0
  }

  function PrepareCreditExpense(wallet: Wallet, r: CreateInput, w: Id, amount: int, newRow: Id, newInstallment: Id): Result<Plan, Error>
    requires r.date.Some?
  {
    var mode := if r.billingMode.Some? then r.billingMode.value else if r.isInstallment then InstallmentBill else FullBill;
    var months := if mode == FullBill then Some(1) else r.installmentMonths;
    if months.None? || months.value < 1 || months.value > InstallmentPlan.MAX_MONTHS then Err(BadRequest)
    else if mode == InstallmentBill && months.value < 2 then Err(BadRequest)
    else
      var rate := if mode == InstallmentBill && r.interestRate.Some? then r.interestRate.value else 0.0;
      var computed := InstallmentPlan.ComputeInstallmentPlan(amount, rate, months.value);
      if computed.Err? then Err(BadRequest)
      else
        var plan := computed.value;
        var due :=
          if IsSet(wallet.cutoffDay) && IsSet(wallet.paymentDueDay)
          then CalculateFirstDueDate(r.date.value, wallet.cutoffDay.value, wallet.paymentDueDay.value)
          else if r.firstDueDate.Some? then r.firstDueDate.value
          else None;
        if due.None? then Err(BadRequest)
        else
          var outstanding := if wallet.balance < 0 then -wallet.balance else 0;
          var remaining := if wallet.creditLimit - outstanding > 0 then wallet.creditLimit - outstanding else 0;
          if plan.grandTotal > remaining then Err(InsufficientCredit)
          else Ok(RecordCreditExpense(
                    newRow, Row(r.userId, r.categoryId, r.date.value, LedgerRow(Expense, plan.monthlyAmount, w, None, true, Some(newInstallment))),
                    newInstallment, Installment(r.userId, w, plan.grandTotal, plan.monthlyAmount, months.value, mode, 1, 0, due.value, Active)))
  }

  // ---------------------------------------------------------------- update

  function RegularInput(e: LedgerRow): EffectInput {
    EffectInput(e.txType, e.amount, e.walletId, e.toWalletId, false, None)
  }

  function InstallmentInput(e: LedgerRow, grandTotal: int): EffectInput {
    EffectInput(Expense, e.amount, e.walletId, None, true, Some(grandTotal))
  }

  function Revised(row: Row, v: Revision): Row {
    var e := row.entry;
    row.(categoryId := if v.categoryId.Some? then v.categoryId.value else row.categoryId,
         date := if v.date.Some? then v.date.value else row.date,
         entry := e.(txType := if v.txType.Some? then v.txType.value else e.txType,
                     amount := if v.amount.Some? then v.amount.value else e.amount,
                     walletId := if v.walletId.Some? then v.walletId.value else e.walletId,
                     toWalletId := v.toWalletId))
  }

  function PrepareUpdate(s: Store, r: UpdateInput): Result<Plan, Error> {
    if r.amount.Some? && r.amount.value <= 0 then Err(InvalidAmount)
    else if r.date == Some(None) then Err(BadRequest)
    else if !(r.rowId in s.rows && s.rows[r.rowId].userId == r.userId) then Err(NotFound)
    else
      var existing := s.rows[r.rowId];
      var e := existing.entry;
      if e.isInstallment then Err(Conflict)
      else if r.isInstallment then Err(BadRequest)
      else if e.txType == Transfer && e.toWalletId.None? then Err(Conflict)
      else
        var t := if r.txType.Some? then r.txType.value else e.txType;
        var amount := if r.amount.Some? then r.amount.value else e.amount;
        var w := if r.walletId.Some? then r.walletId.value else e.walletId;
        var to := if t != Transfer then None else if r.toWalletId.Some? then r.toWalletId else e.toWalletId;
        var _ :- CheckUpdateTarget(s, r, t, amount, w, to);
        Ok(ReviseRow(r.rowId, existing, Revision(
             r.txType, r.amount, if r.date.Some? then r.date.value else None,
             if t == Transfer then Some(None) else r.categoryId,
             r.walletId, to, EffectInput(t, amount, w, to, false, None))))
  }

  function CheckUpdateTarget(s: Store, r: UpdateInput, t: TxType, amount: int, w: Id, to: Option<Id>): Result<bool, Error> {
    if t != Transfer && (r.walletId.Some? || t == Income) && !Owned(s, r.userId, w) then Err(NotFound)
    else if t == Income && !IsAsset(s.wallets[w].walletType) then Err(BadRequest)
    else if t == Transfer && to.None? then Err(InvalidTransfer)
    else if t == Transfer && to == Some(w) then Err(InvalidTransfer)
    else if t == Transfer && !Owned(s, r.userId, w) then Err(NotFound)
    else if t == Transfer && !IsAsset(s.wallets[w].walletType) then Err(InvalidTransfer)
    else if t == Transfer && s.wallets[w].balance < amount then Err(InsufficientFunds)
    else if t == Transfer && !Owned(s, r.userId, to.value) then Err(NotFound)
    else
      var category := if r.categoryId.Some? then r.categoryId.value else None;
      if t == Transfer && category.Some? then Err(BadRequest)
      else if t != Transfer && r.categoryId == Some(None) then Err(BadRequest)
      else if category.Some? && !(category.value in s.categories && s.categories[category.value].userId == r.userId) then Err(NotFound)
      else if category.Some? && s.categories[category.value].forType != t then Err(BadRequest)
      else Ok(true)
  }

  // ---------------------------------------------------------------- delete

  /** The grand total found with the row, or the stored amount when no installment is linked. */
  function GrandTotalOf(s: Store, e: LedgerRow): int {
    if e.installmentId.Some? && e.installmentId.value in s.installments
    then s.installments[e.installmentId.value].grandTotal else e.amount
  }

  function PrepareDelete(s: Store, userId: Id, rowId: Id): Result<Plan, Error> {
    if !(rowId in s.rows && s.rows[rowId].userId == userId) then Err(NotFound)
    else
      var e := s.rows[rowId].entry;
      if e.txType == Transfer && e.toWalletId.None? then Err(Conflict)
      else Ok(RemoveRow(rowId, s.rows[rowId], GrandTotalOf(s, e)))
  }

  // ---------------------------------------------------------------- pay a term

  function PreparePay(s: Store, r: PayInput, newRow: Id): Result<Plan, Error> {
    if r.date.None? then Err(BadRequest)
    else if !(r.installmentId in s.installments && s.installments[r.installmentId].userId == r.userId) then Err(NotFound)
    else
      var i := s.installments[r.installmentId];
      if i.status != Active || i.paidTerms >= i.months then Err(Conflict)
      else
        var expected := InstallmentPlan.TermAmount(i.grandTotal, i.monthlyAmount, i.months, i.paidTerms);
        var amount := if r.amount.Some? then r.amount.value else expected;
        if amount <= 0 || amount != expected then Err(InvalidAmount)
        else if !Owned(s, r.userId, r.sourceWalletId) then Err(NotFound)
        else if !IsAsset(s.wallets[r.sourceWalletId].walletType) then Err(BadRequest)
        else if s.wallets[r.sourceWalletId].balance < amount then Err(InsufficientFunds)
        else
          var paid := i.paidTerms + 1;
          var isFinal := paid >= i.months;
          Ok(PayTerm(newRow, Row(r.userId, None, r.date.value, LedgerRow(Transfer, amount, r.sourceWalletId, Some(i.walletId), false, None)),
                     r.installmentId, if paid + 1 <= i.months then paid + 1 else i.months, paid,
                     if isFinal then i.nextDueDate else AddBillingMonth(i.nextDueDate, 1),
                     if isFinal then Settled else Active))
  }

  // ---------------------------------------------------------------- confirm a reminder

  function PrepareConfirm(s: Store, r: ConfirmInput, newRow: Id): Result<Plan, Error> {
    if !(r.eventId in s.events && s.events[r.eventId].userId == r.userId) then Err(NotFound)
    else
      var event := s.events[r.eventId];
      if event.isCompleted then Err(AlreadyProcessed)
      else if event.installmentId.Some? then Err(UseInstallmentPayment)
      else if event.templateId.None? || event.templateId.value !in s.templates then Err(NotFound)
      else
        var t := s.templates[event.templateId.value];
        if t.mode == Flexible && (r.amount.None? || r.amount.value <= 0) then Err(InvalidAmount)
        else if !Owned(s, r.userId, t.walletId) then Err(NotFound)
        else if t.categoryId.None? then Err(BadRequest)
        else if !(t.categoryId.value in s.categories && s.categories[t.categoryId.value].userId == r.userId) then Err(NotFound)
        else
          var amount := if t.mode == Flexible then r.amount.value else if t.amount.Some? then t.amount.value else 0;
          Ok(CompleteReminder(newRow, Row(r.userId, t.categoryId, r.today, LedgerRow(t.txType, amount, t.walletId, None, false, None)), r.eventId))
  }

  // ---------------------------------------------------------------- wallets

  predicate BillingDayOk(day: Option<int>) {
    day.None? || IsBillingDay(day.value)
  }

  function PrepareWallet(r: WalletInput, newWallet: Id): Result<Plan, Error> {
    var t := if r.walletType.Some? then r.walletType.value else Cash;
    var opening := if r.balance.Some? then r.balance.value else 0;
    if IsCredit(t) && (r.creditLimit.None? || r.creditLimit.value <= 0) then Err(BadRequest)
    else if !BillingDayOk(r.cutoffDay) || !BillingDayOk(r.paymentDueDay) then Err(BadRequest)
    else if IsAsset(t) && opening < 0 then Err(BadRequest)
    else if t == Loan && (r.principal.None? || r.principal.value <= 0) then Err(BadRequest)
    else if t == Loan && (r.creditLimit.Some? || r.cutoffDay.Some? || r.paymentDueDay.Some?) then Err(BadRequest)
    else if t != Loan && r.principal.Some? then Err(BadRequest)
    else
      var seed := if IsCredit(t) then 0 else if t == Loan then -r.principal.value else opening;
      Ok(OpenWallet(newWallet, Wallet(r.userId, t, seed, seed, if IsCredit(t) then r.creditLimit.value else 0,
                                      if IsCredit(t) then r.cutoffDay else None, if IsCredit(t) then r.paymentDueDay else None)))
  }

  function PrepareEdit(s: Store, userId: Id, w: Id, r: WalletEdit): Result<Plan, Error> {
    if !BillingDayOk(r.cutoffDay) || !BillingDayOk(r.paymentDueDay) then Err(BadRequest)
    else if !Owned(s, userId, w) then Err(NotFound)
    else if (r.creditLimit.Some? || r.cutoffDay.Some? || r.paymentDueDay.Some?) && !IsCredit(s.wallets[w].walletType) then Err(BadRequest)
    else if r.creditLimit.Some? && r.creditLimit.value <= 0 then Err(BadRequest)
    else if r.balance.Some? && r.balance.value != s.wallets[w].balance then Err(BalanceUpdateNotAllowed)
    else Ok(EditWallet(w, r))
  }

  /** The rows a user has on either side of a transfer with `w`. */
  ghost predicate IsTransferOf(s: Store, userId: Id, w: Id, k: Id) {
    && k in s.rows && s.rows[k].userId == userId && s.rows[k].entry.txType == Transfer
    && (s.rows[k].entry.walletId == w || s.rows[k].entry.toWalletId == Some(w))
  }

  function TransferCount(s: Store, userId: Id, w: Id): (n: nat)
    ensures n == 0 <==> forall k :: !IsTransferOf(s, userId, w, k)
  {
    var found := set k | k in s.rows && s.rows[k].userId == userId && s.rows[k].entry.txType == Transfer
                      && (s.rows[k].entry.walletId == w || s.rows[k].entry.toWalletId == Some(w));
    assert forall k :: k in found <==> IsTransferOf(s, userId, w, k);
    |found|
  }

  function RowCount(s: Store, userId: Id, w: Id): nat {
    |set k | k in s.rows && s.rows[k].userId == userId && s.rows[k].entry.walletId == w|
  }

  function PrepareClose(s: Store, userId: Id, w: Id, force: bool): Result<Plan, Error> {
    if !Owned(s, userId, w) then Err(NotFound)
    else if TransferCount(s, userId, w) > 0 then Err(Conflict)
    else if RowCount(s, userId, w) > 0 && !force then Err(Conflict)
    else Ok(CloseWallet(w))
  }

  // ---------------------------------------------------------------- the two phases

  function Prepare(s: Store, q: Request): Result<Plan, Error> {
    match q
    case CreateTransaction(r, newRow, newInstallment) => PrepareCreate(s, r, newRow, newInstallment)
    case UpdateTransaction(r) => PrepareUpdate(s, r)
    case DeleteTransaction(userId, rowId) => PrepareDelete(s, userId, rowId)
    case PayInstallment(r, newRow) => PreparePay(s, r, newRow)
    case ConfirmReminder(r, newRow) => PrepareConfirm(s, r, newRow)
    case CreateWallet(r, newWallet) => PrepareWallet(r, newWallet)
    case UpdateWallet(userId, w, r) => PrepareEdit(s, userId, w, r)
    case DeleteWallet(userId, w, force) => PrepareClose(s, userId, w, force)
  }

  function Edited(wallet: Wallet, r: WalletEdit): Wallet {
    wallet.(walletType := if r.walletType.Some? then r.walletType.value else wallet.walletType,
            creditLimit := if r.creditLimit.Some? then r.creditLimit.value else wallet.creditLimit,
            cutoffDay := if r.cutoffDay.Some? then r.cutoffDay else wallet.cutoffDay,
            paymentDueDay := if r.paymentDueDay.Some? then r.paymentDueDay else wallet.paymentDueDay)
  }

  function MarkCompleted(s: Store, eventId: Id, userId: Id, rowId: Id): Result<Store, Error> {
    if !(eventId in s.events && s.events[eventId].userId == userId && !s.events[eventId].isCompleted) then Err(AlreadyProcessed)
    else Ok(s.(events := s.events[eventId := s.events[eventId].(isCompleted := true, generated := Some(rowId))]))
  }

  function CommitRecord(s: Store, rowId: Id, row: Row): Result<Store, Error> {
    var s1 :- InsertRow(s, rowId, row);
    ApplyEffect(s1, ComputeBalanceEffect(RegularInput(row.entry)))
  }

  function CommitCreditExpense(s: Store, rowId: Id, row: Row, instId: Id, inst: Installment): Result<Store, Error> {
    var s1 :- InsertInstallment(s, instId, inst);
    var s2 :- InsertRow(s1, rowId, row);
    Increment(s2, [Delta(row.entry.walletId, -inst.grandTotal)])
  }

  function CommitRevise(s: Store, rowId: Id, existing: Row, v: Revision): Result<Store, Error> {
    var s1 :- ApplyEffect(s, ReverseBalanceEffect(RegularInput(existing.entry)));
    if rowId !in s1.rows then Err(RecordMissing)
    else
      var s2 :- ReplaceRow(s1, rowId, Revised(s1.rows[rowId], v));
      ApplyEffect(s2, ComputeBalanceEffect(v.effect))
  }

  function CommitRemove(s: Store, rowId: Id, existing: Row, grandTotal: int): Result<Store, Error> {
    var e := existing.entry;
    var s1 :- ApplyEffect(s, ReverseBalanceEffect(if e.isInstallment then InstallmentInput(e, grandTotal) else RegularInput(e)));
    var s2 :- DeleteRow(s1, rowId);
    if e.isInstallment && e.installmentId.Some? then DeleteInstallment(s2, e.installmentId.value) else Ok(s2)
  }

  function CommitPay(s: Store, p: Plan): Result<Store, Error>
    requires p.PayTerm?
  {
    var s1 :- CommitRecord(s, p.rowId, p.row);
    UpdateTerms(s1, p.instId, p.currentTerm, p.paidTerms, p.due, p.status)
  }

  function CommitComplete(s: Store, rowId: Id, row: Row, eventId: Id): Result<Store, Error> {
    var s1 :- CommitRecord(s, rowId, row);
    MarkCompleted(s1, eventId, row.userId, rowId)
  }

  /** One database transaction: all of its statements, or none. */
  function Commit(s: Store, p: Plan): Result<Store, Error> {
    match p
    case RecordRow(rowId, row) => CommitRecord(s, rowId, row)
    case RecordCreditExpense(rowId, row, instId, inst) => CommitCreditExpense(s, rowId, row, instId, inst)
    case ReviseRow(rowId, existing, v) => CommitRevise(s, rowId, existing, v)
    case RemoveRow(rowId, existing, grandTotal) => CommitRemove(s, rowId, existing, grandTotal)
    case PayTerm(_, _, _, _, _, _, _) => CommitPay(s, p)
    case CompleteReminder(rowId, row, eventId) => CommitComplete(s, rowId, row, eventId)
    case OpenWallet(w, wallet) => InsertWallet(s, w, wallet)
    case EditWallet(w, r) => if w !in s.wallets then Err(RecordMissing) else Ok(s.(wallets := s.wallets[w := Edited(s.wallets[w], r)]))
    case CloseWallet(w) => Ledger.DeleteWallet(s, w)
  }

  /** A request served with nothing in between. */
  function Serve(s: Store, q: Request): Result<Store, Error> {
    var p :- Prepare(s, q);
    Commit(s, p)
  }
}
