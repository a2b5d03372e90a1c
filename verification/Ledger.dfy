/**
 * The ledger tables and the statements that change them: wallets with a cached running balance,
 * transaction rows, installments, reminder events, templates and categories.
 *
 * Drift is what the audit reports for a wallet: stored balance minus opening balance plus effects.
 * Each statement's influence on drift is stated on its own; Commit puts statements together.
 */
module Ledger {
  import opened Common
  import opened Sums
  import opened BillingCycle
  import opened TransactionBalance

  datatype WalletType = Cash | Bank | EWallet | CreditCard | Paylater | Loan

  datatype Wallet = Wallet(
    userId: Id, walletType: WalletType, balance: int, initialBalance: int, creditLimit: int,
    cutoffDay: Option<int>, paymentDueDay: Option<int>)

  datatype Row = Row(userId: Id, categoryId: Option<Id>, date: CalendarDate, entry: LedgerRow)

  datatype BillKind = FullBill | InstallmentBill
  datatype InstallmentStatus = Active | Settled | Cancelled

  datatype Installment = Installment(
    userId: Id, walletId: Id, grandTotal: int, monthlyAmount: int, months: int, kind: BillKind,
    currentTerm: int, paidTerms: int, nextDueDate: CalendarDate, status: InstallmentStatus)

  datatype AmountMode = Fixed | Flexible

  datatype Template = Template(userId: Id, walletId: Id, categoryId: Option<Id>, txType: TxType, mode: AmountMode, amount: Option<int>)

  datatype Event = Event(userId: Id, templateId: Option<Id>, installmentId: Option<Id>, isCompleted: bool, generated: Option<Id>)

  datatype Category = Category(userId: Id, forType: TxType)

  datatype Store = Store(
    wallets: map<Id, Wallet>, rows: map<Id, Row>, installments: map<Id, Installment>,
    events: map<Id, Event>, templates: map<Id, Template>, categories: map<Id, Category>)

  datatype Error =
    | NoWallet | BadRequest | NotFound | InvalidTransfer | InvalidAmount | InsufficientFunds | InsufficientCredit
    | Conflict | AlreadyProcessed | UseInstallmentPayment | BalanceUpdateNotAllowed
    | UniqueViolation | ForeignKeyViolation | RecordMissing | UnsupportedEffect

  // ---------------------------------------------------------------- the audited quantities

  ghost function GrandTotals(s: Store): map<Id, int> {
    map i | i in s.installments :: s.installments[i].grandTotal
  }

  ghost function EffectsOn(s: Store, w: Id): map<Id, int> {
    map k | k in s.rows :: RowEffect(s.rows[k].entry, GrandTotals(s), w)
  }

  /** Stored minus expected: zero when the running balance agrees with the ledger. */
  ghost function Drift(s: Store, w: Id): int
    requires w in s.wallets
  {
    s.wallets[w].balance - s.wallets[w].initialBalance - Total(EffectsOn(s, w))
  }

  ghost predicate Reconciled(s: Store) {
    forall w :: w in s.wallets ==> Drift(s, w) == 0
  }

  // ---------------------------------------------------------------- referential integrity

  ghost predicate Owns(s: Store, userId: Id, w: Id) {
    w in s.wallets && s.wallets[w].userId == userId
  }

  /** What holds of every stored row. A transfer without destination is a legacy row. */
  ghost predicate RowOk(s: Store, row: Row) {
    var e := row.entry;
    && Owns(s, row.userId, e.walletId)
    && (e.toWalletId.Some? ==> e.txType == Transfer && Owns(s, row.userId, e.toWalletId.value))
    && e.amount >= 0
    && (e.isInstallment ==> e.txType == Expense)
    && (e.installmentId.Some? ==> e.isInstallment && LinkOk(s, row))
  }

  ghost predicate LinkOk(s: Store, row: Row)
    requires row.entry.installmentId.Some?
  {
    var i := row.entry.installmentId.value;
    && i in s.installments
    && s.installments[i].walletId == row.entry.walletId
    && s.installments[i].userId == row.userId
  }

  predicate SameLink(a: Row, b: Row) {
    a.entry.installmentId.Some? && a.entry.installmentId == b.entry.installmentId
  }

  ghost predicate Intact(s: Store) {
    && (forall k :: k in s.rows ==> RowOk(s, s.rows[k]))
    && (forall i :: i in s.installments ==> Owns(s, s.installments[i].userId, s.installments[i].walletId))
    && (forall t :: t in s.templates && s.templates[t].amount.Some? ==> s.templates[t].amount.value > 0)
    && (forall j, k :: j in s.rows && k in s.rows && SameLink(s.rows[j], s.rows[k]) ==> j == k)
  }

  ghost predicate Valid(s: Store) {
    Intact(s) && Reconciled(s)
  }

  ghost predicate Unlinked(s: Store, i: Id) {
    forall k :: k in s.rows ==> s.rows[k].entry.installmentId != Some(i)
  }

  // ---------------------------------------------------------------- statements

  predicate ReferencesExist(s: Store, row: Row) {
    && row.entry.walletId in s.wallets
    && (row.entry.toWalletId.Some? ==> row.entry.toWalletId.value in s.wallets)
    && (row.categoryId.Some? ==> row.categoryId.value in s.categories)
    && (row.entry.installmentId.Some? ==> row.entry.installmentId.value in s.installments)
  }

  function InsertRow(s: Store, id: Id, row: Row): Result<Store, Error> {
    if id in s.rows then Err(UniqueViolation)
    else if !ReferencesExist(s, row) then Err(ForeignKeyViolation)
    else Ok(s.(rows := s.rows[id := row]))
  }

  function ReplaceRow(s: Store, id: Id, row: Row): Result<Store, Error> {
    if id !in s.rows then Err(RecordMissing)
    else if !ReferencesExist(s, row) then Err(ForeignKeyViolation)
    else Ok(s.(rows := s.rows[id := row]))
  }

  /** Deleting a row clears the reminder events that point at it. */
  function DeleteRow(s: Store, id: Id): Result<Store, Error> {
    if id !in s.rows then Err(RecordMissing)
    else Ok(s.(rows := s.rows - {id},
               events := map e | e in s.events ::
                 if s.events[e].generated == Some(id) then s.events[e].(generated := None) else s.events[e]))
  }

  function CreditWallets(wallets: map<Id, Wallet>, deltas: seq<Delta>): map<Id, Wallet> {
    map w | w in wallets :: wallets[w].(balance := wallets[w].balance + Net(deltas, w))
  }

  /** Atomic increments: a missing wallet aborts the transaction; zero deltas are skipped. */
  function Increment(s: Store, deltas: seq<Delta>): Result<Store, Error> {
    if !(forall d :: d in deltas && d.amount != 0 ==> d.walletId in s.wallets) then Err(RecordMissing)
    else Ok(s.(wallets := CreditWallets(s.wallets, deltas)))
  }

  function ApplyEffect(s: Store, deltas: Option<seq<Delta>>): Result<Store, Error> {
    match deltas
    case None => Err(UnsupportedEffect)
    case Some(ds) => Increment(s, ds)
  }

  function InsertInstallment(s: Store, id: Id, inst: Installment): Result<Store, Error> {
    if id in s.installments then Err(UniqueViolation)
    else if inst.walletId !in s.wallets then Err(ForeignKeyViolation)
    else Ok(s.(installments := s.installments[id := inst]))
  }

  function UpdateTerms(s: Store, id: Id, currentTerm: int, paidTerms: int, due: CalendarDate, status: InstallmentStatus): Result<Store, Error> {
    if id !in s.installments then Err(RecordMissing)
    else Ok(s.(installments := s.installments[id := s.installments[id].(currentTerm := currentTerm, paidTerms := paidTerms, nextDueDate := due, status := status)]))
  }

  function Unlink(row: Row, gone: set<Id>): Row {
    if row.entry.installmentId.Some? && row.entry.installmentId.value in gone
    then row.(entry := row.entry.(installmentId := None)) else row
  }

  /** Deleting an installment clears the rows that point at it and removes its reminders. */
  function DeleteInstallment(s: Store, id: Id): Result<Store, Error> {
    if id !in s.installments then Err(RecordMissing)
    else Ok(s.(installments := s.installments - {id},
               rows := map k | k in s.rows :: Unlink(s.rows[k], {id}),
               events := map e | e in s.events && s.events[e].installmentId != Some(id) :: s.events[e]))
  }

  function InsertWallet(s: Store, id: Id, wallet: Wallet): Result<Store, Error> {
    if id in s.wallets then Err(UniqueViolation)
    else Ok(s.(wallets := s.wallets[id := wallet]))
  }

  function InstallmentsOf(s: Store, w: Id): set<Id> {
    set i | i in s.installments && s.installments[i].walletId == w
  }

  function TemplatesOf(s: Store, w: Id): set<Id> {
    set t | t in s.templates && s.templates[t].walletId == w
  }

  function WithoutWallet(row: Row, w: Id): Row {
    if row.entry.toWalletId == Some(w) then row.(entry := row.entry.(toWalletId := None)) else row
  }

  /** Deleting a wallet removes its rows, installments, templates and their reminders with it. */
  function DeleteWallet(s: Store, w: Id): Result<Store, Error> {
    if w !in s.wallets then Err(RecordMissing)
    else
      var gone, goneTemplates := InstallmentsOf(s, w), TemplatesOf(s, w);
      Ok(s.(wallets := s.wallets - {w},
            rows := map k | k in s.rows && s.rows[k].entry.walletId != w :: Unlink(WithoutWallet(s.rows[k], w), gone),
            installments := s.installments - gone,
            templates := s.templates - goneTemplates,
            events := map e | e in s.events
                        && !(s.events[e].installmentId.Some? && s.events[e].installmentId.value in gone)
                        && !(s.events[e].templateId.Some? && s.events[e].templateId.value in goneTemplates) :: s.events[e]))
  }

  // ---------------------------------------------------------------- what each statement does to drift

  /** Drift depends on the wallets, the rows and the installments only. */
  lemma DriftFrame(s: Store, s': Store, w: Id)
    requires s'.wallets == s.wallets && s'.rows == s.rows && s'.installments == s.installments && w in s.wallets
    ensures Drift(s', w) == Drift(s, w)
  {
    assert EffectsOn(s', w) == EffectsOn(s, w);
  }

  lemma DriftOfInsertRow(s: Store, id: Id, row: Row, w: Id)
    requires InsertRow(s, id, row).Ok? && w in s.wallets
    ensures Drift(InsertRow(s, id, row).value, w) == Drift(s, w) - RowEffect(row.entry, GrandTotals(s), w)
  {
    var s' := InsertRow(s, id, row).value;
    TotalInsert(EffectsOn(s, w), id, RowEffect(row.entry, GrandTotals(s), w));
    assert EffectsOn(s', w) == EffectsOn(s, w)[id := RowEffect(row.entry, GrandTotals(s), w)];
  }

  lemma DriftOfReplaceRow(s: Store, id: Id, row: Row, w: Id)
    requires ReplaceRow(s, id, row).Ok? && w in s.wallets
    ensures Drift(ReplaceRow(s, id, row).value, w)
            == Drift(s, w) + RowEffect(s.rows[id].entry, GrandTotals(s), w) - RowEffect(row.entry, GrandTotals(s), w)
  {
    var s' := ReplaceRow(s, id, row).value;
    TotalUpdate(EffectsOn(s, w), id, RowEffect(row.entry, GrandTotals(s), w));
    assert EffectsOn(s', w) == EffectsOn(s, w)[id := RowEffect(row.entry, GrandTotals(s), w)];
  }

  lemma DriftOfDeleteRow(s: Store, id: Id, w: Id)
    requires DeleteRow(s, id).Ok? && w in s.wallets
    ensures Drift(DeleteRow(s, id).value, w) == Drift(s, w) + RowEffect(s.rows[id].entry, GrandTotals(s), w)
  {
    var s' := DeleteRow(s, id).value;
    TotalRemove(EffectsOn(s, w), id);
    assert EffectsOn(s', w) == EffectsOn(s, w) - {id};
  }

  lemma DriftOfIncrement(s: Store, deltas: seq<Delta>, w: Id)
    requires Increment(s, deltas).Ok? && w in s.wallets
    ensures w in Increment(s, deltas).value.wallets
    ensures Drift(Increment(s, deltas).value, w) == Drift(s, w) + Net(deltas, w)
  {
    assert EffectsOn(Increment(s, deltas).value, w) == EffectsOn(s, w);
  }

  /** A row's effect depends on the installments only through its own grand total. */
  lemma RowEffectFrame(e: LedgerRow, g: map<Id, int>, h: map<Id, int>, w: Id)
    requires e.installmentId.Some? ==>
      var i := e.installmentId.value; (i in g <==> i in h) && (i in g ==> g[i] == h[i])
    ensures RowEffect(e, g, w) == RowEffect(e, h, w)
  {
    assert AuditInput(e, g) == AuditInput(e, h);
  }

  lemma EffectsFrame(s: Store, s': Store, i: Id, w: Id)
    requires s'.rows == s.rows && Unlinked(s, i)
    requires GrandTotals(s) - {i} == GrandTotals(s') - {i}
    ensures EffectsOn(s', w) == EffectsOn(s, w)
  {
    forall k | k in s.rows
      ensures RowEffect(s.rows[k].entry, GrandTotals(s), w) == RowEffect(s.rows[k].entry, GrandTotals(s'), w)
    {
      var e := s.rows[k].entry;
      if e.installmentId.Some? {
        var j := e.installmentId.value;
        assert j in GrandTotals(s) - {i} <==> j in GrandTotals(s);
        assert j in GrandTotals(s') - {i} <==> j in GrandTotals(s');
        if j in GrandTotals(s) {
          assert (GrandTotals(s) - {i})[j] == (GrandTotals(s') - {i})[j];
        }
      }
      RowEffectFrame(e, GrandTotals(s), GrandTotals(s'), w);
    }
  }

  lemma DriftOfInsertInstallment(s: Store, id: Id, inst: Installment, w: Id)
    requires InsertInstallment(s, id, inst).Ok? && Unlinked(s, id) && w in s.wallets
    ensures Drift(InsertInstallment(s, id, inst).value, w) == Drift(s, w)
  {
    EffectsFrame(s, InsertInstallment(s, id, inst).value, id, w);
  }

  lemma DriftOfUpdateTerms(s: Store, id: Id, currentTerm: int, paidTerms: int, due: CalendarDate, status: InstallmentStatus, w: Id)
    requires UpdateTerms(s, id, currentTerm, paidTerms, due, status).Ok? && w in s.wallets
    ensures Drift(UpdateTerms(s, id, currentTerm, paidTerms, due, status).value, w) == Drift(s, w)
  {
    var s' := UpdateTerms(s, id, currentTerm, paidTerms, due, status).value;
    assert GrandTotals(s') == GrandTotals(s);
    assert EffectsOn(s', w) == EffectsOn(s, w);
  }

  lemma DriftOfDeleteInstallment(s: Store, id: Id, w: Id)
    requires DeleteInstallment(s, id).Ok? && Unlinked(s, id) && w in s.wallets
    ensures Drift(DeleteInstallment(s, id).value, w) == Drift(s, w)
    ensures DeleteInstallment(s, id).value.rows == s.rows
  {
    var s' := DeleteInstallment(s, id).value;
    assert s'.rows == s.rows;
    EffectsFrame(s, s', id, w);
  }

  /** Rows never touch a wallet that is not stored, so a new wallet starts reconciled. */
  lemma DriftOfInsertWallet(s: Store, id: Id, wallet: Wallet, w: Id)
    requires InsertWallet(s, id, wallet).Ok? && Intact(s) && (w in s.wallets || w == id)
    requires wallet.balance == wallet.initialBalance
    ensures Drift(InsertWallet(s, id, wallet).value, w) == if w == id then 0 else Drift(s, w)
  {
    var s' := InsertWallet(s, id, wallet).value;
    assert EffectsOn(s', w) == EffectsOn(s, w);
    if w == id {
      forall k | k in s.rows ensures EffectsOn(s, w)[k] == 0 {
        assert RowOk(s, s.rows[k]);
        EffectClosedForm(AuditInput(s.rows[k].entry, GrandTotals(s)), w);
      }
      TotalDropZeros(EffectsOn(s, w), s.rows.Keys);
      assert EffectsOn(s, w) - s.rows.Keys == map[];
    }
  }
}
