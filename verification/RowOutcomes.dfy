/** What updates, deletions, bill payments and reminder confirmations do to the tables. */
module RowOutcomes {
  import opened Common
  import opened BillingCycle
  import opened TransactionBalance
  import opened Ledger
  import opened Requests
  import opened LedgerInvariant
  import opened TransactionOutcomes

  // ---------------------------------------------------------------- update

  /** A regular row of the caller's own, not a transfer whose destination is unknown. */
  predicate Editable(s: Store, userId: Id, rowId: Id) {
    && rowId in s.rows && s.rows[rowId].userId == userId && !s.rows[rowId].entry.isInstallment
    && (s.rows[rowId].entry.txType == Transfer ==> s.rows[rowId].entry.toWalletId.Some?)
  }

  /** What is given replaces what is stored; only a transfer has a destination and no category. */
  function Rewritten(row: Row, r: UpdateInput): Row
    requires r.date != Some(None)
  {
    var e := row.entry;
    var t := if r.txType.Some? then r.txType.value else e.txType;
    Row(row.userId,
        if t == Transfer then None else if r.categoryId.Some? then r.categoryId.value else row.categoryId,
        if r.date.Some? then r.date.value.value else row.date,
        LedgerRow(t,
                  if r.amount.Some? then r.amount.value else e.amount,
                  if r.walletId.Some? then r.walletId.value else e.walletId,
                  if t != Transfer then None else if r.toWalletId.Some? then r.toWalletId else e.toWalletId,
                  false, None))
  }

  /** A transfer between two wallets of the user's own, out of one that holds enough money. */
  predicate TransferFits(s: Store, userId: Id, e: LedgerRow) {
    && e.toWalletId.Some? && e.toWalletId != Some(e.walletId)
    && Has(s, userId, e.walletId) && HoldsMoney(s.wallets[e.walletId]) && s.wallets[e.walletId].balance >= e.amount
    && Has(s, userId, e.toWalletId.value)
  }

  predicate CategoryFits(s: Store, r: UpdateInput, t: TxType) {
    if t == Transfer then r.categoryId.None? || r.categoryId == Some(None)
    else
      r.categoryId != Some(None)
      && (r.categoryId.Some? ==> r.categoryId.value.value in s.categories && s.categories[r.categoryId.value.value] == Category(r.userId, t))
  }

  predicate UpdateAllowed(s: Store, r: UpdateInput) {
    && (r.amount.Some? ==> r.amount.value > 0) && r.date != Some(None) && !r.isInstallment && Editable(s, r.userId, r.rowId)
    && (var e := Rewritten(s.rows[r.rowId], r).entry;
        && CategoryFits(s, r, e.txType)
        && (if e.txType == Transfer then TransferFits(s, r.userId, e)
            else
              && (r.walletId.Some? || e.txType == Income ==> Has(s, r.userId, e.walletId))
              && (e.txType == Income ==> HoldsMoney(s.wallets[e.walletId]))))
  }

  lemma PrepareUpdateExactly(s: Store, r: UpdateInput)
    requires Intact(s)
    ensures PrepareUpdate(s, r).Ok? <==> UpdateAllowed(s, r)
    ensures UpdateAllowed(s, r) ==>
      var p := PrepareUpdate(s, r).value;
      && p.ReviseRow? && p.rowId == r.rowId && p.existing == s.rows[r.rowId] && p.revision.effect == RegularInput(Rewritten(s.rows[r.rowId], r).entry)
      && Revised(s.rows[r.rowId], p.revision) == Rewritten(s.rows[r.rowId], r)
  {
    if r.rowId in s.rows {
      assert RowOk(s, s.rows[r.rowId]);
    }
  }

  ghost function Instead(before: LedgerRow, now: LedgerRow): Id -> int {
    (w: Id) => MovesOf(now, w) - MovesOf(before, w)
  }

  ghost function TakenBack(e: LedgerRow): Id -> int {
    (w: Id) => -MovesOf(e, w)
  }

  /** Atomic increments move each wallet by its net and touch nothing else. */
  lemma Incremented(s: Store, deltas: seq<Delta>, move: Id -> int)
    requires forall d :: d in deltas ==> d.walletId in s.wallets
    requires forall v :: v in s.wallets ==> Net(deltas, v) == move(v)
    ensures Increment(s, deltas).Ok? && BalancesMove(s, Increment(s, deltas).value, move)
    ensures Increment(s, deltas).value == s.(wallets := Increment(s, deltas).value.wallets)
  {
  }

  lemma MovesAdd(s: Store, s1: Store, s2: Store, f: Id -> int, g: Id -> int, h: Id -> int)
    requires BalancesMove(s, s1, f) && BalancesMove(s1, s2, g) && forall v :: h(v) == f(v) + g(v)
    ensures BalancesMove(s, s2, h)
  {
  }

  lemma RegularReversed(s: Store, e: LedgerRow)
    requires !e.isInstallment && e.walletId in s.wallets && (e.toWalletId.Some? ==> e.toWalletId.value in s.wallets) && IsRevisable(e)
    ensures ReverseBalanceEffect(RegularInput(e)).Some?
    ensures var r := Increment(s, ReverseBalanceEffect(RegularInput(e)).value);
      r.Ok? && BalancesMove(s, r.value, TakenBack(e)) && r.value == s.(wallets := r.value.wallets)
  {
    forall w | w in s.wallets ensures Net(ReverseBalanceEffect(RegularInput(e)).value, w) == TakenBack(e)(w) {
      NetIsMove(e, w);
    }
    var back := ReverseBalanceEffect(RegularInput(e)).value;
    assert forall d :: d in back ==> d.walletId in s.wallets;
    Incremented(s, back, TakenBack(e));
  }

  lemma RegularApplied(s: Store, e: LedgerRow)
    requires !e.isInstallment && e.walletId in s.wallets && (e.toWalletId.Some? ==> e.toWalletId.value in s.wallets) && IsRevisable(e)
    ensures ComputeBalanceEffect(RegularInput(e)).Some?
    ensures var r := Increment(s, ComputeBalanceEffect(RegularInput(e)).value);
      r.Ok? && BalancesMove(s, r.value, MoveOf(e)) && r.value == s.(wallets := r.value.wallets)
  {
    forall w | w in s.wallets ensures Net(ComputeBalanceEffect(RegularInput(e)).value, w) == MoveOf(e)(w) {
      NetIsMove(e, w);
    }
    var deltas := ComputeBalanceEffect(RegularInput(e)).value;
    assert forall d :: d in deltas ==> d.walletId in s.wallets;
    Incremented(s, deltas, MoveOf(e));
  }

  lemma ReviseSteps(s: Store, s1: Store, s3: Store, rowId: Id, v: Revision)
    requires rowId in s.rows && ApplyEffect(s, ReverseBalanceEffect(RegularInput(s.rows[rowId].entry))) == Ok(s1)
    requires s1.rows == s.rows && ReferencesExist(s1, Revised(s.rows[rowId], v))
    requires ApplyEffect(s1.(rows := s1.rows[rowId := Revised(s.rows[rowId], v)]), ComputeBalanceEffect(v.effect)) == Ok(s3)
    ensures CommitRevise(s, rowId, s.rows[rowId], v) == Ok(s3)
  {
  }

  /** The tables hold `row` for `rowId`, and the balances have moved from the old row to it. */
  ghost predicate RevisedTo(s: Store, rowId: Id, row: Row, s': Store)
    requires rowId in s.rows
  {
    && s'.rows == s.rows[rowId := row] && OnlyRowsAndBalances(s, s')
    && BalancesMove(s, s', Instead(s.rows[rowId].entry, row.entry))
  }

  /** Reversing one regular row, writing another in its place and applying that. */
  lemma ReviseOutcome(s: Store, rowId: Id, row: Row, v: Revision)
    requires rowId in s.rows && PlainRow(s, s.rows[rowId]) && IsRevisable(s.rows[rowId].entry)
    requires row == Revised(s.rows[rowId], v) && v.effect == RegularInput(row.entry) && IsRevisable(row.entry) && ReferencesExist(s, row)
    ensures var r := CommitRevise(s, rowId, s.rows[rowId], v);
      r.Ok? && RevisedTo(s, rowId, row, r.value)
  {
    var before := s.rows[rowId].entry;
    RegularReversed(s, before);
    var s1 := Increment(s, ReverseBalanceEffect(RegularInput(before)).value).value;
    var s2 := s1.(rows := s1.rows[rowId := row]);
    RegularApplied(s2, row.entry);
    var s3 := Increment(s2, ComputeBalanceEffect(v.effect).value).value;
    ReviseSteps(s, s1, s3, rowId, v);
    ReviseMoves(s, s1, s2, s3, rowId, row);
  }

  lemma ReviseMoves(s: Store, s1: Store, s2: Store, s3: Store, rowId: Id, row: Row)
    requires rowId in s.rows && BalancesMove(s, s1, TakenBack(s.rows[rowId].entry)) && s1 == s.(wallets := s1.wallets)
    requires s2 == s1.(rows := s1.rows[rowId := row]) && BalancesMove(s2, s3, MoveOf(row.entry)) && s3 == s2.(wallets := s3.wallets)
    ensures RevisedTo(s, rowId, row, s3)
  {
    MovesAdd(s, s1, s3, TakenBack(s.rows[rowId].entry), MoveOf(row.entry), Instead(s.rows[rowId].entry, row.entry));
  }

  lemma ReviseNeedsReferences(s: Store, rowId: Id, existing: Row, v: Revision)
    requires CommitRevise(s, rowId, existing, v).Ok?
    ensures rowId in s.rows && ReferencesExist(s, Revised(s.rows[rowId], v))
  {
  }

  lemma RewrittenFits(s: Store, r: UpdateInput)
    requires Intact(s) && UpdateAllowed(s, r)
    ensures var row := Rewritten(s.rows[r.rowId], r);
      && IsRevisable(row.entry) && PlainRow(s, s.rows[r.rowId]) && IsRevisable(s.rows[r.rowId].entry)
      && (ReferencesExist(s, row) <==> (row.categoryId.Some? ==> row.categoryId.value in s.categories))
  {
    assert RowOk(s, s.rows[r.rowId]);
  }

  /**
   * An update is served exactly when it is allowed, on tables whose categories are there. The row then
   * has the fields given and keeps the others, and each balance moves from the old row to the new one.
   */
  lemma UpdateOutcome(s: Store, r: UpdateInput)
    requires Intact(s)
    ensures var served := Serve(s, UpdateTransaction(r));
      && (served.Ok? ==> UpdateAllowed(s, r))
      && (UpdateAllowed(s, r) ==>
            var row := Rewritten(s.rows[r.rowId], r);
            && (served.Ok? <==> (row.categoryId.Some? ==> row.categoryId.value in s.categories))
            && (served.Ok? ==> RevisedTo(s, r.rowId, row, served.value)))
  {
    PrepareUpdateExactly(s, r);
    if UpdateAllowed(s, r) {
      var p := PrepareUpdate(s, r).value;
      RewrittenFits(s, r);
      if ReferencesExist(s, Rewritten(s.rows[r.rowId], r)) {
        ReviseOutcome(s, r.rowId, Rewritten(s.rows[r.rowId], r), p.revision);
      } else if Serve(s, UpdateTransaction(r)).Ok? {
        ReviseNeedsReferences(s, r.rowId, p.existing, p.revision);
      }
    }
  }

  /** Refusals that one reason decides. */
  lemma UpdateRefusals(s: Store, r: UpdateInput)
    requires r.date != Some(None)
    ensures r.amount.Some? && r.amount.value <= 0 ==> Serve(s, UpdateTransaction(r)) == Err(InvalidAmount)
    ensures (r.amount.Some? ==> r.amount.value > 0) && !(r.rowId in s.rows && s.rows[r.rowId].userId == r.userId) ==>
      Serve(s, UpdateTransaction(r)) == Err(NotFound)
    ensures (r.amount.Some? ==> r.amount.value > 0) && r.rowId in s.rows && s.rows[r.rowId].userId == r.userId && s.rows[r.rowId].entry.isInstallment ==>
      Serve(s, UpdateTransaction(r)) == Err(Conflict)
    ensures (r.amount.Some? ==> r.amount.value > 0) && !r.isInstallment && Editable(s, r.userId, r.rowId) && OnlyFundsMissing(s, r.userId, Rewritten(s.rows[r.rowId], r).entry) ==>
      Serve(s, UpdateTransaction(r)) == Err(InsufficientFunds)
  {
  }

  predicate OnlyFundsMissing(s: Store, userId: Id, e: LedgerRow) {
    && e.txType == Transfer && e.toWalletId.Some? && e.toWalletId != Some(e.walletId)
    && Has(s, userId, e.walletId) && HoldsMoney(s.wallets[e.walletId]) && s.wallets[e.walletId].balance < e.amount
  }

  // ---------------------------------------------------------------- delete

  predicate Removable(s: Store, userId: Id, rowId: Id) {
    && rowId in s.rows && s.rows[rowId].userId == userId
    && (s.rows[rowId].entry.txType == Transfer ==> s.rows[rowId].entry.toWalletId.Some?)
  }

  /** What the row once moved: for a credit row its bill's grand total, not the term it shows. */
  function Charged(s: Store, e: LedgerRow, v: Id): int {
    if !e.isInstallment then MovesOf(e, v)
    else if v != e.walletId then 0
    else if e.installmentId.Some? && e.installmentId.value in s.installments then -s.installments[e.installmentId.value].grandTotal
    else -e.amount
  }

  /** Reminders of a deleted bill go with it; reminders that produced the row forget it. */
  ghost predicate EventsFollow(s: Store, s': Store, rowId: Id, bill: Option<Id>) {
    && (forall e :: e in s'.events <==> e in s.events && (bill.Some? ==> s.events[e].installmentId != bill))
    && (forall e :: e in s'.events ==>
          s'.events[e] == s.events[e].(generated := if s.events[e].generated == Some(rowId) then None else s.events[e].generated))
  }

  function ChargeInput(s: Store, e: LedgerRow): EffectInput {
    if e.isInstallment then InstallmentInput(e, GrandTotalOf(s, e)) else RegularInput(e)
  }

  lemma ChargedBack(s: Store, e: LedgerRow, v: Id)
    requires e.isInstallment || (e.txType == Transfer ==> e.toWalletId.Some?)
    ensures var input := ChargeInput(s, e);
      ReverseBalanceEffect(input).Some? && Net(ReverseBalanceEffect(input).value, v) == -Charged(s, e, v)
  {
    var input := ChargeInput(s, e);
    ReversalIsExact(input, v);
    EffectClosedForm(input, v);
  }

  ghost function GivenBack(s: Store, e: LedgerRow): Id -> int {
    (v: Id) => -Charged(s, e, v)
  }

  lemma ChargeReversed(s: Store, row: Row)
    requires RowOk(s, row) && (row.entry.txType == Transfer ==> row.entry.toWalletId.Some?)
    ensures var e := row.entry;
      var input := ChargeInput(s, e);
      && ReverseBalanceEffect(input).Some?
      && (var r := Increment(s, ReverseBalanceEffect(input).value);
          r.Ok? && BalancesMove(s, r.value, GivenBack(s, e)) && r.value == s.(wallets := r.value.wallets))
  {
    var e := row.entry;
    var input := ChargeInput(s, e);
    forall v | v in s.wallets ensures Net(ReverseBalanceEffect(input).value, v) == GivenBack(s, e)(v) {
      ChargedBack(s, e, v);
    }
    ChargedBack(s, e, e.walletId);
    var back := ReverseBalanceEffect(input).value;
    assert forall d :: d in back ==> d.walletId in s.wallets;
    Incremented(s, back, GivenBack(s, e));
  }

  /** The statements after the reversal: the row goes, and with it its bill and that bill's reminders. */
  function Deleted(s1: Store, rowId: Id, e: LedgerRow): Result<Store, Error> {
    var s2 :- DeleteRow(s1, rowId);
    if e.isInstallment && e.installmentId.Some? then DeleteInstallment(s2, e.installmentId.value) else Ok(s2)
  }

  /** The row is gone with its bill and that bill's reminders, and nothing else but balances has changed. */
  ghost predicate RowGone(s: Store, rowId: Id, s': Store)
    requires rowId in s.rows
  {
    var bill := s.rows[rowId].entry.installmentId;
    && s'.rows == s.rows - {rowId}
    && s'.installments == s.installments - (if bill.Some? then {bill.value} else {})
    && EventsFollow(s, s', rowId, bill)
    && s'.templates == s.templates && s'.categories == s.categories
  }

  lemma DeletedOutcome(s: Store, s1: Store, rowId: Id)
    requires Intact(s) && rowId in s.rows && s1 == s.(wallets := s1.wallets)
    ensures var r := Deleted(s1, rowId, s.rows[rowId].entry);
      r.Ok? && r.value.wallets == s1.wallets && RowGone(s, rowId, r.value)
  {
    var e := s.rows[rowId].entry;
    assert RowOk(s, s.rows[rowId]);
    var s2 := DeleteRow(s1, rowId).value;
    if e.installmentId.Some? {
      OnlyOneLink(s, s2, rowId);
      assert DeleteInstallment(s2, e.installmentId.value).value.rows == s2.rows;
    }
  }

  lemma RemoveSteps(s: Store, s1: Store, rowId: Id, row: Row)
    requires ApplyEffect(s, ReverseBalanceEffect(ChargeInput(s, row.entry))) == Ok(s1)
    ensures CommitRemove(s, rowId, row, GrandTotalOf(s, row.entry)) == Deleted(s1, rowId, row.entry)
  {
  }

  /** A deletion takes the row, and gives back what the row had charged. */
  ghost predicate Withdrawn(s: Store, rowId: Id, s': Store)
    requires rowId in s.rows
  {
    RowGone(s, rowId, s') && BalancesMove(s, s', GivenBack(s, s.rows[rowId].entry))
  }

  lemma RemoveOutcome(s: Store, rowId: Id, row: Row)
    requires Intact(s) && rowId in s.rows && row == s.rows[rowId] && RowOk(s, row) && Removable(s, row.userId, rowId)
    ensures var r := CommitRemove(s, rowId, row, GrandTotalOf(s, row.entry));
      r.Ok? && Withdrawn(s, rowId, r.value)
  {
    ChargeReversed(s, row);
    var s1 := Increment(s, ReverseBalanceEffect(ChargeInput(s, row.entry)).value).value;
    DeletedOutcome(s, s1, rowId);
    RemoveSteps(s, s1, rowId, row);
  }

  lemma PrepareDeleteExactly(s: Store, userId: Id, rowId: Id)
    ensures PrepareDelete(s, userId, rowId) ==
      if Removable(s, userId, rowId) then Ok(RemoveRow(rowId, s.rows[rowId], GrandTotalOf(s, s.rows[rowId].entry)))
      else Err(if rowId in s.rows && s.rows[rowId].userId == userId then Conflict else NotFound)
  {
  }

  /** A row of the user's own can be deleted, unless it is a transfer whose destination is unknown. */
  lemma DeleteOutcome(s: Store, userId: Id, rowId: Id)
    requires Intact(s)
    ensures var served := Serve(s, DeleteTransaction(userId, rowId));
      && (served.Ok? <==> Removable(s, userId, rowId))
      && (served.Ok? ==> Withdrawn(s, rowId, served.value))
      && (served.Err? ==> served.error == if rowId in s.rows && s.rows[rowId].userId == userId then Conflict else NotFound)
  {
    PrepareDeleteExactly(s, userId, rowId);
    if Removable(s, userId, rowId) {
      assert RowOk(s, s.rows[rowId]);
      RemoveOutcome(s, rowId, s.rows[rowId]);
    }
  }

  // ---------------------------------------------------------------- pay a term

  /** The term due: the last one is what the terms before it leave of the grand total. */
  function Due(bill: Installment): int {
    if bill.paidTerms + 1 < bill.months then bill.monthlyAmount else bill.grandTotal - bill.monthlyAmount * (bill.months - 1)
  }

  predicate PayAllowed(s: Store, r: PayInput) {
    && r.date.Some? && r.installmentId in s.installments && s.installments[r.installmentId].userId == r.userId
    && (var bill := s.installments[r.installmentId];
        && bill.status == Active && bill.paidTerms < bill.months
        && Due(bill) > 0 && (r.amount.Some? ==> r.amount.value == Due(bill))
        && Has(s, r.userId, r.sourceWalletId) && HoldsMoney(s.wallets[r.sourceWalletId])
        && s.wallets[r.sourceWalletId].balance >= Due(bill))
  }

  /** One term on: settled after the last, due a month later otherwise. */
  function OneTermOn(bill: Installment): Installment {
    var last := bill.paidTerms + 1 >= bill.months;
    bill.(paidTerms := bill.paidTerms + 1,
          currentTerm := if last then bill.months else bill.paidTerms + 2,
          nextDueDate := if last then bill.nextDueDate else AddBillingMonth(bill.nextDueDate, 1),
          status := if last then Settled else Active)
  }

  ghost predicate Paid(s: Store, r: PayInput, k: Id, s': Store)
    requires PayAllowed(s, r)
  {
    var bill := s.installments[r.installmentId];
    && s'.rows == s.rows[k := Row(r.userId, None, r.date.value, LedgerRow(Transfer, Due(bill), r.sourceWalletId, Some(bill.walletId), false, None))]
    && s'.installments == s.installments[r.installmentId := OneTermOn(bill)]
    && BalancesMove(s, s', MoveOf(LedgerRow(Transfer, Due(bill), r.sourceWalletId, Some(bill.walletId), false, None)))
    && s'.events == s.events && s'.templates == s.templates && s'.categories == s.categories
  }

  lemma PreparePayExactly(s: Store, r: PayInput, k: Id)
    ensures PreparePay(s, r, k).Ok? <==> PayAllowed(s, r)
    ensures PayAllowed(s, r) ==>
      var (bill, p) := (s.installments[r.installmentId], PreparePay(s, r, k).value);
      && p.PayTerm? && p.rowId == k && p.instId == r.installmentId
      && p.row == Row(r.userId, None, r.date.value, LedgerRow(Transfer, Due(bill), r.sourceWalletId, Some(bill.walletId), false, None))
      && bill.(currentTerm := p.currentTerm, paidTerms := p.paidTerms, nextDueDate := p.due, status := p.status) == OneTermOn(bill)
  {
  }

  lemma CommitPayOutcome(s: Store, p: Requests.Plan)
    requires p.PayTerm? && p.instId in s.installments && p.row.categoryId.None?
    requires !p.row.entry.isInstallment && p.row.entry.installmentId.None? && p.row.entry.txType == Transfer && p.row.entry.toWalletId.Some?
    requires p.row.entry.walletId in s.wallets && p.row.entry.toWalletId.value in s.wallets
    ensures var r := CommitPay(s, p);
      && (r.Ok? <==> p.rowId !in s.rows)
      && (r.Ok? ==>
            && r.value.rows == s.rows[p.rowId := p.row] && BalancesMove(s, r.value, MoveOf(p.row.entry))
            && r.value.installments == s.installments[p.instId := s.installments[p.instId].(
                 currentTerm := p.currentTerm, paidTerms := p.paidTerms, nextDueDate := p.due, status := p.status)]
            && r.value.events == s.events && r.value.templates == s.templates && r.value.categories == s.categories)
  {
    RecordAccepted(s, p.rowId, p.row);
    if p.rowId !in s.rows {
      RecordOutcome(s, p.rowId, p.row);
    }
  }

  /** A payment is served exactly when allowed; it leaves the transfer of the term due and a bill one term on. */
  lemma PayOutcome(s: Store, r: PayInput, k: Id)
    requires Intact(s)
    ensures var served := Serve(s, PayInstallment(r, k));
      && (served.Ok? <==> PayAllowed(s, r) && k !in s.rows)
      && (served.Ok? ==> Paid(s, r, k, served.value))
  {
    PreparePayExactly(s, r, k);
    if PayAllowed(s, r) {
      CommitPayOutcome(s, PreparePay(s, r, k).value);
    }
  }

  lemma PayRefusals(s: Store, r: PayInput, k: Id)
    requires r.date.Some?
    ensures !(r.installmentId in s.installments && s.installments[r.installmentId].userId == r.userId) ==>
      Serve(s, PayInstallment(r, k)) == Err(NotFound)
    ensures r.installmentId in s.installments && s.installments[r.installmentId].userId == r.userId && s.installments[r.installmentId].status == Settled ==>
      Serve(s, PayInstallment(r, k)) == Err(Conflict)
    ensures PayAllowed(s, r.(amount := None)) && r.amount.Some? && r.amount.value != Due(s.installments[r.installmentId]) ==>
      Serve(s, PayInstallment(r, k)) == Err(InvalidAmount)
    ensures PaysButFor(s, r) ==> Serve(s, PayInstallment(r, k)) == Err(InsufficientFunds)
  {
  }

  /** Allowed, were there more money in the source. */
  predicate PaysButFor(s: Store, r: PayInput) {
    && r.installmentId in s.installments && Has(s, r.userId, r.sourceWalletId)
    && s.wallets[r.sourceWalletId].balance < Due(s.installments[r.installmentId])
    && PayAllowed(s.(wallets := s.wallets[r.sourceWalletId :=
                                          s.wallets[r.sourceWalletId].(balance := Due(s.installments[r.installmentId]))]), r)
  }

  // ---------------------------------------------------------------- confirm a reminder

  /** A reminder of a recurring transaction, not yet processed, with wallet and category of the user's own. */
  predicate ConfirmAllowed(s: Store, r: ConfirmInput) {
    && r.eventId in s.events && s.events[r.eventId].userId == r.userId && !s.events[r.eventId].isCompleted
    && s.events[r.eventId].installmentId.None?
    && s.events[r.eventId].templateId.Some? && s.events[r.eventId].templateId.value in s.templates
    && (var t := s.templates[s.events[r.eventId].templateId.value];
        && (t.mode == Flexible ==> r.amount.Some? && r.amount.value > 0)
        && Has(s, r.userId, t.walletId)
        && t.categoryId.Some? && t.categoryId.value in s.categories && s.categories[t.categoryId.value].userId == r.userId
        && t.txType != Transfer)
  }

  /** A flexible reminder is of the amount typed, a fixed one of its template's. */
  function ConfirmedAmount(t: Template, r: ConfirmInput): int {
    if t.mode == Flexible then (if r.amount.Some? then r.amount.value else 0) else if t.amount.Some? then t.amount.value else 0
  }

  ghost predicate ReminderConfirmed(s: Store, r: ConfirmInput, k: Id, s': Store)
    requires ConfirmAllowed(s, r)
  {
    var t := s.templates[s.events[r.eventId].templateId.value];
    var amount := ConfirmedAmount(t, r);
    && s'.rows == s.rows[k := Row(r.userId, t.categoryId, r.today, LedgerRow(t.txType, amount, t.walletId, None, false, None))]
    && s'.events == s.events[r.eventId := s.events[r.eventId].(isCompleted := true, generated := Some(k))]
    && BalancesMove(s, s', (v: Id) => Moves(t.txType, amount, t.walletId, None, v))
    && s'.installments == s.installments && s'.templates == s.templates && s'.categories == s.categories
  }

  /** A confirmation books what its template says, once, and marks the reminder with the row. */
  lemma ConfirmOutcome(s: Store, r: ConfirmInput, k: Id)
    ensures var served := Serve(s, ConfirmReminder(r, k));
      && (served.Ok? <==> ConfirmAllowed(s, r) && k !in s.rows)
      && (served.Ok? ==> ReminderConfirmed(s, r, k, served.value))
  {
    if PrepareConfirm(s, r, k).Ok? {
      var row := PrepareConfirm(s, r, k).value.row;
      if row.entry.txType != Transfer {
        RecordAccepted(s, k, row);
        if k !in s.rows {
          RecordOutcome(s, k, row);
        }
      }
    }
  }

  lemma ConfirmRefusals(s: Store, r: ConfirmInput, k: Id)
    ensures !(r.eventId in s.events && s.events[r.eventId].userId == r.userId) ==> Serve(s, ConfirmReminder(r, k)) == Err(NotFound)
    ensures r.eventId in s.events && s.events[r.eventId].userId == r.userId && s.events[r.eventId].isCompleted ==>
      Serve(s, ConfirmReminder(r, k)) == Err(AlreadyProcessed)
    ensures r.eventId in s.events && s.events[r.eventId].userId == r.userId && !s.events[r.eventId].isCompleted && s.events[r.eventId].installmentId.Some? ==>
      Serve(s, ConfirmReminder(r, k)) == Err(UseInstallmentPayment)
    ensures NoAmountTyped(s, r) ==> Serve(s, ConfirmReminder(r, k)) == Err(InvalidAmount)
  {
  }

  predicate NoAmountTyped(s: Store, r: ConfirmInput) {
    (r.amount.None? || r.amount.value <= 0) && ConfirmAllowed(s, r.(amount := Some(1))) && !ConfirmAllowed(s, r)
  }
}
