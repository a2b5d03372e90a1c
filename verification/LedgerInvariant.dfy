/**
 * The ledger invariant over every serialized run: the running balance of every wallet equals its
 * opening balance plus the effects of the surviving rows.
 *
 * Fits says what a plan must still have in common with the tables when it commits. Prepare
 * establishes it; committing a plan that fits keeps the invariant.
 */
module LedgerInvariant {
  import opened Common
  import opened Sums
  import opened TransactionBalance
  import opened Ledger
  import opened Requests
  import InstallmentPlan

  // ---------------------------------------------------------------- what a plan needs

  ghost predicate PlainRow(s: Store, row: Row) {
    RowOk(s, row) && !row.entry.isInstallment && row.entry.installmentId.None?
  }

  ghost predicate CreditRow(s: Store, row: Row, instId: Id, inst: Installment) {
    var e := row.entry;
    && e.isInstallment && e.txType == Expense && e.toWalletId.None? && e.installmentId == Some(instId) && e.amount >= 0
    && inst.walletId == e.walletId && inst.userId == row.userId && Owns(s, row.userId, e.walletId)
  }

  /** The row read earlier is still the stored one, with the same grand total behind it. */
  ghost predicate StillCurrent(s: Store, rowId: Id, existing: Row, grandTotal: int) {
    rowId in s.rows ==> s.rows[rowId] == existing && grandTotal == GrandTotalOf(s, existing.entry)
  }

  ghost predicate IsRevisable(e: LedgerRow) {
    !e.isInstallment && (e.txType == Transfer ==> e.toWalletId.Some?)
  }

  ghost predicate Fits(s: Store, p: Plan) {
    match p
    case RecordRow(_, row) => PlainRow(s, row)
    case RecordCreditExpense(_, row, instId, inst) => CreditRow(s, row, instId, inst)
    case ReviseRow(rowId, existing, v) =>
      && IsRevisable(existing.entry)
      && (rowId in s.rows ==>
            && s.rows[rowId] == existing
            && PlainRow(s, Revised(existing, v))
            && v.effect == RegularInput(Revised(existing, v).entry))
    case RemoveRow(rowId, existing, grandTotal) => StillCurrent(s, rowId, existing, grandTotal)
    case PayTerm(_, row, _, _, _, _, _) => PlainRow(s, row)
    case CompleteReminder(_, row, _) => PlainRow(s, row)
    case OpenWallet(_, wallet) => wallet.balance == wallet.initialBalance
    case EditWallet(_, _) => true
    case CloseWallet(w) => NoTransferOf(s, w)
  }

  ghost predicate NoTransferOf(s: Store, w: Id) {
    forall k :: k in s.rows && s.rows[k].entry.txType == Transfer
      ==> s.rows[k].entry.walletId != w && s.rows[k].entry.toWalletId != Some(w)
  }

  // ---------------------------------------------------------------- effects agree

  /** What a regular row adds to a wallet at creation is what the audit counts for it. */
  lemma PlainEffect(s: Store, row: Row, w: Id)
    requires !row.entry.isInstallment && ComputeBalanceEffect(RegularInput(row.entry)).Some?
    ensures Net(ComputeBalanceEffect(RegularInput(row.entry)).value, w) == RowEffect(row.entry, GrandTotals(s), w)
    ensures ReverseBalanceEffect(RegularInput(row.entry)).Some?
    ensures Net(ReverseBalanceEffect(RegularInput(row.entry)).value, w) == -RowEffect(row.entry, GrandTotals(s), w)
  {
    ReversalIsExact(RegularInput(row.entry), w);
    EffectClosedForm(RegularInput(row.entry), w);
    EffectClosedForm(AuditInput(row.entry, GrandTotals(s)), w);
  }

  /** Deleting an installment row gives back the grand total the audit counts, not the monthly amount. */
  lemma InstallmentEffect(s: Store, e: LedgerRow, w: Id)
    requires e.isInstallment
    ensures var input := InstallmentInput(e, GrandTotalOf(s, e));
      && ReverseBalanceEffect(input).Some?
      && Net(ReverseBalanceEffect(input).value, w) == -RowEffect(e, GrandTotals(s), w)
  {
    var input := InstallmentInput(e, GrandTotalOf(s, e));
    ReversalIsExact(input, w);
    EffectClosedForm(input, w);
    EffectClosedForm(AuditInput(e, GrandTotals(s)), w);
  }

  // ---------------------------------------------------------------- drift of each transaction

  lemma RecordDrift(s: Store, rowId: Id, row: Row, w: Id)
    requires CommitRecord(s, rowId, row).Ok? && !row.entry.isInstallment && w in s.wallets
    ensures w in CommitRecord(s, rowId, row).value.wallets
    ensures Drift(CommitRecord(s, rowId, row).value, w) == Drift(s, w)
  {
    var s1 := InsertRow(s, rowId, row).value;
    DriftOfInsertRow(s, rowId, row, w);
    PlainEffect(s, row, w);
    DriftOfIncrement(s1, ComputeBalanceEffect(RegularInput(row.entry)).value, w);
  }

  lemma CreditExpenseDrift(s: Store, rowId: Id, row: Row, instId: Id, inst: Installment, w: Id)
    requires CommitCreditExpense(s, rowId, row, instId, inst).Ok? && CreditRow(s, row, instId, inst)
    requires Unlinked(s, instId) && w in s.wallets
    ensures w in CommitCreditExpense(s, rowId, row, instId, inst).value.wallets
    ensures Drift(CommitCreditExpense(s, rowId, row, instId, inst).value, w) == Drift(s, w)
  {
    var s1 := InsertInstallment(s, instId, inst).value;
    var s2 := InsertRow(s1, rowId, row).value;
    DriftOfInsertInstallment(s, instId, inst, w);
    DriftOfInsertRow(s1, rowId, row, w);
    DriftOfIncrement(s2, [Delta(row.entry.walletId, -inst.grandTotal)], w);
    CreditRowEffect(row.entry, GrandTotals(s1), instId, inst.grandTotal, w);
  }

  /** The audit counts a credit row at its installment's grand total, which is what the purchase charges. */
  lemma CreditRowEffect(e: LedgerRow, grandTotals: map<Id, int>, instId: Id, grandTotal: int, w: Id)
    requires e.isInstallment && e.installmentId == Some(instId) && instId in grandTotals && grandTotals[instId] == grandTotal
    ensures RowEffect(e, grandTotals, w) == Net([Delta(e.walletId, -grandTotal)], w)
  {
    NetOfOne(Delta(e.walletId, -grandTotal), w);
    EffectClosedForm(AuditInput(e, grandTotals), w);
  }

  /**
   * An update reverses the row it read and applies the effect it planned; the audit sees the row
   * change from what is stored to its revision. Any disagreement between the two is drift.
   */
  lemma ReviseDrift(s: Store, rowId: Id, existing: Row, v: Revision, w: Id)
    requires CommitRevise(s, rowId, existing, v).Ok? && w in s.wallets
    requires !existing.entry.isInstallment && !v.effect.isInstallment
    ensures rowId in s.rows && w in CommitRevise(s, rowId, existing, v).value.wallets
    ensures Drift(CommitRevise(s, rowId, existing, v).value, w) == Drift(s, w)
      + (Effect(v.effect, w) - RowEffect(existing.entry, GrandTotals(s), w))
      - (RowEffect(Revised(s.rows[rowId], v).entry, GrandTotals(s), w) - RowEffect(s.rows[rowId].entry, GrandTotals(s), w))
  {
    var back := ReverseBalanceEffect(RegularInput(existing.entry)).value;
    var s1 := Increment(s, back).value;
    PlainEffect(s, existing, w);
    DriftOfIncrement(s, back, w);
    var s2 := ReplaceRow(s1, rowId, Revised(s.rows[rowId], v)).value;
    assert GrandTotals(s1) == GrandTotals(s);
    DriftOfReplaceRow(s1, rowId, Revised(s.rows[rowId], v), w);
    ReversalIsExact(v.effect, w);
    DriftOfIncrement(s2, ComputeBalanceEffect(v.effect).value, w);
  }

  lemma RemoveDrift(s: Store, rowId: Id, existing: Row, grandTotal: int, w: Id)
    requires CommitRemove(s, rowId, existing, grandTotal).Ok? && Intact(s) && w in s.wallets
    requires StillCurrent(s, rowId, existing, grandTotal)
    ensures w in CommitRemove(s, rowId, existing, grandTotal).value.wallets
    ensures Drift(CommitRemove(s, rowId, existing, grandTotal).value, w) == Drift(s, w)
  {
    var e := existing.entry;
    var input := if e.isInstallment then InstallmentInput(e, grandTotal) else RegularInput(e);
    var s1 := Increment(s, ReverseBalanceEffect(input).value).value;
    var s2 := DeleteRow(s1, rowId).value;
    if e.isInstallment {
      InstallmentEffect(s, e, w);
    } else {
      PlainEffect(s, existing, w);
    }
    DriftOfIncrement(s, ReverseBalanceEffect(input).value, w);
    assert GrandTotals(s1) == GrandTotals(s);
    DriftOfDeleteRow(s1, rowId, w);
    if e.isInstallment && e.installmentId.Some? {
      OnlyOneLink(s, s2, rowId);
      DriftOfDeleteInstallment(s2, e.installmentId.value, w);
    }
  }

  lemma OnlyOneLink(s: Store, s2: Store, rowId: Id)
    requires Intact(s) && rowId in s.rows && s.rows[rowId].entry.installmentId.Some?
    requires s2.rows == s.rows - {rowId}
    ensures Unlinked(s2, s.rows[rowId].entry.installmentId.value)
  {
    forall k | k in s2.rows ensures s2.rows[k].entry.installmentId != s.rows[rowId].entry.installmentId {
      assert SameLink(s.rows[rowId], s.rows[k]) ==> rowId == k;
    }
  }

  // ---------------------------------------------------------------- closing a wallet

  /** What is left of the ledger for the other wallets once `w` and its rows are gone. */
  ghost function LostRows(s: Store, w: Id): set<Id> {
    set k | k in s.rows && s.rows[k].entry.walletId == w
  }

  lemma SurvivingEffect(s: Store, w: Id, k: Id, v: Id)
    requires Intact(s) && w in s.wallets && v in s.wallets && v != w
    requires k in s.rows && s.rows[k].entry.walletId != w
    ensures var s' := Ledger.DeleteWallet(s, w).value;
      && k in s'.rows
      && RowEffect(s'.rows[k].entry, GrandTotals(s'), v) == RowEffect(s.rows[k].entry, GrandTotals(s), v)
  {
    var s' := Ledger.DeleteWallet(s, w).value;
    var row := s.rows[k];
    assert RowOk(s, row);
    EffectClosedForm(AuditInput(row.entry, GrandTotals(s)), v);
    EffectClosedForm(AuditInput(s'.rows[k].entry, GrandTotals(s')), v);
  }

  lemma SurvivingEffects(s: Store, w: Id, v: Id)
    requires Intact(s) && w in s.wallets && v in s.wallets && v != w
    ensures EffectsOn(Ledger.DeleteWallet(s, w).value, v) == EffectsOn(s, v) - LostRows(s, w)
  {
    var effects := EffectsOn(Ledger.DeleteWallet(s, w).value, v);
    forall k ensures k in effects <==> k in EffectsOn(s, v) - LostRows(s, w) {
    }
    forall k | k in effects ensures effects[k] == EffectsOn(s, v)[k] {
      SurvivingEffect(s, w, k, v);
    }
  }

  /** The drift that deleting a wallet leaves on another one: the effects of the rows that vanish. */
  lemma CloseDrift(s: Store, w: Id, v: Id)
    requires Intact(s) && w in s.wallets && v in s.wallets && v != w
    ensures var s' := Ledger.DeleteWallet(s, w).value;
      && v in s'.wallets
      && Drift(s', v) == Drift(s, v) + Total(EffectsOn(s, v)) - Total(EffectsOn(s, v) - LostRows(s, w))
  {
    SurvivingEffects(s, w, v);
  }

  lemma LostEffect(s: Store, w: Id, k: Id, v: Id)
    requires k in LostRows(s, w) && v != w
    ensures EffectsOn(s, v)[k] ==
      if s.rows[k].entry.txType == Transfer && !s.rows[k].entry.isInstallment && s.rows[k].entry.toWalletId == Some(v)
      then s.rows[k].entry.amount else 0
  {
    EffectClosedForm(AuditInput(s.rows[k].entry, GrandTotals(s)), v);
  }

  lemma CloseKeepsDrift(s: Store, w: Id, v: Id)
    requires Intact(s) && NoTransferOf(s, w) && w in s.wallets && v in s.wallets && v != w
    ensures v in Ledger.DeleteWallet(s, w).value.wallets
    ensures Drift(Ledger.DeleteWallet(s, w).value, v) == Drift(s, v)
  {
    CloseDrift(s, w, v);
    forall k | k in LostRows(s, w) ensures EffectsOn(s, v)[k] == 0 {
      LostEffect(s, w, k, v);
    }
    TotalDropZeros(EffectsOn(s, v), LostRows(s, w));
  }

  // ---------------------------------------------------------------- references stay intact

  ghost predicate KeepsOwners(s: Store, s': Store) {
    forall w :: w in s.wallets ==> w in s'.wallets && s'.wallets[w].userId == s.wallets[w].userId
  }

  ghost predicate KeepsLinks(s: Store, s': Store) {
    forall i :: i in s.installments ==>
      i in s'.installments && s'.installments[i].walletId == s.installments[i].walletId && s'.installments[i].userId == s.installments[i].userId
  }

  lemma RowOkGrows(s: Store, s': Store, row: Row)
    requires KeepsOwners(s, s') && KeepsLinks(s, s') && RowOk(s, row)
    ensures RowOk(s', row)
  {
  }

  /** Tables with the same rows, owners and links are equally intact. */
  lemma IntactFrame(s: Store, s': Store)
    requires Intact(s) && s'.rows == s.rows && KeepsOwners(s, s') && KeepsLinks(s, s')
    requires s'.installments.Keys == s.installments.Keys && s'.templates == s.templates
    ensures Intact(s')
  {
    forall k | k in s'.rows ensures RowOk(s', s'.rows[k]) {
      RowOkGrows(s, s', s.rows[k]);
    }
    forall i | i in s'.installments ensures Owns(s', s'.installments[i].userId, s'.installments[i].walletId) {
      assert i in s.installments;
    }
  }

  lemma IntactSetRow(s: Store, id: Id, row: Row)
    requires Intact(s) && RowOk(s, row)
    requires row.entry.installmentId.Some? ==> Unlinked(s, row.entry.installmentId.value)
    ensures Intact(s.(rows := s.rows[id := row]))
  {
    var s' := s.(rows := s.rows[id := row]);
    forall k | k in s'.rows ensures RowOk(s', s'.rows[k]) {
      RowOkGrows(s, s', s'.rows[k]);
    }
    forall j, k | j in s'.rows && k in s'.rows && SameLink(s'.rows[j], s'.rows[k]) ensures j == k {
      if j != id && k != id {
        assert SameLink(s.rows[j], s.rows[k]);
      }
    }
  }

  lemma IntactRecord(s: Store, rowId: Id, row: Row)
    requires Intact(s) && PlainRow(s, row) && CommitRecord(s, rowId, row).Ok?
    ensures Intact(CommitRecord(s, rowId, row).value)
  {
    IntactSetRow(s, rowId, row);
    IntactFrame(InsertRow(s, rowId, row).value, CommitRecord(s, rowId, row).value);
  }

  lemma NewInstallmentUnlinked(s: Store, i: Id)
    requires Intact(s) && i !in s.installments
    ensures Unlinked(s, i)
  {
    forall k | k in s.rows ensures s.rows[k].entry.installmentId != Some(i) {
      assert RowOk(s, s.rows[k]);
    }
  }

  lemma IntactInsertInstallment(s: Store, id: Id, inst: Installment)
    requires Intact(s) && InsertInstallment(s, id, inst).Ok? && Owns(s, inst.userId, inst.walletId)
    ensures Intact(InsertInstallment(s, id, inst).value)
  {
    var s' := InsertInstallment(s, id, inst).value;
    forall k | k in s'.rows ensures RowOk(s', s'.rows[k]) {
      RowOkGrows(s, s', s.rows[k]);
    }
  }

  lemma IntactCreditExpense(s: Store, rowId: Id, row: Row, instId: Id, inst: Installment)
    requires Intact(s) && CreditRow(s, row, instId, inst) && CommitCreditExpense(s, rowId, row, instId, inst).Ok?
    ensures Intact(CommitCreditExpense(s, rowId, row, instId, inst).value)
  {
    var s1 := InsertInstallment(s, instId, inst).value;
    IntactInsertInstallment(s, instId, inst);
    NewInstallmentUnlinked(s, instId);
    IntactSetRow(s1, rowId, row);
    IntactFrame(InsertRow(s1, rowId, row).value, CommitCreditExpense(s, rowId, row, instId, inst).value);
  }

  lemma IntactRevise(s: Store, rowId: Id, existing: Row, v: Revision)
    requires Intact(s) && Fits(s, ReviseRow(rowId, existing, v)) && CommitRevise(s, rowId, existing, v).Ok?
    ensures Intact(CommitRevise(s, rowId, existing, v).value)
  {
    var s1 := Increment(s, ReverseBalanceEffect(RegularInput(existing.entry)).value).value;
    IntactFrame(s, s1);
    RowOkGrows(s, s1, Revised(existing, v));
    IntactSetRow(s1, rowId, Revised(existing, v));
    IntactFrame(s1.(rows := s1.rows[rowId := Revised(existing, v)]), CommitRevise(s, rowId, existing, v).value);
  }

  lemma IntactDeleteRow(s: Store, id: Id)
    requires Intact(s) && DeleteRow(s, id).Ok?
    ensures Intact(DeleteRow(s, id).value)
  {
    var s' := DeleteRow(s, id).value;
    forall k | k in s'.rows ensures RowOk(s', s'.rows[k]) {
      RowOkGrows(s, s', s.rows[k]);
    }
  }

  lemma IntactDeleteInstallment(s: Store, id: Id)
    requires Intact(s) && DeleteInstallment(s, id).Ok? && Unlinked(s, id)
    ensures Intact(DeleteInstallment(s, id).value)
  {
    var s' := DeleteInstallment(s, id).value;
    assert s'.rows == s.rows;
    forall k | k in s'.rows ensures RowOk(s', s'.rows[k]) {
      assert RowOk(s, s.rows[k]);
    }
  }

  lemma IntactRemove(s: Store, rowId: Id, existing: Row, grandTotal: int)
    requires Intact(s) && StillCurrent(s, rowId, existing, grandTotal) && CommitRemove(s, rowId, existing, grandTotal).Ok?
    ensures Intact(CommitRemove(s, rowId, existing, grandTotal).value)
  {
    var e := existing.entry;
    var input := if e.isInstallment then InstallmentInput(e, grandTotal) else RegularInput(e);
    var s1 := Increment(s, ReverseBalanceEffect(input).value).value;
    IntactFrame(s, s1);
    IntactDeleteRow(s1, rowId);
    if e.isInstallment && e.installmentId.Some? {
      var s2 := DeleteRow(s1, rowId).value;
      OnlyOneLink(s, s2, rowId);
      IntactDeleteInstallment(s2, e.installmentId.value);
    }
  }

  lemma IntactPay(s: Store, p: Plan)
    requires p.PayTerm? && Intact(s) && PlainRow(s, p.row) && CommitPay(s, p).Ok?
    ensures Intact(CommitPay(s, p).value)
  {
    IntactRecord(s, p.rowId, p.row);
    IntactFrame(CommitRecord(s, p.rowId, p.row).value, CommitPay(s, p).value);
  }

  lemma IntactComplete(s: Store, rowId: Id, row: Row, eventId: Id)
    requires Intact(s) && PlainRow(s, row) && CommitComplete(s, rowId, row, eventId).Ok?
    ensures Intact(CommitComplete(s, rowId, row, eventId).value)
  {
    IntactRecord(s, rowId, row);
    IntactFrame(CommitRecord(s, rowId, row).value, CommitComplete(s, rowId, row, eventId).value);
  }

  lemma IntactClose(s: Store, w: Id)
    requires Intact(s) && w in s.wallets
    ensures Intact(Ledger.DeleteWallet(s, w).value)
  {
    var s' := Ledger.DeleteWallet(s, w).value;
    forall k | k in s'.rows ensures RowOk(s', s'.rows[k]) {
      assert RowOk(s, s.rows[k]);
    }
    forall j, k | j in s'.rows && k in s'.rows && SameLink(s'.rows[j], s'.rows[k]) ensures j == k {
      assert SameLink(s.rows[j], s.rows[k]);
    }
  }

  lemma CommitKeepsIntact(s: Store, p: Plan)
    requires Intact(s) && Fits(s, p) && Commit(s, p).Ok?
    ensures Intact(Commit(s, p).value)
  {
    match p
    case RecordRow(rowId, row) => IntactRecord(s, rowId, row);
    case RecordCreditExpense(rowId, row, instId, inst) => IntactCreditExpense(s, rowId, row, instId, inst);
    case ReviseRow(rowId, existing, v) => IntactRevise(s, rowId, existing, v);
    case RemoveRow(rowId, existing, grandTotal) => IntactRemove(s, rowId, existing, grandTotal);
    case PayTerm(_, _, _, _, _, _, _) => IntactPay(s, p);
    case CompleteReminder(rowId, row, eventId) => IntactComplete(s, rowId, row, eventId);
    case OpenWallet(w, wallet) => IntactOpen(s, w, wallet);
    case EditWallet(_, _) => IntactFrame(s, Commit(s, p).value);
    case CloseWallet(w) => IntactClose(s, w);
  }

  lemma IntactOpen(s: Store, w: Id, wallet: Wallet)
    requires Intact(s) && InsertWallet(s, w, wallet).Ok?
    ensures Intact(InsertWallet(s, w, wallet).value)
  {
    IntactFrame(s, InsertWallet(s, w, wallet).value);
  }

  // ---------------------------------------------------------------- one commit

  lemma PayDrift(s: Store, p: Plan, w: Id)
    requires p.PayTerm? && PlainRow(s, p.row) && CommitPay(s, p).Ok? && w in s.wallets
    ensures w in CommitPay(s, p).value.wallets && Drift(CommitPay(s, p).value, w) == Drift(s, w)
  {
    RecordDrift(s, p.rowId, p.row, w);
    DriftOfUpdateTerms(CommitRecord(s, p.rowId, p.row).value, p.instId, p.currentTerm, p.paidTerms, p.due, p.status, w);
  }

  lemma CompleteDrift(s: Store, rowId: Id, row: Row, eventId: Id, w: Id)
    requires PlainRow(s, row) && CommitComplete(s, rowId, row, eventId).Ok? && w in s.wallets
    ensures w in CommitComplete(s, rowId, row, eventId).value.wallets
    ensures Drift(CommitComplete(s, rowId, row, eventId).value, w) == Drift(s, w)
  {
    RecordDrift(s, rowId, row, w);
    DriftFrame(CommitRecord(s, rowId, row).value, CommitComplete(s, rowId, row, eventId).value, w);
  }

  lemma ReviseKeepsDrift(s: Store, rowId: Id, existing: Row, v: Revision, w: Id)
    requires Fits(s, ReviseRow(rowId, existing, v)) && CommitRevise(s, rowId, existing, v).Ok? && w in s.wallets
    requires !v.effect.isInstallment
    ensures w in CommitRevise(s, rowId, existing, v).value.wallets
    ensures Drift(CommitRevise(s, rowId, existing, v).value, w) == Drift(s, w)
  {
    ReviseDrift(s, rowId, existing, v, w);
    PlainEffectOf(s, Revised(existing, v), w);
  }

  lemma PlainEffectOf(s: Store, row: Row, w: Id)
    requires !row.entry.isInstallment
    ensures Effect(RegularInput(row.entry), w) == RowEffect(row.entry, GrandTotals(s), w)
  {
    EffectClosedForm(RegularInput(row.entry), w);
    EffectClosedForm(AuditInput(row.entry, GrandTotals(s)), w);
  }

  lemma EditKeepsDrift(s: Store, w: Id, r: WalletEdit, v: Id)
    requires Commit(s, EditWallet(w, r)).Ok? && v in s.wallets
    ensures v in Commit(s, EditWallet(w, r)).value.wallets
    ensures Drift(Commit(s, EditWallet(w, r)).value, v) == Drift(s, v)
  {
    assert EffectsOn(Commit(s, EditWallet(w, r)).value, v) == EffectsOn(s, v);
  }

  /** The wallets after a commit: those before it, one opened, or one closed. */
  lemma WalletsAfter(s: Store, p: Plan)
    requires Commit(s, p).Ok?
    ensures var s' := Commit(s, p).value;
      s'.wallets.Keys == match p
        case OpenWallet(w, _) => s.wallets.Keys + {w}
        case CloseWallet(w) => s.wallets.Keys - {w}
        case _ => s.wallets.Keys
  {
    match p
    case RecordRow(rowId, row) => WalletsAfterRecord(s, rowId, row);
    case PayTerm(rowId, row, _, _, _, _, _) => WalletsAfterRecord(s, rowId, row);
    case CompleteReminder(rowId, row, _) => WalletsAfterRecord(s, rowId, row);
    case ReviseRow(rowId, existing, v) => WalletsAfterRevise(s, rowId, existing, v);
    case RemoveRow(rowId, existing, grandTotal) => WalletsAfterRemove(s, rowId, existing, grandTotal);
    case _ =>
  }

  lemma WalletsAfterRecord(s: Store, rowId: Id, row: Row)
    requires CommitRecord(s, rowId, row).Ok?
    ensures CommitRecord(s, rowId, row).value.wallets.Keys == s.wallets.Keys
  {
  }

  lemma WalletsAfterRevise(s: Store, rowId: Id, existing: Row, v: Revision)
    requires CommitRevise(s, rowId, existing, v).Ok?
    ensures CommitRevise(s, rowId, existing, v).value.wallets.Keys == s.wallets.Keys
  {
  }

  lemma WalletsAfterRemove(s: Store, rowId: Id, existing: Row, grandTotal: int)
    requires CommitRemove(s, rowId, existing, grandTotal).Ok?
    ensures CommitRemove(s, rowId, existing, grandTotal).value.wallets.Keys == s.wallets.Keys
  {
  }

  lemma CommitKeepsDrift(s: Store, p: Plan, w: Id)
    requires Intact(s) && Fits(s, p) && Commit(s, p).Ok? && w in s.wallets && w in Commit(s, p).value.wallets
    ensures Drift(Commit(s, p).value, w) == Drift(s, w)
  {
    match p
    case RecordRow(rowId, row) => RecordDrift(s, rowId, row, w);
    case RecordCreditExpense(rowId, row, instId, inst) =>
      NewInstallmentUnlinked(s, instId);
      CreditExpenseDrift(s, rowId, row, instId, inst, w);
    case ReviseRow(rowId, existing, v) => ReviseKeepsDrift(s, rowId, existing, v, w);
    case RemoveRow(rowId, existing, grandTotal) => RemoveDrift(s, rowId, existing, grandTotal, w);
    case PayTerm(_, _, _, _, _, _, _) => PayDrift(s, p, w);
    case CompleteReminder(rowId, row, eventId) => CompleteDrift(s, rowId, row, eventId, w);
    case OpenWallet(v, wallet) => DriftOfInsertWallet(s, v, wallet, w);
    case EditWallet(v, r) => EditKeepsDrift(s, v, r, w);
    case CloseWallet(v) => CloseKeepsDrift(s, v, w);
  }

  /** A committed plan that fits the tables keeps every wallet reconciled. */
  lemma CommitKeepsValid(s: Store, p: Plan)
    requires Valid(s) && Fits(s, p) && Commit(s, p).Ok?
    ensures Valid(Commit(s, p).value)
  {
    var s' := Commit(s, p).value;
    CommitKeepsIntact(s, p);
    WalletsAfter(s, p);
    forall w | w in s'.wallets ensures Drift(s', w) == 0 {
      if w in s.wallets {
        CommitKeepsDrift(s, p, w);
      } else {
        DriftOfInsertWallet(s, p.walletId, p.wallet, w);
      }
    }
  }

  // ---------------------------------------------------------------- validation establishes the fit

  lemma PrepareUpdateFits(s: Store, r: UpdateInput)
    requires Intact(s) && PrepareUpdate(s, r).Ok?
    ensures Fits(s, PrepareUpdate(s, r).value)
  {
    assert RowOk(s, s.rows[r.rowId]);
  }

  lemma PrepareDeleteFits(s: Store, userId: Id, rowId: Id)
    requires PrepareDelete(s, userId, rowId).Ok?
    ensures Fits(s, PrepareDelete(s, userId, rowId).value)
  {
  }

  /** The gate looks only at the caller's rows; ownership makes those all the rows there are. */
  lemma PrepareCloseFits(s: Store, userId: Id, w: Id, force: bool)
    requires Intact(s) && PrepareClose(s, userId, w, force).Ok?
    ensures Fits(s, PrepareClose(s, userId, w, force).value)
  {
    forall k | k in s.rows && s.rows[k].entry.txType == Transfer
      ensures s.rows[k].entry.walletId != w && s.rows[k].entry.toWalletId != Some(w)
    {
      assert RowOk(s, s.rows[k]);
      assert !IsTransferOf(s, userId, w, k);
    }
  }

  lemma PreparePayFits(s: Store, r: PayInput, newRow: Id)
    requires Intact(s) && PreparePay(s, r, newRow).Ok?
    ensures Fits(s, PreparePay(s, r, newRow).value)
  {
  }

  lemma PrepareCreateFits(s: Store, r: CreateInput, newRow: Id, newInstallment: Id)
    requires PrepareCreate(s, r, newRow, newInstallment).Ok?
    ensures Fits(s, PrepareCreate(s, r, newRow, newInstallment).value)
  {
    if PrepareCreate(s, r, newRow, newInstallment).value.RecordCreditExpense? {
      var mode := if r.billingMode.Some? then r.billingMode.value else if r.isInstallment then InstallmentBill else FullBill;
      var months := if mode == FullBill then 1 else r.installmentMonths.value;
      var rate := if mode == InstallmentBill && r.interestRate.Some? then r.interestRate.value else 0.0;
      InstallmentPlan.PlanIsDefined(r.amount.value, rate, months);
    }
  }

  lemma PrepareFits(s: Store, q: Request)
    requires Intact(s) && Prepare(s, q).Ok?
    ensures Fits(s, Prepare(s, q).value)
  {
    match q
    case CreateTransaction(r, newRow, newInstallment) => PrepareCreateFits(s, r, newRow, newInstallment);
    case UpdateTransaction(r) => PrepareUpdateFits(s, r);
    case DeleteTransaction(userId, rowId) => PrepareDeleteFits(s, userId, rowId);
    case DeleteWallet(userId, w, force) => PrepareCloseFits(s, userId, w, force);
    case PayInstallment(r, newRow) => PreparePayFits(s, r, newRow);
    case _ =>
  }

  /** One serialized request keeps the ledger reconciled; a refused one changes nothing. */
  function After(s: Store, q: Request): Store {
    if Serve(s, q).Ok? then Serve(s, q).value else s
  }

  lemma ServeKeepsValid(s: Store, q: Request)
    requires Valid(s)
    ensures Valid(After(s, q))
  {
    if Serve(s, q).Ok? {
      PrepareFits(s, q);
      CommitKeepsValid(s, Prepare(s, q).value);
    }
  }

  function Run(s: Store, requests: seq<Request>): Store {
    if requests == [] then s else After(Run(s, requests[..|requests| - 1]), requests[|requests| - 1])
  }

  /** Zero drift over every serialized run, from any valid start: in particular from empty tables. */
  lemma {:induction false} RunKeepsValid(s: Store, requests: seq<Request>)
    requires Valid(s)
    ensures Valid(Run(s, requests))
  {
    if requests != [] {
      var n := |requests| - 1;
      RunKeepsValid(s, requests[..n]);
      ServeKeepsValid(Run(s, requests[..n]), requests[n]);
    }
  }

  // ---------------------------------------------------------------- the audit agrees

  /** `order` lists every member of `keys` once. */
  ghost predicate Lists(order: seq<Id>, keys: set<Id>) {
    && (forall k :: k in keys <==> k in order)
    && (forall i, j :: 0 <= i < j < |order| ==> order[i] != order[j])
  }

  function Entries(order: seq<Id>, rows: map<Id, Row>): (entries: seq<LedgerRow>)
    requires forall k :: k in order ==> k in rows
    ensures |entries| == |order|
    ensures forall i :: 0 <= i < |order| ==> entries[i] == rows[order[i]].entry
  {
    seq(|order|, i requires 0 <= i < |order| => rows[order[i]].entry)
  }

  lemma ListsPrefix(order: seq<Id>, keys: set<Id>)
    requires order != [] && Lists(order, keys)
    ensures order[|order| - 1] in keys && Lists(order[..|order| - 1], keys - {order[|order| - 1]})
  {
    var n := |order| - 1;
    assert order == order[..n] + [order[n]];
  }

  lemma EntriesStep(order: seq<Id>, s: Store, w: Id)
    requires order != [] && forall k :: k in order ==> k in s.rows
    ensures var n := |order| - 1;
      SumEffects(Entries(order, s.rows), GrandTotals(s), w)
      == SumEffects(Entries(order[..n], s.rows), GrandTotals(s), w) + RowEffect(s.rows[order[n]].entry, GrandTotals(s), w)
  {
    var n, entries := |order| - 1, Entries(order, s.rows);
    assert entries[..n] == Entries(order[..n], s.rows) && entries[..n + 1] == entries;
    SumEffectsStep(entries, n, GrandTotals(s), w);
  }

  /** Summing listed rows one by one gives the total of their effects. */
  lemma {:induction false} ListedSum(order: seq<Id>, s: Store, effects: map<Id, int>, w: Id)
    requires Lists(order, effects.Keys) && effects.Keys <= s.rows.Keys
    requires forall k :: k in effects ==> effects[k] == RowEffect(s.rows[k].entry, GrandTotals(s), w)
    ensures forall k :: k in order ==> k in s.rows
    ensures SumEffects(Entries(order, s.rows), GrandTotals(s), w) == Total(effects)
    decreases |order|
  {
    if order == [] {
      assert effects == map[];
    } else {
      var n := |order| - 1;
      ListsPrefix(order, effects.Keys);
      assert (effects - {order[n]}).Keys == effects.Keys - {order[n]};
      ListedSum(order[..n], s, effects - {order[n]}, w);
      TotalRemove(effects, order[n]);
      EntriesStep(order, s, w);
    }
  }

  /**
   * The audit over any listing of a valid ledger, in any order, reports zero drift for every
   * wallet: its expected balance is the stored one.
   */
  lemma ValidLedgerAuditsClean(s: Store, order: seq<Id>, w: Id)
    requires Valid(s) && Lists(order, s.rows.Keys) && w in s.wallets
    ensures forall k :: k in order ==> k in s.rows
    ensures s.wallets[w].balance == s.wallets[w].initialBalance + SumEffects(Entries(order, s.rows), GrandTotals(s), w)
  {
    assert Drift(s, w) == 0;
    ListedSum(order, s, EffectsOn(s, w), w);
  }
}
