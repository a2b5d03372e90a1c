/**
 * The two requests that do not interleave freely. An update reverses the row it read before its
 * transaction, and a wallet deletion counts transfers before deleting: each has a run that leaves
 * drift behind, and an exact condition under which its commit is clean.
 */
module LedgerRaces {
  import opened Common
  import opened Sums
  import opened BillingCycle
  import opened TransactionBalance
  import opened Ledger
  import opened Requests
  import opened LedgerInvariant

  // ---------------------------------------------------------------- updates

  /** What the update will move on `w`: from the row it read to the row it plans. */
  function PlannedMove(existing: Row, v: Revision, w: Id): int {
    Effect(v.effect, w) - Effect(RegularInput(existing.entry), w)
  }

  /** What the audit will see move: from the row as stored to that row with the written fields. */
  function AuditedMove(stored: Row, v: Revision, grandTotals: map<Id, int>, w: Id): int {
    RowEffect(Revised(stored, v).entry, grandTotals, w) - RowEffect(stored.entry, grandTotals, w)
  }

  lemma RevisedRowIsStored(s: Store, rowId: Id, existing: Row, v: Revision)
    requires CommitRevise(s, rowId, existing, v).Ok?
    ensures rowId in s.rows && CommitRevise(s, rowId, existing, v).value.wallets.Keys == s.wallets.Keys
  {
    WalletsAfter(s, ReviseRow(rowId, existing, v));
  }

  /** The drift an update leaves on one reconciled wallet: what it planned beyond what the audit sees. */
  lemma UpdateDrift(s: Store, rowId: Id, existing: Row, v: Revision, w: Id)
    requires CommitRevise(s, rowId, existing, v).Ok? && w in s.wallets && Drift(s, w) == 0
    requires !existing.entry.isInstallment && !v.effect.isInstallment
    ensures rowId in s.rows && w in CommitRevise(s, rowId, existing, v).value.wallets
    ensures Drift(CommitRevise(s, rowId, existing, v).value, w)
            == PlannedMove(existing, v, w) - AuditedMove(s.rows[rowId], v, GrandTotals(s), w)
  {
    ReviseDrift(s, rowId, existing, v, w);
    PlainEffectOf(s, existing, w);
  }

  /**
   * An update commits cleanly exactly when the row it read and the row now stored differ by nothing
   * that the update turns into money.
   */
  lemma UpdateCommitExact(s: Store, rowId: Id, existing: Row, v: Revision)
    requires Reconciled(s) && CommitRevise(s, rowId, existing, v).Ok?
    requires !existing.entry.isInstallment && !v.effect.isInstallment
    ensures rowId in s.rows
    ensures Reconciled(CommitRevise(s, rowId, existing, v).value)
      <==> forall w :: w in s.wallets ==> PlannedMove(existing, v, w) == AuditedMove(s.rows[rowId], v, GrandTotals(s), w)
  {
    var s' := CommitRevise(s, rowId, existing, v).value;
    RevisedRowIsStored(s, rowId, existing, v);
    forall w | w in s.wallets
      ensures Drift(s', w) == PlannedMove(existing, v, w) - AuditedMove(s.rows[rowId], v, GrandTotals(s), w)
    {
      UpdateDrift(s, rowId, existing, v, w);
    }
  }

  /** The revision an amount-only update carries for a row it read as `existing`. */
  function AmountRevision(existing: Row, amount: int): Revision {
    Revision(None, Some(amount), None, None, None, existing.entry.toWalletId, RegularInput(existing.entry.(amount := amount)))
  }

  /** Two edits of the amount: the second is clean exactly when the amount has not changed since it was read. */
  lemma AmountRaceExact(s: Store, rowId: Id, existing: Row, amount: int)
    requires Valid(s) && CommitRevise(s, rowId, existing, AmountRevision(existing, amount)).Ok?
    requires IsRevisable(existing.entry) && existing.entry.toWalletId != Some(existing.entry.walletId)
    requires rowId in s.rows && s.rows[rowId].entry == existing.entry.(amount := s.rows[rowId].entry.amount)
    ensures Reconciled(CommitRevise(s, rowId, existing, AmountRevision(existing, amount)).value)
      <==> s.rows[rowId].entry.amount == existing.entry.amount
  {
    UpdateCommitExact(s, rowId, existing, AmountRevision(existing, amount));
    assert existing.entry.walletId in s.wallets by {
      assert RowOk(s, s.rows[rowId]);
    }
    AmountMovesAgree(s.wallets.Keys, GrandTotals(s), s.rows[rowId], existing, amount);
  }

  lemma AmountMovesAgree(wallets: set<Id>, grandTotals: map<Id, int>, stored: Row, existing: Row, amount: int)
    requires !existing.entry.isInstallment && existing.entry.(amount := stored.entry.amount) == stored.entry
    requires existing.entry.walletId in wallets && existing.entry.toWalletId != Some(existing.entry.walletId)
    ensures var v := AmountRevision(existing, amount);
      (forall w :: w in wallets ==> PlannedMove(existing, v, w) == AuditedMove(stored, v, grandTotals, w))
      <==> stored.entry.amount == existing.entry.amount
  {
    forall w | w in wallets {
      AmountMoves(grandTotals, stored, existing, amount, w);
    }
    assert Sign(existing.entry, existing.entry.walletId) != 0;
  }

  lemma AmountMoves(grandTotals: map<Id, int>, stored: Row, existing: Row, amount: int, w: Id)
    requires !existing.entry.isInstallment && existing.entry.(amount := stored.entry.amount) == stored.entry
    ensures var v := AmountRevision(existing, amount);
      PlannedMove(existing, v, w) - AuditedMove(stored, v, grandTotals, w)
      == (stored.entry.amount - existing.entry.amount) * Sign(existing.entry, w)
  {
    var e, v := existing.entry, AmountRevision(existing, amount);
    EffectOfAmount(e, amount, w);
    EffectOfAmount(e, e.amount, w);
    EffectOfAmount(e, stored.entry.amount, w);
    assert Revised(stored, v).entry == e.(amount := amount);
    AuditedEffect(stored.entry, grandTotals, w);
    AuditedEffect(Revised(stored, v).entry, grandTotals, w);
    var sign := Sign(e, w);
    assert (amount - e.amount) * sign - (amount - stored.entry.amount) * sign == (stored.entry.amount - e.amount) * sign;
  }

  lemma AuditedEffect(e: LedgerRow, grandTotals: map<Id, int>, w: Id)
    requires !e.isInstallment
    ensures RowEffect(e, grandTotals, w) == Effect(RegularInput(e), w)
  {
    EffectClosedForm(RegularInput(e), w);
    EffectClosedForm(AuditInput(e, grandTotals), w);
  }

  /** Which way a regular row moves a wallet: in, out or not at all. */
  function Sign(e: LedgerRow, w: Id): int {
    (if w != e.walletId then 0 else if e.txType == Income then 1 else -1)
    + (if e.txType == Transfer && e.toWalletId == Some(w) then 1 else 0)
  }

  lemma EffectOfAmount(e: LedgerRow, a: int, w: Id)
    requires !e.isInstallment
    ensures Effect(RegularInput(e.(amount := a)), w) == a * Sign(e, w)
  {
    EffectClosedForm(RegularInput(e.(amount := a)), w);
  }

  // ---------------------------------------------------------------- which fields must be as read

  /** The fields of a regular row that decide how it moves money. */
  predicate SameMoney(a: LedgerRow, b: LedgerRow) {
    a.txType == b.txType && a.amount == b.amount && a.walletId == b.walletId && a.toWalletId == b.toWalletId
  }

  /** A regular row of some money, with a destination exactly if it is a transfer, and then another wallet. */
  predicate MovesMoney(e: LedgerRow) {
    && !e.isInstallment && e.installmentId.None? && e.amount > 0
    && (e.toWalletId.Some? <==> e.txType == Transfer) && e.toWalletId != Some(e.walletId)
  }

  /** What an update plans for the row it read: the revised row's own effect. */
  predicate PlannedFor(existing: Row, v: Revision) {
    v.effect == RegularInput(Revised(existing, v).entry)
  }

  /** An update accepted on some tables is such a plan. */
  lemma UpdatesArePlanned(s: Store, r: UpdateInput)
    requires PrepareUpdate(s, r).Ok?
    ensures PlannedFor(PrepareUpdate(s, r).value.existing, PrepareUpdate(s, r).value.revision)
  {
  }

  lemma MoveOf(existing: Row, v: Revision, w: Id)
    requires !existing.entry.isInstallment && PlannedFor(existing, v)
    ensures PlannedMove(existing, v, w) == Effect(RegularInput(Revised(existing, v).entry), w) - Effect(RegularInput(existing.entry), w)
  {
  }

  lemma StoredMoveOf(stored: Row, v: Revision, g: map<Id, int>, w: Id)
    requires !stored.entry.isInstallment
    ensures AuditedMove(stored, v, g, w) == Effect(RegularInput(Revised(stored, v).entry), w) - Effect(RegularInput(stored.entry), w)
  {
    AuditedEffect(stored.entry, g, w);
    AuditedEffect(Revised(stored, v).entry, g, w);
  }

  /** Whatever an update writes, it commits cleanly if the four money fields are as it read them. */
  lemma UnchangedMoneyIsClean(s: Store, rowId: Id, existing: Row, v: Revision)
    requires Reconciled(s) && CommitRevise(s, rowId, existing, v).Ok? && rowId in s.rows
    requires !existing.entry.isInstallment && !s.rows[rowId].entry.isInstallment && PlannedFor(existing, v)
    requires SameMoney(s.rows[rowId].entry, existing.entry)
    ensures Reconciled(CommitRevise(s, rowId, existing, v).value)
  {
    UpdateCommitExact(s, rowId, existing, v);
    forall w | w in s.wallets ensures PlannedMove(existing, v, w) == AuditedMove(s.rows[rowId], v, GrandTotals(s), w) {
      MoveOf(existing, v, w);
      StoredMoveOf(s.rows[rowId], v, GrandTotals(s), w);
    }
  }

  /** So an accepted update may commit on any later tables, as long as its row's money fields have not changed. */
  lemma AcceptedUpdateIsClean(read: Store, r: UpdateInput, s: Store)
    requires PrepareUpdate(read, r).Ok? && Reconciled(s) && Commit(s, PrepareUpdate(read, r).value).Ok? && r.rowId in s.rows
    requires !s.rows[r.rowId].entry.isInstallment && SameMoney(s.rows[r.rowId].entry, read.rows[r.rowId].entry)
    ensures Reconciled(Commit(s, PrepareUpdate(read, r).value).value)
  {
    var p := PrepareUpdate(read, r).value;
    UpdatesArePlanned(read, r);
    UnchangedMoneyIsClean(s, p.rowId, p.existing, p.revision);
  }

  /** Rows that move some money move it differently as soon as one of the four fields differs. */
  lemma EffectsTell(a: LedgerRow, b: LedgerRow, wallets: set<Id>)
    requires MovesMoney(a) && MovesMoney(b) && a.walletId in wallets && b.walletId in wallets
    requires (a.toWalletId.Some? ==> a.toWalletId.value in wallets) && (b.toWalletId.Some? ==> b.toWalletId.value in wallets)
    ensures (forall w :: w in wallets ==> Effect(RegularInput(a), w) == Effect(RegularInput(b), w)) <==> SameMoney(a, b)
  {
    forall w | w in wallets
      ensures Effect(RegularInput(a), w) == a.amount * Sign(a, w) && Effect(RegularInput(b), w) == b.amount * Sign(b, w)
    {
      EffectOfAmount(a, a.amount, w);
      EffectOfAmount(b, b.amount, w);
    }
    if forall w :: w in wallets ==> Effect(RegularInput(a), w) == Effect(RegularInput(b), w) {
      SignsTell(a, b, a.walletId);
      SignsTell(a, b, b.walletId);
      if a.toWalletId.Some? {
        SignsTell(a, b, a.toWalletId.value);
      }
      if b.toWalletId.Some? {
        SignsTell(a, b, b.toWalletId.value);
      }
    }
  }

  lemma SignsTell(a: LedgerRow, b: LedgerRow, w: Id)
    requires a.amount > 0 && b.amount > 0 && -1 <= Sign(a, w) <= 1 && -1 <= Sign(b, w) <= 1
    requires a.amount * Sign(a, w) == b.amount * Sign(b, w)
    ensures Sign(a, w) == Sign(b, w) && (Sign(a, w) != 0 ==> a.amount == b.amount)
  {
  }

  lemma WalletsNamed(s: Store, rowId: Id, existing: Row, v: Revision)
    requires Intact(s) && CommitRevise(s, rowId, existing, v).Ok? && MovesMoney(existing.entry)
    ensures rowId in s.rows && existing.entry.walletId in s.wallets
    ensures existing.entry.toWalletId.Some? ==> existing.entry.toWalletId.value in s.wallets
    ensures s.rows[rowId].entry.walletId in s.wallets
    ensures s.rows[rowId].entry.toWalletId.Some? ==> s.rows[rowId].entry.toWalletId.value in s.wallets
  {
    var e := existing.entry;
    var deltas := ComputeBalanceEffect(RegularInput(e)).value;
    var back := Negated(deltas);
    assert back[0] in back && back[0] == Delta(e.walletId, -deltas[0].amount);
    if e.toWalletId.Some? {
      assert back[1] in back && back[1] == Delta(e.toWalletId.value, -e.amount);
    }
    assert RowOk(s, s.rows[rowId]);
  }

  /** The revision of an update that writes type, amount and wallet. */
  predicate IsFullEdit(v: Revision) {
    v.txType.Some? && v.amount.Some? && v.walletId.Some?
  }

  lemma FullMove(g: map<Id, int>, stored: Row, existing: Row, v: Revision, w: Id)
    requires MovesMoney(existing.entry) && MovesMoney(stored.entry) && PlannedFor(existing, v) && IsFullEdit(v)
    ensures PlannedMove(existing, v, w) - AuditedMove(stored, v, g, w)
      == Effect(RegularInput(stored.entry), w) - Effect(RegularInput(existing.entry), w)
  {
    assert Revised(stored, v).entry == Revised(existing, v).entry;
    MoveOf(existing, v, w);
    StoredMoveOf(stored, v, g, w);
  }

  lemma FullMovesAgree(wallets: set<Id>, g: map<Id, int>, stored: Row, existing: Row, v: Revision)
    requires MovesMoney(existing.entry) && MovesMoney(stored.entry) && PlannedFor(existing, v) && IsFullEdit(v)
    requires stored.entry.walletId in wallets && existing.entry.walletId in wallets
    requires stored.entry.toWalletId.Some? ==> stored.entry.toWalletId.value in wallets
    requires existing.entry.toWalletId.Some? ==> existing.entry.toWalletId.value in wallets
    ensures (forall w :: w in wallets ==> PlannedMove(existing, v, w) == AuditedMove(stored, v, g, w))
      <==> SameMoney(stored.entry, existing.entry)
  {
    forall w | w in wallets {
      FullMove(g, stored, existing, v, w);
    }
    EffectsTell(stored.entry, existing.entry, wallets);
  }

  /** An update that writes type, amount and wallet is clean exactly when all four fields are as read. */
  lemma FullUpdateExact(s: Store, rowId: Id, existing: Row, v: Revision)
    requires Valid(s) && CommitRevise(s, rowId, existing, v).Ok? && rowId in s.rows
    requires MovesMoney(existing.entry) && MovesMoney(s.rows[rowId].entry) && PlannedFor(existing, v) && IsFullEdit(v)
    ensures Reconciled(CommitRevise(s, rowId, existing, v).value) <==> SameMoney(s.rows[rowId].entry, existing.entry)
  {
    UpdateCommitExact(s, rowId, existing, v);
    WalletsNamed(s, rowId, existing, v);
    FullMovesAgree(s.wallets.Keys, GrandTotals(s), s.rows[rowId], existing, v);
  }

  /** The revision of an update that writes none of type, amount, wallet and destination. */
  predicate IsTextEdit(existing: Row, v: Revision) {
    v.txType.None? && v.amount.None? && v.walletId.None? && v.toWalletId == existing.entry.toWalletId
  }

  /**
   * Even such an update writes the destination it read back: it is clean exactly when the stored
   * row has that destination still, whatever else about it has changed.
   */
  lemma TextEditExact(s: Store, rowId: Id, existing: Row, v: Revision)
    requires Valid(s) && CommitRevise(s, rowId, existing, v).Ok? && rowId in s.rows
    requires MovesMoney(existing.entry) && MovesMoney(s.rows[rowId].entry) && PlannedFor(existing, v) && IsTextEdit(existing, v)
    ensures Reconciled(CommitRevise(s, rowId, existing, v).value)
      <==> s.rows[rowId].entry.txType != Transfer || s.rows[rowId].entry.toWalletId == existing.entry.toWalletId
  {
    UpdateCommitExact(s, rowId, existing, v);
    WalletsNamed(s, rowId, existing, v);
    TextEditMovesAgree(s.wallets.Keys, GrandTotals(s), s.rows[rowId], existing, v);
  }

  lemma TextEditMove(g: map<Id, int>, stored: Row, existing: Row, v: Revision, w: Id)
    requires !existing.entry.isInstallment && !stored.entry.isInstallment && PlannedFor(existing, v) && IsTextEdit(existing, v)
    ensures PlannedMove(existing, v, w) - AuditedMove(stored, v, g, w)
      == Effect(RegularInput(stored.entry), w) - Effect(RegularInput(stored.entry.(toWalletId := existing.entry.toWalletId)), w)
  {
    assert Revised(existing, v).entry == existing.entry;
    assert Revised(stored, v).entry == stored.entry.(toWalletId := existing.entry.toWalletId);
    MoveOf(existing, v, w);
    StoredMoveOf(stored, v, g, w);
  }

  lemma TextEditMovesAgree(wallets: set<Id>, g: map<Id, int>, stored: Row, existing: Row, v: Revision)
    requires MovesMoney(stored.entry) && (stored.entry.toWalletId.Some? ==> stored.entry.toWalletId.value in wallets)
    requires MovesMoney(existing.entry) && PlannedFor(existing, v) && IsTextEdit(existing, v)
    ensures (forall w :: w in wallets ==> PlannedMove(existing, v, w) == AuditedMove(stored, v, g, w))
      <==> stored.entry.txType != Transfer || stored.entry.toWalletId == existing.entry.toWalletId
  {
    forall w | w in wallets {
      TextEditMove(g, stored, existing, v, w);
    }
    Redirected(stored.entry, existing.entry.toWalletId, wallets);
  }

  /** Changing where a row goes changes what it moves exactly if it is a transfer. */
  lemma Redirected(e: LedgerRow, to: Option<Id>, wallets: set<Id>)
    requires MovesMoney(e) && (e.toWalletId.Some? ==> e.toWalletId.value in wallets)
    ensures (forall w :: w in wallets ==> Effect(RegularInput(e), w) == Effect(RegularInput(e.(toWalletId := to)), w))
      <==> e.txType != Transfer || e.toWalletId == to
  {
    forall w | w in wallets
      ensures Effect(RegularInput(e), w) - Effect(RegularInput(e.(toWalletId := to)), w)
        == if e.txType != Transfer then 0 else (if e.toWalletId == Some(w) then e.amount else 0) - (if to == Some(w) then e.amount else 0)
    {
      EffectClosedForm(RegularInput(e), w);
      EffectClosedForm(RegularInput(e.(toWalletId := to)), w);
    }
  }

  // ---------------------------------------------------------------- wallet deletion

  /** A row of `w` that has credited some other stored wallet. */
  ghost predicate Credits(s: Store, w: Id, k: Id) {
    && k in s.rows && s.rows[k].entry.walletId == w && s.rows[k].entry.txType == Transfer
    && s.rows[k].entry.toWalletId.Some? && s.rows[k].entry.toWalletId != Some(w) && s.rows[k].entry.amount != 0
  }

  lemma LostValue(s: Store, w: Id, v: Id, k: Id)
    requires Intact(s) && k in LostRows(s, w) && v != w
    ensures EffectsOn(s, v)[k] >= 0
    ensures EffectsOn(s, v)[k] == 0 <==> !(Credits(s, w, k) && s.rows[k].entry.toWalletId == Some(v))
  {
    LostEffect(s, w, k, v);
    assert RowOk(s, s.rows[k]);
  }

  lemma LostTotal(s: Store, w: Id, v: Id)
    requires Valid(s) && w in s.wallets && v in s.wallets && v != w
    ensures v in Ledger.DeleteWallet(s, w).value.wallets
    ensures Drift(Ledger.DeleteWallet(s, w).value, v) == 0
      <==> forall k :: Credits(s, w, k) ==> s.rows[k].entry.toWalletId != Some(v)
  {
    assert Drift(s, v) == 0;
    CloseDrift(s, w, v);
    LostSum(s, w, v);
  }

  lemma LostSum(s: Store, w: Id, v: Id)
    requires Intact(s) && v != w
    ensures Total(EffectsOn(s, v)) == Total(EffectsOn(s, v) - LostRows(s, w))
      <==> forall k :: Credits(s, w, k) ==> s.rows[k].entry.toWalletId != Some(v)
  {
    forall k | k in LostRows(s, w)
      ensures EffectsOn(s, v)[k] >= 0 && (EffectsOn(s, v)[k] == 0 <==> !(Credits(s, w, k) && s.rows[k].entry.toWalletId == Some(v)))
    {
      LostValue(s, w, v, k);
    }
    DroppingIsNeutral(EffectsOn(s, v), LostRows(s, w));
  }

  /**
   * Deleting a wallet leaves every other wallet reconciled exactly when, at that moment, none of
   * its rows is a transfer that credited another wallet: what the gate checks, but too early.
   */
  lemma CloseCommitExact(s: Store, w: Id)
    requires Valid(s) && w in s.wallets
    ensures Reconciled(Ledger.DeleteWallet(s, w).value) <==> forall k :: !Credits(s, w, k)
  {
    var s' := Ledger.DeleteWallet(s, w).value;
    forall v | v in s'.wallets
      ensures Drift(s', v) == 0 <==> forall k :: Credits(s, w, k) ==> s.rows[k].entry.toWalletId != Some(v)
    {
      LostTotal(s, w, v);
    }
    forall k | Credits(s, w, k) ensures s.rows[k].entry.toWalletId.value in s'.wallets {
      assert RowOk(s, s.rows[k]);
    }
  }

  // ---------------------------------------------------------------- the runs that go wrong

  const DAY: CalendarDate := Date(2026, 1, 15)

  /** One cash wallet holding one income of 10. */
  const ONE_INCOME := Store(
    map[1 := Wallet(7, Cash, 10, 0, 0, None, None)],
    map[5 := Row(7, Some(3), DAY, LedgerRow(Income, 10, 1, None, false, None))],
    map[], map[], map[], map[3 := Category(7, Income)])

  function SetAmount(amount: int): Request {
    UpdateTransaction(UpdateInput(7, 5, None, Some(amount), None, None, None, None, false))
  }

  lemma OneIncomeIsValid()
    ensures Valid(ONE_INCOME)
  {
    var s := ONE_INCOME;
    EffectClosedForm(AuditInput(s.rows[5].entry, GrandTotals(s)), 1);
    TotalInsert(map[], 5, 10);
    assert EffectsOn(s, 1) == map[][5 := 10];
  }

  lemma SetAmountPrepares(amount: int)
    requires amount > 0
    ensures Prepare(ONE_INCOME, SetAmount(amount)) == Ok(ReviseRow(5, ONE_INCOME.rows[5], AmountRevision(ONE_INCOME.rows[5], amount)))
  {
  }

  /** Both updates read the row as it is and are accepted. */
  lemma BothUpdatesPrepare()
    ensures Prepare(ONE_INCOME, SetAmount(20)) == Ok(ReviseRow(5, ONE_INCOME.rows[5], AmountRevision(ONE_INCOME.rows[5], 20)))
    ensures Prepare(ONE_INCOME, SetAmount(30)) == Ok(ReviseRow(5, ONE_INCOME.rows[5], AmountRevision(ONE_INCOME.rows[5], 30)))
  {
    SetAmountPrepares(20);
    SetAmountPrepares(30);
  }

  /** Then both commit, one after the other: the balance keeps the reversal of the same row twice. */
  lemma ConcurrentUpdatesDrift(s: Store) returns (s1: Store, s2: Store)
    requires s == ONE_INCOME
    ensures Valid(s)
    ensures CommitRevise(s, 5, s.rows[5], AmountRevision(s.rows[5], 20)) == Ok(s1)
    ensures CommitRevise(s1, 5, s.rows[5], AmountRevision(s.rows[5], 30)) == Ok(s2)
    ensures !Reconciled(s2)
  {
    OneIncomeIsValid();
    s1 := FirstUpdateCommits(s);
    s2 := SecondUpdateCommits(s1, s.rows[5]);
  }

  predicate IsPlainIncome(e: LedgerRow) {
    e.txType == Income && e.installmentId.None? && !e.isInstallment && e.toWalletId.None?
  }

  lemma AmountEditIntact(s: Store, amount: int)
    requires Valid(s) && 5 in s.rows && amount > 0
    requires IsPlainIncome(s.rows[5].entry) && CommitRevise(s, 5, s.rows[5], AmountRevision(s.rows[5], amount)).Ok?
    ensures Intact(CommitRevise(s, 5, s.rows[5], AmountRevision(s.rows[5], amount)).value)
  {
    assert RowOk(s, s.rows[5]);
    IntactRevise(s, 5, s.rows[5], AmountRevision(s.rows[5], amount));
  }

  lemma AmountEditReconciles(s: Store, amount: int)
    requires Valid(s) && 5 in s.rows && amount > 0
    requires IsPlainIncome(s.rows[5].entry) && CommitRevise(s, 5, s.rows[5], AmountRevision(s.rows[5], amount)).Ok?
    ensures Reconciled(CommitRevise(s, 5, s.rows[5], AmountRevision(s.rows[5], amount)).value)
  {
    var v := AmountRevision(s.rows[5], amount);
    var s' := CommitRevise(s, 5, s.rows[5], v).value;
    assert RowOk(s, s.rows[5]);
    forall w | w in s'.wallets ensures Drift(s', w) == 0 {
      assert Drift(s, w) == 0;
      ReviseKeepsDrift(s, 5, s.rows[5], v, w);
    }
  }

  /** Editing the amount of an income row on stored wallets always goes through. */
  lemma AmountEditCommits(s: Store, existing: Row, amount: int)
    requires 5 in s.rows && IsPlainIncome(existing.entry)
    requires s.rows[5] == existing.(entry := existing.entry.(amount := s.rows[5].entry.amount))
    requires ReferencesExist(s, existing)
    ensures var r := CommitRevise(s, 5, existing, AmountRevision(existing, amount));
      && r.Ok? && r.value.rows == s.rows[5 := existing.(entry := existing.entry.(amount := amount))]
      && r.value.categories == s.categories && r.value.wallets.Keys == s.wallets.Keys
  {
    var v := AmountRevision(existing, amount);
    assert ReverseBalanceEffect(RegularInput(existing.entry)).Some?;
    assert forall d :: d in ReverseBalanceEffect(RegularInput(existing.entry)).value ==> d.walletId == existing.entry.walletId;
    assert Revised(s.rows[5], v) == existing.(entry := existing.entry.(amount := amount));
  }

  lemma FirstUpdateCommits(s: Store) returns (s': Store)
    requires Valid(s) && 5 in s.rows && IsPlainIncome(s.rows[5].entry) && ReferencesExist(s, s.rows[5])
    ensures CommitRevise(s, 5, s.rows[5], AmountRevision(s.rows[5], 20)) == Ok(s') && Valid(s')
    ensures 5 in s'.rows && s'.rows[5] == s.rows[5].(entry := s.rows[5].entry.(amount := 20)) && ReferencesExist(s', s.rows[5])
  {
    AmountEditCommits(s, s.rows[5], 20);
    AmountEditIntact(s, 20);
    AmountEditReconciles(s, 20);
    s' := CommitRevise(s, 5, s.rows[5], AmountRevision(s.rows[5], 20)).value;
  }

  lemma SecondUpdateCommits(s: Store, existing: Row) returns (s': Store)
    requires Valid(s) && 5 in s.rows && IsPlainIncome(existing.entry) && ReferencesExist(s, existing)
    requires s.rows[5] == existing.(entry := existing.entry.(amount := 20)) && existing.entry.amount == 10
    ensures CommitRevise(s, 5, existing, AmountRevision(existing, 30)) == Ok(s') && !Reconciled(s')
  {
    AmountEditCommits(s, existing, 30);
    AmountRaceExact(s, 5, existing, 30);
    s' := CommitRevise(s, 5, existing, AmountRevision(existing, 30)).value;
  }

  /** Two cash wallets, the first holding 10. */
  const TWO_WALLETS := Store(
    map[1 := Wallet(7, Cash, 10, 10, 0, None, None), 2 := Wallet(7, Cash, 0, 0, 0, None, None)],
    map[], map[], map[], map[], map[])

  function Move10(): Request {
    CreateTransaction(CreateInput(7, Some(Transfer), Some(10), Some(1), None, Some(2), None, Some(DAY), false, None, None, None, None), 5, 6)
  }

  lemma TwoWalletsAreValid()
    ensures Valid(TWO_WALLETS)
  {
    assert forall w :: EffectsOn(TWO_WALLETS, w) == map[];
  }

  /** On the same tables the gate lets the deletion through and the transfer is accepted. */
  lemma DeletionAndTransferBothPrepare()
    ensures Prepare(TWO_WALLETS, Requests.DeleteWallet(7, 1, true)) == Ok(CloseWallet(1))
    ensures Prepare(TWO_WALLETS, Move10()) == Ok(RecordRow(5, MOVED))
  {
    GateIsOpen();
    TransferPrepares();
  }

  /** The transfer commits before the deletion: the other wallet keeps money from nowhere. */
  lemma TransferDuringDeletionDrifts(s: Store) returns (s1: Store, s2: Store)
    requires s == TWO_WALLETS
    ensures Valid(s)
    ensures CommitRecord(s, 5, MOVED) == Ok(s1)
    ensures Ledger.DeleteWallet(s1, 1) == Ok(s2) && 2 in s2.wallets && Drift(s2, 2) != 0
  {
    TwoWalletsAreValid();
    s1 := PlainRecordCommits(s, 5, MOVED);
    assert Credits(s1, 1, 5);
    CloseAfterTransfer(s1, 1, 5, 2);
    s2 := Ledger.DeleteWallet(s1, 1).value;
  }

  lemma CloseAfterTransfer(s: Store, w: Id, k: Id, v: Id)
    requires Valid(s) && w in s.wallets && v in s.wallets && Credits(s, w, k) && s.rows[k].entry.toWalletId == Some(v)
    ensures v in Ledger.DeleteWallet(s, w).value.wallets && Drift(Ledger.DeleteWallet(s, w).value, v) != 0
  {
    LostTotal(s, w, v);
  }

  const MOVED := Row(7, None, DAY, LedgerRow(Transfer, 10, 1, Some(2), false, None))

  lemma TransferPrepares()
    ensures Prepare(TWO_WALLETS, Move10()) == Ok(RecordRow(5, MOVED))
  {
  }

  lemma GateIsOpen()
    ensures Prepare(TWO_WALLETS, Requests.DeleteWallet(7, 1, true)) == Ok(CloseWallet(1))
  {
    assert forall k :: !IsTransferOf(TWO_WALLETS, 7, 1, k);
  }

  /** A regular row on stored wallets with a fresh id always commits, and leaves the ledger valid. */
  lemma PlainRecordCommits(s: Store, rowId: Id, row: Row) returns (s1: Store)
    requires Valid(s) && PlainRow(s, row) && IsRevisable(row.entry) && rowId !in s.rows && ReferencesExist(s, row)
    ensures CommitRecord(s, rowId, row) == Ok(s1)
    ensures Valid(s1) && s1.rows == s.rows[rowId := row] && s1.wallets.Keys == s.wallets.Keys
  {
    RecordGoesThrough(s, rowId, row);
    s1 := CommitRecord(s, rowId, row).value;
    RecordKeepsValid(s, rowId, row);
  }

  lemma RecordGoesThrough(s: Store, rowId: Id, row: Row)
    requires PlainRow(s, row) && IsRevisable(row.entry) && rowId !in s.rows && ReferencesExist(s, row)
    ensures var r := CommitRecord(s, rowId, row);
      r.Ok? && r.value.rows == s.rows[rowId := row] && r.value.wallets.Keys == s.wallets.Keys
  {
    forall d | d in ComputeBalanceEffect(RegularInput(row.entry)).value ensures d.walletId in s.wallets {
    }
  }

  lemma RecordKeepsValid(s: Store, rowId: Id, row: Row)
    requires Valid(s) && PlainRow(s, row) && CommitRecord(s, rowId, row).Ok?
    ensures Valid(CommitRecord(s, rowId, row).value)
  {
    CommitKeepsValid(s, RecordRow(rowId, row));
  }
}
