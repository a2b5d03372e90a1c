/**
 * The concurrent ledger with everything in it: updates, deletions of rows and deletions of wallets
 * interleave with all the rest. A run stays reconciled exactly when each commit that acts on a row or
 * a wallet as it was read still finds it so, as far as money is concerned.
 */
module MixedLedger {
  import opened Common
  import opened Runs
  import opened TransactionBalance
  import opened Ledger
  import opened Requests
  import opened LedgerInvariant
  import opened ConcurrentLedger
  import opened LedgerRaces

  // ---------------------------------------------------------------- what stays true of a plan

  /** The plans that insert a row. */
  predicate Inserts(p: Plan) {
    p.RecordRow? || p.RecordCreditExpense? || p.PayTerm? || p.CompleteReminder?
  }

  function Named(p: Plan): set<Id> {
    if !Inserts(p) then {}
    else {p.row.entry.walletId} + (if p.row.entry.toWalletId.Some? then {p.row.entry.toWalletId.value} else {})
  }

  /** What a plan is made of, whatever the tables have become. */
  ghost predicate Shaped(p: Plan) {
    match p
    case RecordRow(_, row) => PlainShape(row.entry)
    case PayTerm(_, row, _, _, _, _, _) => PlainShape(row.entry)
    case CompleteReminder(_, row, _) => PlainShape(row.entry)
    case RecordCreditExpense(_, row, instId, inst) =>
      && row.entry.isInstallment && row.entry.txType == Expense && row.entry.toWalletId.None?
      && row.entry.installmentId == Some(instId) && row.entry.amount >= 0
      && inst.walletId == row.entry.walletId && inst.userId == row.userId
    case ReviseRow(_, existing, v) => IsRevisable(existing.entry) && !v.effect.isInstallment
    case OpenWallet(_, wallet) => wallet.balance == wallet.initialBalance
    case _ => true
  }

  predicate PlainShape(e: LedgerRow) {
    !e.isInstallment && e.installmentId.None? && e.amount >= 0 && (e.toWalletId.Some? ==> e.txType == Transfer)
  }

  /** The wallets a plan names belong to its user, as far as they are still there. */
  ghost predicate OwnersOk(s: Store, p: Plan) {
    forall w :: w in Named(p) && w in s.wallets ==> s.wallets[w].userId == p.row.userId
  }

  lemma ShapeFits(s: Store, p: Plan)
    requires Inserts(p) && Shaped(p) && OwnersOk(s, p) && Named(p) <= s.wallets.Keys
    ensures Fits(s, p)
  {
    assert p.row.entry.walletId in Named(p);
    if p.row.entry.toWalletId.Some? {
      assert p.row.entry.toWalletId.value in Named(p);
    }
  }

  lemma FitShape(s: Store, p: Plan)
    requires Fits(s, p) && (p.ReviseRow? ==> !p.revision.effect.isInstallment)
    ensures Shaped(p) && OwnersOk(s, p) && Named(p) <= s.wallets.Keys
  {
  }

  lemma InsertedNames(s: Store, p: Plan)
    requires Inserts(p) && Commit(s, p).Ok?
    ensures Named(p) <= s.wallets.Keys
  {
  }

  // ---------------------------------------------------------------- commits

  /** The commit leaves the tables well formed: a revised row is one, an installment row is as it was read. */
  ghost predicate LeavesRows(s: Store, p: Plan) {
    match p
    case ReviseRow(rowId, existing, v) => rowId in s.rows ==> PlainRow(s, Revised(s.rows[rowId], v))
    case RemoveRow(rowId, existing, grandTotal) => existing.entry.isInstallment ==> StillCurrent(s, rowId, existing, grandTotal)
    case _ => true
  }

  /** The commit moves the money the audit will see move. */
  ghost predicate Clean(s: Store, p: Plan) {
    match p
    case ReviseRow(rowId, existing, v) =>
      rowId in s.rows ==> forall w :: w in s.wallets ==> PlannedMove(existing, v, w) == AuditedMove(s.rows[rowId], v, GrandTotals(s), w)
    case RemoveRow(rowId, existing, _) =>
      !existing.entry.isInstallment && rowId in s.rows ==> forall w :: w in s.wallets ==> ReversesStored(s, rowId, existing, w)
    case CloseWallet(w) => forall k :: !Credits(s, w, k)
    case _ => true
  }

  ghost predicate ReversesStored(s: Store, rowId: Id, existing: Row, w: Id)
    requires rowId in s.rows
  {
    Effect(RegularInput(existing.entry), w) == RowEffect(s.rows[rowId].entry, GrandTotals(s), w)
  }

  lemma RevisedIntact(s: Store, rowId: Id, existing: Row, v: Revision)
    requires Intact(s) && CommitRevise(s, rowId, existing, v).Ok? && rowId in s.rows && PlainRow(s, Revised(s.rows[rowId], v))
    ensures Intact(CommitRevise(s, rowId, existing, v).value)
  {
    var s1 := Increment(s, ReverseBalanceEffect(RegularInput(existing.entry)).value).value;
    var row := Revised(s.rows[rowId], v);
    IntactFrame(s, s1);
    RowOkGrows(s, s1, row);
    IntactSetRow(s1, rowId, row);
    IntactFrame(s1.(rows := s1.rows[rowId := row]), CommitRevise(s, rowId, existing, v).value);
  }

  lemma RemovedIntact(s: Store, rowId: Id, existing: Row, grandTotal: int)
    requires Intact(s) && CommitRemove(s, rowId, existing, grandTotal).Ok? && !existing.entry.isInstallment
    ensures Intact(CommitRemove(s, rowId, existing, grandTotal).value)
  {
    var s1 := Increment(s, ReverseBalanceEffect(RegularInput(existing.entry)).value).value;
    IntactFrame(s, s1);
    IntactDeleteRow(s1, rowId);
  }

  lemma RemovedRowIsStored(s: Store, rowId: Id, existing: Row, grandTotal: int)
    requires CommitRemove(s, rowId, existing, grandTotal).Ok?
    ensures rowId in s.rows && CommitRemove(s, rowId, existing, grandTotal).value.wallets.Keys == s.wallets.Keys
  {
    WalletsAfter(s, RemoveRow(rowId, existing, grandTotal));
  }

  /** The drift a deletion leaves on a reconciled wallet: what the audit counted, less what was reversed. */
  lemma RemovedDrift(s: Store, rowId: Id, existing: Row, grandTotal: int, w: Id)
    requires CommitRemove(s, rowId, existing, grandTotal).Ok? && !existing.entry.isInstallment && w in s.wallets && Drift(s, w) == 0
    ensures rowId in s.rows && w in CommitRemove(s, rowId, existing, grandTotal).value.wallets
    ensures Drift(CommitRemove(s, rowId, existing, grandTotal).value, w)
            == RowEffect(s.rows[rowId].entry, GrandTotals(s), w) - Effect(RegularInput(existing.entry), w)
  {
    var back := ReverseBalanceEffect(RegularInput(existing.entry)).value;
    var s1 := Increment(s, back).value;
    ReversalIsExact(RegularInput(existing.entry), w);
    DriftOfIncrement(s, back, w);
    assert GrandTotals(s1) == GrandTotals(s);
    DriftOfDeleteRow(s1, rowId, w);
  }

  /** A deletion of a regular row commits cleanly exactly when it reverses what the audit counted. */
  lemma RemoveCommitExact(s: Store, rowId: Id, existing: Row, grandTotal: int)
    requires Reconciled(s) && CommitRemove(s, rowId, existing, grandTotal).Ok? && !existing.entry.isInstallment
    ensures rowId in s.rows
    ensures Reconciled(CommitRemove(s, rowId, existing, grandTotal).value)
      <==> forall w :: w in s.wallets ==> ReversesStored(s, rowId, existing, w)
  {
    var s' := CommitRemove(s, rowId, existing, grandTotal).value;
    RemovedRowIsStored(s, rowId, existing, grandTotal);
    forall w | w in s.wallets
      ensures Drift(s', w) == RowEffect(s.rows[rowId].entry, GrandTotals(s), w) - Effect(RegularInput(existing.entry), w)
    {
      RemovedDrift(s, rowId, existing, grandTotal, w);
    }
  }

  lemma CommitIntact(s: Store, p: Plan)
    requires Intact(s) && Shaped(p) && OwnersOk(s, p) && LeavesRows(s, p) && Commit(s, p).Ok?
    ensures Intact(Commit(s, p).value)
  {
    if Inserts(p) {
      InsertedNames(s, p);
      ShapeFits(s, p);
      CommitKeepsIntact(s, p);
    } else if p.ReviseRow? {
      RevisedRowIsStored(s, p.rowId, p.existing, p.revision);
      RevisedIntact(s, p.rowId, p.existing, p.revision);
    } else if p.RemoveRow? && !p.existing.entry.isInstallment {
      RemovedIntact(s, p.rowId, p.existing, p.grandTotal);
    } else if p.CloseWallet? {
      IntactClose(s, p.walletId);
    } else {
      CommitKeepsIntact(s, p);
    }
  }

  /** Any commit on reconciled tables leaves them reconciled exactly when it is clean. */
  lemma CommitExact(s: Store, p: Plan)
    requires Valid(s) && Shaped(p) && OwnersOk(s, p) && LeavesRows(s, p) && Commit(s, p).Ok?
    ensures Reconciled(Commit(s, p).value) <==> Clean(s, p)
  {
    if Inserts(p) {
      InsertedNames(s, p);
      ShapeFits(s, p);
      CommitKeepsValid(s, p);
    } else if p.ReviseRow? {
      UpdateCommitExact(s, p.rowId, p.existing, p.revision);
    } else if p.RemoveRow? && !p.existing.entry.isInstallment {
      RemoveCommitExact(s, p.rowId, p.existing, p.grandTotal);
    } else if p.CloseWallet? {
      CloseCommitExact(s, p.walletId);
    } else {
      CommitKeepsValid(s, p);
    }
  }

  // ---------------------------------------------------------------- the system

  /** A plan in flight: its wallets are known, and a wallet it opens is not there yet. */
  ghost predicate PlanOk(y: System, p: Plan) {
    && Shaped(p) && OwnersOk(y.store, p) && Named(p) <= y.used
    && (p.OpenWallet? ==> p.walletId in y.used && p.walletId !in y.store.wallets)
  }

  /** Wallet identifiers are handed out once: nobody names or opens the wallet another is opening. */
  predicate Apart(p: Plan, q: Plan) {
    p.OpenWallet? ==> p.walletId !in Named(q) && (q.OpenWallet? ==> q.walletId != p.walletId)
  }

  ghost predicate WellKept(y: System) {
    && Intact(y.store) && y.store.wallets.Keys <= y.used
    && (forall n :: n in y.pending ==> PlanOk(y, y.pending[n]))
    && (forall m, n :: m in y.pending && n in y.pending && m != n ==> Apart(y.pending[m], y.pending[n]))
  }

  lemma ReadWellKept(y: System, n: Id, q: Request)
    requires WellKept(y) && Enabled(y, Read(n, q))
    ensures WellKept(Next(y, Read(n, q)))
  {
    var p := Prepare(y.store, q).value;
    var y' := Next(y, Read(n, q));
    PrepareFits(y.store, q);
    UpdatesAreRegular(y.store, q);
    FitShape(y.store, p);
    OpenedIsNew(y.store, q);
    forall k | k in y'.pending ensures PlanOk(y', y'.pending[k]) {
      if k != n {
        assert PlanOk(y, y.pending[k]);
      }
    }
    forall j, k | j in y'.pending && k in y'.pending && j != k ensures Apart(y'.pending[j], y'.pending[k]) {
      if j == n {
        assert PlanOk(y, y.pending[k]);
      } else if k == n {
        assert PlanOk(y, y.pending[j]);
      } else {
        assert Apart(y.pending[j], y.pending[k]);
      }
    }
  }

  lemma UpdatesAreRegular(s: Store, q: Request)
    requires Prepare(s, q).Ok?
    ensures Prepare(s, q).value.ReviseRow? ==> !Prepare(s, q).value.revision.effect.isInstallment
  {
  }

  lemma OpenedIsNew(s: Store, q: Request)
    requires Prepare(s, q).Ok?
    ensures Prepare(s, q).value.OpenWallet? ==> Prepare(s, q).value.walletId in NewIds(q)
  {
  }

  /** A wallet that is there before and after a commit keeps its owner. */
  lemma OwnersStay(s: Store, p: Plan, w: Id)
    requires Commit(s, p).Ok? && w in s.wallets && w in Commit(s, p).value.wallets
    ensures Commit(s, p).value.wallets[w].userId == s.wallets[w].userId
  {
    if Interleaving(p) {
      CommitGrows(s, p);
    }
  }

  lemma PlanStaysOk(y: System, y': System, p: Plan, q: Plan)
    requires PlanOk(y, q) && Commit(y.store, p).Ok? && y'.store == Commit(y.store, p).value && y'.used == y.used
    requires Apart(p, q)
    ensures PlanOk(y', q)
  {
    WalletsAfter(y.store, p);
    forall w | w in Named(q) && w in y'.store.wallets ensures y'.store.wallets[w].userId == q.row.userId {
      OwnersStay(y.store, p, w);
    }
  }

  lemma FinishWellKept(y: System, n: Id)
    requires WellKept(y) && n in y.pending && Commit(y.store, y.pending[n]).Ok? && LeavesRows(y.store, y.pending[n])
    ensures WellKept(Next(y, Finish(n)))
  {
    var p := y.pending[n];
    var y' := Next(y, Finish(n));
    assert PlanOk(y, p);
    CommitIntact(y.store, p);
    WalletsAfter(y.store, p);
    forall k | k in y'.pending ensures PlanOk(y', y'.pending[k]) {
      assert Apart(p, y.pending[k]);
      PlanStaysOk(y, y', p, y.pending[k]);
    }
    forall j, k | j in y'.pending && k in y'.pending && j != k ensures Apart(y'.pending[j], y'.pending[k]) {
      assert Apart(y.pending[j], y.pending[k]);
    }
  }

  lemma DropWellKept(y: System, n: Id)
    requires WellKept(y) && n in y.pending
    ensures WellKept(y.(pending := y.pending - {n}))
  {
    var y' := y.(pending := y.pending - {n});
    forall k | k in y'.pending ensures PlanOk(y', y'.pending[k]) {
      assert PlanOk(y, y.pending[k]);
    }
    forall j, k | j in y'.pending && k in y'.pending && j != k ensures Apart(y'.pending[j], y'.pending[k]) {
      assert Apart(y.pending[j], y.pending[k]);
    }
  }

  lemma RemindWellKept(y: System, e: Id, event: Event)
    requires WellKept(y) && Enabled(y, Remind(e, event))
    ensures WellKept(Next(y, Remind(e, event)))
  {
    var y' := Next(y, Remind(e, event));
    IntactFrame(y.store, y'.store);
    forall k | k in y'.pending ensures PlanOk(y', y'.pending[k]) {
      assert PlanOk(y, y.pending[k]);
    }
  }

  /** A step that puts a plan into the tables. */
  predicate CommitsAt(y: System, m: ConcurrentLedger.Move) {
    m.Finish? && m.process in y.pending && Commit(y.store, y.pending[m.process]).Ok?
  }

  ghost predicate StepLeavesRows(y: System, m: ConcurrentLedger.Move) {
    CommitsAt(y, m) ==> LeavesRows(y.store, y.pending[m.process])
  }

  ghost predicate StepClean(y: System, m: ConcurrentLedger.Move) {
    CommitsAt(y, m) ==> Clean(y.store, y.pending[m.process])
  }

  lemma StepWellKept(y: System, m: ConcurrentLedger.Move)
    requires WellKept(y) && Enabled(y, m) && StepLeavesRows(y, m)
    ensures WellKept(Next(y, m))
  {
    match m
    case Read(n, q) => ReadWellKept(y, n, q);
    case Finish(n) =>
      if Commit(y.store, y.pending[n]).Ok? {
        FinishWellKept(y, n);
      } else {
        DropWellKept(y, n);
      }
    case Crash(n) => DropWellKept(y, n);
    case Remind(e, event) => RemindWellKept(y, e, event);
  }

  /** One step from reconciled tables: they stay so exactly when the step is clean. */
  lemma StepExact(y: System, m: ConcurrentLedger.Move)
    requires WellKept(y) && Reconciled(y.store) && Enabled(y, m) && StepLeavesRows(y, m)
    ensures Reconciled(Next(y, m).store) <==> StepClean(y, m)
  {
    if CommitsAt(y, m) {
      assert PlanOk(y, y.pending[m.process]);
      CommitExact(y.store, y.pending[m.process]);
    } else if m.Remind? {
      forall w | w in y.store.wallets ensures Drift(Next(y, m).store, w) == Drift(y.store, w) {
        DriftFrame(y.store, Next(y, m).store, w);
      }
    }
  }

  // ---------------------------------------------------------------- whole runs

  ghost predicate Steps(y: System, m: ConcurrentLedger.Move, y': System) {
    Enabled(y, m) && y' == Next(y, m)
  }

  ghost predicate Begins(y: System) {
    Valid(y.store) && y.pending == map[] && y.store.wallets.Keys <= y.used
  }

  ghost predicate AllLeaveRows(states: seq<System>, moves: seq<ConcurrentLedger.Move>, n: nat)
    requires n <= |moves| < |states|
  {
    forall i :: 0 <= i < n ==> StepLeavesRows(states[i], moves[i])
  }

  ghost predicate AllClean(states: seq<System>, moves: seq<ConcurrentLedger.Move>, n: nat)
    requires n <= |moves| < |states|
  {
    forall i :: 0 <= i < n ==> StepClean(states[i], moves[i])
  }

  ghost predicate AllReconciled(states: seq<System>, n: nat)
    requires n < |states|
  {
    forall i :: 0 <= i <= n ==> Reconciled(states[i].store)
  }

  lemma {:induction false} RunWellKept(states: seq<System>, moves: seq<ConcurrentLedger.Move>, n: nat)
    requires IsRun(Steps, states, moves) && Begins(states[0]) && n <= |moves| && AllLeaveRows(states, moves, n)
    ensures WellKept(states[n])
  {
    if n > 0 {
      RunWellKept(states, moves, n - 1);
      assert Steps(states[n - 1], moves[n - 1], states[n]) && StepLeavesRows(states[n - 1], moves[n - 1]);
      StepWellKept(states[n - 1], moves[n - 1]);
    }
  }

  /** One step of a run, from reconciled tables. */
  lemma RunStepExact(states: seq<System>, moves: seq<ConcurrentLedger.Move>, n: nat, i: nat)
    requires IsRun(Steps, states, moves) && Begins(states[0]) && i < n <= |moves| && AllLeaveRows(states, moves, n)
    requires Reconciled(states[i].store)
    ensures Reconciled(states[i + 1].store) <==> StepClean(states[i], moves[i])
  {
    RunWellKept(states, moves, i);
    assert Steps(states[i], moves[i], states[i + 1]) && StepLeavesRows(states[i], moves[i]);
    StepExact(states[i], moves[i]);
  }

  lemma ReconciledMeansClean(states: seq<System>, moves: seq<ConcurrentLedger.Move>, n: nat)
    requires IsRun(Steps, states, moves) && Begins(states[0]) && n <= |moves| && AllLeaveRows(states, moves, n)
    requires AllReconciled(states, n)
    ensures AllClean(states, moves, n)
  {
    forall i | 0 <= i < n ensures StepClean(states[i], moves[i]) {
      RunStepExact(states, moves, n, i);
    }
  }

  lemma {:induction false} CleanMeansReconciled(states: seq<System>, moves: seq<ConcurrentLedger.Move>, n: nat, k: nat)
    requires IsRun(Steps, states, moves) && Begins(states[0]) && k <= n <= |moves| && AllLeaveRows(states, moves, n)
    requires AllClean(states, moves, n)
    ensures Reconciled(states[k].store)
  {
    if k > 0 {
      CleanMeansReconciled(states, moves, n, k - 1);
      RunStepExact(states, moves, n, k - 1);
    }
  }

  /**
   * In any interleaving of requests of every kind whose commits leave the tables well formed: no
   * wallet ever drifts if and only if every update and every deletion that commits is clean on the
   * tables it then finds. Creates, payments, confirmations and wallet edits never are the cause.
   */
  lemma RunsReconcileExactly(states: seq<System>, moves: seq<ConcurrentLedger.Move>, n: nat)
    requires IsRun(Steps, states, moves) && Begins(states[0]) && n <= |moves| && AllLeaveRows(states, moves, n)
    ensures AllReconciled(states, n) <==> AllClean(states, moves, n)
  {
    if AllReconciled(states, n) {
      ReconciledMeansClean(states, moves, n);
    }
    if AllClean(states, moves, n) {
      forall k | 0 <= k <= n ensures Reconciled(states[k].store) {
        CleanMeansReconciled(states, moves, n, k);
      }
    }
  }
}
