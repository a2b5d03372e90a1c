/**
 * The ledger under concurrency: a request reads and validates in one step and commits in a later
 * one, with any number of other commits in between. Everything except updates and wallet deletions
 * interleaves freely; for those two the exact condition for a clean commit is given.
 */
module ConcurrentLedger {
  import opened Common
  import opened Runs
  import opened Ledger
  import opened Requests
  import opened LedgerInvariant

  /** `pending` holds what each request in flight decided; `done` the transactions committed so far. */
  datatype System = System(store: Store, pending: map<Id, Plan>, used: set<Id>, done: seq<Plan>)

  datatype Move =
    | Read(process: Id, request: Request)
    | Finish(process: Id)
    | Crash(process: Id)
    | Remind(eventId: Id, event: Event)

  function NewRows(p: Plan): set<Id> {
    match p
    case RecordRow(rowId, _) => {rowId}
    case RecordCreditExpense(rowId, _, _, _) => {rowId}
    case PayTerm(rowId, _, _, _, _, _, _) => {rowId}
    case CompleteReminder(rowId, _, _) => {rowId}
    case _ => {}
  }

  /** Identifiers the request's rows will get; never handed out twice. */
  function NewIds(q: Request): set<Id> {
    match q
    case CreateTransaction(_, newRow, newInstallment) => {newRow, newInstallment}
    case PayInstallment(_, newRow) => {newRow}
    case ConfirmReminder(_, newRow) => {newRow}
    case CreateWallet(_, newWallet) => {newWallet}
    case _ => {}
  }

  predicate Interleaves(q: Request) {
    !q.UpdateTransaction? && !q.DeleteWallet?
  }

  predicate Enabled(y: System, m: Move) {
    match m
    case Read(n, q) => n !in y.pending && NewIds(q) !! y.used && Prepare(y.store, q).Ok?
    case Finish(n) => n in y.pending
    case Crash(n) => n in y.pending
    case Remind(e, event) => e !in y.used && e !in y.store.events && !event.isCompleted
  }

  /** A commit that fails rolls back; the request is over either way. */
  function Next(y: System, m: Move): System
    requires Enabled(y, m)
  {
    match m
    case Read(n, q) => y.(pending := y.pending[n := Prepare(y.store, q).value], used := y.used + NewIds(q))
    case Finish(n) =>
      var r := Commit(y.store, y.pending[n]);
      if r.Err? then y.(pending := y.pending - {n})
      else y.(store := r.value, pending := y.pending - {n}, done := y.done + [y.pending[n]])
    case Crash(n) => y.(pending := y.pending - {n})
    case Remind(e, event) => y.(store := y.store.(events := y.store.events[e := event]), used := y.used + {e})
  }

  // ---------------------------------------------------------------- plans stay current

  predicate Compatible(p: Plan, q: Plan) {
    && !q.ReviseRow? && !q.CloseWallet?
    && (p.RemoveRow? ==> p.rowId !in NewRows(q))
  }

  predicate Interleaving(p: Plan) {
    !p.ReviseRow? && !p.CloseWallet?
  }

  lemma CommitGrows(s: Store, q: Plan)
    requires Commit(s, q).Ok? && Interleaving(q)
    ensures KeepsOwners(s, Commit(s, q).value)
  {
    match q
    case RemoveRow(rowId, existing, grandTotal) => RemoveGrows(s, rowId, existing, grandTotal);
    case RecordCreditExpense(rowId, row, instId, inst) => CreditGrows(s, rowId, row, instId, inst);
    case RecordRow(rowId, row) => RecordGrows(s, rowId, row);
    case PayTerm(rowId, row, _, _, _, _, _) => RecordGrows(s, rowId, row);
    case CompleteReminder(rowId, row, _) => RecordGrows(s, rowId, row);
    case _ =>
  }

  lemma RecordGrows(s: Store, rowId: Id, row: Row)
    requires CommitRecord(s, rowId, row).Ok?
    ensures KeepsOwners(s, CommitRecord(s, rowId, row).value)
  {
  }

  lemma CreditGrows(s: Store, rowId: Id, row: Row, instId: Id, inst: Installment)
    requires CommitCreditExpense(s, rowId, row, instId, inst).Ok?
    ensures KeepsOwners(s, CommitCreditExpense(s, rowId, row, instId, inst).value)
  {
  }

  lemma RemoveGrows(s: Store, rowId: Id, existing: Row, grandTotal: int)
    requires CommitRemove(s, rowId, existing, grandTotal).Ok?
    ensures KeepsOwners(s, CommitRemove(s, rowId, existing, grandTotal).value)
  {
  }

  /** Rows that survive a commit are untouched by it, and so is the grand total behind them. */
  lemma CommitKeepsRow(s: Store, q: Plan, k: Id)
    requires Intact(s) && Fits(s, q) && Interleaving(q) && Commit(s, q).Ok?
    requires k in Commit(s, q).value.rows && k !in NewRows(q)
    ensures k in s.rows && Commit(s, q).value.rows[k] == s.rows[k]
    ensures GrandTotalOf(Commit(s, q).value, s.rows[k].entry) == GrandTotalOf(s, s.rows[k].entry)
  {
    match q
    case RemoveRow(rowId, existing, grandTotal) => RemoveKeepsRow(s, rowId, existing, grandTotal, k);
    case RecordCreditExpense(rowId, row, instId, inst) =>
      NewInstallmentUnlinked(s, instId);
    case _ =>
  }

  lemma RemoveKeepsRow(s: Store, rowId: Id, existing: Row, grandTotal: int, k: Id)
    requires Intact(s) && StillCurrent(s, rowId, existing, grandTotal) && CommitRemove(s, rowId, existing, grandTotal).Ok?
    requires k in CommitRemove(s, rowId, existing, grandTotal).value.rows
    ensures k in s.rows && k != rowId && CommitRemove(s, rowId, existing, grandTotal).value.rows[k] == s.rows[k]
    ensures GrandTotalOf(CommitRemove(s, rowId, existing, grandTotal).value, s.rows[k].entry) == GrandTotalOf(s, s.rows[k].entry)
  {
    var e := existing.entry;
    if e.isInstallment && e.installmentId.Some? && k in s.rows && k != rowId {
      assert !SameLink(s.rows[rowId], s.rows[k]);
    }
  }

  lemma OwnsGrows(s: Store, s': Store, userId: Id, w: Id)
    requires KeepsOwners(s, s') && Owns(s, userId, w)
    ensures Owns(s', userId, w)
  {
  }

  lemma PlainRowGrows(s: Store, s': Store, row: Row)
    requires KeepsOwners(s, s') && PlainRow(s, row)
    ensures PlainRow(s', row)
  {
  }

  /** A plan that fitted when it was made still fits after any compatible commit. */
  lemma FitsIsStable(s: Store, p: Plan, q: Plan)
    requires Intact(s) && Fits(s, p) && Fits(s, q) && Interleaving(p) && Compatible(p, q) && Commit(s, q).Ok?
    ensures Fits(Commit(s, q).value, p)
  {
    var s' := Commit(s, q).value;
    CommitGrows(s, q);
    match p
    case RecordRow(_, row) => PlainRowGrows(s, s', row);
    case RecordCreditExpense(_, row, _, _) => OwnsGrows(s, s', row.userId, row.entry.walletId);
    case RemoveRow(rowId, existing, grandTotal) =>
      if rowId in s'.rows {
        CommitKeepsRow(s, q, rowId);
      }
    case PayTerm(_, row, _, _, _, _, _) => PlainRowGrows(s, s', row);
    case CompleteReminder(_, row, _) => PlainRowGrows(s, s', row);
    case _ =>
  }

  // ---------------------------------------------------------------- the system invariant

  /** The row ids still to be inserted are fresh and pairwise distinct; removals target other ids. */
  ghost predicate IdsOk(y: System) {
    && y.store.rows.Keys <= y.used
    && y.store.events.Keys <= y.used
    && (forall n :: n in y.pending ==> NewRows(y.pending[n]) <= y.used && NewRows(y.pending[n]) !! y.store.rows.Keys)
    && (forall n, m :: n in y.pending && m in y.pending && n != m ==> NewRows(y.pending[n]) !! NewRows(y.pending[m]))
    && (forall n, m :: n in y.pending && m in y.pending && y.pending[n].RemoveRow? ==> y.pending[n].rowId !in NewRows(y.pending[m]))
    && (forall n :: n in y.pending && y.pending[n].RemoveRow? ==> y.pending[n].rowId in y.used)
  }

  ghost predicate PlansOk(y: System) {
    forall n :: n in y.pending ==> Interleaving(y.pending[n]) && Fits(y.store, y.pending[n])
  }

  predicate IsRemovalOf(p: Plan, rowId: Id) {
    p.RemoveRow? && p.rowId == rowId
  }

  predicate IsConfirmationOf(p: Plan, eventId: Id) {
    p.CompleteReminder? && p.eventId == eventId
  }

  /** What is done stays done: a removed row never returns, a confirmed reminder stays completed. */
  ghost predicate DoneOk(y: System) {
    && (forall i :: 0 <= i < |y.done| && y.done[i].RemoveRow? ==> Gone(y, y.done[i].rowId))
    && (forall i :: 0 <= i < |y.done| && y.done[i].CompleteReminder? ==> Closed(y, y.done[i].eventId))
    && (forall i, j :: 0 <= i < j < |y.done| && y.done[i].RemoveRow? ==> !IsRemovalOf(y.done[j], y.done[i].rowId))
    && (forall i, j :: 0 <= i < j < |y.done| && y.done[i].CompleteReminder? ==> !IsConfirmationOf(y.done[j], y.done[i].eventId))
  }

  ghost predicate Gone(y: System, rowId: Id) {
    rowId in y.used && rowId !in y.store.rows && forall n :: n in y.pending ==> rowId !in NewRows(y.pending[n])
  }

  ghost predicate Closed(y: System, eventId: Id) {
    eventId in y.used && (eventId in y.store.events ==> y.store.events[eventId].isCompleted)
  }

  ghost predicate Inv(y: System) {
    Valid(y.store) && IdsOk(y) && PlansOk(y) && DoneOk(y)
  }

  predicate Allowed(m: Move) {
    m.Read? ==> Interleaves(m.request)
  }

  lemma PreparedIds(s: Store, q: Request)
    requires Prepare(s, q).Ok? && Interleaves(q)
    ensures var p := Prepare(s, q).value;
      && Interleaving(p) && NewRows(p) <= NewIds(q)
      && (p.RemoveRow? ==> p.rowId in s.rows && NewRows(p) == {})
  {
  }

  lemma IdsAfterRead(y: System, y': System, n: Id, p: Plan, ids: set<Id>)
    requires IdsOk(y) && n !in y.pending && NewRows(p) <= ids && ids !! y.used
    requires p.RemoveRow? ==> p.rowId in y.store.rows && NewRows(p) == {}
    requires y'.store == y.store && y'.pending == y.pending[n := p] && y'.used == y.used + ids
    ensures IdsOk(y')
  {
  }

  lemma ReadKeepsInv(y: System, n: Id, q: Request)
    requires Inv(y) && Enabled(y, Read(n, q)) && Interleaves(q)
    ensures Inv(Next(y, Read(n, q)))
  {
    PreparedIds(y.store, q);
    PrepareFits(y.store, q);
    var y' := Next(y, Read(n, q));
    IdsAfterRead(y, y', n, Prepare(y.store, q).value, NewIds(q));
    assert PlansOk(y');
    forall i | 0 <= i < |y'.done| && y'.done[i].RemoveRow? ensures Gone(y', y'.done[i].rowId) {
      assert Gone(y, y.done[i].rowId);
    }
    forall i | 0 <= i < |y'.done| && y'.done[i].CompleteReminder? ensures Closed(y', y'.done[i].eventId) {
      assert Closed(y, y.done[i].eventId);
    }
  }

  lemma DropKeepsInv(y: System, n: Id)
    requires Inv(y) && n in y.pending
    ensures Inv(y.(pending := y.pending - {n}))
  {
  }

  lemma RemindKeepsStore(s: Store, e: Id, event: Event)
    requires Valid(s)
    ensures Valid(s.(events := s.events[e := event]))
  {
    var s' := s.(events := s.events[e := event]);
    IntactFrame(s, s');
    forall w | w in s'.wallets ensures Drift(s', w) == 0 {
      DriftFrame(s, s', w);
    }
  }

  lemma RemindKeepsFit(s: Store, e: Id, event: Event, p: Plan)
    requires Fits(s, p)
    ensures Fits(s.(events := s.events[e := event]), p)
  {
  }

  lemma RemindKeepsInv(y: System, e: Id, event: Event)
    requires Inv(y) && Enabled(y, Remind(e, event))
    ensures Inv(Next(y, Remind(e, event)))
  {
    var y' := Next(y, Remind(e, event));
    RemindKeepsStore(y.store, e, event);
    forall n | n in y'.pending ensures Interleaving(y'.pending[n]) && Fits(y'.store, y'.pending[n]) {
      RemindKeepsFit(y.store, e, event, y.pending[n]);
    }
    assert IdsOk(y');
    forall i | 0 <= i < |y'.done| && y'.done[i].RemoveRow? ensures Gone(y', y'.done[i].rowId) {
      assert Gone(y, y.done[i].rowId);
    }
    forall i | 0 <= i < |y'.done| && y'.done[i].CompleteReminder? ensures Closed(y', y'.done[i].eventId) {
      assert Closed(y, y.done[i].eventId);
    }
  }

  ghost predicate EventsOnlyComplete(s: Store, s': Store) {
    && s'.events.Keys <= s.events.Keys
    && (forall e :: e in s'.events && s.events[e].isCompleted ==> s'.events[e].isCompleted)
  }

  lemma RowsAfterRecord(s: Store, rowId: Id, row: Row)
    requires CommitRecord(s, rowId, row).Ok?
    ensures CommitRecord(s, rowId, row).value.rows.Keys == s.rows.Keys + {rowId}
    ensures CommitRecord(s, rowId, row).value.events == s.events
  {
  }

  lemma RowsAfterCredit(s: Store, rowId: Id, row: Row, instId: Id, inst: Installment)
    requires CommitCreditExpense(s, rowId, row, instId, inst).Ok?
    ensures CommitCreditExpense(s, rowId, row, instId, inst).value.rows.Keys == s.rows.Keys + {rowId}
    ensures CommitCreditExpense(s, rowId, row, instId, inst).value.events == s.events
  {
  }

  lemma RowsAfterRemove(s: Store, rowId: Id, existing: Row, grandTotal: int)
    requires CommitRemove(s, rowId, existing, grandTotal).Ok?
    ensures rowId in s.rows
    ensures CommitRemove(s, rowId, existing, grandTotal).value.rows.Keys == s.rows.Keys - {rowId}
    ensures EventsOnlyComplete(s, CommitRemove(s, rowId, existing, grandTotal).value)
  {
  }

  /** The rows and events after a commit, by plan. */
  lemma RowsAfter(s: Store, p: Plan)
    requires Commit(s, p).Ok? && Interleaving(p)
    ensures var s' := Commit(s, p).value;
      && s'.rows.Keys == s.rows.Keys + NewRows(p) - (if p.RemoveRow? then {p.rowId} else {})
      && (p.RemoveRow? ==> p.rowId in s.rows)
      && EventsOnlyComplete(s, s')
  {
    match p
    case RecordRow(rowId, row) => RowsAfterRecord(s, rowId, row);
    case RecordCreditExpense(rowId, row, instId, inst) => RowsAfterCredit(s, rowId, row, instId, inst);
    case RemoveRow(rowId, existing, grandTotal) => RowsAfterRemove(s, rowId, existing, grandTotal);
    case PayTerm(rowId, row, _, _, _, _, _) => RowsAfterRecord(s, rowId, row);
    case CompleteReminder(rowId, row, _) => RowsAfterRecord(s, rowId, row);
    case _ =>
  }

  lemma CompletionCloses(s: Store, p: Plan)
    requires Commit(s, p).Ok? && p.CompleteReminder?
    ensures p.eventId in s.events && !s.events[p.eventId].isCompleted
    ensures p.eventId in Commit(s, p).value.events && Commit(s, p).value.events[p.eventId].isCompleted
  {
  }

  lemma FinishKeepsPlans(y: System, n: Id)
    requires Inv(y) && n in y.pending && Commit(y.store, y.pending[n]).Ok?
    ensures PlansOk(Next(y, Finish(n)))
  {
    var y' := Next(y, Finish(n));
    forall m | m in y'.pending ensures Interleaving(y'.pending[m]) && Fits(y'.store, y'.pending[m]) {
      FitsIsStable(y.store, y.pending[m], y.pending[n]);
    }
  }

  lemma IdsAfterFinish(y: System, y': System, n: Id)
    requires IdsOk(y) && n in y.pending
    requires y'.pending == y.pending - {n} && y'.used == y.used
    requires y'.store.rows.Keys <= y.store.rows.Keys + NewRows(y.pending[n]) && y'.store.events.Keys <= y.store.events.Keys
    ensures IdsOk(y')
  {
    forall m | m in y'.pending ensures NewRows(y'.pending[m]) !! y'.store.rows.Keys {
      assert NewRows(y.pending[m]) !! NewRows(y.pending[n]);
    }
  }

  lemma FinishKeepsIds(y: System, n: Id)
    requires Inv(y) && n in y.pending && Commit(y.store, y.pending[n]).Ok?
    ensures IdsOk(Next(y, Finish(n)))
  {
    RowsOnlyNew(y.store, y.pending[n]);
    IdsAfterFinish(y, Next(y, Finish(n)), n);
  }

  lemma RowsOnlyNew(s: Store, p: Plan)
    requires Commit(s, p).Ok? && Interleaving(p)
    ensures Commit(s, p).value.rows.Keys <= s.rows.Keys + NewRows(p) && Commit(s, p).value.events.Keys <= s.events.Keys
  {
    RowsAfter(s, p);
  }

  /** What a commit leaves behind of rows and reminder events. */
  ghost predicate FinishedTables(s: Store, p: Plan, s': Store) {
    && EventsOnlyComplete(s, s')
    && s'.rows.Keys == s.rows.Keys + NewRows(p) - (if p.RemoveRow? then {p.rowId} else {})
    && (p.RemoveRow? ==> p.rowId in s.rows)
    && (p.CompleteReminder? ==>
          && p.eventId in s.events && !s.events[p.eventId].isCompleted
          && p.eventId in s'.events && s'.events[p.eventId].isCompleted)
  }

  lemma DoneAfterFinish(y: System, y': System, n: Id)
    requires IdsOk(y) && DoneOk(y) && n in y.pending
    requires y'.pending == y.pending - {n} && y'.used == y.used && y'.done == y.done + [y.pending[n]]
    requires FinishedTables(y.store, y.pending[n], y'.store)
    ensures DoneOk(y')
  {
    forall i | 0 <= i < |y'.done| && y'.done[i].RemoveRow? ensures Gone(y', y'.done[i].rowId) {
      if i < |y.done| {
        assert Gone(y, y.done[i].rowId);
      }
    }
    forall i | 0 <= i < |y'.done| && y'.done[i].CompleteReminder? ensures Closed(y', y'.done[i].eventId) {
      if i < |y.done| {
        assert Closed(y, y.done[i].eventId);
      }
    }
    forall i, j | 0 <= i < j < |y'.done| && y'.done[i].RemoveRow? ensures !IsRemovalOf(y'.done[j], y'.done[i].rowId) {
      assert Gone(y, y.done[i].rowId);
    }
    forall i, j | 0 <= i < j < |y'.done| && y'.done[i].CompleteReminder? ensures !IsConfirmationOf(y'.done[j], y'.done[i].eventId) {
      assert Closed(y, y.done[i].eventId);
    }
  }

  lemma FinishKeepsDone(y: System, n: Id)
    requires Inv(y) && n in y.pending && Commit(y.store, y.pending[n]).Ok?
    ensures DoneOk(Next(y, Finish(n)))
  {
    FinishedRows(y.store, y.pending[n]);
    DoneAfterFinish(y, Next(y, Finish(n)), n);
  }

  lemma FinishedRows(s: Store, p: Plan)
    requires Commit(s, p).Ok? && Interleaving(p)
    ensures FinishedTables(s, p, Commit(s, p).value)
  {
    RowsAfter(s, p);
    if p.CompleteReminder? {
      CompletionCloses(s, p);
    }
  }

  lemma NextKeepsInv(y: System, m: Move)
    requires Inv(y) && Enabled(y, m) && Allowed(m)
    ensures Inv(Next(y, m))
  {
    match m
    case Read(n, q) => ReadKeepsInv(y, n, q);
    case Crash(n) => DropKeepsInv(y, n);
    case Remind(e, event) => RemindKeepsInv(y, e, event);
    case Finish(n) =>
      if Commit(y.store, y.pending[n]).Err? {
        DropKeepsInv(y, n);
      } else {
        CommitKeepsValid(y.store, y.pending[n]);
        FinishKeepsPlans(y, n);
        FinishKeepsIds(y, n);
        FinishKeepsDone(y, n);
      }
  }

  // ---------------------------------------------------------------- whole runs

  ghost predicate Takes(y: System, m: Move, y': System) {
    Enabled(y, m) && Allowed(m) && y' == Next(y, m)
  }

  ghost predicate Starts(y: System) {
    Valid(y.store) && y.pending == map[] && y.done == [] && y.store.rows.Keys <= y.used && y.store.events.Keys <= y.used
  }

  lemma StepsPreserve()
    ensures Preserved(Takes, Inv)
  {
    forall y, m, y' | Inv(y) && Takes(y, m, y') ensures Inv(y') {
      NextKeepsInv(y, m);
    }
  }

  /** No row is removed twice and no reminder is confirmed twice. */
  ghost predicate AtMostOnce(done: seq<Plan>) {
    forall i, j, k :: 0 <= i < j < |done| ==>
      && !(IsRemovalOf(done[i], k) && IsRemovalOf(done[j], k))
      && !(IsConfirmationOf(done[i], k) && IsConfirmationOf(done[j], k))
  }

  /**
   * Creates, deletes, bill payments, reminder confirmations and wallet edits, with reads in an
   * earlier step than their commit: after any interleaving no wallet drifts, no row's effect has
   * been reversed twice and no reminder has produced two transactions.
   */
  lemma ConcurrentRunsStayReconciled(states: seq<System>, moves: seq<Move>, n: nat)
    requires IsRun(Takes, states, moves) && Starts(states[0]) && n <= |moves|
    ensures Reconciled(states[n].store)
    ensures AtMostOnce(states[n].done)
  {
    StepsPreserve();
    RunKeepsInv(Takes, Inv, states, moves, n);
  }
}
