/**
 * The ledger as the services change it: tables updated in place, statement by statement, inside a
 * database transaction that restores the tables when any statement fails. Each method is proved
 * against the specification of its transaction.
 */
module LedgerTables {
  import opened Common
  import opened TransactionBalance
  import opened Ledger
  import opened Requests
  import opened LedgerInvariant

  lemma CreditOneMore(wallets: map<Id, Wallet>, deltas: seq<Delta>, n: nat)
    requires n < |deltas|
    ensures var d, credited := deltas[n], CreditWallets(wallets, deltas[..n]);
      CreditWallets(wallets, deltas[..n + 1]) ==
      if d.walletId in wallets then credited[d.walletId := credited[d.walletId].(balance := credited[d.walletId].balance + d.amount)]
      else credited
  {
    assert deltas[..n + 1][..n] == deltas[..n];
  }

  class Tables {
    var wallets: map<Id, Wallet>
    var rows: map<Id, Row>
    var installments: map<Id, Installment>
    var events: map<Id, Event>
    var templates: map<Id, Template>
    var categories: map<Id, Category>

    function State(): Store
      reads this
    {
      Store(wallets, rows, installments, events, templates, categories)
    }

    constructor (s: Store)
      ensures State() == s
    {
      wallets, rows, installments := s.wallets, s.rows, s.installments;
      events, templates, categories := s.events, s.templates, s.categories;
    }

    method Restore(s: Store)
      modifies this
      ensures State() == s
    {
      wallets, rows, installments := s.wallets, s.rows, s.installments;
      events, templates, categories := s.events, s.templates, s.categories;
    }

    /** Keyed increments, one wallet at a time; a missing wallet aborts. */
    method ApplyBalanceDeltas(deltas: seq<Delta>) returns (ok: bool)
      modifies this`wallets
      ensures ok <==> Increment(old(State()), deltas).Ok?
      ensures ok ==> State() == Increment(old(State()), deltas).value
    {
      ghost var before := wallets;
      assert CreditWallets(before, deltas[..0]) == before;
      for n := 0 to |deltas|
        invariant wallets == CreditWallets(before, deltas[..n])
        invariant forall i :: 0 <= i < n && deltas[i].amount != 0 ==> deltas[i].walletId in before
      {
        var d := deltas[n];
        CreditOneMore(before, deltas, n);
        if d.amount != 0 {
          if d.walletId !in wallets {
            assert d in deltas;
            return false;
          }
          wallets := wallets[d.walletId := wallets[d.walletId].(balance := wallets[d.walletId].balance + d.amount)];
        }
      }
      assert deltas[..|deltas|] == deltas;
      ok := true;
    }

    method ApplyBalanceEffect(deltas: Option<seq<Delta>>) returns (ok: bool)
      modifies this`wallets
      ensures ok <==> ApplyEffect(old(State()), deltas).Ok?
      ensures ok ==> State() == ApplyEffect(old(State()), deltas).value
    {
      if deltas.None? {
        return false;
      }
      ok := ApplyBalanceDeltas(deltas.value);
    }

    method CreateRow(id: Id, row: Row) returns (ok: bool)
      modifies this`rows
      ensures ok <==> InsertRow(old(State()), id, row).Ok?
      ensures ok ==> State() == InsertRow(old(State()), id, row).value
    {
      ok := id !in rows && ReferencesExist(State(), row);
      if ok {
        rows := rows[id := row];
      }
    }

    method DropRow(id: Id) returns (ok: bool)
      modifies this`rows, this`events
      ensures ok <==> DeleteRow(old(State()), id).Ok?
      ensures ok ==> State() == DeleteRow(old(State()), id).value
    {
      ok := id in rows;
      if ok {
        rows := rows - {id};
        events := map e | e in events :: if events[e].generated == Some(id) then events[e].(generated := None) else events[e];
      }
    }

    /** create row, then move the money. */
    method Record(rowId: Id, row: Row) returns (ok: bool)
      modifies this`rows, this`wallets
      ensures ok <==> CommitRecord(old(State()), rowId, row).Ok?
      ensures ok ==> State() == CommitRecord(old(State()), rowId, row).value
    {
      ok := CreateRow(rowId, row);
      if ok {
        ok := ApplyBalanceEffect(ComputeBalanceEffect(RegularInput(row.entry)));
      }
    }

    /** create the installment and its one row, then deduct the full grand total. */
    method RecordCredit(rowId: Id, row: Row, instId: Id, inst: Installment) returns (ok: bool)
      modifies this`rows, this`wallets, this`installments
      ensures ok <==> CommitCreditExpense(old(State()), rowId, row, instId, inst).Ok?
      ensures ok ==> State() == CommitCreditExpense(old(State()), rowId, row, instId, inst).value
    {
      ok := instId !in installments && inst.walletId in wallets;
      if ok {
        installments := installments[instId := inst];
        ok := CreateRow(rowId, row);
        if ok {
          ok := ApplyBalanceDeltas([Delta(row.entry.walletId, -inst.grandTotal)]);
        }
      }
    }

    /** reverse the row that was read, write the changed fields, apply the planned effect. */
    method Revise(rowId: Id, existing: Row, v: Revision) returns (ok: bool)
      modifies this`rows, this`wallets
      ensures ok <==> CommitRevise(old(State()), rowId, existing, v).Ok?
      ensures ok ==> State() == CommitRevise(old(State()), rowId, existing, v).value
    {
      ok := ApplyBalanceEffect(ReverseBalanceEffect(RegularInput(existing.entry)));
      if ok {
        ok := rowId in rows && ReferencesExist(State(), Revised(rows[rowId], v));
        if ok {
          rows := rows[rowId := Revised(rows[rowId], v)];
          ok := ApplyBalanceEffect(ComputeBalanceEffect(v.effect));
        }
      }
    }

    /** reverse the exact effect, delete the row, delete its installment. */
    method Remove(rowId: Id, existing: Row, grandTotal: int) returns (ok: bool)
      modifies this
      ensures ok <==> CommitRemove(old(State()), rowId, existing, grandTotal).Ok?
      ensures ok ==> State() == CommitRemove(old(State()), rowId, existing, grandTotal).value
    {
      var e := existing.entry;
      ok := ApplyBalanceEffect(ReverseBalanceEffect(if e.isInstallment then InstallmentInput(e, grandTotal) else RegularInput(e)));
      if ok {
        ok := DropRow(rowId);
        if ok && e.isInstallment && e.installmentId.Some? {
          ok := DropInstallment(e.installmentId.value);
        }
      }
    }

    method DropInstallment(id: Id) returns (ok: bool)
      modifies this`installments, this`rows, this`events
      ensures ok <==> DeleteInstallment(old(State()), id).Ok?
      ensures ok ==> State() == DeleteInstallment(old(State()), id).value
    {
      ok := id in installments;
      if ok {
        installments := installments - {id};
        rows := map k | k in rows :: Unlink(rows[k], {id});
        events := map e | e in events && events[e].installmentId != Some(id) :: events[e];
      }
    }

    /** record the transfer, then advance the terms. */
    method Pay(p: Plan) returns (ok: bool)
      requires p.PayTerm?
      modifies this`rows, this`wallets, this`installments
      ensures ok <==> CommitPay(old(State()), p).Ok?
      ensures ok ==> State() == CommitPay(old(State()), p).value
    {
      ok := Record(p.rowId, p.row);
      if ok {
        ok := p.instId in installments;
        if ok {
          installments := installments[p.instId := installments[p.instId].(
            currentTerm := p.currentTerm, paidTerms := p.paidTerms, nextDueDate := p.due, status := p.status)];
        }
      }
    }

    /** record the transaction, then complete the reminder unless someone else did. */
    method Complete(rowId: Id, row: Row, eventId: Id) returns (ok: bool)
      modifies this`rows, this`wallets, this`events
      ensures ok <==> CommitComplete(old(State()), rowId, row, eventId).Ok?
      ensures ok ==> State() == CommitComplete(old(State()), rowId, row, eventId).value
    {
      ok := Record(rowId, row);
      if ok {
        ok := eventId in events && events[eventId].userId == row.userId && !events[eventId].isCompleted;
        if ok {
          events := events[eventId := events[eventId].(isCompleted := true, generated := Some(rowId))];
        }
      }
    }

    method CloseWalletRow(w: Id) returns (ok: bool)
      modifies this
      ensures ok <==> Ledger.DeleteWallet(old(State()), w).Ok?
      ensures ok ==> State() == Ledger.DeleteWallet(old(State()), w).value
    {
      ok := w in wallets;
      if ok {
        var gone, goneTemplates := InstallmentsOf(State(), w), TemplatesOf(State(), w);
        wallets := wallets - {w};
        rows := map k | k in rows && rows[k].entry.walletId != w :: Unlink(WithoutWallet(rows[k], w), gone);
        installments := installments - gone;
        templates := templates - goneTemplates;
        events := map e | e in events
                    && !(events[e].installmentId.Some? && events[e].installmentId.value in gone)
                    && !(events[e].templateId.Some? && events[e].templateId.value in goneTemplates) :: events[e];
      }
    }

    /** One database transaction: the statements of the plan, or the tables as they were. */
    method RunTransaction(p: Plan) returns (ok: bool)
      modifies this
      ensures ok <==> Commit(old(State()), p).Ok?
      ensures State() == if ok then Commit(old(State()), p).value else old(State())
    {
      var saved := State();
      match p {
        case RecordRow(rowId, row) => ok := Record(rowId, row);
        case RecordCreditExpense(rowId, row, instId, inst) => ok := RecordCredit(rowId, row, instId, inst);
        case ReviseRow(rowId, existing, v) => ok := Revise(rowId, existing, v);
        case RemoveRow(rowId, existing, grandTotal) => ok := Remove(rowId, existing, grandTotal);
        case PayTerm(_, _, _, _, _, _, _) => ok := Pay(p);
        case CompleteReminder(rowId, row, eventId) => ok := Complete(rowId, row, eventId);
        case OpenWallet(w, wallet) =>
          ok := w !in wallets;
          if ok {
            wallets := wallets[w := wallet];
          }
        case EditWallet(w, r) =>
          ok := w in wallets;
          if ok {
            wallets := wallets[w := Edited(wallets[w], r)];
          }
        case CloseWallet(w) => ok := CloseWalletRow(w);
      }
      if !ok {
        Restore(saved);
      }
    }

    /** Serve one request: validate on the tables, then run its transaction. */
    method Handle(q: Request) returns (r: Result<bool, Error>)
      modifies this
      ensures State() == After(old(State()), q)
      ensures r.Ok? <==> Serve(old(State()), q).Ok?
      ensures Prepare(old(State()), q).Err? ==> r == Err(Serve(old(State()), q).error)
      ensures old(Valid(State())) ==> Valid(State())
    {
      ghost var before := State();
      var p := Prepare(State(), q);
      if p.Err? {
        r := Err(p.error);
      } else {
        var ok := RunTransaction(p.value);
        r := if ok then Ok(true) else Err(Conflict);
      }
      if Valid(before) {
        ServeKeepsValid(before, q);
      }
    }
  }
}
