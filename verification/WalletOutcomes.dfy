/** What opening, editing and closing a wallet do to the tables. */
module WalletOutcomes {
  import opened Common
  import opened TransactionBalance
  import opened Ledger
  import opened Requests
  import opened TransactionOutcomes

  ghost predicate OnlyWallets(s: Store, s': Store) {
    s'.rows == s.rows && OnlyRowsAndBalances(s, s')
  }

  // ---------------------------------------------------------------- open

  function TypeOf(r: WalletInput): WalletType {
    if r.walletType.Some? then r.walletType.value else Cash
  }

  predicate BillingDaysFit(cutoffDay: Option<int>, paymentDueDay: Option<int>) {
    && (cutoffDay.Some? ==> 1 <= cutoffDay.value <= 31)
    && (paymentDueDay.Some? ==> 1 <= paymentDueDay.value <= 31)
  }

  /** An asset opens with no debt, a credit account with a limit, a loan with a principal and no credit terms. */
  predicate OpenAllowed(r: WalletInput) {
    && BillingDaysFit(r.cutoffDay, r.paymentDueDay)
    && match TypeOf(r)
       case Loan => r.principal.Some? && r.principal.value > 0 && r.creditLimit.None? && r.cutoffDay.None? && r.paymentDueDay.None?
       case CreditCard => r.principal.None? && r.creditLimit.Some? && r.creditLimit.value > 0
       case Paylater => r.principal.None? && r.creditLimit.Some? && r.creditLimit.value > 0
       case _ => r.principal.None? && (r.balance.Some? ==> r.balance.value >= 0)
  }

  /** A loan opens owing its principal, a credit account owing nothing, an asset at the balance given. */
  ghost predicate OpensAt(wallet: Wallet, r: WalletInput) {
    && wallet.userId == r.userId && wallet.walletType == TypeOf(r) && wallet.initialBalance == wallet.balance
    && (wallet.walletType == Loan ==> r.principal == Some(-wallet.balance))
    && (OnCredit(wallet) ==> wallet.balance == 0)
    && (HoldsMoney(wallet) ==> if r.balance.Some? then wallet.balance == r.balance.value else wallet.balance == 0)
    && (if OnCredit(wallet) then r.creditLimit == Some(wallet.creditLimit) && r.cutoffDay == wallet.cutoffDay && r.paymentDueDay == wallet.paymentDueDay
        else wallet.creditLimit == 0 && wallet.cutoffDay.None? && wallet.paymentDueDay.None?)
  }

  /** A wallet is opened exactly when its kind's fields are right; nothing else changes. */
  lemma OpenOutcome(s: Store, r: WalletInput, w: Id)
    ensures var served := Serve(s, CreateWallet(r, w));
      && (served.Ok? <==> OpenAllowed(r) && w !in s.wallets)
      && (served.Ok? ==>
            && w in served.value.wallets && OpensAt(served.value.wallets[w], r)
            && served.value.wallets - {w} == s.wallets && OnlyWallets(s, served.value))
      && (served.Err? && !OpenAllowed(r) ==> served.error == BadRequest)
  {
    if PrepareWallet(r, w).Ok? && w !in s.wallets {
      var wallet := PrepareWallet(r, w).value.wallet;
      assert s.wallets[w := wallet] - {w} == s.wallets;
    }
  }

  // ---------------------------------------------------------------- edit

  /** Credit terms are for credit accounts, and the balance is no part of an edit unless it is only echoed. */
  predicate EditFits(s: Store, userId: Id, w: Id, r: WalletEdit) {
    && BillingDaysFit(r.cutoffDay, r.paymentDueDay) && Has(s, userId, w)
    && (r.creditLimit.Some? || r.cutoffDay.Some? || r.paymentDueDay.Some? ==> OnCredit(s.wallets[w]))
    && (r.creditLimit.Some? ==> r.creditLimit.value > 0)
  }

  predicate Echoed(wallet: Wallet, r: WalletEdit) {
    r.balance.None? || r.balance == Some(wallet.balance)
  }

  /** What was given is stored, what was not is kept, and owner and balances never change. */
  ghost predicate EditStored(before: Wallet, wallet: Wallet, r: WalletEdit) {
    && wallet.userId == before.userId && wallet.balance == before.balance && wallet.initialBalance == before.initialBalance
    && (if r.walletType.Some? then r.walletType == Some(wallet.walletType) else wallet.walletType == before.walletType)
    && (if r.creditLimit.Some? then r.creditLimit == Some(wallet.creditLimit) else wallet.creditLimit == before.creditLimit)
    && wallet.cutoffDay == (if r.cutoffDay.Some? then r.cutoffDay else before.cutoffDay)
    && wallet.paymentDueDay == (if r.paymentDueDay.Some? then r.paymentDueDay else before.paymentDueDay)
  }

  /** An edit is served exactly when it fits and echoes the balance, and touches that wallet alone. */
  lemma EditOutcome(s: Store, userId: Id, w: Id, r: WalletEdit)
    ensures var served := Serve(s, UpdateWallet(userId, w, r));
      && (served.Ok? <==> EditFits(s, userId, w, r) && Echoed(s.wallets[w], r))
      && (served.Ok? ==>
            && w in served.value.wallets && EditStored(s.wallets[w], served.value.wallets[w], r)
            && served.value.wallets - {w} == s.wallets - {w} && OnlyWallets(s, served.value))
      && (EditFits(s, userId, w, r) && !Echoed(s.wallets[w], r) ==> served == Err(BalanceUpdateNotAllowed))
      && (BillingDaysFit(r.cutoffDay, r.paymentDueDay) && !Has(s, userId, w) ==> served == Err(NotFound))
  {
    if PrepareEdit(s, userId, w, r).Ok? {
      assert s.wallets[w := Edited(s.wallets[w], r)] - {w} == s.wallets - {w};
    }
  }

  // ---------------------------------------------------------------- close

  ghost predicate InTransfers(s: Store, userId: Id, w: Id) {
    exists k :: IsTransferOf(s, userId, w, k)
  }

  ghost predicate HasRows(s: Store, userId: Id, w: Id) {
    exists k :: k in s.rows && s.rows[k].userId == userId && s.rows[k].entry.walletId == w
  }

  /** A wallet in no transfer, and with no rows unless the caller insists. */
  ghost predicate CloseAllowed(s: Store, userId: Id, w: Id, force: bool) {
    Has(s, userId, w) && !InTransfers(s, userId, w) && (force || !HasRows(s, userId, w))
  }

  predicate BillIn(s: Store, w: Id, i: Option<Id>) {
    i.Some? && i.value in s.installments && s.installments[i.value].walletId == w
  }

  predicate TemplateIn(s: Store, w: Id, t: Option<Id>) {
    t.Some? && t.value in s.templates && s.templates[t.value].walletId == w
  }

  /** The wallet goes with its rows, bills, templates and their reminders; all the rest stays as it is. */
  ghost predicate Closed(s: Store, w: Id, s': Store) {
    && s'.wallets == s.wallets - {w}
    && s'.rows == (map k | k in s.rows && s.rows[k].entry.walletId != w :: s.rows[k])
    && s'.installments == (map i | i in s.installments && s.installments[i].walletId != w :: s.installments[i])
    && s'.templates == (map t | t in s.templates && s.templates[t].walletId != w :: s.templates[t])
    && s'.events == (map e | e in s.events && !BillIn(s, w, s.events[e].installmentId) && !TemplateIn(s, w, s.events[e].templateId) :: s.events[e])
    && s'.categories == s.categories
  }

  lemma RowCountIsZero(s: Store, userId: Id, w: Id)
    ensures RowCount(s, userId, w) == 0 <==> !HasRows(s, userId, w)
  {
    var found := set k | k in s.rows && s.rows[k].userId == userId && s.rows[k].entry.walletId == w;
    if HasRows(s, userId, w) {
      var k :| k in s.rows && s.rows[k].userId == userId && s.rows[k].entry.walletId == w;
      assert k in found;
    }
  }

  lemma PrepareCloseExactly(s: Store, userId: Id, w: Id, force: bool)
    ensures PrepareClose(s, userId, w, force) ==
      if CloseAllowed(s, userId, w, force) then Ok(CloseWallet(w)) else Err(if Has(s, userId, w) then Conflict else NotFound)
  {
    RowCountIsZero(s, userId, w);
  }

  /** No row that stays points at the wallet or at a bill of the wallet. */
  lemma OthersStay(s: Store, userId: Id, w: Id, k: Id)
    requires Intact(s) && Has(s, userId, w) && !InTransfers(s, userId, w) && k in s.rows && s.rows[k].entry.walletId != w
    ensures Unlink(WithoutWallet(s.rows[k], w), InstallmentsOf(s, w)) == s.rows[k]
  {
    assert RowOk(s, s.rows[k]);
    assert !IsTransferOf(s, userId, w, k);
  }

  lemma RowsStay(s: Store, userId: Id, w: Id, s': Store)
    requires Intact(s) && Has(s, userId, w) && !InTransfers(s, userId, w) && Ledger.DeleteWallet(s, w) == Ok(s')
    ensures s'.rows == map k | k in s.rows && s.rows[k].entry.walletId != w :: s.rows[k]
  {
    forall k | k in s.rows && s.rows[k].entry.walletId != w ensures s'.rows[k] == s.rows[k] {
      OthersStay(s, userId, w, k);
    }
  }

  lemma WhatHangsGoes(s: Store, w: Id, s': Store)
    requires Ledger.DeleteWallet(s, w) == Ok(s')
    ensures s'.installments == map i | i in s.installments && s.installments[i].walletId != w :: s.installments[i]
    ensures s'.templates == map t | t in s.templates && s.templates[t].walletId != w :: s.templates[t]
  {
  }

  lemma RemindersGo(s: Store, w: Id, s': Store)
    requires Ledger.DeleteWallet(s, w) == Ok(s')
    ensures s'.events == map e | e in s.events && !BillIn(s, w, s.events[e].installmentId) && !TemplateIn(s, w, s.events[e].templateId) :: s.events[e]
  {
  }

  lemma CloseCommits(s: Store, userId: Id, w: Id)
    requires Intact(s) && Has(s, userId, w) && !InTransfers(s, userId, w)
    ensures Ledger.DeleteWallet(s, w).Ok? && Closed(s, w, Ledger.DeleteWallet(s, w).value)
  {
    var s' := Ledger.DeleteWallet(s, w).value;
    RowsStay(s, userId, w, s');
    WhatHangsGoes(s, w, s');
    RemindersGo(s, w, s');
  }

  /** Closing a wallet is served exactly when it is allowed, and takes only what hangs on the wallet. */
  lemma CloseOutcome(s: Store, userId: Id, w: Id, force: bool)
    requires Intact(s)
    ensures var served := Serve(s, Request.DeleteWallet(userId, w, force));
      && (served.Ok? <==> CloseAllowed(s, userId, w, force))
      && (served.Ok? ==> Closed(s, w, served.value))
      && (served.Err? ==> served.error == if Has(s, userId, w) then Conflict else NotFound)
  {
    PrepareCloseExactly(s, userId, w, force);
    if CloseAllowed(s, userId, w, force) {
      CloseCommits(s, userId, w);
    }
  }
}
