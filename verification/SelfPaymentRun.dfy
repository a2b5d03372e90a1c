/**
 * How a transfer from a wallet to itself gets into the ledger. A payment never compares its source
 * with the bill's wallet: it only asks for an asset wallet. A credit wallet retyped to an asset
 * wallet after a purchase is one, and is still the wallet of the bill.
 */
module SelfPaymentRun {
  import opened Common
  import opened BillingCycle
  import opened TransactionBalance
  import opened Ledger
  import opened Requests
  import opened LedgerInvariant
  import opened InstallmentPlan
  import opened Sparkline

  /** Who acts, on which wallet, and the identifiers the rows will get. */
  datatype Actor = Actor(
    userId: Id, w: Id, spending: Id, earning: Id, date: CalendarDate, purchase: Id, income: Id, payment: Id, bill: Id)

  ghost predicate Ready(s: Store, a: Actor) {
    && Valid(s)
    && a.w !in s.wallets && a.bill !in s.installments
    && a.purchase !in s.rows && a.income !in s.rows && a.payment !in s.rows
    && a.purchase != a.income && a.purchase != a.payment && a.income != a.payment
    && a.spending in s.categories && s.categories[a.spending] == Category(a.userId, Expense)
    && a.earning in s.categories && s.categories[a.earning] == Category(a.userId, Income)
  }

  function Opening(a: Actor, limit: int): Request {
    CreateWallet(WalletInput(a.userId, Some(CreditCard), None, None, Some(limit), None, None), a.w)
  }

  function Purchase(a: Actor, amount: int): Request {
    CreateTransaction(
      CreateInput(a.userId, Some(Expense), Some(amount), Some(a.w), None, None, Some(a.spending), Some(a.date), false,
                  None, None, None, Some(Some(a.date))), a.purchase, a.bill)
  }

  function Retyping(a: Actor): Request {
    UpdateWallet(a.userId, a.w, WalletEdit(Some(Bank), None, None, None, None))
  }

  function Earning(a: Actor, amount: int): Request {
    CreateTransaction(
      CreateInput(a.userId, Some(Income), Some(amount), Some(a.w), None, None, Some(a.earning), Some(a.date), false,
                  None, None, None, None), a.income, a.bill)
  }

  function PayingFromItself(a: Actor): Request {
    PayInstallment(PayInput(a.userId, a.bill, None, a.w, Some(a.date)), a.payment)
  }

  /** The wallet and the bill as they stand between two of the steps; other rows do not matter. */
  ghost predicate Stands(s: Store, a: Actor, wallet: Wallet, bill: Option<Installment>, rows: set<Id>, was: Store) {
    && a.w in s.wallets && s.wallets[a.w] == wallet
    && (if bill.Some? then a.bill in s.installments && s.installments[a.bill] == bill.value else a.bill !in s.installments)
    && s.rows.Keys == was.rows.Keys + rows
    && s.categories == was.categories
  }

  function CardOf(a: Actor, t: WalletType, balance: int, limit: int): Wallet {
    Wallet(a.userId, t, balance, 0, limit, None, None)
  }

  function BillOf(a: Actor, plan: InstallmentPlan.Plan): Installment {
    Installment(a.userId, a.w, plan.grandTotal, plan.monthlyAmount, 1, FullBill, 1, 0, a.date, Active)
  }

  lemma Opens(s: Store, a: Actor, limit: int)
    requires Ready(s, a) && limit > 0
    ensures Serve(s, Opening(a, limit)).Ok?
    ensures Stands(After(s, Opening(a, limit)), a, CardOf(a, CreditCard, 0, limit), None, {}, s)
  {
  }

  lemma Buys(s: Store, a: Actor, was: Store, amount: int, plan: InstallmentPlan.Plan)
    requires Ready(was, a) && Stands(s, a, CardOf(a, CreditCard, 0, plan.grandTotal), None, {}, was)
    requires amount > 0 && ComputeInstallmentPlan(amount, 0.0, 1) == Ok(plan) && plan.grandTotal > 0
    ensures Serve(s, Purchase(a, amount)).Ok?
    ensures Stands(After(s, Purchase(a, amount)), a, CardOf(a, CreditCard, -plan.grandTotal, plan.grandTotal),
                   Some(BillOf(a, plan)), {a.purchase}, was)
  {
    NetOfOne(Delta(a.w, -plan.grandTotal), a.w);
  }

  lemma Retypes(s: Store, a: Actor, was: Store, balance: int, limit: int, bill: Installment)
    requires Stands(s, a, CardOf(a, CreditCard, balance, limit), Some(bill), {a.purchase}, was)
    ensures Serve(s, Retyping(a)).Ok?
    ensures Stands(After(s, Retyping(a)), a, CardOf(a, Bank, balance, limit), Some(bill), {a.purchase}, was)
  {
  }

  lemma Earns(s: Store, a: Actor, was: Store, amount: int, balance: int, limit: int, bill: Installment)
    requires Ready(was, a) && Stands(s, a, CardOf(a, Bank, balance, limit), Some(bill), {a.purchase}, was) && amount > 0
    ensures Serve(s, Earning(a, amount)).Ok?
    ensures Stands(After(s, Earning(a, amount)), a, CardOf(a, Bank, balance + amount, limit), Some(bill), {a.purchase, a.income}, was)
  {
    NetOfOne(Delta(a.w, amount), a.w);
    assert ComputeBalanceEffect(EffectInput(Income, amount, a.w, None, false, None)) == Some([Delta(a.w, amount)]);
  }

  lemma PaysItself(s: Store, a: Actor, was: Store, limit: int, plan: InstallmentPlan.Plan)
    requires Ready(was, a) && plan.grandTotal > 0
    requires Stands(s, a, CardOf(a, Bank, plan.grandTotal, limit), Some(BillOf(a, plan)), {a.purchase, a.income}, was)
    ensures Serve(s, PayingFromItself(a)).Ok?
    ensures var s' := After(s, PayingFromItself(a));
      && a.payment in s'.rows && SelfTransfer(s'.rows[a.payment].entry, a.w)
      && a.w in s'.wallets && s'.wallets[a.w].balance == plan.grandTotal
      && a.bill in s'.installments && s'.installments[a.bill].status == Settled
  {
    var deltas := [Delta(a.w, -plan.grandTotal), Delta(a.w, plan.grandTotal)];
    assert ComputeBalanceEffect(EffectInput(Transfer, plan.grandTotal, a.w, Some(a.w), false, None)) == Some(deltas);
    NetOfTwo(deltas[0], deltas[1], a.w);
    NetOfOne(deltas[0], a.w);
    NetOfOne(deltas[1], a.w);
  }

  /**
   * Open a credit card, buy on it, retype it to a bank account, book an income there, pay the bill
   * from it: all five are accepted, the ledger stays valid, the stored payment is a transfer of the
   * wallet to itself, the balance is what it was before the payment, and the bill is settled.
   */
  lemma SelfTransferIsStored(s: Store, a: Actor, amount: int, plan: InstallmentPlan.Plan) returns (before: Store, after: Store)
    requires Ready(s, a) && amount > 0 && ComputeInstallmentPlan(amount, 0.0, 1) == Ok(plan)
    ensures before == After(After(After(After(s, Opening(a, plan.grandTotal)), Purchase(a, amount)), Retyping(a)), Earning(a, 2 * plan.grandTotal))
    ensures Serve(before, PayingFromItself(a)) == Ok(after) && Valid(after)
    ensures a.payment in after.rows && SelfTransfer(after.rows[a.payment].entry, a.w)
    ensures a.w in before.wallets && a.w in after.wallets && after.wallets[a.w].balance == before.wallets[a.w].balance
    ensures a.bill in after.installments && after.installments[a.bill].status == Settled
    ensures ReportingEffect(after.rows[a.payment].entry, GrandTotals(after), a.w) != RowEffect(after.rows[a.payment].entry, GrandTotals(after), a.w)
  {
    PlanIsDefined(amount, 0.0, 1);
    var g := plan.grandTotal;
    var s1 := After(s, Opening(a, g));
    Opens(s, a, g);
    ServeKeepsValid(s, Opening(a, g));
    var s2 := After(s1, Purchase(a, amount));
    Buys(s1, a, s, amount, plan);
    ServeKeepsValid(s1, Purchase(a, amount));
    var s3 := After(s2, Retyping(a));
    Retypes(s2, a, s, -g, g, BillOf(a, plan));
    ServeKeepsValid(s2, Retyping(a));
    before := After(s3, Earning(a, 2 * g));
    Earns(s3, a, s, 2 * g, -g, g, BillOf(a, plan));
    ServeKeepsValid(s3, Earning(a, 2 * g));
    after := After(before, PayingFromItself(a));
    PaysItself(before, a, s, g, plan);
    ServeKeepsValid(before, PayingFromItself(a));
    ReportingAgrees(after.rows[a.payment].entry, GrandTotals(after), a.w);
  }
}
