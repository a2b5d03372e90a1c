/**
 * How one transaction moves money between wallets, and the slow definition of a balance:
 * opening balance plus the effect of every row.
 */
module TransactionBalance {
  import opened Common
  import opened SeqSums

  datatype TxType = Income | Expense | Transfer

  /** A signed change of one wallet: applying it is always `balance += amount`. */
  datatype Delta = Delta(walletId: Id, amount: int)

  datatype EffectInput = EffectInput(
    txType: TxType, amount: int, walletId: Id, toWalletId: Option<Id>,
    isInstallment: bool, installmentGrandTotal: Option<int>)

  /** None stands for the thrown error: strict mode refuses what it cannot fully apply. */
  function BalanceDeltas(input: EffectInput, strict: bool): Option<seq<Delta>> {
    if input.isInstallment then
      match input.installmentGrandTotal
      case None => if strict then None else Some([Delta(input.walletId, -input.amount)])
      case Some(grand) => Some([Delta(input.walletId, -grand)])
    else
      match input.txType
      case Income => Some([Delta(input.walletId, input.amount)])
      case Expense => Some([Delta(input.walletId, -input.amount)])
      case Transfer =>
        match input.toWalletId
        case Some(to) => Some([Delta(input.walletId, -input.amount), Delta(to, input.amount)])
        case None => if strict then None else Some([Delta(input.walletId, -input.amount)])
  }

  function ComputeBalanceEffect(input: EffectInput): Option<seq<Delta>> {
    BalanceDeltas(input, true)
  }

  function Negated(deltas: seq<Delta>): (r: seq<Delta>)
    ensures |r| == |deltas|
    ensures forall i :: 0 <= i < |r| ==> r[i] == Delta(deltas[i].walletId, -deltas[i].amount)
  {
    if deltas == [] then [] else [Delta(deltas[0].walletId, -deltas[0].amount)] + Negated(deltas[1..])
  }

  function ReverseBalanceEffect(input: EffectInput): Option<seq<Delta>> {
    match ComputeBalanceEffect(input)
    case None => None
    case Some(deltas) => Some(Negated(deltas))
  }

  /** What a list of deltas adds to one wallet. */
  function Net(deltas: seq<Delta>, w: Id): int {
    if deltas == [] then 0
    else Net(deltas[..|deltas| - 1], w) + (var last := deltas[|deltas| - 1]; if last.walletId == w then last.amount else 0)
  }

  /** What one transaction contributes to one wallet. */
  function Effect(input: EffectInput, w: Id): int {
    Net(BalanceDeltas(input, false).value, w)
  }

  lemma {:induction false} NetNegated(deltas: seq<Delta>, w: Id)
    ensures Net(Negated(deltas), w) == -Net(deltas, w)
  {
    if deltas != [] {
      var n := |deltas| - 1;
      assert Negated(deltas)[..n] == Negated(deltas[..n]);
      NetNegated(deltas[..n], w);
    }
  }

  lemma NetOfOne(d: Delta, w: Id)
    ensures Net([d], w) == if d.walletId == w then d.amount else 0
  {
    assert [d][..0] == [];
  }

  lemma NetOfTwo(d: Delta, e: Delta, w: Id)
    ensures Net([d, e], w) == Net([d], w) + Net([e], w)
  {
    assert [d, e][..1] == [d];
    NetOfOne(d, w);
    NetOfOne(e, w);
  }

  /** The money movement in closed form: a debit of the source, a credit of the destination. */
  lemma EffectClosedForm(input: EffectInput, w: Id)
    ensures Effect(input, w) ==
      if input.isInstallment then
        if w == input.walletId then -(if input.installmentGrandTotal.Some? then input.installmentGrandTotal.value else input.amount) else 0
      else
        (if w != input.walletId then 0 else if input.txType == Income then input.amount else -input.amount)
        + (if input.txType == Transfer && input.toWalletId == Some(w) then input.amount else 0)
  {
    var deltas := BalanceDeltas(input, false).value;
    if |deltas| == 2 {
      assert deltas == [deltas[0], deltas[1]];
      NetOfTwo(deltas[0], deltas[1], w);
      NetOfOne(deltas[0], w);
      NetOfOne(deltas[1], w);
    } else {
      assert deltas == [deltas[0]];
      NetOfOne(deltas[0], w);
    }
  }

  /** A transfer between two different wallets neither creates nor destroys money. */
  lemma TransferConservesMoney(input: EffectInput)
    requires input.txType == Transfer && !input.isInstallment && input.toWalletId.Some? && input.toWalletId.value != input.walletId
    ensures Effect(input, input.walletId) + Effect(input, input.toWalletId.value) == 0
    ensures forall w :: w != input.walletId && w != input.toWalletId.value ==> Effect(input, w) == 0
  {
    forall w ensures Effect(input, w) == (if w == input.walletId then -input.amount else if w == input.toWalletId.value then input.amount else 0) {
      EffectClosedForm(input, w);
    }
  }

  /** Reversal undoes creation exactly, wallet by wallet, whenever creation was possible. */
  lemma ReversalIsExact(input: EffectInput, w: Id)
    requires ComputeBalanceEffect(input).Some?
    ensures ReverseBalanceEffect(input).Some?
    ensures Net(ComputeBalanceEffect(input).value, w) == Effect(input, w)
    ensures Net(ReverseBalanceEffect(input).value, w) == -Effect(input, w)
  {
    NetNegated(ComputeBalanceEffect(input).value, w);
  }

  // ---------------------------------------------------------------- applying deltas

  /** Balances after crediting every wallet with its share of `deltas`. */
  function Credited(balances: map<Id, int>, deltas: seq<Delta>): (r: map<Id, int>)
    ensures r.Keys == balances.Keys
  {
    map w | w in balances :: balances[w] + Net(deltas, w)
  }

  // ---------------------------------------------------------------- reconciliation

  datatype LedgerRow = LedgerRow(
    txType: TxType, amount: int, walletId: Id, toWalletId: Option<Id>,
    isInstallment: bool, installmentId: Option<Id>)

  datatype WalletSnapshot = WalletSnapshot(id: Id, initialBalance: int, balance: int)

  datatype WalletReconciliation = WalletReconciliation(walletId: Id, stored: int, expected: int, drift: int)

  function AuditInput(row: LedgerRow, grandTotals: map<Id, int>): EffectInput {
    var grand := if row.isInstallment && row.installmentId.Some? && row.installmentId.value in grandTotals
                 then Some(grandTotals[row.installmentId.value]) else None;
    EffectInput(row.txType, row.amount, row.walletId, row.toWalletId, row.isInstallment, grand)
  }

  function RowEffect(row: LedgerRow, grandTotals: map<Id, int>, w: Id): int {
    Effect(AuditInput(row, grandTotals), w)
  }

  function SumEffects(rows: seq<LedgerRow>, grandTotals: map<Id, int>, w: Id): int {
    SumOf(rows, EffectOn(grandTotals, w))
  }

  lemma SumEffectsStep(rows: seq<LedgerRow>, n: int, grandTotals: map<Id, int>, w: Id)
    requires 0 <= n < |rows|
    ensures SumEffects(rows[..n + 1], grandTotals, w) == SumEffects(rows[..n], grandTotals, w) + RowEffect(rows[n], grandTotals, w)
  {
    assert rows[..n + 1][..n] == rows[..n];
  }

  function EffectOn(grandTotals: map<Id, int>, w: Id): LedgerRow -> int {
    row => RowEffect(row, grandTotals, w)
  }

  /** The opening balance recorded for `w`; the last of several snapshots would win. */
  function OpeningOf(wallets: seq<WalletSnapshot>, w: Id): Option<int> {
    if wallets == [] then None
    else if wallets[|wallets| - 1].id == w then Some(wallets[|wallets| - 1].initialBalance)
    else OpeningOf(wallets[..|wallets| - 1], w)
  }

  ghost predicate DistinctIds(wallets: seq<WalletSnapshot>) {
    forall i, j :: 0 <= i < j < |wallets| ==> wallets[i].id != wallets[j].id
  }

  lemma {:induction false} OpeningIsOwn(wallets: seq<WalletSnapshot>, i: int)
    requires DistinctIds(wallets) && 0 <= i < |wallets|
    ensures OpeningOf(wallets, wallets[i].id) == Some(wallets[i].initialBalance)
    decreases |wallets|
  {
    var n := |wallets| - 1;
    if i < n {
      OpeningIsOwn(wallets[..n], i);
    }
  }

  /** Expected opening-plus-effects for every known wallet. */
  ghost predicate Expects(expected: map<Id, int>, wallets: seq<WalletSnapshot>, rows: seq<LedgerRow>, grandTotals: map<Id, int>) {
    && (forall w :: w in expected <==> OpeningOf(wallets, w).Some?)
    && (forall w :: w in expected ==> expected[w] == OpeningOf(wallets, w).value + SumEffects(rows, grandTotals, w))
  }

  lemma ExpectsRow(expected: map<Id, int>, wallets: seq<WalletSnapshot>, rows: seq<LedgerRow>, i: int, grandTotals: map<Id, int>)
    requires 0 <= i < |rows| && Expects(expected, wallets, rows[..i], grandTotals)
    ensures var deltas := BalanceDeltas(AuditInput(rows[i], grandTotals), false).value;
      Expects(Credited(expected, deltas), wallets, rows[..i + 1], grandTotals)
  {
    forall w ensures SumEffects(rows[..i + 1], grandTotals, w) == SumEffects(rows[..i], grandTotals, w) + RowEffect(rows[i], grandTotals, w) {
      SumEffectsStep(rows, i, grandTotals, w);
    }
  }

  method AddKnown(expected: map<Id, int>, deltas: seq<Delta>) returns (r: map<Id, int>)
    ensures r == Credited(expected, deltas)
  {
    r := expected;
    for i := 0 to |deltas|
      invariant r == Credited(expected, deltas[..i])
    {
      var d := deltas[i];
      assert deltas[..i + 1][..i] == deltas[..i];
      if d.walletId in r {
        r := r[d.walletId := r[d.walletId] + d.amount];
      }
    }
    assert deltas[..|deltas|] == deltas;
  }

  /** The audit of the running balances against the ledger: drift is stored minus expected. */
  method ReconcileWalletBalances(wallets: seq<WalletSnapshot>, rows: seq<LedgerRow>, grandTotals: map<Id, int>)
    returns (report: seq<WalletReconciliation>)
    ensures |report| == |wallets|
    ensures forall i :: 0 <= i < |wallets| ==> OpeningOf(wallets, wallets[i].id).Some?
    ensures forall i :: 0 <= i < |wallets| ==>
      var expected := OpeningOf(wallets, wallets[i].id).value + SumEffects(rows, grandTotals, wallets[i].id);
      report[i] == WalletReconciliation(wallets[i].id, wallets[i].balance, expected, wallets[i].balance - expected)
  {
    var expected: map<Id, int> := map[];
    for i := 0 to |wallets|
      invariant Expects(expected, wallets[..i], [], grandTotals)
      invariant forall j :: 0 <= j < i ==> wallets[j].id in expected
    {
      assert wallets[..i + 1][..i] == wallets[..i];
      expected := expected[wallets[i].id := wallets[i].initialBalance];
    }
    assert wallets[..|wallets|] == wallets;
    for i := 0 to |rows|
      invariant Expects(expected, wallets, rows[..i], grandTotals)
    {
      ExpectsRow(expected, wallets, rows, i, grandTotals);
      var deltas := BalanceDeltas(AuditInput(rows[i], grandTotals), false).value;
      expected := AddKnown(expected, deltas);
    }
    assert rows[..|rows|] == rows;
    report := [];
    for i := 0 to |wallets|
      invariant |report| == i
      invariant forall j :: 0 <= j < i ==>
        report[j] == WalletReconciliation(wallets[j].id, wallets[j].balance, expected[wallets[j].id], wallets[j].balance - expected[wallets[j].id])
    {
      var w := wallets[i];
      report := report + [WalletReconciliation(w.id, w.balance, expected[w.id], w.balance - expected[w.id])];
    }
  }

  /** Auditing two ledgers one after the other adds their effects. */
  lemma SumEffectsConcat(a: seq<LedgerRow>, b: seq<LedgerRow>, grandTotals: map<Id, int>, w: Id)
    ensures SumEffects(a + b, grandTotals, w) == SumEffects(a, grandTotals, w) + SumEffects(b, grandTotals, w)
  {
    SumOfConcat(a, b, EffectOn(grandTotals, w));
  }

  /** The order of the ledger does not matter: only which rows it holds. */
  lemma SumEffectsReorder(a: seq<LedgerRow>, b: seq<LedgerRow>, grandTotals: map<Id, int>, w: Id)
    requires multiset(a) == multiset(b)
    ensures SumEffects(a, grandTotals, w) == SumEffects(b, grandTotals, w)
  {
    SumOfReorder(a, b, EffectOn(grandTotals, w));
  }
}
