/**
 * The wallet audit and the repair plan built from it: why a wallet drifts, how far that conclusion
 * can be trusted, and which stored balances a repair would change by how much.
 */
module Reconciliation {
  import opened Common
  import opened SeqSums
  import opened TransactionBalance

  datatype Classification =
    | Clean | LikelyInitialBalanceMissing | LegacyTransferUnresolved | ManualOverrideSuspected | UnclassifiedDrift

  datatype Confidence = High | Medium | Low

  datatype WalletAudit = WalletAudit(
    walletId: Id, stored: int, initialBalance: int, ledgerEffect: int, expected: int, drift: int,
    legacyTransferCount: int, classification: Classification, confidence: Confidence)

  datatype AuditReport = AuditReport(wallets: seq<WalletAudit>, legacyTransfers: seq<LedgerRow>, hasDrift: bool)

  datatype RepairProposal = RepairProposal(
    walletId: Id, classification: Classification, current: int, expected: int, difference: int,
    confidence: Confidence, requiresManualInvestigation: bool, autoApplyEligible: bool)

  function Classify(drift: int, hasLegacyTransfer: bool, initialBalanceZero: bool, override: bool): (Classification, Confidence) {
    if drift == 0 then (Clean, High)
    else if hasLegacyTransfer then (LegacyTransferUnresolved, Low)
    else if override then (ManualOverrideSuspected, Low)
    else if initialBalanceZero then (LikelyInitialBalanceMissing, Medium)
    else (UnclassifiedDrift, Low)
  }

  function IsLegacy(): LedgerRow -> bool {
    (row: LedgerRow) => row.txType == Transfer && row.toWalletId == None
  }

  predicate LegacyFrom(row: LedgerRow, w: Id) {
    row.txType == Transfer && row.toWalletId == None && row.walletId == w
  }

  function LegacyShare(w: Id): LedgerRow -> int {
    (row: LedgerRow) => if LegacyFrom(row, w) then 1 else 0
  }

  /** How many transfers without a destination leave a wallet. */
  function LegacyCount(rows: seq<LedgerRow>, w: Id): int {
    SumOf(rows, LegacyShare(w))
  }

  function ExpectedBalance(wallet: WalletSnapshot, rows: seq<LedgerRow>, grandTotals: map<Id, int>): int {
    wallet.initialBalance + SumEffects(rows, grandTotals, wallet.id)
  }

  /** What the audit reports of one wallet. */
  function AuditOf(wallet: WalletSnapshot, rows: seq<LedgerRow>, grandTotals: map<Id, int>, overrides: set<Id>): WalletAudit {
    var expected := ExpectedBalance(wallet, rows, grandTotals);
    var drift := wallet.balance - expected;
    var legacy := LegacyCount(rows, wallet.id);
    var (classification, confidence) := Classify(drift, legacy > 0, wallet.initialBalance == 0, wallet.id in overrides);
    WalletAudit(wallet.id, wallet.balance, wallet.initialBalance, expected - wallet.initialBalance, expected, drift,
                legacy, classification, confidence)
  }

  method CountLegacy(rows: seq<LedgerRow>) returns (counts: map<Id, int>, legacy: seq<LedgerRow>)
    ensures forall w :: (if w in counts then counts[w] else 0) == LegacyCount(rows, w)
    ensures legacy == Filtered(rows, IsLegacy())
  {
    counts, legacy := map[], [];
    for i := 0 to |rows|
      invariant forall w :: (if w in counts then counts[w] else 0) == LegacyCount(rows[..i], w)
      invariant legacy == Filtered(rows[..i], IsLegacy())
    {
      var row := rows[i];
      assert rows[..i + 1][..i] == rows[..i];
      if row.txType == Transfer && row.toWalletId == None {
        counts := counts[row.walletId := (if row.walletId in counts then counts[row.walletId] else 0) + 1];
        legacy := legacy + [row];
      }
    }
    assert rows[..|rows|] == rows;
  }

  function AuditWallet(w: WalletSnapshot, rec: WalletReconciliation, ghost rows: seq<LedgerRow>, ghost grandTotals: map<Id, int>,
                       count: int, overrides: set<Id>): (a: WalletAudit)
    requires rec.stored == w.balance && rec.expected == ExpectedBalance(w, rows, grandTotals) && rec.drift == rec.stored - rec.expected
    requires count == LegacyCount(rows, w.id)
    ensures a == AuditOf(w, rows, grandTotals, overrides)
  {
    var (classification, confidence) := Classify(rec.drift, count > 0, w.initialBalance == 0, w.id in overrides);
    WalletAudit(w.id, rec.stored, w.initialBalance, rec.expected - w.initialBalance, rec.expected,
                rec.drift, count, classification, confidence)
  }

  /** The audit of all wallets; the drift of each is the reconciliation's. */
  method AuditWalletBalances(wallets: seq<WalletSnapshot>, rows: seq<LedgerRow>, grandTotals: map<Id, int>, overrides: set<Id>)
    returns (report: AuditReport)
    requires DistinctIds(wallets)
    ensures |report.wallets| == |wallets|
    ensures forall i :: 0 <= i < |wallets| ==> report.wallets[i] == AuditOf(wallets[i], rows, grandTotals, overrides)
    ensures report.legacyTransfers == Filtered(rows, IsLegacy())
    ensures report.hasDrift <==> exists w :: w in wallets && w.balance != ExpectedBalance(w, rows, grandTotals)
  {
    var reconciliations := ReconcileWalletBalances(wallets, rows, grandTotals);
    var counts, legacy := CountLegacy(rows);
    var audited: seq<WalletAudit> := [];
    for i := 0 to |wallets|
      invariant |audited| == i
      invariant forall j :: 0 <= j < i ==> audited[j] == AuditOf(wallets[j], rows, grandTotals, overrides)
    {
      OpeningIsOwn(wallets, i);
      audited := audited + [AuditWallet(wallets[i], reconciliations[i], rows, grandTotals,
                                        if wallets[i].id in counts then counts[wallets[i].id] else 0, overrides)];
    }
    DriftSeen(wallets, audited, rows, grandTotals, overrides);
    report := AuditReport(audited, legacy, exists a :: a in audited && a.classification != Clean);
  }

  lemma DriftSeen(wallets: seq<WalletSnapshot>, audited: seq<WalletAudit>, rows: seq<LedgerRow>, g: map<Id, int>, overrides: set<Id>)
    requires |audited| == |wallets|
    requires forall i :: 0 <= i < |wallets| ==> audited[i] == AuditOf(wallets[i], rows, g, overrides)
    ensures (exists a :: a in audited && a.classification != Clean) <==> exists w :: w in wallets && w.balance != ExpectedBalance(w, rows, g)
  {
    if w :| w in wallets && w.balance != ExpectedBalance(w, rows, g) {
      var i :| 0 <= i < |wallets| && wallets[i] == w;
      assert audited[i] in audited;
    }
    if a :| a in audited && a.classification != Clean {
      var i :| 0 <= i < |audited| && audited[i] == a;
      assert wallets[i] in wallets;
    }
  }

  ghost predicate Drifts(wallet: WalletSnapshot, rows: seq<LedgerRow>, g: map<Id, int>) {
    wallet.balance != wallet.initialBalance + SumEffects(rows, g, wallet.id)
  }

  ghost predicate IsLegacySource(rows: seq<LedgerRow>, w: Id) {
    exists row :: row in rows && LegacyFrom(row, w)
  }

  /**
   * Why a wallet drifts: a transfer without a destination explains it before a manual override does,
   * and an override before an opening balance of zero. Only the last is trusted at all.
   */
  lemma AuditExplains(wallet: WalletSnapshot, rows: seq<LedgerRow>, g: map<Id, int>, overrides: set<Id>)
    ensures var a := AuditOf(wallet, rows, g, overrides);
      && (a.classification == Clean <==> !Drifts(wallet, rows, g))
      && (a.classification == LegacyTransferUnresolved <==> Drifts(wallet, rows, g) && IsLegacySource(rows, wallet.id))
      && (a.classification == ManualOverrideSuspected <==>
            Drifts(wallet, rows, g) && !IsLegacySource(rows, wallet.id) && wallet.id in overrides)
      && (a.classification == LikelyInitialBalanceMissing <==>
            Drifts(wallet, rows, g) && !IsLegacySource(rows, wallet.id) && wallet.id !in overrides && wallet.initialBalance == 0)
      && (a.confidence == High <==> !Drifts(wallet, rows, g))
      && (a.confidence == Medium <==> a.classification == LikelyInitialBalanceMissing)
      && a.walletId == wallet.id && a.stored == wallet.balance && a.stored == a.expected + a.drift
      && a.expected == wallet.initialBalance + a.ledgerEffect && a.ledgerEffect == SumEffects(rows, g, wallet.id)
  {
    LegacyCountIsZero(rows, wallet.id);
  }

  // ---------------------------------------------------------------- repair

  /** The proposal for a drifted wallet. */
  function ProposalFor(a: WalletAudit, verified: set<Id>): RepairProposal {
    var confidence := if a.legacyTransferCount == 0 && a.walletId in verified then High else a.confidence;
    RepairProposal(a.walletId, a.classification, a.stored, a.expected, a.expected - a.stored, confidence,
                   confidence == Low, confidence == High)
  }

  function PlanOf(audits: seq<WalletAudit>, verified: set<Id>): seq<RepairProposal> {
    if audits == [] then []
    else
      var (rest, last) := (PlanOf(audits[..|audits| - 1], verified), audits[|audits| - 1]);
      if last.classification == Clean then rest else rest + [ProposalFor(last, verified)]
  }

  method BuildRepairPlan(audits: seq<WalletAudit>, verified: set<Id>) returns (proposals: seq<RepairProposal>)
    ensures proposals == PlanOf(audits, verified)
  {
    proposals := [];
    for i := 0 to |audits|
      invariant proposals == PlanOf(audits[..i], verified)
    {
      assert audits[..i + 1][..i] == audits[..i];
      var a := audits[i];
      if a.classification == Clean {
        continue;
      }
      var confidence := a.confidence;
      if a.legacyTransferCount == 0 && a.walletId in verified {
        confidence := High;
      }
      proposals := proposals + [RepairProposal(a.walletId, a.classification, a.stored, a.expected, a.expected - a.stored,
                                               confidence, confidence == Low, confidence == High)];
    }
    assert audits[..|audits|] == audits;
  }

  function AuditsOf(wallets: seq<WalletSnapshot>, rows: seq<LedgerRow>, g: map<Id, int>, overrides: set<Id>): (audits: seq<WalletAudit>)
    ensures |audits| == |wallets|
    ensures forall i :: 0 <= i < |wallets| ==> audits[i] == AuditOf(wallets[i], rows, g, overrides)
  {
    seq(|wallets|, i requires 0 <= i < |wallets| => AuditOf(wallets[i], rows, g, overrides))
  }

  /** What a plan changes a wallet by. */
  function ChangeTo(w: Id): RepairProposal -> int {
    (p: RepairProposal) => if p.walletId == w then p.difference else 0
  }

  /** Every proposal of a plan, whatever its confidence, applied to its wallet. */
  function Repaired(wallets: seq<WalletSnapshot>, plan: seq<RepairProposal>): (r: seq<WalletSnapshot>)
    ensures |r| == |wallets|
    ensures forall i :: 0 <= i < |wallets| ==> r[i] == wallets[i].(balance := wallets[i].balance + SumOf(plan, ChangeTo(wallets[i].id)))
  {
    seq(|wallets|, i requires 0 <= i < |wallets| => wallets[i].(balance := wallets[i].balance + SumOf(plan, ChangeTo(wallets[i].id))))
  }

  predicate DistinctAudits(audits: seq<WalletAudit>) {
    forall i, j :: 0 <= i < j < |audits| ==> audits[i].walletId != audits[j].walletId
  }

  lemma PlanStep(audits: seq<WalletAudit>, verified: set<Id>, w: Id)
    requires audits != []
    ensures var last := audits[|audits| - 1];
      SumOf(PlanOf(audits, verified), ChangeTo(w)) == SumOf(PlanOf(audits[..|audits| - 1], verified), ChangeTo(w))
        + if last.walletId == w && last.classification != Clean then last.expected - last.stored else 0
  {
    var rest, last := PlanOf(audits[..|audits| - 1], verified), audits[|audits| - 1];
    if last.classification != Clean {
      assert (rest + [ProposalFor(last, verified)])[..|rest|] == rest;
    }
  }

  lemma {:induction false} NoChangeToOthers(audits: seq<WalletAudit>, verified: set<Id>, w: Id)
    requires forall a :: a in audits ==> a.walletId != w
    ensures SumOf(PlanOf(audits, verified), ChangeTo(w)) == 0
  {
    if audits != [] {
      PlanStep(audits, verified, w);
      NoChangeToOthers(audits[..|audits| - 1], verified, w);
    }
  }

  /** A plan changes each audited wallet by exactly what it lacks. */
  lemma {:induction false} ChangeIsDifference(audits: seq<WalletAudit>, verified: set<Id>, i: nat)
    requires i < |audits| && DistinctAudits(audits)
    requires audits[i].classification == Clean ==> audits[i].expected == audits[i].stored
    ensures SumOf(PlanOf(audits, verified), ChangeTo(audits[i].walletId)) == audits[i].expected - audits[i].stored
    decreases |audits|
  {
    var n, w := |audits| - 1, audits[i].walletId;
    PlanStep(audits, verified, w);
    if i < n {
      assert audits[..n][i] == audits[i] && audits[n].walletId != w;
      ChangeIsDifference(audits[..n], verified, i);
    } else {
      NoChangeToOthers(audits[..n], verified, w);
    }
  }

  lemma {:induction false} CleanPlanIsEmpty(audits: seq<WalletAudit>, verified: set<Id>)
    ensures PlanOf(audits, verified) == [] <==> forall a :: a in audits ==> a.classification == Clean
  {
    if audits != [] {
      var n := |audits| - 1;
      CleanPlanIsEmpty(audits[..n], verified);
      assert audits == audits[..n] + [audits[n]];
    }
  }

  /** Auditing the repaired balances finds every wallet clean and has nothing left to propose. */
  lemma RepairLeavesNothing(wallets: seq<WalletSnapshot>, rows: seq<LedgerRow>, g: map<Id, int>, overrides: set<Id>, verified: set<Id>)
    requires DistinctIds(wallets)
    ensures var again := AuditsOf(Repaired(wallets, PlanOf(AuditsOf(wallets, rows, g, overrides), verified)), rows, g, overrides);
      (forall a :: a in again ==> a.classification == Clean && a.drift == 0) && PlanOf(again, verified) == []
  {
    var audits := AuditsOf(wallets, rows, g, overrides);
    var repaired := Repaired(wallets, PlanOf(audits, verified));
    var again := AuditsOf(repaired, rows, g, overrides);
    forall i | 0 <= i < |again|
      ensures again[i].classification == Clean && again[i].drift == 0
    {
      ChangeIsDifference(audits, verified, i);
      assert repaired[i].balance == ExpectedBalance(wallets[i], rows, g);
    }
    CleanPlanIsEmpty(again, verified);
  }

  /** A wallet is proposed for repair exactly when it drifts, and by exactly its drift. */
  lemma {:induction false} ProposedWhenDrifted(audits: seq<WalletAudit>, verified: set<Id>, p: RepairProposal)
    ensures p in PlanOf(audits, verified) <==>
      exists i :: 0 <= i < |audits| && audits[i].classification != Clean && p == ProposalFor(audits[i], verified)
  {
    if audits != [] {
      var n := |audits| - 1;
      ProposedWhenDrifted(audits[..n], verified, p);
      assert forall i :: 0 <= i < n ==> audits[..n][i] == audits[i];
    }
  }

  /**
   * Unattended repair is open exactly to drifted wallets with a verified opening balance that are
   * the source of no transfer without a destination, whatever other wallets the plan repairs.
   */
  lemma AutoApplyExactly(
      wallets: seq<WalletSnapshot>, rows: seq<LedgerRow>, g: map<Id, int>, overrides: set<Id>, verified: set<Id>, i: nat)
    requires DistinctIds(wallets) && i < |wallets|
    ensures AutoApplied(PlanOf(AuditsOf(wallets, rows, g, overrides), verified), wallets[i].id) <==>
      && wallets[i].balance != ExpectedBalance(wallets[i], rows, g)
      && wallets[i].id in verified
      && (forall row :: row in rows ==> !LegacyFrom(row, wallets[i].id))
  {
    var audits := AuditsOf(wallets, rows, g, overrides);
    var (plan, own, w) := (PlanOf(audits, verified), ProposalFor(audits[i], verified), wallets[i].id);
    LegacyCountIsZero(rows, w);
    ProposedWhenDrifted(audits, verified, own);
    if AutoApplied(plan, w) {
      var p :| p in plan && p.walletId == w && p.autoApplyEligible;
      ProposedWhenDrifted(audits, verified, p);
      var j :| 0 <= j < |audits| && audits[j].classification != Clean && p == ProposalFor(audits[j], verified);
      assert wallets[j].id == w;
    }
    if audits[i].classification != Clean && own.autoApplyEligible {
      assert own in plan && own.walletId == w;
    }
  }

  /**
   * What a drifted wallet's proposal says: the change that would settle it, and a person to look
   * unless its opening balance was verified or is the likely cause. A legacy source always needs one.
   */
  lemma ProposalExplains(wallet: WalletSnapshot, rows: seq<LedgerRow>, g: map<Id, int>, overrides: set<Id>, verified: set<Id>)
    requires Drifts(wallet, rows, g)
    ensures var p := ProposalFor(AuditOf(wallet, rows, g, overrides), verified);
      && p.walletId == wallet.id && p.current == wallet.balance && p.current + p.difference == p.expected
      && p.expected == wallet.initialBalance + SumEffects(rows, g, wallet.id)
      && (p.autoApplyEligible <==> wallet.id in verified && !IsLegacySource(rows, wallet.id))
      && (p.requiresManualInvestigation <==>
            !p.autoApplyEligible && (IsLegacySource(rows, wallet.id) || wallet.id in overrides || wallet.initialBalance != 0))
      && (p.confidence == High <==> p.autoApplyEligible) && (p.confidence == Low <==> p.requiresManualInvestigation)
  {
    AuditExplains(wallet, rows, g, overrides);
    LegacyCountIsZero(rows, wallet.id);
  }

  /** The plan holds a proposal for this wallet that may be applied without anybody looking. */
  predicate AutoApplied(plan: seq<RepairProposal>, w: Id) {
    exists p :: p in plan && p.walletId == w && p.autoApplyEligible
  }

  lemma {:induction false} LegacyCountIsZero(rows: seq<LedgerRow>, w: Id)
    ensures LegacyCount(rows, w) >= 0
    ensures LegacyCount(rows, w) == 0 <==> forall row :: row in rows ==> !LegacyFrom(row, w)
  {
    if rows != [] {
      var n := |rows| - 1;
      LegacyCountIsZero(rows[..n], w);
      assert LegacyCount(rows, w) == LegacyCount(rows[..n], w) + if LegacyFrom(rows[n], w) then 1 else 0;
      assert rows == rows[..n] + [rows[n]];
    }
  }
}
