# Pocket Mint, modelled and proved in Dafny

Pocket Mint keeps a user's wallets, transactions and installment bills, reports on them, and lets an
assistant prepare transactions over the web and over Telegram. This project models the parts where
money, time and concurrency meet, and proves what those parts promise.

`dafny verify dfyconfig.toml` checks everything.

## How the program is modelled

**The ledger** (`TransactionBalance`, `Ledger`, `Requests`, `LedgerInvariant`, `LedgerTables`,
`TransactionOutcomes`, `RowOutcomes`, `WalletOutcomes`, `ConcurrentLedger`, `LedgerRaces`, `InstallmentPlan`,
`InstallmentRun`, `CreditWalletRun`, `SelfPaymentRun`, `PaymentRaces`, `MixedLedger`). Money is whole cents. A request is a pure
`Prepare` step, which reads and validates, followed by a `Commit` step, which is one database
transaction: all of its statements or none. Served together they are a serialized request; with
other commits in between they are a concurrent one. The central claim is that the cached balance of
every wallet always equals its opening balance plus the effect of every row, so that the
reconciliation audit reports zero drift. `LedgerTables` runs the same statements in source order on
mutable tables, with rollback, and is proved equal to the specification. The `...Outcomes` modules say, of
each request, exactly when it is served and what the tables hold then, in terms of the request alone.

**The protocols** (`Drafts`, `InboundJobs`, `ClarificationRace`, `IdempotencyKeys`, and the `...Tables`
modules beside them). Each is a step system: a state, the moves that are possible, and what each move
does. Statements outside a transaction are separate moves, a process can stop between any two of
them, and locks and leases are part of the state. `Runs` defines runs once, so a lemma about every run
covers every interleaving of any number of processes. The `...Tables` classes hold the same
statements as one undisturbed caller executes them, and the `...Alone` modules prove that the steps of one
process with nothing in between leave exactly that.

**Calendar and reports** (`BillingCycle`, `CalendarText`, `Reminders`, `ReportingTime`,
`AnalyticsPeriod`, `BaselineLength`, `Trends`, `Sparkline`, `Reconciliation`). Dates are the `full-date` of section 5.6
of RFC 3339 with the month lengths of section 5.7. A time zone is known only through its midnights:
every local day is 20 to 28 hours long and owns its instants.

**Stand-alone algorithms** (`JsonText`, `JsonRecogniser`, `JsonLaws`, `JsonReader` for duplicate member
names in JSON, after sections 2 to 7 of RFC 8259; `ContextSelection` and `ContextTrimming` for the assistant's
context; `EntityResolution`; `ClarificationChain`). `Common`, `SeqSums`, `Sums`, `Sorting` and `Runs` are shared.

## Where the code does not do what its comments say

Each of these is stated with a run or an input that shows it and the exact condition under which the
code does what is intended.

- Updates reverse a row read before their transaction. Two concurrent updates leave drift
  (`LedgerRaces.ConcurrentUpdatesDrift`); a commit is clean exactly under `UpdateCommitExact`.
- The wallet deletion gate counts transfers before the deletion. A transfer in between leaves drift
  (`LedgerRaces.TransferDuringDeletionDrifts`); clean exactly under `CloseCommitExact`. Over whole runs with
  updates and deletions: `MixedLedger.RunsReconcileExactly`.
- Very small installment plans overshoot: 0.60 over 120 months has a negative last term
  (`InstallmentPlan.TinyPlanOvershoots`); payable exactly under `InstallmentRun.PayableExactly`.
- A payment does not compare its source with the bill's wallet, so a retyped credit wallet can pay its
  own bill (`SelfPaymentRun.SelfTransferIsStored`). The reporting effect of such a transfer is its amount,
  the audited effect zero; they agree exactly under `Sparkline.ReportingAgrees`, and purchase and payments
  cancel exactly under `CreditWalletRun.PurchaseAndPaymentsCancel`.
- A payment checks the bill and the source before its transaction only. Two payments of one term can both
  commit (`PaymentRaces.OneBillPaidTwice`); one term per payment and a covered source exactly under
  `PaymentCommitExact`.
- The sparkline's comment says that effects after `now` are reversed. Rows dated after today's end are not
  queried, so they stay in (`TomorrowIsNotReversed`); exact under `WalkRefinesReplay`.
- The comparison baseline is said to be of equal duration. March 2026 is compared with a shorter February
  (`BaselineLength.MarchIsLongerThanFebruary`); calendar periods have a baseline of as many months, of equal
  duration exactly under `EqualDurationExactly` and `EqualDurationInZone`, and custom periods always (`CustomAbuts`).
- A committed draft can be overwritten as failed (`Drafts.CommittedCanBecomeFailed`); a decided status is
  final exactly under `StatusIsFinalExactly`.
- A transaction can land after its draft's expiry if the ledger answers late
  (`Drafts.LateAnswerCommitsAfterExpiry`); late exactly under `LateExactlyWhenAnsweredLate` and
  `LateRunsExactly`, by less than the bound of `BoundedLateness`.
- A succeeded inbound job can be overwritten as failed by a worker that outlived its lease
  (`InboundJobs.SuccessCanTurnIntoFailure`); an end is final exactly under `EndIsFinalExactly`.
- A wallet given by id is lost as soon as the merchant or the category has to be asked about, and the
  chain then fails (`ClarificationChain.DirectWalletIsLost`); exact under `WalletLostOnFirstAnswers`.

## Model

| member | source | states |
|---|---|---|
| `TransactionBalance.EffectClosedForm` | src/domain/transactionBalance.ts:61-97 | the delta list of a row, summed per wallet, is a debit of the source and a credit of the destination; an installment charges its grand total, or its amount when that is unknown |
| `TransactionBalance.TransferConservesMoney` | src/domain/transactionBalance.ts:78-92 | a transfer between two wallets sums to zero and touches no third wallet |
| `TransactionBalance.ReversalIsExact` | src/domain/transactionBalance.ts:100-107 | the reversal of an accepted effect is its exact negation on every wallet |
| `TransactionBalance.ReconcileWalletBalances` | src/domain/transactionBalance.ts:171-206 | the audit loop reports for every wallet stored, opening-plus-effects, and their difference |
| `TransactionBalance.AddKnown` | src/domain/transactionBalance.ts:179-182 | effects on unknown wallets are ignored, all others are added |
| `TransactionBalance.SumEffectsReorder` | src/domain/transactionBalance.ts:171-206 | expected balances depend only on which rows the ledger holds, not on their order |
| `TransactionBalance.SumEffectsConcat` | src/domain/transactionBalance.ts:171-206 | expected effects of two ledgers add up |
| `Ledger.DriftOfIncrement` | src/domain/transactionBalance.ts:124-134 | applying deltas moves the drift of each wallet by exactly their net |
| `Ledger.DriftOfInsertRow` | src/services/transaction.service.ts:214-286 | inserting a row moves the drift of each wallet by minus its effect |
| `Ledger.DriftOfReplaceRow` | src/services/transaction.service.ts:396-434 | replacing a row moves the drift by the old effect minus the new one |
| `Ledger.DriftOfDeleteRow` | src/services/transaction.service.ts:465-493 | deleting a row moves the drift by its effect |
| `Ledger.DriftOfInsertWallet` | src/services/wallet.service.ts:125-132 | a new wallet starts with balance equal to opening balance, hence with zero drift |
| `Requests.TransferCount` | src/services/wallet.service.ts:261-289 | the deletion gate counts zero exactly when no row has the wallet on either side of a transfer |
| `LedgerInvariant.PrepareFits` | src/services/transaction.service.ts:63-296 | whatever any request handler decides to commit after its checks fits the tables it read |
| `LedgerInvariant.CommitKeepsValid` | src/services/transaction.service.ts:214-286 | every fitting transaction keeps referential integrity and leaves every wallet without drift |
| `LedgerInvariant.CreditExpenseDrift` | src/services/transaction.service.ts:170-251 | a credit expense charges the grand total its installment stores, not the monthly amount of its row |
| `LedgerInvariant.RemoveDrift` | src/services/transaction.service.ts:465-493 | a deletion reverses exactly what the audit counted for the row, including an installment |
| `LedgerInvariant.CloseKeepsDrift` | src/services/wallet.service.ts:261-289 | a gated wallet deletion, with all rows that cascade, changes no other wallet's drift |
| `LedgerInvariant.ServeKeepsValid` | src/services/transaction.service.ts:63-501 | any request served alone, accepted or refused, keeps the ledger valid |
| `LedgerInvariant.RunKeepsValid` | src/services/transaction.service.ts:63-501 | after any serialized run of wallet, transaction, bill payment and reminder requests no wallet drifts |
| `LedgerInvariant.ValidLedgerAuditsClean` | src/domain/transactionBalance.ts:171-206 | auditing a valid ledger in any listing order expects exactly the stored balance of every wallet |
| `ConcurrentLedger.FitsIsStable` | src/services/transaction.service.ts:450-501 | a decision made on earlier tables still fits after any compatible commit in between |
| `ConcurrentLedger.NextKeepsInv` | src/services/notification.service.ts:113-188 | every step of creates, deletes, payments, confirmations, crashes and new reminders keeps the system invariant |
| `ConcurrentLedger.ConcurrentRunsStayReconciled` | src/services/transaction.service.ts:450-501 | in every interleaving without updates and wallet deletions no wallet drifts, no row is reversed twice, no reminder yields two transactions |
| `LedgerRaces.UpdateCommitExact` | src/services/transaction.service.ts:396-434 | an update commits cleanly exactly when the move it planned from the row it read is the move the audit sees on the row now stored |
| `LedgerRaces.AmountRaceExact` | src/services/transaction.service.ts:396-434 | for an amount edit: exactly when the stored amount is still the amount that was read |
| `LedgerRaces.AcceptedUpdateIsClean` | src/services/transaction.service.ts:298-440 | an accepted update, whatever it writes, commits cleanly on any later tables on which type, amount, wallet and destination of its row are as it read them |
| `LedgerRaces.FullUpdateExact` | src/services/transaction.service.ts:396-434 | an update that writes type, amount and wallet is clean exactly when all four fields are as read |
| `LedgerRaces.TextEditExact` | src/services/transaction.service.ts:396-434 | an update that writes none of them is clean exactly unless the stored row is a transfer to another destination than the one it read and writes back |
| `LedgerRaces.ConcurrentUpdatesDrift` | src/services/transaction.service.ts:298-440 | two updates of one row, both accepted, leave drift: a concrete run |
| `LedgerRaces.BothUpdatesPrepare` | src/services/transaction.service.ts:298-440 | both updates of that run pass all checks on the same tables |
| `LedgerRaces.CloseCommitExact` | src/services/wallet.service.ts:261-289 | deleting a wallet leaves the others clean exactly when at that moment none of its rows is a transfer that credited another wallet |
| `LedgerRaces.TransferDuringDeletionDrifts` | src/services/wallet.service.ts:261-289 | a transfer committed between gate and deletion leaves drift: a concrete run |
| `LedgerRaces.DeletionAndTransferBothPrepare` | src/services/wallet.service.ts:261-289 | the deletion and the transfer of that run pass all checks on the same tables |
| `MixedLedger.RunsReconcileExactly` | src/services/transaction.service.ts:298-501 | in every interleaving of requests of every kind whose commits leave the rows well formed: no wallet ever drifts if and only if each update, row deletion and wallet deletion that commits is clean on the tables it then finds |
| `MixedLedger.RemoveCommitExact` | src/services/transaction.service.ts:450-501 | the deletion of a regular row commits cleanly exactly when what it reverses is what the audit counted for the row now stored |
| `LedgerTables.Tables.ApplyBalanceDeltas` | src/domain/transactionBalance.ts:124-134 | the increment loop credits every wallet with its net, or fails on a missing wallet |
| `LedgerTables.Tables.RunTransaction` | src/services/transaction.service.ts:214-286 | the statements of a transaction in source order reach the specified state, and a failing one restores the tables |
| `LedgerTables.Tables.Handle` | src/services/transaction.service.ts:63-501 | a whole request on the tables leaves what the served request leaves, answers a refusal with its error, and keeps a valid ledger valid |
| `TransactionOutcomes.CreateOutcome` | src/services/transaction.service.ts:63-296 | a create request is served exactly when it names a positive amount, a date, an own suitable wallet and category, funds or credit; it leaves one row with the user, category, date, kind and amount asked for, on the wallet named or else the first, with a destination exactly for a transfer, and moves exactly that amount; on credit it leaves a bill of that amount, rate and tenor and charges its grand total |
| `TransactionOutcomes.CreateRefusals` | src/services/transaction.service.ts:63-211 | what a refused create request is told, for each reason that alone decides it |
| `RowOutcomes.UpdateOutcome` | src/services/transaction.service.ts:298-440 | an update is served exactly when it is allowed; the row then has the fields given and keeps the others, and every balance moves from the old row to the new one |
| `RowOutcomes.UpdateRefusals` | src/services/transaction.service.ts:298-395 | a bad amount, a missing or foreign row, a bill's row and missing funds are told apart |
| `RowOutcomes.DeleteOutcome` | src/services/transaction.service.ts:450-501 | an own row is deleted unless it is a transfer without a destination: the row goes with its bill and that bill's reminders, reminders that produced it forget it, and what it had charged is given back |
| `RowOutcomes.PayOutcome` | src/services/installment-payment.service.ts:38-133 | a payment is served exactly when the bill is active, the amount is the term due and an own source with money covers it; it leaves that transfer and a bill one term on, settled after the last |
| `RowOutcomes.PayRefusals` | src/services/installment-payment.service.ts:46-86 | an unknown bill, a settled one, a wrong amount and a source that falls short are told apart |
| `RowOutcomes.ConfirmOutcome` | src/services/notification.service.ts:113-188 | a confirmation books its template's kind, wallet and category for today, at the amount typed when it is flexible and the template's when fixed, and completes the reminder with that row |
| `RowOutcomes.ConfirmRefusals` | src/services/notification.service.ts:113-153 | a missing reminder, a processed one, one of a bill and a missing amount are told apart |
| `WalletOutcomes.OpenOutcome` | src/services/wallet.service.ts:67-150 | a wallet opens exactly when its kind's fields are right: a loan owing its principal, a credit account at zero with its limit and days, an asset at the balance given; nothing else changes |
| `WalletOutcomes.EditOutcome` | src/services/wallet.service.ts:161-249 | an edit stores what is given, keeps what is not, never touches owner or balances, and is refused for its balance exactly when that is not the stored one |
| `WalletOutcomes.CloseOutcome` | src/services/wallet.service.ts:261-300 | a wallet closes exactly when it is in no transfer and has no rows, or none but those forced; it takes its rows, bills, templates and their reminders, and everything else stays as it is |
| `InstallmentPlan.ToMoneyIsNearest` | src/domain/installment.ts:36-38 | rounding to cents is half up: within half a cent, never above by more |
| `InstallmentPlan.ToMoneyIsOdd` | src/domain/installment.ts:36-38 | negative amounts round as positive ones do, away from zero |
| `InstallmentPlan.PlanExactly` | src/domain/installment.ts:84-107 | a plan exists exactly for a positive principal, a rate of 0 to 100 and at least one month; its interest is that of all the months on the principal and its term an equal share of the grand total, each rounded half up once; the terms make up the grand total; the error names what is wrong |
| `InstallmentPlan.TwelveMonthsAtTwoPercent` | src/domain/installment.ts:84-107 | 1,200.00 at two per cent a month over twelve months bears 288.00 |
| `InstallmentPlan.ScheduleIsExact` | src/domain/installment.ts:71-77 | the terms of a plan sum to its grand total exactly |
| `InstallmentPlan.FinalTermBound` | src/domain/installment.ts:71-107 | the final term differs from the monthly term by at most half a cent per month |
| `InstallmentPlan.FinalTermPositive` | src/domain/installment.ts:71-107 | so it is positive for up to 120 months from a monthly amount of 0.61 on |
| `InstallmentPlan.TinyPlanOvershoots` | src/domain/installment.ts:71-107 | and negative for 0.60 over 120 months |
| `InstallmentRun.PurchaseStartsPlan` | src/services/transaction.service.ts:170-251 | a credit expense stores a fresh bill for the amount asked for and the interest of the rate and months asked for; a bill in full is one term of that amount |
| `InstallmentRun.PaymentAdvances` | src/services/installment-payment.service.ts:53-131 | a successful payment is of the amount due and advances the bill by one term |
| `InstallmentRun.PaymentMovesDebt` | src/services/installment-payment.service.ts:75-131 | it moves exactly that amount from the source wallet, which stays non-negative, to the bill's wallet and touches no other; paid from the bill's own wallet it moves nothing and the bill advances all the same |
| `InstallmentRun.OthersLeaveInstallment` | src/services/installment-payment.service.ts:97-131 | no other transaction changes a bill |
| `InstallmentRun.RunOnBill` | src/services/installment-payment.service.ts:53-131 | all along a run the bill is as many terms old as payments succeeded, and those payments are its schedule |
| `InstallmentRun.SettledExactlyAfterAllTerms` | src/services/installment-payment.service.ts:53-131 | a bill of n terms takes at most n payments, is settled exactly after the n-th, and then they sum to the grand total |
| `CreditWalletRun.PurchaseAndPaymentsCancel` | src/services/installment-payment.service.ts:53-131 | in any run in which the bill survives to be settled, the effects of the purchase row and of the bill's payment rows on the wallet sum to zero, exactly when no term was paid out of that wallet itself |
| `CreditWalletRun.WalletAccount` | src/services/installment-payment.service.ts:53-131 | from an accepted credit expense on, at every point of every run: the wallet is at its balance before, less the grand total, plus the terms paid so far, less those paid from itself, plus what other requests moved on it |
| `CreditWalletRun.SettledWalletComesBack` | src/services/installment-payment.service.ts:53-131 | if every request pays the bill from another wallet, fails, or is not about this wallet, then after the n-th payment its balance is the one before the purchase |
| `CreditWalletRun.QuietLeavesBalance` | src/domain/transactionBalance.ts:124-134 | a committed transaction that names a wallet in no row it writes, reverses or deletes leaves its balance alone |
| `SelfPaymentRun.SelfTransferIsStored` | src/services/installment-payment.service.ts:75-131 | open a credit card, buy, retype it to a bank account, book an income, pay the bill from it: accepted, and a transfer of the wallet to itself is stored; the two effects of that row differ |
| `PaymentRaces.PaymentCommitExact` | src/services/installment-payment.service.ts:97-131 | a payment decided on earlier tables advances the bill by one term exactly when the paid terms are still as read, and leaves its source without debt exactly when the source can still afford it |
| `PaymentRaces.SameTermPaidTwice` | src/services/installment-payment.service.ts:53-131 | two payments of one term decided on the same tables both commit: both rows and amounts are in the ledger, and the bill is one term further; a run from a valid start |
| `PaymentRaces.OneBillPaidTwice` | src/services/installment-payment.service.ts:53-131 | an input: a bill of 100 and a wallet holding 100 end with the bill paid twice and the wallet 100 in debt |
| `PaymentRaces.SourceIsOverdrawn` | src/services/installment-payment.service.ts:84-131 | after two payments of one term the source is overdrawn exactly when it held less than both amounts |
| `InstallmentRun.SettledRefuses` | src/services/installment-payment.service.ts:53-60 | a settled bill refuses every further payment |
| `InstallmentRun.DueDateAdvances` | src/services/installment-payment.service.ts:88-95 | between terms the due date moves by one calendar month, to a day no later |
| `InstallmentRun.NextPaymentAccepted` | src/services/installment-payment.service.ts:53-95 | from a source that can afford it the next payment is accepted exactly when the amount due is positive |
| `InstallmentRun.PayableExactly` | src/domain/installment.ts:71-77 | every term can be paid exactly when the monthly amount is positive and the terms before the last stay below the grand total |
| `InstallmentRun.OrdinaryPlansArePayable` | src/domain/installment.ts:84-107 | plans of up to 120 months from 0.61 a month can always be paid off |
| `BillingCycle.ClampDay` | src/domain/billingCycle.ts:40-47 | a billing day lands in the month asked for, on the day or on the last day of a shorter month |
| `BillingCycle.AddBillingMonth` | src/domain/billingCycle.ts:49-56 | adding months changes the month number by exactly that many and clamps the day |
| `BillingCycle.DayNumberIsOrder` | src/domain/billingCycle.ts:14-28 | day numbers order real dates as the date texts do, and tell them apart |
| `BillingCycle.MonthsOfTheYear` | src/domain/billingCycle.ts:14-25 | months have the lengths of section 5.7 of RFC 3339, February by the leap year rule |
| `BillingCycle.DayNumberIs` | src/domain/billingCycle.ts:14-25 | the number of a date is its whole years, leap days, whole months and day counted out |
| `BillingCycle.NextMonthlyOccurrenceIsLeast` | src/domain/billingCycle.ts:59-73 | the result is the least start-plus-k-months date on or after today, and null exactly when that lies past the end |
| `BillingCycle.CloseOccurrenceIsNext` | src/domain/billingCycle.ts:59-73 | within 27 days before an occurrence, that occurrence is the next one |
| `BillingCycle.OccurrenceGap` | src/domain/billingCycle.ts:49-56 | occurrences k months apart are at least 28 days times k apart |
| `BillingCycle.FirstDueDateWindow` | src/domain/billingCycle.ts:75-88 | the first due date is the due day, or the last day of a shorter month, in the next month, and in the one after exactly when the transaction is past the cutoff day |
| `BillingCycle.FirstDueDateMonotone` | src/domain/billingCycle.ts:75-88 | for fixed cutoff and due days it never moves back when the transaction moves forward |
| `BillingCycle.TermDaysNeverIncrease` | src/domain/billingCycle.ts:49-56 | repeated month steps never raise the day of month |
| `CalendarText.ParseOfFormat` | src/domain/billingCycle.ts:14-32 | parsing a formatted date gives it back |
| `CalendarText.FormatOfParse` | src/domain/billingCycle.ts:14-32 | formatting a parsed text gives it back |
| `CalendarText.TextOrderIsDateOrder` | src/domain/billingCycle.ts:60-71 | comparing the texts is comparing the dates, for four-digit years |
| `Reminders.Engine.EvaluateReminders` | src/services/recurringReminderEngine.service.ts:33-104 | one evaluation stores exactly the keys that fire that day, keeps every other event, and changes no stored event |
| `Reminders.RemindersAreExact` | src/services/recurringReminderEngine.service.ts:33-71 | evaluating every day of an interval, each any positive number of times, stores for an active monthly template that reminds exactly one event per occurrence whose reminder day lies in it, on that day, and none for any other template |
| `Reminders.InstallmentRemindersAreExact` | src/services/recurringReminderEngine.service.ts:73-101 | an installment reminder is stored exactly when the bill is active and the day three days before its due date was evaluated |
| `Reminders.FiresOnReminderDay` | src/services/recurringReminderEngine.service.ts:26-58 | a day fires an occurrence exactly when it is its reminder day |
| `ReportingTime.FixedOffsetIsZone` | src/domain/reportingTime.ts:18-42 | a fixed offset such as Asia/Jakarta satisfies what is assumed of a zone |
| `ReportingTime.DayOwnsItsInstants` | src/domain/reportingTime.ts:39-42 | an instant lies in exactly one local day |
| `ReportingTime.ShiftCalendarMonth` | src/domain/reportingTime.ts:101-105 | shifting moves the month number by exactly delta and lands in a month of 1 to 12 |
| `ReportingTime.ShiftsCompose` | src/domain/reportingTime.ts:101-105 | shifts add up and undo each other |
| `ReportingTime.MonthOwnsItsDays` | src/domain/reportingTime.ts:83-92 | a day lies in exactly one month |
| `ReportingTime.RollingDaysTile` | src/domain/reportingTime.ts:134-141 | the rolling days are adjacent and non-empty, and the last one holds now |
| `ReportingTime.LocalMidnight` | src/domain/reportingTime.ts:54-73 | in any zone the search is four corrections of the UTC guess, breaking off early at a fixed point, and gives up exactly when the result does not show the day's hour zero |
| `ReportingTime.MidnightAroundChange` | src/domain/reportingTime.ts:54-73 | around one clock change of any size the search ends on a midnight exactly when the day has one; when the clock skips it, the search gives up exactly unless the skip is under an hour and over by midnight UTC |
| `ReportingTime.FixedOffsetResolves` | src/domain/reportingTime.ts:54-73 | at a fixed offset it always finds the midnight of the day |
| `AnalyticsPeriod.CalendarPeriods` | src/domain/analyticsPeriod.ts:95-129 | each calendar period is a run of whole months and its baseline the same number of months just before |
| `AnalyticsPeriod.PreviousAbuts` | src/domain/analyticsPeriod.ts:87-148 | for all six periods both ranges are non-empty and the baseline ends exactly where the period starts |
| `AnalyticsPeriod.CustomAbuts` | src/domain/analyticsPeriod.ts:74-77 | a custom baseline also lasts exactly as long as its period |
| `BaselineLength.EqualDurationExactly` | src/domain/analyticsPeriod.ts:95-129 | at a fixed offset a calendar period lasts as long as its baseline exactly when: one month, it is January or August; three or six, by its first month and the leap years; a year, neither it nor the one before is a leap year |
| `BaselineLength.EqualDurationInZone` | src/domain/analyticsPeriod.ts:95-129 | in a zone whose clocks change by less than half a day: exactly when the calendar says so and both halves put the clocks forward alike |
| `BaselineLength.DurationsDiffer` | src/domain/analyticsPeriod.ts:95-129 | in any zone a period is longer than its baseline by exactly the days gained less the hours put forward |
| `BaselineLength.MarchIsLongerThanFebruary` | src/domain/analyticsPeriod.ts:95-106 | in March 2026 in Jakarta the current month lasts 31 days and its baseline 28 |
| `AnalyticsPeriod.PeriodsAroundNow` | src/domain/analyticsPeriod.ts:95-129 | calendar periods hold now, except the previous month, which ends at or before it |
| `AnalyticsPeriod.CustomAccepts` | src/domain/analyticsPeriod.ts:131-146 | a custom period resolves exactly for two real dates in order whose rounded span is at most 400 days |
| `AnalyticsPeriod.CustomRefuses` | src/domain/analyticsPeriod.ts:87-146 | the error of a refused custom period says exactly what is wrong: bounds missing, malformed, not real, inverted, or too far apart |
| `AnalyticsPeriod.CustomHolds` | src/domain/analyticsPeriod.ts:131-146 | it holds exactly the instants whose local day lies between the bounds |
| `AnalyticsPeriod.GenerateTrendBuckets` | src/domain/analyticsPeriod.ts:196-218 | the buckets are non-empty, contiguous and exactly the range, if and only if the range touches no more units than the loop guard |
| `AnalyticsPeriod.GranularityExactly` | src/domain/analyticsPeriod.ts:160-165 | daily buckets exactly below sixty-two and a half days |
| `AnalyticsPeriod.BucketsTile` | src/domain/analyticsPeriod.ts:183-218 | clipped units tile a range exactly when there is one for every unit touched |
| `AnalyticsPeriod.ResolvedNeverHitsGuard` | src/domain/analyticsPeriod.ts:160-218 | no resolved period reaches the guards |
| `Trends.BucketIsUnique` | src/services/analytics-trends.service.ts:43-48 | the bucket the cursor stops at is the only one holding the row's date, so the defensive skip is never taken |
| `Trends.FoldRows` | src/services/analytics-trends.service.ts:43-51 | the one-pass fold leaves in every bucket the totals of the rows dated in it |
| `Trends.FillSeries` | src/services/analytics-trends.service.ts:28-52 | the series has the buckets' ranges, their income and expense totals, and nets that are their difference |
| `Trends.GetTrends` | src/services/analytics-trends.service.ts:23-55 | for every period that resolves the series tiles it, one point per day or month as its length asks, and shows the table's totals bucket by bucket |
| `Trends.TrendSumsToOverview` | src/services/analytics-overview.service.ts:43-64 | incomes, expenses and nets of the series add up to the overview of the same range |
| `Sparkline.ReportingAgrees` | src/domain/reportingEffect.ts:13-34 | the reporting effect equals the audited effect exactly unless a non-zero transfer goes from the wallet to itself |
| `Sparkline.GetWalletSparkline` | src/services/wallet-query.service.ts:87-146 | point k is the balance less every queried effect dated at or after that day's end, after now for today, and null for days over before the wallet existed |
| `Sparkline.WalkRefinesReplay` | src/services/wallet-query.service.ts:121-145 | for a reconciled wallet a point equals the forward replay exactly when rows dated past today and self-transfers since cancel out |
| `Sparkline.TomorrowIsNotReversed` | src/services/wallet-query.service.ts:79-145 | a row of 500 dated tomorrow is not in the window: today's point shows 500 more than replaying the ledger up to now |
| `Reconciliation.AuditWalletBalances` | src/domain/reconciliation.ts:142-206 | every wallet is audited with its drift, legacy count and class; hasDrift holds exactly when some stored balance is not the expected one |
| `Reconciliation.AuditExplains` | src/domain/reconciliation.ts:98-138 | why a wallet drifts: a transfer without destination before a manual override before a zero opening balance before nothing known; sure only when clean, half sure only of the opening balance |
| `Reconciliation.CountLegacy` | src/domain/reconciliation.ts:156-169 | the count map holds for every wallet how many transfers without destination leave it |
| `Reconciliation.BuildRepairPlan` | src/domain/repairPlan.ts:41-75 | the loop proposes exactly the non-clean audits, in order |
| `Reconciliation.ProposedWhenDrifted` | src/domain/repairPlan.ts:45-72 | a proposal is in the plan exactly when some non-clean audit calls for it |
| `Reconciliation.ProposalExplains` | src/domain/repairPlan.ts:45-72 | a proposal changes the balance to the expected one; it may be applied unattended exactly for a verified opening balance without legacy transfers, and needs a person exactly when neither that nor a missing opening balance explains it |
| `Reconciliation.RepairLeavesNothing` | src/domain/repairPlan.ts:41-75 | after adding every proposed difference a fresh audit is all clean and its plan empty |
| `Reconciliation.AutoApplyExactly` | src/domain/repairPlan.ts:51-70 | in the plan of any wallets with distinct ids, unattended repair is open exactly to drifted wallets with verified opening balance and no transfer without destination leaving them |
| `Drafts.NextKeepsInv` | src/assistant/financial-draft.service.ts:102-233 | every step of confirms, cancels, recorders, crashes, clock and key traffic keeps the protocol invariant |
| `Drafts.DraftsProduceOneTransaction` | src/assistant/financial-draft.service.ts:102-233 | in every interleaving a draft has at most one transaction, which it names; its expiry check passed, its key is bound to it, and it was never cancelled |
| `Drafts.RunKeepsDecisions` | src/assistant/financial-draft.service.ts:113-181 | transaction ids, commit times, key bindings and cancellations never change again |
| `Drafts.StatusIsFinalExactly` | src/assistant/financial-draft.service.ts:197-208 | the status of a decided draft is final over every later run exactly when no process can still write over it: for a committed, cancelled or expired one a recorder that read it while pending, for a failed one an expiry or cancellation that did |
| `Drafts.RunStatusIsFinal` | src/assistant/financial-draft.service.ts:102-233 | so at every state of every run from the empty tables |
| `Drafts.CommittedCanBecomeFailed` | src/assistant/financial-draft.service.ts:179-208 | from the empty tables a committed draft can end as failed, keeping its transaction |
| `Drafts.LateExactlyWhenAnsweredLate` | src/assistant/financial-draft.service.ts:116-181 | every transaction of every run entered at one step at which the ledger answered, after a clock check before the expiry by the same process under the draft's lock; it is late exactly when that answer came at or after the expiry |
| `Drafts.LateRunsExactly` | src/assistant/financial-draft.service.ts:116-181 | a run has put some transaction into the ledger late exactly when the ledger answered some confirm at or after its draft's expiry |
| `Drafts.BoundedLateness` | src/assistant/financial-draft.service.ts:116-181 | if answers come within w milliseconds of the clock check, a transaction is done less than w after the expiry, and in time when checked more than w before it |
| `Drafts.LateAnswerCommitsAfterExpiry` | src/assistant/financial-draft.service.ts:116-181 | from the empty tables, for every time left at the clock check and every delay of the answer: the transaction lands that much later, and is late exactly when the delay is at least what was left |
| `DraftTables.Tables.Confirm` | src/assistant/financial-draft.service.ts:102-212 | one confirm: each reply exactly when key, ownership, status, expiry and the ledger's answer call for it, and with each what becomes of draft, key and ledger; a refusal marks the draft failed |
| `DraftTables.Tables.CommitTransaction` | src/assistant/financial-draft.service.ts:163-187 | the transaction writes all of key, transaction and draft, or nothing |
| `DraftTables.Tables.Cancel` | src/assistant/financial-draft.service.ts:214-233 | one cancel: each reply exactly when ownership, status and expiry call for it; cancels a pending unexpired draft, repeats harmlessly, expires a late one |
| `DraftsAlone.ConfirmAlone` | src/assistant/financial-draft.service.ts:102-212 | the steps of a confirm that nothing interrupts, failure recorder included, leave exactly what one confirm leaves |
| `DraftsAlone.CancelAlone` | src/assistant/financial-draft.service.ts:214-233 | so do the steps of a cancel |
| `DraftsAlone.FinishIsRun` | src/assistant/financial-draft.service.ts:102-233 | those steps are a run of the step system, after which the process is over |
| `InboundJobs.NextKeepsClaims` | src/channels/workers/claim.ts:42-75 | a job is claimed only while pending or after the lease of its last claim has run out |
| `InboundJobs.NextKeepsOperations` | src/channels/workers/assistantOperationGuard.ts:22-84 | the one effect of a job is performed by whoever inserted its operation record |
| `InboundJobs.NextKeepsTokens` | src/channels/callbackToken.service.ts:79-94 | only the process that moved a token from pending to consumed acts on it |
| `InboundJobs.NextKeepsJobs` | src/channels/workers/inbound.worker.ts:74-95 | a job is marked succeeded only after its reply row exists |
| `InboundJobs.EffectsHappenAtMostOnce` | src/channels/workers/inbound.worker.ts:122-317 | with crashes anywhere and leases running out: at most one Assistant call and one callback run per job, one action per token, claims respect leases, success has its reply |
| `InboundJobs.ClaimsAreDue` | src/channels/workers/claim.ts:42-75 | in every run no job is claimed before it is available, and its attempt counts its claims |
| `InboundJobs.EndIsFinalExactly` | src/channels/workers/inbound.worker.ts:36-71 | which end a job has is final over every later run exactly when every worker still at it can only write that end: it has caught an error decided so, or is on its last attempt with no way to success |
| `InboundJobs.SuccessIsFinalExactly` | src/channels/workers/inbound.worker.ts:36-71 | a success is final exactly when no worker is still at the job |
| `InboundJobs.WritableComes` | src/channels/workers/retry.ts:29-42 | every end a worker can still write, given its attempt and what it has caught, is written in some run |
| `InboundJobs.EndedStaysEnded` | src/channels/workers/claim.ts:42-75 | an ended job stays ended over every later run |
| `InboundJobs.SuccessCanTurnIntoFailure` | src/channels/workers/inbound.worker.ts:36-71 | from the empty tables a succeeded job can turn into a terminally failed one, and into a retryable one when more than one attempt is allowed |
| `InboundTables.Tables.ClaimInboundJobs` | src/channels/workers/claim.ts:42-75 | a batch leases exactly the oldest claimable jobs and touches no other |
| `InboundTables.Tables.ProcessMessageJob` | src/channels/workers/inbound.worker.ts:196-317 | one worker: the Assistant is asked exactly when needed and no record exists; a complete record is replayed verbatim, an open one ends the job |
| `InboundTables.Tables.ProcessCallback` | src/channels/interaction.service.ts:188-267 | one callback: the action runs exactly for a pending, unexpired, owned and usable token, which is then spent |
| `InboundTables.Tables.ClaimCallbackToken` | src/channels/callbackToken.service.ts:79-85 | exactly a pending token can be claimed, once |
| `InboundTables.Tables.EnsureOutboundDelivery` | src/channels/workers/inbound.worker.ts:74-95 | a reply row is created once and never replaced |
| `InboundAlone.MessageAlone` | src/channels/workers/inbound.worker.ts:196-317 | the steps of one worker on a message job, with nothing in between, ask the Assistant exactly when there is neither a direct reply nor a record, and leave the record, reply and status that calls for |
| `InboundAlone.CallbackAlone` | src/channels/workers/inbound.worker.ts:122-194 | likewise on a callback job: it acts exactly on an open, unexpired, owned and usable token, and spends or expires the token accordingly |
| `InboundAlone.FinishIsRun` | src/channels/workers/inbound.worker.ts:122-317 | those steps are a run of the step system, after which the worker is done |
| `ClarificationRace.NextKeepsInv` | src/assistant/clarification.service.ts:244-425 | every step of selections, cancellations, expiries and aborts keeps the invariant |
| `ClarificationRace.OneDecisionWithItsContinuation` | src/assistant/application.service.ts:553-632 | a clarification is decided at most once; it is consumed exactly when its continuation is stored, before expiry; every draft and child continues exactly one |
| `ClarificationRace.DecisionsAreFinal` | src/assistant/clarification.service.ts:123-136 | consumed, cancelled and stale rows and their continuations never change again |
| `ClarificationRace.FailedContinuationLeavesNoTrace` | src/assistant/application.service.ts:553-632 | in every run: when a selection that claimed a row fails, the row was undecided from before its claim until after the failure, the tables are unchanged, and the row is free |
| `ClarificationRace.RetryCanSucceed` | src/assistant/application.service.ts:553-632 | a free pending row can still be consumed before its expiry, with any fresh continuation |
| `ClarificationTables.Tables.Select` | src/assistant/clarification.service.ts:244-328 | one selection: each reply exactly when the row, its expiry, its form, the option and the continuation call for it; continuing stores the continuation, an expired or malformed row goes stale, nothing else changes |
| `ClarificationTables.Tables.CancelRequest` | src/assistant/clarification.service.ts:378-425 | one cancellation: each reply exactly when status and expiry call for it; idempotent, and stale instead when late |
| `ClarificationTables.Tables.Terminalize` | src/assistant/clarification.service.ts:123-136 | terminalization marks a pending row stale; of a row another caller has decided it changes nothing and reports the status that won |
| `ClarificationAlone.CallAlone` | src/assistant/clarification.service.ts:244-425 | the steps of a selection or cancellation that nothing interrupts leave exactly what one call leaves |
| `ClarificationAlone.FinishIsRun` | src/assistant/clarification.service.ts:244-425 | those steps are a run of the step system, after which the call is over |
| `ClarificationChain.SelectAdvances` | src/assistant/application.service.ts:577-622 | whatever the resolver answers, the next question is about a later kind of thing |
| `ClarificationChain.AtMostThreeSelections` | src/assistant/application.service.ts:553-632 | so a chain ends after at most three selections |
| `ClarificationChain.ContextRoundTrip` | src/assistant/application.service.ts:758-778 | rebuilding an input from a context and storing it again loses nothing the request said |
| `ClarificationChain.ChainIsFaithful` | src/assistant/application.service.ts:280-632 | at every turn of a chain, asking from stored contexts comes to what the request and the answers so far amount to without any context: which question with which options, which failure, or which draft |
| `ClarificationChain.DraftKeepsMeaning` | src/assistant/application.service.ts:437-502 | the draft has the type, amount, description and date asked for, today when none was given, and the wallet, category and merchant that were chosen where one was asked about, found where one was referred to, and given or inferred otherwise |
| `ClarificationChain.AnswersReachTheDraft` | src/assistant/application.service.ts:566-622 | the answer to a question about a wallet, a merchant or a category is the one in the draft |
| `ClarificationChain.WalletLostExactly` | src/assistant/application.service.ts:339-368 | a chain fails for want of a wallet exactly when the wallet was given by id, something was asked, and a category was found |
| `ClarificationChain.WalletLostOnFirstAnswers` | src/assistant/application.service.ts:280-368 | told from the request and the first answers: exactly when the merchant it names or the category it refers to is ambiguous |
| `ClarificationChain.DirectWalletIsLost` | src/assistant/application.service.ts:352-368 | a concrete request that loses its wallet this way |
| `IdempotencyKeys.OneExecutionPerKey` | src/assistant/conversation.service.ts:298-337 | in every interleaving with crashes and failed resolves or releases: one request in flight per key, one execution returns, replays give its response |
| `IdempotencyKeys.RecordsAreNotClobbered` | src/assistant/conversation.service.ts:313-337 | a record is changed or removed only by the request that inserted it, while running |
| `IdempotencyKeys.StuckKeyStaysStuck` | src/assistant/conversation.service.ts:287-297 | a key whose request stopped for good stays in progress |
| `IdempotencyKeys.RetryIsAnswered` | src/assistant/conversation.service.ts:298-309 | once an answer is stored, in every later run: a request with the key never executes, is given exactly that answer when it reads the record under the same operation, and none under another |
| `IdempotencyKeys.StoredAnswer` | src/assistant/conversation.service.ts:313-325 | the answer stored under a key is the one its own execution returned |
| `IdempotencyKeys.FirstRequestAlone` | src/assistant/application.service.ts:223-241 | the steps of a first request that nothing interrupts leave exactly the record one call leaves |
| `IdempotencyKeys.KeyTable.ExecuteOnce` | src/assistant/application.service.ts:223-241 | one request: executes exactly when the key is new; else another operation is a conflict, a running record means in progress, and a completed one replays its stored answer, 200 when none is stored |
| `JsonLaws.AcceptsExactly` | src/assistant/providers/gemini.provider.ts:74-163 | exactly the printed value trees without repeated member names, between white space, are accepted |
| `JsonLaws.PrintedDocument` | src/assistant/providers/gemini.provider.ts:96-125 | a printed document is accepted exactly when no object at any depth repeats a name after unescaping |
| `JsonLaws.TrailingContentRefused` | src/assistant/providers/gemini.provider.ts:155-162 | a document followed by anything but white space is refused, with or without white space in between, except exactly a number whose text just goes on as another number |
| `JsonLaws.GoesOnExactly` | src/assistant/providers/gemini.provider.ts:155-157 | whether it does is found by matching the number pattern once more: nothing but white space may be left |
| `JsonLaws.NothingElseGoesOn` | src/assistant/providers/gemini.provider.ts:155-157 | only a digit, a point or an exponent lets a number go on |
| `JsonLaws.NumbersThatBreakOff` | src/assistant/providers/gemini.provider.ts:155-157 | a digit after a leading zero, 1.x and 1e do not go on as numbers |
| `JsonLaws.ValueComplete` | src/assistant/providers/gemini.provider.ts:96-158 | a printed tree is read to exactly its end, whatever follows |
| `JsonLaws.ValueSound` | src/assistant/providers/gemini.provider.ts:96-158 | whatever is read is a printed tree with unique names |
| `JsonLaws.StringComplete` | src/assistant/providers/gemini.provider.ts:79-95 | a printed string is read to its closing quote and unescaped |
| `JsonLaws.NumberComplete` | src/assistant/providers/gemini.provider.ts:155-157 | a printed number is matched to its last digit |
| `JsonReader.Reader.ReadString` | src/assistant/providers/gemini.provider.ts:79-95 | the scanning loop finds the string the grammar has at the position |
| `JsonReader.Reader.ReadObject` | src/assistant/providers/gemini.provider.ts:99-125 | the member loop with its key set agrees with the grammar |
| `JsonReader.Reader.ReadArray` | src/assistant/providers/gemini.provider.ts:126-144 | the element loop agrees with the grammar |
| `JsonReader.Reader.ReadValue` | src/assistant/providers/gemini.provider.ts:96-158 | reading a value moves the position to its end, or fails where the grammar has none |
| `JsonReader.AssertNoDuplicateJsonKeys` | src/assistant/providers/gemini.provider.ts:74-163 | the whole check accepts exactly the accepted texts |
| `ContextSelection.SelectMessages` | src/assistant/context.assembler.ts:102-117 | as many messages as allowed: the assistant message created last, and of the others those created last; of these, the ones in the turns let in; everything created after a kept turn is kept |
| `ContextSelection.AllowTurns` | src/assistant/context.assembler.ts:109-115 | turns are let in newest first until there are enough |
| `ContextSelection.MapTurns` | src/assistant/context.assembler.ts:119-134 | one turn per turn id, oldest first, each holding exactly its messages in order, protected exactly when it holds the newest assistant message |
| `ContextSelection.MapToolsFacts` | src/assistant/context.assembler.ts:136-154 | the newest tool results, as many as allowed, oldest first |
| `ContextTrimming.Trim` | src/assistant/context.assembler.ts:179-193 | drops the least number of items that fits the limit, and fails only when dropping all of them does not |
| `ContextTrimming.DroppedIsSuffix` | src/assistant/context.assembler.ts:181-190 | after n rounds exactly the n oldest unprotected items are gone |
| `ContextTrimming.MergeIsOldestFirst` | src/assistant/context.assembler.ts:181-190 | the eviction order is the order of time, then of identifiers |
| `ContextSelection.AssembleContext` | src/assistant/context.assembler.ts:156-194 | an assembled context fits its limit and holds the newest assistant message |
| `EntityResolution.MatchEntityCandidate` | src/assistant/entity-resolution/matching.ts:26-51 | the first evidence is canonical exactly on the canonical name, alias exactly on an alias that is not it, normalised exactly on a normalised form when neither; the constraint is noted exactly for a match under a constraint |
| `EntityResolution.ConfidenceIsScore` | src/assistant/entity-resolution/matching.ts:74-89 | the confidence of a match is the score of its kind |
| `EntityResolution.LoadOrderIsIrrelevant` | src/assistant/entity-resolution/service.ts:75-147 | for candidates with distinct ids the answer does not depend on load order |
| `EntityResolution.ResolvedExactly` | src/assistant/entity-resolution/service.ts:100-131 | resolved exactly when one candidate scores at least 900 and every other is more than 50 below it |
| `EntityResolution.NotFoundExactly` | src/assistant/entity-resolution/service.ts:100-110 | not found exactly when no candidate scores 900 |
| `EntityResolution.AmbiguousOptions` | src/assistant/entity-resolution/service.ts:112-147 | otherwise two to five options in score order, the best of those within 50 of the top |
| `EntityResolution.NamesDecide` | src/assistant/entity-resolution/service.ts:75-147 | told by names: a reference is not found exactly when it matches nothing, and resolved exactly to the one candidate that matches at all, or that matches a name or alias once some canonical name is hit; otherwise all of these are offered |

## Left out

- ConcurrentLedger.ConcurrentRunsStayReconciled: the reads of one request are one step; the program awaits them one after another, and a run in which tables change between two reads of the same request is not among those covered.
- Controllers, routes, middleware, authentication, configuration, logging, rate limits, prompts and renderers: no state to reason about.
- The Telegram client, the language model and the database server: their answers are inputs, including never answering; the database contributes unique keys, row locks, transactions and the cascade on wallet deletion.
- Wallet names, notes and other cosmetic fields, and clearing a billing day by an explicit null: they do not touch a balance.
- Ledger rows carry calendar dates; instants and creation times appear only in the reporting modules.
- Amounts finer than a cent: inputs are taken as already at two decimals, as the money columns store them.
- Restrictions that keep a transaction from being deleted while a draft or key refers to it: deletion is modelled without them.
- BillingCycle.ClampDay: years below 1000 are treated as calendar years, while the platform reads years 0 to 99 as 1900 to 1999; only ReportingTime's custom bounds model that quirk.
- ReportingTime.LocalMidnight: offsets are whole seconds, so that the clock shown loses nothing; the ranges of the other lemmas take each day's midnight as found, and a day for which the search gives up has no range.
- Sparkline.GetWalletSparkline: the warning about transfers without destination is not modelled.
- Field overrides when confirming a draft, category inference and preview texts: they choose inputs of the ledger call.
- InboundJobs.EffectsHappenAtMostOnce: a claimed batch is modelled as single claims at one instant, and a worker's own jobs may interleave, which only adds runs; the turn id and channel stamp on a job are not modelled.
- InboundJobs.ClaimsAreDue: the retry time written on a job that failed is not modelled, since no failed job is claimed again.
- How often a message is sent: delivery is at least once by design, and nothing is claimed about it. Failed jobs are never claimed again, so no eventual retry is claimed either.
- Guided clarification fields: no current flow creates such a clarification, and answering one takes the same steps as a selection.
- Operator requeue, retention cleanup and conversation deletion: they only remove finished rows or undo work by hand.
- EntityResolution.LoadOrderIsIrrelevant: normalisation of references and labels is an input, and identifiers are numbers in text order.
- ContextTrimming.Trim: the serialised size is an arbitrary measure of what is kept; redaction of tool summaries is not modelled.
- Percentage changes of the overview, budgets, saving goals, merchant mappings, categories and policies: one-branch rules.
