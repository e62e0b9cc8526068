# A verified model of the installment-sale platform's money logic

This project models, in Dafny, how the platform sells a product on installments and accounts for it,
and proves what its services promise of that logic over every input and every run.

* **One contract's books** (`Pricing`, `Waterfall`, `Subledger`, `Books`, `ContractAccounts`): an offer
  is priced into a schedule, the contract is delivered, late fees are charged, payments run through the
  allocation waterfall, fees are waived under maker-checker, and the contract is settled, returned,
  cancelled, written off or repaid. Every operation updates the rows, writes the append-only ledger and
  emits accounting events whose journals follow the seeded posting rules. `Reconciliation` states the
  invariant, `BookSteps`, `BookClosures` and `BookWriteOffs` prove that each operation keeps it, and
  `BookTheorems`, `BookHistory`, `PaymentLaws`, `Maturity`, `LateFees` and `FeeWriteOffs` draw the conclusions.
  `BookOutcomes` and `ClosureOutcomes` say of each operation when it goes through and what it then changes,
  without naming its own function; `BookEvents` and `ChartOfAccounts` say what events and what balance on
  every account any run leaves behind.
* **Expected credit loss** (`EclModel`, `EclBands`, `EclAssessment`, `EclHistory`, `EclPreview`, `EclBook`,
  `EclPortfolios`, `EclWorld`, `EclPostings`): the stage rules, curing over the assessment history,
  overrides layered on the automated result, movement-based provisions, the run-and-post protocol, and
  what its events put on the allowance account. `EclOutcomes`, `EclTotals` and `EclEvents` say what each
  assessment, run and posting leaves behind.
* **Both together** (`BookAllowance`, `Platform`): contracts and the ECL books side by side. An executed
  write-off takes the provision of the contract's latest assessment, both sides record it, and the
  allowance account is the sum of what both have posted.
* **Control machinery** (`Overrides`, `OverrideDesks`, `DeskOutcomes`, `EclConfig`, `PaymentIntents`, `ErpPosting`,
  `References`, `Dates`): the override life cycle, versioned calibration, payment intents under webhooks,
  posting to the external ledger, reference codes and month arithmetic.

Money is an integer number of cents and rates are reals; `Money` makes ROUND_HALF_UP explicit. Rows that a
service updates in place are fields of a class (`ContractAccount`, `OverrideDesk`, `ConfigurationTable`,
`Portfolio`, `JournalQueue`); each of its methods, with the source's own loops, is proved to do exactly
what a function on values does, and the theorems are about runs of those functions.
A query is a filter over a sequence in creation order, and an id is a position in that sequence. A
`DomainError` or `ValueError` that undoes its transaction is a result that leaves the state as it was.

## Where the code and its promises part

The model follows the code. These promises do not hold of it as stated; each has a lemma that says exactly
how far they hold.

* `README.md:715-720` promises that ledger rows reproduce the installments' paid principal. They do unless
  principal had been written off before the schedule was closed out (`BookTheorems.PrincipalLedger`,
  `BookTheorems.LedgerPromiseFails`).
* `README.md:1258-1259` says an overpayment is kept as unallocated. `payments.py:100-113` refuses it, so
  nothing is ever left over (`BookTheorems.NoPaymentLeftOver`).
* Account 1100 equals the outstanding balance, except for written-off amounts that a close-out or a waiver
  clears a second time, and for the profit a return retains (`BookTheorems.ReceivableAgainstSubledger`,
  `BookTheorems.ReceivableExact`). Late-fee entries equal what the charges read as paid unless a fee written
  off in part was closed out (`BookTheorems.LateFeeLedger`). Both happen on any contract the overdue job
  charges: write part of the fee off, then waive the rest or settle (`FeeWriteOffs.WaiverBreaksReceivable`,
  `FeeWriteOffs.SettlementBreaksLateFees`, `FeeWriteOffs.FeePromisesFail`).
* `closure.py:108-128` promises to close a contract that ordinary repayment brings to zero. It does exactly when
  every installment still had something due or already read paid; an installment written off in full, or one
  without an amount, keeps the contract open (`Maturity.PayoffCloses`).
  The first of the two is reachable: write one installment off, pay the rest
  (`Maturity.StaysOpenAfterWriteOff`, `Maturity.MaturityPromiseFails`). No payment is recorded on such a
  contract again until the overdue job runs (`Maturity.NeverPaidAgain`); a fee the job then charges on each
  installment that does not read paid, written off or not, lets a payment close it after all
  (`LateFees.FeeReopens`, `LateFees.LateFeeReopens`).
* The overdue job charges a late fee on an installment that has been written off in full, as soon as it is
  past the grace days, unless the fee is above the cap (`LateFees.WrittenOffIsCharged`).
* `write_off.py:708-718` takes the release of the provision for the next run's opening balance. The next
  run still opens at the full closing provision, and the write-off's own rule draws on the allowance as
  well. The allowance account is the provision exactly when no write-off of the contract found one
  (`Platform.AllowanceAgainstProvision`, `EclPostings.AllowanceIsProvision`);
  one that did parts them for good (`Platform.AllowanceNeverReturns`, `EclPostings.AllowanceLost`), as it does
  on a contract provided for under the shipped calibration (`Platform.AccountParts`,
  `EclPostings.AllowanceParts`).
* `ecl.py:243` speaks of holding one notch below the peak. The code holds the peak
  (`EclHistory.BelowPeak`), reads only the peak's rule, so that after stage 3 the 2-to-1 rule changes
  nothing any more (`EclHistory.TwoToOneForgotten`), and a cure holds only on the days that meet the rule
  again (`EclHistory.CureDoesNotStick`, `EclHistory.Relapse`, `EclHistory.CuredAndBack`).
* The preview of a stage override takes the exposure an override holds, the PD of the segment's own row and
  the LGD of the stage asked for; the run takes its own exposure, falls back to another segment's PD, and
  keeps the LGD of the automated stage (`EclPreview.StagePreviewExact`, `EclPreview.StagePreviewRates`).
  Under the shipped calibration it is right only without an EAD override and for a move to stage 1, or from 1
  to 2 (`EclPreview.ShippedPreviewExact`, `EclPreview.ShippedPreviewMisleads`). A
  risk-rating override has no effect at all (`EclPreview.RatingOverrideIsInert`).
* `pricing.py:29` says profit per installment never increases. Cumulative rounding can make it
  (`Pricing.ProfitMayIncrease`): always when the first installment's share is under half a cent
  (`Pricing.SmallProfitIncreases`), never from n(n+1)/2 cents on (`Pricing.ProfitNeverIncreases`); in between
  there is no dividing amount (`Pricing.NoThreshold`).
* Assessing a contract twice on one day gives one automated result as long as the day is its latest. A
  back-dated assessment can become the contract's first row, or the first day of the stage being held, and
  then the second one can differ (`EclHistory.AssessTwice`, `EclHistory.BackdatedTwiceDiffers`).
* A webhook event that was rejected or failed is never looked at again, so a settlement that overtakes its
  capture is lost, and the money with it (`PaymentIntents.DuplicatesAreIdle`,
  `PaymentIntents.OvertakenEventIsLost`, `PaymentIntents.OvertakenSettlement`).

## Model

| member | source | states |
|---|---|---|
| Money.RoundMonotone | app/services/closure.py:39-40 | quantizing half-up never reverses the order of two amounts |
| Money.TimesShare | app/services/closure.py:39-40 | a fraction of an amount, rounded, stays between zero and the amount, and is exact at 0 and 1 |
| Money.RateOrder | app/services/ecl_engine.py:35-47 | two rates are ordered exactly when their rounded results are ordered on every amount |
| Money.RateEquality | app/services/ecl_engine.py:35-47 | two rates agree to the cent on every amount exactly when they are equal |
| Waterfall.FillLine | app/services/allocation.py:60-72 | one installment's buckets are filled late fee first, then profit, then principal, each up to what is owed |
| Waterfall.Allocate | app/services/allocation.py:50-84 | the nested loop gives every bucket what is left after all earlier buckets, keeps only lines that move money, and reports the applied and unallocated amounts |
| Waterfall.WalkMeetsSplit | app/services/allocation.py:54-84 | walking installment by installment gives each flattened bucket its declared share |
| Waterfall.SplitConserves | app/services/allocation.py:76-84 | the shares add up to the payment, or to everything owed when that is less |
| Waterfall.SplitIsGreediest | app/services/allocation.py:1-20 | among all feasible splits the waterfall's is the lexicographically greatest: no bucket can get more without an older one getting less |
| Waterfall.SplitMonotone | app/services/allocation.py:50-84 | a larger payment never gives a bucket less |
| Waterfall.WalkComposes | app/services/allocation.py:50-84 | paying q out of the balances p left takes, bucket by bucket, what p + q adds to p |
| Waterfall.SplitPaymentEquivalent | app/services/allocation.py:50-84 | two allocations in a row leave the balances and the total unallocated amount of one allocation of the sum |
| Waterfall.AnySplitEquivalent | app/services/allocation.py:50-84 | any way of splitting a payment into parts leaves the balances of the whole payment |
| GeneralLedger.BuildLines | app/services/gl_journal.py:285-317 | resolving, reversing and dropping zero lines in a loop gives the rule's postings, or nothing at the first line that cannot be resolved |
| GeneralLedger.GenerateJournal | app/services/gl_journal.py:320-407 | an event keeps the journal it has; without a mapping it gets an unmapped one, a postable one is ready with its lines when both sides are present and agree, failed without lines otherwise |
| GeneralLedger.JournalsBalance | app/services/gl_journal.py:320-407 | under any mapping or none a stored journal balances, has lines exactly when it is ready, is unmapped exactly without a mapping and absent exactly when the event type does not post, and generating again gives the same journal |
| GeneralLedger.JournalEffect | app/services/gl_journal.py:285-407 | a rule whose lines resolve and cancel moves each account by exactly what the rule asks for |
| Postings.EmitPair | app/services/coa.py:520-545 | a two-line seeded rule moves its debit and credit account by the event amount and no other account |
| Postings.EmitSignedPair | app/services/coa.py:605-627 | a reversible two-line rule does so for negative amounts too |
| Postings.EmitActivated | app/services/coa.py:507-519 | activation puts the gross receivable, the deposit, the cash sale and the unearned profit on their accounts |
| Postings.EmitSettlement | app/services/coa.py:546-561 | the settlement rule clears the receivable by payoff and rebate and unearned profit by both its parts |
| Postings.EmitReturn | app/services/coa.py:569-588 | the return rule clears principal, late fees and waived profit from the receivable and leaves the retained profit on it |
| Postings.EmitWriteOff | app/services/coa.py:648-673 | the write-off rule takes the total off the receivable, against the allowance first and expense for the rest |
| SubledgerLaws.OnlyFee | app/models/contract.py:185-189 | an installment's late-fee balance is the balance of its one charge that is not waived |
| SubledgerLaws.DuesAreOutstanding | app/services/receivable.py:32-54 | what the waterfall is given adds up to the contract's receivable and late-fee balance |
| SubledgerLaws.PlanFits | app/services/payments.py:100-125 | an accepted amount is planned in full on lines that never exceed a row's balance |
| SubledgerLaws.ApplyFeesEffect | app/services/payments.py:240-256 | late-fee money raises the paid amounts by exactly the lines' fees and touches nothing else of a charge |
| BookSteps.DeliverKeeps | app/services/offers.py:307-338 | confirming delivery keeps the books reconciled |
| BookSteps.AssessKeeps | app/services/overdue.py:61-180 | the overdue job keeps the books reconciled, with one live charge per installment at most |
| BookSteps.CapRespected | app/services/overdue.py:137-153 | the job never takes a contract's fees above a cap they were within |
| BookSteps.AssessTwice | app/services/overdue.py:116-153 | running the job again on the same day charges nothing |
| BookSteps.PayKeeps | app/services/payments.py:60-237 | recording a payment keeps the books reconciled |
| BookSteps.CloseIfRepaidKeeps | app/services/closure.py:102-154 | closing a fully repaid contract keeps the books reconciled |
| BookClosures.RequestWaiverKeeps | app/api/approvals.py:41-71 | asking for a waiver keeps at most one pending request per charge |
| BookClosures.DecideWaiverKeeps | app/services/approvals.py:121-204 | approving or rejecting a waiver keeps the books reconciled and a requester from deciding |
| BookClosures.QuoteInRange | app/services/closure.py:178-257 | every quote has non-negative parts, a rebate between zero and the unearned profit despite rounding, and a payoff that is their sum |
| BookClosures.SettleKeeps | app/services/closure.py:274-351 | early settlement keeps the books reconciled |
| BookClosures.ReturnKeeps | app/services/closure.py:445-560 | a return keeps the books reconciled |
| BookWriteOffs.CancelKeeps | app/services/closure.py:365-428 | cancelling before delivery keeps the books reconciled |
| BookWriteOffs.ExecuteKeeps | app/services/write_off.py:599-780 | executing a partial or full write-off keeps the books reconciled |
| BookAllowance.StepWritesOff | app/services/write_off.py:735-768 | executing a write-off keeps the balance of 2300 at what the contract's executions drew: for each, what the provision covers of the total, and the whole provision once more |
| Platform.AllowanceOnTheLedger | app/services/write_off.py:708-768 | over any run of operations on any contracts, portfolio runs and postings: the two records of a contract's write-offs agree, each recorded a provision that was the latest one, and account 2300 carries the posted movements less everything the write-offs drew and released |
| Platform.AllowanceAgainstProvision | app/services/write_off.py:708-768 | with chronological dates and every run posted, account 2300 is the latest closing provision less both, and the provision itself exactly when no write-off of the contract found a positive one |
| Platform.AllowanceNeverReturns | app/services/write_off.py:708-768 | after a write-off that finds a provision, account 2300 is not the contract's provision in any later state with chronological dates and every run posted, whatever happens to this or other contracts |
| Platform.AccountParts | app/services/write_off.py:708-768 | a concrete contract, delivered, provided for under the shipped calibration and written off in part, on which it happens |
| Reconciliation.OutstandingByColumns | app/services/receivable.py:32-54 | the outstanding balance is the schedule plus fees less what was paid, waived and written off |
| BookTheorems.SignedIsSound | app/services/offers.py:220-304 | a contract as signed is reconciled |
| BookTheorems.RunKeeps | app/services/payments.py:60-237 | any sequence of deliveries, overdue jobs, payments, waivers, settlements, returns, cancellations and write-offs, under configuration values in range, keeps rows, ledger and journals reconciled |
| BookTheorems.ReceivableAgainstSubledger | app/services/coa.py:505-685 | the exact difference between account 1100 and the outstanding balance in every reachable state |
| BookTheorems.GeneralLedgerRefines | app/services/coa.py:505-561 | after any run with nothing written off, 1100 is the outstanding balance (a return aside), 2100 the unearned profit, the bank the cash taken, and both subledger terms are zero after settlement |
| BookTheorems.ReceivableExact | app/services/approvals.py:165-189 | on an open contract 1100 is the outstanding balance exactly when no waived charge had been partly written off |
| BookTheorems.PrincipalLedger | README.md:715-720 | after any run on a signed contract, ledger principal equals the installments' paid principal exactly when the contract was not closed out after a principal write-off |
| BookTheorems.ProfitLedger | README.md:715-720 | after any run on a signed contract, recognised, rebated, retained and waived profit entries add up to the installments' paid profit |
| BookTheorems.LateFeeLedger | README.md:715-720 | after any run on a signed contract, late-fee entries equal the charges' paid amounts exactly when no partly written-off fee was closed out as paid |
| BookTheorems.SettlementConserves | app/services/closure.py:274-351 | for a settled contract cash plus rebates plus waivers is everything scheduled plus every fee, less what was written off |
| BookTheorems.PayoffAgainstOutstanding | app/services/closure.py:202-257 | a quote without rebate asks for the outstanding balance plus any profit already written off |
| BookTheorems.WriteOffThenSettle | app/services/closure.py:260-271 | after a principal write-off and a settlement the rows show that much more principal paid than the ledger |
| BookTheorems.LedgerPromiseFails | README.md:715-720 | a concrete contract has a configured run after which its ledger does not reproduce the paid principal |
| BookTheorems.PayoffFallsWithRebate | app/services/closure.py:202-257 | a larger rebate percentage never raises the payoff |
| BookTheorems.NoPaymentLeftOver | app/services/payments.py:100-113 | an accepted payment is allocated in full |
| BookOutcomes.OnePaymentPerReference | app/services/payments.py:80-87 | after any run on a signed contract no two payments share a reference |
| BookOutcomes.RepeatedPaymentIsIdle | app/services/payments.py:80-87 | a payment under a reference that some payment has is a replay and changes nothing, whatever its amount |
| BookOutcomes.PaidOnce | app/services/payments.py:76-87 | so a payment that was accepted once is a replay after any further operations |
| BookOutcomes.PayWhen | app/services/payments.py:77-113 | a payment is accepted exactly on an active contract, under a new reference, for a positive amount up to the principal, profit and late fees outstanding; otherwise nothing changes |
| BookOutcomes.PaidRowReads | app/services/payments.py:143-184 | a row keeps everything but its paid amounts, raised by its share, and its status: paid, overdue as before, partially paid, or unchanged |
| BookOutcomes.PaidFeeReads | app/services/payments.py:240-256 | its installment's late-fee share is paid on a charge that is not waived, which reads paid once its amount is; nothing else of a charge changes |
| BookOutcomes.DeliverOutcome | app/services/offers.py:307-338 | delivery goes through exactly on a new contract, and changes its status, events and journals only |
| BookOutcomes.JobMarks | app/services/overdue.py:80-121 | the overdue job marks exactly the rows of an active contract past their due date that owe something and do not read paid |
| BookOutcomes.JobCharges | app/services/overdue.py:54-153 | the charges it adds are one per installment in order, unpaid, and the rate on principal and profit scheduled, to the nearest cent |
| BookOutcomes.ChargedWhen | app/services/overdue.py:105-136 | an installment gets one exactly when it is past the grace days, does not read paid, has only waived charges, and the cap holds the fee on top of the live fees and those just charged on earlier installments |
| BookOutcomes.RequestOutcome | app/api/approvals.py:41-71 | a waiver can be requested exactly for an assessed charge without a pending request, and adds one pending request |
| BookOutcomes.DecideWhen | app/services/approvals.py:121-161 | a waiver is decided exactly when its request is pending and another user decides; otherwise nothing changes |
| BookOutcomes.RejectOutcome | app/services/approvals.py:121-161 | a rejection decides its request and changes nothing else |
| BookOutcomes.ApproveOutcome | app/services/approvals.py:164-204 | an approval waives the one charge, records and announces what was unpaid of it, and changes nothing else |
| ClosureOutcomes.QuoteWhen | app/services/closure.py:178-238 | a quote is given exactly for an active contract and a rebate that is a fraction or an amount up to the unearned profit |
| ClosureOutcomes.QuoteRebate | app/services/closure.py:178-257 | its rebate is the amount asked for, or the fraction asked for or configured of the unearned profit to the nearest cent, and a deviation exactly when it is not what the configured one gives |
| ClosureOutcomes.SettleWhen | app/services/closure.py:274-351 | a settlement goes through exactly when a quote is given, the amount is its payoff and the reference is new |
| ClosureOutcomes.SettleOutcome | app/services/closure.py:260-351 | it closes the contract and its rows, records principal, late fees, profit charged and rebate, takes the payoff as one payment and announces it |
| ClosureOutcomes.ReturnWhen | app/services/closure.py:445-472 | a return goes through exactly on an active contract; otherwise nothing changes |
| ClosureOutcomes.ReturnOutcome | app/services/closure.py:445-560 | the net refund recorded, which the event carries, plus principal, late fees and profit taken back is the configured part of the down payment; it is negative when the customer owes more |
| ClosureOutcomes.CancelOutcome | app/services/closure.py:365-428 | a cancellation records and announces the configured part of the down payment as refund, to the nearest cent, and closes the contract |
| ClosureOutcomes.WriteOffWhen | app/services/write_off.py:599-650 | a write-off is executed exactly on an active contract when no part asks for more than is outstanding of it; otherwise nothing changes |
| ClosureOutcomes.WriteOffOutcome | app/services/write_off.py:599-780 | a full write-off closes the contract, a partial one does not; the execution is recorded, announced with its total, and followed by the release of any provision |
| ClosureOutcomes.SweepOldestFirst | app/services/write_off.py:550-596 | after a sweep the first n installments have lost the amount or all they owed, whichever is less, for every n |
| ClosureOutcomes.FeesOldestFirst | app/services/write_off.py:513-547 | so have the first n late fees |
| ClosureOutcomes.WriteOffRows | app/services/write_off.py:599-706 | an executed write-off does so for principal, profit and late fees separately |
| BookEvents.EveryRecordHasItsEvent | app/services/accounting.py:55-104 | after any run every delivery, charge, waiver, payment, execution, release and closure has its event of the right kind with its own amount |
| ChartOfAccounts.EveryAccount | app/services/coa.py:505-685 | after any run on a signed contract the balance of every account of the chart: what sales, profit income, fee income, suspense, deposits, refunds, allowance, impairment, expense and the control accounts carry, and nothing on any other |
| PaymentLaws.RowsCompose | app/services/payments.py:114-185 | rows after paying p and then q are the rows after paying p + q, statuses included |
| PaymentLaws.PayIsPaid | app/services/payments.py:60-237 | an accepted payment lowers the outstanding balance by its amount and closes the contract exactly when every row is paid and nothing is outstanding |
| PaymentLaws.SplitPayment | app/services/payments.py:60-237 | paying in two parts leaves the rows, status, closure, ledger totals, unearned profit, cash and control accounts of paying at once |
| PaymentLaws.SettleIsPayment | app/services/closure.py:202-271 | settling without a rebate and paying the payoff give the same amounts on every row exactly when nothing still owed was written off |
| Maturity.PayoffCloses | app/services/closure.py:102-154 | a payment of everything outstanding closes the contract exactly when every installment had something due or already read paid |
| Maturity.PaidOffIsClosed | app/services/closure.py:108-128 | after any run without an executed write-off, on installments that all carry an amount, the payment that brings the contract to zero closes it |
| BookHistory.HistoryIsKept | app/services/ledger.py:24-45 | any run of operations, from any state and under any configuration, only appends to the ledger, the events, the journals, the payments and the executions, uses no event reference twice, and leaves the signed schedule, the charges' amounts, waived charges and decided requests as they were |
| Maturity.StaysOpen | app/services/closure.py:102-154 | otherwise that payment leaves the contract active with nothing outstanding, in a state in which every payment is refused or a replay |
| Maturity.NeverPaidAgain | app/services/payments.py:60-125 | from such a state no run of operations without an overdue job, whatever it waives, writes off, settles or returns, leads to one that accepts a payment |
| Maturity.StaysOpenAfterWriteOff | app/services/closure.py:108-128 | every signed contract gets there by writing its first installment off and paying the rest, when both carry an amount |
| Maturity.MaturityPromiseFails | app/services/closure.py:108-128 | a concrete contract of two installments on which it happens |
| LateFees.ChargedExactly | app/services/overdue.py:80-160 | in any state and under any policy the job charges exactly the installments that are past the grace days, do not read paid, have no live charge, and whose fee fits the cap on top of the contract's fees by then |
| LateFees.WrittenOffIsCharged | app/services/overdue.py:80-160 | after delivery and a full write-off of the first installment the job charges it exactly when it is past the grace days and its fee within the cap |
| LateFees.FeeReopens | app/services/overdue.py:80-160 | on a contract open with nothing to pay, paying what the job charges closes it exactly when the job puts a positive fee on every installment that does not read paid |
| LateFees.LateFeeReopens | app/services/closure.py:102-154 | any signed contract whose installments carry amounts is stuck after the first is written off and the rest paid, and closed once the job has charged that installment and the fee is paid |
| FeeWriteOffs.WaiverBreaksReceivable | app/services/approvals.py:165-189 | on any signed contract on which the job charges a fee: write a cent of it off, waive the rest, and 1100 is not the outstanding balance of the open contract |
| FeeWriteOffs.SettlementBreaksLateFees | app/services/closure.py:260-271 | write a cent of it off and settle instead, and the ledger's late-fee entries are not the charges' paid amounts |
| FeeWriteOffs.FeePromisesFail | README.md:715-720 | a concrete contract has configured runs on which each of the two happens |
| ContractAccounts.ContractAccount.EmitEvent | app/services/accounting.py:55-104 | a known reference changes nothing; a new one appends one event and at most one journal |
| ContractAccounts.ContractAccount.Deliver | app/services/offers.py:307-338 | only an undelivered contract is activated, with one activation and one down-payment event |
| ContractAccounts.ContractAccount.ApplyLateFee | app/services/payments.py:240-256 | oldest charges first, skipping waived ones, the fee money fills each charge up to its amount and a full charge reads paid |
| ContractAccounts.ContractAccount.ApplyAllocation | app/services/payments.py:143-184 | one line moves its three parts onto the installment and its charges, draws the unearned balance down by its profit and records each positive part |
| ContractAccounts.ContractAccount.RecordPayment | app/services/payments.py:60-237 | a known reference is a replay, a closed contract, a non-positive amount or an overpayment is refused, and anything else is allocated, recorded, emitted and may close the contract: the new state is that of the payment function, whose replays BookOutcomes.RepeatedPaymentIsIdle fixes |
| ContractAccounts.ContractAccount.CloseIfFullyRepaid | app/services/closure.py:102-154 | closes exactly a contract whose rows are all paid with nothing outstanding |
| ContractAccounts.ContractAccount.AssessOverdue | app/services/overdue.py:61-180 | an open contract's past-due rows are marked, charged once per installment past the grace days within the cap, and each new charge emits one event |
| ContractAccounts.ContractAccount.ChargeLateFees | app/services/overdue.py:116-153 | keeping a running fee total gives the same charges as re-adding all fees at every installment |
| ContractAccounts.ContractAccount.RequestWaiver | app/api/approvals.py:41-71 | a second pending request for a charge is refused |
| ContractAccounts.ContractAccount.DecideWaiver | app/services/approvals.py:121-204 | decides a pending request once, by another user, and waives the unpaid part |
| ContractAccounts.ContractAccount.CloseOutSchedule | app/services/closure.py:260-271 | the two loops mark every row and every charge that is not waived as paid in full |
| ContractAccounts.ContractAccount.Settle | app/services/closure.py:274-351 | a stale amount or a used reference is refused unchanged; otherwise the payoff is taken, the schedule closed out and the quote's four parts recorded and posted |
| ContractAccounts.ContractAccount.ReturnGoods | app/services/closure.py:445-560 | a delivered contract is closed out at its quote, the four return entries and the net refund are recorded, and one event is emitted: the new state is that of the return function, whose amounts ClosureOutcomes.ReturnOutcome fixes |
| ContractAccounts.ContractAccount.Cancel | app/services/closure.py:365-428 | only an undelivered contract is cancelled, with its refund recorded and posted |
| ContractAccounts.ContractAccount.WriteOffComponent | app/services/write_off.py:550-596 | the requested part of one component leaves the oldest installments first, and a row left without balance reads written off |
| ContractAccounts.ContractAccount.WriteOffLateFees | app/services/write_off.py:513-547 | the requested late fees leave the oldest charges first, and a charge left without balance reads written off |
| ContractAccounts.ContractAccount.ExecuteWriteOff | app/services/write_off.py:599-780 | a request above any current balance is refused unchanged; otherwise three independent sweeps, one event and the release of the provision follow |
| ContractAccounts.ContractAccount.PerformAll | app/services/payments.py:60-237 | any sequence of operations on a reconciled contract object leaves it reconciled |
| Pricing.BuildPlan | app/services/pricing.py:91-150 | the one-pass loop gives each installment the difference of two rounded running totals, and refuses a bad tenor, a negative or a full down payment |
| Pricing.ScheduleExact | app/services/pricing.py:31-33 | the schedule's columns add up to the financed principal and the total profit to the cent |
| Pricing.ComponentsNonNegative | app/services/pricing.py:116-138 | with a principal and a profit that are not negative no installment has a negative component |
| Pricing.PricedTerms | app/services/pricing.py:91-115 | an offer is priced exactly for a tenor of at least one month and a down payment from zero to below the cash price; its profit is the rate on what is financed, and down payment and installments add up to the sale price |
| Pricing.EvenPrincipal | app/services/pricing.py:116-138 | every installment carries an equal part of the principal, to within a cent |
| Pricing.DigitsProfit | app/services/pricing.py:116-138 | the profit falls due by the sum of the digits, n parts first and one part last, to within a cent |
| Pricing.ProfitMayIncrease | app/services/pricing.py:25-29 | an offer the pricing accepts whose second installment carries more profit than its first |
| Pricing.SmallProfitIncreases | app/services/pricing.py:25-29 | profit per installment increases somewhere whenever there is some and the first installment's share of it is under half a cent |
| Pricing.ProfitNeverIncreases | app/services/pricing.py:25-29 | profit per installment never increases once it is at least a cent per unit of weight, n(n+1)/2 cents in all |
| Pricing.NoThreshold | app/services/pricing.py:25-29 | in between no amount divides the two: over six installments profit increases at nine cents and not at eight or ten |
| Pricing.PricedIsSigned | app/services/pricing.py:91-150 | a contract signed on any offer priced at a rate that is not negative starts out reconciled |
| EclModel.RatingFound | app/services/ecl_risk.py:37-44 | the rating is that of the first band holding the score, or unrated without one |
| EclModel.LabelFound | app/services/ecl_engine.py:65-73 | the band is the first bucket holding the days, or the last bucket |
| EclModel.FindLabel | app/services/ecl_engine.py:65-73 | the loop over the buckets finds that band |
| EclModel.RawStageMonotone | app/services/ecl_stage.py:77-136 | for any rule lists, more days past due, more flags, a higher PD or a worse rating, with the same origination values, never lower the raw stage |
| EclModel.RuleMeans | app/services/ecl_stage.py:77-119 | a day rule asks for a number of days past due, a PD rule for a multiple of a known PD at origination, and an unknown rule or flag never fires |
| EclModel.ShippedRawStage | app/services/ecl_config.py:84-105 | under the shipped rules raw stage 3 is 90 days past due, a broken promise or an impairment, and raw stage 2 or more is that or 30 days, an open case, forbearance, twice the PD at origination or two grades down |
| EclModel.WorseStageCostsMore | app/services/ecl_engine.py:35-47 | a worse stage costs at least as much on every exposure exactly when the calibration's rates are ordered |
| EclModel.LossWithinExposure | app/services/ecl_engine.py:35-47 | with PD and LGD in [0, 1] the loss lies between zero and the exposure |
| EclBands.MoreDaysCostMore | app/services/ecl_engine.py:59-73 | over contiguous buckets, more days past due never lower the loss on any exposure exactly when the band percentages do not fall |
| EclBands.MoreDaysProvideMore | app/services/ecl.py:343-354 | so a banded assessment with more days past due never provides less, whatever the history |
| EclBands.ShippedRises | README.md:231 | the shipped buckets and percentages are contiguous, complete and rising |
| EclModel.PlaceholderOrdered | app/services/ecl_config.py:68-83 | every segment of the shipped calibration is complete, ordered and made of fractions |
| EclModel.ShippedRates | app/services/ecl_config.py:50-83 | the PDs and LGDs the shipped calibration gives a customer, straight from the score |
| EclAssessment.PaymentsCounted | app/services/ecl.py:195-201 | the payments counted towards a cure are those strictly after the day the peak was first seen |
| EclAssessment.OverridesDoNotInterfere | app/services/ecl.py:309-394 | two histories grown from the same inputs under different overrides agree on every automated stage, PD, LGD, loss, trigger and origination value |
| EclAssessment.NothingGoverns | app/services/ecl.py:356-394 | with no override in force the final result is the automated one and the override adjustment is zero |
| EclOutcomes.StagedLossBooked | app/services/ecl.py:330-338 | the automated loss is exposure times the PD and the LGD of the automated stage, to the nearest cent |
| EclOutcomes.OverriddenLossBooked | app/services/ecl.py:356-384 | under a stage override the final loss takes the PD of that stage, under a parameter override the values it names, with everything else as automated |
| EclOutcomes.SimpleLossBooked | app/services/ecl.py:339-354 | without stages it is the one rate, or the rate of the band that holds the days past due, and no override changes it |
| EclOutcomes.MovementTells | app/services/ecl.py:386-406 | a row reads as overridden exactly when the final loss differs from the automated one, else as created, increased, released or unchanged by where the provision went |
| EclOutcomes.LatestFound | app/services/ecl_override.py:61-67 | the latest assessment is the row that is last by date and then by creation |
| EclOutcomes.OriginKept | app/services/ecl.py:303-305 | a first assessment stores its own rating and PD as those at origination, a later one the first one's |
| EclOutcomes.ShippedAssessment | app/services/ecl.py:309-320 | under the shipped calibration the raw stage of an assessment is told by the days past due, the flags, and its own PD and rating against those at origination |
| EclOutcomes.CureFromTwo | app/services/ecl.py:207-249 | a contract that has been in stage 2 and never in 3 shows its raw stage, except that it stays in 2 when that is 1, curing is on and the 2-to-1 rule, counted from its first day there, is not met |
| EclOutcomes.NothingToCure | app/services/ecl.py:207-249 | a contract never seen above stage 1 shows its raw stage |
| EclHistory.RawIsStored | app/services/ecl_stage.py:122-136 | the stored triggers determine the raw stage, and the automated stage is its cured form |
| EclHistory.EarliestFound | app/services/ecl.py:146-158 | origination values come from the row that is first by date and then by creation |
| EclHistory.PriorFound | app/services/ecl.py:161-176 | the prior assessment is the last eligible row by date and then by creation |
| EclHistory.GrowCured | app/services/ecl.py:207-249 | over any history each automated stage is the raw stage or the peak before it, and the raw stage whenever that reaches the peak |
| EclHistory.PeakOfRawStages | app/services/ecl.py:179-192 | the peak of the automated stages is the peak of the raw stages, and so is its first day when dates are chronological |
| EclHistory.RunningMaximum | app/services/ecl.py:207-249 | a row shows the running maximum of the raw stages exactly when it does not drop below the peak |
| EclHistory.BelowPeak | app/services/ecl.py:218-249 | a stage below the peak occurs exactly when the raw stage is below it and curing is off or its rule is met |
| EclHistory.AssessTwice | app/services/ecl.py:284-394 | on any history, assessing again on the same day with the same inputs gives the same automated result exactly when the first assessment neither became the contract's first row where no origination rating was known, nor moved the first day of a stage being held to one from which the cure rule is met |
| EclHistory.AssessLatestTwice | app/services/ecl.py:284-394 | it does whenever no row of the contract is dated later |
| EclHistory.AssessNamedTwice | app/services/ecl.py:146-250 | it does whatever the dates when every grade has a name and both cure rules ask for a day of observation, as the shipped ones do |
| EclHistory.BackdatedTwiceDiffers | app/services/ecl.py:179-250 | a stage 3 seen later is held by a back-dated assessment and not by the same assessment made again, under a rule without observation days |
| EclHistory.WorseFactsCostMore | app/services/ecl.py:309-338 | on a fixed history worse facts never lower the cured stage, nor the loss when the segment's rates are ordered |
| EclHistory.TwoToOneForgotten | app/services/ecl.py:228-233 | after any history, on contracts that have been in stage 3, changing the 2-to-1 cure rule at every later visit changes no row but its snapshot |
| EclHistory.CureDoesNotStick | app/services/ecl.py:207-249 | after any history that once put the contract in stage 3, a staged visit does so again exactly when its raw stage is 3, or curing is on and the 3-to-2 rule is not met on that day |
| EclHistory.Relapse | app/services/ecl.py:207-249 | so more days past due than that rule allows bring stage 3 back, and the shipped rule allows none |
| EclHistory.CuredAndBack | app/services/ecl.py:207-249 | three visits under the shipped calibration in stages 3, 1 and 3 |
| EclPreview.RequestKeeps | app/services/ecl_override.py:150-319 | a declined request leaves the desk as it was, a placed one is pending and keeps the desk orderly |
| EclOutcomes.RequestWhen | app/services/ecl_override.py:150-319 | an override can be requested exactly for a contract with a staged latest assessment and nothing pending, with the evidence required, for another stage or for parameters that are named and permitted, over a window that is not empty; the pending override holds that value and window, beside the latest automated loss |
| EclPreview.ParameterPreviewExact | app/services/ecl_override.py:125-137 | for every subset of parameters and every automated stage the previewed loss is what re-assessment under the override books |
| EclPreview.RatingOverrideIsInert | app/services/ecl_override.py:247-252 | an override of the rating alone changes neither stage nor loss |
| EclPreview.StagePreviewExact | app/services/ecl_override.py:99-122 | the stage preview is right on every exposure exactly when, without an EAD override in force, the rates shown and the rates booked have one product, and with one, the loss shown and the product booked are zero |
| EclPreview.ShippedPreviewExact | app/services/ecl_override.py:99-122 | under the shipped calibration, on any history, the preview is right on every exposure exactly when no EAD override is in force and the stage asked for is 1, or 2 where the model says 1 |
| EclPreview.ShippedPreviewMisleads | app/services/ecl_override.py:99-122 | a contract in stage 1 for which stage 3 is asked, and the preview shows another loss than the next assessment books |
| EclPreview.StagePreviewRates | app/services/ecl_override.py:99-122 | for a named segment the products agree exactly when the stage asked for is 1, or the segment has its own PD row and a zero PD, one LGD or a move from 1 to 2, or it has no PD row and nothing would be booked |
| EclPortfolios.WorstDays | app/services/ecl.py:93-100 | the loop finds the days past due of the worst unpaid installment |
| EclPortfolios.DaysPastDue | app/services/ecl.py:93-100 | the days past due bound every unpaid installment's and are attained by one |
| EclPortfolios.DaysGrow | app/services/ecl.py:93-100 | days past due never fall by waiting |
| EclPortfolios.Portfolio.EmitEvent | app/services/accounting.py:55-146 | a used reference is not emitted again |
| EclPortfolios.Portfolio.InitialAssessment | app/services/ecl.py:482-522 | a contract gets one origination row, with one event for any movement, and none on a configuration gap |
| EclPortfolios.Portfolio.RunEcl | app/services/ecl.py:556-620 | the loop assesses each contract and accumulates the totals, or leaves everything as it was on a configuration gap: the new state is that of the run function, whose totals EclTotals.TotalsAreSums fixes |
| EclOutcomes.RunOutcome | app/services/ecl.py:556-620 | a run adds one row per contract given, in order, each the assessment of its facts on the rows before it; it fails exactly when the calibration does not serve one of them, and then changes nothing |
| EclOutcomes.InitialOutcome | app/services/ecl.py:482-522 | a contract without an origination row gets the assessment of its facts as one, any other is left alone |
| EclOutcomes.PostOutcome | app/services/ecl.py:623-691 | posting marks its run and adds events, changes no row and no other run, and does nothing the second time |
| EclOutcomes.WriteOffOutcome | app/services/write_off.py:708-768 | an execution takes the closing provision of the row that is last by date and then by creation, or none, and changes no row and no run |
| EclTotals.TotalsAreSums | app/services/ecl.py:591-618 | after any run of the protocol every stored total of every portfolio run is the sum over exactly its own rows: the loss of those booked in stage 1, in 2, in 3 and in none, loss, exposure and movement |
| EclPortfolios.Portfolio.PostRun | app/services/ecl.py:623-691 | posting emits the run's contract events and roll-up once |
| EclPortfolios.Portfolio.WriteOff | app/services/write_off.py:708-768 | an execution snapshots the latest closing provision, its booking is emitted, and a release of the whole provision when it is positive |
| EclPortfolios.Portfolio.LatestClosing | app/services/ecl_override.py:61-67 | the loop finds the closing provision of the contract's newest assessment |
| EclBookLaws.BackdatedOpensAtZero | app/services/ecl.py:386-389 | a visit dated before everything a contract has opens at zero |
| EclBookLaws.Telescope | app/services/ecl.py:386-396 | over chronological rows the movements add up to the last closing provision |
| EclBookLaws.EmitRowsSums | app/services/ecl.py:631-672 | the events of a posting carry, per contract and in all, the movement of the run's rows |
| EclBookTheorems.RunKeeps | app/services/ecl.py:482-691 | any interleaving of origination, runs, postings and write-offs keeps rows, totals and events consistent |
| EclBookTheorems.EventsAreCountedMovements | app/services/ecl.py:482-691 | a contract's events sum to closing minus opening over exactly its origination and posted rows, in any order and with repeated posts |
| EclBookTheorems.EventsAreTheProvision | app/services/ecl.py:482-691 | with chronological dates and every run posted they sum to the latest closing provision |
| EclBookTheorems.WriteOffsBreakTheAllowance | app/services/write_off.py:708-768 | with the releases of write-offs added they do so exactly when no write-off has released anything |
| EclBookTheorems.RollUpRepeatsContracts | app/services/ecl.py:674-685 | the roll-up of a posted run equals the sum of its contract events |
| EclBookTheorems.KindsTellSigns | app/services/ecl.py:641-672 | over any run releases are negative, increases positive and no contract event but a booked write-off is empty |
| EclEvents.EveryMovementHasItsEvent | app/services/ecl.py:482-691 | after any run of the protocol every origination that moved a provision, both parts of every posted row, every posted run and every write-off have their events, of the right kind and with the right amount |
| EclBookTheorems.ThreeStageTotals | app/services/ecl.py:591-613 | after any run of the protocol whose stage overrides ask for stages 1 to 3, a portfolio run of staged rows has a loss that is the sum of its three stage totals; which rows each one counts is EclTotals.TotalsAreSums |
| EclPostings.OneEvent | app/services/coa.py:596-627 | a provision event posts impairment against the allowance, the roll-up posts nothing |
| EclPostings.OneBooking | app/services/coa.py:648-673 | the booking of a write-off debits the allowance by what the provision covers of the total |
| EclPostings.AllowanceIsMovements | app/services/write_off.py:708-768 | after any run a contract's allowance is the movement of its origination row and posted rows, less what each write-off of it drew and released |
| EclPostings.AllowanceIsProvision | app/services/write_off.py:708-768 | with chronological dates and every run posted that is the latest closing provision less every release and every amount covered, and the provision exactly when no write-off found a positive one |
| EclPostings.AllowanceLost | app/services/write_off.py:708-768 | a write-off that finds a provision parts the contract's allowance from its provision in every later state of that kind |
| EclPostings.AllowanceParts | app/services/write_off.py:708-768 | origination under the shipped calibration and a write-off of forty cents are such a run |
| EclConfig.ActivateKeeps | app/services/ecl_config.py:181-214 | an activation numbers the next version, leaves exactly it active, touches no earlier version, and is refused exactly for an illegal change |
| EclConfig.LastChangeWins | app/services/ecl_config.py:129-139 | changes touch only the fields they name and per field the last one wins |
| EclConfig.ActivatedHolds | app/services/ecl_config.py:129-214 | the version an accepted change set activates holds, of each field named, what the last change to it asks for, and every other field as the version before had it |
| EclConfig.Nameable | app/services/ecl_config.py:181-200 | a change is refused exactly for an unknown field or a name that is none of the three methodologies |
| EclConfig.RunKeeps | app/services/ecl_config.py:142-214 | over any run versions are 1 to n with n active, and what a version means never changes |
| EclConfig.ConfigurationTable.GetActive | app/services/ecl_config.py:142-156 | the active row is found, or version 1 is seeded |
| EclConfig.ConfigurationTable.ActivateVersion | app/services/ecl_config.py:181-214 | unknown fields and methodologies are refused unchanged; otherwise the active row is cloned, changed field by field and superseded |
| EclWorld.StartFaithful | app/services/ecl.py:304-307 | after any run of activations and assessments every row's snapshot is the calibration of its stamped version, and the row can be recomputed under it |
| EclWorld.RunKeeps | app/services/ecl.py:462-467 | each further step keeps that |
| Overrides.RunKeeps | app/services/ecl_override.py:150-368 | over any run of requests, decisions, cancellations and expiry at most one override per contract is pending and at most one governs, a request waits exactly while its override does, and approval is by another user |
| Overrides.ChainEnd | app/services/approvals.py:325-349 | following superseded_by always ends, at an override of the same contract that nothing superseded |
| Overrides.GoverningUnique | app/services/ecl.py:269-281 | at most one override is in force for a contract on a day, so the search order does not matter |
| Overrides.ExpiryIsNeutral | app/services/ecl_override.py:348-368 | the expiry job never changes what governs a contract from that day on |
| Overrides.ApprovalGoverns | app/services/approvals.py:287-350 | once approved, an override is what governs its contract on every day of its window |
| Overrides.AtMostOnePending | app/services/ecl_override.py:70-76 | on any reachable desk two pending overrides of a contract are one |
| DeskOutcomes.PlaceOutcome | app/services/ecl_override.py:150-319 | a request adds one waiting override with what was asked for, exactly when nothing of the contract waits and the window is not empty; what governs stays |
| DeskOutcomes.DecideWhen | app/services/approvals.py:121-161 | a decision goes through exactly when its request waits and another user decides; otherwise nothing changes |
| DeskOutcomes.RejectOutcome | app/services/approvals.py:611-640 | a rejection ends its override and its request and leaves everything else, and what governs, as it was |
| DeskOutcomes.ApproveOutcome | app/services/approvals.py:287-350 | an approval makes its override active inside its window and approved before it, withdraws in its favour exactly what else governed the contract, and leaves everything else as it was |
| DeskOutcomes.CancelWhen | app/services/ecl_override.py:322-334 | an override can be cancelled exactly while it waits or governs |
| DeskOutcomes.CancelEnds | app/services/ecl_override.py:322-345 | a cancelled override neither waits nor governs on any day, its contract is governed by nobody on the days it governed and by the same as before on all others, and no other override or request changes |
| DeskOutcomes.ExpireOutcome | app/services/ecl_override.py:348-368 | the expiry job ends exactly the governing overrides past their window, starts exactly the approved ones that have reached it, and leaves the rest |
| DeskOutcomes.ExpirySettles | app/services/ecl_override.py:348-368 | after it nothing governs past its window and nothing inside its window is still only approved |
| OverrideDesks.OverrideDesk.Place | app/services/ecl_override.py:169-319 | a second pending override is refused |
| OverrideDesks.OverrideDesk.Decide | app/services/approvals.py:121-161 | a waiting request is decided once, by another user; approval makes the override govern and withdraws what governed before |
| OverrideDesks.OverrideDesk.Supersede | app/services/approvals.py:325-349 | the loop over siblings cancels exactly the other governing overrides of the contract |
| OverrideDesks.OverrideDesk.Cancel | app/services/ecl_override.py:322-345 | a pending or governing override is withdrawn, and a request still waiting is closed with it: the new state is that of the cancellation function, whose effect DeskOutcomes.CancelEnds fixes |
| OverrideDesks.OverrideDesk.ExpireDue | app/services/ecl_override.py:348-368 | governing overrides past their window expire and approved ones inside it become active |
| PaymentIntents.RankFalls | app/models/payment_gateway.py:76-137 | every permitted transition lowers the rank, and the terminal statuses are exactly those without one |
| PaymentIntents.PermittedFrom | app/models/payment_gateway.py:76-137 | the transition graph, told from where each status can be entered |
| PaymentIntents.EnteredOnce | app/services/gateway_webhooks.py:68-263 | for every stream of deliveries, whatever allocation status is configured at each, every status is entered at most once, at most six transitions happen and at most one payment is recorded; under one configuration exactly when its status was entered |
| PaymentIntents.EnteredExactly | app/services/gateway_webhooks.py:90-196 | a status is entered exactly when some event claiming it could be used and was in place at its first delivery |
| PaymentIntents.TerminalStays | app/models/payment_gateway.py:114-131 | a terminal status is never left |
| PaymentIntents.RefundAfterSettlement | app/models/payment_gateway.py:94-112 | a reversal, refund or chargeback only follows a settlement |
| PaymentIntents.DuplicatesAreIdle | app/services/gateway_webhooks.py:90-104 | redeliveries change nothing: only the first delivery of each event counts |
| PaymentIntents.RecordsTell | app/services/gateway_webhooks.py:90-264 | after any stream every delivered event has exactly one record, which counts its redeliveries and says why its first delivery was rejected, failed or processed |
| PaymentIntents.OvertakenEventIsLost | app/services/gateway_webhooks.py:90-196 | an event out of place at its first delivery never takes effect, however often it is redelivered, unless another event claims the same status |
| PaymentIntents.OvertakenSettlement | app/services/gateway_webhooks.py:90-263 | so a settlement delivered to an authorized intent is lost and its payment never recorded |
| References.ParseReference | app/core/references.py:44-55 | the loop over the prefix table finds the entity whose prefix precedes the first hyphen and the number after it, or nothing |
| References.RoundTrip | app/core/references.py:33-55 | any spelling of a code, whatever its case and outer white space, parses back to its entity and id |
| References.FormattedRoundTrip | app/core/references.py:33-55 | a formatted code parses back exactly when the id is not negative |
| References.CodesAreUnique | app/core/references.py:1-15 | distinct entities or ids never share a code |
| References.LookupMeans | app/core/references.py:18-28 | the search over the prefix table finds the entity a prefix stands for, and nothing for any other text |
| References.CodeShape | app/core/references.py:30-41 | a code is two letters, a hyphen and six digits, and has more digits, none leading zero, exactly for numbers from a million on |
| Dates.AddMonthsExact | app/core/dates.py:7-13 | the result is a calendar date exactly that many months away, on the same day or the month's last, and missing only outside the calendar |
| Dates.StrictlyIncreasing | app/core/dates.py:7-13 | more months from one start give a later date |
| Dates.Additive | app/core/dates.py:7-13 | two shifts are one shift exactly when the first clamps no further than the second |
| Dates.AdditiveUpToThe28th | app/core/dates.py:7-13 | from a day up to the 28th shifts always add |
| ErpPosting.RunKeeps | app/services/accounting.py:156-235 | whatever the provider answers, no journal is accepted twice, only balanced ones are, and event and journal agree |
| ErpPosting.PostingTwiceIsPostingOnce | app/services/accounting.py:181-212 | posting again without new journals changes nothing |
| ErpPosting.PostOutcome | app/services/accounting.py:156-212 | the posting job hands over exactly the ready journals, in order, marks each with its event as the provider answered, counts a refusal on both, and leaves every other journal as it is |
| ErpPosting.RetryOutcome | app/services/accounting.py:215-235 | a retry concerns one journal and goes through exactly when that has failed and balances |
| ErpPosting.JournalQueue.PostAll | app/services/accounting.py:181-212 | the loop hands over the ready journals in order and counts those posted and those refused |
| ErpPosting.JournalQueue.RetryOne | app/services/accounting.py:215-235 | only a failed journal that balances is retried |

## Left out

- Configuration outside its meaning: fee and refund rates are not negative and rebate percentages are fractions.
- A portfolio run that visited a contract twice: the run's query returns each active contract once.
- Routers, schemas, authentication, roles, audit events, reports, dashboards, notifications and stock levels.
- Database sessions, row locks and column types: rows are values in sequences, so aliasing between objects is not modelled, and neither is the rounding of stored rates to six decimals or of stored exposures to two.
- Floats and JSON between services: amounts and rates are exact.
- Timestamps: dates are day numbers; payment and assessment days are inputs.
- Payment reversal, refunds, bank and gateway reconciliation and recoveries after a write-off.
- Write-off requests and their eligibility checks: an executed write-off starts from an approved request that asks for no negative amount.
- The approval of a deviating settlement rebate: on approval it performs the settlement modelled here at the quoted payoff.
- Collections cases and promises, which only enter as risk indicators of an assessment.
- Chart-of-accounts proposals and mapping approval: the journal laws hold for any mapping, the account laws for the seeded rules.
- The mapping-line multiplier, which approval does not carry over.
- The number of contracts per stage that a portfolio run stores next to its totals.
- Human-readable reasons, notes and formula texts of assessments and overrides.
- Unicode digits, letters and white space in reference codes.
- Webhook events for other or unknown intents, signature computation and the payloads of gateway transactions.
- The overdue job visits installments by due date; a schedule here is listed in that order.
- Overdue jobs across contracts: the job is modelled for one contract, which is how its cap and charges work.
- BookTheorems.GeneralLedgerRefines: the receivable is not claimed for returned contracts, because the seeded return rule leaves retained profit on it; ReceivableAgainstSubledger gives the exact amount.
- Pricing.ProfitNeverIncreases: gives a sufficient profit only, and Pricing.SmallProfitIncreases a profit that is too small; between the two the rounding of each single share decides, and Pricing.NoThreshold shows that no amount of profit divides them.
- EclPreview.StagePreviewRates: leaves out a calibration that maps a rating to an empty segment name, where the preview reads the rows of retail_unrated instead; EclPreview.StagePreviewExact covers it.
- What a portfolio run visits and the exposures it takes: they are inputs, not computed from the contracts' books.
- EclHistory.PeakOfRawStages: claims the first day only for chronological dates, because a back-dated assessment can be recorded with an earlier day than the raw stage was reached.
