// What a late fee written off in part does to the control account and to the ledger, once the rest of
// it is waived or the contract is settled (app/services/write_off.py, approvals.py, closure.py).
module FeeWriteOffs {
  import opened Options
  import opened Sums
  import opened Subledger
  import opened SubledgerLaws
  import opened WriteOffs
  import opened Books
  import opened Reconciliation
  import opened BookSteps
  import opened BookClosures
  import opened BookWriteOffs
  import opened BookTheorems
  import opened Maturity
  import opened LateFees
  import GL = GeneralLedger

  // One cent of late fees.
  const ONE_CENT := Execution(0, 0, 1, 0)

  // The overdue job, run on the signed contract, charges a first fee of more than that.
  predicate FirstFee(b: Book, policy: OverduePolicy) {
    var charges := Assess(b.installments, [], 0, policy);
    policy.rate >= 0.0 && charges != [] && charges[0].amount >= 2
  }

  // A contract open, unpaid and without waivers, with its first fee as assessed.
  ghost predicate FreshlyCharged(a: Book) {
    && a in SOUND && a.status.Active? && a.payments == [] && a.waivers == []
    && a.charges != [] && a.charges[0].amount >= 2 && forall k :: 0 <= k < |a.charges| ==> JustAssessed(a.charges[k])
  }

  predicate JustAssessed(c: Charge) { c.paid == 0 && c.writtenOff == 0 && c.status.Assessed? }

  // The same contract with one cent of its first fee written off.
  ghost predicate OneCentOff(w: Book) {
    && w in SOUND && w.status.Active? && w.payments == [] && w.waivers == []
    && w.charges != [] && w.charges[0].writtenOff == 1 && w.charges[0].paid == 0 && w.charges[0].amount >= 2
    && forall k :: 0 <= k < |w.charges| ==> w.charges[k].status.Assessed? && w.charges[k].writtenOff >= 0
  }

  lemma JobCharges(b: Book, d: Book, policy: OverduePolicy)
    requires Signed(b) && FirstFee(b, policy)
    requires d in SOUND && d.status.Active? && d.payments == [] && d.charges == [] && d.installments == b.installments && d.waivers == []
    ensures FreshlyCharged(AssessOverdue(d, policy).0)
  {
    hide EmitCharges, Assess, RowsOk, KeysOk, LedgerOk, JournalsOk, ValidTerms;
    var a := AssessOverdue(d, policy).0;
    AssessKeeps(d, policy);
    AssessCharges(d, policy);
    SignedRows(b);
    AssessLaws(b.installments, [], 0, policy);
    var charges := Assess(d.installments, d.charges, 0, policy);
    var marked := d.(installments := MarkOverdue(d.installments, policy), charges := charges);
    ChargesKeepStatus(marked, charges, 0);
    ChargesKeepWaivers(marked, charges, 0);
  }

  lemma SignedRows(b: Book)
    requires Signed(b)
    ensures ValidInstallments(b.installments) && ValidCharges([]) && Owned([], |b.installments|)
  {
  }

  lemma {:induction false} ChargesKeepWaivers(b: Book, charges: seq<Charge>, c: nat)
    ensures EmitCharges(b, charges, c).waivers == b.waivers
    decreases |charges| - c
  {
    hide Emit;
    if c < |charges| {
      EmitWaivers(b, GL.LateFeeCharged, ChargedKey(c), charges[c].amount);
      ChargesKeepWaivers(Emit(b, GL.LateFeeCharged, ChargedKey(c), charges[c].amount), charges, c + 1);
    }
  }

  lemma EmitWaivers(b: Book, kind: GL.EventType, key: Key, amount: int)
    ensures Emit(b, kind, key, amount).waivers == b.waivers
  {
    hide GL.JournalFor, AmountsOf, Known;
  }

  lemma CentAsked(a: Book)
    requires FreshlyCharged(a)
    ensures Asked(a, ONE_CENT)
  {
    hide LedgerOk, JournalsOk, KeysOk;
    ActiveRows(a);
    assert forall i :: 0 <= i < |a.installments| ==> ValidInstallment(a.installments[i]);
    assert forall k :: 0 <= k < |a.charges| ==> ValidCharge(a.charges[k]);
    SumNonNegative(a.installments, PrincipalOutstanding);
    SumNonNegative(a.installments, ProfitOutstanding);
    SumNonNegative(a.charges[1..], FeeOutstanding);
    assert JustAssessed(a.charges[0]);
  }

  lemma CentSwept(charges: seq<Charge>)
    requires charges != [] && charges[0].amount >= 2 && JustAssessed(charges[0])
    ensures SweepFees(charges, 1) == [charges[0].(writtenOff := 1)] + charges[1..]
  {
    SweepNoFees(charges[1..]);
  }

  lemma CentOff(a: Book)
    requires FreshlyCharged(a)
    ensures OneCentOff(ExecuteWriteOff(a, false, ONE_CENT).0)
  {
    hide RowsOk, KeysOk, LedgerOk, JournalsOk, Emit, EmitExecution, ExecuteWriteOff, Sweep, SweepFees, SweepEntries, SweepFeeEntries, Asked;
    var w := ExecuteWriteOff(a, false, ONE_CENT).0;
    CentAsked(a);
    AskedIsAccepted(a, ONE_CENT);
    ExecuteKeeps(a, false, ONE_CENT);
    ExecutedAs(a, false, ONE_CENT);
    EmissionKeeps(ExecutedRecords(a, false, ONE_CENT), GL.PartialWriteOffExecuted, |a.executions|, ONE_CENT);
    CentSwept(a.charges);
    assert forall k :: 0 <= k < |a.charges| ==> JustAssessed(a.charges[k]);
  }

  // -------------------------------------------------------------------------
  // Waived: the receivable is credited for the cent a second time
  // -------------------------------------------------------------------------

  lemma RestWaived(w: Book)
    requires OneCentOff(w)
    ensures var z := DecideWaiver(RequestWaiver(w, 0, 1).0, 0, 2, true).0;
      && z in SOUND && z.status.Active?
      && z.charges != [] && z.charges[0].status.Waived? && z.charges[0].writtenOff == 1
  {
    hide RowsOk, KeysOk, LedgerOk, JournalsOk, Emit, Record;
    var q := RequestWaiver(w, 0, 1).0;
    RequestWaiverKeeps(w, 0, 1);
    DecideWaiverKeeps(q, 0, 2, true);
    EmissionRows();
    assert q == w.(waivers := [Waiver(0, 1, Decision.Pending, 0)]);
  }

  lemma WaivedApart(z: Book)
    requires z in SOUND && z.status.Active? && z.charges != [] && z.charges[0].status.Waived? && z.charges[0].writtenOff == 1
    ensures GL.Balance(z.journals, GL.RECEIVABLE) != TotalOutstanding(z.installments, z.charges)
  {
    hide KeysOk, LedgerOk, JournalsOk, GL.Balance, TotalOutstanding;
    ActiveIsOpen(z);
    ReceivableExact(z);
  }

  lemma ActiveIsOpen(z: Book)
    requires z in SOUND && z.status.Active?
    ensures Booked(z) && !ClosedOutByClosure(z)
  {
    hide Sums.Sum;
    assert RowsOk(z);
  }

  // -------------------------------------------------------------------------
  // Settled: the row reads as paid in full, the ledger is the cent short
  // -------------------------------------------------------------------------

  lemma FeesShort(charges: seq<Charge>)
    requires charges != [] && charges[0].writtenOff == 1
    requires forall k :: 0 <= k < |charges| ==> !charges[k].status.Waived? && charges[k].writtenOff >= 0
    ensures Sum(charges, FeeOffAmount) > 0 == Sum(charges, DoubledOf)
  {
    SumZero(charges, DoubledOf);
    SumNonNegative(charges[1..], FeeOffAmount);
  }

  lemma SettledCharges(w: Book, reference: string, amount: int)
    requires Settle(w, reference, amount, ByAmount(0), 0.0).1.Accepted?
    ensures Settle(w, reference, amount, ByAmount(0), 0.0).0.charges == CloseOutCharges(w.charges)
  {
    hide Emit, QuoteFor, SettlementEntries;
    EmissionRows();
  }

  lemma SettledShort(w: Book)
    requires OneCentOff(w)
    ensures !LedgerShowsLateFees(Settle(w, "payoff", PayoffOf(w), ByAmount(0), 0.0).0)
  {
    hide RowsOk, KeysOk, LedgerOk, JournalsOk, Settle, PayoffOf, QuoteFor, LedgerShowsLateFees;
    var s := Settle(w, "payoff", PayoffOf(w), ByAmount(0), 0.0).0;
    PayoffAccepted(w, "payoff");
    SettledCharges(w, "payoff", PayoffOf(w));
    FeesShort(s.charges);
    SoundLedger(s);
  }

  // -------------------------------------------------------------------------
  // Reachable from every signed contract the job charges
  // -------------------------------------------------------------------------

  function CentRun(policy: OverduePolicy): seq<Command> { [DoDeliver, DoAssess(policy), DoWriteOff(false, ONE_CENT)] }

  function WaivedRun(policy: OverduePolicy): seq<Command> {
    CentRun(policy) + [DoRequestWaiver(0, 1), DoDecideWaiver(0, 2, true)]
  }

  function SettledRun(b: Book, policy: OverduePolicy): seq<Command> {
    CentRun(policy) + [DoSettle("payoff", PayoffOf(Run(b, CentRun(policy))), ByAmount(0), 0.0)]
  }

  predicate AllConfiguredIn(commands: seq<Command>) { forall k :: 0 <= k < |commands| ==> Configured(commands[k]) }

  lemma RunsConfigured(b: Book, policy: OverduePolicy)
    requires policy.rate >= 0.0
    ensures AllConfiguredIn(WaivedRun(policy)) && AllConfiguredIn(SettledRun(b, policy))
  {
    hide PayoffOf, Run;
  }

  lemma DeliveredWithoutWaivers(b: Book)
    requires Signed(b)
    ensures Deliver(b).0.waivers == []
  {
    hide Emit;
    var live := b.(status := Active);
    EmitWaivers(live, GL.ContractActivated, ActivatedKey, b.terms.salePrice);
    EmitWaivers(Emit(live, GL.ContractActivated, ActivatedKey, b.terms.salePrice), GL.DownPaymentReceived, DownPaymentKey, b.terms.downPayment);
  }

  lemma CentSteps(b: Book, policy: OverduePolicy, user: nat)
    ensures Step(b, DoDeliver) == Deliver(b).0 && Step(b, DoAssess(policy)) == AssessOverdue(b, policy).0
    ensures Step(b, DoWriteOff(false, ONE_CENT)) == ExecuteWriteOff(b, false, ONE_CENT).0
    ensures Step(b, DoRequestWaiver(0, user)) == RequestWaiver(b, 0, user).0 && Step(b, DoDecideWaiver(0, user, true)) == DecideWaiver(b, 0, user, true).0
    ensures CentRun(policy) == [DoDeliver, DoAssess(policy), DoWriteOff(false, ONE_CENT)]
  {
    hide Deliver, AssessOverdue, ExecuteWriteOff, RequestWaiver, DecideWaiver;
  }

  lemma CentReached(b: Book, policy: OverduePolicy)
    requires Signed(b) && FirstFee(b, policy)
    ensures OneCentOff(Run(b, CentRun(policy)))
  {
    hide *;
    var d, a := Deliver(b).0, AssessOverdue(Deliver(b).0, policy).0;
    Delivered(b);
    DeliveredWithoutWaivers(b);
    JobCharges(b, d, policy);
    CentOff(a);
    CentSteps(b, policy, 0);
    CentSteps(d, policy, 0);
    CentSteps(a, policy, 0);
    RunThree(b, DoDeliver, DoAssess(policy), DoWriteOff(false, ONE_CENT));
  }

  // Write part of the fee off, waive the rest: account 1100 is no longer what is outstanding.
  lemma WaiverBreaksReceivable(b: Book, policy: OverduePolicy)
    requires Signed(b) && FirstFee(b, policy)
    ensures var z := Run(b, WaivedRun(policy));
      z.status.Active? && GL.Balance(z.journals, GL.RECEIVABLE) != TotalOutstanding(z.installments, z.charges)
  {
    hide *;
    var w := Run(b, CentRun(policy));
    var q := RequestWaiver(w, 0, 1).0;
    CentReached(b, policy);
    RestWaived(w);
    WaivedApart(DecideWaiver(q, 0, 2, true).0);
    WaivedRunIs(policy);
    RunAppend(b, CentRun(policy), [DoRequestWaiver(0, 1), DoDecideWaiver(0, 2, true)]);
    RunTwo(w, DoRequestWaiver(0, 1), DoDecideWaiver(0, 2, true));
    CentSteps(w, policy, 1);
    CentSteps(q, policy, 2);
  }

  lemma WaivedRunIs(policy: OverduePolicy)
    ensures WaivedRun(policy) == CentRun(policy) + [DoRequestWaiver(0, 1), DoDecideWaiver(0, 2, true)]
  {
    hide CentRun;
  }

  lemma SettledRunIs(b: Book, policy: OverduePolicy)
    ensures SettledRun(b, policy) == CentRun(policy) + [DoSettle("payoff", PayoffOf(Run(b, CentRun(policy))), ByAmount(0), 0.0)]
  {
    hide CentRun, PayoffOf;
  }

  lemma RunOne(b: Book, c: Command)
    ensures Run(b, [c]) == Step(b, c)
  {
    hide Step;
    assert [c][1..] == [];
  }

  // Write part of the fee off, settle: the ledger no longer shows the late fees the charges read as paid.
  lemma SettlementBreaksLateFees(b: Book, policy: OverduePolicy)
    requires Signed(b) && FirstFee(b, policy)
    ensures !LedgerShowsLateFees(Run(b, SettledRun(b, policy)))
  {
    hide *;
    var w := Run(b, CentRun(policy));
    CentReached(b, policy);
    SettledShort(w);
    SettledRunIs(b, policy);
    RunAppend(b, CentRun(policy), [DoSettle("payoff", PayoffOf(w), ByAmount(0), 0.0)]);
    RunOne(w, DoSettle("payoff", PayoffOf(w), ByAmount(0), 0.0));
    StepIs(w, ONE_CENT, "payoff", PayoffOf(w));
  }

  // -------------------------------------------------------------------------
  // A contract and a policy on which both happen
  // -------------------------------------------------------------------------

  // Ten per cent on the sample's one installment, ten days late.
  const LATE := OverduePolicy(40, 5, 0.1, 0)

  lemma SampleCharged()
    ensures FirstFee(SAMPLE, LATE)
  {
    var insts := SAMPLE.installments;
    assert FeeFor(insts[0], LATE) == 11;
    assert Charges(insts[0], [], 0, LATE);
    AssessNext(insts, [], 0, LATE);
    assert Assess(insts, [NewCharge(insts, 0, LATE)], 1, LATE) == [NewCharge(insts, 0, LATE)];
  }

  ghost predicate LosesReceivable(b: Book, commands: seq<Command>) {
    var z := Run(b, commands);
    AllConfiguredIn(commands) && z.status.Active? && GL.Balance(z.journals, GL.RECEIVABLE) != TotalOutstanding(z.installments, z.charges)
  }

  ghost predicate LosesLateFees(b: Book, commands: seq<Command>) {
    AllConfiguredIn(commands) && !LedgerShowsLateFees(Run(b, commands))
  }

  lemma LosesBoth(b: Book, waived: seq<Command>, settled: seq<Command>)
    requires AllConfiguredIn(waived) && AllConfiguredIn(settled) && !LedgerShowsLateFees(Run(b, settled))
    requires var z := Run(b, waived); z.status.Active? && GL.Balance(z.journals, GL.RECEIVABLE) != TotalOutstanding(z.installments, z.charges)
    ensures LosesReceivable(b, waived) && LosesLateFees(b, settled)
  {
    hide Run, GL.Balance, TotalOutstanding, LedgerShowsLateFees, AllConfiguredIn;
  }

  lemma FeePromisesFail()
    ensures Signed(SAMPLE)
    ensures exists commands :: LosesReceivable(SAMPLE, commands)
    ensures exists commands :: LosesLateFees(SAMPLE, commands)
  {
    hide *;
    SampleSigned();
    SampleCharged();
    RatesFine();
    WaiverBreaksReceivable(SAMPLE, LATE);
    SettlementBreaksLateFees(SAMPLE, LATE);
    RunsConfigured(SAMPLE, LATE);
    LosesBoth(SAMPLE, WaivedRun(LATE), SettledRun(SAMPLE, LATE));
  }

  lemma RatesFine()
    ensures LATE.rate >= 0.0
  {
  }
}
