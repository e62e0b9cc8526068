// When each operation on a contract goes through, and what it then changes, in terms of the rows alone.
module BookOutcomes {
  import opened Options
  import opened Sums
  import opened Subledger
  import opened SubledgerLaws
  import opened WriteOffs
  import opened Books
  import opened Postings
  import opened Reconciliation
  import opened BookSteps
  import opened BookClosures
  import opened BookWriteOffs
  import opened BookTheorems
  import opened PaymentLaws
  import opened LateFees
  import H = BookHistory
  import M = Money
  import W = Waterfall
  import GL = GeneralLedger

  // -------------------------------------------------------------------------
  // One payment per reference
  // -------------------------------------------------------------------------

  predicate UniqueReferences(payments: seq<Payment>) {
    forall j, k :: 0 <= j < k < |payments| ==> payments[j].reference != payments[k].reference
  }

  predicate Unused(payments: seq<Payment>, reference: string) {
    forall k :: 0 <= k < |payments| ==> payments[k].reference != reference
  }

  // At most one payment more, under a reference no payment has yet.
  predicate PaymentsGrow(before: seq<Payment>, after: seq<Payment>) {
    after == before || (|after| == |before| + 1 && before <= after && Unused(before, after[|before|].reference))
  }

  lemma EmissionPayments()
    ensures forall b: Book, kind, key, amount :: Emit(b, kind, key, amount).payments == b.payments
  {
    hide GL.JournalFor, AmountsOf, Known;
  }

  lemma PayGrows(b: Book, reference: string, amount: int)
    ensures PaymentsGrow(b.payments, Pay(b, reference, amount).0.payments)
  {
    hide Emit, PayPlan, ApplyLines, ApplyFees, PaymentEntries, AllPaid, TotalOutstanding, Sums.Sum;
    EmissionPayments();
    var p := Payment(reference, amount, PayPlan(b, amount).applied, PayPlan(b, amount).unallocated);
    assert (b.payments + [p])[|b.payments|] == p;
  }

  lemma SettleGrows(b: Book, reference: string, amount: int, request: RebateRequest, pct: real)
    ensures PaymentsGrow(b.payments, Settle(b, reference, amount, request, pct).0.payments)
  {
    hide Emit, QuoteFor, CloseOutInstallments, CloseOutCharges, SettlementEntries;
    EmissionPayments();
    if Settle(b, reference, amount, request, pct).1.Accepted? {
      var q := QuoteFor(b, request, pct).quote;
      var p := Payment(reference, q.payoff, q.payoff, 0);
      assert (b.payments + [p])[|b.payments|] == p;
    }
  }

  lemma OthersTakeNoPayment(b: Book, c: Command)
    requires !c.DoPay? && !c.DoSettle?
    ensures Step(b, c).payments == b.payments
  {
    hide Emit, QuoteFor, CloseOutInstallments, CloseOutCharges, ReturnEntries, Record, Swept, Assess, MarkOverdue, EmitCharges, PendingFor;
    EmissionPayments();
    if c.DoAssess? {
      var charges := Assess(b.installments, b.charges, 0, c.policy);
      ChargesKeepStatus(b.(installments := MarkOverdue(b.installments, c.policy), charges := charges), charges, |b.charges|);
    }
    if c.DoWriteOff? {
      SweptPayments(b, c.requested);
    }
  }

  lemma SweptPayments(b: Book, x: Execution)
    ensures Swept(b, x).payments == b.payments
  {
    hide Sweep, SweepFees, SweepEntries, SweepFeeEntries;
  }

  lemma StepPayments(b: Book, c: Command)
    ensures PaymentsGrow(b.payments, Step(b, c).payments)
  {
    hide Pay, Settle, PaymentsGrow;
    match c
    case DoPay(reference, amount) => PayGrows(b, reference, amount);
    case DoSettle(reference, amount, request, pct) => SettleGrows(b, reference, amount, request, pct);
    case _ => OthersTakeNoPayment(b, c); NoGrowth(b.payments);
  }

  lemma NoGrowth(payments: seq<Payment>)
    ensures PaymentsGrow(payments, payments)
  {
  }

  lemma StillUnique(before: seq<Payment>, after: seq<Payment>)
    requires UniqueReferences(before) && PaymentsGrow(before, after)
    ensures UniqueReferences(after)
  {
    assert forall k :: 0 <= k < |before| ==> before <= after ==> after[k] == before[k];
  }

  lemma {:induction false} RunReferences(b: Book, commands: seq<Command>)
    requires UniqueReferences(b.payments)
    ensures UniqueReferences(Run(b, commands).payments)
    decreases |commands|
  {
    hide Step, UniqueReferences;
    if commands != [] {
      StepPayments(b, commands[0]);
      StillUnique(b.payments, Step(b, commands[0]).payments);
      RunReferences(Step(b, commands[0]), commands[1..]);
    }
  }

  // After any run on a signed contract, under any configuration, no two of its payments share a reference.
  lemma OnePaymentPerReference(b: Book, commands: seq<Command>)
    requires Signed(b)
    ensures var d := Run(b, commands);
      forall j, k :: 0 <= j < k < |d.payments| ==> d.payments[j].reference != d.payments[k].reference
  {
    hide Run;
    RunReferences(b, commands);
  }

  // Recording a payment under a reference that a payment has changes nothing, whatever the amount.
  lemma RepeatedPaymentIsIdle(d: Book, reference: string, amount: int, k: nat)
    requires k < |d.payments| && d.payments[k].reference == reference && reference != ""
    ensures Pay(d, reference, amount) == (d, Replayed)
  {
    hide TotalOutstanding, PayPlan, ApplyPlan, EmitPayment, CloseIfRepaid;
  }

  // So a payment that has gone through once never goes through again, however much happens in between.
  lemma PaidOnce(b: Book, reference: string, amount: int, commands: seq<Command>, again: int)
    requires Pay(b, reference, amount).1.Accepted?
    ensures var d := Run(Pay(b, reference, amount).0, commands); Pay(d, reference, again) == (d, Replayed)
  {
    var e := Pay(b, reference, amount).0;
    AcceptedReference(b, reference, amount);
    hide *;
    H.HistoryIsKept(e, commands);
    PaymentsStay(e, Run(e, commands));
    RepeatedPaymentIsIdle(Run(e, commands), reference, again, |b.payments|);
  }

  lemma PaymentsStay(b: Book, d: Book)
    requires H.Kept(b, d)
    ensures |d.payments| >= |b.payments| && forall k :: 0 <= k < |b.payments| ==> d.payments[k] == b.payments[k]
  {
  }

  lemma AcceptedReference(b: Book, reference: string, amount: int)
    requires Pay(b, reference, amount).1.Accepted?
    ensures reference != ""
    ensures var after := Pay(b, reference, amount).0.payments; |after| == |b.payments| + 1 && after[|b.payments|].reference == reference
  {
    hide Emit, PayPlan, ApplyLines, ApplyFees, PaymentEntries, AllPaid, TotalOutstanding, Sums.Sum;
    EmissionPayments();
  }

  // When a payment is accepted; otherwise nothing changes.
  lemma PayWhen(b: Book, reference: string, amount: int)
    ensures Pay(b, reference, amount).1.Accepted? <==>
      && reference != "" && Unused(b.payments, reference) && b.status.Active?
      && 0 < amount <= Sum(b.installments, PrincipalOutstanding) + Sum(b.installments, ProfitOutstanding) + Sum(b.charges, FeeOutstanding)
    ensures !Pay(b, reference, amount).1.Accepted? ==> Pay(b, reference, amount).0 == b
  {
    hide PayPlan, ApplyPlan, EmitPayment, CloseIfRepaid, Sums.Sum;
  }

  // How a row reads after an accepted payment, given what the waterfall gives it.
  lemma PaidRowReads(b: Book, reference: string, amount: int, i: nat)
    requires b in SOUND && Pay(b, reference, amount).1.Accepted? && i < |b.installments|
    ensures |Pay(b, reference, amount).0.installments| == |b.installments| && |WalkOf(b, amount)| == |b.installments|
    ensures var before, after, l := b.installments[i], Pay(b, reference, amount).0.installments[i], WalkOf(b, amount)[i];
      if l.lateFee + l.profit + l.principal <= 0 then after == before
      else after == before.(
        principalPaid := before.principalPaid + l.principal, profitPaid := before.profitPaid + l.profit,
        status := if after.PrincipalOutstanding() <= 0 && after.ProfitOutstanding() <= 0 then InstallmentStatus.Paid
                  else if before.status.Overdue? then Overdue
                  else if after.principalPaid > 0 || after.profitPaid > 0 then PartiallyPaid else before.status)
  {
    hide W.Walk, FeesFrom, RowsOk, KeysOk, LedgerOk, JournalsOk, Pay;
    AcceptedVerdict(b, reference, amount);
    var d := PayMakes(b, reference, amount);
  }

  lemma {:induction false} OneFeeApplied(charges: seq<Charge>, i: nat, amount: int, k: nat)
    requires k < |charges| && SubledgerLaws.OneFee(charges) && (Payable(charges[k], i) ==> amount <= charges[k].amount - charges[k].paid)
    ensures ApplyFee(charges, i, amount)[k] == if Payable(charges[k], i) then PayCharge(charges[k], amount) else charges[k]
  {
    if k > 0 {
      OneFeeTail(charges);
      if !Payable(charges[k], i) {
        OthersKept(charges, i, amount, k);
      } else {
        assert !Payable(charges[0], i);
        OneFeeApplied(charges[1..], i, amount, k - 1);
      }
    }
  }

  lemma {:induction false} OthersKept(charges: seq<Charge>, i: nat, amount: int, k: nat)
    requires k < |charges| && !Payable(charges[k], i)
    ensures ApplyFee(charges, i, amount)[k] == charges[k]
  {
    if k > 0 {
      OthersKept(charges[1..], i, amount - FeeTake(charges[0], i, amount), k - 1);
    }
  }

  lemma {:induction false} FeesReach(charges: seq<Charge>, walk: seq<W.Line>, j: nat, k: nat)
    requires k < |charges| && j <= |walk| && ValidCharges(charges)
    requires forall i :: j <= i < |walk| ==> 0 <= walk[i].lateFee <= LateFeeOf(charges, i)
    ensures FeesFrom(charges, walk, j)[k] ==
      if j <= charges[k].inst < |walk| && !charges[k].status.Waived? then PayCharge(charges[k], walk[charges[k].inst].lateFee) else charges[k]
    decreases |walk| - j
  {
    hide LateFeeOf, ApplyFee, ValidCharge;
    if j < |walk| {
      var next := ApplyFee(charges, j, walk[j].lateFee);
      if !charges[k].status.Waived? { FeeRoom(charges, k); }
      FeeApplied(charges, j, walk[j].lateFee);
      OneFeeApplied(charges, j, walk[j].lateFee, k);
      forall i | j + 1 <= i < |walk| ensures LateFeeOf(next, i) == LateFeeOf(charges, i) {
        ApplyFeeOther(charges, j, walk[j].lateFee, i);
      }
      FeesReach(next, walk, j + 1, k);
    }
  }

  lemma FeeRoom(charges: seq<Charge>, k: nat)
    requires k < |charges| && ValidCharges(charges) && !charges[k].status.Waived?
    ensures LateFeeOf(charges, charges[k].inst) <= charges[k].amount - charges[k].paid
  {
    OnlyFee(charges, k);
    assert ValidCharge(charges[k]);
  }

  // How a charge reads after an accepted payment: its installment's late-fee share is paid on it unless it
  // is waived, and it reads paid once its amount is.
  lemma PaidFeeReads(b: Book, reference: string, amount: int, k: nat)
    requires b in SOUND && Pay(b, reference, amount).1.Accepted? && k < |b.charges|
    ensures |Pay(b, reference, amount).0.charges| == |b.charges| && b.charges[k].inst < |WalkOf(b, amount)|
    ensures var before, after, l := b.charges[k], Pay(b, reference, amount).0.charges[k], WalkOf(b, amount)[b.charges[k].inst];
      if before.status.Waived? || l.lateFee <= 0 then after == before
      else after == before.(paid := before.paid + l.lateFee, status := if before.paid + l.lateFee == before.amount then FeePaid else before.status)
  {
    hide W.Walk, FeesFrom, RowsOk, KeysOk, LedgerOk, JournalsOk, Pay, LateFeeOf;
    AcceptedVerdict(b, reference, amount);
    var d := PayMakes(b, reference, amount);
    ActiveRows(b);
    WalkOfDues(amount, b.installments, b.charges);
    var walk := WalkOf(b, amount);
    forall i | 0 <= i < |walk| ensures 0 <= walk[i].lateFee <= LateFeeOf(b.charges, i) {
      assert Fits(walk[i], b.installments, b.charges) && walk[i].id == i;
    }
    FeesReach(b.charges, walk, 0, k);
    if !b.charges[k].status.Waived? { FeeRoom(b.charges, k); }
  }

  lemma AcceptedVerdict(b: Book, reference: string, amount: int)
    ensures Pay(b, reference, amount).1 == PayVerdict(b, reference, amount)
  {
    hide PayPlan, ApplyPlan, EmitPayment, CloseIfRepaid, PayVerdict;
  }

  // -------------------------------------------------------------------------
  // Delivery
  // -------------------------------------------------------------------------

  lemma DeliverOutcome(b: Book)
    ensures Deliver(b).1.Accepted? <==> b.status.Created?
    ensures var d := Deliver(b).0; d == if b.status.Created? then b.(status := Active, events := d.events, journals := d.journals) else b
  {
    hide GL.JournalFor, AmountsOf, Known;
  }

  // -------------------------------------------------------------------------
  // The overdue job
  // -------------------------------------------------------------------------

  // It marks exactly the rows past their due date that owe something and do not read paid.
  lemma JobMarks(b: Book, policy: OverduePolicy)
    ensures var d := AssessOverdue(b, policy).0;
      && |d.installments| == |b.installments|
      && forall i :: 0 <= i < |b.installments| ==>
        var before := b.installments[i];
        d.installments[i] ==
          if b.status.Active? && before.dueDate < policy.asOf && !before.status.Paid? && (before.PrincipalOutstanding() > 0 || before.ProfitOutstanding() > 0)
          then before.(status := Overdue) else before
  {
    hide EmitCharges, Assess;
    if b.status.Active? {
      var charges := Assess(b.installments, b.charges, 0, policy);
      ChargesKeepInstallments(b.(installments := MarkOverdue(b.installments, policy), charges := charges), charges, |b.charges|);
    }
  }

  lemma {:induction false} ChargesKeepInstallments(b: Book, charges: seq<Charge>, c: nat)
    ensures EmitCharges(b, charges, c).installments == b.installments
    decreases |charges| - c
  {
    hide Emit;
    if c < |charges| {
      EmitInstallments(b, GL.LateFeeCharged, ChargedKey(c), charges[c].amount);
      ChargesKeepInstallments(Emit(b, GL.LateFeeCharged, ChargedKey(c), charges[c].amount), charges, c + 1);
    }
  }

  lemma EmitInstallments(b: Book, kind: GL.EventType, key: Key, amount: int)
    ensures Emit(b, kind, key, amount).installments == b.installments
  {
    hide GL.JournalFor, AmountsOf, Known;
  }

  // A new charge: one of an installment, untouched, of the rate on all that was scheduled with it.
  predicate NewFee(c: Charge, insts: seq<Installment>, policy: OverduePolicy) {
    && c.inst < |insts| && c.paid == 0 && c.writtenOff == 0 && c.status.Assessed?
    && M.NearestShare(c.amount, insts[c.inst].principal + insts[c.inst].profit, policy.rate)
  }

  predicate NewFees(before: seq<Charge>, after: seq<Charge>, insts: seq<Installment>, policy: OverduePolicy, id: nat) {
    && before <= after && (forall k :: |before| <= k < |after| ==> NewFee(after[k], insts, policy) && after[k].inst >= id)
    && (forall j, k :: |before| <= j < k < |after| ==> after[j].inst < after[k].inst)
  }

  lemma OneFeeMore(charges: seq<Charge>, c: Charge, after: seq<Charge>, insts: seq<Installment>, policy: OverduePolicy, id: nat)
    requires NewFee(c, insts, policy) && c.inst == id && NewFees(charges + [c], after, insts, policy, id + 1)
    ensures NewFees(charges, after, insts, policy, id)
  {
    hide NewFee;
    var next := charges + [c];
    assert after[..|next|] == next;
    assert charges == next[..|charges|] == after[..|charges|];
    assert after[|charges|] == next[|charges|] == c;
  }

  lemma LaterFees(charges: seq<Charge>, after: seq<Charge>, insts: seq<Installment>, policy: OverduePolicy, id: nat)
    requires NewFees(charges, after, insts, policy, id + 1)
    ensures NewFees(charges, after, insts, policy, id)
  {
    hide NewFee;
  }

  lemma NoNewFees(charges: seq<Charge>, insts: seq<Installment>, policy: OverduePolicy, id: nat)
    ensures NewFees(charges, charges, insts, policy, id)
  {
  }

  lemma FeeOfCharge(insts: seq<Installment>, id: nat, policy: OverduePolicy)
    requires id < |insts| && ValidInstallments(insts) && policy.rate >= 0.0
    ensures NewFee(NewCharge(insts, id, policy), insts, policy) && NewCharge(insts, id, policy).inst == id
  {
    hide M.Times, M.NearestShare;
    assert ValidInstallment(insts[id]);
    M.TimesNearest(insts[id].principal + insts[id].profit, policy.rate);
  }

  lemma {:induction false} AssessFees(insts: seq<Installment>, charges: seq<Charge>, id: nat, policy: OverduePolicy)
    requires id <= |insts| && ValidInstallments(insts) && policy.rate >= 0.0
    ensures NewFees(charges, Assess(insts, charges, id, policy), insts, policy, id)
    decreases |insts| - id
  {
    hide Charges, FeeFor, NewFees, NewFee;
    if id == |insts| {
      NoNewFees(charges, insts, policy, id);
    } else {
      AssessNext(insts, charges, id, policy);
      AssessFees(insts, Next(insts, charges, id, policy), id + 1, policy);
      FeeOfCharge(insts, id, policy);
      if Charges(insts[id], charges, id, policy) {
        assert Next(insts, charges, id, policy) == charges + [NewCharge(insts, id, policy)];
        OneFeeMore(charges, NewCharge(insts, id, policy), Assess(insts, charges, id, policy), insts, policy, id);
      } else {
        LaterFees(charges, Assess(insts, charges, id, policy), insts, policy, id);
      }
    }
  }

  // The charges the job adds.
  lemma JobCharges(b: Book, policy: OverduePolicy)
    requires b in SOUND && b.status.Active? && policy.rate >= 0.0
    ensures NewFees(b.charges, AssessOverdue(b, policy).0.charges, b.installments, policy, 0)
  {
    hide AssessOverdue, NewFees;
    ActiveRows(b);
    AssessCharges(b, policy);
    AssessFees(b.installments, b.charges, 0, policy);
  }

  function LiveFee(c: Charge): int { if c.status.Waived? then 0 else c.amount }

  function FeeBefore(i: nat): Charge -> int { (c: Charge) => if c.inst < i then c.amount else 0 }

  lemma {:induction false} NoneBefore(charges: seq<Charge>, i: nat)
    requires forall k :: 0 <= k < |charges| ==> charges[k].inst >= i
    ensures Sum(charges, FeeBefore(i)) == 0
  {
    if charges != [] {
      NoneBefore(charges[1..], i);
    }
  }

  lemma CountedBefore(charges: seq<Charge>, upTo: seq<Charge>, after: seq<Charge>, insts: seq<Installment>, policy: OverduePolicy, i: nat)
    requires NewFees(charges, upTo, insts, policy, 0) && AddsFrom(charges, upTo, 0, i) && upTo <= after
    requires forall k :: |upTo| <= k < |after| ==> after[k].inst >= i
    ensures Sum(upTo, FeeCounted) == Sum(charges, LiveFee) + Sum(after[|charges|..], FeeBefore(i))
  {
    hide M.NearestShare;
    var added, later := upTo[|charges|..], after[|upTo|..];
    assert upTo == charges + added && after[|charges|..] == added + later by { assert after == upTo + later; }
    assert forall k :: 0 <= k < |added| ==> added[k] == upTo[|charges| + k] && NewFee(upTo[|charges| + k], insts, policy);
    SumAppend(charges, added, FeeCounted);
    SumSame(charges, FeeCounted, charges, LiveFee);
    SumSame(added, FeeCounted, added, FeeBefore(i));
    SumAppend(added, later, FeeBefore(i));
    NoneBefore(later, i);
  }

  lemma AlreadyIs(charges: seq<Charge>, i: nat)
    ensures !AlreadyCharged(charges, i) <==> forall k :: 0 <= k < |charges| && charges[k].inst == i ==> charges[k].status.Waived?
  {
    assert forall k :: 0 <= k < |charges| ==> (Payable(charges[k], i) <==> charges[k].inst == i && !charges[k].status.Waived?);
  }

  lemma EarlierRows(insts: seq<Installment>, i: nat)
    requires ValidInstallments(insts) && i <= |insts|
    ensures ValidInstallments(insts[..i])
  {
  }

  lemma EarlierFees(charges: seq<Charge>, after: seq<Charge>, insts: seq<Installment>, i: nat, policy: OverduePolicy)
    requires i <= |insts| && NewFees(charges, after, insts[..i], policy, 0)
    ensures NewFees(charges, after, insts, policy, 0)
  {
    hide M.NearestShare;
  }

  lemma RestFees(upTo: seq<Charge>, next: seq<Charge>, after: seq<Charge>, i: nat, end: nat)
    requires upTo <= next && |next| <= |upTo| + 1 && (|next| > |upTo| ==> next[|upTo|].inst == i) && AddsFrom(next, after, i + 1, end)
    ensures upTo <= after && forall k :: |upTo| <= k < |after| ==> after[k].inst >= i
  {
    assert upTo == next[..|upTo|] == after[..|upTo|];
    assert |next| > |upTo| ==> after[|upTo|] == next[|upTo|];
  }

  // Which installments get one: those past the grace days that do not read paid and whose earlier charges
  // are all waived, as long as the cap holds the fee on top of the contract's live fees and those charged
  // on earlier installments.
  lemma ChargedWhen(b: Book, policy: OverduePolicy, i: nat)
    requires b in SOUND && b.status.Active? && policy.rate >= 0.0 && i < |b.installments|
    ensures b.charges <= AssessOverdue(b, policy).0.charges
    ensures var row, after := b.installments[i], AssessOverdue(b, policy).0.charges;
      (exists k :: |b.charges| <= k < |after| && after[k].inst == i) <==>
        && row.dueDate < policy.asOf && policy.asOf - row.dueDate > policy.grace && !row.status.Paid?
        && (forall k :: 0 <= k < |b.charges| && b.charges[k].inst == i ==> b.charges[k].status.Waived?)
        && (policy.cap > 0 ==>
             Sum(b.charges, LiveFee) + Sum(after[|b.charges|..], FeeBefore(i)) + M.Times(row.principal + row.profit, policy.rate) <= policy.cap)
  {
    hide AssessOverdue, Assess, NewFees, AlreadyCharged, Sums.Sum, M.Times, ValidInstallments;
    var insts := b.installments;
    ActiveRows(b);
    AssessCharges(b, policy);
    var upTo, after := Assess(insts[..i], b.charges, 0, policy), Assess(insts, b.charges, 0, policy);
    var next := Next(insts, upTo, i, policy);
    ChargedExactly(insts, b.charges, policy, i);
    AlreadyIs(b.charges, i);
    EarlierRows(insts, i);
    AssessFees(insts[..i], b.charges, 0, policy);
    EarlierFees(b.charges, upTo, insts, i, policy);
    AssessAdds(insts[..i], b.charges, 0, policy);
    AssessAdds(insts, b.charges, 0, policy);
    AssessReaches(insts, b.charges, 0, i, policy);
    AssessNext(insts, upTo, i, policy);
    AssessAdds(insts, next, i + 1, policy);
    RestFees(upTo, next, after, i, |insts|);
    CountedBefore(b.charges, upTo, after, insts, policy, i);
  }

  // -------------------------------------------------------------------------
  // Waivers
  // -------------------------------------------------------------------------

  lemma RequestOutcome(b: Book, charge: nat, user: nat)
    ensures RequestWaiver(b, charge, user).1.Accepted? <==>
      && charge < |b.charges| && b.charges[charge].status.Assessed?
      && forall k :: 0 <= k < |b.waivers| && b.waivers[k].charge == charge ==> !b.waivers[k].decision.Pending?
    ensures var d := RequestWaiver(b, charge, user).0;
      d == if RequestWaiver(b, charge, user).1.Accepted?
           then b.(waivers := b.waivers + [Waiver(charge, user, Decision.Pending, 0)]) else b
  {
  }

  lemma DecideWhen(b: Book, request: nat, user: nat, approve: bool)
    requires b in SOUND
    ensures DecideWaiver(b, request, user, approve).1.Accepted? <==>
      request < |b.waivers| && b.waivers[request].decision.Pending? && user != b.waivers[request].requestedBy
    ensures !DecideWaiver(b, request, user, approve).1.Accepted? ==> DecideWaiver(b, request, user, approve).0 == b
  {
    hide Emit, Record, RowsOk, LedgerOk, JournalsOk;
    assert KeysOk(b);
  }

  // A rejection decides the request and changes nothing else.
  lemma RejectOutcome(b: Book, request: nat, user: nat)
    requires DecideWaiver(b, request, user, false).1.Accepted?
    ensures request < |b.waivers|
    ensures DecideWaiver(b, request, user, false).0 ==
      b.(waivers := b.waivers[request := b.waivers[request].(decision := Decision.Rejected, decidedBy := user)])
  {
  }

  // An approval waives what is not paid of the charge: nothing is left of it, the ledger shows the waived
  // amount, and no other row changes.
  lemma ApproveOutcome(b: Book, request: nat, user: nat)
    requires b in SOUND && DecideWaiver(b, request, user, true).1.Accepted?
    ensures request < |b.waivers| && b.waivers[request].charge < |b.charges|
    ensures var d, k := DecideWaiver(b, request, user, true).0, b.waivers[request].charge;
      && d == b.(waivers := b.waivers[request := b.waivers[request].(decision := Decision.Approved, decidedBy := user)],
                 charges := d.charges, ledger := d.ledger, events := d.events, journals := d.journals)
      && d.charges == b.charges[k := b.charges[k].(status := FeeStatus.Waived)]
      && LedgerSum(d.ledger, LateFeeWaived) == LedgerSum(b.ledger, LateFeeWaived) + b.charges[k].amount - b.charges[k].paid
      && TotalOutstanding(d.installments, d.charges) ==
           TotalOutstanding(b.installments, b.charges) - (b.charges[k].amount - b.charges[k].paid - b.charges[k].writtenOff)
  {
    hide GL.JournalFor, AmountsOf, Known, RowsOk, LedgerOk, JournalsOk, LedgerSum;
    NotYetWaived(b, request);
    WaivablePart(b, request);
    var k := b.waivers[request].charge;
    RecordSum(b.ledger, LateFeeWaived, b.charges[k].amount - b.charges[k].paid, FromApproval(request), LateFeeWaived);
    SumSet(b.charges, k, b.charges[k].(status := FeeStatus.Waived), FeeOutstanding);
  }

  lemma WaivablePart(b: Book, r: nat)
    requires b in SOUND && r < |b.waivers| && b.waivers[r].decision.Pending? && b.waivers[r].charge < |b.charges|
    ensures var c := b.charges[b.waivers[r].charge]; c.amount >= c.paid && !c.status.Waived?
  {
    hide LedgerOk, JournalsOk;
    assert KeysOk(b) && RowsOk(b);
  }
}
