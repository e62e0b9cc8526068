// Every record of a contract has its accounting event, with the record's own amount
// (app/services/accounting.py and its callers).
module BookEvents {
  import opened Options
  import opened Sums
  import opened Subledger
  import opened SubledgerLaws
  import opened WriteOffs
  import opened Books
  import opened Postings
  import opened Reconciliation
  import opened BookSteps
  import opened BookClosures
  import opened BookWriteOffs
  import opened BookTheorems
  import opened PaymentLaws
  import opened LateFees
  import opened BookOutcomes
  import opened ClosureOutcomes
  import H = BookHistory
  import M = Money
  import W = Waterfall
  import GL = GeneralLedger

  predicate Has(b: Book, kind: GL.EventType, key: Key, amount: int) { Event(kind, key, amount) in b.events }

  // The event a closure is announced with; a write-off announces itself.
  ghost predicate Announced(b: Book, how: Closure) {
    match how
    case Normal => Has(b, GL.ContractClosed, ClosureKey, 0)
    case EarlySettlement => Has(b, GL.EarlySettlement, ClosureKey, 0)
    case Cancellation => exists refund :: Has(b, GL.Cancellation, ClosureKey, refund)
    case Return => exists net :: Has(b, GL.Return, ClosureKey, net)
    case WriteOff => b.executions != [] && WrittenOffFully(b, |b.executions| - 1)
  }

  predicate WrittenOffFully(b: Book, n: nat)
    requires n < |b.executions|
  {
    Has(b, GL.WriteOffExecuted, WriteOffKey(n), b.executions[n].Total())
  }

  predicate DeliveredEvents(b: Book) {
    Has(b, GL.ContractActivated, ActivatedKey, b.terms.salePrice) && Has(b, GL.DownPaymentReceived, DownPaymentKey, b.terms.downPayment)
  }

  predicate FeeEvent(b: Book, c: nat)
    requires c < |b.charges|
  {
    Has(b, GL.LateFeeCharged, ChargedKey(c), b.charges[c].amount)
  }

  predicate WaiverEvent(b: Book, c: nat)
    requires c < |b.charges|
  {
    b.charges[c].status.Waived? ==> Has(b, GL.LateFeeWaived, WaivedKey(c), b.charges[c].amount - b.charges[c].paid)
  }

  predicate ExecutionEvent(b: Book, n: nat)
    requires n < |b.executions|
  {
    && (WrittenOffFully(b, n) || Has(b, GL.PartialWriteOffExecuted, WriteOffKey(n), b.executions[n].Total()))
    && (b.executions[n].provision > 0 ==> Has(b, GL.EclReleased, ReleaseKey(n), -b.executions[n].provision))
  }

  // The last payment of a settled contract is the settlement itself.
  predicate PaymentEvent(b: Book, n: nat)
    requires n < |b.payments|
  {
    Has(b, GL.PaymentReceived, PaymentKey(n), b.payments[n].amount) || (b.closure == Some(EarlySettlement) && n == |b.payments| - 1)
  }

  ghost predicate Evented(b: Book) {
    && (Booked(b) ==> DeliveredEvents(b))
    && (forall c :: 0 <= c < |b.charges| ==> FeeEvent(b, c) && WaiverEvent(b, c))
    && (forall n :: 0 <= n < |b.executions| ==> ExecutionEvent(b, n))
    && (forall n :: 0 <= n < |b.payments| ==> PaymentEvent(b, n))
    && (b.closure.Some? ==> Announced(b, b.closure.value))
  }

  // -------------------------------------------------------------------------
  // One step
  // -------------------------------------------------------------------------

  // What is new in `d` has its event, and nothing is added to a closed contract but decided waivers.
  ghost predicate NewEvented(b: Book, d: Book) {
    && (Booked(d) && !Booked(b) ==> DeliveredEvents(d))
    && (forall c :: |b.charges| <= c < |d.charges| ==> FeeEvent(d, c) && WaiverEvent(d, c))
    && (forall c :: 0 <= c < |b.charges| && c < |d.charges| && !b.charges[c].status.Waived? ==> WaiverEvent(d, c))
    && (forall n :: |b.executions| <= n < |d.executions| ==> ExecutionEvent(d, n))
    && (forall n :: |b.payments| <= n < |d.payments| ==> PaymentEvent(d, n))
    && (if b.closure.Some? then d.closure == b.closure && d.payments == b.payments && d.executions == b.executions
        else d.closure.Some? ==> Announced(d, d.closure.value))
  }

  lemma StillHas(b: Book, d: Book)
    requires b.events <= d.events
    ensures forall kind, key, amount :: Has(b, kind, key, amount) ==> Has(d, kind, key, amount)
  {
    forall kind, key, amount | Has(b, kind, key, amount) ensures Has(d, kind, key, amount) {
      var k :| 0 <= k < |b.events| && b.events[k] == Event(kind, key, amount);
      assert d.events[k] == b.events[k];
    }
  }

  lemma StillAnnounced(b: Book, d: Book, how: Closure)
    requires Announced(b, how) && b.events <= d.events && (how.WriteOff? ==> d.executions == b.executions)
    ensures Announced(d, how)
  {
    hide Has;
    StillHas(b, d);
  }

  lemma Carries(b: Book, d: Book)
    requires Evented(b) && H.Kept(b, d) && NewEvented(b, d)
    ensures Evented(d)
  {
    hide Has, Announced;
    StillHas(b, d);
    forall c | 0 <= c < |d.charges| ensures FeeEvent(d, c) && WaiverEvent(d, c) {
      if c < |b.charges| {
        assert FeeEvent(b, c) && WaiverEvent(b, c) && H.ChargeKept(b.charges[c], d.charges[c]);
      }
    }
    forall n | 0 <= n < |d.executions| ensures ExecutionEvent(d, n) {
      if n < |b.executions| { assert ExecutionEvent(b, n) && d.executions[n] == b.executions[n]; }
    }
    forall n | 0 <= n < |d.payments| ensures PaymentEvent(d, n) {
      if n < |b.payments| { assert PaymentEvent(b, n) && d.payments[n] == b.payments[n]; }
    }
    if b.closure.Some? { StillAnnounced(b, d, b.closure.value); }
  }

  // The event just emitted under a new reference is there.
  lemma JustEmitted(a: Book, kind: GL.EventType, key: Key, amount: int)
    requires !Known(a.events, key)
    ensures var d := Emit(a, kind, key, amount);
      Has(d, kind, key, amount) && d == a.(events := d.events, journals := d.journals) && a.events <= d.events
  {
    hide GL.JournalFor, AmountsOf;
    var d := Emit(a, kind, key, amount);
    assert d.events[|a.events|] == Event(kind, key, amount);
  }

  lemma DeliverEvents(b: Book)
    requires b in SOUND
    ensures NewEvented(b, Deliver(b).0)
  {
    if b.status.Created? {
      hide RowsOk, LedgerOk, JournalsOk, Emit, Announced, Has;
      var live := b.(status := Active);
      OpenHasNoClosure(b);
      Unknown(b, ActivatedKey);
      Unknown(b, DownPaymentKey);
      NothingCharged(b);
      var activated := Emit(live, GL.ContractActivated, ActivatedKey, b.terms.salePrice);
      JustEmitted(live, GL.ContractActivated, ActivatedKey, b.terms.salePrice);
      StillUnknown(live, GL.ContractActivated, ActivatedKey, b.terms.salePrice, DownPaymentKey);
      JustEmitted(activated, GL.DownPaymentReceived, DownPaymentKey, b.terms.downPayment);
      StillHas(activated, Deliver(b).0);
    } else {
      SameRecordsEvented(b, b);
    }
  }

  lemma NothingCharged(b: Book)
    requires b in SOUND && b.status.Created?
    ensures b.charges == []
  {
    hide KeysOk, LedgerOk, JournalsOk, Sums.Sum;
    assert RowsOk(b);
  }

  // A step that adds no record and waives nothing.
  lemma SameRecordsEvented(b: Book, d: Book)
    requires Booked(d) == Booked(b) && d.executions == b.executions && d.payments == b.payments && d.closure == b.closure
    requires |d.charges| == |b.charges| && forall c :: 0 <= c < |b.charges| && d.charges[c].status.Waived? ==> b.charges[c].status.Waived?
    requires b.closure.Some? || d.closure.None?
    ensures NewEvented(b, d)
  {
  }

  lemma {:induction false} ChargesEmitted(b: Book, charges: seq<Charge>, c: nat)
    requires forall k :: c <= k < |charges| ==> !Known(b.events, ChargedKey(k))
    ensures var d := EmitCharges(b, charges, c);
      d == b.(events := d.events, journals := d.journals) && b.events <= d.events
      && forall k :: c <= k < |charges| ==> Has(d, GL.LateFeeCharged, ChargedKey(k), charges[k].amount)
    decreases |charges| - c
  {
    hide Emit, Has, Known;
    if c < |charges| {
      var next := Emit(b, GL.LateFeeCharged, ChargedKey(c), charges[c].amount);
      JustEmitted(b, GL.LateFeeCharged, ChargedKey(c), charges[c].amount);
      forall k | c + 1 <= k < |charges| ensures !Known(next.events, ChargedKey(k)) {
        StillUnknown(b, GL.LateFeeCharged, ChargedKey(c), charges[c].amount, ChargedKey(k));
      }
      ChargesEmitted(next, charges, c + 1);
      StillHas(next, EmitCharges(next, charges, c + 1));
    }
  }

  lemma AssessEvents(b: Book, policy: OverduePolicy)
    requires b in SOUND && policy.rate >= 0.0
    ensures NewEvented(b, AssessOverdue(b, policy).0)
  {
    if b.status.Active? {
      hide RowsOk, LedgerOk, JournalsOk, EmitCharges, Assess, Has, MarkOverdue;
      var charges := Assess(b.installments, b.charges, 0, policy);
      var marked := b.(installments := MarkOverdue(b.installments, policy), charges := charges);
      ActiveRows(b);
      AssessLaws(b.installments, b.charges, 0, policy);
      forall k | |b.charges| <= k < |charges| ensures !Known(marked.events, ChargedKey(k)) {
        Unknown(b, ChargedKey(k));
      }
      ChargesEmitted(marked, charges, |b.charges|);
    } else {
      AssessIdle(b, policy);
      StaysAnnounced(b);
    }
  }

  lemma AssessIdle(b: Book, policy: OverduePolicy)
    requires !b.status.Active?
    ensures AssessOverdue(b, policy).0 == b
  {
  }

  // A step that changes nothing needs no event.
  lemma StaysAnnounced(b: Book)
    ensures NewEvented(b, b)
  {
  }

  // An accepted payment, and the closing event when it closes the contract.
  lemma PaidEvents(b: Book, a: Book, amount: int, profit: int)
    requires b.status.Active? && b.closure.None? && !Known(b.events, PaymentKey(|b.payments|)) && !Known(b.events, ProfitKey(|b.payments|)) && !Known(b.events, ClosureKey)
    requires a.status.Active? && a.closure.None? && a.events == b.events && a.executions == b.executions
    requires |a.payments| == |b.payments| + 1 && a.payments[|b.payments|].amount == amount && |a.charges| == |b.charges|
    requires forall c :: 0 <= c < |b.charges| && a.charges[c].status.Waived? ==> b.charges[c].status.Waived?
    ensures NewEvented(b, CloseIfRepaid(EmitPayment(a, |b.payments|, amount, profit)))
  {
    hide Emit, Has, Known, AllPaid, Sums.Sum;
    var n := |b.payments|;
    var received := Emit(a, GL.PaymentReceived, PaymentKey(n), amount);
    JustEmitted(a, GL.PaymentReceived, PaymentKey(n), amount);
    StillUnknown(a, GL.PaymentReceived, PaymentKey(n), amount, ProfitKey(n));
    StillUnknown(a, GL.PaymentReceived, PaymentKey(n), amount, ClosureKey);
    var d := EmitPayment(a, n, amount, profit);
    if profit > 0 {
      JustEmitted(received, GL.ProfitRecognized, ProfitKey(n), profit);
      StillUnknown(received, GL.ProfitRecognized, ProfitKey(n), profit, ClosureKey);
      StillHas(received, d);
    }
    var closed := d.(status := Closed, closure := Some(Normal));
    JustEmitted(closed, GL.ContractClosed, ClosureKey, 0);
    StillHas(d, Emit(closed, GL.ContractClosed, ClosureKey, 0));
  }

  lemma PayEvents(b: Book, reference: string, amount: int)
    requires b in SOUND
    ensures NewEvented(b, Pay(b, reference, amount).0)
  {
    hide *;
    PayWhen(b, reference, amount);
    if Pay(b, reference, amount).1.Accepted? {
      var plan := PayPlan(b, amount);
      AcceptedVerdict(b, reference, amount);
      AcceptedActiveRows(b, reference, amount);
      PayPlanLaws(b, reference, amount);
      PlanRows(b, reference, amount);
      PaymentKeysFree(b);
      PlanShape(b, reference, amount, plan);
      PayIs(b, reference, amount, plan);
      PaidEvents(b, ApplyPlan(b, reference, amount, plan), amount, Sum(plan.lines, LineProfit));
    } else {
      StaysAnnounced(b);
    }
  }

  lemma AcceptedActiveRows(b: Book, reference: string, amount: int)
    requires b in SOUND && PayVerdict(b, reference, amount).Accepted?
    ensures b.status.Active? && b.closure.None? && ValidInstallments(b.installments) && ValidCharges(b.charges) && Owned(b.charges, |b.installments|)
  {
    ActiveRows(b);
  }

  lemma PaymentKeysFree(b: Book)
    requires b in SOUND && b.closure.None?
    ensures !Known(b.events, PaymentKey(|b.payments|)) && !Known(b.events, ProfitKey(|b.payments|)) && !Known(b.events, ClosureKey)
  {
    hide RowsOk, LedgerOk, JournalsOk;
    Unknown(b, PaymentKey(|b.payments|));
    Unknown(b, ProfitKey(|b.payments|));
    Unknown(b, ClosureKey);
  }

  lemma PlanShape(b: Book, reference: string, amount: int, plan: W.Allocation)
    requires plan == PayPlan(b, amount) && b.status.Active? && b.closure.None?
    ensures var a := ApplyPlan(b, reference, amount, plan);
      && a.status.Active? && a.closure.None? && a.events == b.events && a.executions == b.executions
      && |a.payments| == |b.payments| + 1 && a.payments[|b.payments|].amount == amount && |a.charges| == |b.charges|
      && forall c :: 0 <= c < |b.charges| && a.charges[c].status.Waived? ==> b.charges[c].status.Waived?
  {
    hide ApplyLines, PaymentEntries, PayPlan, ApplyFees;
    FeesWaiveNothing(b.charges, plan.lines);
  }

  lemma {:induction false} FeeWaivesNothing(charges: seq<Charge>, i: nat, amount: int, c: nat)
    requires c < |charges|
    ensures ApplyFee(charges, i, amount)[c].status.Waived? ==> charges[c].status.Waived?
  {
    if c > 0 {
      FeeWaivesNothing(charges[1..], i, amount - FeeTake(charges[0], i, amount), c - 1);
    }
  }

  lemma {:induction false} FeesWaiveNothing(charges: seq<Charge>, lines: seq<W.Line>)
    ensures forall c :: 0 <= c < |charges| && ApplyFees(charges, lines)[c].status.Waived? ==> charges[c].status.Waived?
    decreases |lines|
  {
    hide ApplyFee;
    if lines != [] {
      var next := ApplyFee(charges, lines[0].id, lines[0].lateFee);
      forall c | 0 <= c < |charges| ensures next[c].status.Waived? ==> charges[c].status.Waived? {
        FeeWaivesNothing(charges, lines[0].id, lines[0].lateFee, c);
      }
      FeesWaiveNothing(next, lines[1..]);
    }
  }

  lemma PayIs(b: Book, reference: string, amount: int, plan: W.Allocation)
    requires PayVerdict(b, reference, amount).Accepted? && plan == PayPlan(b, amount)
    ensures Pay(b, reference, amount).0 ==
      CloseIfRepaid(EmitPayment(ApplyPlan(b, reference, amount, plan), |b.payments|, amount, Sum(plan.lines, LineProfit)))
  {
    hide PayPlan, ApplyPlan, EmitPayment, CloseIfRepaid, PayVerdict, Sums.Sum;
  }

  lemma RequestEvents(b: Book, charge: nat, user: nat)
    ensures NewEvented(b, RequestWaiver(b, charge, user).0)
  {
    hide PendingFor;
  }

  lemma WaiverEvents(b: Book, request: nat, user: nat, approve: bool)
    requires b in SOUND
    ensures NewEvented(b, DecideWaiver(b, request, user, approve).0)
  {
    hide RowsOk, LedgerOk, JournalsOk, Emit, Has, KeysOk, DecideWaiver;
    BookOutcomes.DecideWhen(b, request, user, approve);
    if DecideWaiver(b, request, user, approve).1.Accepted? {
      NotYetWaived(b, request);
      if approve {
        DecideIsApproved(b, request, user);
        var k := b.waivers[request].charge;
        var amount := b.charges[k].amount - b.charges[k].paid;
        JustEmitted(BookClosures.Approved(b, request, user, amount), GL.LateFeeWaived, WaivedKey(k), amount);
      } else {
        BookOutcomes.RejectOutcome(b, request, user);
      }
    } else {
      StaysAnnounced(b);
    }
  }

  lemma ClosureHas(b: Book, d: Book, kind: GL.EventType, amount: int)
    requires OneEventMore(b, d, Event(kind, ClosureKey, amount))
    ensures Has(d, kind, ClosureKey, amount) && b.events <= d.events
  {
    assert d.events[|b.events|] == Event(kind, ClosureKey, amount);
  }

  // A close-out waives nothing.
  lemma ClosedOutEvents(b: Book, d: Book)
    requires AllClosedOut(b, d) && Undisturbed(b, d) && b.closure.None? && Booked(b) == Booked(d)
    requires d.closure.Some? && Announced(d, d.closure.value)
    requires d.payments == b.payments || (d.closure == Some(EarlySettlement) && |d.payments| == |b.payments| + 1)
    ensures NewEvented(b, d)
  {
    hide Has, Announced;
  }

  lemma SettleEvents(b: Book, reference: string, amount: int, request: RebateRequest, pct: real)
    requires b in SOUND && 0.0 <= pct <= 1.0
    ensures NewEvented(b, Settle(b, reference, amount, request, pct).0)
  {
    hide Settle, QuoteFor, RowsOk, KeysOk, LedgerOk, JournalsOk, AllClosedOut, Added, Has;
    SettleWhen(b, reference, amount, request, pct);
    if Settle(b, reference, amount, request, pct).1.Accepted? {
      QuoteWhen(b, request, pct);
      OpenHasNoClosure(b);
      SettleOutcome(b, reference, amount, request, pct);
      ClosureHas(b, Settle(b, reference, amount, request, pct).0, GL.EarlySettlement, 0);
      ClosedOutEvents(b, Settle(b, reference, amount, request, pct).0);
    } else {
      StaysAnnounced(b);
    }
  }

  lemma ReturnEvents(b: Book, pct: real, refund: real)
    requires b in SOUND && 0.0 <= pct <= 1.0
    ensures NewEvented(b, ReturnGoods(b, pct, refund).0)
  {
    hide ReturnGoods, QuoteFor, RowsOk, KeysOk, LedgerOk, JournalsOk, AllClosedOut, Added, Has;
    ReturnWhen(b, pct, refund);
    if ReturnGoods(b, pct, refund).1.Accepted? {
      var d := ReturnGoods(b, pct, refund).0;
      OpenHasNoClosure(b);
      ReturnOutcome(b, pct, refund);
      ClosureHas(b, d, GL.Return, Added(b, d, RefundIssued));
      ClosedOutEvents(b, d);
    } else {
      StaysAnnounced(b);
    }
  }

  lemma CancelEvents(b: Book, refund: real)
    requires b in SOUND && refund >= 0.0
    ensures NewEvented(b, Cancel(b, refund).0)
  {
    hide Cancel, RowsOk, KeysOk, LedgerOk, JournalsOk, Added, M.NearestShare, Has;
    CancelOutcome(b, refund);
    if b.status.Created? {
      var d := Cancel(b, refund).0;
      NothingCharged(b);
      OpenHasNoClosure(b);
      ClosureHas(b, d, GL.Cancellation, Added(b, d, RefundIssued));
    } else {
      StaysAnnounced(b);
    }
  }

  lemma {:induction false} SweepWaivesNothing(charges: seq<Charge>, amount: int)
    ensures forall c :: 0 <= c < |charges| && SweepFees(charges, amount)[c].status.Waived? ==> charges[c].status.Waived?
  {
    if charges != [] {
      SweepWaivesNothing(charges[1..], amount - W.Take(amount, charges[0].Outstanding()));
      assert forall c :: 1 <= c < |charges| ==> charges[c] == charges[1..][c - 1];
    }
  }

  lemma ExecutionHas(b: Book, d: Book, full: bool, x: Execution)
    requires d.events == b.events + [Event(if full then GL.WriteOffExecuted else GL.PartialWriteOffExecuted, WriteOffKey(|b.executions|), x.principal + x.profit + x.lateFee)]
           + if x.provision > 0 then [Event(GL.EclReleased, ReleaseKey(|b.executions|), -x.provision)] else []
    requires d.executions == b.executions + [x]
    ensures ExecutionEvent(d, |b.executions|) && (full ==> WrittenOffFully(d, |b.executions|))
  {
    var n := |b.executions|;
    assert d.events[|b.events|] == Event(if full then GL.WriteOffExecuted else GL.PartialWriteOffExecuted, WriteOffKey(n), x.Total());
    if x.provision > 0 {
      assert d.events[|b.events| + 1] == Event(GL.EclReleased, ReleaseKey(n), -x.provision);
    }
  }

  lemma WriteOffCharges(b: Book, full: bool, x: Execution)
    requires ExecuteWriteOff(b, full, x).1.Accepted?
    ensures ExecuteWriteOff(b, full, x).0.charges == SweepFees(b.charges, x.lateFee)
  {
    hide Emit, EmitExecution, ExecuteWriteOff, Sweep, SweepFees, SweepEntries, SweepFeeEntries;
    ExecutedAs(b, full, x);
    EmissionLeavesRows(ExecutedRecords(b, full, x), if full then GL.WriteOffExecuted else GL.PartialWriteOffExecuted, |b.executions|, x);
  }

  lemma WriteOffEvents(b: Book, full: bool, x: Execution)
    requires b in SOUND
    ensures NewEvented(b, ExecuteWriteOff(b, full, x).0)
  {
    hide ExecuteWriteOff, RowsOk, KeysOk, LedgerOk, JournalsOk, Has, SweepFees, WrittenOffFully;
    WriteOffWhen(b, full, x);
    if ExecuteWriteOff(b, full, x).1.Accepted? {
      OpenHasNoClosure(b);
      WriteOffOutcome(b, full, x);
      WriteOffCharges(b, full, x);
      SweepWaivesNothing(b.charges, x.lateFee);
      ExecutionHas(b, ExecuteWriteOff(b, full, x).0, full, x);
    } else {
      StaysAnnounced(b);
    }
  }

  lemma StepEvents(b: Book, c: Command)
    requires b in SOUND && Configured(c)
    ensures NewEvented(b, Step(b, c))
  {
    hide NewEvented, Deliver, AssessOverdue, Pay, RequestWaiver, DecideWaiver, Settle, ReturnGoods, Cancel, ExecuteWriteOff, RowsOk, KeysOk, LedgerOk, JournalsOk;
    match c
    case DoDeliver => DeliverEvents(b);
    case DoAssess(policy) => AssessEvents(b, policy);
    case DoPay(reference, amount) => PayEvents(b, reference, amount);
    case DoRequestWaiver(charge, user) => RequestEvents(b, charge, user);
    case DoDecideWaiver(request, user, approve) => WaiverEvents(b, request, user, approve);
    case DoSettle(reference, amount, rebate, pct) => SettleEvents(b, reference, amount, rebate, pct);
    case DoReturn(pct, refund) => ReturnEvents(b, pct, refund);
    case DoCancel(refund) => CancelEvents(b, refund);
    case DoWriteOff(full, x) => WriteOffEvents(b, full, x);
  }

  lemma {:induction false} RunEvented(b: Book, commands: seq<Command>)
    requires b in SOUND && Evented(b) && forall k :: 0 <= k < |commands| ==> Configured(commands[k])
    ensures Evented(Run(b, commands))
    decreases |commands|
  {
    hide *;
    if commands == [] {
      RunNone(b);
    } else {
      StepKeeps(b, commands[0]);
      StepEvents(b, commands[0]);
      H.StepKept(b, commands[0]);
      Carries(b, Step(b, commands[0]));
      RunEvented(Step(b, commands[0]), commands[1..]);
      RunFirst(b, commands);
    }
  }

  lemma RunNone(b: Book)
    ensures Run(b, []) == b
  {
  }

  lemma RunFirst(b: Book, commands: seq<Command>)
    requires commands != []
    ensures Run(b, commands) == Run(Step(b, commands[0]), commands[1..])
  {
    hide Step;
  }

  // After any run on a signed contract: the delivery, every late fee, every waived fee, every payment,
  // every write-off with its release, and the closure each have their event, with the amount of the
  // record.  No reference is used twice (BookHistory), so it is the record's only one.
  lemma EveryRecordHasItsEvent(b: Book, commands: seq<Command>)
    requires Signed(b) && forall k :: 0 <= k < |commands| ==> Configured(commands[k])
    ensures Evented(Run(b, commands))
  {
    hide Run, Configured;
    SignedIsSound(b);
    RunEvented(b, commands);
  }
}
