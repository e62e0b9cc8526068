// When a quote, a settlement, a return, a cancellation and a write-off go through, and what they then
// change, in terms of the rows and of the ledger entries they add.
module ClosureOutcomes {
  import opened Options
  import opened Sums
  import opened Subledger
  import opened SubledgerLaws
  import opened WriteOffs
  import opened Books
  import opened Postings
  import opened Reconciliation
  import opened BookSteps
  import opened BookClosures
  import opened BookWriteOffs
  import opened BookTheorems
  import opened BookOutcomes
  import M = Money
  import W = Waterfall
  import GL = GeneralLedger

  // What an operation added to the ledger under one kind of entry.
  function Added(b: Book, d: Book, kind: EntryKind): int { LedgerSum(d.ledger, kind) - LedgerSum(b.ledger, kind) }

  predicate Other(kind: EntryKind, k1: EntryKind, k2: EntryKind, k3: EntryKind, k4: EntryKind) {
    kind != k1 && kind != k2 && kind != k3 && kind != k4
  }

  // -------------------------------------------------------------------------
  // Quotes
  // -------------------------------------------------------------------------

  // A quote is given exactly for an active contract and one rebate request, within the unearned profit.
  lemma QuoteWhen(b: Book, request: RebateRequest, defaultPct: real)
    ensures QuoteFor(b, request, defaultPct).Quoted? <==>
      && b.status.Active? && !request.BothGiven?
      && (request.ByPct? ==> 0.0 <= request.pct <= 1.0) && (request.ByAmount? ==> 0 <= request.amount <= b.unearned)
  {
    hide M.Times, Sums.Sum;
  }

  // Its rebate is what was asked for -- an amount, or a percentage of the unearned profit to the nearest
  // cent -- and the configured percentage otherwise; it is flagged exactly when it is not what that
  // percentage gives.
  lemma QuoteRebate(b: Book, request: RebateRequest, defaultPct: real)
    requires b in SOUND && 0.0 <= defaultPct <= 1.0 && QuoteFor(b, request, defaultPct).Quoted?
    ensures var q := QuoteFor(b, request, defaultPct).quote;
      && (request.ByAmount? ==> q.rebate == request.amount)
      && (request.ByPct? ==> M.NearestShare(q.rebate, b.unearned, request.pct))
      && (request.NoRequest? ==> M.NearestShare(q.rebate, b.unearned, defaultPct))
      && (q.deviation <==> !M.NearestShare(q.rebate, b.unearned, defaultPct))
  {
    hide *;
    QuoteWhen(b, request, defaultPct);
    UnearnedPositive(b);
    RebateRead(b, request, defaultPct);
    M.TimesNearest(b.unearned, defaultPct);
    M.OneNearest(QuoteFor(b, request, defaultPct).quote.rebate, M.Times(b.unearned, defaultPct), b.unearned, defaultPct);
    if request.ByPct? { M.TimesNearest(b.unearned, request.pct); }
  }

  lemma RebateRead(b: Book, request: RebateRequest, defaultPct: real)
    requires QuoteFor(b, request, defaultPct).Quoted?
    ensures var q := QuoteFor(b, request, defaultPct).quote;
      && q.rebate == (match request
           case ByAmount(amount) => amount
           case ByPct(pct) => M.Times(b.unearned, pct)
           case _ => M.Times(b.unearned, defaultPct))
      && (q.deviation <==> q.rebate != M.Times(b.unearned, defaultPct))
  {
    hide M.Times, Sums.Sum;
  }

  lemma UnearnedPositive(b: Book)
    requires b in SOUND && b.status.Active?
    ensures b.unearned >= 0
  {
    assert RowsOk(b);
    assert forall i :: 0 <= i < |b.installments| ==> ValidInstallment(b.installments[i]);
    InstallmentColumns(b.installments);
    SumNonNegative(b.installments, ProfitOutstanding);
    SumNonNegative(b.installments, ProfitOffOf);
  }

  // -------------------------------------------------------------------------
  // Closing the schedule out
  // -------------------------------------------------------------------------

  // Every row reads paid in full, and so does every charge that was not waived.
  predicate AllClosedOut(b: Book, d: Book) {
    && |d.installments| == |b.installments| && |d.charges| == |b.charges| && d.unearned == 0
    && (forall i :: 0 <= i < |b.installments| ==>
         var before := b.installments[i];
         d.installments[i] == before.(principalPaid := before.principal, profitPaid := before.profit, status := InstallmentStatus.Paid))
    && (forall k :: 0 <= k < |b.charges| ==>
         var before := b.charges[k];
         d.charges[k] == if before.status.Waived? then before else before.(paid := before.amount, status := FeePaid))
  }

  // What else of the contract the operation leaves.
  predicate Undisturbed(b: Book, d: Book) { d.terms == b.terms && d.waivers == b.waivers && d.executions == b.executions }

  // One event more, the closing one.
  predicate OneEventMore(b: Book, d: Book, e: Event) { d.events == b.events + [e] }

  lemma NewEvent(a: Book, kind: GL.EventType, key: Key, amount: int)
    requires !Known(a.events, key)
    ensures var d := Emit(a, kind, key, amount); OneEventMore(a, d, Event(kind, key, amount)) && d == a.(events := d.events, journals := d.journals)
  {
    hide GL.JournalFor, AmountsOf;
  }

  lemma NoClosingEvent(b: Book)
    requires b in SOUND && b.closure.None?
    ensures !Known(b.events, ClosureKey)
  {
    hide RowsOk, LedgerOk, JournalsOk;
    NoClosureYet(b);
  }

  lemma OpenHasNoClosure(b: Book)
    requires b in SOUND && !b.status.Closed?
    ensures b.closure.None?
  {
    hide KeysOk, LedgerOk, JournalsOk, Sums.Sum;
    assert RowsOk(b);
  }

  // -------------------------------------------------------------------------
  // Settlement
  // -------------------------------------------------------------------------

  lemma SettleWhen(b: Book, reference: string, amount: int, request: RebateRequest, defaultPct: real)
    ensures var quoted := QuoteFor(b, request, defaultPct);
      Settle(b, reference, amount, request, defaultPct).1.Accepted? <==>
        quoted.Quoted? && amount == quoted.quote.payoff && Unused(b.payments, reference)
    ensures !Settle(b, reference, amount, request, defaultPct).1.Accepted? ==> Settle(b, reference, amount, request, defaultPct).0 == b
  {
    hide QuoteFor, SettleWith;
  }

  // One payment of the payoff, split over the ledger by what it was for; the rebate is recorded, the
  // schedule is closed out and the contract with it.
  lemma SettleOutcome(b: Book, reference: string, amount: int, request: RebateRequest, defaultPct: real)
    requires b in SOUND && 0.0 <= defaultPct <= 1.0 && Settle(b, reference, amount, request, defaultPct).1.Accepted?
    ensures QuoteFor(b, request, defaultPct).Quoted?
    ensures var q, d := QuoteFor(b, request, defaultPct).quote, Settle(b, reference, amount, request, defaultPct).0;
      && d.status.Closed? && d.closure == Some(EarlySettlement) && AllClosedOut(b, d) && Undisturbed(b, d)
      && d.payments == b.payments + [Payment(reference, amount, amount, 0)]
      && Added(b, d, PrincipalPaid) == Sum(b.installments, PrincipalOutstanding)
      && Added(b, d, LateFeePaid) == Sum(b.charges, FeeOutstanding)
      && Added(b, d, ProfitRecognized) == b.unearned - q.rebate && Added(b, d, ProfitRebated) == q.rebate
      && (forall kind: EntryKind :: Other(kind, PrincipalPaid, LateFeePaid, EntryKind.ProfitRecognized, ProfitRebated) ==> Added(b, d, kind) == 0)
      && amount == Added(b, d, PrincipalPaid) + Added(b, d, LateFeePaid) + Added(b, d, ProfitRecognized)
      && OneEventMore(b, d, Event(GL.EarlySettlement, ClosureKey, 0))
  {
    hide *;
    AllKeys(b);
    SettleWhen(b, reference, amount, request, defaultPct);
    var q := SettleIs(b, reference, amount, request, defaultPct);
    QuoteInRange(b, request, defaultPct);
    QuoteNumbers(b, q);
    SettledWrites(b, reference, q);
    NoClosingEvent(b);
    SettledFrame(b, reference, q);
    NewEvent(SettledRecords(b, reference, q), GL.EarlySettlement, ClosureKey, 0);
    SettledSums(b, SettledRecords(b, reference, q), Settle(b, reference, amount, request, defaultPct).0, q);
    SettledShape(b, SettledRecords(b, reference, q), Settle(b, reference, amount, request, defaultPct).0, Event(GL.EarlySettlement, ClosureKey, 0));
  }

  lemma SettledFrame(b: Book, reference: string, q: Quote)
    ensures var a := SettledRecords(b, reference, q);
      && a.status.Closed? && a.closure == Some(EarlySettlement) && AllClosedOut(b, a) && Undisturbed(b, a) && a.events == b.events
      && a.payments == b.payments + [Payment(reference, q.payoff, q.payoff, 0)]
  {
    hide SettlementEntries;
  }

  lemma SettledSums(b: Book, a: Book, d: Book, q: Quote)
    requires Wrote(b, a, q, PrincipalPaid, LateFeePaid, ProfitRecognized, ProfitRebated, 0)
    requires d == a.(events := d.events, journals := d.journals)
    ensures Added(b, d, PrincipalPaid) == q.principal && Added(b, d, LateFeePaid) == q.lateFees
    ensures Added(b, d, EntryKind.ProfitRecognized) == q.charged && Added(b, d, ProfitRebated) == q.rebate
    ensures forall kind: EntryKind :: Other(kind, PrincipalPaid, LateFeePaid, EntryKind.ProfitRecognized, ProfitRebated) ==> Added(b, d, kind) == 0
  {
    hide LedgerSum;
  }

  // The closing event changes nothing but events and journals.
  lemma SettledShape(b: Book, a: Book, d: Book, e: Event)
    requires AllClosedOut(b, a) && Undisturbed(b, a) && a.events == b.events
    requires d == a.(events := d.events, journals := d.journals) && OneEventMore(a, d, e)
    ensures AllClosedOut(b, d) && Undisturbed(b, d) && OneEventMore(b, d, e)
    ensures d.status == a.status && d.closure == a.closure && d.payments == a.payments
  {
  }

  // -------------------------------------------------------------------------
  // Return
  // -------------------------------------------------------------------------

  lemma ReturnWhen(b: Book, defaultPct: real, refundPct: real)
    ensures ReturnGoods(b, defaultPct, refundPct).1.Accepted? <==> b.status.Active?
    ensures !ReturnGoods(b, defaultPct, refundPct).1.Accepted? ==> ReturnGoods(b, defaultPct, refundPct).0 == b
  {
    hide ReturnWith, M.Times, Sums.Sum;
  }

  // What is given back of the down payment is what the customer still owed -- principal, late fees and
  // the profit charged -- plus the net refund recorded, which is negative when the customer owes more;
  // the event carries that net refund.
  lemma ReturnOutcome(b: Book, defaultPct: real, refundPct: real)
    requires b in SOUND && 0.0 <= defaultPct <= 1.0 && ReturnGoods(b, defaultPct, refundPct).1.Accepted?
    ensures var d := ReturnGoods(b, defaultPct, refundPct).0;
      && d.status.Closed? && d.closure == Some(Closure.Return) && AllClosedOut(b, d) && Undisturbed(b, d) && d.payments == b.payments
      && Added(b, d, ReturnPrincipal) == Sum(b.installments, PrincipalOutstanding)
      && Added(b, d, ReturnLateFee) == Sum(b.charges, FeeOutstanding)
      && Added(b, d, ReturnRetained) + Added(b, d, ReturnWaived) == b.unearned
      && Added(b, d, RefundIssued) + Added(b, d, ReturnPrincipal) + Added(b, d, ReturnLateFee) + Added(b, d, ReturnRetained) ==
           M.Times(b.terms.downPayment, refundPct)
      && (forall kind: EntryKind ::
           Other(kind, ReturnPrincipal, ReturnLateFee, ReturnRetained, ReturnWaived) && kind != RefundIssued ==> Added(b, d, kind) == 0)
      && OneEventMore(b, d, Event(GL.Return, ClosureKey, Added(b, d, RefundIssued)))
  {
    hide *;
    AllKeys(b);
    var d := ReturnGoods(b, defaultPct, refundPct).0;
    var q, net := ReturnIs(b, defaultPct, refundPct);
    QuoteInRange(b, NoRequest, defaultPct);
    QuoteNumbers(b, q);
    ReturnedWrites(b, q, net);
    NoClosingEvent(b);
    ReturnedFrame(b, q, net);
    NewEvent(ReturnedRecords(b, q, net), GL.Return, ClosureKey, net);
    ReturnedSums(b, ReturnedRecords(b, q, net), d, q, net);
    SettledShape(b, ReturnedRecords(b, q, net), d, Event(GL.Return, ClosureKey, net));
  }

  lemma ReturnedFrame(b: Book, q: Quote, net: int)
    ensures var a := ReturnedRecords(b, q, net);
      && a.status.Closed? && a.closure == Some(Closure.Return) && AllClosedOut(b, a) && Undisturbed(b, a)
      && a.events == b.events && a.payments == b.payments
  {
    hide ReturnEntries;
  }

  lemma ReturnedSums(b: Book, a: Book, d: Book, q: Quote, net: int)
    requires Wrote(b, a, q, ReturnPrincipal, ReturnLateFee, ReturnRetained, ReturnWaived, net)
    requires d == a.(events := d.events, journals := d.journals)
    ensures Added(b, d, ReturnPrincipal) == q.principal && Added(b, d, ReturnLateFee) == q.lateFees
    ensures Added(b, d, ReturnRetained) == q.charged && Added(b, d, ReturnWaived) == q.rebate && Added(b, d, RefundIssued) == net
    ensures Added(b, d, EntryKind.ProfitRecognized) == 0
    ensures forall kind: EntryKind ::
      Other(kind, ReturnPrincipal, ReturnLateFee, ReturnRetained, ReturnWaived) && kind != RefundIssued ==> Added(b, d, kind) == 0
  {
    hide LedgerSum;
  }

  // -------------------------------------------------------------------------
  // Cancellation
  // -------------------------------------------------------------------------

  // Only an undelivered contract is cancelled; the refund is the configured part of the down payment to
  // the nearest cent, recorded and emitted as such, and the rows stay as signed.
  lemma CancelOutcome(b: Book, refundPct: real)
    requires b in SOUND && refundPct >= 0.0
    ensures Cancel(b, refundPct).1.Accepted? <==> b.status.Created?
    ensures var d := Cancel(b, refundPct).0;
      if b.status.Created? then
        && d == b.(status := Closed, closure := Some(Cancellation), unearned := 0, ledger := d.ledger, events := d.events, journals := d.journals)
        && M.NearestShare(Added(b, d, RefundIssued), b.terms.downPayment, refundPct)
        && (forall kind: EntryKind :: kind != RefundIssued ==> Added(b, d, kind) == 0)
        && OneEventMore(b, d, Event(GL.Cancellation, ClosureKey, Added(b, d, RefundIssued)))
      else d == b
  {
    hide *;
    CancelIs(b, refundPct);
    if b.status.Created? {
      var refund := M.Times(b.terms.downPayment, refundPct);
      var a := Cancelled(b, refund);
      DownPaymentPositive(b);
      M.TimesNearest(b.terms.downPayment, refundPct);
      M.NearestPositive(refund, b.terms.downPayment, refundPct);
      NotClosed(b);
      OpenHasNoClosure(b);
      NoClosingEvent(b);
      CancelledFrame(b, refund);
      NewEvent(a, GL.Cancellation, ClosureKey, refund);
      CancelledShape(b, a, Cancel(b, refundPct).0, refund);
    }
  }

  lemma CancelIs(b: Book, refundPct: real)
    ensures Cancel(b, refundPct).1.Accepted? <==> b.status.Created?
    ensures Cancel(b, refundPct).0 ==
      if b.status.Created? then Emit(Cancelled(b, M.Times(b.terms.downPayment, refundPct)), GL.Cancellation, ClosureKey, M.Times(b.terms.downPayment, refundPct))
      else b
  {
    hide Emit, M.Times, Record;
  }

  lemma NotClosed(b: Book)
    ensures b.status.Created? ==> !b.status.Closed?
  {
  }

  lemma CancelledFrame(b: Book, refund: nat)
    ensures var a := Cancelled(b, refund);
      && a == b.(status := Closed, closure := Some(Cancellation), unearned := 0, ledger := a.ledger)
      && forall kind: EntryKind :: Added(b, a, kind) == if kind == RefundIssued then refund else 0
  {
    hide LedgerSum, Record;
    var a := Cancelled(b, refund);
    forall kind: EntryKind ensures Added(b, a, kind) == if kind == RefundIssued then refund else 0 {
      RecordSum(b.ledger, RefundIssued, refund, FromClosure, kind);
    }
  }

  lemma CancelledShape(b: Book, a: Book, d: Book, refund: nat)
    requires a == b.(status := Closed, closure := Some(Cancellation), unearned := 0, ledger := a.ledger)
    requires forall kind: EntryKind :: Added(b, a, kind) == if kind == RefundIssued then refund else 0
    requires d == a.(events := d.events, journals := d.journals) && OneEventMore(a, d, Event(GL.Cancellation, ClosureKey, refund))
    ensures d == b.(status := Closed, closure := Some(Cancellation), unearned := 0, ledger := d.ledger, events := d.events, journals := d.journals)
    ensures (forall kind: EntryKind :: kind != RefundIssued ==> Added(b, d, kind) == 0) && Added(b, d, RefundIssued) == refund
    ensures OneEventMore(b, d, Event(GL.Cancellation, ClosureKey, refund))
  {
    hide LedgerSum;
    forall kind: EntryKind ensures Added(b, d, kind) == Added(b, a, kind) { }
  }

  lemma DownPaymentPositive(b: Book)
    requires b in SOUND
    ensures b.terms.downPayment >= 0
  {
    hide KeysOk, LedgerOk, JournalsOk, Sums.Sum;
    assert RowsOk(b);
  }

  // -------------------------------------------------------------------------
  // Write-offs
  // -------------------------------------------------------------------------

  lemma WriteOffWhen(b: Book, full: bool, x: Execution)
    ensures ExecuteWriteOff(b, full, x).1.Accepted? <==>
      && b.status.Active? && x.principal <= Sum(b.installments, PrincipalOutstanding)
      && x.profit <= Sum(b.installments, ProfitOutstanding) && x.lateFee <= Sum(b.charges, FeeOutstanding)
    ensures !ExecuteWriteOff(b, full, x).1.Accepted? ==> ExecuteWriteOff(b, full, x).0 == b
  {
    hide WriteOffWith, Sums.Sum;
  }

  // A full write-off closes the contract, a partial one leaves it open; either way the execution is
  // recorded, the payments and the profit still unearned stay, and the events are the write-off's own
  // and, with a provision, its release.
  lemma WriteOffOutcome(b: Book, full: bool, x: Execution)
    requires b in SOUND && ExecuteWriteOff(b, full, x).1.Accepted?
    ensures var d, n := ExecuteWriteOff(b, full, x).0, |b.executions|;
      && (if full then d.status.Closed? && d.closure == Some(Closure.WriteOff) else d.status == b.status && d.closure == b.closure)
      && d.executions == b.executions + [x] && d.payments == b.payments && d.unearned == b.unearned && d.terms == b.terms && d.waivers == b.waivers
      && d.events == b.events + [Event(if full then GL.WriteOffExecuted else GL.PartialWriteOffExecuted, WriteOffKey(n), x.principal + x.profit + x.lateFee)]
           + if x.provision > 0 then [Event(GL.EclReleased, ReleaseKey(n), -x.provision)] else []
  {
    hide RowsOk, KeysOk, LedgerOk, JournalsOk, Emit, EmitExecution, ExecuteWriteOff;
    ExecutedAs(b, full, x);
    ExecutedFrame(b, full, x);
    NothingExecuted(b);
    ExecutionEvents(ExecutedRecords(b, full, x), if full then GL.WriteOffExecuted else GL.PartialWriteOffExecuted, |b.executions|, x);
  }

  lemma NothingExecuted(b: Book)
    requires b in SOUND
    ensures !Known(b.events, WriteOffKey(|b.executions|)) && !Known(b.events, ReleaseKey(|b.executions|))
  {
    hide RowsOk, LedgerOk, JournalsOk;
    assert KeysOk(b);
    Unknown(b, WriteOffKey(|b.executions|));
    Unknown(b, ReleaseKey(|b.executions|));
  }

  lemma ExecutedFrame(b: Book, full: bool, x: Execution)
    ensures var a := ExecutedRecords(b, full, x);
      && (if full then a.status.Closed? && a.closure == Some(Closure.WriteOff) else a.status == b.status && a.closure == b.closure)
      && a.executions == b.executions + [x] && a.payments == b.payments && a.unearned == b.unearned && a.terms == b.terms
      && a.waivers == b.waivers && a.events == b.events
  {
    hide Sweep, SweepFees, SweepEntries, SweepFeeEntries;
  }

  lemma ExecutionEvents(a: Book, kind: GL.EventType, n: nat, x: Execution)
    requires !Known(a.events, WriteOffKey(n)) && !Known(a.events, ReleaseKey(n))
    ensures var d := EmitExecution(a, kind, n, x);
      && d == a.(events := d.events, journals := d.journals)
      && d.events == a.events + [Event(kind, WriteOffKey(n), x.Total())]
           + if x.provision > 0 then [Event(GL.EclReleased, ReleaseKey(n), -x.provision)] else []
  {
    hide Emit;
    var e := Emit(a, kind, WriteOffKey(n), x.Total());
    NewEvent(a, kind, WriteOffKey(n), x.Total());
    StillUnknown(a, kind, WriteOffKey(n), x.Total(), ReleaseKey(n));
    NewEvent(e, GL.EclReleased, ReleaseKey(n), -x.provision);
    assert e.events + [] == e.events;
  }

  // -------------------------------------------------------------------------
  // Oldest first
  // -------------------------------------------------------------------------

  predicate PartsOwed(insts: seq<Installment>, part: Component) { forall i :: 0 <= i < |insts| ==> Part(insts[i], part) >= 0 }

  function Owed(part: Component): Installment -> int { (i: Installment) => if part.PrincipalPart? then i.PrincipalOutstanding() else i.ProfitOutstanding() }

  // After a sweep the first n installments have lost exactly what there was to take from them, up to the
  // amount: nothing is taken from a later one while an older one still owes.
  lemma {:induction false} SweepOldestFirst(insts: seq<Installment>, part: Component, amount: nat, n: nat)
    requires PartsOwed(insts, part) && n <= |insts|
    ensures Sum(insts[..n], Owed(part)) - Sum(Sweep(insts, part, amount)[..n], Owed(part)) == Min(amount, Sum(insts[..n], Owed(part)))
  {
    var after := Sweep(insts, part, amount);
    if n > 0 {
      var take := W.Take(amount, Part(insts[0], part));
      var rest := Sweep(insts[1..], part, amount - take);
      TakenOne(insts[0], part, amount);
      assert forall i :: 0 <= i < |insts| - 1 ==> insts[1..][i] == insts[i + 1];
      SweepOldestFirst(insts[1..], part, amount - take, n - 1);
      SumNonNegative(insts[1..][..n - 1], Owed(part));
      assert insts[..n][1..] == insts[1..][..n - 1];
      assert after[..n][1..] == rest[..n - 1];
    }
  }

  lemma TakenOne(i: Installment, part: Component, amount: nat)
    requires Part(i, part) >= 0
    ensures var take := W.Take(amount, Part(i, part));
      0 <= take <= amount && take == Min(amount, Part(i, part)) && Owed(part)(WriteOffPart(i, part, take)) == Owed(part)(i) - take
  {
  }

  // A swept row changes in what is written off of it and, once it owes nothing more, in how it reads.
  lemma {:induction false} SweptRow(insts: seq<Installment>, part: Component, amount: nat, k: nat)
    requires PartsOwed(insts, part) && k < |insts|
    ensures var before, after := insts[k], Sweep(insts, part, amount)[k];
      && 0 <= Owed(part)(after) <= Owed(part)(before)
      && (after.principalWrittenOff == before.principalWrittenOff && after.profitWrittenOff == before.profitWrittenOff ==> after == before)
      && (after != before ==> after == before.(principalWrittenOff := after.principalWrittenOff, profitWrittenOff := after.profitWrittenOff,
            status := if after.PrincipalOutstanding() <= 0 && after.ProfitOutstanding() <= 0 then InstallmentStatus.WrittenOff else before.status))
      && (if part.PrincipalPart? then after.profitWrittenOff == before.profitWrittenOff else after.principalWrittenOff == before.principalWrittenOff)
  {
    var take := W.Take(amount, Part(insts[0], part));
    TakenOne(insts[0], part, amount);
    if k > 0 {
      assert forall i :: 0 <= i < |insts| - 1 ==> insts[1..][i] == insts[i + 1];
      SweptRow(insts[1..], part, amount - take, k - 1);
    }
  }

  predicate FeesOwed(charges: seq<Charge>) { forall k :: 0 <= k < |charges| ==> charges[k].Outstanding() >= 0 }

  lemma {:induction false} FeesOldestFirst(charges: seq<Charge>, amount: nat, n: nat)
    requires FeesOwed(charges) && n <= |charges|
    ensures Sum(charges[..n], FeeOutstanding) - Sum(SweepFees(charges, amount)[..n], FeeOutstanding) ==
      Min(amount, Sum(charges[..n], FeeOutstanding))
  {
    var after := SweepFees(charges, amount);
    if n > 0 {
      var take := W.Take(amount, charges[0].Outstanding());
      var rest := SweepFees(charges[1..], amount - take);
      assert take == Min(amount, charges[0].Outstanding()) && WriteOffFee(charges[0], take).Outstanding() == charges[0].Outstanding() - take;
      assert forall i :: 0 <= i < |charges| - 1 ==> charges[1..][i] == charges[i + 1];
      FeesOldestFirst(charges[1..], amount - take, n - 1);
      SumNonNegative(charges[1..][..n - 1], FeeOutstanding);
      assert charges[..n][1..] == charges[1..][..n - 1];
      assert after[..n][1..] == rest[..n - 1];
    }
  }

  lemma {:induction false} SweptFee(charges: seq<Charge>, amount: nat, k: nat)
    requires FeesOwed(charges) && k < |charges|
    ensures var before, after := charges[k], SweepFees(charges, amount)[k];
      && 0 <= after.Outstanding() <= before.Outstanding()
      && (after != before ==> after == before.(writtenOff := after.writtenOff,
            status := if after.Outstanding() <= 0 then FeeWrittenOff else before.status))
  {
    if k > 0 {
      assert forall i :: 0 <= i < |charges| - 1 ==> charges[1..][i] == charges[i + 1];
      SweptFee(charges[1..], amount - W.Take(amount, charges[0].Outstanding()), k - 1);
    }
  }

  // An executed write-off sweeps each component on its own, oldest first: the rows after it.
  lemma WriteOffRows(b: Book, full: bool, x: Execution)
    requires b in SOUND && ExecuteWriteOff(b, full, x).1.Accepted? && NothingNegative(x)
    ensures var d := ExecuteWriteOff(b, full, x).0;
      && |d.installments| == |b.installments| && |d.charges| == |b.charges|
      && (forall n :: 0 <= n <= |b.installments| ==>
           && Sum(b.installments[..n], Owed(PrincipalPart)) - Sum(d.installments[..n], Owed(PrincipalPart)) == Min(x.principal, Sum(b.installments[..n], Owed(PrincipalPart)))
           && Sum(b.installments[..n], Owed(ProfitPart)) - Sum(d.installments[..n], Owed(ProfitPart)) == Min(x.profit, Sum(b.installments[..n], Owed(ProfitPart))))
      && (forall n :: 0 <= n <= |b.charges| ==>
           Sum(b.charges[..n], FeeOutstanding) - Sum(d.charges[..n], FeeOutstanding) == Min(x.lateFee, Sum(b.charges[..n], FeeOutstanding)))
  {
    hide RowsOk, KeysOk, LedgerOk, JournalsOk, Emit, EmitExecution, ExecuteWriteOff, Sweep, SweepFees, SweepEntries, SweepFeeEntries, Sums.Sum;
    var d := ExecuteWriteOff(b, full, x).0;
    WriteOffWhen(b, full, x);
    ExecutedAs(b, full, x);
    EmissionLeavesRows(ExecutedRecords(b, full, x), if full then GL.WriteOffExecuted else GL.PartialWriteOffExecuted, |b.executions|, x);
    RowsOwed(b);
    var first := Sweep(b.installments, PrincipalPart, x.principal);
    ProfitUntouched(b.installments, x.principal);
    PrincipalUntouched(first, x.profit);
    forall n | 0 <= n <= |b.installments|
      ensures Sum(b.installments[..n], Owed(PrincipalPart)) - Sum(d.installments[..n], Owed(PrincipalPart)) == Min(x.principal, Sum(b.installments[..n], Owed(PrincipalPart)))
      ensures Sum(b.installments[..n], Owed(ProfitPart)) - Sum(d.installments[..n], Owed(ProfitPart)) == Min(x.profit, Sum(b.installments[..n], Owed(ProfitPart)))
    {
      SweepOldestFirst(b.installments, PrincipalPart, x.principal, n);
      SweepOldestFirst(first, ProfitPart, x.profit, n);
      SumSame(first[..n], Owed(ProfitPart), b.installments[..n], Owed(ProfitPart));
      SumSame(d.installments[..n], Owed(PrincipalPart), first[..n], Owed(PrincipalPart));
    }
    forall n | 0 <= n <= |b.charges|
      ensures Sum(b.charges[..n], FeeOutstanding) - Sum(d.charges[..n], FeeOutstanding) == Min(x.lateFee, Sum(b.charges[..n], FeeOutstanding))
    {
      FeesOldestFirst(b.charges, x.lateFee, n);
    }
  }

  lemma RowsOwed(b: Book)
    requires b in SOUND && b.status.Active?
    ensures PartsOwed(b.installments, PrincipalPart) && PartsOwed(b.installments, ProfitPart) && FeesOwed(b.charges)
  {
    ActiveRows(b);
    forall i | 0 <= i < |b.installments| ensures Part(b.installments[i], PrincipalPart) >= 0 && Part(b.installments[i], ProfitPart) >= 0 {
      assert ValidInstallment(b.installments[i]);
    }
    forall k | 0 <= k < |b.charges| ensures b.charges[k].Outstanding() >= 0 {
      assert ValidCharge(b.charges[k]);
    }
  }

  lemma ProfitUntouched(insts: seq<Installment>, amount: nat)
    requires PartsOwed(insts, PrincipalPart) && PartsOwed(insts, ProfitPart)
    ensures var after := Sweep(insts, PrincipalPart, amount);
      PartsOwed(after, ProfitPart) && forall k :: 0 <= k < |insts| ==> Owed(ProfitPart)(after[k]) == Owed(ProfitPart)(insts[k])
  {
    forall k | 0 <= k < |insts| ensures var after := Sweep(insts, PrincipalPart, amount); Owed(ProfitPart)(after[k]) == Owed(ProfitPart)(insts[k]) && Part(after[k], ProfitPart) >= 0 {
      SweptRow(insts, PrincipalPart, amount, k);
    }
  }

  lemma PrincipalUntouched(insts: seq<Installment>, amount: nat)
    requires PartsOwed(insts, ProfitPart)
    ensures forall k :: 0 <= k < |insts| ==> Owed(PrincipalPart)(Sweep(insts, ProfitPart, amount)[k]) == Owed(PrincipalPart)(insts[k])
  {
    forall k | 0 <= k < |insts| ensures Owed(PrincipalPart)(Sweep(insts, ProfitPart, amount)[k]) == Owed(PrincipalPart)(insts[k]) {
      SweptRow(insts, ProfitPart, amount, k);
    }
  }

  lemma EmissionLeavesRows(a: Book, kind: GL.EventType, n: nat, x: Execution)
    ensures var d := EmitExecution(a, kind, n, x); d.installments == a.installments && d.charges == a.charges
  {
    hide GL.JournalFor, AmountsOf, Known;
  }
}
