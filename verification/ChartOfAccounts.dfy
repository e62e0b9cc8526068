// The balance of every account of the chart after any run of operations on a contract
// (app/services/coa.py, app/services/gl_journal.py).
module ChartOfAccounts {
  import opened Options
  import opened Sums
  import opened Subledger
  import opened SubledgerLaws
  import opened WriteOffs
  import opened Books
  import opened Postings
  import opened Reconciliation
  import opened BookSteps
  import opened BookClosures
  import opened BookWriteOffs
  import opened BookTheorems
  import opened PaymentLaws
  import opened Maturity
  import opened LateFees
  import opened BookOutcomes
  import opened ClosureOutcomes
  import opened BookEvents
  import M = Money
  import W = Waterfall
  import GL = GeneralLedger

  // What a write-off costs beyond its provision.
  function ExcessAmount(x: Execution): int { Max(0, x.Total() - x.provision) }

  // The cash price sold, the profit earned, the late fees charged and not waived, what a return took back,
  // the refund of a cancellation, and what the write-offs covered, released and cost.
  datatype Figures = Figures(sales: int, income: int, fees: int, returned: int, refunds: int, covered: int, released: int, excess: int)

  function FiguresOf(b: Book): Figures {
    Figures(if Booked(b) then b.terms.salePrice - b.terms.totalProfit else 0,
            LedgerSum(b.ledger, EntryKind.ProfitRecognized) + LedgerSum(b.ledger, ReturnRetained),
            Sum(b.charges, FeeAmount) - Sum(b.charges, FeeWaivedOf),
            LedgerSum(b.ledger, ReturnPrincipal) + LedgerSum(b.ledger, ReturnLateFee),
            if b.closure == Some(Cancellation) then LedgerSum(b.ledger, RefundIssued) else 0,
            Sum(b.executions, CoveredAmount), Sum(b.executions, ReleasedAmount), Sum(b.executions, ExcessAmount))
  }

  // The net debit of an account other than the three control accounts.
  function OnAccount(account: nat, f: Figures): int {
    At(account, GL.DEPOSITS, f.refunds) - At(account, GL.REFUNDS, f.refunds) - At(account, GL.SALES, f.sales)
    - At(account, GL.PROFIT_INCOME, f.income) - At(account, GL.FEE_INCOME, f.fees) + At(account, GL.SUSPENSE, f.returned)
    + At(account, GL.ALLOWANCE, f.covered + f.released) - At(account, GL.IMPAIRMENT, f.released)
    + At(account, GL.WRITE_OFF_EXPENSE, f.excess)
  }

  predicate Control(account: nat) { account == GL.BANK || account == GL.RECEIVABLE || account == GL.UNEARNED }

  // The account moved by what the figures moved.
  predicate Moved(b: Book, d: Book, account: nat) {
    GL.Balance(d.journals, account) - GL.Balance(b.journals, account) == OnAccount(account, FiguresOf(d)) - OnAccount(account, FiguresOf(b))
  }

  // -------------------------------------------------------------------------
  // Operation by operation
  // -------------------------------------------------------------------------

  lemma Still(b: Book, d: Book, account: nat)
    requires GL.Balance(d.journals, account) == GL.Balance(b.journals, account) && FiguresOf(d) == FiguresOf(b)
    ensures Moved(b, d, account)
  {
  }

  lemma DeliverMoves(b: Book, account: nat)
    requires b in SOUND && !Control(account)
    ensures Moved(b, Deliver(b).0, account)
  {
    DeliverOutcome(b);
    if b.status.Created? {
      hide Emit, LedgerSum, Sums.Sum, RowsOk, LedgerOk, JournalsOk, Known;
      var live := b.(status := Active);
      var activated := Emit(live, GL.ContractActivated, ActivatedKey, b.terms.salePrice);
      OpenHasNoClosure(b);
      SignedTerms(b);
      Unknown(b, ActivatedKey);
      Unknown(b, DownPaymentKey);
      StillUnknown(live, GL.ContractActivated, ActivatedKey, b.terms.salePrice, DownPaymentKey);
      EmitActivated(live, b.terms.salePrice, account);
      EmitPair(activated, GL.DownPaymentReceived, DownPaymentKey, b.terms.downPayment, GL.BANK, GL.DEPOSITS, account);
    }
  }

  lemma SignedTerms(b: Book)
    requires b in SOUND
    ensures 0 <= b.terms.downPayment <= b.terms.salePrice - b.terms.totalProfit && b.terms.totalProfit >= 0
  {
    hide KeysOk, LedgerOk, JournalsOk, Sums.Sum;
    assert RowsOk(b);
  }

  lemma FeesAppended(charges: seq<Charge>, more: seq<Charge>)
    requires forall k :: 0 <= k < |more| ==> more[k].paid == 0 && more[k].writtenOff == 0 && more[k].status.Assessed?
    ensures Sum(charges + more, FeeAmount) - Sum(charges + more, FeeWaivedOf) ==
      Sum(charges, FeeAmount) - Sum(charges, FeeWaivedOf) + Sum(more, FeeAmount)
  {
    AppendedColumns(charges, more);
  }

  lemma AssessMoves(b: Book, policy: OverduePolicy, account: nat)
    requires b in SOUND && policy.rate >= 0.0 && !Control(account)
    ensures Moved(b, AssessOverdue(b, policy).0, account)
  {
    hide *;
    if b.status.Active? {
      var charges := Assess(b.installments, b.charges, 0, policy);
      var marked := b.(installments := MarkOverdue(b.installments, policy), charges := charges);
      RatesConfigured(policy);
      RowsActive(b);
      AssessLaws(b.installments, b.charges, 0, policy);
      AssessRecords(b, policy);
      ChargeKeysFree(b, charges);
      EmitChargesEffect(marked, charges, |b.charges|, account);
      assert charges == b.charges + charges[|b.charges|..];
      FeesAppended(b.charges, charges[|b.charges|..]);
      AssessIs(b, policy);
      ChargedMoves(b, marked, AssessOverdue(b, policy).0, Sum(charges[|b.charges|..], FeeAmount), account);
    } else {
      AssessIdle(b, policy);
      Still(b, b, account);
    }
  }

  lemma RatesConfigured(policy: OverduePolicy)
    requires policy.rate >= 0.0
    ensures Configured(DoAssess(policy))
  {
  }

  lemma RowsActive(b: Book)
    requires b in SOUND && b.status.Active?
    ensures ValidInstallments(b.installments) && ValidCharges(b.charges) && Owned(b.charges, |b.installments|) && b.closure.None?
  {
    ActiveRows(b);
  }

  lemma AssessIs(b: Book, policy: OverduePolicy)
    requires b.status.Active?
    ensures var charges := Assess(b.installments, b.charges, 0, policy);
      AssessOverdue(b, policy).0 == EmitCharges(b.(installments := MarkOverdue(b.installments, policy), charges := charges), charges, |b.charges|)
  {
    hide EmitCharges, Assess, MarkOverdue;
  }

  lemma ChargedMoves(b: Book, a: Book, d: Book, fees: int, account: nat)
    requires a == b.(installments := a.installments, charges := a.charges) && SameRecords(a, d) && !Control(account)
    requires Sum(a.charges, FeeAmount) - Sum(a.charges, FeeWaivedOf) == Sum(b.charges, FeeAmount) - Sum(b.charges, FeeWaivedOf) + fees
    requires GL.Balance(d.journals, account) == GL.Balance(a.journals, account) + At(account, GL.RECEIVABLE, fees) - At(account, GL.FEE_INCOME, fees)
    ensures Moved(b, d, account)
  {
    hide LedgerSum, Sums.Sum, GL.Balance;
  }

  lemma ChargeKeysFree(b: Book, charges: seq<Charge>)
    requires b in SOUND && b.charges <= charges
    ensures forall k :: |b.charges| <= k < |charges| ==> !Known(b.events, ChargedKey(k))
  {
    hide RowsOk, LedgerOk, JournalsOk;
    forall k | |b.charges| <= k < |charges| ensures !Known(b.events, ChargedKey(k)) {
      Unknown(b, ChargedKey(k));
    }
  }

  lemma PayMoves(b: Book, reference: string, amount: int, account: nat)
    requires b in SOUND && !Control(account)
    ensures Moved(b, Pay(b, reference, amount).0, account)
  {
    hide *;
    PayWhen(b, reference, amount);
    if Pay(b, reference, amount).1.Accepted? {
      var plan := PayPlan(b, amount);
      var a, n, profit := ApplyPlan(b, reference, amount, plan), |b.payments|, Sum(plan.lines, LineProfit);
      AcceptedVerdict(b, reference, amount);
      AcceptedActiveRows(b, reference, amount);
      PayPlanLaws(b, reference, amount);
      ApplyPlanPays(b, reference, amount, plan);
      ProfitOfLines(plan.lines, b.installments, b.charges);
      AllKeys(b);
      PaidKeys(b, a, Sum(plan.lines, LinePrincipal), profit, Sum(plan.lines, LineFee));
      PaymentKeysFree(b);
      AcceptedPositive(b, reference, amount);
      PaidFrame(b, a, Sum(plan.lines, LinePrincipal), profit, Sum(plan.lines, LineFee));
      EmitPaymentPostings(a, n, amount, profit, account);
      PayIs(b, reference, amount, plan);
      RecordsFrame(a, EmitPayment(a, n, amount, profit));
      ClosingMovesNothing(EmitPayment(a, n, amount, profit), account);
      PaidMoves(b, a, Pay(b, reference, amount).0, Sum(plan.lines, LinePrincipal), profit, Sum(plan.lines, LineFee), account);
    } else {
      Still(b, b, account);
    }
  }

  lemma RecordsFrame(a: Book, e: Book)
    requires SameRecords(a, e)
    ensures e.terms == a.terms && e.ledger == a.ledger && e.charges == a.charges && e.executions == a.executions
    ensures e.status == a.status && e.closure == a.closure
  {
  }

  lemma AcceptedPositive(b: Book, reference: string, amount: int)
    requires PayVerdict(b, reference, amount).Accepted?
    ensures amount > 0
  {
  }

  lemma {:induction false} ProfitOfLines(lines: seq<W.Line>, insts: seq<Installment>, charges: seq<Charge>)
    requires AllFit(lines, insts, charges)
    ensures Sum(lines, LineProfit) >= 0
  {
    assert forall k :: 0 <= k < |lines| ==> Fits(lines[k], insts, charges);
    SumNonNegative(lines, LineProfit);
  }

  // The facts of an applied payment that the postings ask for.
  lemma PaidFrame(b: Book, a: Book, principal: int, profit: int, lateFee: int)
    requires PaidBy(b, a, principal, profit, lateFee) && a in KEYS
    requires !Known(b.events, PaymentKey(|b.payments|)) && !Known(b.events, ProfitKey(|b.payments|))
    ensures EventsOk(a) && |b.payments| < |a.payments| && !Known(a.events, PaymentKey(|b.payments|)) && !Known(a.events, ProfitKey(|b.payments|))
  {
    hide LedgerSum, ClosureSum, Sums.Sum, Known;
    assert KeysOk(a);
  }

  lemma ClosingPostsNothing(a: Book, account: nat)
    ensures var d := Emit(a, GL.ContractClosed, ClosureKey, 0);
      d == a.(events := d.events, journals := d.journals) && GL.Balance(d.journals, account) == GL.Balance(a.journals, account)
  {
  }

  lemma ClosingMovesNothing(e: Book, account: nat)
    ensures var d := CloseIfRepaid(e);
      && GL.Balance(d.journals, account) == GL.Balance(e.journals, account)
      && d.terms == e.terms && d.ledger == e.ledger && d.charges == e.charges && d.executions == e.executions
      && d.closure == (if d == e then e.closure else Some(Normal)) && (d != e ==> e.status.Active? && d.status.Closed?)
  {
    hide AllPaid, Sums.Sum, Emit, GL.Balance;
    ClosingPostsNothing(e.(status := Closed, closure := Some(Normal)), account);
  }

  lemma PaidMoves(b: Book, a: Book, d: Book, principal: int, profit: int, lateFee: int, account: nat)
    requires PaidBy(b, a, principal, profit, lateFee) && b.closure.None? && !Control(account)
    requires GL.Balance(d.journals, account) == GL.Balance(a.journals, account) + At(account, GL.BANK, principal + profit + lateFee)
        - At(account, GL.RECEIVABLE, principal + profit + lateFee) + At(account, GL.UNEARNED, profit) - At(account, GL.PROFIT_INCOME, profit)
    requires d.terms == a.terms && d.ledger == a.ledger && d.charges == a.charges && d.executions == a.executions
    requires (d.closure == a.closure && d.status == a.status) || (d.closure == Some(Normal) && d.status.Closed?)
    ensures Moved(b, d, account)
  {
    hide LedgerSum, ClosureSum, Sums.Sum, GL.Balance;
    SameChargesColumns(b.charges, a.charges);
  }

  lemma RequestMoves(b: Book, charge: nat, user: nat, account: nat)
    ensures Moved(b, RequestWaiver(b, charge, user).0, account)
  {
    RequestOutcome(b, charge, user);
  }

  lemma DecideMoves(b: Book, request: nat, user: nat, approve: bool, account: nat)
    requires b in SOUND && !Control(account)
    ensures Moved(b, DecideWaiver(b, request, user, approve).0, account)
  {
    hide *;
    BookOutcomes.DecideWhen(b, request, user, approve);
    if DecideWaiver(b, request, user, approve).1.Accepted? {
      if approve {
        ApproveMoves(b, request, user, account);
      } else {
        BookOutcomes.RejectOutcome(b, request, user);
        RejectMoves(b, request, user, account);
      }
    } else {
      Still(b, b, account);
    }
  }

  lemma RejectMoves(b: Book, request: nat, user: nat, account: nat)
    requires request < |b.waivers|
    ensures Moved(b, b.(waivers := b.waivers[request := b.waivers[request].(decision := Decision.Rejected, decidedBy := user)]), account)
  {
    hide LedgerSum, Sums.Sum, GL.Balance;
  }

  lemma ApproveMoves(b: Book, request: nat, user: nat, account: nat)
    requires b in SOUND && !Control(account) && request < |b.waivers| && b.waivers[request].decision.Pending? && user != b.waivers[request].requestedBy
    ensures Moved(b, DecideWaiver(b, request, user, true).0, account)
  {
    hide RowsOk, LedgerOk, JournalsOk, Emit, LedgerSum, Sums.Sum, Known, DecideWaiver, Record, GL.Balance, KeysOk;
    NotYetWaived(b, request);
    WaivablePart(b, request);
    DecideIsApproved(b, request, user);
    var k := b.waivers[request].charge;
    var amount := b.charges[k].amount - b.charges[k].paid;
    var a := BookClosures.Approved(b, request, user, amount);
    EmitPair(a, GL.LateFeeWaived, WaivedKey(k), amount, GL.FEE_INCOME, GL.RECEIVABLE, account);
    RecordsOnly(a, GL.LateFeeWaived, WaivedKey(k), amount);
    SumSet(b.charges, k, b.charges[k].(status := FeeStatus.Waived), FeeAmount);
    SumSet(b.charges, k, b.charges[k].(status := FeeStatus.Waived), FeeWaivedOf);
    forall kind: EntryKind | kind != LateFeeWaived ensures LedgerSum(a.ledger, kind) == LedgerSum(b.ledger, kind) {
      RecordSum(b.ledger, LateFeeWaived, amount, FromApproval(request), kind);
    }
  }

  lemma RecordsOnly(a: Book, kind: GL.EventType, key: Key, amount: int)
    ensures var d := Emit(a, kind, key, amount); d == a.(events := d.events, journals := d.journals)
  {
    hide GL.JournalFor, AmountsOf, Known;
  }

  lemma {:induction false} ClosedOutFees(charges: seq<Charge>, after: seq<Charge>)
    requires |after| == |charges|
    requires forall k :: 0 <= k < |charges| ==>
      after[k] == if charges[k].status.Waived? then charges[k] else charges[k].(paid := charges[k].amount, status := FeePaid)
    ensures Sum(after, FeeAmount) == Sum(charges, FeeAmount) && Sum(after, FeeWaivedOf) == Sum(charges, FeeWaivedOf)
  {
    SumSame(after, FeeAmount, charges, FeeAmount);
    SumSame(after, FeeWaivedOf, charges, FeeWaivedOf);
  }

  lemma SettleMoves(b: Book, reference: string, amount: int, request: RebateRequest, pct: real, account: nat)
    requires b in SOUND && 0.0 <= pct <= 1.0 && !Control(account)
    ensures Moved(b, Settle(b, reference, amount, request, pct).0, account)
  {
    hide *;
    SettleWhen(b, reference, amount, request, pct);
    if Settle(b, reference, amount, request, pct).1.Accepted? {
      var d := Settle(b, reference, amount, request, pct).0;
      var q := SettleIs(b, reference, amount, request, pct);
      QuoteWhen(b, request, pct);
      NotYetClosed(b);
      AllKeys(b);
      OpenHasNoClosure(b);
      QuoteInRange(b, request, pct);
      QuoteNumbers(b, q);
      SettledWrites(b, reference, q);
      NoClosingEvent(b);
      SettledFrame(b, reference, q);
      SettledSources(b, SettledRecords(b, reference, q), q);
      EmitSettlement(SettledRecords(b, reference, q), q.principal, q.lateFees, q.charged, q.rebate, 0, account);
      SettleOutcome(b, reference, amount, request, pct);
      SettledJournals(b, reference, q);
      SettledMoves(b, d, q, account);
    } else {
      Still(b, b, account);
    }
  }

  lemma NotYetClosed(b: Book)
    ensures b.status.Active? ==> !b.status.Closed? && !b.status.Created?
  {
  }

  lemma SettledJournals(b: Book, reference: string, q: Quote)
    ensures SettledRecords(b, reference, q).journals == b.journals
  {
  }

  // The closure's own entries are the quote's parts.
  lemma SettledSources(b: Book, a: Book, q: Quote)
    requires b in SOUND && b.closure.None? && Wrote(b, a, q, PrincipalPaid, LateFeePaid, EntryKind.ProfitRecognized, ProfitRebated, 0)
    requires a.events == b.events && !Known(b.events, ClosureKey)
    ensures ClosureSum(a.ledger, PrincipalPaid) == q.principal && ClosureSum(a.ledger, LateFeePaid) == q.lateFees
    ensures ClosureSum(a.ledger, EntryKind.ProfitRecognized) == q.charged && ClosureSum(a.ledger, ProfitRebated) == q.rebate
    ensures !Known(a.events, ClosureKey)
  {
    hide RowsOk, KeysOk, LedgerOk, JournalsOk, ClosureSum, LedgerSum;
    NothingClosed(b, PrincipalPaid);
    NothingClosed(b, LateFeePaid);
    NothingClosed(b, EntryKind.ProfitRecognized);
    NothingClosed(b, ProfitRebated);
  }

  lemma SettledMoves(b: Book, d: Book, q: Quote, account: nat)
    requires !Control(account) && b.closure.None? && !b.status.Created? && d.status.Closed? && d.closure == Some(EarlySettlement)
    requires AllClosedOut(b, d) && Undisturbed(b, d)
    requires Added(b, d, EntryKind.ProfitRecognized) == q.charged
    requires forall kind: EntryKind :: Other(kind, PrincipalPaid, LateFeePaid, EntryKind.ProfitRecognized, ProfitRebated) ==> Added(b, d, kind) == 0
    requires var payoff := q.principal + q.lateFees + q.charged;
      GL.Balance(d.journals, account) == GL.Balance(b.journals, account) + At(account, GL.BANK, payoff) - At(account, GL.RECEIVABLE, payoff + q.rebate)
      + At(account, GL.UNEARNED, q.charged + q.rebate) - At(account, GL.PROFIT_INCOME, q.charged)
    ensures Moved(b, d, account)
  {
    hide LedgerSum, Sums.Sum, GL.Balance;
    ClosedOutFees(b.charges, d.charges);
    assert Added(b, d, ReturnRetained) == 0 && Added(b, d, ReturnPrincipal) == 0 && Added(b, d, ReturnLateFee) == 0;
  }

  lemma ReturnMoves(b: Book, pct: real, refund: real, account: nat)
    requires b in SOUND && 0.0 <= pct <= 1.0 && !Control(account)
    ensures Moved(b, ReturnGoods(b, pct, refund).0, account)
  {
    hide *;
    ReturnWhen(b, pct, refund);
    if ReturnGoods(b, pct, refund).1.Accepted? {
      var d := ReturnGoods(b, pct, refund).0;
      var q, net := ReturnIs(b, pct, refund);
      var a := ReturnedRecords(b, q, net);
      NotYetClosed(b);
      AllKeys(b);
      OpenHasNoClosure(b);
      QuoteInRange(b, NoRequest, pct);
      QuoteNumbers(b, q);
      ReturnedWrites(b, q, net);
      NoClosingEvent(b);
      ReturnedFrame(b, q, net);
      ReturnedSources(b, a, q, net);
      EmitReturn(a, q.principal, q.lateFees, q.charged, q.rebate, net, account);
      ReturnedJournals(b, q, net);
      ReturnOutcome(b, pct, refund);
      RecordsOnly(a, GL.Return, ClosureKey, net);
      ReturnedSums(b, a, d, q, net);
      ReturnedMoves(b, d, q, account);
    } else {
      Still(b, b, account);
    }
  }

  lemma ReturnedJournals(b: Book, q: Quote, net: int)
    ensures ReturnedRecords(b, q, net).journals == b.journals
  {
  }

  lemma ReturnedSources(b: Book, a: Book, q: Quote, net: int)
    requires b in SOUND && b.closure.None? && Wrote(b, a, q, ReturnPrincipal, ReturnLateFee, ReturnRetained, ReturnWaived, net)
    requires a.events == b.events && !Known(b.events, ClosureKey)
    ensures ClosureSum(a.ledger, ReturnPrincipal) == q.principal && ClosureSum(a.ledger, ReturnLateFee) == q.lateFees
    ensures ClosureSum(a.ledger, ReturnRetained) == q.charged && ClosureSum(a.ledger, ReturnWaived) == q.rebate
    ensures !Known(a.events, ClosureKey)
  {
    hide RowsOk, KeysOk, LedgerOk, JournalsOk, ClosureSum, LedgerSum;
    NothingClosed(b, ReturnPrincipal);
    NothingClosed(b, ReturnLateFee);
    NothingClosed(b, ReturnRetained);
    NothingClosed(b, ReturnWaived);
  }

  lemma ReturnedMoves(b: Book, d: Book, q: Quote, account: nat)
    requires !Control(account) && b.closure.None? && !b.status.Created? && d.status.Closed? && d.closure == Some(Closure.Return)
    requires AllClosedOut(b, d) && Undisturbed(b, d)
    requires Added(b, d, ReturnPrincipal) == q.principal && Added(b, d, ReturnLateFee) == q.lateFees && Added(b, d, ReturnRetained) == q.charged
    requires Added(b, d, EntryKind.ProfitRecognized) == 0
    requires GL.Balance(d.journals, account) ==
      GL.Balance(b.journals, account) + At(account, GL.UNEARNED, q.charged + q.rebate) - At(account, GL.PROFIT_INCOME, q.charged)
      - At(account, GL.RECEIVABLE, q.rebate + q.principal + q.lateFees) + At(account, GL.SUSPENSE, q.principal + q.lateFees)
    ensures Moved(b, d, account)
  {
    hide LedgerSum, Sums.Sum, GL.Balance;
    ClosedOutFees(b.charges, d.charges);
  }

  // Before delivery nothing has been recorded.
  predicate NothingRefunded(b: Book) { b.status.Created? ==> LedgerSum(b.ledger, RefundIssued) == 0 }

  lemma CancelMoves(b: Book, refundPct: real, account: nat)
    requires b in SOUND && refundPct >= 0.0 && !Control(account) && NothingRefunded(b)
    ensures Moved(b, Cancel(b, refundPct).0, account)
  {
    hide *;
    CancelIs(b, refundPct);
    if b.status.Created? {
      var refund := M.Times(b.terms.downPayment, refundPct);
      var a := Cancelled(b, refund);
      DownPaymentPositive(b);
      M.TimesNearest(b.terms.downPayment, refundPct);
      M.NearestPositive(refund, b.terms.downPayment, refundPct);
      NotClosed(b);
      OpenHasNoClosure(b);
      NoClosingEvent(b);
      CancelledFrame(b, refund);
      CancelledEvents(b, refund);
      CancellationPosts(a, refund, account);
      RecordsOnly(a, GL.Cancellation, ClosureKey, refund);
      CancelledMoves(b, a, Cancel(b, refundPct).0, refund, account);
    } else {
      Still(b, b, account);
    }
  }

  lemma CancellationPosts(a: Book, refund: nat, account: nat)
    requires !Known(a.events, ClosureKey)
    ensures GL.Balance(Emit(a, GL.Cancellation, ClosureKey, refund).journals, account) ==
      GL.Balance(a.journals, account) + At(account, GL.DEPOSITS, refund) - At(account, GL.REFUNDS, refund)
  {
    hide Emit, Known, GL.Balance;
    EmitPair(a, GL.Cancellation, ClosureKey, refund, GL.DEPOSITS, GL.REFUNDS, account);
  }

  lemma CancelledEvents(b: Book, refund: int)
    ensures Cancelled(b, refund).events == b.events && Cancelled(b, refund).journals == b.journals
  {
    hide Record;
  }

  lemma CancelledMoves(b: Book, a: Book, d: Book, refund: nat, account: nat)
    requires !Control(account) && b.status.Created? && b.closure.None? && NothingRefunded(b)
    requires a == b.(status := Closed, closure := Some(Cancellation), unearned := 0, ledger := a.ledger)
    requires forall kind: EntryKind :: Added(b, a, kind) == if kind == RefundIssued then refund else 0
    requires d == a.(events := d.events, journals := d.journals)
    requires GL.Balance(d.journals, account) == GL.Balance(a.journals, account) + At(account, GL.DEPOSITS, refund) - At(account, GL.REFUNDS, refund)
    ensures Moved(b, d, account)
  {
    hide LedgerSum, Sums.Sum, GL.Balance;
    assert Added(b, a, ReturnRetained) == 0 && Added(b, a, ReturnPrincipal) == 0 && Added(b, a, ReturnLateFee) == 0;
    assert Added(b, a, EntryKind.ProfitRecognized) == 0 && Added(b, a, RefundIssued) == refund;
  }

  lemma WriteOffMoves(b: Book, full: bool, x: Execution, account: nat)
    requires b in SOUND && Configured(DoWriteOff(full, x)) && !Control(account)
    ensures Moved(b, ExecuteWriteOff(b, full, x).0, account)
  {
    hide *;
    WriteOffWhen(b, full, x);
    if ExecuteWriteOff(b, full, x).1.Accepted? {
      var kind, n := if full then GL.WriteOffExecuted else GL.PartialWriteOffExecuted, |b.executions|;
      var a := ExecutedRecords(b, full, x);
      NotYetClosed(b);
      NotNegative(full, x);
      OpenHasNoClosure(b);
      ExecutedAs(b, full, x);
      ExecutedFrame(b, full, x);
      ExecutedJournals(b, full, x);
      NothingExecuted(b);
      WriteOffCharges(b, full, x);
      ExecutedSums(b, full, x);
      ExecutedPostings(a, kind, n, x, account);
      ExecutedMoves(b, a, ExecuteWriteOff(b, full, x).0, x, account);
    } else {
      Still(b, b, account);
    }
  }

  lemma NotNegative(full: bool, x: Execution)
    requires Configured(DoWriteOff(full, x))
    ensures x.principal >= 0 && x.profit >= 0 && x.lateFee >= 0 && x.provision >= 0
  {
  }

  lemma ExecutedJournals(b: Book, full: bool, x: Execution)
    ensures ExecutedRecords(b, full, x).journals == b.journals && ExecutedRecords(b, full, x).executions[|b.executions|] == x
  {
    hide Sweep, SweepFees, SweepEntries, SweepFeeEntries;
  }

  // What a write-off leaves of the figures that are not its own.
  lemma ExecutedSums(b: Book, full: bool, x: Execution)
    requires b in SOUND && b.status.Active? && ExecuteWriteOff(b, full, x).1.Accepted?
    requires x.principal >= 0 && x.profit >= 0 && x.lateFee >= 0 && x.provision >= 0
    ensures var a := ExecutedRecords(b, full, x);
      && Sum(a.charges, FeeAmount) == Sum(b.charges, FeeAmount) && Sum(a.charges, FeeWaivedOf) == Sum(b.charges, FeeWaivedOf)
      && forall kind: EntryKind :: kind != PrincipalOff && kind != ProfitOff && kind != LateFeeOff ==> LedgerSum(a.ledger, kind) == LedgerSum(b.ledger, kind)
  {
    hide RowsOk, KeysOk, LedgerOk, JournalsOk, LedgerSum, ClosureSum, ExecuteWriteOff, Sums.Sum, ExecutedRecords;
    ActiveRows(b);
    WriteOffWhen(b, full, x);
    ExecutedIsWrittenOff(b, full, x);
  }

  lemma ExecutedPostings(a: Book, kind: GL.EventType, n: nat, x: Execution, account: nat)
    requires kind == GL.WriteOffExecuted || kind == GL.PartialWriteOffExecuted
    requires n < |a.executions| && a.executions[n] == x && !Known(a.events, WriteOffKey(n)) && !Known(a.events, ReleaseKey(n))
    requires x.principal >= 0 && x.profit >= 0 && x.lateFee >= 0 && x.provision >= 0
    ensures GL.Balance(EmitExecution(a, kind, n, x).journals, account) == GL.Balance(a.journals, account)
      + At(account, GL.ALLOWANCE, CoveredAmount(x)) + At(account, GL.WRITE_OFF_EXPENSE, ExcessAmount(x)) - At(account, GL.RECEIVABLE, x.Total())
      - At(account, GL.IMPAIRMENT, ReleasedAmount(x)) + At(account, GL.ALLOWANCE, ReleasedAmount(x))
    ensures SameRecords(a, EmitExecution(a, kind, n, x))
  {
    hide Emit, GL.Balance, Known;
    var e := Emit(a, kind, WriteOffKey(n), x.Total());
    RecordsOnly(a, kind, WriteOffKey(n), x.Total());
    RecordsOnly(e, GL.EclReleased, ReleaseKey(n), -x.provision);
    EmitWriteOff(a, kind, n, x.Total(), account);
    StillUnknown(a, kind, WriteOffKey(n), x.Total(), ReleaseKey(n));
    EmitSignedPair(e, GL.EclReleased, ReleaseKey(n), -x.provision, GL.IMPAIRMENT, GL.ALLOWANCE, account);
  }

  lemma ExecutedMoves(b: Book, a: Book, d: Book, x: Execution, account: nat)
    requires !Control(account) && b.closure.None? && b.status.Active? && a.terms == b.terms
    requires (a.closure == b.closure && a.status == b.status) || (a.closure == Some(Closure.WriteOff) && a.status.Closed?)
    requires a.executions == b.executions + [x] && a.journals == b.journals && SameRecords(a, d)
    requires Sum(a.charges, FeeAmount) == Sum(b.charges, FeeAmount) && Sum(a.charges, FeeWaivedOf) == Sum(b.charges, FeeWaivedOf)
    requires forall kind: EntryKind :: kind != PrincipalOff && kind != ProfitOff && kind != LateFeeOff ==> LedgerSum(a.ledger, kind) == LedgerSum(b.ledger, kind)
    requires GL.Balance(d.journals, account) == GL.Balance(a.journals, account)
      + At(account, GL.ALLOWANCE, CoveredAmount(x)) + At(account, GL.WRITE_OFF_EXPENSE, ExcessAmount(x)) - At(account, GL.RECEIVABLE, x.Total())
      - At(account, GL.IMPAIRMENT, ReleasedAmount(x)) + At(account, GL.ALLOWANCE, ReleasedAmount(x))
    ensures Moved(b, d, account)
  {
    hide LedgerSum, Sums.Sum, GL.Balance, CoveredAmount, ReleasedAmount, ExcessAmount;
    SumSnoc(b.executions, x, CoveredAmount);
    SumSnoc(b.executions, x, ReleasedAmount);
    SumSnoc(b.executions, x, ExcessAmount);
  }

  // -------------------------------------------------------------------------
  // Every run
  // -------------------------------------------------------------------------

  lemma StepMoves(b: Book, c: Command, account: nat)
    requires b in SOUND && NothingRefunded(b) && Configured(c) && !Control(account)
    ensures Moved(b, Step(b, c), account)
  {
    hide Moved, Deliver, AssessOverdue, Pay, RequestWaiver, DecideWaiver, Settle, ReturnGoods, Cancel, ExecuteWriteOff, RowsOk, KeysOk, LedgerOk, JournalsOk, NothingRefunded;
    match c
    case DoDeliver => DeliverMoves(b, account);
    case DoAssess(policy) => AssessMoves(b, policy, account);
    case DoPay(reference, amount) => PayMoves(b, reference, amount, account);
    case DoRequestWaiver(charge, user) => RequestMoves(b, charge, user, account);
    case DoDecideWaiver(request, user, approve) => DecideMoves(b, request, user, approve, account);
    case DoSettle(reference, amount, rebate, pct) => SettleMoves(b, reference, amount, rebate, pct, account);
    case DoReturn(pct, refund) => ReturnMoves(b, pct, refund, account);
    case DoCancel(refund) => CancelMoves(b, refund, account);
    case DoWriteOff(full, x) => WriteOffMoves(b, full, x, account);
  }

  lemma WaiversHaveCharges(b: Book)
    requires WaiversOk(b) && b.waivers != []
    ensures b.charges != []
  {
    assert b.waivers[0].charge < |b.charges|;
  }

  lemma NoWaivers(b: Book)
    requires b in SOUND && b.status.Created?
    ensures b.waivers == [] && b.charges == []
  {
    hide RowsOk, LedgerOk, JournalsOk, WaiversOk;
    NothingCharged(b);
    assert KeysOk(b);
    assert b.waivers != [] ==> b.charges != [] by {
      if b.waivers != [] { WaiversHaveCharges(b); }
    }
  }

  // Nothing but delivery and cancellation touches an undelivered contract.
  lemma UndeliveredIdle(b: Book, c: Command)
    requires b in SOUND && b.status.Created? && !c.DoDeliver? && !c.DoCancel?
    ensures Step(b, c) == b
  {
    hide RowsOk, KeysOk, LedgerOk, JournalsOk, TotalOutstanding, SettleWith, ReturnWith, WriteOffWith, Waive;
    NoWaivers(b);
  }

  lemma StaysDelivered(b: Book, c: Command)
    requires !b.status.Created?
    ensures !Step(b, c).status.Created?
  {
    hide Emit, QuoteFor, TotalOutstanding, AllPaid, Swept, PendingFor, EmitCharges, Assess, MarkOverdue;
    EmissionRows();
    if c.DoAssess? {
      var charges := Assess(b.installments, b.charges, 0, c.policy);
      ChargesKeepStatus(b.(installments := MarkOverdue(b.installments, c.policy), charges := charges), charges, |b.charges|);
    }
    if c.DoWriteOff? {
      SweptStatus(b, c.requested);
    }
  }

  lemma SweptStatus(b: Book, x: Execution)
    ensures Swept(b, x).status == b.status
  {
    hide Sweep, SweepFees, SweepEntries, SweepFeeEntries;
  }

  lemma StepRefunds(b: Book, c: Command)
    requires b in SOUND && NothingRefunded(b) && Configured(c)
    ensures NothingRefunded(Step(b, c))
  {
    hide RowsOk, KeysOk, LedgerOk, JournalsOk, LedgerSum, Deliver, Cancel, Added, M.NearestShare, AssessOverdue, Pay, RequestWaiver, DecideWaiver, Settle, ReturnGoods, ExecuteWriteOff;
    if !b.status.Created? {
      StaysDelivered(b, c);
    } else if c.DoDeliver? {
      DeliverOutcome(b);
    } else if c.DoCancel? {
      CancelOutcome(b, c.refundPct);
    } else {
      UndeliveredIdle(b, c);
    }
  }

  // Every account but the control accounts, after any run.
  lemma {:induction false} RunMoves(b: Book, commands: seq<Command>, account: nat)
    requires b in SOUND && NothingRefunded(b) && !Control(account) && forall k :: 0 <= k < |commands| ==> Configured(commands[k])
    ensures Moved(b, Run(b, commands), account)
    decreases |commands|
  {
    hide *;
    if commands == [] {
      RunNone(b);
      Still(b, b, account);
    } else {
      var d := Step(b, commands[0]);
      StepKeeps(b, commands[0]);
      StepMoves(b, commands[0], account);
      StepRefunds(b, commands[0]);
      RunMoves(d, commands[1..], account);
      RunFirst(b, commands);
      MovedOn(b, d, Run(b, commands), account);
    }
  }

  lemma MovedOn(b: Book, d: Book, e: Book, account: nat)
    requires Moved(b, d, account) && Moved(d, e, account)
    ensures Moved(b, e, account)
  {
    hide FiguresOf, GL.Balance;
  }

  lemma SignedFigures(b: Book, account: nat)
    requires Signed(b)
    ensures FiguresOf(b) == Figures(0, 0, 0, 0, 0, 0, 0, 0) && GL.Balance(b.journals, account) == 0 && NothingRefunded(b)
  {
  }

  // The net debit of any account of the chart.
  function ExpectedOn(account: nat, d: Book): int {
    if account == GL.BANK then (if Booked(d) then d.terms.downPayment + Cash(d) else 0)
    else if account == GL.UNEARNED then (if Booked(d) then -d.unearned else 0)
    else if account == GL.RECEIVABLE then Receivable(d)
    else OnAccount(account, FiguresOf(d))
  }

  lemma ControlsBalance(d: Book, account: nat)
    requires d in SOUND && Control(account)
    ensures GL.Balance(d.journals, account) == ExpectedOn(account, d)
  {
    hide RowsOk, KeysOk, LedgerOk, Receivable;
    assert JournalsOk(d);
  }

  // After any run on a signed contract, on the general ledger of that contract: cash in bank, the profit
  // unearned and the receivable as reconciled elsewhere; the cash price on sales once delivered; the
  // profit recognised and retained on profit income; the late fees charged and not waived on fee income;
  // what a return took back on suspense; a cancellation's refund on deposits and refunds; what write-offs
  // covered and released on the allowance, released on impairment and cost on expense; and nothing on any
  // other account.
  lemma EveryAccount(b: Book, commands: seq<Command>, account: nat)
    requires Signed(b) && forall k :: 0 <= k < |commands| ==> Configured(commands[k])
    ensures GL.Balance(Run(b, commands).journals, account) == ExpectedOn(account, Run(b, commands))
  {
    hide *;
    SignedIsSound(b);
    RunKeeps(b, commands);
    SignedFigures(b, account);
    if Control(account) {
      ControlsBalance(Run(b, commands), account);
    } else {
      RunMoves(b, commands, account);
      FromNothing(b, Run(b, commands), account);
    }
  }

  lemma FromNothing(b: Book, d: Book, account: nat)
    requires !Control(account) && Moved(b, d, account) && FiguresOf(b) == Figures(0, 0, 0, 0, 0, 0, 0, 0) && GL.Balance(b.journals, account) == 0
    ensures GL.Balance(d.journals, account) == ExpectedOn(account, d)
  {
    hide FiguresOf, GL.Balance, Receivable;
  }
}
