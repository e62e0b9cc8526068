// What holds of a contract's books after any run of operations.
module BookTheorems {
  import opened Options
  import opened Sums
  import opened Subledger
  import opened SubledgerLaws
  import opened WriteOffs
  import opened Books
  import opened Postings
  import opened Reconciliation
  import opened BookSteps
  import opened BookClosures
  import opened BookWriteOffs
  import M = Money
  import W = Waterfall
  import GL = GeneralLedger

  // A contract as signed: nothing delivered, paid, charged or posted yet.
  predicate Signed(b: Book) {
    && b.status.Created? && b.closure.None? && ValidTerms(b) && b.unearned == b.terms.totalProfit
    && b.charges == [] && b.payments == [] && b.waivers == [] && b.executions == []
    && b.ledger == [] && b.events == [] && b.journals == []
    && (forall i :: 0 <= i < |b.installments| ==>
         Untouched(b.installments[i]) && b.installments[i].principal >= 0 && b.installments[i].profit >= 0)
  }

  lemma SignedIsSound(b: Book)
    requires Signed(b)
    ensures b in SOUND
  {
    UntouchedColumns(b.installments);
    assert RowsOk(b) && KeysOk(b);
    assert LedgerOk(b) && JournalsOk(b);
  }

  lemma StepKeeps(b: Book, c: Command)
    requires b in SOUND && Configured(c)
    ensures Step(b, c) in SOUND
  {
    match c
    case DoDeliver => DeliverKeeps(b);
    case DoAssess(policy) => AssessKeeps(b, policy);
    case DoPay(reference, amount) => PayKeeps(b, reference, amount);
    case DoRequestWaiver(charge, user) => RequestWaiverKeeps(b, charge, user);
    case DoDecideWaiver(request, user, approve) => DecideWaiverKeeps(b, request, user, approve);
    case DoSettle(reference, amount, rebate, pct) => SettleKeeps(b, reference, amount, rebate, pct);
    case DoReturn(pct, refund) => ReturnKeeps(b, pct, refund);
    case DoCancel(refund) => CancelKeeps(b, refund);
    case DoWriteOff(full, x) => ExecuteKeeps(b, full, x);
  }

  // Whatever is done to a signed contract, in whatever order, its books stay reconciled.
  lemma {:induction false} RunKeeps(b: Book, commands: seq<Command>)
    requires b in SOUND && forall k :: 0 <= k < |commands| ==> Configured(commands[k])
    ensures Run(b, commands) in SOUND
    decreases |commands|
  {
    if commands != [] {
      StepKeeps(b, commands[0]);
      RunKeeps(Step(b, commands[0]), commands[1..]);
    }
  }

  // -------------------------------------------------------------------------
  // The general ledger refines the subledger
  // -------------------------------------------------------------------------

  // Written off on charges that were not waived afterwards.
  function FeeLostOf(c: Charge): int { if c.status.Waived? then 0 else c.writtenOff }

  lemma {:induction false} ClosedOutFeesDue(charges: seq<Charge>)
    requires forall k :: 0 <= k < |charges| && !charges[k].status.Waived? ==> charges[k].paid == charges[k].amount
    ensures Sum(charges, FeeOutstanding) == -Sum(charges, FeeLostOf)
  {
    if charges != [] {
      assert forall k :: 0 <= k < |charges| - 1 ==> charges[1..][k] == charges[k + 1];
      ClosedOutFeesDue(charges[1..]);
    }
  }

  // Account 1100 against the subledger's outstanding balance, exactly, in every state a
  // contract can reach.  Only written-off amounts can separate the two before a return, and a
  // return leaves precisely the retained profit behind.
  lemma ReceivableAgainstSubledger(b: Book)
    requires b in SOUND && Booked(b)
    ensures var c := ColsOf(b); var gap := GL.Balance(b.journals, GL.RECEIVABLE) - TotalOutstanding(b.installments, b.charges);
      gap == (if ClosedOutByClosure(b) then c.principalOff + Sum(b.charges, FeeLostOf) else 0) - c.doubled
             + (if b.closure == Some(Closure.Return) then LedgerSum(b.ledger, ReturnRetained) else 0)
  {
    assert RowsOk(b) && JournalsOk(b);
    if ClosedOutByClosure(b) {
      InstallmentColumns(b.installments);
      ClosedOutFeesDue(b.charges);
      SumSame(b.installments, PrincipalPaidOf, b.installments, PrincipalOf);
      SumSame(b.installments, ProfitPaidOf, b.installments, ProfitOf);
    } else {
      OutstandingByColumns(b.installments, b.charges);
    }
  }

  predicate NothingWrittenOff(b: Book) {
    && (forall i :: 0 <= i < |b.installments| ==> b.installments[i].principalWrittenOff == b.installments[i].profitWrittenOff == 0)
    && (forall k :: 0 <= k < |b.charges| ==> b.charges[k].writtenOff == 0)
  }

  lemma {:induction false} SumZero<T>(xs: seq<T>, f: T -> int)
    requires forall i :: 0 <= i < |xs| ==> f(xs[i]) == 0
    ensures Sum(xs, f) == 0
  {
    if xs != [] {
      assert f(xs[0]) == 0;
      SumZero(xs[1..], f);
    }
  }

  lemma NothingOff(b: Book)
    requires NothingWrittenOff(b)
    ensures var c := ColsOf(b); c.principalOff == c.profitOff == c.feesOff == c.doubled == 0 && Sum(b.charges, FeeLostOf) == 0
  {
    SumZero(b.installments, PrincipalOffOf);
    SumZero(b.installments, ProfitOffOf);
    SumZero(b.charges, FeeOffAmount);
    SumZero(b.charges, DoubledOf);
    SumZero(b.charges, FeeLostOf);
  }

  // The three control accounts are the subledger: the receivable is what is outstanding,
  // unearned income is the contract's balance, the bank is the cash taken.
  ghost predicate Refines(d: Book) {
    && -GL.Balance(d.journals, GL.UNEARNED) == d.unearned
    && GL.Balance(d.journals, GL.BANK) == d.terms.downPayment + Cash(d)
    && (d.closure != Some(Closure.Return) ==> GL.Balance(d.journals, GL.RECEIVABLE) == TotalOutstanding(d.installments, d.charges))
    && (d.closure == Some(Closure.EarlySettlement) ==> d.unearned == 0 && TotalOutstanding(d.installments, d.charges) == 0)
  }

  lemma SoundRefines(d: Book)
    requires d in SOUND && Booked(d) && NothingWrittenOff(d)
    ensures Refines(d)
  {
    ReceivableAgainstSubledger(d);
    NothingOff(d);
    assert JournalsOk(d) && RowsOk(d);
  }

  // After any run of operations on a signed contract, as long as nothing has been written off.
  lemma GeneralLedgerRefines(b: Book, commands: seq<Command>)
    requires Signed(b) && forall k :: 0 <= k < |commands| ==> Configured(commands[k])
    requires Booked(Run(b, commands)) && NothingWrittenOff(Run(b, commands))
    ensures Refines(Run(b, commands))
  {
    hide *;
    SignedIsSound(b);
    RunKeeps(b, commands);
    SoundRefines(Run(b, commands));
  }

  // While a contract is open, 1100 is the outstanding balance exactly when no charge was
  // waived after part of it had been written off.
  lemma ReceivableExact(b: Book)
    requires b in SOUND && Booked(b) && !ClosedOutByClosure(b)
    ensures GL.Balance(b.journals, GL.RECEIVABLE) == TotalOutstanding(b.installments, b.charges) <==>
      forall k :: 0 <= k < |b.charges| && b.charges[k].status.Waived? ==> b.charges[k].writtenOff == 0
  {
    ReceivableAgainstSubledger(b);
    assert RowsOk(b);
    assert forall k :: 0 <= k < |b.charges| ==> ValidCharge(b.charges[k]);
    SumNonNegative(b.charges, DoubledOf);
    if forall k :: 0 <= k < |b.charges| && b.charges[k].status.Waived? ==> b.charges[k].writtenOff == 0 {
      SumZero(b.charges, DoubledOf);
    } else {
      var k :| 0 <= k < |b.charges| && b.charges[k].status.Waived? && b.charges[k].writtenOff != 0;
      assert DoubledOf(b.charges[k]) > 0;
    }
  }

  // -------------------------------------------------------------------------
  // The dual-written ledger reproduces the rows
  // -------------------------------------------------------------------------

  predicate LedgerShowsPrincipal(b: Book) {
    LedgerSum(b.ledger, PrincipalPaid) + LedgerSum(b.ledger, ReturnPrincipal) == Sum(b.installments, PrincipalPaidOf)
  }

  predicate LedgerShowsProfit(b: Book) {
    LedgerSum(b.ledger, ProfitRecognized) + LedgerSum(b.ledger, ProfitRebated)
      + LedgerSum(b.ledger, ReturnRetained) + LedgerSum(b.ledger, ReturnWaived) == Sum(b.installments, ProfitPaidOf)
  }

  predicate LedgerShowsLateFees(b: Book) {
    LedgerSum(b.ledger, LateFeePaid) + LedgerSum(b.ledger, ReturnLateFee) == Sum(b.charges, FeePaidAmount)
  }

  lemma SoundLedger(d: Book)
    requires d in SOUND
    ensures LedgerShowsPrincipal(d) <==> !ClosedOutByClosure(d) || Sum(d.installments, PrincipalOffOf) == 0
    ensures LedgerShowsProfit(d)
    ensures LedgerShowsLateFees(d) <==> !ClosedOutByClosure(d) || Sum(d.charges, FeeOffAmount) == Sum(d.charges, DoubledOf)
  {
    hide RowsOk, KeysOk, JournalsOk, Sums.Sum, LedgerSum, ClosureSum;
    assert LedgerOk(d);
  }

  // Principal: after any run, exact unless principal was written off before the schedule was closed out.
  lemma PrincipalLedger(b: Book, commands: seq<Command>)
    requires Signed(b) && forall k :: 0 <= k < |commands| ==> Configured(commands[k])
    ensures var d := Run(b, commands);
      LedgerShowsPrincipal(d) <==> !ClosedOutByClosure(d) || Sum(d.installments, PrincipalOffOf) == 0
  {
    hide *;
    SignedIsSound(b);
    RunKeeps(b, commands);
    SoundLedger(Run(b, commands));
  }

  // Profit: after any run, exact.
  lemma ProfitLedger(b: Book, commands: seq<Command>)
    requires Signed(b) && forall k :: 0 <= k < |commands| ==> Configured(commands[k])
    ensures LedgerShowsProfit(Run(b, commands))
  {
    hide *;
    SignedIsSound(b);
    RunKeeps(b, commands);
    SoundLedger(Run(b, commands));
  }

  // Late fees: after any run, exact unless a fee written off in part was then closed out as paid.
  lemma LateFeeLedger(b: Book, commands: seq<Command>)
    requires Signed(b) && forall k :: 0 <= k < |commands| ==> Configured(commands[k])
    ensures var d := Run(b, commands);
      LedgerShowsLateFees(d) <==> !ClosedOutByClosure(d) || Sum(d.charges, FeeOffAmount) == Sum(d.charges, DoubledOf)
  {
    hide *;
    SignedIsSound(b);
    RunKeeps(b, commands);
    SoundLedger(Run(b, commands));
  }

  // A settled contract: cash plus rebates plus waivers is everything scheduled plus every fee
  // charged, less what had been written off.
  lemma SettlementConserves(b: Book)
    requires b in SOUND && b.closure == Some(Closure.EarlySettlement)
    ensures var c := ColsOf(b);
      Cash(b) + LedgerSum(b.ledger, ProfitRebated) + LedgerSum(b.ledger, LateFeeWaived) ==
      c.principal + c.profit + c.fees - c.principalOff - (c.feesOff - c.doubled)
  {
    assert LedgerOk(b) && RowsOk(b);
    SumSame(b.installments, PrincipalPaidOf, b.installments, PrincipalOf);
    SumSame(b.installments, ProfitPaidOf, b.installments, ProfitOf);
    SettledFees(b.charges);
  }

  // Every charge of a closed-out contract is paid in full or waived for the rest.
  lemma {:induction false} SettledFees(charges: seq<Charge>)
    requires forall k :: 0 <= k < |charges| && !charges[k].status.Waived? ==> charges[k].paid == charges[k].amount
    ensures Sum(charges, FeePaidAmount) + Sum(charges, FeeWaivedOf) == Sum(charges, FeeAmount)
  {
    if charges != [] {
      assert forall k :: 0 <= k < |charges| - 1 ==> charges[1..][k] == charges[k + 1];
      SettledFees(charges[1..]);
    }
  }

  // -------------------------------------------------------------------------
  // Write-offs are where the close-out goes wrong
  // -------------------------------------------------------------------------

  // At a zero rebate the payoff asks again for any profit already written off.
  lemma PayoffAgainstOutstanding(b: Book, defaultPct: real)
    requires b in SOUND && 0.0 <= defaultPct <= 1.0 && b.status.Active?
    ensures var q := QuoteFor(b, ByAmount(0), defaultPct);
      q.Quoted? && q.quote.payoff == TotalOutstanding(b.installments, b.charges) + Sum(b.installments, ProfitOffOf)
  {
    assert RowsOk(b);
    SumNonNegative(b.installments, ProfitOutstanding);
    SumNonNegative(b.installments, ProfitOffOf);
    InstallmentColumns(b.installments);
  }

  // A closed-out schedule reads as overpaid by exactly the principal that had been written off.
  lemma ClosedOutPrincipal(b: Book)
    requires b in ROWS && b in LEDGERS && ClosedOutByClosure(b)
    ensures Sum(b.installments, PrincipalOutstanding) == -Sum(b.installments, PrincipalOffOf)
    ensures Sum(b.installments, PrincipalPaidOf) ==
      LedgerSum(b.ledger, PrincipalPaid) + LedgerSum(b.ledger, ReturnPrincipal) + Sum(b.installments, PrincipalOffOf)
  {
    InstallmentColumns(b.installments);
    SumSame(b.installments, PrincipalPaidOf, b.installments, PrincipalOf);
    assert LedgerOk(b);
  }

  // The payoff at a zero rebate, when the contract can be quoted at all.
  function PayoffOf(b: Book): int {
    match QuoteFor(b, ByAmount(0), 0.0)
    case NoQuote(_) => 0
    case Quoted(q) => q.payoff
  }

  lemma PayoffAccepted(b: Book, reference: string)
    requires b in SOUND && b.status.Active? && !HasReference(b.payments, reference)
    ensures QuoteFor(b, ByAmount(0), 0.0).Quoted?
    ensures Settle(b, reference, PayoffOf(b), ByAmount(0), 0.0).1.Accepted?
    ensures var s := Settle(b, reference, PayoffOf(b), ByAmount(0), 0.0).0;
      s in SOUND && s.closure == Some(Closure.EarlySettlement) && s.installments == CloseOutInstallments(b.installments)
  {
    PayoffAgainstOutstanding(b, 0.0);
    SettleKeeps(b, reference, PayoffOf(b), ByAmount(0), 0.0);
  }

  // Write principal off, then settle: the rows show more principal paid than was ever received.
  lemma WriteOffThenSettle(b: Book, x: Execution, reference: string)
    requires b in SOUND && b.status.Active? && !HasReference(b.payments, reference)
    requires Asked(b, x) && x.principal > 0
    ensures var w := ExecuteWriteOff(b, false, x).0;
      && QuoteFor(w, ByAmount(0), 0.0).Quoted?
      && Settle(w, reference, PayoffOf(w), ByAmount(0), 0.0).0 in Overpaid(x.principal)
  {
    var w := ExecuteWriteOff(b, false, x).0;
    PartialWriteOff(b, x);
    ExecuteKeeps(b, false, x);
    PayoffAccepted(w, reference);
    SettledOverpaid(w, Settle(w, reference, PayoffOf(w), ByAmount(0), 0.0).0, x.principal);
  }

  // Books whose rows show at least so much more principal paid than their ledger does.
  ghost function Overpaid(least: int): iset<Book> {
    iset s: Book | s in SOUND &&
      Sum(s.installments, PrincipalPaidOf) >= LedgerSum(s.ledger, PrincipalPaid) + LedgerSum(s.ledger, ReturnPrincipal) + least
  }

  lemma PartialWriteOff(b: Book, x: Execution)
    requires b in SOUND && b.status.Active? && Asked(b, x)
    ensures var w := ExecuteWriteOff(b, false, x).0;
      w.status.Active? && w.payments == b.payments && Sum(w.installments, PrincipalOffOf) >= x.principal
  {
    ActiveRows(b);
    ExecutedIsWrittenOff(b, false, x);
    var a := ExecutedRecords(b, false, x);
    EmittedRows(a, GL.PartialWriteOffExecuted, |b.executions|, x);
    assert forall i :: 0 <= i < |b.installments| ==> ValidInstallment(b.installments[i]);
    SumNonNegative(b.installments, PrincipalOffOf);
    assert ColsOf(a).principalOff == ColsOf(b).principalOff + x.principal;
  }

  lemma EmittedRows(a: Book, kind: GL.EventType, n: nat, x: Execution)
    ensures var d := EmitExecution(a, kind, n, x);
      d.status == a.status && d.payments == a.payments && d.installments == a.installments
  {
    hide GL.JournalFor, AmountsOf, Known;
  }

  lemma SettledOverpaid(w: Book, s: Book, least: int)
    requires s in SOUND && s.closure == Some(Closure.EarlySettlement) && s.installments == CloseOutInstallments(w.installments)
    requires Sum(w.installments, PrincipalOffOf) >= least
    ensures s in Overpaid(least)
  {
    SumSame(s.installments, PrincipalOffOf, w.installments, PrincipalOffOf);
    ClosedOutPrincipal(s);
  }

  // One hundred of principal in one installment.
  const SAMPLE: Book := Book(Terms(110, 10, 0), Created, None,
    [Installment(30, 100, 10, 0, 0, 0, 0, InstallmentStatus.Pending)], [], 10, [], [], [], [], [], [])

  lemma SumOne<T>(xs: seq<T>, f: T -> int)
    requires |xs| == 1
    ensures Sum(xs, f) == f(xs[0])
  {
    assert xs[1..] == [];
  }

  lemma SampleSigned()
    ensures Signed(SAMPLE) && SAMPLE.charges == []
    ensures Sum(SAMPLE.installments, PrincipalOutstanding) == 100 && Sum(SAMPLE.installments, ProfitOutstanding) == 10
  {
    hide Sums.Sum;
    SumOne(SAMPLE.installments, ProfitOutstanding);
    SumOne(SAMPLE.installments, PrincipalOf);
    SumOne(SAMPLE.installments, ProfitOf);
    SumOne(SAMPLE.installments, PrincipalOutstanding);
    assert SAMPLE.installments[0] == Installment(30, 100, 10, 0, 0, 0, 0, InstallmentStatus.Pending);
  }

  lemma Delivered(b: Book)
    requires Signed(b)
    ensures var d := Deliver(b).0;
      d in SOUND && d.status.Active? && d.payments == [] && d.charges == [] && d.installments == b.installments
  {
    hide Signed;
    SignedIsSound(b);
    SignedIsNew(b);
    DeliverKeeps(b);
    DeliverOnlyPosts(b);
  }

  lemma SignedIsNew(b: Book)
    requires Signed(b)
    ensures b.status.Created? && b.payments == [] && b.charges == []
  {
  }

  lemma DeliverOnlyPosts(b: Book)
    requires b.status.Created?
    ensures var d := Deliver(b).0;
      d.status.Active? && d.payments == b.payments && d.charges == b.charges && d.installments == b.installments
  {
    hide GL.JournalFor, AmountsOf, Known;
  }

  lemma AskedPrincipal(d: Book, amount: nat)
    requires d.charges == [] && amount <= Sum(d.installments, PrincipalOutstanding) && 0 <= Sum(d.installments, ProfitOutstanding)
    ensures Asked(d, Execution(amount, 0, 0, 0))
  {
  }

  lemma SampleDelivered()
    ensures var d := Deliver(SAMPLE).0;
      d in SOUND && d.status.Active? && d.payments == [] && Asked(d, Execution(40, 0, 0, 0))
  {
    SampleSigned();
    hide *;
    Delivered(SAMPLE);
    AskedPrincipal(Deliver(SAMPLE).0, 40);
  }

  lemma RunThree(b: Book, c1: Command, c2: Command, c3: Command)
    ensures Run(b, [c1, c2, c3]) == Step(Step(Step(b, c1), c2), c3)
  {
    assert [c1, c2, c3][1..] == [c2, c3] && [c2, c3][1..] == [c3] && [c3][1..] == [];
    assert Run(Step(b, c1), [c2, c3]) == Run(Step(Step(b, c1), c2), [c3]);
  }

  lemma {:induction false} RunAppend(b: Book, first: seq<Command>, more: seq<Command>)
    ensures Run(b, first + more) == Run(Run(b, first), more)
    decreases |first|
  {
    hide Step;
    if first == [] {
      assert first + more == more;
    } else {
      assert (first + more)[1..] == first[1..] + more;
      RunAppend(Step(b, first[0]), first[1..], more);
    }
  }

  lemma RunTwo(b: Book, c1: Command, c2: Command)
    ensures Run(b, [c1, c2]) == Step(Step(b, c1), c2)
  {
    assert [c1, c2][1..] == [c2] && [c2][1..] == [];
    assert Run(Step(b, c1), [c2]) == Run(Step(Step(b, c1), c2), []);
  }

  lemma StepIs(b: Book, x: Execution, reference: string, amount: int)
    ensures Step(b, DoWriteOff(false, x)) == ExecuteWriteOff(b, false, x).0
    ensures Step(b, DoSettle(reference, amount, ByAmount(0), 0.0)) == Settle(b, reference, amount, ByAmount(0), 0.0).0
  {
  }

  lemma OverpaidSettlement(d: Book, x: Execution, w: Book) returns (settle: Command)
    requires d in SOUND && d.status.Active? && d.payments == [] && Asked(d, x) && x.principal > 0
    requires w == ExecuteWriteOff(d, false, x).0
    ensures settle.DoSettle? && settle.defaultPct == 0.0 && Step(w, settle) in Overpaid(x.principal)
  {
    WriteOffThenSettle(d, x, "payoff");
    settle := DoSettle("payoff", PayoffOf(w), ByAmount(0), 0.0);
    StepIs(w, x, "payoff", PayoffOf(w));
  }

  lemma AllConfigured(x: Execution, settle: Command)
    requires x.principal >= 0 && x.profit >= 0 && x.lateFee >= 0 && x.provision >= 0
    requires settle.DoSettle? && settle.defaultPct == 0.0
    ensures var commands := [DoDeliver, DoWriteOff(false, x), settle];
      forall k :: 0 <= k < |commands| ==> Configured(commands[k])
  {
  }

  lemma OverpaidRun(b: Book, d: Book, x: Execution) returns (commands: seq<Command>)
    requires d == Step(b, DoDeliver) && d in SOUND && d.status.Active? && d.payments == []
    requires Asked(d, x) && x.principal > 0
    ensures forall k :: 0 <= k < |commands| ==> Configured(commands[k])
    ensures Run(b, commands) in Overpaid(x.principal)
  {
    var write := DoWriteOff(false, x);
    StepIs(d, x, "", 0);
    var settle := OverpaidSettlement(d, x, Step(d, write));
    commands := [DoDeliver, write, settle];
    RunThree(b, DoDeliver, write, settle);
    AllConfigured(x, settle);
  }

  lemma OverpaidFrom(b: Book, x: Execution) returns (commands: seq<Command>)
    requires Deliver(b).0 in SOUND && Deliver(b).0.status.Active? && Deliver(b).0.payments == []
    requires Asked(Deliver(b).0, x) && x.principal > 0
    ensures forall k :: 0 <= k < |commands| ==> Configured(commands[k])
    ensures !LedgerShowsPrincipal(Run(b, commands))
  {
    hide Deliver, Run, Configured, Sums.Sum, LedgerSum;
    commands := OverpaidRun(b, Deliver(b).0, x);
  }

  // So the promise that the ledger always reproduces the paid principal is false: deliver, write
  // forty off, settle.
  predicate LosesPrincipal(b: Book, commands: seq<Command>) {
    (forall k :: 0 <= k < |commands| ==> Configured(commands[k])) && !LedgerShowsPrincipal(Run(b, commands))
  }

  lemma Loses(b: Book, commands: seq<Command>)
    requires forall k :: 0 <= k < |commands| ==> Configured(commands[k])
    requires !LedgerShowsPrincipal(Run(b, commands))
    ensures LosesPrincipal(b, commands)
  {
  }

  lemma LedgerPromiseFails()
    ensures Signed(SAMPLE) && exists commands :: LosesPrincipal(SAMPLE, commands)
  {
    hide *;
    SampleSigned();
    SampleDelivered();
    var commands := OverpaidFrom(SAMPLE, Execution(40, 0, 0, 0));
    Loses(SAMPLE, commands);
  }

  // -------------------------------------------------------------------------
  // Quotes
  // -------------------------------------------------------------------------

  // A larger rebate percentage never raises the payoff.
  lemma PayoffFallsWithRebate(b: Book, small: real, large: real, defaultPct: real)
    requires b in SOUND && b.status.Active? && 0.0 <= small <= large <= 1.0
    ensures QuoteFor(b, ByPct(small), defaultPct).Quoted? && QuoteFor(b, ByPct(large), defaultPct).Quoted?
    ensures QuoteFor(b, ByPct(large), defaultPct).quote.payoff <= QuoteFor(b, ByPct(small), defaultPct).quote.payoff
  {
    assert RowsOk(b);
    assert forall i :: 0 <= i < |b.installments| ==> ValidInstallment(b.installments[i]);
    SumNonNegative(b.installments, ProfitOutstanding);
    SumNonNegative(b.installments, ProfitOffOf);
    InstallmentColumns(b.installments);
    M.TimesMonotone(b.unearned, small, large);
  }

  // The code and the README part ways: no payment on an open contract is ever left over.
  lemma NoPaymentLeftOver(b: Book, reference: string, amount: int)
    requires b in SOUND && PayVerdict(b, reference, amount).Accepted?
    ensures PayPlan(b, amount).unallocated == 0 && PayPlan(b, amount).applied == amount
  {
    ActiveRows(b);
    PayPlanLaws(b, reference, amount);
  }
}
