// Cancellation and write-off execution keep a contract's books reconciled.
module BookWriteOffs {
  import opened Options
  import opened Sums
  import opened Subledger
  import opened SubledgerLaws
  import opened WriteOffs
  import opened Books
  import opened Postings
  import opened Reconciliation
  import opened BookSteps
  import M = Money
  import W = Waterfall
  import GL = GeneralLedger

  // -------------------------------------------------------------------------
  // Cancellation
  // -------------------------------------------------------------------------

  function Cancelled(b: Book, refund: int): Book {
    b.(unearned := 0, status := Closed, closure := Some(Closure.Cancellation),
       ledger := Record(b.ledger, RefundIssued, refund, FromClosure))
  }

  lemma CancelledRows(b: Book, refund: int)
    requires b in ROWS && b in KEYS && b.status.Created?
    ensures Cancelled(b, refund) in ROWS && Cancelled(b, refund) in KEYS && EventsOk(Cancelled(b, refund))
    ensures !Known(b.events, ClosureKey)
  {
    var a := Cancelled(b, refund);
    assert RowsOk(a);
    assert KeysOk(a);
    Unknown(b, ClosureKey);
  }

  lemma CancelledLedger(b: Book, refund: int)
    requires b in LEDGERS && b in ROWS && b.status.Created?
    ensures Cancelled(b, refund) in LEDGERS
  {
    hide Sums.Sum, LedgerSum, ClosureSum;
    var a := Cancelled(b, refund);
    forall kind: EntryKind ensures kind != RefundIssued ==> LedgerSum(a.ledger, kind) == LedgerSum(b.ledger, kind) {
      RecordSum(b.ledger, RefundIssued, refund, FromClosure, kind);
    }
    assert LedgerOk(a);
  }

  lemma CancelPostings(a: Book, refund: nat)
    requires EventsOk(a) && a.closure.Some? && !Known(a.events, ClosureKey)
    ensures var d := Emit(a, GL.Cancellation, ClosureKey, refund);
      && SameRecords(a, d) && EventsOk(d)
      && GL.Balance(d.journals, GL.RECEIVABLE) == GL.Balance(a.journals, GL.RECEIVABLE)
      && GL.Balance(d.journals, GL.UNEARNED) == GL.Balance(a.journals, GL.UNEARNED)
      && GL.Balance(d.journals, GL.BANK) == GL.Balance(a.journals, GL.BANK)
  {
    EmitFrame(a, GL.Cancellation, ClosureKey, refund);
    EmitPair(a, GL.Cancellation, ClosureKey, refund, GL.DEPOSITS, GL.REFUNDS, GL.RECEIVABLE);
    EmitPair(a, GL.Cancellation, ClosureKey, refund, GL.DEPOSITS, GL.REFUNDS, GL.UNEARNED);
    EmitPair(a, GL.Cancellation, ClosureKey, refund, GL.DEPOSITS, GL.REFUNDS, GL.BANK);
  }

  lemma CancelKeeps(b: Book, refundPct: real)
    requires b in SOUND && refundPct >= 0.0
    ensures Cancel(b, refundPct).0 in SOUND
  {
    if b.status.Created? {
      var refund := M.Times(b.terms.downPayment, refundPct);
      M.TimesMonotone(b.terms.downPayment, 0.0, refundPct);
      M.TimesShare(b.terms.downPayment, 0.0);
      CancelledRows(b, refund);
      CancelledLedger(b, refund);
      CancelPostings(Cancelled(b, refund), refund);
      assert JournalsOk(b);
      Conclude(Cancelled(b, refund), Cancel(b, refundPct).0);
    }
  }

  // -------------------------------------------------------------------------
  // The three sweeps
  // -------------------------------------------------------------------------

  // How much of `amount` a sweep takes in all: everything, when the contract owes it.
  lemma {:induction false} SweepPrincipal(insts: seq<Installment>, amount: int)
    requires ValidInstallments(insts) && 0 <= amount <= Sum(insts, PrincipalOutstanding)
    ensures var after := Sweep(insts, PrincipalPart, amount);
      ValidInstallments(after) && Sum(after, PrincipalOffOf) == Sum(insts, PrincipalOffOf) + amount
  {
    if insts != [] {
      var take := W.Take(amount, insts[0].PrincipalOutstanding());
      SumNonNegative(insts[1..], PrincipalOutstanding);
      SweepPrincipal(insts[1..], amount - take);
    }
  }

  lemma {:induction false} SweepProfit(insts: seq<Installment>, amount: int)
    requires ValidInstallments(insts) && 0 <= amount <= Sum(insts, ProfitOutstanding)
    ensures var after := Sweep(insts, ProfitPart, amount);
      ValidInstallments(after) && Sum(after, ProfitOffOf) == Sum(insts, ProfitOffOf) + amount
  {
    if insts != [] {
      var take := W.Take(amount, insts[0].ProfitOutstanding());
      SumNonNegative(insts[1..], ProfitOutstanding);
      SweepProfit(insts[1..], amount - take);
    }
  }

  lemma {:induction false} SweepFixed(insts: seq<Installment>, part: Component, amount: int, f: Installment -> int)
    requires forall i: Installment, take: int :: f(WriteOffPart(i, part, take)) == f(i)
    ensures Sum(Sweep(insts, part, amount), f) == Sum(insts, f)
  {
    if insts != [] {
      SweepFixed(insts[1..], part, amount - W.Take(amount, Part(insts[0], part)), f);
    }
  }

  lemma SweepPrincipalColumns(insts: seq<Installment>, charges: seq<Charge>, amount: int)
    requires ValidInstallments(insts) && 0 <= amount <= Sum(insts, PrincipalOutstanding)
    ensures var after := Sweep(insts, PrincipalPart, amount);
      && ValidInstallments(after) && Sum(after, ProfitOutstanding) == Sum(insts, ProfitOutstanding)
      && Cols(after, charges) == Cols(insts, charges).(principalOff := Cols(insts, charges).principalOff + amount)
  {
    SweepPrincipal(insts, amount);
    SweepFixed(insts, PrincipalPart, amount, PrincipalOf);
    SweepFixed(insts, PrincipalPart, amount, ProfitOf);
    SweepFixed(insts, PrincipalPart, amount, PrincipalPaidOf);
    SweepFixed(insts, PrincipalPart, amount, ProfitPaidOf);
    SweepFixed(insts, PrincipalPart, amount, ProfitOffOf);
    SweepFixed(insts, PrincipalPart, amount, ProfitOutstanding);
  }

  lemma SweepProfitColumns(insts: seq<Installment>, charges: seq<Charge>, amount: int)
    requires ValidInstallments(insts) && 0 <= amount <= Sum(insts, ProfitOutstanding)
    ensures var after := Sweep(insts, ProfitPart, amount);
      && ValidInstallments(after)
      && Cols(after, charges) == Cols(insts, charges).(profitOff := Cols(insts, charges).profitOff + amount)
  {
    SweepProfit(insts, amount);
    SweepFixed(insts, ProfitPart, amount, PrincipalOf);
    SweepFixed(insts, ProfitPart, amount, ProfitOf);
    SweepFixed(insts, ProfitPart, amount, PrincipalPaidOf);
    SweepFixed(insts, ProfitPart, amount, ProfitPaidOf);
    SweepFixed(insts, ProfitPart, amount, PrincipalOffOf);
  }

  // A write-off may change how much of a charge is written off and how it reads, nothing else.
  predicate OffCharge(c: Charge, d: Charge) {
    && d.inst == c.inst && d.amount == c.amount && d.paid == c.paid
    && (d.status.Waived? <==> c.status.Waived?) && (c.status.Waived? ==> d == c)
  }

  lemma {:induction false} SweepFeesLaws(charges: seq<Charge>, amount: int)
    requires (forall k :: 0 <= k < |charges| ==> ValidCharge(charges[k])) && 0 <= amount <= Sum(charges, FeeOutstanding)
    ensures var after := SweepFees(charges, amount);
      && (forall k :: 0 <= k < |charges| ==> ValidCharge(after[k]) && OffCharge(charges[k], after[k]))
      && Sum(after, FeeOffAmount) == Sum(charges, FeeOffAmount) + amount
  {
    if charges != [] {
      var take := W.Take(amount, charges[0].Outstanding());
      assert ValidCharge(charges[0]);
      assert forall k :: 0 <= k < |charges| - 1 ==> ValidCharge(charges[1..][k]);
      SumNonNegative(charges[1..], FeeOutstanding);
      SweepFeesLaws(charges[1..], amount - take);
    }
  }

  lemma SweepFeesColumns(insts: seq<Installment>, charges: seq<Charge>, amount: int)
    requires ValidCharges(charges) && 0 <= amount <= Sum(charges, FeeOutstanding)
    ensures var after := SweepFees(charges, amount);
      && ValidCharges(after) && (forall k :: 0 <= k < |charges| ==> OffCharge(charges[k], after[k]))
      && Cols(insts, after) == Cols(insts, charges).(feesOff := Cols(insts, charges).feesOff + amount)
  {
    var after := SweepFees(charges, amount);
    SweepFeesLaws(charges, amount);
    assert forall k :: 0 <= k < |charges| ==> OffCharge(charges[k], after[k]);
    SumSame(after, FeeAmount, charges, FeeAmount);
    SumSame(after, FeePaidAmount, charges, FeePaidAmount);
    SumSame(after, FeeWaivedOf, charges, FeeWaivedOf);
    SumSame(after, DoubledOf, charges, DoubledOf);
  }

  function PartTotal(insts: seq<Installment>, part: Component): int {
    if part.PrincipalPart? then Sum(insts, PrincipalOutstanding) else Sum(insts, ProfitOutstanding)
  }

  // What a sweep leaves after the first installment is still owed by the rest.
  lemma TakeLeaves(insts: seq<Installment>, part: Component, amount: int)
    requires insts != [] && ValidInstallments(insts) && 0 <= amount <= PartTotal(insts, part)
    ensures var take := W.Take(amount, Part(insts[0], part));
      0 <= take <= amount && amount - take <= PartTotal(insts[1..], part) && ValidInstallments(insts[1..])
  {
    assert ValidInstallment(insts[0]);
    if part.PrincipalPart? { SumNonNegative(insts[1..], PrincipalOutstanding); } else { SumNonNegative(insts[1..], ProfitOutstanding); }
  }

  lemma NothingToSweep(part: Component)
    ensures PartTotal([], part) == 0
  {
  }

  lemma {:induction false} SweepEntriesSum(ledger: seq<Entry>, insts: seq<Installment>, part: Component, amount: int, n: nat, kind: EntryKind)
    requires ValidInstallments(insts) && 0 <= amount <= PartTotal(insts, part)
    ensures var after := SweepEntries(ledger, insts, part, amount, n); var swept := if part.PrincipalPart? then PrincipalOff else ProfitOff;
      && LedgerSum(after, kind) == LedgerSum(ledger, kind) + (if kind == swept then amount else 0)
      && ClosureSum(after, kind) == ClosureSum(ledger, kind)
    decreases |insts|
  {
    hide LedgerSum, ClosureSum, Record, PartTotal, ValidInstallments, W.Take, Part;
    if insts == [] {
      NothingToSweep(part);
    } else {
      var take := W.Take(amount, Part(insts[0], part));
      var swept := if part.PrincipalPart? then PrincipalOff else ProfitOff;
      TakeLeaves(insts, part, amount);
      RecordSum(ledger, swept, take, FromWriteOff(n), kind);
      SweepEntriesSum(Record(ledger, swept, take, FromWriteOff(n)), insts[1..], part, amount - take, n, kind);
    }
  }

  lemma TakeFeeLeaves(charges: seq<Charge>, amount: int)
    requires charges != [] && (forall k :: 0 <= k < |charges| ==> ValidCharge(charges[k])) && 0 <= amount <= Sum(charges, FeeOutstanding)
    ensures var take := W.Take(amount, charges[0].Outstanding());
      && 0 <= take <= amount && amount - take <= Sum(charges[1..], FeeOutstanding)
      && (forall k :: 0 <= k < |charges| - 1 ==> ValidCharge(charges[1..][k]))
  {
    assert ValidCharge(charges[0]);
    SumNonNegative(charges[1..], FeeOutstanding);
  }

  lemma NoFeesToSweep()
    ensures Sum([], FeeOutstanding) == 0
  {
  }

  lemma {:induction false} SweepFeeEntriesSum(ledger: seq<Entry>, charges: seq<Charge>, amount: int, n: nat, kind: EntryKind)
    requires (forall k :: 0 <= k < |charges| ==> ValidCharge(charges[k])) && 0 <= amount <= Sum(charges, FeeOutstanding)
    ensures var after := SweepFeeEntries(ledger, charges, amount, n);
      && LedgerSum(after, kind) == LedgerSum(ledger, kind) + (if kind == LateFeeOff then amount else 0)
      && ClosureSum(after, kind) == ClosureSum(ledger, kind)
    decreases |charges|
  {
    hide LedgerSum, ClosureSum, Record, Sums.Sum, ValidCharge, W.Take;
    if charges == [] {
      NoFeesToSweep();
    } else {
      var take := W.Take(amount, charges[0].Outstanding());
      TakeFeeLeaves(charges, amount);
      RecordSum(ledger, LateFeeOff, take, FromWriteOff(n), kind);
      SweepFeeEntriesSum(Record(ledger, LateFeeOff, take, FromWriteOff(n)), charges[1..], amount - take, n, kind);
    }
  }

  // -------------------------------------------------------------------------
  // The execution
  // -------------------------------------------------------------------------

  // An executed write-off seen from outside, whether or not it closes the contract.
  ghost predicate WrittenOffBy(b: Book, a: Book, x: Execution) {
    && a.terms == b.terms && b.status.Active? && b.closure.None? && a.unearned == b.unearned
    && ((a.status.Active? && a.closure.None?) || (a.status.Closed? && a.closure == Some(Closure.WriteOff)))
    && a.payments == b.payments && a.waivers == b.waivers && a.events == b.events && a.journals == b.journals
    && a.executions == b.executions + [x]
    && |a.installments| == |b.installments| && |a.charges| == |b.charges|
    && ValidInstallments(a.installments) && ValidCharges(a.charges)
    && (forall k :: 0 <= k < |b.charges| ==> OffCharge(b.charges[k], a.charges[k]))
    && ColsOf(a) == ColsOf(b).(principalOff := ColsOf(b).principalOff + x.principal, profitOff := ColsOf(b).profitOff + x.profit,
                               feesOff := ColsOf(b).feesOff + x.lateFee)
    && (forall kind: EntryKind ::
         && LedgerSum(a.ledger, kind) == LedgerSum(b.ledger, kind) +
              (match kind case PrincipalOff => x.principal case ProfitOff => x.profit case LateFeeOff => x.lateFee case _ => 0)
         && ClosureSum(a.ledger, kind) == ClosureSum(b.ledger, kind))
  }

  lemma WrittenOffRows(b: Book, a: Book, x: Execution)
    requires b in ROWS && WrittenOffBy(b, a, x)
    ensures a in ROWS && Receivable(a) == Receivable(b) - x.Total()
  {
    assert forall k :: 0 <= k < |b.charges| ==> OffCharge(b.charges[k], a.charges[k]);
    assert RowsOk(a);
  }

  lemma WrittenOffKeys(b: Book, a: Book, x: Execution)
    requires b in KEYS && WrittenOffBy(b, a, x)
    ensures a in KEYS && EventsOk(a)
    ensures !Known(a.events, WriteOffKey(|b.executions|)) && !Known(a.events, ReleaseKey(|b.executions|))
  {
    assert forall k :: 0 <= k < |b.charges| ==> OffCharge(b.charges[k], a.charges[k]);
    assert KeysOk(a);
    Unknown(b, WriteOffKey(|b.executions|));
    Unknown(b, ReleaseKey(|b.executions|));
  }

  lemma WrittenOffLedger(b: Book, a: Book, x: Execution)
    requires b in LEDGERS && WrittenOffBy(b, a, x)
    ensures a in LEDGERS
  {
    hide Sums.Sum, LedgerSum, ClosureSum;
    assert LedgerOk(a);
  }

  predicate Asked(b: Book, x: Execution) {
    && x.principal >= 0 && x.profit >= 0 && x.lateFee >= 0 && x.provision >= 0
    && x.principal <= Sum(b.installments, PrincipalOutstanding)
    && x.profit <= Sum(b.installments, ProfitOutstanding)
    && x.lateFee <= Sum(b.charges, FeeOutstanding)
  }

  lemma SweptColumns(b: Book, x: Execution)
    requires ValidInstallments(b.installments) && ValidCharges(b.charges) && Asked(b, x)
    ensures var a := Swept(b, x); var c := ColsOf(b);
      && ValidInstallments(a.installments) && ValidCharges(a.charges)
      && (forall k :: 0 <= k < |b.charges| ==> OffCharge(b.charges[k], a.charges[k]))
      && ColsOf(a) == c.(principalOff := c.principalOff + x.principal, profitOff := c.profitOff + x.profit, feesOff := c.feesOff + x.lateFee)
  {
    var first := Sweep(b.installments, PrincipalPart, x.principal);
    SweepPrincipalColumns(b.installments, b.charges, x.principal);
    SweepProfitColumns(first, b.charges, x.profit);
    SweepFeesColumns(Sweep(first, ProfitPart, x.profit), b.charges, x.lateFee);
  }

  lemma SweptLedger(b: Book, x: Execution, kind: EntryKind)
    requires ValidInstallments(b.installments) && ValidCharges(b.charges) && Asked(b, x)
    ensures LedgerSum(Swept(b, x).ledger, kind) == LedgerSum(b.ledger, kind) +
      (match kind case PrincipalOff => x.principal case ProfitOff => x.profit case LateFeeOff => x.lateFee case _ => 0)
    ensures ClosureSum(Swept(b, x).ledger, kind) == ClosureSum(b.ledger, kind)
  {
    var n := |b.executions|;
    var first := Sweep(b.installments, PrincipalPart, x.principal);
    var l1 := SweepEntries(b.ledger, b.installments, PrincipalPart, x.principal, n);
    var l2 := SweepEntries(l1, first, ProfitPart, x.profit, n);
    SweepPrincipalColumns(b.installments, b.charges, x.principal);
    SweepEntriesSum(b.ledger, b.installments, PrincipalPart, x.principal, n, kind);
    SweepEntriesSum(l1, first, ProfitPart, x.profit, n, kind);
    SweepFeeEntriesSum(l2, b.charges, x.lateFee, n, kind);
  }

  function ExecutedRecords(b: Book, full: bool, x: Execution): Book {
    var swept := Swept(b, x);
    if full then swept.(status := Closed, closure := Some(Closure.WriteOff)) else swept
  }

  lemma ExecutedIsWrittenOff(b: Book, full: bool, x: Execution)
    requires ValidInstallments(b.installments) && ValidCharges(b.charges) && Asked(b, x) && b.status.Active? && b.closure.None?
    ensures WrittenOffBy(b, ExecutedRecords(b, full, x), x)
  {
    SweptColumns(b, x);
    forall kind: EntryKind
      ensures LedgerSum(Swept(b, x).ledger, kind) == LedgerSum(b.ledger, kind) +
        (match kind case PrincipalOff => x.principal case ProfitOff => x.profit case LateFeeOff => x.lateFee case _ => 0)
      ensures ClosureSum(Swept(b, x).ledger, kind) == ClosureSum(b.ledger, kind)
    {
      SweptLedger(b, x, kind);
    }
  }

  function EmitExecution(a: Book, kind: GL.EventType, n: nat, x: Execution): Book {
    Release(Emit(a, kind, WriteOffKey(n), x.Total()), n, x)
  }

  // The provision release that accompanies a write-off touches the allowance and its expense only.
  lemma ReleasePostings(a: Book, n: nat, amount: int, account: nat)
    requires !Known(a.events, ReleaseKey(n))
    requires account != GL.ALLOWANCE && account != GL.IMPAIRMENT
    ensures GL.Balance(Emit(a, GL.EclReleased, ReleaseKey(n), amount).journals, account) == GL.Balance(a.journals, account)
  {
    EmitSignedPair(a, GL.EclReleased, ReleaseKey(n), amount, GL.IMPAIRMENT, GL.ALLOWANCE, account);
  }

  lemma ExecutionFrame(a: Book, kind: GL.EventType, n: nat, x: Execution, d: Book)
    requires EventsOk(a) && n < |a.executions| && d == EmitExecution(a, kind, n, x)
    ensures SameRecords(a, d) && EventsOk(d)
  {
    var emitted := Emit(a, kind, WriteOffKey(n), x.Total());
    EmitFrame(a, kind, WriteOffKey(n), x.Total());
    EmitFrame(emitted, GL.EclReleased, ReleaseKey(n), -x.provision);
  }

  lemma WriteOffPostings(a: Book, kind: GL.EventType, n: nat, x: Execution, account: nat)
    requires kind == GL.WriteOffExecuted || kind == GL.PartialWriteOffExecuted
    requires n < |a.executions| && a.executions[n] == x && !Known(a.events, WriteOffKey(n))
    requires x.principal >= 0 && x.profit >= 0 && x.lateFee >= 0 && x.provision >= 0
    requires account != GL.ALLOWANCE && account != GL.WRITE_OFF_EXPENSE
    ensures GL.Balance(Emit(a, kind, WriteOffKey(n), x.Total()).journals, account) ==
      GL.Balance(a.journals, account) - At(account, GL.RECEIVABLE, x.Total())
  {
    EmitWriteOff(a, kind, n, x.Total(), account);
  }

  lemma ExecutionPostings(a: Book, kind: GL.EventType, n: nat, x: Execution, account: nat)
    requires kind == GL.WriteOffExecuted || kind == GL.PartialWriteOffExecuted
    requires n < |a.executions| && a.executions[n] == x
    requires !Known(a.events, WriteOffKey(n)) && !Known(a.events, ReleaseKey(n))
    requires x.principal >= 0 && x.profit >= 0 && x.lateFee >= 0 && x.provision >= 0
    requires account != GL.ALLOWANCE && account != GL.IMPAIRMENT && account != GL.WRITE_OFF_EXPENSE
    ensures GL.Balance(EmitExecution(a, kind, n, x).journals, account) ==
      GL.Balance(a.journals, account) - At(account, GL.RECEIVABLE, x.Total())
  {
    WriteOffPostings(a, kind, n, x, account);
    StillUnknown(a, kind, WriteOffKey(n), x.Total(), ReleaseKey(n));
    Released(Emit(a, kind, WriteOffKey(n), x.Total()), n, x, account);
  }

  lemma Released(emitted: Book, n: nat, x: Execution, account: nat)
    requires !Known(emitted.events, ReleaseKey(n)) && account != GL.ALLOWANCE && account != GL.IMPAIRMENT
    ensures GL.Balance(Release(emitted, n, x).journals, account) == GL.Balance(emitted.journals, account)
  {
    hide Emit;
    var amount := -x.provision;
    if x.provision > 0 {
      ReleasePostings(emitted, n, amount, account);
      assert Release(emitted, n, x) == Emit(emitted, GL.EclReleased, ReleaseKey(n), amount);
    }
  }

  lemma WrittenOffSound(b: Book, a: Book, kind: GL.EventType, x: Execution)
    requires b in SOUND && WrittenOffBy(b, a, x)
    requires kind == GL.WriteOffExecuted || kind == GL.PartialWriteOffExecuted
    requires x.principal >= 0 && x.profit >= 0 && x.lateFee >= 0 && x.provision >= 0
    ensures EmitExecution(a, kind, |b.executions|, x) in SOUND
  {
    var n := |b.executions|;
    WrittenOffRows(b, a, x);
    WrittenOffKeys(b, a, x);
    WrittenOffLedger(b, a, x);
    ExecutionFrame(a, kind, n, x, EmitExecution(a, kind, n, x));
    ExecutionPostings(a, kind, n, x, GL.RECEIVABLE);
    ExecutionPostings(a, kind, n, x, GL.UNEARNED);
    ExecutionPostings(a, kind, n, x, GL.BANK);
    WrittenOffJournals(b, a, EmitExecution(a, kind, n, x), x);
  }

  lemma WrittenOffJournals(b: Book, a: Book, d: Book, x: Execution)
    requires b in JOURNALS && a in RECORDED && SameRecords(a, d) && EventsOk(d) && WrittenOffBy(b, a, x)
    requires Receivable(a) == Receivable(b) - x.Total()
    requires GL.Balance(d.journals, GL.RECEIVABLE) == GL.Balance(b.journals, GL.RECEIVABLE) - x.Total()
    requires GL.Balance(d.journals, GL.UNEARNED) == GL.Balance(b.journals, GL.UNEARNED)
    requires GL.Balance(d.journals, GL.BANK) == GL.Balance(b.journals, GL.BANK)
    ensures d in SOUND
  {
    assert JournalsOk(b);
    Conclude(a, d);
  }

  lemma ExecuteKeeps(b: Book, full: bool, x: Execution)
    requires b in SOUND && x.principal >= 0 && x.profit >= 0 && x.lateFee >= 0 && x.provision >= 0
    ensures ExecuteWriteOff(b, full, x).0 in SOUND
  {
    if ExecuteWriteOff(b, full, x).1.Accepted? {
      ActiveRows(b);
      ExecutedIsWrittenOff(b, full, x);
      WrittenOffSound(b, ExecutedRecords(b, full, x), if full then GL.WriteOffExecuted else GL.PartialWriteOffExecuted, x);
    }
  }

  lemma ExecutedAs(b: Book, full: bool, x: Execution)
    requires ExecuteWriteOff(b, full, x).1.Accepted?
    ensures ExecuteWriteOff(b, full, x).0 ==
      EmitExecution(ExecutedRecords(b, full, x), if full then GL.WriteOffExecuted else GL.PartialWriteOffExecuted, |b.executions|, x)
  {
  }
}
