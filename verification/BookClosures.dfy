// Waivers, settlement, return, cancellation and write-off keep a contract's books reconciled.
module BookClosures {
  import opened Options
  import opened Sums
  import opened Subledger
  import opened SubledgerLaws
  import opened Books
  import opened Postings
  import opened Reconciliation
  import opened BookSteps
  import M = Money
  import W = Waterfall
  import GL = GeneralLedger

  // -------------------------------------------------------------------------
  // Waivers
  // -------------------------------------------------------------------------

  lemma WaiversRecords(b: Book, d: Book)
    requires b in ROWS && b in LEDGERS && d == b.(waivers := d.waivers)
    ensures d in ROWS && d in LEDGERS && Receivable(d) == Receivable(b)
  {
    hide Sums.Sum, LedgerSum, ClosureSum;
    assert RowsOk(b) == RowsOk(d);
    assert LedgerOk(b) == LedgerOk(d);
  }

  lemma WaiversFrame(b: Book, d: Book)
    requires b in SOUND && d == b.(waivers := d.waivers) && d in KEYS
    ensures d in SOUND
  {
    WaiversRecords(b, d);
    assert JournalsOk(b) && JournalsOk(d);
  }

  lemma NewRequest(b: Book, charge: nat, user: nat)
    requires b in KEYS && RequestWaiver(b, charge, user).1.Accepted?
    ensures RequestWaiver(b, charge, user).0 in KEYS
  {
    var d := RequestWaiver(b, charge, user).0;
    assert forall k :: 0 <= k < |b.waivers| && b.waivers[k].decision.Pending? ==> b.waivers[k].charge != charge;
    assert forall k :: 0 <= k < |b.events| ==> Accounted(d, b.events[k].key);
    assert KeysOk(d);
  }

  lemma RequestWaiverKeeps(b: Book, charge: nat, user: nat)
    requires b in SOUND
    ensures RequestWaiver(b, charge, user).0 in SOUND
  {
    if RequestWaiver(b, charge, user).1.Accepted? {
      hide *;
      NewRequest(b, charge, user);
      RequestOnlyAsks(b, charge, user);
      AllKeys(b);
      WaiversFrame(b, RequestWaiver(b, charge, user).0);
    } else {
      hide RowsOk, KeysOk, LedgerOk, JournalsOk, PendingFor;
    }
  }

  lemma RequestOnlyAsks(b: Book, charge: nat, user: nat)
    ensures var d := RequestWaiver(b, charge, user).0; d == b.(waivers := d.waivers)
  {
  }

  lemma AllKeys(b: Book)
    requires b in SOUND
    ensures b in KEYS && b in ROWS
  {
    hide RowsOk, KeysOk, LedgerOk, JournalsOk;
  }

  lemma Rejection(b: Book, r: nat, user: nat)
    requires b in KEYS && r < |b.waivers| && b.waivers[r].decision.Pending?
    ensures b.(waivers := b.waivers[r := b.waivers[r].(decision := Decision.Rejected, decidedBy := user)]) in KEYS
  {
    var d := b.(waivers := b.waivers[r := b.waivers[r].(decision := Decision.Rejected, decidedBy := user)]);
    assert forall k :: 0 <= k < |b.events| ==> Accounted(d, b.events[k].key);
    assert KeysOk(d);
  }

  lemma RejectKeeps(b: Book, r: nat, user: nat)
    requires b in SOUND && r < |b.waivers| && b.waivers[r].decision.Pending?
    ensures b.(waivers := b.waivers[r := b.waivers[r].(decision := Decision.Rejected, decidedBy := user)]) in SOUND
  {
    Rejection(b, r, user);
    WaiversFrame(b, b.(waivers := b.waivers[r := b.waivers[r].(decision := Decision.Rejected, decidedBy := user)]));
  }

  lemma WaiveColumns(insts: seq<Installment>, charges: seq<Charge>, k: nat)
    requires k < |charges| && !charges[k].status.Waived?
    ensures var c := charges[k]; var d := c.(status := FeeStatus.Waived);
      Cols(insts, charges[k := d]) ==
      Cols(insts, charges).(feesWaived := Cols(insts, charges).feesWaived + c.amount - c.paid,
                            doubled := Cols(insts, charges).doubled + DoubledOf(d))
  {
    var d := charges[k].(status := FeeStatus.Waived);
    SumSet(charges, k, d, FeeAmount);
    SumSet(charges, k, d, FeePaidAmount);
    SumSet(charges, k, d, FeeOffAmount);
    SumSet(charges, k, d, FeeWaivedOf);
    SumSet(charges, k, d, DoubledOf);
  }

  lemma WaiveValid(charges: seq<Charge>, k: nat)
    requires k < |charges| && ValidCharges(charges)
    ensures ValidCharges(charges[k := charges[k].(status := FeeStatus.Waived)])
  {
  }

  // Request r has been approved by `user` and its charge marked waived; no event yet.
  ghost predicate WaivedBy(b: Book, a: Book, r: nat, user: nat)
  {
    && r < |b.waivers| && b.waivers[r].decision.Pending? && user != b.waivers[r].requestedBy
    && b.waivers[r].charge < |b.charges|
    && a == b.(waivers := b.waivers[r := b.waivers[r].(decision := Decision.Approved, decidedBy := user)],
               charges := b.charges[b.waivers[r].charge := b.charges[b.waivers[r].charge].(status := FeeStatus.Waived)],
               ledger := a.ledger)
  }

  lemma WaivedRows(b: Book, a: Book, r: nat, user: nat)
    requires b in ROWS && b in KEYS && WaivedBy(b, a, r, user)
    ensures a in ROWS
  {
    var k := b.waivers[r].charge;
    assert !b.charges[k].status.Waived?;
    WaiveColumns(b.installments, b.charges, k);
    if !ClosedOutByClosure(b) {
      WaiveValid(b.charges, k);
    }
    assert RowsOk(a);
  }

  lemma WaivedKeys(b: Book, a: Book, r: nat, user: nat)
    requires b in KEYS && WaivedBy(b, a, r, user)
    ensures a in KEYS && EventsOk(a)
  {
    assert KeysOk(a);
  }

  lemma WaivedLedger(b: Book, a: Book, r: nat, user: nat, amount: int)
    requires b in ROWS && b in LEDGERS && b in KEYS && WaivedBy(b, a, r, user)
    requires amount == b.charges[b.waivers[r].charge].amount - b.charges[b.waivers[r].charge].paid
    requires forall kind: EntryKind ::
      && LedgerSum(a.ledger, kind) == LedgerSum(b.ledger, kind) + (if kind == LateFeeWaived then amount else 0)
      && ClosureSum(a.ledger, kind) == ClosureSum(b.ledger, kind)
    ensures a in LEDGERS && Receivable(a) == Receivable(b) - amount
  {
    hide Sums.Sum, LedgerSum, ClosureSum;
    assert !b.charges[b.waivers[r].charge].status.Waived?;
    WaiveColumns(b.installments, b.charges, b.waivers[r].charge);
    assert LedgerOk(a);
  }

  lemma DecideWaiverKeeps(b: Book, r: nat, user: nat, approve: bool)
    requires b in SOUND
    ensures DecideWaiver(b, r, user, approve).0 in SOUND
  {
    if DecideWaiver(b, r, user, approve).1.Accepted? {
      if approve {
        ApproveKeeps(b, r, user);
      } else {
        RejectKeeps(b, r, user);
      }
    }
  }

  // The approved waiver's records, before its event.
  function Approved(b: Book, r: nat, user: nat, amount: int): Book
    requires r < |b.waivers| && b.waivers[r].charge < |b.charges|
  {
    var k := b.waivers[r].charge;
    b.(waivers := b.waivers[r := b.waivers[r].(decision := Decision.Approved, decidedBy := user)],
       charges := b.charges[k := b.charges[k].(status := FeeStatus.Waived)],
       ledger := Record(b.ledger, LateFeeWaived, amount, FromApproval(r)))
  }

  lemma ApprovedRecords(b: Book, r: nat, user: nat, amount: int)
    requires b in SOUND && r < |b.waivers| && b.waivers[r].decision.Pending? && user != b.waivers[r].requestedBy
    requires b.waivers[r].charge < |b.charges|
    requires amount == b.charges[b.waivers[r].charge].amount - b.charges[b.waivers[r].charge].paid
    ensures var a := Approved(b, r, user, amount);
      a in RECORDED && EventsOk(a) && Receivable(a) == Receivable(b) - amount && amount >= 0
  {
    var a := Approved(b, r, user, amount);
    assert amount >= 0;
    forall kind: EntryKind
      ensures LedgerSum(a.ledger, kind) == LedgerSum(b.ledger, kind) + if kind == LateFeeWaived then amount else 0
      ensures ClosureSum(a.ledger, kind) == ClosureSum(b.ledger, kind)
    {
      RecordSum(b.ledger, LateFeeWaived, amount, FromApproval(r), kind);
    }
    WaivedRows(b, a, r, user);
    WaivedKeys(b, a, r, user);
    WaivedLedger(b, a, r, user, amount);
  }

  lemma NotYetWaived(b: Book, r: nat)
    requires b in KEYS && r < |b.waivers| && b.waivers[r].decision.Pending?
    ensures b.waivers[r].charge < |b.charges| && !Known(b.events, WaivedKey(b.waivers[r].charge))
  {
    assert KeysOk(b);
    Unknown(b, WaivedKey(b.waivers[r].charge));
  }

  lemma DecideIsApproved(b: Book, r: nat, user: nat)
    requires r < |b.waivers| && b.waivers[r].decision.Pending? && user != b.waivers[r].requestedBy
    requires b.waivers[r].charge < |b.charges|
    ensures var k := b.waivers[r].charge; var amount := b.charges[k].amount - b.charges[k].paid;
      DecideWaiver(b, r, user, true).0 == Emit(Approved(b, r, user, amount), GL.LateFeeWaived, WaivedKey(k), amount)
  {
    hide Emit, Record;
  }

  lemma ApproveKeeps(b: Book, r: nat, user: nat)
    requires b in SOUND && r < |b.waivers| && b.waivers[r].decision.Pending? && user != b.waivers[r].requestedBy
    ensures DecideWaiver(b, r, user, true).0 in SOUND
  {
    NotYetWaived(b, r);
    var k := b.waivers[r].charge;
    var amount := b.charges[k].amount - b.charges[k].paid;
    var a := Approved(b, r, user, amount);
    DecideIsApproved(b, r, user);
    ApprovedRecords(b, r, user, amount);
    ApprovedSound(b, a, k, amount);
  }

  lemma ApprovedSound(b: Book, a: Book, k: nat, amount: nat)
    requires b in JOURNALS && a in RECORDED && EventsOk(a) && Receivable(a) == Receivable(b) - amount
    requires Accounted(a, WaivedKey(k)) && !Known(a.events, WaivedKey(k))
    requires a == b.(waivers := a.waivers, charges := a.charges, ledger := a.ledger)
    ensures Emit(a, GL.LateFeeWaived, WaivedKey(k), amount) in SOUND
  {
    ApprovePostings(a, k, amount);
    ApprovedJournals(b, a, Emit(a, GL.LateFeeWaived, WaivedKey(k), amount), amount);
  }

  lemma ApprovedJournals(b: Book, a: Book, d: Book, amount: int)
    requires b in JOURNALS && a in RECORDED && SameRecords(a, d) && EventsOk(d)
    requires Receivable(a) == Receivable(b) - amount
    requires Booked(a) == Booked(b) && a.terms == b.terms && a.payments == b.payments && a.unearned == b.unearned
    requires GL.Balance(d.journals, GL.RECEIVABLE) == GL.Balance(b.journals, GL.RECEIVABLE) - amount
    requires GL.Balance(d.journals, GL.UNEARNED) == GL.Balance(b.journals, GL.UNEARNED)
    requires GL.Balance(d.journals, GL.BANK) == GL.Balance(b.journals, GL.BANK)
    ensures d in SOUND
  {
    assert JournalsOk(b);
    Conclude(a, d);
  }

  lemma ApprovePostings(a: Book, k: nat, amount: nat)
    requires EventsOk(a) && Accounted(a, WaivedKey(k)) && !Known(a.events, WaivedKey(k))
    ensures var d := Emit(a, GL.LateFeeWaived, WaivedKey(k), amount);
      && SameRecords(a, d) && EventsOk(d)
      && GL.Balance(d.journals, GL.RECEIVABLE) == GL.Balance(a.journals, GL.RECEIVABLE) - amount
      && GL.Balance(d.journals, GL.UNEARNED) == GL.Balance(a.journals, GL.UNEARNED)
      && GL.Balance(d.journals, GL.BANK) == GL.Balance(a.journals, GL.BANK)
  {
    EmitFrame(a, GL.LateFeeWaived, WaivedKey(k), amount);
    EmitPair(a, GL.LateFeeWaived, WaivedKey(k), amount, GL.FEE_INCOME, GL.RECEIVABLE, GL.RECEIVABLE);
    EmitPair(a, GL.LateFeeWaived, WaivedKey(k), amount, GL.FEE_INCOME, GL.RECEIVABLE, GL.UNEARNED);
    EmitPair(a, GL.LateFeeWaived, WaivedKey(k), amount, GL.FEE_INCOME, GL.RECEIVABLE, GL.BANK);
  }

  // -------------------------------------------------------------------------
  // Closing out the schedule
  // -------------------------------------------------------------------------

  lemma {:induction false} CloseOutFees(charges: seq<Charge>)
    requires forall k :: 0 <= k < |charges| ==> ValidCharge(charges[k])
    ensures Sum(CloseOutCharges(charges), FeePaidAmount) ==
      Sum(charges, FeePaidAmount) + Sum(charges, FeeOutstanding) + Sum(charges, FeeOffAmount) - Sum(charges, DoubledOf)
  {
    if charges != [] {
      assert ValidCharge(charges[0]);
      CloseOutFees(charges[1..]);
      assert CloseOutCharges(charges)[1..] == CloseOutCharges(charges[1..]);
    }
  }

  lemma CloseOutColumns(insts: seq<Installment>, charges: seq<Charge>)
    requires forall k :: 0 <= k < |charges| ==> ValidCharge(charges[k])
    ensures var c := Cols(insts, charges);
      Cols(CloseOutInstallments(insts), CloseOutCharges(charges)) ==
      c.(principalPaid := c.principal, profitPaid := c.profit,
         feesPaid := c.feesPaid + Sum(charges, FeeOutstanding) + c.feesOff - c.doubled)
  {
    var i', c' := CloseOutInstallments(insts), CloseOutCharges(charges);
    SumSame(i', PrincipalOf, insts, PrincipalOf);
    SumSame(i', ProfitOf, insts, ProfitOf);
    SumSame(i', PrincipalPaidOf, insts, PrincipalOf);
    SumSame(i', ProfitPaidOf, insts, ProfitOf);
    SumSame(i', PrincipalOffOf, insts, PrincipalOffOf);
    SumSame(i', ProfitOffOf, insts, ProfitOffOf);
    SumSame(c', FeeAmount, charges, FeeAmount);
    SumSame(c', FeeOffAmount, charges, FeeOffAmount);
    SumSame(c', FeeWaivedOf, charges, FeeWaivedOf);
    SumSame(c', DoubledOf, charges, DoubledOf);
    CloseOutFees(charges);
  }

  // A book that differs from b by a close-out of the schedule under closure `how`.
  ghost predicate ClosedOut(b: Book, a: Book, how: Closure) {
    && (how.EarlySettlement? || how.Return?)
    && a.terms == b.terms && b.status.Active? && a.status.Closed? && a.closure == Some(how)
    && a.installments == CloseOutInstallments(b.installments) && a.charges == CloseOutCharges(b.charges)
    && a.unearned == 0 && a.waivers == b.waivers && a.executions == b.executions
    && |a.payments| >= |b.payments| && a.events == b.events
  }

  lemma ClosedOutColumns(b: Book, a: Book, how: Closure)
    requires b in ROWS && ClosedOut(b, a, how)
    ensures ColsOf(a) == ColsOf(b).(principalPaid := ColsOf(b).principal, profitPaid := ColsOf(b).profit,
      feesPaid := ColsOf(b).feesPaid + Sum(b.charges, FeeOutstanding) + ColsOf(b).feesOff - ColsOf(b).doubled)
  {
    CloseOutColumns(b.installments, b.charges);
  }

  lemma ClosedOutRows(b: Book, a: Book, how: Closure)
    requires b in ROWS && ClosedOut(b, a, how)
    ensures a in ROWS
  {
    ClosedOutColumns(b, a, how);
    assert RowsOk(a);
  }

  lemma ClosedOutKeys(b: Book, a: Book, how: Closure)
    requires b in KEYS && ClosedOut(b, a, how)
    ensures a in KEYS && EventsOk(a)
  {
    assert KeysOk(a);
  }

  // The four ledger rows of a close-out, given what the quote said.
  ghost predicate Wrote(b: Book, a: Book, q: Quote, k1: EntryKind, k2: EntryKind, k3: EntryKind, k4: EntryKind, net: int) {
    && (forall kind: EntryKind :: LedgerSum(a.ledger, kind) == LedgerSum(b.ledger, kind) +
         if kind == k1 then q.principal else if kind == k2 then q.lateFees
         else if kind == k3 then q.charged else if kind == k4 then q.rebate
         else if kind == RefundIssued then net else 0)
    && ClosureSum(a.ledger, k1) == ClosureSum(b.ledger, k1) + q.principal
    && ClosureSum(a.ledger, k2) == ClosureSum(b.ledger, k2) + q.lateFees
    && ClosureSum(a.ledger, k3) == ClosureSum(b.ledger, k3) + q.charged
    && ClosureSum(a.ledger, k4) == ClosureSum(b.ledger, k4) + q.rebate
  }

  ghost predicate QuoteAgrees(b: Book, q: Quote) {
    var c := ColsOf(b);
    && q.principal == c.principal - c.principalPaid - c.principalOff
    && q.lateFees == Sum(b.charges, FeeOutstanding)
    && q.lateFees == c.fees - c.feesPaid - c.feesOff - c.feesWaived + c.doubled
    && q.charged + q.rebate == c.profit - c.profitPaid
    && q.payoff == q.principal + q.lateFees + q.charged
  }

  // The columns a close-out leaves, and the closure it is made under.
  ghost predicate ClosedColumns(b: Book, a: Book, how: Closure) {
    && b.closure.None? && b.status.Active? && a.closure == Some(how) && a.status.Closed?
    && ColsOf(a) == ColsOf(b).(principalPaid := ColsOf(b).principal, profitPaid := ColsOf(b).profit,
         feesPaid := ColsOf(b).feesPaid + Sum(b.charges, FeeOutstanding) + ColsOf(b).feesOff - ColsOf(b).doubled)
  }

  lemma SettledLedger(b: Book, a: Book, q: Quote)
    requires b in LEDGERS && ClosedColumns(b, a, Closure.EarlySettlement) && QuoteAgrees(b, q)
    requires Wrote(b, a, q, PrincipalPaid, LateFeePaid, ProfitRecognized, ProfitRebated, 0) && Cash(a) == Cash(b) + q.payoff
    ensures a in LEDGERS
  {
    hide Sums.Sum, LedgerSum, ClosureSum;
    assert LedgerOk(a);
  }

  lemma SettledReceivable(b: Book, a: Book, q: Quote)
    requires ClosedColumns(b, a, Closure.EarlySettlement) && QuoteAgrees(b, q)
    ensures Receivable(a) == Receivable(b) - q.payoff - q.rebate
  {
  }

  lemma ReturnedLedger(b: Book, a: Book, q: Quote, net: int)
    requires b in LEDGERS && ClosedColumns(b, a, Closure.Return) && QuoteAgrees(b, q)
    requires Wrote(b, a, q, ReturnPrincipal, ReturnLateFee, ReturnRetained, ReturnWaived, net) && Cash(a) == Cash(b)
    ensures a in LEDGERS && LedgerSum(a.ledger, ReturnRetained) == q.charged
  {
    hide Sums.Sum, LedgerSum, ClosureSum;
    assert LedgerOk(a);
  }

  lemma ReturnedReceivable(b: Book, a: Book, q: Quote, net: int)
    requires ClosedColumns(b, a, Closure.Return) && QuoteAgrees(b, q)
    requires LedgerSum(a.ledger, ReturnRetained) == q.charged
    ensures Receivable(a) == Receivable(b) - q.principal - q.lateFees - q.rebate
  {
  }

  lemma NothingClosed(b: Book, kind: EntryKind)
    requires b in LEDGERS && b.closure.None?
    ensures ClosureSum(b.ledger, kind) == 0
  {
  }

  // The records of a close-out are in order before its event is emitted.
  lemma ClosedOutRecords(b: Book, a: Book, how: Closure)
    requires b in SOUND && ClosedOut(b, a, how) && a in LEDGERS
    ensures a in RECORDED && EventsOk(a) && !Known(a.events, ClosureKey)
  {
    ClosedOutRows(b, a, how);
    ClosedOutKeys(b, a, how);
    NoClosureYet(b);
  }

  lemma NoClosureYet(b: Book)
    requires b in KEYS && b.closure.None?
    ensures !Known(b.events, ClosureKey)
  {
    assert KeysOk(b);
    Unknown(b, ClosureKey);
  }

  // Every component of a quote is non-negative and its rebate stays within the unearned profit.
  lemma QuoteInRange(b: Book, request: RebateRequest, defaultPct: real)
    requires b in ROWS && 0.0 <= defaultPct <= 1.0 && QuoteFor(b, request, defaultPct).Quoted?
    ensures var q := QuoteFor(b, request, defaultPct).quote;
      && b.status.Active? && b.closure.None?
      && q.principal == Sum(b.installments, PrincipalOutstanding) >= 0 && q.lateFees == Sum(b.charges, FeeOutstanding) >= 0
      && 0 <= q.rebate <= q.unearned == b.unearned
      && q.charged == q.unearned - q.rebate && q.payoff == q.principal + q.lateFees + q.charged
  {
    assert forall i :: 0 <= i < |b.installments| ==> ValidInstallment(b.installments[i]);
    assert forall k :: 0 <= k < |b.charges| ==> ValidCharge(b.charges[k]);
    SumNonNegative(b.installments, PrincipalOutstanding);
    SumNonNegative(b.installments, ProfitOutstanding);
    SumNonNegative(b.installments, ProfitOffOf);
    SumNonNegative(b.charges, FeeOutstanding);
    InstallmentColumns(b.installments);
    M.TimesShare(b.unearned, defaultPct);
    match request
    case ByPct(pct) => M.TimesShare(b.unearned, pct);
    case _ =>
  }

  lemma FourEntries(ledger: seq<Entry>, k1: EntryKind, x1: nat, k2: EntryKind, x2: nat, k3: EntryKind, x3: nat, k4: EntryKind, x4: nat, kind: EntryKind)
    requires k1 != k2 && k1 != k3 && k1 != k4 && k2 != k3 && k2 != k4 && k3 != k4
    ensures var after := Record(Record(Record(Record(ledger, k1, x1, FromClosure), k2, x2, FromClosure), k3, x3, FromClosure), k4, x4, FromClosure);
      var more := if kind == k1 then x1 else if kind == k2 then x2 else if kind == k3 then x3 else if kind == k4 then x4 else 0;
      LedgerSum(after, kind) == LedgerSum(ledger, kind) + more && ClosureSum(after, kind) == ClosureSum(ledger, kind) + more
  {
    var l1 := Record(ledger, k1, x1, FromClosure);
    var l2 := Record(l1, k2, x2, FromClosure);
    var l3 := Record(l2, k3, x3, FromClosure);
    RecordSum(ledger, k1, x1, FromClosure, kind);
    RecordSum(l1, k2, x2, FromClosure, kind);
    RecordSum(l2, k3, x3, FromClosure, kind);
    RecordSum(l3, k4, x4, FromClosure, kind);
  }

  lemma QuoteColumns(b: Book, request: RebateRequest, defaultPct: real)
    requires b in ROWS && 0.0 <= defaultPct <= 1.0 && QuoteFor(b, request, defaultPct).Quoted?
    ensures QuoteAgrees(b, QuoteFor(b, request, defaultPct).quote)
  {
    QuoteInRange(b, request, defaultPct);
    InstallmentColumns(b.installments);
    ChargeColumns(b.charges);
  }

  // -------------------------------------------------------------------------
  // Settlement
  // -------------------------------------------------------------------------

  function SettledRecords(b: Book, reference: string, q: Quote): Book {
    CloseOut(b).(payments := b.payments + [Payment(reference, q.payoff, q.payoff, 0)],
                 status := Closed, closure := Some(Closure.EarlySettlement),
                 ledger := SettlementEntries(b.ledger, q))
  }

  lemma SettledClosesOut(b: Book, reference: string, q: Quote)
    requires b.status.Active?
    ensures var a := SettledRecords(b, reference, q); ClosedOut(b, a, Closure.EarlySettlement) && a.journals == b.journals
  {
  }

  lemma SettledWrites(b: Book, reference: string, q: Quote)
    requires q.principal >= 0 && q.lateFees >= 0 && q.charged >= 0 && q.rebate >= 0
    ensures Wrote(b, SettledRecords(b, reference, q), q, PrincipalPaid, LateFeePaid, ProfitRecognized, ProfitRebated, 0)
    ensures Cash(SettledRecords(b, reference, q)) == Cash(b) + q.payoff
  {
    SumSnoc(b.payments, Payment(reference, q.payoff, q.payoff, 0), PaymentAmount);
    var a := SettledRecords(b, reference, q);
    forall kind: EntryKind
      ensures LedgerSum(a.ledger, kind) == LedgerSum(b.ledger, kind) +
        if kind == PrincipalPaid then q.principal else if kind == LateFeePaid then q.lateFees
        else if kind == ProfitRecognized then q.charged else if kind == ProfitRebated then q.rebate else 0
      ensures ClosureSum(a.ledger, kind) == ClosureSum(b.ledger, kind) + (LedgerSum(a.ledger, kind) - LedgerSum(b.ledger, kind))
    {
      FourEntries(b.ledger, PrincipalPaid, q.principal, LateFeePaid, q.lateFees, ProfitRecognized, q.charged, ProfitRebated, q.rebate, kind);
    }
  }

  lemma SettlePostings(a: Book, q: Quote)
    requires EventsOk(a) && a.closure.Some? && !Known(a.events, ClosureKey)
    requires q.principal >= 0 && q.lateFees >= 0 && q.charged >= 0 && q.rebate >= 0 && q.payoff == q.principal + q.lateFees + q.charged
    requires ClosureSum(a.ledger, PrincipalPaid) == q.principal && ClosureSum(a.ledger, LateFeePaid) == q.lateFees
    requires ClosureSum(a.ledger, ProfitRecognized) == q.charged && ClosureSum(a.ledger, ProfitRebated) == q.rebate
    ensures var d := Emit(a, GL.EarlySettlement, ClosureKey, 0);
      && SameRecords(a, d) && EventsOk(d)
      && GL.Balance(d.journals, GL.RECEIVABLE) == GL.Balance(a.journals, GL.RECEIVABLE) - q.payoff - q.rebate
      && GL.Balance(d.journals, GL.UNEARNED) == GL.Balance(a.journals, GL.UNEARNED) + q.charged + q.rebate
      && GL.Balance(d.journals, GL.BANK) == GL.Balance(a.journals, GL.BANK) + q.payoff
  {
    EmitFrame(a, GL.EarlySettlement, ClosureKey, 0);
    EmitSettlement(a, q.principal, q.lateFees, q.charged, q.rebate, 0, GL.RECEIVABLE);
    EmitSettlement(a, q.principal, q.lateFees, q.charged, q.rebate, 0, GL.UNEARNED);
    EmitSettlement(a, q.principal, q.lateFees, q.charged, q.rebate, 0, GL.BANK);
  }

  lemma SettleKeeps(b: Book, reference: string, amount: int, request: RebateRequest, defaultPct: real)
    requires b in SOUND && 0.0 <= defaultPct <= 1.0
    ensures Settle(b, reference, amount, request, defaultPct).0 in SOUND
  {
    if Settle(b, reference, amount, request, defaultPct).1.Accepted? {
      var q := SettleIs(b, reference, amount, request, defaultPct);
      hide *;
      AllKeys(b);
      QuoteInRange(b, request, defaultPct);
      QuoteNumbers(b, q);
      QuoteColumns(b, request, defaultPct);
      SettledWrites(b, reference, q);
      SettledClosesOut(b, reference, q);
      SettledSound(b, SettledRecords(b, reference, q), q);
    } else {
      hide QuoteFor, SettleWith, HasReference, RowsOk, KeysOk, LedgerOk, JournalsOk;
    }
  }

  lemma SettleIs(b: Book, reference: string, amount: int, request: RebateRequest, defaultPct: real) returns (q: Quote)
    requires Settle(b, reference, amount, request, defaultPct).1.Accepted?
    ensures QuoteFor(b, request, defaultPct) == Quoted(q)
    ensures Settle(b, reference, amount, request, defaultPct).0 == Emit(SettledRecords(b, reference, q), GL.EarlySettlement, ClosureKey, 0)
  {
    hide QuoteFor, Emit, CloseOut, SettlementEntries, HasReference;
    q := QuoteFor(b, request, defaultPct).quote;
  }

  // A quote within range has no negative part.
  lemma QuoteNumbers(b: Book, q: Quote)
    requires q.principal >= 0 && q.lateFees >= 0 && 0 <= q.rebate <= q.unearned && q.charged == q.unearned - q.rebate
    ensures q.charged >= 0
  {
  }

  lemma ClosedOutFrom(b: Book, a: Book, how: Closure)
    requires b in SOUND && ClosedOut(b, a, how)
    ensures ClosedColumns(b, a, how) && Booked(b) && b.closure.None? && b.unearned == ColsOf(b).profit - ColsOf(b).profitPaid
    ensures GL.Balance(b.journals, GL.RECEIVABLE) == Receivable(b)
    ensures -GL.Balance(b.journals, GL.UNEARNED) == b.unearned
    ensures GL.Balance(b.journals, GL.BANK) == b.terms.downPayment + Cash(b)
  {
    ClosedOutColumns(b, a, how);
    assert JournalsOk(b);
  }

  lemma SettledSound(b: Book, a: Book, q: Quote)
    requires b in SOUND && ClosedOut(b, a, Closure.EarlySettlement) && QuoteAgrees(b, q)
    requires Wrote(b, a, q, PrincipalPaid, LateFeePaid, ProfitRecognized, ProfitRebated, 0) && Cash(a) == Cash(b) + q.payoff
    requires q.principal >= 0 && q.lateFees >= 0 && q.charged >= 0 && q.rebate >= 0 && a.journals == b.journals
    ensures Emit(a, GL.EarlySettlement, ClosureKey, 0) in SOUND
  {
    hide Emit, ColsOf, RowsOk, LedgerOk, Accounted;
    ClosedOutFrom(b, a, Closure.EarlySettlement);
    SettledLedger(b, a, q);
    SettledReceivable(b, a, q);
    NothingClosed(b, PrincipalPaid);
    NothingClosed(b, LateFeePaid);
    NothingClosed(b, ProfitRecognized);
    NothingClosed(b, ProfitRebated);
    ClosedOutRecords(b, a, Closure.EarlySettlement);
    SettlePostings(a, q);
    Conclude(a, Emit(a, GL.EarlySettlement, ClosureKey, 0));
  }

  // -------------------------------------------------------------------------
  // Return
  // -------------------------------------------------------------------------

  function ReturnedRecords(b: Book, q: Quote, net: int): Book {
    var entries := ReturnEntries(b.ledger, q);
    CloseOut(b).(status := Closed, closure := Some(Closure.Return),
                 ledger := if net != 0 then entries + [Entry(RefundIssued, net, FromClosure)] else entries)
  }

  lemma ReturnedClosesOut(b: Book, q: Quote, net: int)
    requires b.status.Active?
    ensures var a := ReturnedRecords(b, q, net); ClosedOut(b, a, Closure.Return) && a.journals == b.journals
  {
  }

  lemma ReturnedWrites(b: Book, q: Quote, net: int)
    requires q.principal >= 0 && q.lateFees >= 0 && q.charged >= 0 && q.rebate >= 0
    ensures Wrote(b, ReturnedRecords(b, q, net), q, ReturnPrincipal, ReturnLateFee, ReturnRetained, ReturnWaived, net)
  {
    var a := ReturnedRecords(b, q, net);
    forall kind: EntryKind
      ensures LedgerSum(a.ledger, kind) == LedgerSum(b.ledger, kind) +
        if kind == ReturnPrincipal then q.principal else if kind == ReturnLateFee then q.lateFees
        else if kind == ReturnRetained then q.charged else if kind == ReturnWaived then q.rebate
        else if kind == RefundIssued then net else 0
      ensures kind != RefundIssued ==> ClosureSum(a.ledger, kind) == ClosureSum(b.ledger, kind) + (LedgerSum(a.ledger, kind) - LedgerSum(b.ledger, kind))
    {
      FourEntries(b.ledger, ReturnPrincipal, q.principal, ReturnLateFee, q.lateFees, ReturnRetained, q.charged, ReturnWaived, q.rebate, kind);
      LedgerSnoc(ReturnEntries(b.ledger, q), Entry(RefundIssued, net, FromClosure), kind);
    }
  }

  lemma ReturnPostings(a: Book, q: Quote, net: int)
    requires EventsOk(a) && a.closure.Some? && !Known(a.events, ClosureKey)
    requires q.principal >= 0 && q.lateFees >= 0 && q.charged >= 0 && q.rebate >= 0
    requires ClosureSum(a.ledger, ReturnPrincipal) == q.principal && ClosureSum(a.ledger, ReturnLateFee) == q.lateFees
    requires ClosureSum(a.ledger, ReturnRetained) == q.charged && ClosureSum(a.ledger, ReturnWaived) == q.rebate
    ensures var d := Emit(a, GL.Return, ClosureKey, net);
      && SameRecords(a, d) && EventsOk(d)
      && GL.Balance(d.journals, GL.RECEIVABLE) == GL.Balance(a.journals, GL.RECEIVABLE) - q.principal - q.lateFees - q.rebate
      && GL.Balance(d.journals, GL.UNEARNED) == GL.Balance(a.journals, GL.UNEARNED) + q.charged + q.rebate
      && GL.Balance(d.journals, GL.BANK) == GL.Balance(a.journals, GL.BANK)
  {
    EmitFrame(a, GL.Return, ClosureKey, net);
    EmitReturn(a, q.principal, q.lateFees, q.charged, q.rebate, net, GL.RECEIVABLE);
    EmitReturn(a, q.principal, q.lateFees, q.charged, q.rebate, net, GL.UNEARNED);
    EmitReturn(a, q.principal, q.lateFees, q.charged, q.rebate, net, GL.BANK);
  }

  lemma ReturnedSound(b: Book, a: Book, q: Quote, net: int)
    requires b in SOUND && ClosedOut(b, a, Closure.Return) && QuoteAgrees(b, q)
    requires Wrote(b, a, q, ReturnPrincipal, ReturnLateFee, ReturnRetained, ReturnWaived, net) && Cash(a) == Cash(b)
    requires q.principal >= 0 && q.lateFees >= 0 && q.charged >= 0 && q.rebate >= 0 && a.journals == b.journals
    ensures Emit(a, GL.Return, ClosureKey, net) in SOUND
  {
    hide Emit, ColsOf, RowsOk, LedgerOk, Accounted;
    ClosedOutFrom(b, a, Closure.Return);
    ReturnedLedger(b, a, q, net);
    ReturnedReceivable(b, a, q, net);
    NothingClosed(b, ReturnPrincipal);
    NothingClosed(b, ReturnLateFee);
    NothingClosed(b, ReturnRetained);
    NothingClosed(b, ReturnWaived);
    ClosedOutRecords(b, a, Closure.Return);
    ReturnPostings(a, q, net);
    Conclude(a, Emit(a, GL.Return, ClosureKey, net));
  }

  lemma ReturnKeeps(b: Book, defaultPct: real, refundPct: real)
    requires b in SOUND && 0.0 <= defaultPct <= 1.0
    ensures ReturnGoods(b, defaultPct, refundPct).0 in SOUND
  {
    if ReturnGoods(b, defaultPct, refundPct).1.Accepted? {
      var q, net := ReturnIs(b, defaultPct, refundPct);
      hide *;
      AllKeys(b);
      QuoteInRange(b, NoRequest, defaultPct);
      QuoteNumbers(b, q);
      QuoteColumns(b, NoRequest, defaultPct);
      ReturnedWrites(b, q, net);
      ReturnedClosesOut(b, q, net);
      ReturnedCash(b, q, net);
      ReturnedSound(b, ReturnedRecords(b, q, net), q, net);
    } else {
      hide QuoteFor, ReturnWith, RowsOk, KeysOk, LedgerOk, JournalsOk;
    }
  }

  lemma ReturnedCash(b: Book, q: Quote, net: int)
    ensures Cash(ReturnedRecords(b, q, net)) == Cash(b)
  {
    hide Sums.Sum;
  }

  lemma ReturnIs(b: Book, defaultPct: real, refundPct: real) returns (q: Quote, net: int)
    requires ReturnGoods(b, defaultPct, refundPct).1.Accepted?
    ensures QuoteFor(b, NoRequest, defaultPct) == Quoted(q)
    ensures ReturnGoods(b, defaultPct, refundPct).0 == Emit(ReturnedRecords(b, q, net), GL.Return, ClosureKey, net)
    ensures net + q.payoff == M.Times(b.terms.downPayment, refundPct)
  {
    hide QuoteFor, Emit, CloseOut, ReturnEntries, M.Times;
    q := QuoteFor(b, NoRequest, defaultPct).quote;
    net := M.Times(b.terms.downPayment, refundPct) - q.payoff;
  }
}
