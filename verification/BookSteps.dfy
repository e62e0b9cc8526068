// Every operation on a contract's books keeps them reconciled.
module BookSteps {
  import opened Options
  import opened Sums
  import opened Subledger
  import opened SubledgerLaws
  import opened Books
  import opened Postings
  import opened Reconciliation
  import M = Money
  import W = Waterfall
  import GL = GeneralLedger

  // -------------------------------------------------------------------------
  // Frames
  // -------------------------------------------------------------------------

  predicate EventsOk(b: Book) { forall k :: 0 <= k < |b.events| ==> Accounted(b, b.events[k].key) }

  // The two books differ in nothing but their events and journals.
  predicate SameRecords(b: Book, d: Book) { d == b.(events := d.events, journals := d.journals) }

  lemma EmitFrame(b: Book, kind: GL.EventType, key: Key, amount: int)
    requires EventsOk(b) && Accounted(b, key)
    ensures SameRecords(b, Emit(b, kind, key, amount)) && EventsOk(Emit(b, kind, key, amount))
  {
  }

  lemma StillUnknown(b: Book, kind: GL.EventType, key: Key, amount: int, other: Key)
    requires other != key && !Known(b.events, other)
    ensures !Known(Emit(b, kind, key, amount).events, other)
  {
  }

  lemma RecordsKeep(b: Book, d: Book)
    requires SameRecords(b, d)
    ensures b in ROWS <==> d in ROWS
    ensures b in LEDGERS <==> d in LEDGERS
    ensures WaiversOk(b) <==> WaiversOk(d)
    ensures Receivable(b) == Receivable(d)
  {
    RowsKeep(b, d);
    LedgersKeep(b, d);
  }

  lemma RowsKeep(b: Book, d: Book)
    requires SameRecords(b, d)
    ensures b in ROWS <==> d in ROWS
  {
    hide Sums.Sum, ValidTerms, Accounted;
    assert ColsOf(b) == ColsOf(d) && ValidTerms(b) == ValidTerms(d) by { TermsKeep(b, d); }
    assert RowsOk(b) == RowsOk(d);
  }

  lemma TermsKeep(b: Book, d: Book)
    requires SameRecords(b, d)
    ensures ColsOf(b) == ColsOf(d) && ValidTerms(b) == ValidTerms(d)
  {
  }

  lemma LedgersKeep(b: Book, d: Book)
    requires SameRecords(b, d)
    ensures b in LEDGERS <==> d in LEDGERS
  {
    hide Sums.Sum, LedgerSum, ClosureSum;
    assert LedgerOk(b) == LedgerOk(d);
  }

  lemma Unknown(b: Book, key: Key)
    requires EventsOk(b) && !Accounted(b, key)
    ensures !Known(b.events, key)
  {
  }

  // -------------------------------------------------------------------------
  // Delivery
  // -------------------------------------------------------------------------

  // The records of `before` are in order, and `after` adds the postings they call for.
  lemma Conclude(before: Book, after: Book)
    requires SameRecords(before, after) && EventsOk(after) && before in RECORDED
    requires GL.Balance(after.journals, GL.RECEIVABLE) == Receivable(before)
    requires -GL.Balance(after.journals, GL.UNEARNED) == if Booked(before) then before.unearned else 0
    requires GL.Balance(after.journals, GL.BANK) == if Booked(before) then before.terms.downPayment + Cash(before) else 0
    ensures after in SOUND
  {
    RecordsKeep(before, after);
    assert KeysOk(before) && KeysOk(after);
    assert JournalsOk(after);
  }

  lemma DeliverRows(b: Book)
    requires b in ROWS && b.status.Created?
    ensures var live := b.(status := Active);
      && live in ROWS && Receivable(live) == b.terms.salePrice - b.terms.downPayment
      && live.unearned == b.terms.totalProfit && Cash(live) == 0
  {
    UntouchedColumns(b.installments);
  }

  lemma DeliverKeys(b: Book)
    requires b in KEYS && b.status.Created?
    ensures b.(status := Active) in KEYS
  {
    var live := b.(status := Active);
    assert forall k :: 0 <= k < |b.events| ==> Accounted(b, b.events[k].key);
    assert KeysOk(live);
  }

  lemma DeliverRecords(b: Book)
    requires b in SOUND && b.status.Created?
    ensures var live := b.(status := Active);
      && live in RECORDED
      && Receivable(live) == b.terms.salePrice - b.terms.downPayment
      && live.unearned == b.terms.totalProfit && Cash(live) == 0
  {
    hide RowsOk, KeysOk, Sums.Sum, LedgerSum, ClosureSum;
    DeliverRows(b);
    DeliverKeys(b);
    assert LedgerOk(b) && LedgerOk(b.(status := Active));
  }

  lemma DeliverKeeps(b: Book)
    requires b in SOUND
    ensures Deliver(b).0 in SOUND
  {
    if b.status.Created? {
      var live := b.(status := Active);
      DeliverRecords(b);
      Unknown(b, ActivatedKey);
      Unknown(b, DownPaymentKey);
      var activated := Emit(live, GL.ContractActivated, ActivatedKey, b.terms.salePrice);
      EmitFrame(live, GL.ContractActivated, ActivatedKey, b.terms.salePrice);
      EmitFrame(activated, GL.DownPaymentReceived, DownPaymentKey, b.terms.downPayment);
      DeliverPostings(b, GL.RECEIVABLE);
      DeliverPostings(b, GL.UNEARNED);
      DeliverPostings(b, GL.BANK);
      Conclude(live, Deliver(b).0);
    }
  }

  lemma DeliverPostings(b: Book, account: nat)
    requires b.status.Created? && EventsOk(b) && ValidTerms(b)
    requires account == GL.RECEIVABLE || account == GL.UNEARNED || account == GL.BANK
    ensures GL.Balance(Deliver(b).0.journals, account) == GL.Balance(b.journals, account)
      + At(account, GL.RECEIVABLE, b.terms.salePrice - b.terms.downPayment) - At(account, GL.UNEARNED, b.terms.totalProfit)
      + At(account, GL.BANK, b.terms.downPayment)
  {
    var live := b.(status := Active);
    Unknown(b, ActivatedKey);
    Unknown(b, DownPaymentKey);
    var activated := Emit(live, GL.ContractActivated, ActivatedKey, b.terms.salePrice);
    assert forall k :: 0 <= k < |b.events| ==> Accounted(b, b.events[k].key) ==> Accounted(live, b.events[k].key);
    EmitFrame(live, GL.ContractActivated, ActivatedKey, b.terms.salePrice);
    StillUnknown(live, GL.ContractActivated, ActivatedKey, b.terms.salePrice, DownPaymentKey);
    EmitActivated(live, b.terms.salePrice, account);
    EmitPair(activated, GL.DownPaymentReceived, DownPaymentKey, b.terms.downPayment, GL.BANK, GL.DEPOSITS, account);
  }

  lemma {:induction false} UntouchedColumns(insts: seq<Installment>)
    requires forall i :: 0 <= i < |insts| ==> Untouched(insts[i])
    ensures var c := Cols(insts, []); c.principalPaid == c.profitPaid == c.principalOff == c.profitOff == 0
  {
    if insts != [] {
      assert Untouched(insts[0]);
      UntouchedColumns(insts[1..]);
    }
  }

  // -------------------------------------------------------------------------
  // Overdue job
  // -------------------------------------------------------------------------

  lemma FeeNotNegative(i: Installment, policy: OverduePolicy)
    requires i.principal >= 0 && i.profit >= 0 && policy.rate >= 0.0
    ensures FeeFor(i, policy) >= 0
  {
    M.TimesMonotone(i.principal + i.profit, 0.0, policy.rate);
    M.TimesShare(i.principal + i.profit, 0.0);
  }

  lemma {:induction false} AssessLaws(insts: seq<Installment>, charges: seq<Charge>, id: nat, policy: OverduePolicy)
    requires id <= |insts| && ValidCharges(charges) && Owned(charges, |insts|) && ValidInstallments(insts)
    requires policy.rate >= 0.0
    ensures var after := Assess(insts, charges, id, policy);
      && ValidCharges(after) && Owned(after, |insts|) && charges <= after
      && (forall k :: |charges| <= k < |after| ==> after[k].paid == 0 && after[k].writtenOff == 0 && after[k].status.Assessed?)
    decreases |insts| - id
  {
    if id < |insts| && Charges(insts[id], charges, id, policy) {
      var more := charges + [Charge(id, FeeFor(insts[id], policy), 0, 0, Assessed)];
      assert ValidInstallment(insts[id]);
      FeeNotNegative(insts[id], policy);
      assert forall k :: 0 <= k < |charges| ==> !Payable(charges[k], id);
      AssessLaws(insts, more, id + 1, policy);
    } else if id < |insts| {
      assert charges + [] == charges;
      AssessLaws(insts, charges, id + 1, policy);
    }
  }

  // The job never takes a contract's fees that were not waived above a cap they were within.
  lemma {:induction false} CapRespected(insts: seq<Installment>, charges: seq<Charge>, id: nat, policy: OverduePolicy)
    requires id <= |insts| && policy.cap > 0 && Sum(charges, FeeCounted) <= policy.cap
    ensures Sum(Assess(insts, charges, id, policy), FeeCounted) <= policy.cap
    decreases |insts| - id
  {
    if id < |insts| {
      var charge := Charge(id, FeeFor(insts[id], policy), 0, 0, Assessed);
      SumSnoc(charges, charge, FeeCounted);
      assert charges + [] == charges;
      CapRespected(insts, if Charges(insts[id], charges, id, policy) then charges + [charge] else charges, id + 1, policy);
    }
  }

  // Charges a job would refuse now it still refuses once more fees have been added.
  lemma StillRefused(i: Installment, charges: seq<Charge>, more: seq<Charge>, id: nat, policy: OverduePolicy)
    requires charges <= more && Sum(more, FeeCounted) >= Sum(charges, FeeCounted)
    requires !Charges(i, charges, id, policy)
    ensures !Charges(MarkedOverdue(i, policy), more, id, policy)
  {
    if AlreadyCharged(charges, id) {
      var k :| 0 <= k < |charges| && Payable(charges[k], id);
      assert Payable(more[k], id);
    }
  }

  lemma {:induction false} AssessGrows(insts: seq<Installment>, charges: seq<Charge>, id: nat, policy: OverduePolicy)
    requires id <= |insts| && ValidInstallments(insts) && policy.rate >= 0.0
    ensures var after := Assess(insts, charges, id, policy);
      charges <= after && Sum(after, FeeCounted) >= Sum(charges, FeeCounted)
    decreases |insts| - id
  {
    if id < |insts| {
      var charge := Charge(id, FeeFor(insts[id], policy), 0, 0, Assessed);
      assert ValidInstallment(insts[id]);
      FeeNotNegative(insts[id], policy);
      SumSnoc(charges, charge, FeeCounted);
      assert charges + [] == charges;
      AssessGrows(insts, if Charges(insts[id], charges, id, policy) then charges + [charge] else charges, id + 1, policy);
    }
  }

  // Every installment from `id` on is refused by the job's own outcome.
  lemma {:induction false} AssessSettles(insts: seq<Installment>, charges: seq<Charge>, id: nat, policy: OverduePolicy, k: nat)
    requires id <= k < |insts| && ValidInstallments(insts) && policy.rate >= 0.0
    ensures !Charges(MarkedOverdue(insts[k], policy), Assess(insts, charges, id, policy), k, policy)
    decreases |insts| - id
  {
    var charge := Charge(id, FeeFor(insts[id], policy), 0, 0, Assessed);
    var next := if Charges(insts[id], charges, id, policy) then charges + [charge] else charges;
    assert charges + [] == charges;
    if id < k {
      AssessSettles(insts, next, id + 1, policy, k);
    } else {
      AssessGrows(insts, next, id + 1, policy);
      if Charges(insts[id], charges, id, policy) {
        assert Payable(next[|charges|], id);
      }
      StillRefused(insts[id], next, Assess(insts, next, id + 1, policy), id, policy);
    }
  }

  lemma {:induction false} NothingToAssess(insts: seq<Installment>, charges: seq<Charge>, id: nat, policy: OverduePolicy)
    requires id <= |insts| && forall k :: id <= k < |insts| ==> !Charges(insts[k], charges, k, policy)
    ensures Assess(insts, charges, id, policy) == charges
    decreases |insts| - id
  {
    if id < |insts| {
      assert charges + [] == charges;
      NothingToAssess(insts, charges, id + 1, policy);
    }
  }

  // Running the job again on the same day charges nothing.
  lemma AssessTwice(insts: seq<Installment>, charges: seq<Charge>, policy: OverduePolicy)
    requires ValidInstallments(insts) && policy.rate >= 0.0
    ensures var after := Assess(insts, charges, 0, policy);
      Assess(MarkOverdue(insts, policy), after, 0, policy) == after
  {
    var marked, after := MarkOverdue(insts, policy), Assess(insts, charges, 0, policy);
    forall k | 0 <= k < |marked| ensures !Charges(marked[k], after, k, policy) {
      AssessSettles(insts, charges, 0, policy, k);
    }
    NothingToAssess(marked, after, 0, policy);
  }

  lemma {:induction false} NewChargeColumns(more: seq<Charge>)
    requires forall k :: 0 <= k < |more| ==> more[k].paid == 0 && more[k].writtenOff == 0 && more[k].status.Assessed?
    ensures Sum(more, FeePaidAmount) == Sum(more, FeeOffAmount) == Sum(more, FeeWaivedOf) == Sum(more, DoubledOf) == 0
  {
    if more != [] {
      NewChargeColumns(more[1..]);
    }
  }

  lemma AppendedColumns(charges: seq<Charge>, more: seq<Charge>)
    requires forall k :: 0 <= k < |more| ==> more[k].paid == 0 && more[k].writtenOff == 0 && more[k].status.Assessed?
    ensures var all := charges + more;
      && Sum(all, FeeAmount) == Sum(charges, FeeAmount) + Sum(more, FeeAmount)
      && Sum(all, FeePaidAmount) == Sum(charges, FeePaidAmount) && Sum(all, FeeOffAmount) == Sum(charges, FeeOffAmount)
      && Sum(all, FeeWaivedOf) == Sum(charges, FeeWaivedOf) && Sum(all, DoubledOf) == Sum(charges, DoubledOf)
  {
    NewChargeColumns(more);
    SumAppend(charges, more, FeeAmount);
    SumAppend(charges, more, FeePaidAmount);
    SumAppend(charges, more, FeeOffAmount);
    SumAppend(charges, more, FeeWaivedOf);
    SumAppend(charges, more, DoubledOf);
  }

  lemma {:induction false} EmitChargesEffect(b: Book, charges: seq<Charge>, c: nat, account: nat)
    requires c <= |charges| && |charges| == |b.charges| && EventsOk(b)
    requires forall k :: c <= k < |charges| ==> charges[k].amount >= 0 && !Known(b.events, ChargedKey(k))
    ensures SameRecords(b, EmitCharges(b, charges, c)) && EventsOk(EmitCharges(b, charges, c))
    ensures GL.Balance(EmitCharges(b, charges, c).journals, account) == GL.Balance(b.journals, account)
      + At(account, GL.RECEIVABLE, Sum(charges[c..], FeeAmount)) - At(account, GL.FEE_INCOME, Sum(charges[c..], FeeAmount))
    decreases |charges| - c
  {
    if c < |charges| {
      var next := Emit(b, GL.LateFeeCharged, ChargedKey(c), charges[c].amount);
      EmitFrame(b, GL.LateFeeCharged, ChargedKey(c), charges[c].amount);
      EmitPair(b, GL.LateFeeCharged, ChargedKey(c), charges[c].amount, GL.RECEIVABLE, GL.FEE_INCOME, account);
      forall k | c + 1 <= k < |charges| ensures !Known(next.events, ChargedKey(k)) {
        StillUnknown(b, GL.LateFeeCharged, ChargedKey(c), charges[c].amount, ChargedKey(k));
      }
      EmitChargesEffect(next, charges, c + 1, account);
      assert charges[c..][1..] == charges[c + 1..];
    } else {
      assert charges[c..] == [];
    }
  }

  lemma MarkColumns(insts: seq<Installment>, policy: OverduePolicy, charges: seq<Charge>)
    ensures Cols(MarkOverdue(insts, policy), charges) == Cols(insts, charges)
    ensures ValidInstallments(insts) ==> ValidInstallments(MarkOverdue(insts, policy))
  {
    var after := MarkOverdue(insts, policy);
    SumSame(after, PrincipalOf, insts, PrincipalOf);
    SumSame(after, ProfitOf, insts, ProfitOf);
    SumSame(after, PrincipalPaidOf, insts, PrincipalPaidOf);
    SumSame(after, ProfitPaidOf, insts, ProfitPaidOf);
    SumSame(after, PrincipalOffOf, insts, PrincipalOffOf);
    SumSame(after, ProfitOffOf, insts, ProfitOffOf);
  }

  // The overdue job seen from outside: new unpaid charges, amounts of the schedule untouched.
  ghost predicate AssessedInto(b: Book, a: Book, more: seq<Charge>) {
    && a == b.(installments := a.installments, charges := b.charges + more) && b.status.Active?
    && |a.installments| == |b.installments|
    && ValidInstallments(a.installments) && ValidCharges(a.charges) && Owned(a.charges, |b.installments|)
    && ColsOf(a) == ColsOf(b).(fees := ColsOf(b).fees + Sum(more, FeeAmount))
  }

  lemma AssessedRows(b: Book, a: Book, more: seq<Charge>)
    requires b in ROWS && AssessedInto(b, a, more)
    ensures a in ROWS && Receivable(a) == Receivable(b) + Sum(more, FeeAmount)
  {
    assert RowsOk(a);
  }

  lemma AssessedKeys(b: Book, a: Book, more: seq<Charge>)
    requires b in KEYS && AssessedInto(b, a, more)
    ensures a in KEYS && EventsOk(a)
  {
    assert forall k :: 0 <= k < |b.charges| ==> a.charges[k] == b.charges[k];
    assert KeysOk(a);
  }

  lemma AssessedLedger(b: Book, a: Book, more: seq<Charge>)
    requires b in LEDGERS && a.ledger == b.ledger && a.payments == b.payments && a.closure == b.closure
    requires ColsOf(a) == ColsOf(b).(fees := ColsOf(b).fees + Sum(more, FeeAmount))
    ensures a in LEDGERS
  {
    hide Sums.Sum, LedgerSum, ClosureSum;
    assert LedgerOk(a);
  }

  lemma AssessedRecords(b: Book, a: Book, more: seq<Charge>)
    requires b in SOUND && AssessedInto(b, a, more)
    ensures a in RECORDED && EventsOk(a) && Receivable(a) == Receivable(b) + Sum(more, FeeAmount)
  {
    AssessedRows(b, a, more);
    AssessedKeys(b, a, more);
    AssessedLedger(b, a, more);
  }

  lemma AssessRecords(b: Book, policy: OverduePolicy)
    requires b in SOUND && Configured(DoAssess(policy)) && b.status.Active?
    ensures var charges := Assess(b.installments, b.charges, 0, policy);
      var marked := b.(installments := MarkOverdue(b.installments, policy), charges := charges);
      && b.charges <= charges
      && marked in RECORDED && EventsOk(marked)
      && Receivable(marked) == Receivable(b) + Sum(charges[|b.charges|..], FeeAmount)
      && (forall k :: |b.charges| <= k < |charges| ==> charges[k].amount >= 0)
  {
    var charges := Assess(b.installments, b.charges, 0, policy);
    AssessLaws(b.installments, b.charges, 0, policy);
    var more := charges[|b.charges|..];
    assert charges == b.charges + more;
    AppendedColumns(b.charges, more);
    MarkColumns(b.installments, policy, charges);
    assert forall k :: |b.charges| <= k < |charges| ==> ValidCharge(charges[k]);
    AssessedRecords(b, b.(installments := MarkOverdue(b.installments, policy), charges := charges), more);
  }

  lemma AssessKeeps(b: Book, policy: OverduePolicy)
    requires b in SOUND && Configured(DoAssess(policy))
    ensures AssessOverdue(b, policy).0 in SOUND
  {
    if b.status.Active? {
      AssessRecords(b, policy);
      var charges := Assess(b.installments, b.charges, 0, policy);
      var marked := b.(installments := MarkOverdue(b.installments, policy), charges := charges);
      forall k | |b.charges| <= k < |charges| ensures !Known(marked.events, ChargedKey(k)) {
        Unknown(b, ChargedKey(k));
      }
      EmitChargesEffect(marked, charges, |b.charges|, GL.RECEIVABLE);
      EmitChargesEffect(marked, charges, |b.charges|, GL.UNEARNED);
      EmitChargesEffect(marked, charges, |b.charges|, GL.BANK);
      Conclude(marked, AssessOverdue(b, policy).0);
    }
  }

  // -------------------------------------------------------------------------
  // Payments
  // -------------------------------------------------------------------------

  function Nothing(l: W.Line): int { 0 }

  lemma {:induction false} SumNothing(lines: seq<W.Line>)
    ensures Sum(lines, Nothing) == 0
  {
    if lines != [] {
      SumNothing(lines[1..]);
    }
  }

  lemma FixedColumn(insts: seq<Installment>, lines: seq<W.Line>, f: Installment -> int)
    requires forall k :: 0 <= k < |lines| ==> lines[k].id < |insts|
    requires forall i: Installment, l: W.Line :: f(ApplyLine(i, l)) == f(i)
    ensures Sum(ApplyLines(insts, lines), f) == Sum(insts, f)
  {
    SumNothing(lines);
    assert forall i: Installment, l: W.Line :: f(ApplyLine(i, l)) == f(i) + Nothing(l);
    ApplyLinesSum(insts, lines, f, Nothing);
  }

  lemma ScheduleColumns(insts: seq<Installment>, lines: seq<W.Line>)
    requires forall k :: 0 <= k < |lines| ==> lines[k].id < |insts|
    ensures Sum(ApplyLines(insts, lines), PrincipalOf) == Sum(insts, PrincipalOf)
    ensures Sum(ApplyLines(insts, lines), ProfitOf) == Sum(insts, ProfitOf)
  {
    FixedColumn(insts, lines, PrincipalOf);
    FixedColumn(insts, lines, ProfitOf);
  }

  lemma OffColumns(insts: seq<Installment>, lines: seq<W.Line>)
    requires forall k :: 0 <= k < |lines| ==> lines[k].id < |insts|
    ensures Sum(ApplyLines(insts, lines), PrincipalOffOf) == Sum(insts, PrincipalOffOf)
    ensures Sum(ApplyLines(insts, lines), ProfitOffOf) == Sum(insts, ProfitOffOf)
  {
    FixedColumn(insts, lines, PrincipalOffOf);
    FixedColumn(insts, lines, ProfitOffOf);
  }

  lemma LinesColumns(insts: seq<Installment>, charges: seq<Charge>, lines: seq<W.Line>)
    requires forall k :: 0 <= k < |lines| ==> lines[k].id < |insts|
    ensures var c, d := Cols(insts, charges), Cols(ApplyLines(insts, lines), charges);
      d == c.(principalPaid := c.principalPaid + Sum(lines, LinePrincipal), profitPaid := c.profitPaid + Sum(lines, LineProfit))
  {
    ScheduleColumns(insts, lines);
    OffColumns(insts, lines);
    ApplyLinesSum(insts, lines, PrincipalPaidOf, LinePrincipal);
    ApplyLinesSum(insts, lines, ProfitPaidOf, LineProfit);
  }

  lemma FeesColumns(insts: seq<Installment>, charges: seq<Charge>, lines: seq<W.Line>)
    requires ValidCharges(charges) && Increasing(lines) && AllFit(lines, insts, charges)
    ensures var c, d := Cols(insts, charges), Cols(insts, ApplyFees(charges, lines));
      d == c.(feesPaid := c.feesPaid + Sum(lines, LineFee))
  {
    ApplyFeesEffect(insts, charges, lines);
    SameChargesColumns(charges, ApplyFees(charges, lines));
  }

  lemma LineEntriesSum(ledger: seq<Entry>, l: W.Line, n: nat, kind: EntryKind)
    requires l.lateFee >= 0 && l.profit >= 0 && l.principal >= 0
    ensures LedgerSum(LineEntries(ledger, l, n), kind) == LedgerSum(ledger, kind) +
      (match kind case LateFeePaid => l.lateFee case ProfitRecognized => l.profit case PrincipalPaid => l.principal case _ => 0)
    ensures ClosureSum(LineEntries(ledger, l, n), kind) == ClosureSum(ledger, kind)
  {
    var l1 := Record(ledger, LateFeePaid, l.lateFee, FromPayment(n));
    var l2 := Record(l1, ProfitRecognized, l.profit, FromPayment(n));
    RecordSum(ledger, LateFeePaid, l.lateFee, FromPayment(n), kind);
    RecordSum(l1, ProfitRecognized, l.profit, FromPayment(n), kind);
    RecordSum(l2, PrincipalPaid, l.principal, FromPayment(n), kind);
  }

  lemma {:induction false} PaymentEntriesSum(ledger: seq<Entry>, lines: seq<W.Line>, n: nat, kind: EntryKind)
    requires forall k :: 0 <= k < |lines| ==> lines[k].lateFee >= 0 && lines[k].profit >= 0 && lines[k].principal >= 0
    ensures LedgerSum(PaymentEntries(ledger, lines, n), kind) == LedgerSum(ledger, kind) +
      (match kind case LateFeePaid => Sum(lines, LineFee) case ProfitRecognized => Sum(lines, LineProfit)
       case PrincipalPaid => Sum(lines, LinePrincipal) case _ => 0)
    ensures ClosureSum(PaymentEntries(ledger, lines, n), kind) == ClosureSum(ledger, kind)
    decreases |lines|
  {
    if lines != [] {
      LineEntriesSum(ledger, lines[0], n, kind);
      PaymentEntriesSum(LineEntries(ledger, lines[0], n), lines[1..], n, kind);
    }
  }

  lemma ActiveRows(b: Book)
    requires b in ROWS && b.status.Active?
    ensures b.closure.None? && ValidInstallments(b.installments) && ValidCharges(b.charges) && Owned(b.charges, |b.installments|)
  {
  }

  lemma FittingLines(lines: seq<W.Line>, insts: seq<Installment>, charges: seq<Charge>)
    requires AllFit(lines, insts, charges)
    ensures Sum(lines, LineProfit) >= 0
    ensures forall k :: 0 <= k < |lines| ==> lines[k].id < |insts|
    ensures forall k :: 0 <= k < |lines| ==> lines[k].lateFee >= 0 && lines[k].profit >= 0 && lines[k].principal >= 0
  {
    assert forall k :: 0 <= k < |lines| ==> Fits(lines[k], insts, charges);
    SumNonNegative(lines, LineProfit);
  }

  // The plan of an accepted payment spends all of it, on lines that fit the rows.
  lemma PayPlanLaws(b: Book, reference: string, amount: int)
    requires ValidInstallments(b.installments) && ValidCharges(b.charges) && Owned(b.charges, |b.installments|)
    requires PayVerdict(b, reference, amount).Accepted?
    ensures var plan := PayPlan(b, amount);
      && plan.unallocated == 0 && plan.applied == amount
      && Sum(plan.lines, LineFee) + Sum(plan.lines, LineProfit) + Sum(plan.lines, LinePrincipal) == amount
      && Increasing(plan.lines) && AllFit(plan.lines, b.installments, b.charges)
  {
    PlanFits(amount, b.installments, b.charges);
  }

  lemma PayColumns(b: Book, lines: seq<W.Line>)
    requires ValidCharges(b.charges) && Increasing(lines) && AllFit(lines, b.installments, b.charges)
    ensures var c := ColsOf(b);
      Cols(ApplyLines(b.installments, lines), ApplyFees(b.charges, lines)) ==
      c.(principalPaid := c.principalPaid + Sum(lines, LinePrincipal), profitPaid := c.profitPaid + Sum(lines, LineProfit),
         feesPaid := c.feesPaid + Sum(lines, LineFee))
  {
    assert forall k :: 0 <= k < |lines| ==> Fits(lines[k], b.installments, b.charges);
    LinesColumns(b.installments, b.charges, lines);
    FeesColumns(b.installments, b.charges, lines);
  }

  // A payment seen from outside: rows that moved by its three parts and a ledger that recorded them.
  ghost predicate PaidBy(b: Book, a: Book, principal: int, profit: int, lateFee: int) {
    && a.terms == b.terms && a.status == b.status && a.closure == b.closure && b.status.Active?
    && a.waivers == b.waivers && a.executions == b.executions && a.events == b.events && a.journals == b.journals
    && |a.installments| == |b.installments| && |a.payments| == |b.payments| + 1
    && a.unearned == b.unearned - profit
    && Cash(a) == Cash(b) + principal + profit + lateFee
    && SameCharges(b.charges, a.charges) && ValidCharges(a.charges) && ValidInstallments(a.installments)
    && ColsOf(a) == ColsOf(b).(principalPaid := ColsOf(b).principalPaid + principal, profitPaid := ColsOf(b).profitPaid + profit,
                               feesPaid := ColsOf(b).feesPaid + lateFee)
    && (forall kind: EntryKind ::
         && LedgerSum(a.ledger, kind) == LedgerSum(b.ledger, kind) +
              (match kind case LateFeePaid => lateFee case ProfitRecognized => profit case PrincipalPaid => principal case _ => 0)
         && ClosureSum(a.ledger, kind) == ClosureSum(b.ledger, kind))
  }

  lemma PaidRows(b: Book, a: Book, principal: int, profit: int, lateFee: int)
    requires b in ROWS && PaidBy(b, a, principal, profit, lateFee)
    ensures a in ROWS && Receivable(a) == Receivable(b) - principal - profit - lateFee
  {
    assert forall k :: 0 <= k < |b.charges| ==> SameCharge(b.charges[k], a.charges[k]);
    assert RowsOk(a);
  }

  lemma PaidLedger(b: Book, a: Book, principal: int, profit: int, lateFee: int)
    requires b in LEDGERS && b in ROWS && PaidBy(b, a, principal, profit, lateFee)
    ensures a in LEDGERS
  {
    hide Sums.Sum, LedgerSum, ClosureSum;
    assert LedgerOk(a);
  }

  lemma PaidKeys(b: Book, a: Book, principal: int, profit: int, lateFee: int)
    requires b in KEYS && PaidBy(b, a, principal, profit, lateFee)
    ensures a in KEYS && EventsOk(a)
  {
    assert forall k :: 0 <= k < |b.charges| ==> SameCharge(b.charges[k], a.charges[k]);
    assert KeysOk(a);
  }

  lemma ApplyPlanPays(b: Book, reference: string, amount: int, plan: W.Allocation)
    requires ValidInstallments(b.installments) && ValidCharges(b.charges) && Owned(b.charges, |b.installments|)
    requires b.status.Active? && Increasing(plan.lines) && AllFit(plan.lines, b.installments, b.charges)
    requires Sum(plan.lines, LineFee) + Sum(plan.lines, LineProfit) + Sum(plan.lines, LinePrincipal) == amount
    ensures PaidBy(b, ApplyPlan(b, reference, amount, plan), Sum(plan.lines, LinePrincipal), Sum(plan.lines, LineProfit), Sum(plan.lines, LineFee))
  {
    var lines := plan.lines;
    PayColumns(b, lines);
    ApplyLinesValid(b.installments, b.charges, lines);
    ApplyFeesEffect(b.installments, b.charges, lines);
    SumSnoc(b.payments, Payment(reference, amount, plan.applied, plan.unallocated), PaymentAmount);
    assert forall k :: 0 <= k < |lines| ==> Fits(lines[k], b.installments, b.charges);
    forall kind: EntryKind
      ensures LedgerSum(PaymentEntries(b.ledger, lines, |b.payments|), kind) == LedgerSum(b.ledger, kind) +
        (match kind case LateFeePaid => Sum(lines, LineFee) case ProfitRecognized => Sum(lines, LineProfit)
         case PrincipalPaid => Sum(lines, LinePrincipal) case _ => 0)
      ensures ClosureSum(PaymentEntries(b.ledger, lines, |b.payments|), kind) == ClosureSum(b.ledger, kind)
    {
      PaymentEntriesSum(b.ledger, lines, |b.payments|, kind);
    }
  }

  lemma EmitPaymentPostings(a: Book, n: nat, amount: int, profit: int, account: nat)
    requires EventsOk(a) && n < |a.payments| && !Known(a.events, PaymentKey(n)) && !Known(a.events, ProfitKey(n))
    requires amount >= 0 && profit >= 0
    ensures var d := EmitPayment(a, n, amount, profit);
      && SameRecords(a, d) && EventsOk(d)
      && GL.Balance(d.journals, account) == GL.Balance(a.journals, account) + At(account, GL.BANK, amount)
        - At(account, GL.RECEIVABLE, amount) + At(account, GL.UNEARNED, profit) - At(account, GL.PROFIT_INCOME, profit)
  {
    hide Emit;
    var received := Emit(a, GL.PaymentReceived, PaymentKey(n), amount);
    EmitFrame(a, GL.PaymentReceived, PaymentKey(n), amount);
    EmitPair(a, GL.PaymentReceived, PaymentKey(n), amount, GL.BANK, GL.RECEIVABLE, account);
    if profit > 0 {
      StillUnknown(a, GL.PaymentReceived, PaymentKey(n), amount, ProfitKey(n));
      EmitFrame(received, GL.ProfitRecognized, ProfitKey(n), profit);
      EmitPair(received, GL.ProfitRecognized, ProfitKey(n), profit, GL.UNEARNED, GL.PROFIT_INCOME, account);
    }
  }

  lemma CloseRecords(b: Book)
    requires b in SOUND && b.status.Active?
    ensures var closed := b.(status := Closed, closure := Some(Normal));
      && closed in RECORDED && EventsOk(closed) && closed.closure.Some?
      && GL.Balance(closed.journals, GL.RECEIVABLE) == Receivable(closed)
      && -GL.Balance(closed.journals, GL.UNEARNED) == (if Booked(closed) then closed.unearned else 0)
      && GL.Balance(closed.journals, GL.BANK) == (if Booked(closed) then closed.terms.downPayment + Cash(closed) else 0)
  {
    var closed := b.(status := Closed, closure := Some(Normal));
    ClosedRows(b, closed);
    ClosedKeysAndLedger(b, closed);
    assert JournalsOk(b);
  }

  lemma ClosedRows(b: Book, closed: Book)
    requires b in ROWS && b.status.Active? && closed == b.(status := Closed, closure := Some(Normal))
    ensures closed in ROWS && Receivable(closed) == Receivable(b)
  {
    hide Sums.Sum;
    assert RowsOk(closed);
  }

  lemma ClosedKeysAndLedger(b: Book, closed: Book)
    requires b in KEYS && b in LEDGERS && b.closure.None? && closed == b.(status := Closed, closure := Some(Normal))
    ensures closed in KEYS && closed in LEDGERS
  {
    hide Sums.Sum, LedgerSum, ClosureSum;
    assert KeysOk(closed);
    assert LedgerOk(closed);
  }

  // A summary-only event leaves the journals alone.
  lemma CloseIfRepaidIs(b: Book)
    requires CloseIfRepaid(b) != b
    ensures b.status.Active?
    ensures CloseIfRepaid(b) == Emit(b.(status := Closed, closure := Some(Normal)), GL.ContractClosed, ClosureKey, 0)
  {
  }

  lemma SummaryEvent(b: Book, d: Book)
    requires d == Emit(b, GL.ContractClosed, ClosureKey, 0) && EventsOk(b) && b.closure.Some?
    ensures SameRecords(b, d) && EventsOk(d) && d.journals == b.journals
  {
  }

  lemma CloseIfRepaidKeeps(b: Book)
    requires b in SOUND
    ensures CloseIfRepaid(b) in SOUND
  {
    if CloseIfRepaid(b) != b {
      hide *;
      var closed := b.(status := Closed, closure := Some(Normal));
      CloseIfRepaidIs(b);
      CloseRecords(b);
      SummaryEvent(closed, CloseIfRepaid(b));
      Conclude(closed, CloseIfRepaid(b));
    }
  }

  lemma PaidSound(b: Book, a: Book, principal: int, profit: int, lateFee: int, amount: int)
    requires b in SOUND && PaidBy(b, a, principal, profit, lateFee)
    requires amount == principal + profit + lateFee >= 0 && profit >= 0
    ensures EmitPayment(a, |b.payments|, amount, profit) in SOUND
  {
    var n := |b.payments|;
    var d := EmitPayment(a, n, amount, profit);
    PaidRows(b, a, principal, profit, lateFee);
    PaidLedger(b, a, principal, profit, lateFee);
    PaidKeys(b, a, principal, profit, lateFee);
    PaidUnknown(b, a, n);
    EmitPaymentPostings(a, n, amount, profit, GL.RECEIVABLE);
    EmitPaymentPostings(a, n, amount, profit, GL.UNEARNED);
    EmitPaymentPostings(a, n, amount, profit, GL.BANK);
    PaidJournals(b, a, d, principal, profit, lateFee);
  }

  lemma PaidUnknown(b: Book, a: Book, n: nat)
    requires b in KEYS && a.events == b.events && n == |b.payments|
    ensures !Known(a.events, PaymentKey(n)) && !Known(a.events, ProfitKey(n))
  {
    Unknown(b, PaymentKey(n));
    Unknown(b, ProfitKey(n));
  }

  lemma PaidJournals(b: Book, a: Book, d: Book, principal: int, profit: int, lateFee: int)
    requires b in JOURNALS && a in RECORDED && SameRecords(a, d) && EventsOk(d) && PaidBy(b, a, principal, profit, lateFee)
    requires Receivable(a) == Receivable(b) - principal - profit - lateFee
    requires GL.Balance(d.journals, GL.RECEIVABLE) == GL.Balance(b.journals, GL.RECEIVABLE) - principal - profit - lateFee
    requires GL.Balance(d.journals, GL.UNEARNED) == GL.Balance(b.journals, GL.UNEARNED) + profit
    requires GL.Balance(d.journals, GL.BANK) == GL.Balance(b.journals, GL.BANK) + principal + profit + lateFee
    ensures d in SOUND
  {
    hide KeysOk, LedgerOk, ColsOf, Accounted;
    assert JournalsOk(b);
    Conclude(a, d);
  }

  lemma PayKeeps(b: Book, reference: string, amount: int)
    requires b in SOUND
    ensures Pay(b, reference, amount).0 in SOUND
  {
    if PayVerdict(b, reference, amount).Accepted? {
      hide Emit, EmitPayment, CloseIfRepaid, PayPlan, ApplyPlan, ValidInstallment, ValidCharge;
      var plan := PayPlan(b, amount);
      var a := ApplyPlan(b, reference, amount, plan);
      ActiveRows(b);
      PayPlanLaws(b, reference, amount);
      FittingLines(plan.lines, b.installments, b.charges);
      ApplyPlanPays(b, reference, amount, plan);
      PaidSound(b, a, Sum(plan.lines, LinePrincipal), Sum(plan.lines, LineProfit), Sum(plan.lines, LineFee), amount);
      CloseIfRepaidKeeps(EmitPayment(a, |b.payments|, amount, Sum(plan.lines, LineProfit)));
    }
  }
}
