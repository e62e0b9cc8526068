// What no run of operations can change: the signed schedule, and everything already recorded
// (app/services/ledger.py, app/services/accounting.py).
module BookHistory {
  import opened Options
  import opened Sums
  import opened Subledger
  import opened WriteOffs
  import opened Books
  import M = Money
  import W = Waterfall
  import GL = GeneralLedger

  // -------------------------------------------------------------------------
  // Rows that keep their identity
  // -------------------------------------------------------------------------

  predicate SameDue(i: Installment, j: Installment) {
    j.dueDate == i.dueDate && j.principal == i.principal && j.profit == i.profit
  }

  predicate SameSchedule(before: seq<Installment>, after: seq<Installment>) {
    |after| == |before| && forall i :: 0 <= i < |before| ==> SameDue(before[i], after[i])
  }

  // A charge keeps its installment and amount, and a waived one is never touched again.
  predicate ChargeKept(c: Charge, d: Charge) {
    d.inst == c.inst && d.amount == c.amount && (c.status.Waived? ==> d == c)
  }

  predicate ChargesKept(before: seq<Charge>, after: seq<Charge>) {
    |before| <= |after| && forall k :: 0 <= k < |before| ==> ChargeKept(before[k], after[k])
  }

  // A waiver request is decided once.
  predicate WaiverKept(w: Waiver, v: Waiver) {
    v.charge == w.charge && v.requestedBy == w.requestedBy && (!w.decision.Pending? ==> v == w)
  }

  predicate WaiversKept(before: seq<Waiver>, after: seq<Waiver>) {
    |before| <= |after| && forall k :: 0 <= k < |before| ==> WaiverKept(before[k], after[k])
  }

  predicate RowsKept(b: Book, d: Book) {
    && d.terms == b.terms && SameSchedule(b.installments, d.installments)
    && ChargesKept(b.charges, d.charges) && WaiversKept(b.waivers, d.waivers)
  }

  // No event reference is used twice.
  predicate UniqueKeys(events: seq<Event>) {
    forall j, k :: 0 <= j < k < |events| ==> events[j].key != events[k].key
  }

  // Entries, events, journals, payments and executions are only ever appended, no event reference is
  // used again, and no event gets a second journal.
  predicate RecordsKept(b: Book, d: Book) {
    && b.ledger <= d.ledger && b.events <= d.events && b.journals <= d.journals
    && b.payments <= d.payments && b.executions <= d.executions
    && (UniqueKeys(b.events) ==> UniqueKeys(d.events))
    && |d.journals| - |b.journals| <= |d.events| - |b.events|
  }

  predicate Kept(b: Book, d: Book) { RowsKept(b, d) && RecordsKept(b, d) }

  lemma KeptTrans(a: Book, b: Book, c: Book)
    requires Kept(a, b) && Kept(b, c)
    ensures Kept(a, c)
  {
    assert forall i :: 0 <= i < |a.installments| ==> SameDue(a.installments[i], b.installments[i]) && SameDue(b.installments[i], c.installments[i]);
    assert forall k :: 0 <= k < |a.charges| ==> ChargeKept(a.charges[k], b.charges[k]) && ChargeKept(b.charges[k], c.charges[k]);
    assert forall k :: 0 <= k < |a.waivers| ==> WaiverKept(a.waivers[k], b.waivers[k]) && WaiverKept(b.waivers[k], c.waivers[k]);
  }

  lemma ScheduleTrans(a: seq<Installment>, b: seq<Installment>, c: seq<Installment>)
    requires SameSchedule(a, b) && SameSchedule(b, c)
    ensures SameSchedule(a, c)
  {
    assert forall i :: 0 <= i < |a| ==> SameDue(a[i], b[i]) && SameDue(b[i], c[i]);
  }

  lemma ChargesTrans(a: seq<Charge>, b: seq<Charge>, c: seq<Charge>)
    requires ChargesKept(a, b) && ChargesKept(b, c)
    ensures ChargesKept(a, c)
  {
    assert forall k :: 0 <= k < |a| ==> ChargeKept(a[k], b[k]) && ChargeKept(b[k], c[k]);
  }

  lemma ChargesRefl(charges: seq<Charge>)
    ensures ChargesKept(charges, charges)
  {
  }

  lemma KeptRefl(b: Book)
    ensures Kept(b, b)
  {
  }

  lemma EmitKept(b: Book, kind: GL.EventType, key: Key, amount: int)
    ensures Kept(b, Emit(b, kind, key, amount))
  {
    hide GL.JournalFor, AmountsOf;
    var d := Emit(b, kind, key, amount);
    if !Known(b.events, key) {
      assert d.events == b.events + [Event(kind, key, amount)];
    }
  }

  // A step that changes rows and records and then emits.
  lemma ThenEmit(b: Book, a: Book, kind: GL.EventType, key: Key, amount: int)
    requires Kept(b, a)
    ensures Kept(b, Emit(a, kind, key, amount))
  {
    hide Kept, Emit;
    EmitKept(a, kind, key, amount);
    KeptTrans(b, a, Emit(a, kind, key, amount));
  }

  lemma RecordGrows(ledger: seq<Entry>, kind: EntryKind, amount: int, source: Source)
    ensures ledger <= Record(ledger, kind, amount, source)
  {
  }

  lemma RecordFour(l0: seq<Entry>, k1: EntryKind, a1: int, k2: EntryKind, a2: int, k3: EntryKind, a3: int, k4: EntryKind, a4: int, s: Source)
    ensures l0 <= Record(Record(Record(Record(l0, k1, a1, s), k2, a2, s), k3, a3, s), k4, a4, s)
  {
    hide Record;
    RecordGrows(l0, k1, a1, s);
    var l1 := Record(l0, k1, a1, s);
    RecordGrows(l1, k2, a2, s);
    var l2 := Record(l1, k2, a2, s);
    RecordGrows(l2, k3, a3, s);
    RecordGrows(Record(l2, k3, a3, s), k4, a4, s);
  }

  // -------------------------------------------------------------------------
  // Operation by operation
  // -------------------------------------------------------------------------

  lemma DeliverKept(b: Book)
    ensures Kept(b, Deliver(b).0)
  {
    hide Emit;
    if b.status.Created? {
      var live := b.(status := Active);
      var activated := Emit(live, GL.ContractActivated, ActivatedKey, b.terms.salePrice);
      assert Kept(b, live);
      ThenEmit(b, live, GL.ContractActivated, ActivatedKey, b.terms.salePrice);
      ThenEmit(b, activated, GL.DownPaymentReceived, DownPaymentKey, b.terms.downPayment);
    } else {
      KeptRefl(b);
    }
  }

  lemma {:induction false} EmitChargesKept(b: Book, charges: seq<Charge>, c: nat)
    ensures Kept(b, EmitCharges(b, charges, c))
    decreases |charges| - c
  {
    hide Kept, Emit;
    if c >= |charges| {
      KeptRefl(b);
    } else {
      var d := Emit(b, GL.LateFeeCharged, ChargedKey(c), charges[c].amount);
      EmitKept(b, GL.LateFeeCharged, ChargedKey(c), charges[c].amount);
      EmitChargesKept(d, charges, c + 1);
      KeptTrans(b, d, EmitCharges(d, charges, c + 1));
    }
  }

  lemma {:induction false} AssessAppends(insts: seq<Installment>, charges: seq<Charge>, id: nat, policy: OverduePolicy)
    requires id <= |insts|
    ensures charges <= Assess(insts, charges, id, policy)
    decreases |insts| - id
  {
    hide Charges, FeeFor;
    if id < |insts| {
      var more := if Charges(insts[id], charges, id, policy) then [Charge(id, FeeFor(insts[id], policy), 0, 0, Assessed)] else [];
      AssessAppends(insts, charges + more, id + 1, policy);
      assert charges <= charges + more;
    }
  }

  lemma AssessKept(b: Book, policy: OverduePolicy)
    ensures Kept(b, AssessOverdue(b, policy).0)
  {
    hide EmitCharges, Assess;
    if b.status.Active? {
      var charges := Assess(b.installments, b.charges, 0, policy);
      AssessAppends(b.installments, b.charges, 0, policy);
      var marked := b.(installments := MarkOverdue(b.installments, policy), charges := charges);
      assert Kept(b, marked);
      EmitChargesKept(marked, charges, |b.charges|);
      KeptTrans(b, marked, EmitCharges(marked, charges, |b.charges|));
    } else {
      KeptRefl(b);
    }
  }

  lemma {:induction false} ApplyLinesKept(insts: seq<Installment>, lines: seq<W.Line>)
    ensures SameSchedule(insts, ApplyLines(insts, lines))
    decreases |lines|
  {
    if lines != [] {
      var next := ApplyAt(insts, lines[0]);
      assert SameSchedule(insts, next);
      ApplyLinesKept(next, lines[1..]);
      ScheduleTrans(insts, next, ApplyLines(next, lines[1..]));
    }
  }

  lemma {:induction false} ApplyFeeKept(charges: seq<Charge>, i: nat, amount: int)
    ensures ChargesKept(charges, ApplyFee(charges, i, amount))
  {
    if charges != [] {
      var take := FeeTake(charges[0], i, amount);
      ApplyFeeKept(charges[1..], i, amount - take);
      var after, rest := ApplyFee(charges, i, amount), ApplyFee(charges[1..], i, amount - take);
      forall k | 0 <= k < |charges| ensures ChargeKept(charges[k], after[k]) {
        if k > 0 { assert ChargeKept(charges[1..][k - 1], rest[k - 1]); }
      }
    }
  }

  lemma {:induction false} ApplyFeesKept(charges: seq<Charge>, lines: seq<W.Line>)
    ensures ChargesKept(charges, ApplyFees(charges, lines))
    decreases |lines|
  {
    hide ApplyFee, ChargesKept;
    if lines == [] {
      ChargesRefl(charges);
    } else {
      var next := ApplyFee(charges, lines[0].id, lines[0].lateFee);
      ApplyFeeKept(charges, lines[0].id, lines[0].lateFee);
      ApplyFeesKept(next, lines[1..]);
      ChargesTrans(charges, next, ApplyFees(next, lines[1..]));
    }
  }

  lemma {:induction false} PaymentEntriesGrow(ledger: seq<Entry>, lines: seq<W.Line>, payment: nat)
    ensures ledger <= PaymentEntries(ledger, lines, payment)
    decreases |lines|
  {
    if lines != [] {
      PaymentEntriesGrow(LineEntries(ledger, lines[0], payment), lines[1..], payment);
    }
  }

  lemma ApplyPlanKept(b: Book, reference: string, amount: int, plan: W.Allocation)
    ensures Kept(b, ApplyPlan(b, reference, amount, plan))
  {
    hide ApplyLines, ApplyFees, PaymentEntries;
    ApplyLinesKept(b.installments, plan.lines);
    ApplyFeesKept(b.charges, plan.lines);
    PaymentEntriesGrow(b.ledger, plan.lines, |b.payments|);
  }

  lemma EmitPaymentKept(b: Book, a: Book, n: nat, amount: int, profit: int)
    requires Kept(b, a)
    ensures Kept(b, EmitPayment(a, n, amount, profit))
  {
    hide Kept, Emit;
    ThenEmit(b, a, GL.PaymentReceived, PaymentKey(n), amount);
    ThenEmit(b, Emit(a, GL.PaymentReceived, PaymentKey(n), amount), GL.ProfitRecognized, ProfitKey(n), profit);
  }

  lemma CloseIfRepaidKept(b: Book, a: Book)
    requires Kept(b, a)
    ensures Kept(b, CloseIfRepaid(a))
  {
    hide Emit;
    var closed := a.(status := Closed, closure := Some(Normal));
    assert Kept(b, closed);
    ThenEmit(b, closed, GL.ContractClosed, ClosureKey, 0);
  }

  lemma PayKept(b: Book, reference: string, amount: int)
    ensures Kept(b, Pay(b, reference, amount).0)
  {
    hide Kept, ApplyPlan, EmitPayment, CloseIfRepaid, PayPlan, PayVerdict;
    if PayVerdict(b, reference, amount).Accepted? {
      var plan := PayPlan(b, amount);
      var applied := ApplyPlan(b, reference, amount, plan);
      ApplyPlanKept(b, reference, amount, plan);
      EmitPaymentKept(b, applied, |b.payments|, amount, Sum(plan.lines, LineProfit));
      CloseIfRepaidKept(b, EmitPayment(applied, |b.payments|, amount, Sum(plan.lines, LineProfit)));
    } else {
      KeptRefl(b);
    }
  }

  lemma WaiveKept(b: Book, a: Book, charge: nat, request: nat)
    requires Kept(b, a) && charge < |a.charges|
    ensures Kept(b, Waive(a, charge, request))
  {
    hide Emit;
    var c := a.charges[charge];
    var waived := a.(charges := a.charges[charge := c.(status := Waived)],
                     ledger := Record(a.ledger, LateFeeWaived, c.amount - c.paid, FromApproval(request)));
    assert Kept(a, waived);
    KeptTrans(b, a, waived);
    ThenEmit(b, waived, GL.LateFeeWaived, WaivedKey(charge), c.amount - c.paid);
  }

  lemma DecideKept(b: Book, request: nat, user: nat, approve: bool)
    ensures Kept(b, DecideWaiver(b, request, user, approve).0)
  {
    hide Waive;
    if request < |b.waivers| && b.waivers[request].decision.Pending? {
      var w := b.waivers[request].(decision := if approve then Approved else Rejected, decidedBy := user);
      var decided := b.(waivers := b.waivers[request := w]);
      assert Kept(b, decided);
      if w.charge < |b.charges| {
        WaiveKept(b, decided, w.charge, request);
      }
    }
  }

  lemma CloseOutKept(b: Book, a: Book)
    requires a.terms == b.terms && a.waivers == b.waivers && RecordsKept(b, a)
    requires a.installments == CloseOutInstallments(b.installments) && a.charges == CloseOutCharges(b.charges)
    ensures Kept(b, a)
  {
    assert forall i :: 0 <= i < |b.installments| ==> SameDue(b.installments[i], a.installments[i]);
    assert forall k :: 0 <= k < |b.charges| ==> ChargeKept(b.charges[k], a.charges[k]);
  }

  lemma SettleKept(b: Book, reference: string, q: Quote)
    ensures Kept(b, SettleWith(b, reference, q))
  {
    hide Emit, Record;
    var a := CloseOut(b).(payments := b.payments + [Payment(reference, q.payoff, q.payoff, 0)],
                          status := Closed, closure := Some(EarlySettlement), ledger := SettlementEntries(b.ledger, q));
    RecordFour(b.ledger, PrincipalPaid, q.principal, LateFeePaid, q.lateFees, ProfitRecognized, q.charged, ProfitRebated, q.rebate, FromClosure);
    CloseOutKept(b, a);
    ThenEmit(b, a, GL.EarlySettlement, ClosureKey, 0);
  }

  lemma ReturnKept(b: Book, q: Quote, net: int)
    ensures Kept(b, ReturnWith(b, q, net))
  {
    hide Emit, Record;
    var entries := ReturnEntries(b.ledger, q);
    var a := CloseOut(b).(status := Closed, closure := Some(Return),
                          ledger := if net != 0 then entries + [Entry(RefundIssued, net, FromClosure)] else entries);
    RecordFour(b.ledger, ReturnPrincipal, q.principal, ReturnLateFee, q.lateFees, ReturnRetained, q.charged, ReturnWaived, q.rebate, FromClosure);
    CloseOutKept(b, a);
    ThenEmit(b, a, GL.Return, ClosureKey, net);
  }

  lemma CancelKept(b: Book, refund: int)
    ensures var a := b.(unearned := 0, status := Closed, closure := Some(Cancellation),
                        ledger := Record(b.ledger, RefundIssued, refund, FromClosure));
      Kept(b, Emit(a, GL.Cancellation, ClosureKey, refund))
  {
    hide Emit;
    var a := b.(unearned := 0, status := Closed, closure := Some(Cancellation), ledger := Record(b.ledger, RefundIssued, refund, FromClosure));
    assert Kept(b, a);
    ThenEmit(b, a, GL.Cancellation, ClosureKey, refund);
  }

  lemma {:induction false} SweepKept(insts: seq<Installment>, part: Component, amount: int)
    ensures SameSchedule(insts, Sweep(insts, part, amount))
  {
    if insts != [] {
      var take := W.Take(amount, Part(insts[0], part));
      var rest := Sweep(insts[1..], part, amount - take);
      SweepKept(insts[1..], part, amount - take);
      forall i | 0 <= i < |insts| ensures SameDue(insts[i], Sweep(insts, part, amount)[i]) {
        if i > 0 { assert SameDue(insts[1..][i - 1], rest[i - 1]); }
      }
    }
  }

  lemma {:induction false} SweepFeesKept(charges: seq<Charge>, amount: int)
    ensures ChargesKept(charges, SweepFees(charges, amount))
  {
    if charges != [] {
      var take := W.Take(amount, charges[0].Outstanding());
      var rest := SweepFees(charges[1..], amount - take);
      SweepFeesKept(charges[1..], amount - take);
      forall k | 0 <= k < |charges| ensures ChargeKept(charges[k], SweepFees(charges, amount)[k]) {
        if k > 0 { assert ChargeKept(charges[1..][k - 1], rest[k - 1]); }
      }
    }
  }

  lemma {:induction false} SweepEntriesGrow(ledger: seq<Entry>, insts: seq<Installment>, part: Component, amount: int, n: nat)
    ensures ledger <= SweepEntries(ledger, insts, part, amount, n)
    decreases |insts|
  {
    if insts != [] {
      var take := W.Take(amount, Part(insts[0], part));
      SweepEntriesGrow(Record(ledger, if part.PrincipalPart? then PrincipalOff else ProfitOff, take, FromWriteOff(n)),
                       insts[1..], part, amount - take, n);
    }
  }

  lemma {:induction false} SweepFeeEntriesGrow(ledger: seq<Entry>, charges: seq<Charge>, amount: int, n: nat)
    ensures ledger <= SweepFeeEntries(ledger, charges, amount, n)
    decreases |charges|
  {
    if charges != [] {
      var take := W.Take(amount, charges[0].Outstanding());
      SweepFeeEntriesGrow(Record(ledger, LateFeeOff, take, FromWriteOff(n)), charges[1..], amount - take, n);
    }
  }

  lemma SweptKept(b: Book, x: Execution)
    ensures Kept(b, Swept(b, x))
  {
    hide Sweep, SweepFees, SweepEntries, SweepFeeEntries;
    var n, first := |b.executions|, Sweep(b.installments, PrincipalPart, x.principal);
    var l1 := SweepEntries(b.ledger, b.installments, PrincipalPart, x.principal, n);
    SweepKept(b.installments, PrincipalPart, x.principal);
    SweepKept(first, ProfitPart, x.profit);
    ScheduleTrans(b.installments, first, Sweep(first, ProfitPart, x.profit));
    SweepFeesKept(b.charges, x.lateFee);
    SweepEntriesGrow(b.ledger, b.installments, PrincipalPart, x.principal, n);
    SweepEntriesGrow(l1, first, ProfitPart, x.profit, n);
    SweepFeeEntriesGrow(SweepEntries(l1, first, ProfitPart, x.profit, n), b.charges, x.lateFee, n);
  }

  lemma WriteOffKept(b: Book, full: bool, x: Execution)
    ensures Kept(b, WriteOffWith(b, full, x))
  {
    hide Emit, Swept;
    var n, kind := |b.executions|, if full then GL.WriteOffExecuted else GL.PartialWriteOffExecuted;
    var swept := Swept(b, x);
    var closed := if full then swept.(status := Closed, closure := Some(WriteOff)) else swept;
    SweptKept(b, x);
    assert Kept(b, closed);
    ThenEmit(b, closed, kind, WriteOffKey(n), x.Total());
    ThenEmit(b, Emit(closed, kind, WriteOffKey(n), x.Total()), GL.EclReleased, ReleaseKey(n), -x.provision);
  }

  // -------------------------------------------------------------------------
  // Runs
  // -------------------------------------------------------------------------

  lemma StepKept(b: Book, c: Command)
    ensures Kept(b, Step(b, c))
  {
    hide Kept, SettleWith, ReturnWith, WriteOffWith, Emit, QuoteFor, Pay, DecideWaiver, Deliver, AssessOverdue;
    KeptRefl(b);
    match c
    case DoDeliver => DeliverKept(b);
    case DoAssess(policy) => AssessKept(b, policy);
    case DoPay(reference, amount) => PayKept(b, reference, amount);
    case DoRequestWaiver(charge, user) => RequestKept(b, charge, user);
    case DoDecideWaiver(request, user, approve) => DecideKept(b, request, user, approve);
    case DoSettle(reference, amount, rebate, pct) =>
      if QuoteFor(b, rebate, pct).Quoted? { SettleKept(b, reference, QuoteFor(b, rebate, pct).quote); }
    case DoReturn(pct, refund) =>
      if QuoteFor(b, NoRequest, pct).Quoted? {
        var q := QuoteFor(b, NoRequest, pct).quote;
        ReturnKept(b, q, M.Times(b.terms.downPayment, refund) - q.payoff);
      }
    case DoCancel(refund) => CancelKept(b, M.Times(b.terms.downPayment, refund));
    case DoWriteOff(full, x) => WriteOffKept(b, full, x);
  }

  lemma RequestKept(b: Book, charge: nat, user: nat)
    ensures Kept(b, RequestWaiver(b, charge, user).0)
  {
  }

  // Whatever is done, in whatever order and under whatever configuration: the signed schedule stands,
  // a charge keeps its amount and a waived one stays waived, a decided request stays decided, and the
  // ledger, the events, the journals, the payments and the executions only grow.
  lemma {:induction false} HistoryIsKept(b: Book, commands: seq<Command>)
    ensures Kept(b, Run(b, commands))
    decreases |commands|
  {
    hide Kept, Step;
    if commands == [] {
      KeptRefl(b);
    } else {
      var d := Step(b, commands[0]);
      StepKept(b, commands[0]);
      HistoryIsKept(d, commands[1..]);
      KeptTrans(b, d, Run(d, commands[1..]));
    }
  }
}
