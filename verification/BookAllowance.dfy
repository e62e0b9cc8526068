// What a contract's own journals put on the allowance account: only its write-offs touch it, each
// for what its rule draws and for the provision it releases (app/services/write_off.py).
module BookAllowance {
  import opened Options
  import opened Sums
  import opened Subledger
  import opened WriteOffs
  import opened Books
  import opened Postings
  import M = Money
  import GL = GeneralLedger

  function Drawn(x: Execution): int { CoveredAmount(x) + ReleasedAmount(x) }

  predicate OfWriteOff(key: Key) { key.WriteOffKey? || key.ReleaseKey? }

  // The allowance account carries what the executions drew, and no event speaks of a later one.
  predicate AllowanceOk(b: Book) {
    && GL.Balance(b.journals, GL.ALLOWANCE) == Sum(b.executions, Drawn)
    && (forall k :: 0 <= k < |b.events| && OfWriteOff(b.events[k].key) ==> b.events[k].key.execution < |b.executions|)
  }

  // -------------------------------------------------------------------------
  // Rules without a line on the account
  // -------------------------------------------------------------------------

  predicate Elsewhere(lines: seq<GL.MapLine>, account: nat) {
    forall k :: 0 <= k < |lines| ==> lines[k].account != account
  }

  lemma {:induction false} BuildElsewhere(lines: seq<GL.MapLine>, amounts: GL.Amounts, account: nat)
    requires Elsewhere(lines, account)
    ensures GL.Build(lines, amounts).Some? ==> GL.Net(GL.Build(lines, amounts).value, Some(account)) == 0
  {
    if lines != [] && GL.Build(lines, amounts).Some? {
      var init, last := lines[..|lines| - 1], lines[|lines| - 1];
      BuildElsewhere(init, amounts, account);
      GL.NetOfPosted(GL.Build(init, amounts).value, last, amounts(last.source).value, Some(account));
    }
  }

  // Resolvable or not, such an event leaves the account alone.
  lemma EmitElsewhere(b: Book, kind: GL.EventType, key: Key, amount: int, account: nat)
    requires Elsewhere(RuleOf(kind), account)
    ensures GL.Balance(Emit(b, kind, key, amount).journals, account) == GL.Balance(b.journals, account)
  {
    hide GL.Seed, GL.Balance, GL.Build, AmountsOf, Elsewhere;
    var amounts := AmountsOf(b, Event(kind, key, amount));
    BuildElsewhere(RuleOf(kind), amounts, account);
    if GL.JournalFor(kind, amounts).Some? {
      BalanceSnoc(b.journals, GL.JournalFor(kind, amounts).value, account);
    }
  }

  predicate WritesOff(kind: GL.EventType) {
    kind.WriteOffExecuted? || kind.PartialWriteOffExecuted? || kind.EclCreated? || kind.EclIncreased? || kind.EclReleased?
    || kind.EclOverrideAdjustment?
  }

  lemma AllowanceElsewhere(kind: GL.EventType)
    requires !WritesOff(kind)
    ensures Elsewhere(RuleOf(kind), GL.ALLOWANCE)
  {
  }

  // -------------------------------------------------------------------------
  // Operations that write nothing off
  // -------------------------------------------------------------------------

  predicate NoWriteOffs(events: seq<Event>) { forall k :: 0 <= k < |events| ==> !OfWriteOff(events[k].key) }

  predicate Quiet(b: Book, d: Book) {
    && d.executions == b.executions && GL.Balance(d.journals, GL.ALLOWANCE) == GL.Balance(b.journals, GL.ALLOWANCE)
    && b.events <= d.events && NoWriteOffs(d.events[|b.events|..])
  }

  lemma QuietKeeps(b: Book, d: Book)
    requires AllowanceOk(b) && Quiet(b, d)
    ensures AllowanceOk(d)
  {
    hide Sums.Sum, GL.Balance;
    forall k | |b.events| <= k < |d.events| ensures !OfWriteOff(d.events[k].key) {
      assert d.events[|b.events|..][k - |b.events|] == d.events[k];
    }
    assert forall k :: 0 <= k < |b.events| ==> d.events[k] == b.events[k];
  }

  // Rows may change freely before an event that is not a write-off's.
  lemma ThenEmit(b: Book, a: Book, kind: GL.EventType, key: Key, amount: int)
    requires Quiet(b, a) && !WritesOff(kind) && !OfWriteOff(key)
    ensures Quiet(b, Emit(a, kind, key, amount))
  {
    hide GL.JournalFor, GL.Balance, AmountsOf, Known;
    AllowanceElsewhere(kind);
    EmitElsewhere(a, kind, key, amount, GL.ALLOWANCE);
    var d := Emit(a, kind, key, amount);
    if d.events != a.events {
      assert d.events[|b.events|..] == a.events[|b.events|..] + [Event(kind, key, amount)];
    }
  }

  lemma QuietRows(b: Book, d: Book)
    requires d.executions == b.executions && d.journals == b.journals && d.events == b.events
    ensures Quiet(b, d)
  {
  }

  lemma DeliverQuiet(b: Book)
    ensures Quiet(b, Deliver(b).0)
  {
    hide Emit, Quiet;
    var live := b.(status := Active);
    QuietRows(b, b);
    QuietRows(b, live);
    ThenEmit(b, live, GL.ContractActivated, ActivatedKey, b.terms.salePrice);
    ThenEmit(b, Emit(live, GL.ContractActivated, ActivatedKey, b.terms.salePrice), GL.DownPaymentReceived, DownPaymentKey, b.terms.downPayment);
  }

  lemma {:induction false} ChargesQuiet(b: Book, a: Book, charges: seq<Charge>, c: nat)
    requires Quiet(b, a)
    ensures Quiet(b, EmitCharges(a, charges, c))
    decreases |charges| - c
  {
    hide Emit, Quiet;
    if c < |charges| {
      ThenEmit(b, a, GL.LateFeeCharged, ChargedKey(c), charges[c].amount);
      ChargesQuiet(b, Emit(a, GL.LateFeeCharged, ChargedKey(c), charges[c].amount), charges, c + 1);
    }
  }

  lemma AssessQuiet(b: Book, policy: OverduePolicy)
    ensures Quiet(b, AssessOverdue(b, policy).0)
  {
    hide EmitCharges, Quiet, Assess, MarkOverdue;
    var charges := Assess(b.installments, b.charges, 0, policy);
    var marked := b.(installments := MarkOverdue(b.installments, policy), charges := charges);
    QuietRows(b, b);
    QuietRows(b, marked);
    ChargesQuiet(b, marked, charges, |b.charges|);
  }

  lemma EmitPaymentQuiet(b: Book, a: Book, n: nat, amount: int, profit: int)
    requires Quiet(b, a)
    ensures Quiet(b, EmitPayment(a, n, amount, profit))
  {
    hide Emit, Quiet;
    ThenEmit(b, a, GL.PaymentReceived, PaymentKey(n), amount);
    ThenEmit(b, Emit(a, GL.PaymentReceived, PaymentKey(n), amount), GL.ProfitRecognized, ProfitKey(n), profit);
  }

  lemma CloseQuiet(b: Book, a: Book)
    requires Quiet(b, a)
    ensures Quiet(b, CloseIfRepaid(a))
  {
    hide Emit;
    ThenEmit(b, a.(status := Closed, closure := Some(Normal)), GL.ContractClosed, ClosureKey, 0);
  }

  lemma PayQuiet(b: Book, reference: string, amount: int)
    ensures Quiet(b, Pay(b, reference, amount).0)
  {
    hide Quiet, EmitPayment, CloseIfRepaid, PayPlan, PayVerdict, ApplyLines, ApplyFees, PaymentEntries;
    QuietRows(b, b);
    var plan := PayPlan(b, amount);
    var applied := ApplyPlan(b, reference, amount, plan);
    QuietRows(b, applied);
    EmitPaymentQuiet(b, applied, |b.payments|, amount, Sum(plan.lines, LineProfit));
    CloseQuiet(b, EmitPayment(applied, |b.payments|, amount, Sum(plan.lines, LineProfit)));
  }

  lemma DecideQuiet(b: Book, request: nat, user: nat, approve: bool)
    ensures Quiet(b, DecideWaiver(b, request, user, approve).0)
  {
    hide Emit, Quiet;
    QuietRows(b, b);
    if request < |b.waivers| && b.waivers[request].decision.Pending? {
      var w := b.waivers[request].(decision := if approve then Approved else Rejected, decidedBy := user);
      var decided := b.(waivers := b.waivers[request := w]);
      QuietRows(b, decided);
      if w.charge < |b.charges| {
        var c := b.charges[w.charge];
        var waived := decided.(charges := b.charges[w.charge := c.(status := Waived)],
                               ledger := Record(b.ledger, LateFeeWaived, c.amount - c.paid, FromApproval(request)));
        QuietRows(b, waived);
        ThenEmit(b, waived, GL.LateFeeWaived, WaivedKey(w.charge), c.amount - c.paid);
      }
    }
  }

  lemma SettleQuiet(b: Book, reference: string, q: Quote)
    ensures Quiet(b, SettleWith(b, reference, q))
  {
    hide Emit, Quiet, SettlementEntries;
    var a := CloseOut(b).(payments := b.payments + [Payment(reference, q.payoff, q.payoff, 0)],
                          status := Closed, closure := Some(EarlySettlement), ledger := SettlementEntries(b.ledger, q));
    QuietRows(b, a);
    ThenEmit(b, a, GL.EarlySettlement, ClosureKey, 0);
  }

  lemma ReturnQuiet(b: Book, q: Quote, net: int)
    ensures Quiet(b, ReturnWith(b, q, net))
  {
    hide Emit, Quiet, ReturnEntries;
    var entries := ReturnEntries(b.ledger, q);
    var a := CloseOut(b).(status := Closed, closure := Some(Return),
                          ledger := if net != 0 then entries + [Entry(RefundIssued, net, FromClosure)] else entries);
    QuietRows(b, a);
    ThenEmit(b, a, GL.Return, ClosureKey, net);
  }

  lemma CancelQuiet(b: Book, refund: int)
    ensures var a := b.(unearned := 0, status := Closed, closure := Some(Cancellation),
                        ledger := Record(b.ledger, RefundIssued, refund, FromClosure));
      Quiet(b, Emit(a, GL.Cancellation, ClosureKey, refund))
  {
    hide Emit, Quiet, Record;
    var a := b.(unearned := 0, status := Closed, closure := Some(Cancellation), ledger := Record(b.ledger, RefundIssued, refund, FromClosure));
    QuietRows(b, a);
    ThenEmit(b, a, GL.Cancellation, ClosureKey, refund);
  }

  lemma StepQuiet(b: Book, c: Command)
    requires !c.DoWriteOff?
    ensures Quiet(b, Step(b, c))
  {
    hide Quiet, SettleWith, ReturnWith, Emit, QuoteFor, Pay, DecideWaiver, Deliver, AssessOverdue;
    QuietRows(b, b);
    match c
    case DoDeliver => DeliverQuiet(b);
    case DoAssess(policy) => AssessQuiet(b, policy);
    case DoPay(reference, amount) => PayQuiet(b, reference, amount);
    case DoRequestWaiver(charge, user) => QuietRows(b, RequestWaiver(b, charge, user).0);
    case DoDecideWaiver(request, user, approve) => DecideQuiet(b, request, user, approve);
    case DoSettle(reference, amount, rebate, pct) =>
      if QuoteFor(b, rebate, pct).Quoted? { SettleQuiet(b, reference, QuoteFor(b, rebate, pct).quote); }
    case DoReturn(pct, refund) =>
      if QuoteFor(b, NoRequest, pct).Quoted? {
        var q := QuoteFor(b, NoRequest, pct).quote;
        ReturnQuiet(b, q, M.Times(b.terms.downPayment, refund) - q.payoff);
      }
    case DoCancel(refund) => CancelQuiet(b, M.Times(b.terms.downPayment, refund));
  }

  // -------------------------------------------------------------------------
  // Write-offs
  // -------------------------------------------------------------------------

  // The booking of execution n: what the provision covers, and nothing when the rule cannot be resolved.
  lemma BookingDraws(a: Book, kind: GL.EventType, n: nat)
    requires kind == GL.WriteOffExecuted || kind == GL.PartialWriteOffExecuted
    requires n < |a.executions| && NothingNegative(a.executions[n]) && !Known(a.events, WriteOffKey(n))
    ensures GL.Balance(Emit(a, kind, WriteOffKey(n), a.executions[n].Total()).journals, GL.ALLOWANCE) ==
      GL.Balance(a.journals, GL.ALLOWANCE) + CoveredAmount(a.executions[n])
  {
    hide GL.Balance, GL.Build, Resolve;
    var x, e := a.executions[n], Event(kind, WriteOffKey(n), a.executions[n].Total());
    if x.provision >= 0 {
      EmitWriteOff(a, kind, n, x.Total(), GL.ALLOWANCE);
    } else {
      ReadsExecution(a, e);
      Unresolvable(AmountsOf(a, e), Min(x.provision, x.Total()));
      BalanceSnoc(a.journals, GL.JournalFor(kind, AmountsOf(a, e)).value, GL.ALLOWANCE);
    }
  }

  lemma ReleaseDraws(a: Book, n: nat, x: Execution)
    requires !Known(a.events, ReleaseKey(n))
    ensures GL.Balance(Release(a, n, x).journals, GL.ALLOWANCE) == GL.Balance(a.journals, GL.ALLOWANCE) + ReleasedAmount(x)
  {
    hide GL.Balance, Emit;
    if x.provision > 0 {
      EmitSignedPair(a, GL.EclReleased, ReleaseKey(n), -x.provision, GL.IMPAIRMENT, GL.ALLOWANCE, GL.ALLOWANCE);
    }
  }

  lemma StillFree(a: Book, kind: GL.EventType, n: nat, amount: int)
    requires !Known(a.events, ReleaseKey(n))
    ensures !Known(Emit(a, kind, WriteOffKey(n), amount).events, ReleaseKey(n))
  {
  }

  lemma ExecutionDraws(a: Book, kind: GL.EventType, n: nat)
    requires kind == GL.WriteOffExecuted || kind == GL.PartialWriteOffExecuted
    requires n < |a.executions| && NothingNegative(a.executions[n])
    requires !Known(a.events, WriteOffKey(n)) && !Known(a.events, ReleaseKey(n))
    ensures var x := a.executions[n]; var d := Release(Emit(a, kind, WriteOffKey(n), x.Total()), n, x);
      GL.Balance(d.journals, GL.ALLOWANCE) == GL.Balance(a.journals, GL.ALLOWANCE) + Drawn(x)
  {
    hide GL.Balance, Emit, Release;
    BookingDraws(a, kind, n);
    StillFree(a, kind, n, a.executions[n].Total());
    ReleaseDraws(Emit(a, kind, WriteOffKey(n), a.executions[n].Total()), n, a.executions[n]);
  }

  // The events of an execution, and nothing else, are new.
  lemma ExecutionEvents(a: Book, kind: GL.EventType, n: nat, x: Execution)
    ensures var d := Release(Emit(a, kind, WriteOffKey(n), x.Total()), n, x);
      && d.executions == a.executions && a.events <= d.events
      && forall k :: |a.events| <= k < |d.events| ==> d.events[k].key == WriteOffKey(n) || d.events[k].key == ReleaseKey(n)
  {
    hide GL.JournalFor, AmountsOf, Known;
  }

  lemma WriteOffKeeps(b: Book, a: Book, kind: GL.EventType, x: Execution)
    requires AllowanceOk(b) && NothingNegative(x)
    requires kind == GL.WriteOffExecuted || kind == GL.PartialWriteOffExecuted
    requires a.executions == b.executions + [x] && a.journals == b.journals && a.events == b.events
    ensures AllowanceOk(Release(Emit(a, kind, WriteOffKey(|b.executions|), x.Total()), |b.executions|, x))
  {
    hide GL.Balance, Emit, Release, Sums.Sum, Drawn;
    ExecutionDraws(a, kind, |b.executions|);
    ExecutionEvents(a, kind, |b.executions|, x);
    SumSnoc(b.executions, x, Drawn);
  }

  lemma StepWritesOff(b: Book, full: bool, x: Execution)
    requires AllowanceOk(b) && NothingNegative(x)
    ensures AllowanceOk(ExecuteWriteOff(b, full, x).0)
    ensures ExecuteWriteOff(b, full, x).0.executions == if ExecuteWriteOff(b, full, x).1.Accepted? then b.executions + [x] else b.executions
  {
    hide AllowanceOk, Emit, Sweep, SweepFees, SweepEntries, SweepFeeEntries, Sums.Sum;
    if ExecuteWriteOff(b, full, x).1.Accepted? {
      var n, kind, swept := |b.executions|, if full then GL.WriteOffExecuted else GL.PartialWriteOffExecuted, Swept(b, x);
      var a := if full then swept.(status := Closed, closure := Some(WriteOff)) else swept;
      WriteOffKeeps(b, a, kind, x);
      ExecutionEvents(a, kind, n, x);
    }
  }
}
