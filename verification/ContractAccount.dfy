// The contract as the services hold it: an object whose rows they update in place.  Every method
// is proved to do exactly what its function in Books says, so the theorems about runs of Books
// are theorems about this object.
module ContractAccounts {
  import opened Options
  import opened Sums
  import opened Subledger
  import opened SubledgerLaws
  import opened WriteOffs
  import opened Books
  import opened Reconciliation
  import opened BookTheorems
  import opened AccountLoops
  import M = Money
  import W = Waterfall
  import GL = GeneralLedger

  class ContractAccount {
    const terms: Terms
    var status: ContractStatus
    var closure: Option<Closure>
    var installments: seq<Installment>
    var charges: seq<Charge>
    var unearned: int
    var payments: seq<Payment>
    var waivers: seq<Waiver>
    var executions: seq<Execution>
    var ledger: seq<Entry>
    var events: seq<Event>
    var journals: seq<GL.Journal>

    function Model(): Book
      reads this
    {
      Book(terms, status, closure, installments, charges, unearned, payments, waivers, executions, ledger, events, journals)
    }

    // A contract signed on a priced schedule.
    constructor (terms: Terms, schedule: seq<Installment>)
      ensures Model() == Book(terms, Created, None, schedule, [], terms.totalProfit, [], [], [], [], [], [])
    {
      this.terms := terms;
      status, closure, unearned := Created, None, terms.totalProfit;
      installments, charges := schedule, [];
      payments, waivers, executions := [], [], [];
      ledger, events, journals := [], [], [];
    }

    // record_entry(): the ledger only grows.
    method RecordEntry(kind: EntryKind, amount: int, source: Source)
      modifies this`ledger
      ensures ledger == old(ledger) + [Entry(kind, amount, source)]
    {
      ledger := ledger + [Entry(kind, amount, source)];
    }

    method RecordPositive(kind: EntryKind, amount: int, source: Source)
      modifies this`ledger
      ensures ledger == Record(old(ledger), kind, amount, source)
    {
      if amount > 0 {
        RecordEntry(kind, amount, source);
      }
    }

    method EmitEvent(kind: GL.EventType, key: Key, amount: int)
      modifies this`events, this`journals
      ensures Model() == Emit(old(Model()), kind, key, amount)
    {
      hide GL.JournalUnder, Resolve;
      for k := 0 to |events|
        invariant !Known(events[..k], key)
      {
        if events[k].key == key {
          return;
        }
        assert events[..k + 1] == events[..k] + [events[k]];
      }
      assert events[..|events|] == events;
      var e := Event(kind, key, amount);
      var journal := GL.GenerateJournal(None, Some(GL.Seed(kind)), kind, AmountsOf(Model(), e));
      events := events + [e];
      if journal.Some? {
        journals := journals + [journal.value];
      }
    }

    method Deliver() returns (verdict: Verdict)
      modifies this
      ensures (Model(), verdict) == Books.Deliver(old(Model()))
    {
      if !status.Created? {
        return Refused(WrongStatus);
      }
      status := Active;
      EmitEvent(GL.ContractActivated, ActivatedKey, terms.salePrice);
      EmitEvent(GL.DownPaymentReceived, DownPaymentKey, terms.downPayment);
      return Accepted;
    }

    // -----------------------------------------------------------------------
    // Payments
    // -----------------------------------------------------------------------

    method ApplyLateFee(i: nat, amount: int)
      modifies this`charges
      ensures charges == ApplyFee(old(charges), i, amount)
    {
      hide ApplyFee, FeeTake;
      var remaining := amount;
      var k := 0;
      FeeStart(charges, i, amount);
      while k < |charges| && remaining > 0
        invariant 0 <= k <= |charges| == |old(charges)|
        invariant charges[k..] == old(charges)[k..]
        invariant ApplyFee(old(charges), i, amount) == charges[..k] + ApplyFee(charges[k..], i, remaining)
        decreases |charges| - k
      {
        FeeStep(charges, i, remaining, k);
        assert charges[k + 1..] == charges[k..][1..] == old(charges)[k + 1..];
        var take := FeeTake(charges[k], i, remaining);
        charges := charges[k := PayCharge(charges[k], take)];
        remaining := remaining - take;
        k := k + 1;
      }
      FeeSpent(charges[k..], i, remaining);
      assert charges == charges[..k] + charges[k..];
    }

    method ApplyAllocation(line: W.Line, n: nat)
      requires Sensible(line, |installments|)
      modifies this`installments, this`charges, this`unearned, this`ledger
      ensures installments == ApplyAt(old(installments), line)
      ensures charges == ApplyFee(old(charges), line.id, line.lateFee)
      ensures unearned == old(unearned) - line.profit
      ensures ledger == LineEntries(old(ledger), line, n)
    {
      var i := installments[line.id];
      if line.lateFee > 0 {
        ApplyLateFee(line.id, line.lateFee);
      } else {
        FeeSpent(charges, line.id, line.lateFee);
      }
      if line.profit > 0 {
        i := i.(profitPaid := i.profitPaid + line.profit);
        unearned := unearned - line.profit;
      }
      if line.principal > 0 {
        i := i.(principalPaid := i.principalPaid + line.principal);
      }
      RecordPositive(LateFeePaid, line.lateFee, FromPayment(n));
      RecordPositive(EntryKind.ProfitRecognized, line.profit, FromPayment(n));
      RecordPositive(PrincipalPaid, line.principal, FromPayment(n));
      installments := installments[line.id := WithStatus(i)];
    }

    method CloseIfFullyRepaid()
      modifies this
      ensures Model() == CloseIfRepaid(old(Model()))
    {
      if !status.Active? || closure.Some? {
        return;
      }
      for i := 0 to |installments|
        invariant AllPaid(installments[..i])
      {
        if !installments[i].status.Paid? {
          return;
        }
      }
      assert installments[..|installments|] == installments;
      if Sum(installments, PrincipalOutstanding) + Sum(installments, ProfitOutstanding) > 0 || Sum(charges, FeeOutstanding) > 0 {
        return;
      }
      status, closure := Closed, Some(Normal);
      EmitEvent(GL.ContractClosed, ClosureKey, 0);
    }

    method RecordPayment(reference: string, amount: int) returns (verdict: Verdict)
      modifies this
      ensures (Model(), verdict) == Pay(old(Model()), reference, amount)
    {
      if reference == "" {
        return Refused(MissingReference);
      }
      for k := 0 to |payments|
        invariant !HasReference(payments[..k], reference)
      {
        if payments[k].reference == reference {
          return Replayed;
        }
      }
      assert payments[..|payments|] == payments;
      if !status.Active? {
        return Refused(WrongStatus);
      }
      if amount <= 0 {
        return Refused(NotPositive);
      }
      if amount > TotalOutstanding(installments, charges) {
        return Refused(ExceedsOutstanding);
      }
      AcceptPayment(reference, amount);
      return Accepted;
    }

    method AcceptPayment(reference: string, amount: int)
      requires PayVerdict(Model(), reference, amount).Accepted?
      modifies this
      ensures Model() == Pay(old(Model()), reference, amount).0
    {
      hide Emit, CloseIfRepaid, ApplyLines, ApplyFees, PaymentEntries, Live, Dues, Sums.Sum;
      ghost var b := Model();
      var n := |payments|;
      var plan := W.Allocate(amount, Live(Dues(installments, charges)));
      PlanLines(amount, installments, charges, plan);
      payments := payments + [Payment(reference, amount, plan.applied, plan.unallocated)];
      ApplyAll(plan.lines, n);
      assert Model() == ApplyPlan(b, reference, amount, plan);
      var recognized := Sum(plan.lines, LineProfit);
      EmitEvent(GL.PaymentReceived, PaymentKey(n), amount);
      if recognized > 0 {
        EmitEvent(GL.ProfitRecognized, ProfitKey(n), recognized);
      }
      assert Model() == EmitPayment(ApplyPlan(b, reference, amount, plan), n, amount, recognized);
      CloseIfFullyRepaid();
    }

    method ApplyAll(lines: seq<W.Line>, n: nat)
      requires forall k :: 0 <= k < |lines| ==> Sensible(lines[k], |installments|)
      modifies this`installments, this`charges, this`unearned, this`ledger
      ensures installments == ApplyLines(old(installments), lines) && charges == ApplyFees(old(charges), lines)
      ensures unearned == old(unearned) - Sum(lines, LineProfit)
      ensures ledger == PaymentEntries(old(ledger), lines, n)
    {
      assert lines[0..] == lines;
      for j := 0 to |lines|
        invariant |installments| == |old(installments)|
        invariant ApplyLines(installments, lines[j..]) == ApplyLines(old(installments), lines)
        invariant ApplyFees(charges, lines[j..]) == ApplyFees(old(charges), lines)
        invariant unearned - Sum(lines[j..], LineProfit) == old(unearned) - Sum(lines, LineProfit)
        invariant PaymentEntries(ledger, lines[j..], n) == PaymentEntries(old(ledger), lines, n)
      {
        assert lines[j..][0] == lines[j] && lines[j..][1..] == lines[j + 1..];
        ApplyAllocation(lines[j], n);
      }
    }

    // -----------------------------------------------------------------------
    // The overdue job
    // -----------------------------------------------------------------------

    method AssessOverdue(policy: OverduePolicy)
      modifies this
      ensures Model() == Books.AssessOverdue(old(Model()), policy).0
    {
      if !status.Active? {
        return;
      }
      hide EmitCharges, Assess, MarkOverdue;
      var first := |charges|;
      ChargeLateFees(policy);
      EmitNewCharges(first);
    }

    method EmitNewCharges(first: nat)
      requires first <= |charges|
      modifies this`events, this`journals
      ensures Model() == EmitCharges(old(Model()), charges, first)
    {
      hide Emit;
      for c := first to |charges|
        invariant EmitCharges(Model(), charges, c) == EmitCharges(old(Model()), charges, first)
      {
        EmitEvent(GL.LateFeeCharged, ChargedKey(c), charges[c].amount);
      }
    }

    method ChargeLateFees(policy: OverduePolicy)
      modifies this`installments, this`charges
      ensures installments == MarkOverdue(old(installments), policy)
      ensures charges == Assess(old(installments), old(charges), 0, policy)
      ensures |charges| >= |old(charges)|
    {
      var total := Sum(charges, FeeCounted);
      for i := 0 to |installments|
        invariant |installments| == |old(installments)| && |charges| >= |old(charges)|
        invariant total == Sum(charges, FeeCounted)
        invariant forall k :: 0 <= k < i ==> installments[k] == MarkedOverdue(old(installments)[k], policy)
        invariant forall k :: i <= k < |installments| ==> installments[k] == old(installments)[k]
        invariant Assess(old(installments), charges, i, policy) == Assess(old(installments), old(charges), 0, policy)
      {
        var inst := installments[i];
        ghost var before := charges;
        if PastDue(inst, policy) {
          if !inst.FullyPaid() && !inst.status.Overdue? {
            installments := installments[i := inst.(status := Overdue)];
          }
          if policy.asOf - inst.dueDate > policy.grace && !AlreadyCharged(charges, i) {
            var fee := FeeFor(inst, policy);
            if !(policy.cap > 0 && total + fee > policy.cap) {
              SumSnoc(charges, Charge(i, fee, 0, 0, Assessed), FeeCounted);
              charges := charges + [Charge(i, fee, 0, 0, Assessed)];
              total := total + fee;
            }
          }
        }
        AssessStep(old(installments), before, charges, i, policy);
      }
    }

    // -----------------------------------------------------------------------
    // Waivers under maker-checker
    // -----------------------------------------------------------------------

    method RequestWaiver(charge: nat, user: nat) returns (verdict: Verdict)
      modifies this`waivers
      ensures (Model(), verdict) == Books.RequestWaiver(old(Model()), charge, user)
    {
      if charge >= |charges| {
        return Refused(NotFound);
      }
      if !charges[charge].status.Assessed? {
        return Refused(NotAssessed);
      }
      for k := 0 to |waivers|
        invariant !PendingFor(waivers[..k], charge)
      {
        if waivers[k].charge == charge && waivers[k].decision.Pending? {
          return Refused(AlreadyPending);
        }
      }
      assert waivers[..|waivers|] == waivers;
      waivers := waivers + [Waiver(charge, user, Decision.Pending, 0)];
      return Accepted;
    }

    method DecideWaiver(request: nat, user: nat, approve: bool) returns (verdict: Verdict)
      modifies this
      ensures (Model(), verdict) == Books.DecideWaiver(old(Model()), request, user, approve)
    {
      hide Emit, Record;
      if request >= |waivers| {
        return Refused(NotFound);
      }
      var w := waivers[request];
      if !w.decision.Pending? {
        return Refused(NotPending);
      }
      if user == w.requestedBy {
        return Refused(OwnRequest);
      }
      if approve && w.charge >= |charges| {
        return Refused(NotFound);
      }
      waivers := waivers[request := w.(decision := if approve then Approved else Rejected, decidedBy := user)];
      if approve {
        var amount := charges[w.charge].amount - charges[w.charge].paid;
        charges := charges[w.charge := charges[w.charge].(status := Waived)];
        RecordPositive(EntryKind.LateFeeWaived, amount, FromApproval(request));
        EmitEvent(GL.LateFeeWaived, WaivedKey(w.charge), amount);
      }
      return Accepted;
    }

    // -----------------------------------------------------------------------
    // Closures
    // -----------------------------------------------------------------------

    method CloseOutSchedule()
      modifies this`installments, this`charges, this`unearned
      ensures Model() == CloseOut(old(Model()))
    {
      for i := 0 to |installments|
        invariant charges == old(charges) && unearned == old(unearned) && |installments| == |old(installments)|
        invariant forall k :: 0 <= k < i ==> installments[k] == ClosedOut(old(installments)[k])
        invariant forall k :: i <= k < |installments| ==> installments[k] == old(installments)[k]
      {
        var inst := installments[i];
        installments := installments[i := inst.(principalPaid := inst.principal, profitPaid := inst.profit, status := InstallmentStatus.Paid)];
      }
      assert installments == CloseOutInstallments(old(installments));
      for k := 0 to |charges|
        invariant installments == CloseOutInstallments(old(installments)) && |charges| == |old(charges)|
        invariant forall j :: 0 <= j < k ==> charges[j] == FeeClosedOut(old(charges)[j])
        invariant forall j :: k <= j < |charges| ==> charges[j] == old(charges)[j]
      {
        var c := charges[k];
        if !c.status.Waived? {
          charges := charges[k := c.(paid := c.amount, status := FeePaid)];
        }
      }
      unearned := 0;
    }

    method RecordQuote(q: Quote, principal: EntryKind, lateFee: EntryKind, charged: EntryKind, rebate: EntryKind)
      modifies this`ledger
      ensures ledger == Record(Record(Record(Record(old(ledger), principal, q.principal, FromClosure),
        lateFee, q.lateFees, FromClosure), charged, q.charged, FromClosure), rebate, q.rebate, FromClosure)
    {
      RecordPositive(principal, q.principal, FromClosure);
      RecordPositive(lateFee, q.lateFees, FromClosure);
      RecordPositive(charged, q.charged, FromClosure);
      RecordPositive(rebate, q.rebate, FromClosure);
    }

    method Settle(reference: string, amount: int, request: RebateRequest, defaultPct: real) returns (verdict: Verdict)
      modifies this
      ensures (Model(), verdict) == Books.Settle(old(Model()), reference, amount, request, defaultPct)
    {
      var quoted := QuoteFor(Model(), request, defaultPct);
      if quoted.NoQuote? {
        return Refused(quoted.reason);
      }
      var q := quoted.quote;
      if amount != q.payoff {
        return Refused(AmountMismatch);
      }
      if HasReference(payments, reference) {
        return Refused(DuplicateReference);
      }
      SettleNow(reference, q);
      return Accepted;
    }

    method SettleNow(reference: string, q: Quote)
      modifies this
      ensures Model() == SettleWith(old(Model()), reference, q)
    {
      hide Emit, Record;
      payments := payments + [Payment(reference, q.payoff, q.payoff, 0)];
      CloseOutSchedule();
      closure, status := Some(EarlySettlement), Closed;
      RecordQuote(q, PrincipalPaid, LateFeePaid, EntryKind.ProfitRecognized, ProfitRebated);
      EmitEvent(GL.EarlySettlement, ClosureKey, 0);
    }

    method ReturnGoods(defaultPct: real, refundPct: real) returns (verdict: Verdict)
      modifies this
      ensures (Model(), verdict) == Books.ReturnGoods(old(Model()), defaultPct, refundPct)
    {
      if status.Closed? {
        return Refused(AlreadyClosed);
      }
      if status.Created? {
        return Refused(WrongStatus);
      }
      var quoted := QuoteFor(Model(), NoRequest, defaultPct);
      if quoted.NoQuote? {
        return Refused(quoted.reason);
      }
      var q := quoted.quote;
      var net := M.Times(terms.downPayment, refundPct) - q.payoff;
      ReturnNow(q, net);
      return Accepted;
    }

    method ReturnNow(q: Quote, net: int)
      modifies this
      ensures Model() == ReturnWith(old(Model()), q, net)
    {
      hide Emit, Record;
      CloseOutSchedule();
      closure, status := Some(Return), Closed;
      RecordQuote(q, ReturnPrincipal, ReturnLateFee, ReturnRetained, ReturnWaived);
      if net != 0 {
        RecordEntry(RefundIssued, net, FromClosure);
      }
      EmitEvent(GL.Return, ClosureKey, net);
    }

    method Cancel(refundPct: real) returns (verdict: Verdict)
      modifies this
      ensures (Model(), verdict) == Books.Cancel(old(Model()), refundPct)
    {
      hide Emit, Record, M.Times;
      if status.Closed? {
        return Refused(AlreadyClosed);
      }
      if !status.Created? {
        return Refused(WrongStatus);
      }
      var refund := M.Times(terms.downPayment, refundPct);
      unearned := 0;
      closure, status := Some(Cancellation), Closed;
      RecordPositive(RefundIssued, refund, FromClosure);
      EmitEvent(GL.Cancellation, ClosureKey, refund);
      return Accepted;
    }

    // -----------------------------------------------------------------------
    // Write-offs
    // -----------------------------------------------------------------------

    method WriteOffComponent(part: Component, amount: int, n: nat)
      modifies this`installments, this`ledger
      ensures installments == Sweep(old(installments), part, amount)
      ensures ledger == SweepEntries(old(ledger), old(installments), part, amount, n)
    {
      hide Sweep, SweepEntries;
      var remaining := amount;
      var i := 0;
      SweepStart(installments, part, amount, ledger, n);
      while i < |installments| && remaining > 0
        invariant 0 <= i <= |installments| == |old(installments)|
        invariant installments[i..] == old(installments)[i..]
        invariant Sweep(old(installments), part, amount) == installments[..i] + Sweep(installments[i..], part, remaining)
        invariant SweepEntries(old(ledger), old(installments), part, amount, n) ==
          SweepEntries(ledger, installments[i..], part, remaining, n)
        decreases |installments| - i
      {
        var inst := installments[i];
        var outstanding := if part.PrincipalPart? then inst.PrincipalOutstanding() else inst.ProfitOutstanding();
        SweepStep(installments, part, remaining, i, ledger, n);
        assert installments[i + 1..] == installments[i..][1..] == old(installments)[i + 1..];
        if outstanding > 0 {
          var take := Min(remaining, outstanding);
          installments := installments[i := WriteOffPart(inst, part, take)];
          RecordEntry(if part.PrincipalPart? then PrincipalOff else ProfitOff, take, FromWriteOff(n));
          remaining := remaining - take;
        }
        i := i + 1;
      }
      SweepSpent(installments[i..], part, remaining, ledger, n);
      assert installments == installments[..i] + installments[i..];
    }

    method WriteOffLateFees(amount: int, n: nat)
      modifies this`charges, this`ledger
      ensures charges == SweepFees(old(charges), amount)
      ensures ledger == SweepFeeEntries(old(ledger), old(charges), amount, n)
    {
      hide SweepFees, SweepFeeEntries;
      var remaining := amount;
      var i := 0;
      SweepFeeStart(charges, amount, ledger, n);
      while i < |charges| && remaining > 0
        invariant 0 <= i <= |charges| == |old(charges)|
        invariant charges[i..] == old(charges)[i..]
        invariant SweepFees(old(charges), amount) == charges[..i] + SweepFees(charges[i..], remaining)
        invariant SweepFeeEntries(old(ledger), old(charges), amount, n) == SweepFeeEntries(ledger, charges[i..], remaining, n)
        decreases |charges| - i
      {
        var c := charges[i];
        SweepFeeStep(charges, remaining, i, ledger, n);
        assert charges[i + 1..] == charges[i..][1..] == old(charges)[i + 1..];
        if c.Outstanding() > 0 {
          var take := Min(remaining, c.Outstanding());
          charges := charges[i := WriteOffFee(c, take)];
          RecordEntry(LateFeeOff, take, FromWriteOff(n));
          remaining := remaining - take;
        }
        i := i + 1;
      }
      SweepFeeSpent(charges[i..], remaining, ledger, n);
      assert charges == charges[..i] + charges[i..];
    }

    method ExecuteWriteOff(full: bool, x: Execution) returns (verdict: Verdict)
      modifies this
      ensures (Model(), verdict) == Books.ExecuteWriteOff(old(Model()), full, x)
    {
      if !status.Active? {
        return Refused(WrongStatus);
      }
      if x.principal > Sum(installments, PrincipalOutstanding) || x.profit > Sum(installments, ProfitOutstanding)
        || x.lateFee > Sum(charges, FeeOutstanding)
      {
        return Refused(ExceedsOutstanding);
      }
      WriteOffNow(full, x);
      return Accepted;
    }

    method SweepAll(x: Execution)
      modifies this
      ensures Model() == Swept(old(Model()), x)
    {
      hide Sweep, SweepEntries, SweepFees, SweepFeeEntries;
      var n := |executions|;
      WriteOffComponent(PrincipalPart, x.principal, n);
      WriteOffComponent(ProfitPart, x.profit, n);
      WriteOffLateFees(x.lateFee, n);
      executions := executions + [x];
    }

    method WriteOffNow(full: bool, x: Execution)
      modifies this
      ensures Model() == WriteOffWith(old(Model()), full, x)
    {
      hide Emit, Swept;
      var n := |executions|;
      SweepAll(x);
      if full {
        status, closure := Closed, Some(WriteOff);
      }
      EmitEvent(if full then GL.WriteOffExecuted else GL.PartialWriteOffExecuted, WriteOffKey(n), x.Total());
      if x.provision > 0 {
        EmitEvent(GL.EclReleased, ReleaseKey(n), -x.provision);
      }
    }

    // -----------------------------------------------------------------------
    // Runs
    // -----------------------------------------------------------------------

    method Perform(c: Command)
      modifies this
      ensures Model() == Step(old(Model()), c)
    {
      match c
      case DoDeliver => var _ := Deliver();
      case DoAssess(policy) => AssessOverdue(policy);
      case DoPay(reference, amount) => var _ := RecordPayment(reference, amount);
      case DoRequestWaiver(charge, user) => var _ := RequestWaiver(charge, user);
      case DoDecideWaiver(request, user, approve) => var _ := DecideWaiver(request, user, approve);
      case DoSettle(reference, amount, rebate, pct) => var _ := Settle(reference, amount, rebate, pct);
      case DoReturn(pct, refund) => var _ := ReturnGoods(pct, refund);
      case DoCancel(refund) => var _ := Cancel(refund);
      case DoWriteOff(full, x) => var _ := ExecuteWriteOff(full, x);
    }

    // Any sequence of operations on a reconciled contract leaves it reconciled.
    method PerformAll(commands: seq<Command>)
      requires Model() in SOUND && forall k :: 0 <= k < |commands| ==> Configured(commands[k])
      modifies this
      ensures Model() == Run(old(Model()), commands) && Model() in SOUND
    {
      hide *;
      ghost var b := Model();
      RunKeeps(b, commands);
      RunStart(b, commands);
      for k := 0 to |commands|
        invariant Run(Model(), commands[k..]) == Run(b, commands)
      {
        RunStep(Model(), commands, k);
        Perform(commands[k]);
      }
      RunEnd(Model(), commands);
    }
  }
}
