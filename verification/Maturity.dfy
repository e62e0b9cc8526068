// When does paying everything off close a contract?  closure.close_if_fully_repaid() asks that every
// installment reads paid and that nothing is outstanding.
module Maturity {
  import opened Options
  import opened Sums
  import opened Subledger
  import opened SubledgerLaws
  import opened WriteOffs
  import opened Books
  import opened Reconciliation
  import opened BookSteps
  import opened BookWriteOffs
  import opened BookTheorems
  import opened PaymentLaws
  import W = Waterfall
  import GL = GeneralLedger

  // Something is due on the installment, late fees included, or it already reads paid.
  predicate DueOrPaid(insts: seq<Installment>, charges: seq<Charge>) {
    forall i :: 0 <= i < |insts| ==> IsLive(Dues(insts, charges)[i]) || insts[i].status.Paid?
  }

  // A payment of everything outstanding gives each installment its whole due.
  lemma WholeDue(b: Book, p: int, i: nat)
    requires ValidInstallments(b.installments) && ValidCharges(b.charges) && Owned(b.charges, |b.installments|)
    requires 0 < p == TotalOutstanding(b.installments, b.charges) && i < |b.installments|
    ensures var l, d := WalkOf(b, p)[i], Dues(b.installments, b.charges)[i];
      l.lateFee == d.lateFee && l.profit == d.profit && l.principal == d.principal
      && d.lateFee >= 0 && d.profit >= 0 && d.principal >= 0
  {
    var due := Dues(b.installments, b.charges);
    DuesAreOutstanding(b.installments, b.charges);
    LateFeeOfNonNegative(b.charges, i);
    assert ValidInstallment(b.installments[i]);
    AllTaken(p, due, i);
  }

  lemma {:induction false} AllTaken(p: int, due: seq<W.Outstanding>, i: nat)
    requires p >= W.TotalOwed(W.Flatten(due)) && i < |due|
    ensures var l := W.Walk(p, due)[i];
      l.lateFee == W.Owed(due[i].lateFee) && l.profit == W.Owed(due[i].profit) && l.principal == W.Owed(due[i].principal)
  {
    W.FlattenHead(due);
    SumNonNegative(W.Flatten(due[1..]), W.Owed);
    if i > 0 {
      AllTaken(p - W.LineFor(p, due[0]).Total(), due[1..], i - 1);
    }
  }

  lemma PaidOffRow(b: Book, p: int, i: nat)
    requires ValidInstallments(b.installments) && ValidCharges(b.charges) && Owned(b.charges, |b.installments|)
    requires 0 < p == TotalOutstanding(b.installments, b.charges) && i < |b.installments|
    ensures PaidInstallments(b, p)[i].status.Paid? <==> IsLive(Dues(b.installments, b.charges)[i]) || b.installments[i].status.Paid?
    ensures PaidInstallments(b, p)[i].PrincipalOutstanding() == PaidInstallments(b, p)[i].ProfitOutstanding() == 0
  {
    hide W.Walk, LateFeeOf, FeesFrom;
    WholeDue(b, p, i);
  }

  lemma PaidOffRows(b: Book, p: int)
    requires ValidInstallments(b.installments) && ValidCharges(b.charges) && Owned(b.charges, |b.installments|)
    requires 0 < p == TotalOutstanding(b.installments, b.charges)
    ensures AllPaid(PaidInstallments(b, p)) <==> DueOrPaid(b.installments, b.charges)
  {
    forall i | 0 <= i < |b.installments|
      ensures PaidInstallments(b, p)[i].status.Paid? <==> IsLive(Dues(b.installments, b.charges)[i]) || b.installments[i].status.Paid?
    {
      PaidOffRow(b, p, i);
    }
  }

  lemma NothingLeft(b: Book, d: Book, reference: string, p: int)
    requires b in SOUND && b.status.Active? && 0 < p == TotalOutstanding(b.installments, b.charges) && d in AfterPaying(b, reference, p)
    ensures d.status.Closed? <==> DueOrPaid(b.installments, b.charges)
  {
    hide FeesFrom, TouchedAll, LedgerOk, JournalsOk, KeysOk;
    ActiveRows(b);
    PaidOffRows(b, p);
    PaidKeepsDue(b, p);
    var insts, charges := d.installments, d.charges;
    assert forall i :: 0 <= i < |insts| ==> ValidInstallment(insts[i]);
    assert forall k :: 0 <= k < |charges| ==> ValidCharge(charges[k]);
    SumNonNegative(insts, PrincipalOutstanding);
    SumNonNegative(insts, ProfitOutstanding);
    SumNonNegative(charges, FeeOutstanding);
  }

  // Paying everything outstanding closes the contract exactly when every installment had something
  // due or already read paid.
  lemma PayoffCloses(b: Book, reference: string)
    requires b in SOUND && PayVerdict(b, reference, TotalOutstanding(b.installments, b.charges)).Accepted?
    ensures Pay(b, reference, TotalOutstanding(b.installments, b.charges)).0.status.Closed? <==> DueOrPaid(b.installments, b.charges)
  {
    hide *;
    var p := TotalOutstanding(b.installments, b.charges);
    var d := PayMakes(b, reference, p);
    AcceptedActive(b, reference, p);
    NothingLeft(b, d, reference, p);
  }

  lemma AcceptedActive(b: Book, reference: string, amount: int)
    requires PayVerdict(b, reference, amount).Accepted?
    ensures b.status.Active? && amount > 0
  {
  }

  // Otherwise the contract stays active with nothing outstanding, and a payment is refused.
  lemma StaysOpen(b: Book, reference: string)
    requires b in SOUND && PayVerdict(b, reference, TotalOutstanding(b.installments, b.charges)).Accepted?
    requires !DueOrPaid(b.installments, b.charges)
    ensures Stuck(Pay(b, reference, TotalOutstanding(b.installments, b.charges)).0)
  {
    hide *;
    var p := TotalOutstanding(b.installments, b.charges);
    var d := PayMakes(b, reference, p);
    AcceptedActive(b, reference, p);
    NothingLeft(b, d, reference, p);
    OpenAtZero(b, d, reference, p);
  }

  // Open, with nothing left to pay: every further payment under a new reference is refused.
  ghost predicate Stuck(d: Book) {
    && d.status.Active? && TotalOutstanding(d.installments, d.charges) == 0
    && (forall other, amount :: PayVerdict(d, other, amount).Refused? || PayVerdict(d, other, amount).Replayed?)
  }

  lemma OpenAtZero(b: Book, d: Book, reference: string, p: int)
    requires d in AfterPaying(b, reference, p) && p == TotalOutstanding(b.installments, b.charges) && !d.status.Closed?
    ensures Stuck(d)
  {
    hide TotalOutstanding;
  }

  // It is reachable from every signed contract whose first installment carries an amount and is not
  // everything: deliver, write that installment off, pay the rest.
  lemma {:induction false} SweepNothing(insts: seq<Installment>, part: Component)
    ensures Sweep(insts, part, 0) == insts
  {
    if insts != [] {
      SweepNothing(insts[1..], part);
    }
  }

  function FirstOff(i: Installment): Execution { Execution(i.principal, i.profit, 0, 0) }

  function SweptFirst(insts: seq<Installment>): (after: seq<Installment>)
    requires insts != []
    ensures |after| == |insts|
  {
    Sweep(Sweep(insts, PrincipalPart, insts[0].principal), ProfitPart, insts[0].profit)
  }

  lemma SweepFirst(insts: seq<Installment>)
    requires insts != [] && Untouched(insts[0]) && insts[0].principal >= 0 && insts[0].profit >= 0
    requires insts[0].principal + insts[0].profit > 0
    ensures var after := SweptFirst(insts);
      && after[1..] == insts[1..] && after[0].status.WrittenOff?
      && after[0].PrincipalOutstanding() == 0 && after[0].ProfitOutstanding() == 0
  {
    var first := Sweep(insts, PrincipalPart, insts[0].principal);
    SweepNothing(insts[1..], PrincipalPart);
    assert first[0] == WriteOffPart(insts[0], PrincipalPart, W.Take(insts[0].principal, insts[0].principal)) && first[1..] == insts[1..];
    SweepNothing(insts[1..], ProfitPart);
    assert SweptFirst(insts)[0] == WriteOffPart(first[0], ProfitPart, W.Take(insts[0].profit, insts[0].profit));
  }

  lemma SweptWithoutCharges(d: Book, x: Execution)
    requires d.charges == [] && d.installments != [] && x == FirstOff(d.installments[0])
    ensures var a := Swept(d, x);
      a.status == d.status && a.payments == d.payments && a.charges == [] && a.installments == SweptFirst(d.installments)
  {
    hide Sweep, SweepEntries, SweepFeeEntries;
    assert SweepFees([], 0) == [];
  }

  lemma EmissionKeeps(a: Book, kind: GL.EventType, n: nat, x: Execution)
    ensures SameRecords(a, EmitExecution(a, kind, n, x))
  {
    hide GL.JournalFor, AmountsOf, Known;
  }

  lemma AskedIsAccepted(d: Book, x: Execution)
    requires d.status.Active? && Asked(d, x)
    ensures ExecuteWriteOff(d, false, x).1.Accepted?
  {
    hide WriteOffWith, Sums.Sum;
  }

  lemma AfterFirstOff(d: Book)
    requires d.status.Active? && d.charges == [] && d.installments != [] && Asked(d, FirstOff(d.installments[0]))
    ensures var w := ExecuteWriteOff(d, false, FirstOff(d.installments[0])).0;
      w.status.Active? && w.payments == d.payments && w.charges == [] && w.installments == SweptFirst(d.installments)
  {
    hide Swept, Emit, EmitExecution, ExecuteWriteOff, Asked, FirstOff;
    var x := FirstOff(d.installments[0]);
    AskedIsAccepted(d, x);
    ExecutedAs(d, false, x);
    SweptWithoutCharges(d, x);
    EmissionKeeps(ExecutedRecords(d, false, x), GL.PartialWriteOffExecuted, |d.executions|, x);
  }

  // The rest of the schedule, once the first installment is gone.
  function Rest(insts: seq<Installment>): int
    requires insts != []
  {
    Sum(insts[1..], PrincipalOutstanding) + Sum(insts[1..], ProfitOutstanding)
  }

  lemma FirstGone(insts: seq<Installment>)
    requires insts != [] && insts[0].PrincipalOutstanding() == 0 && insts[0].ProfitOutstanding() == 0 && !insts[0].status.Paid?
    ensures TotalOutstanding(insts, []) == Rest(insts) && !DueOrPaid(insts, [])
  {
    assert !IsLive(Dues(insts, [])[0]);
  }

  lemma FirstAsked(b: Book, d: Book)
    requires Signed(b) && d.installments == b.installments && d.charges == [] && b.installments != []
    ensures Asked(d, FirstOff(b.installments[0])) && Untouched(b.installments[0])
    ensures FirstOff(b.installments[0]).principal >= 0 && FirstOff(b.installments[0]).profit >= 0
  {
    SumNonNegative(b.installments, PrincipalOutstanding);
    SumNonNegative(b.installments, ProfitOutstanding);
  }

  lemma RestAccepted(w: Book, rest: int)
    requires w.status.Active? && w.payments == [] && 0 < rest == TotalOutstanding(w.installments, w.charges)
    ensures PayVerdict(w, "rest", rest).Accepted?
  {
    hide TotalOutstanding;
  }

  lemma WrittenOffFirst(b: Book, d: Book) returns (w: Book)
    requires Signed(b) && b.installments != [] && b.installments[0].principal + b.installments[0].profit > 0 && Rest(b.installments) > 0
    requires d in SOUND && d.status.Active? && d.payments == [] && d.charges == [] && d.installments == b.installments
    ensures w == ExecuteWriteOff(d, false, FirstOff(b.installments[0])).0 && w in SOUND
    ensures TotalOutstanding(w.installments, w.charges) == Rest(b.installments)
    ensures PayVerdict(w, "rest", Rest(b.installments)).Accepted? && !DueOrPaid(w.installments, w.charges)
  {
    hide *;
    var x := FirstOff(b.installments[0]);
    w := ExecuteWriteOff(d, false, x).0;
    FirstAsked(b, d);
    ProvisionFree(b.installments[0]);
    ExecuteKeeps(d, false, x);
    AfterFirstOff(d);
    FirstAmounts(b);
    SweepFirst(d.installments);
    StillUnpaid(w.installments[0]);
    FirstGone(w.installments);
    SameRest(w.installments, b.installments);
    RestAccepted(w, Rest(b.installments));
  }

  lemma ProvisionFree(i: Installment)
    ensures FirstOff(i) == Execution(i.principal, i.profit, 0, 0)
  {
  }

  lemma FirstAmounts(b: Book)
    requires Signed(b) && b.installments != []
    ensures b.installments[0].principal >= 0 && b.installments[0].profit >= 0
  {
  }

  lemma StillUnpaid(i: Installment)
    ensures i.status.WrittenOff? ==> !i.status.Paid?
  {
  }

  lemma SameRest(after: seq<Installment>, before: seq<Installment>)
    requires after != [] && before != [] && after[1..] == before[1..]
    ensures Rest(after) == Rest(before)
  {
  }

  lemma StepsAre(b: Book, x: Execution, amount: int)
    ensures Step(b, DoDeliver) == Deliver(b).0 && Step(b, DoWriteOff(false, x)) == ExecuteWriteOff(b, false, x).0
    ensures Step(b, DoPay("rest", amount)) == Pay(b, "rest", amount).0
  {
    hide Deliver, ExecuteWriteOff, Pay;
  }

  lemma TheseConfigured(x: Execution, amount: int)
    requires x.principal >= 0 && x.profit >= 0 && x.lateFee == 0 == x.provision
    ensures forall k :: 0 <= k < 3 ==> Configured([DoDeliver, DoWriteOff(false, x), DoPay("rest", amount)][k])
  {
  }

  // Deliver, write the first installment off, pay the rest.
  function FirstOffRun(b: Book): seq<Command>
    requires b.installments != []
  {
    [DoDeliver, DoWriteOff(false, FirstOff(b.installments[0])), DoPay("rest", Rest(b.installments))]
  }

  lemma FirstOffSteps(b: Book, x: Execution, rest: int)
    requires b.installments != [] && x == FirstOff(b.installments[0]) && rest == Rest(b.installments)
    ensures FirstOffRun(b) == [DoDeliver, DoWriteOff(false, x), DoPay("rest", rest)] && |FirstOffRun(b)| == 3
  {
  }

  lemma StaysOpenAfterWriteOff(b: Book)
    requires Signed(b) && b.installments != [] && b.installments[0].principal + b.installments[0].profit > 0 && Rest(b.installments) > 0
    ensures forall k :: 0 <= k < |FirstOffRun(b)| ==> Configured(FirstOffRun(b)[k])
    ensures Stuck(Run(b, FirstOffRun(b)))
  {
    hide *;
    var d, x, rest := Deliver(b).0, FirstOff(b.installments[0]), Rest(b.installments);
    Delivered(b);
    FirstAsked(b, d);
    ProvisionFree(b.installments[0]);
    var w := WrittenOffFirst(b, d);
    StaysOpen(w, "rest");
    FirstOffSteps(b, x, rest);
    RunThree(b, DoDeliver, DoWriteOff(false, x), DoPay("rest", rest));
    StepsAre(b, x, rest);
    StepsAre(d, x, rest);
    StepsAre(w, x, rest);
    TheseConfigured(x, rest);
  }

  // Two installments of fifty and five.
  const TWO: Book := Book(Terms(110, 10, 0), Created, None,
    [Installment(30, 50, 5, 0, 0, 0, 0, InstallmentStatus.Pending), Installment(60, 50, 5, 0, 0, 0, 0, InstallmentStatus.Pending)],
    [], 10, [], [], [], [], [], [])

  lemma SumTwo<T>(xs: seq<T>, f: T -> int)
    requires |xs| == 2
    ensures Sum(xs, f) == f(xs[0]) + f(xs[1])
  {
    SumOne(xs[1..], f);
  }

  lemma TwoSigned()
    ensures Signed(TWO) && TWO.installments != [] && TWO.installments[0].principal + TWO.installments[0].profit > 0 && Rest(TWO.installments) > 0
  {
    hide Sums.Sum;
    SumTwo(TWO.installments, PrincipalOf);
    SumTwo(TWO.installments, ProfitOf);
    SumOne(TWO.installments[1..], PrincipalOutstanding);
    SumOne(TWO.installments[1..], ProfitOutstanding);
    assert TWO.installments[1..][0] == Installment(60, 50, 5, 0, 0, 0, 0, InstallmentStatus.Pending);
  }

  // So it happens: a reachable contract that owes nothing and is still open.
  ghost predicate GetsStuck(b: Book, commands: seq<Command>) {
    (forall k :: 0 <= k < |commands| ==> Configured(commands[k])) && Stuck(Run(b, commands))
  }

  lemma Sticks(b: Book, commands: seq<Command>)
    requires (forall k :: 0 <= k < |commands| ==> Configured(commands[k])) && Stuck(Run(b, commands))
    ensures GetsStuck(b, commands)
  {
  }

  lemma MaturityPromiseFails()
    ensures Signed(TWO) && exists commands :: GetsStuck(TWO, commands)
  {
    hide *;
    TwoSigned();
    StaysOpenAfterWriteOff(TWO);
    Sticks(TWO, FirstOffRun(TWO));
  }

  // -------------------------------------------------------------------------
  // No payment again without a new fee
  // -------------------------------------------------------------------------

  // Delivered, and with nothing to pay as long as it is open.
  ghost predicate NothingToPay(d: Book) {
    d in SOUND && !d.status.Created? && (d.status.Active? ==> TotalOutstanding(d.installments, d.charges) == 0)
  }

  lemma NoneAccepted(d: Book)
    requires NothingToPay(d)
    ensures forall reference, amount :: !PayVerdict(d, reference, amount).Accepted?
  {
    hide TotalOutstanding;
  }

  lemma {:induction false} SweepNoFees(charges: seq<Charge>)
    ensures SweepFees(charges, 0) == charges
  {
    if charges != [] {
      SweepNoFees(charges[1..]);
    }
  }

  lemma WaivedWithoutBalance(d: Book, r: nat, user: nat)
    requires d in SOUND && d.status.Active? && TotalOutstanding(d.installments, d.charges) == 0
    ensures var after := DecideWaiver(d, r, user, true).0;
      after.status.Active? && TotalOutstanding(after.installments, after.charges) == 0
  {
    hide Emit, LedgerOk, JournalsOk;
    ActiveRows(d);
    EmissionRows();
    PaidUp(d.installments, d.charges);
    if r < |d.waivers| && d.waivers[r].charge < |d.charges| {
      var k := d.waivers[r].charge;
      SumSet(d.charges, k, d.charges[k].(status := FeeStatus.Waived), FeeOutstanding);
    }
  }

  lemma EmissionRows()
    ensures forall b: Book, kind, key, amount :: Emit(b, kind, key, amount).installments == b.installments
    ensures forall b: Book, kind, key, amount :: Emit(b, kind, key, amount).charges == b.charges
    ensures forall b: Book, kind, key, amount :: Emit(b, kind, key, amount).status == b.status
  {
    hide GL.JournalFor, AmountsOf, Known;
  }

  lemma NothingRejected(d: Book, r: nat, user: nat)
    ensures var after := DecideWaiver(d, r, user, false).0; after == d.(waivers := after.waivers)
  {
  }

  lemma NothingWrittenOffMore(d: Book, full: bool, x: Execution)
    requires d in SOUND && d.status.Active? && TotalOutstanding(d.installments, d.charges) == 0 && NothingNegative(x)
    ensures var after := ExecuteWriteOff(d, full, x).0;
      after.status.Active? ==> TotalOutstanding(after.installments, after.charges) == 0
    ensures !ExecuteWriteOff(d, full, x).0.status.Created?
  {
    hide Emit, Sweep, SweepFees, SweepEntries, SweepFeeEntries, LedgerOk, JournalsOk;
    EmissionRows();
    SumsZero(d);
    SweepNothing(d.installments, PrincipalPart);
    SweepNothing(d.installments, ProfitPart);
    SweepNoFees(d.charges);
  }

  lemma SumsZero(d: Book)
    requires d in SOUND && d.status.Active? && TotalOutstanding(d.installments, d.charges) == 0
    ensures Sum(d.installments, PrincipalOutstanding) == Sum(d.installments, ProfitOutstanding) == Sum(d.charges, FeeOutstanding) == 0
  {
    ActiveRows(d);
    PaidUp(d.installments, d.charges);
    SumZero(d.installments, PrincipalOutstanding);
    SumZero(d.installments, ProfitOutstanding);
    SumZero(d.charges, FeeOutstanding);
  }

  // Any operation but the job, a waiver's decision and a write-off leaves the rows alone or closes the
  // contract.
  lemma OtherStep(d: Book, c: Command)
    requires NothingToPay(d) && !c.DoAssess? && !c.DoDecideWaiver? && !c.DoWriteOff?
    ensures var after := Step(d, c);
      !after.status.Created? && (after.status.Active? ==> after.installments == d.installments && after.charges == d.charges && after.status == d.status)
  {
    hide Emit, TotalOutstanding, QuoteFor, SettlementEntries, ReturnEntries, PendingFor, Record, RowsOk, KeysOk, LedgerOk, JournalsOk;
    EmissionRows();
    NoneAccepted(d);
  }

  lemma StillNothing(d: Book, c: Command)
    requires NothingToPay(d) && Configured(c) && !c.DoAssess?
    ensures NothingToPay(Step(d, c))
  {
    hide TotalOutstanding, DecideWaiver, ExecuteWriteOff, RowsOk, KeysOk, LedgerOk, JournalsOk, Deliver, Pay, Settle, ReturnGoods, Cancel, RequestWaiver;
    StepKeeps(d, c);
    match c
    case DoDecideWaiver(r, user, approve) => DecidedStatus(d, r, user, approve); if d.status.Active? {
      if approve { WaivedWithoutBalance(d, r, user); } else { NothingRejected(d, r, user); }
    }
    case DoWriteOff(full, x) => if d.status.Active? { NothingWrittenOffMore(d, full, x); } else { OnlyActive(d, full, x); }
    case _ => OtherStep(d, c);
  }

  lemma DecidedStatus(d: Book, r: nat, user: nat, approve: bool)
    ensures DecideWaiver(d, r, user, approve).0.status == d.status
  {
    hide Emit;
    EmissionRows();
  }

  lemma OnlyActive(d: Book, full: bool, x: Execution)
    requires !d.status.Active?
    ensures ExecuteWriteOff(d, full, x).0 == d
  {
  }

  lemma {:induction false} RunNothing(d: Book, commands: seq<Command>)
    requires NothingToPay(d) && forall k :: 0 <= k < |commands| ==> Configured(commands[k]) && !commands[k].DoAssess?
    ensures NothingToPay(Run(d, commands))
    decreases |commands|
  {
    hide NothingToPay, Step, Configured;
    if commands != [] {
      StillNothing(d, commands[0]);
      RunNothing(Step(d, commands[0]), commands[1..]);
    }
  }

  // Whatever else is done to such a contract, no payment is recorded on it unless the overdue job runs
  // again.
  lemma NeverPaidAgain(d: Book, commands: seq<Command>)
    requires d in SOUND && Stuck(d) && forall k :: 0 <= k < |commands| ==> Configured(commands[k]) && !commands[k].DoAssess?
    ensures forall reference, amount :: !PayVerdict(Run(d, commands), reference, amount).Accepted?
  {
    hide Run, TotalOutstanding, Configured, RowsOk, KeysOk, LedgerOk, JournalsOk;
    RunNothing(d, commands);
    NoneAccepted(Run(d, commands));
  }

  // -------------------------------------------------------------------------
  // Which contracts can always be paid off
  // -------------------------------------------------------------------------

  // Until something is written off, an installment that owes nothing reads paid.
  predicate ReadsPaid(i: Installment) { i.principal + i.profit > 0 && (i.FullyPaid() ==> i.status.Paid?) }

  predicate Readable(b: Book) { b.executions == [] ==> forall i :: 0 <= i < |b.installments| ==> ReadsPaid(b.installments[i]) }

  lemma PayKeepsReadable(b: Book, reference: string, amount: int)
    requires b in SOUND && Readable(b)
    ensures Readable(Pay(b, reference, amount).0)
  {
    if PayVerdict(b, reference, amount).Accepted? {
      hide *;
      var d := PayMakes(b, reference, amount);
      PaidReads(b, d, reference, amount);
      PayExecutions(b, reference, amount);
    }
  }

  lemma PayExecutions(b: Book, reference: string, amount: int)
    ensures Pay(b, reference, amount).0.executions == b.executions
  {
    hide Emit;
    EmitExecutions();
  }

  lemma EmitExecutions()
    ensures forall b: Book, kind, key, amount :: Emit(b, kind, key, amount).executions == b.executions
    ensures forall b: Book, kind, key, amount :: Emit(b, kind, key, amount).installments == b.installments
  {
  }

  lemma PaidReads(b: Book, d: Book, reference: string, amount: int)
    requires d in AfterPaying(b, reference, amount) && Readable(b)
    ensures b.executions == [] ==> forall i :: 0 <= i < |d.installments| ==> ReadsPaid(d.installments[i])
  {
    hide W.Walk, FeesFrom, RowsOk, LedgerOk, JournalsOk, KeysOk;
    forall i | 0 <= i < |b.installments| && b.executions == [] ensures ReadsPaid(d.installments[i]) {
      assert d.installments[i] == Touched(b.installments[i], WalkOf(b, amount)[i]);
      assert ReadsPaid(b.installments[i]);
    }
  }

  lemma ChargesExecutions(b: Book, charges: seq<Charge>, c: nat)
    ensures EmitCharges(b, charges, c).executions == b.executions && EmitCharges(b, charges, c).installments == b.installments
    decreases |charges| - c
  {
    hide Emit;
    EmitExecutions();
    if c < |charges| {
      ChargesExecutions(Emit(b, GL.LateFeeCharged, ChargedKey(c), charges[c].amount), charges, c + 1);
    }
  }

  lemma AssessKeepsReadable(b: Book, policy: OverduePolicy)
    requires Readable(b)
    ensures Readable(AssessOverdue(b, policy).0)
  {
    if b.status.Active? {
      hide Emit;
      var charges := Assess(b.installments, b.charges, 0, policy);
      var marked := b.(installments := MarkOverdue(b.installments, policy), charges := charges);
      ChargesExecutions(marked, charges, |b.charges|);
      forall i | 0 <= i < |b.installments| && b.executions == [] ensures ReadsPaid(marked.installments[i]) {
        assert ReadsPaid(b.installments[i]);
      }
    }
  }

  lemma OtherKeepsReadable(b: Book, c: Command)
    requires Readable(b) && !c.DoPay? && !c.DoAssess?
    ensures Readable(Step(b, c))
  {
    hide Emit, Sweep, SweepFees, SweepEntries, SweepFeeEntries, QuoteFor, HasReference, PendingFor;
    EmitExecutions();
  }

  lemma {:induction false} RunKeepsReadable(b: Book, commands: seq<Command>)
    requires b in SOUND && Readable(b) && forall k :: 0 <= k < |commands| ==> Configured(commands[k])
    ensures Readable(Run(b, commands))
    decreases |commands|
  {
    hide Step, Readable, Configured;
    if commands != [] {
      var c := commands[0];
      StepKeeps(b, c);
      StepKeepsReadable(b, c);
      RunKeepsReadable(Step(b, c), commands[1..]);
    }
  }

  lemma StepKeepsReadable(b: Book, c: Command)
    requires b in SOUND && Readable(b)
    ensures Readable(Step(b, c))
  {
    hide Readable, Pay, AssessOverdue;
    match c
    case DoPay(reference, amount) => PayKeepsReadable(b, reference, amount);
    case DoAssess(policy) => AssessKeepsReadable(b, policy);
    case _ => OtherKeepsReadable(b, c);
  }

  lemma ReadableDue(b: Book)
    requires b in SOUND && b.status.Active? && Readable(b) && b.executions == []
    ensures DueOrPaid(b.installments, b.charges)
  {
    ActiveRows(b);
    forall i | 0 <= i < |b.installments| ensures IsLive(Dues(b.installments, b.charges)[i]) || b.installments[i].status.Paid? {
      assert ReadsPaid(b.installments[i]) && ValidInstallment(b.installments[i]);
    }
  }

  // A contract signed on installments that all carry an amount, and never written off in part, is
  // closed by the payment that brings it to zero, whatever happened before.
  lemma PaidOffIsClosed(b: Book, commands: seq<Command>, reference: string)
    requires Signed(b) && (forall i :: 0 <= i < |b.installments| ==> b.installments[i].principal + b.installments[i].profit > 0)
    requires forall k :: 0 <= k < |commands| ==> Configured(commands[k])
    requires var d := Run(b, commands);
      d.executions == [] && PayVerdict(d, reference, TotalOutstanding(d.installments, d.charges)).Accepted?
    ensures var d := Run(b, commands); Pay(d, reference, TotalOutstanding(d.installments, d.charges)).0.status.Closed?
  {
    SignedReadable(b);
    hide *;
    var d := Run(b, commands);
    SignedIsSound(b);
    RunKeeps(b, commands);
    RunKeepsReadable(b, commands);
    AcceptedActive(d, reference, TotalOutstanding(d.installments, d.charges));
    ReadableDue(d);
    PayoffCloses(d, reference);
  }

  lemma SignedReadable(b: Book)
    requires Signed(b) && (forall i :: 0 <= i < |b.installments| ==> b.installments[i].principal + b.installments[i].profit > 0)
    ensures Readable(b)
  {
    forall i | 0 <= i < |b.installments| ensures ReadsPaid(b.installments[i]) {
      assert Untouched(b.installments[i]);
    }
  }
}
