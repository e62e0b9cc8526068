// One contract's books: its rows, its append-only ledger, its accounting events and the journals
// generated from them, with every service operation that moves them
// (payments.py, overdue.py, closure.py, approvals.py, write_off.py, offers.py, accounting.py).
module Books {
  import opened Options
  import opened Sums
  import opened Subledger
  import opened WriteOffs
  import M = Money
  import W = Waterfall
  import GL = GeneralLedger

  datatype ContractStatus = Created | Active | Closed

  datatype Closure = Normal | EarlySettlement | Cancellation | Return | WriteOff

  // What the sales order and the contract fix at signing.
  datatype Terms = Terms(salePrice: int, totalProfit: int, downPayment: int)

  datatype Payment = Payment(reference: string, amount: int, applied: int, unallocated: int)

  datatype EntryKind =
    | PrincipalPaid | ProfitRecognized | ProfitRebated | LateFeePaid | LateFeeWaived | RefundIssued
    | PrincipalOff | ProfitOff | LateFeeOff
    | ReturnPrincipal | ReturnLateFee | ReturnRetained | ReturnWaived

  datatype Source = FromPayment(id: nat) | FromClosure | FromApproval(id: nat) | FromWriteOff(id: nat)

  datatype Entry = Entry(kind: EntryKind, amount: int, source: Source)

  // The unique event_reference that makes emit() idempotent.
  datatype Key =
    | ActivatedKey | DownPaymentKey | PaymentKey(payment: nat) | ProfitKey(payment: nat)
    | ChargedKey(charge: nat) | WaivedKey(charge: nat) | ClosureKey
    | WriteOffKey(execution: nat) | ReleaseKey(execution: nat)

  datatype Event = Event(kind: GL.EventType, key: Key, amount: int)

  datatype Decision = Pending | Approved | Rejected

  datatype Waiver = Waiver(charge: nat, requestedBy: nat, decision: Decision, decidedBy: nat)

  datatype Book = Book(
    terms: Terms,
    status: ContractStatus,
    closure: Option<Closure>,
    installments: seq<Installment>,
    charges: seq<Charge>,
    unearned: int,
    payments: seq<Payment>,
    waivers: seq<Waiver>,
    executions: seq<Execution>,
    ledger: seq<Entry>,
    events: seq<Event>,
    journals: seq<GL.Journal>)

  datatype Refusal =
    | NotFound | WrongStatus | AlreadyClosed | MissingReference | NotPositive | ExceedsOutstanding
    | BothRebates | RebateOutOfRange | AmountMismatch | DuplicateReference
    | NotAssessed | AlreadyPending | NotPending | OwnRequest

  // A refused operation leaves the book as it was; so does the replay of a payment.
  datatype Verdict = Accepted | Replayed | Refused(reason: Refusal)

  // -------------------------------------------------------------------------
  // Ledger and events
  // -------------------------------------------------------------------------

  function Record(ledger: seq<Entry>, kind: EntryKind, amount: int, source: Source): seq<Entry> {
    if amount > 0 then ledger + [Entry(kind, amount, source)] else ledger
  }

  function LedgerSum(ledger: seq<Entry>, kind: EntryKind): int {
    if ledger == [] then 0
    else
      var last := ledger[|ledger| - 1];
      LedgerSum(ledger[..|ledger| - 1], kind) + if last.kind == kind then last.amount else 0
  }

  // The closure resolvers read only the rows the closure itself wrote.
  function ClosureSum(ledger: seq<Entry>, kind: EntryKind): int {
    if ledger == [] then 0
    else
      var last := ledger[|ledger| - 1];
      ClosureSum(ledger[..|ledger| - 1], kind) + if last.kind == kind && last.source.FromClosure? then last.amount else 0
  }

  function Resolve(b: Book, e: Event, source: GL.AmountSource): Option<int> {
    match source
    case EventAmount => Some(e.amount)
    case DownPayment => Some(b.terms.downPayment)
    case CashPrice => Some(b.terms.salePrice - b.terms.totalProfit)
    case TotalProfit => Some(b.terms.totalProfit)
    case GrossReceivable =>
      Some(b.terms.salePrice - b.terms.totalProfit - b.terms.downPayment + b.terms.totalProfit)
    case SettledPayoff =>
      FromClosureRow(e, ClosureSum(b.ledger, PrincipalPaid) + ClosureSum(b.ledger, LateFeePaid) + ClosureSum(b.ledger, ProfitRecognized))
    case SettledProfit => FromClosureRow(e, ClosureSum(b.ledger, ProfitRecognized))
    case RebatedProfit => FromClosureRow(e, ClosureSum(b.ledger, ProfitRebated))
    case ReturnedPrincipal => FromClosureRow(e, ClosureSum(b.ledger, ReturnPrincipal))
    case ReturnedLateFee => FromClosureRow(e, ClosureSum(b.ledger, ReturnLateFee))
    case RetainedProfit => FromClosureRow(e, ClosureSum(b.ledger, ReturnRetained))
    case WaivedProfit => FromClosureRow(e, ClosureSum(b.ledger, ReturnWaived))
    case WrittenOffPrincipal => FromExecution(b, e, (x: Execution) => x.principal)
    case WrittenOffProfit => FromExecution(b, e, (x: Execution) => x.profit)
    case WrittenOffLateFee => FromExecution(b, e, (x: Execution) => x.lateFee)
    case ProvisionUsed => FromExecution(b, e, (x: Execution) => Min(x.provision, x.Total()))
    case ExpenseExcess => FromExecution(b, e, (x: Execution) => Max(0, x.Total() - x.provision))
  }

  function FromClosureRow(e: Event, amount: int): Option<int> {
    if e.key.ClosureKey? then Some(amount) else None
  }

  function FromExecution(b: Book, e: Event, pick: Execution -> int): Option<int> {
    if e.key.WriteOffKey? && e.key.execution < |b.executions| then Some(pick(b.executions[e.key.execution])) else None
  }

  function AmountsOf(b: Book, e: Event): GL.Amounts {
    source => Resolve(b, e, source)
  }

  predicate Known(events: seq<Event>, key: Key) {
    exists k :: 0 <= k < |events| && events[k].key == key
  }

  // emit(): a new event and its journal, or nothing when the reference was used before.
  function Emit(b: Book, kind: GL.EventType, key: Key, amount: int): Book {
    if Known(b.events, key) then b
    else
      var e := Event(kind, key, amount);
      var recorded := b.(events := b.events + [e]);
      match GL.JournalFor(kind, AmountsOf(b, e))
      case None => recorded
      case Some(j) => recorded.(journals := b.journals + [j])
  }

  // -------------------------------------------------------------------------
  // Delivery (offers.confirm_delivery)
  // -------------------------------------------------------------------------

  function Deliver(b: Book): (Book, Verdict) {
    if !b.status.Created? then (b, Refused(WrongStatus))
    else
      var live := b.(status := Active);
      var activated := Emit(live, GL.ContractActivated, ActivatedKey, b.terms.salePrice);
      (Emit(activated, GL.DownPaymentReceived, DownPaymentKey, b.terms.downPayment), Accepted)
  }

  // -------------------------------------------------------------------------
  // Overdue job (overdue.assess_overdue), for this contract
  // -------------------------------------------------------------------------

  // Events for the charges from `c` on.
  function EmitCharges(b: Book, charges: seq<Charge>, c: nat): Book
    decreases |charges| - c
  {
    if c >= |charges| then b
    else EmitCharges(Emit(b, GL.LateFeeCharged, ChargedKey(c), charges[c].amount), charges, c + 1)
  }

  function AssessOverdue(b: Book, policy: OverduePolicy): (Book, Verdict) {
    if !b.status.Active? then (b, Accepted)
    else
      var charges := Assess(b.installments, b.charges, 0, policy);
      var marked := b.(installments := MarkOverdue(b.installments, policy), charges := charges);
      (EmitCharges(marked, charges, |b.charges|), Accepted)
  }

  // -------------------------------------------------------------------------
  // Payments (payments.record_payment, closure.close_if_fully_repaid)
  // -------------------------------------------------------------------------

  predicate HasReference(payments: seq<Payment>, reference: string) {
    exists k :: 0 <= k < |payments| && payments[k].reference == reference
  }

  function LineEntries(ledger: seq<Entry>, l: W.Line, payment: nat): seq<Entry> {
    Record(Record(Record(ledger, LateFeePaid, l.lateFee, FromPayment(payment)),
                  ProfitRecognized, l.profit, FromPayment(payment)),
           PrincipalPaid, l.principal, FromPayment(payment))
  }

  function PaymentEntries(ledger: seq<Entry>, lines: seq<W.Line>, payment: nat): seq<Entry>
    decreases |lines|
  {
    if lines == [] then ledger else PaymentEntries(LineEntries(ledger, lines[0], payment), lines[1..], payment)
  }

  predicate AllPaid(insts: seq<Installment>) {
    forall i :: 0 <= i < |insts| ==> insts[i].status.Paid?
  }

  function CloseIfRepaid(b: Book): Book {
    if !b.status.Active? || b.closure.Some? || !AllPaid(b.installments)
      || Sum(b.installments, PrincipalOutstanding) + Sum(b.installments, ProfitOutstanding) > 0
      || Sum(b.charges, FeeOutstanding) > 0
    then b
    else Emit(b.(status := Closed, closure := Some(Normal)), GL.ContractClosed, ClosureKey, 0)
  }

  function ApplyPlan(b: Book, reference: string, amount: int, plan: W.Allocation): Book {
    var n := |b.payments|;
    b.(payments := b.payments + [Payment(reference, amount, plan.applied, plan.unallocated)],
       installments := ApplyLines(b.installments, plan.lines),
       charges := ApplyFees(b.charges, plan.lines),
       unearned := b.unearned - Sum(plan.lines, LineProfit),
       ledger := PaymentEntries(b.ledger, plan.lines, n))
  }

  function EmitPayment(b: Book, n: nat, amount: int, profit: int): Book {
    var received := Emit(b, GL.PaymentReceived, PaymentKey(n), amount);
    if profit > 0 then Emit(received, GL.ProfitRecognized, ProfitKey(n), profit) else received
  }

  function PayPlan(b: Book, amount: int): W.Allocation {
    W.Plan(amount, Live(Dues(b.installments, b.charges)))
  }

  function PayVerdict(b: Book, reference: string, amount: int): Verdict {
    if reference == "" then Refused(MissingReference)
    else if HasReference(b.payments, reference) then Replayed
    else if !b.status.Active? then Refused(WrongStatus)
    else if amount <= 0 then Refused(NotPositive)
    else if amount > TotalOutstanding(b.installments, b.charges) then Refused(ExceedsOutstanding)
    else Accepted
  }

  function Pay(b: Book, reference: string, amount: int): (Book, Verdict) {
    var verdict := PayVerdict(b, reference, amount);
    if !verdict.Accepted? then (b, verdict)
    else
      var plan := PayPlan(b, amount);
      var applied := ApplyPlan(b, reference, amount, plan);
      (CloseIfRepaid(EmitPayment(applied, |b.payments|, amount, Sum(plan.lines, LineProfit))), Accepted)
  }

  // -------------------------------------------------------------------------
  // Waivers under maker-checker (approvals.decide, api/approvals.request_waiver)
  // -------------------------------------------------------------------------

  predicate PendingFor(waivers: seq<Waiver>, charge: nat) {
    exists k :: 0 <= k < |waivers| && waivers[k].charge == charge && waivers[k].decision.Pending?
  }

  function RequestWaiver(b: Book, charge: nat, user: nat): (Book, Verdict) {
    if charge >= |b.charges| then (b, Refused(NotFound))
    else if !b.charges[charge].status.Assessed? then (b, Refused(NotAssessed))
    else if PendingFor(b.waivers, charge) then (b, Refused(AlreadyPending))
    else (b.(waivers := b.waivers + [Waiver(charge, user, Decision.Pending, 0)]), Accepted)
  }

  function DecideWaiver(b: Book, request: nat, user: nat, approve: bool): (Book, Verdict) {
    if request >= |b.waivers| then (b, Refused(NotFound))
    else if !b.waivers[request].decision.Pending? then (b, Refused(NotPending))
    else if user == b.waivers[request].requestedBy then (b, Refused(OwnRequest))
    else
      var w := b.waivers[request].(decision := if approve then Approved else Rejected, decidedBy := user);
      var decided := b.(waivers := b.waivers[request := w]);
      if !approve then (decided, Accepted)
      else if w.charge >= |b.charges| then (b, Refused(NotFound))
      else (Waive(decided, w.charge, request), Accepted)
  }

  function Waive(b: Book, charge: nat, request: nat): Book
    requires charge < |b.charges|
  {
    var c := b.charges[charge];
    var amount := c.amount - c.paid;
    Emit(b.(charges := b.charges[charge := c.(status := Waived)],
            ledger := Record(b.ledger, LateFeeWaived, amount, FromApproval(request))),
         GL.LateFeeWaived, WaivedKey(charge), amount)
  }

  // -------------------------------------------------------------------------
  // Settlement, return, cancellation (closure.py)
  // -------------------------------------------------------------------------

  datatype RebateRequest = NoRequest | ByPct(pct: real) | ByAmount(amount: int) | BothGiven

  datatype Quote = Quote(principal: int, lateFees: int, unearned: int, rebate: int, charged: int, payoff: int, deviation: bool)

  datatype QuoteResult = Quoted(quote: Quote) | NoQuote(reason: Refusal)

  function RebateOf(unearned: int, request: RebateRequest, defaultPct: real): int {
    match request
    case ByPct(pct) => M.Times(unearned, pct)
    case ByAmount(amount) => amount
    case _ => M.Times(unearned, defaultPct)
  }

  predicate RebateRefused(unearned: int, request: RebateRequest) {
    match request
    case ByPct(pct) => pct < 0.0 || pct > 1.0
    case ByAmount(amount) => amount < 0 || amount > unearned
    case _ => false
  }

  function QuoteFor(b: Book, request: RebateRequest, defaultPct: real): QuoteResult {
    if b.status.Closed? then NoQuote(AlreadyClosed)
    else if !b.status.Active? then NoQuote(WrongStatus)
    else if request.BothGiven? then NoQuote(BothRebates)
    else if RebateRefused(b.unearned, request) then NoQuote(RebateOutOfRange)
    else
      var principal := Sum(b.installments, PrincipalOutstanding);
      var lateFees := Sum(b.charges, FeeOutstanding);
      var rebate := RebateOf(b.unearned, request, defaultPct);
      var charged := b.unearned - rebate;
      Quoted(Quote(principal, lateFees, b.unearned, rebate, charged, principal + lateFees + charged,
                   rebate != M.Times(b.unearned, defaultPct)))
  }

  // _close_out_schedule()
  function CloseOut(b: Book): Book {
    b.(installments := CloseOutInstallments(b.installments), charges := CloseOutCharges(b.charges), unearned := 0)
  }

  function SettlementEntries(ledger: seq<Entry>, q: Quote): seq<Entry> {
    Record(Record(Record(Record(ledger, PrincipalPaid, q.principal, FromClosure),
                         LateFeePaid, q.lateFees, FromClosure),
                  ProfitRecognized, q.charged, FromClosure),
           ProfitRebated, q.rebate, FromClosure)
  }

  function ReturnEntries(ledger: seq<Entry>, q: Quote): seq<Entry> {
    Record(Record(Record(Record(ledger, ReturnPrincipal, q.principal, FromClosure),
                         ReturnLateFee, q.lateFees, FromClosure),
                  ReturnRetained, q.charged, FromClosure),
           ReturnWaived, q.rebate, FromClosure)
  }

  function SettleWith(b: Book, reference: string, q: Quote): Book {
    Emit(CloseOut(b).(payments := b.payments + [Payment(reference, q.payoff, q.payoff, 0)],
                      status := Closed, closure := Some(EarlySettlement),
                      ledger := SettlementEntries(b.ledger, q)),
         GL.EarlySettlement, ClosureKey, 0)
  }

  function Settle(b: Book, reference: string, amount: int, request: RebateRequest, defaultPct: real): (Book, Verdict) {
    match QuoteFor(b, request, defaultPct)
    case NoQuote(reason) => (b, Refused(reason))
    case Quoted(q) =>
      if amount != q.payoff then (b, Refused(AmountMismatch))
      else if HasReference(b.payments, reference) then (b, Refused(DuplicateReference))
      else (SettleWith(b, reference, q), Accepted)
  }

  function ReturnWith(b: Book, q: Quote, net: int): Book {
    var entries := ReturnEntries(b.ledger, q);
    Emit(CloseOut(b).(status := Closed, closure := Some(Return),
                      ledger := if net != 0 then entries + [Entry(RefundIssued, net, FromClosure)] else entries),
         GL.Return, ClosureKey, net)
  }

  function ReturnGoods(b: Book, defaultPct: real, refundPct: real): (Book, Verdict) {
    if b.status.Closed? then (b, Refused(AlreadyClosed))
    else if b.status.Created? then (b, Refused(WrongStatus))
    else
      match QuoteFor(b, NoRequest, defaultPct)
      case NoQuote(reason) => (b, Refused(reason))
      case Quoted(q) => (ReturnWith(b, q, M.Times(b.terms.downPayment, refundPct) - q.payoff), Accepted)
  }

  function Cancel(b: Book, refundPct: real): (Book, Verdict) {
    if b.status.Closed? then (b, Refused(AlreadyClosed))
    else if !b.status.Created? then (b, Refused(WrongStatus))
    else
      var refund := M.Times(b.terms.downPayment, refundPct);
      (Emit(b.(unearned := 0, status := Closed, closure := Some(Cancellation),
               ledger := Record(b.ledger, RefundIssued, refund, FromClosure)),
            GL.Cancellation, ClosureKey, refund), Accepted)
  }

  // -------------------------------------------------------------------------
  // Execution of an approved write-off (write_off.execute_write_off)
  // -------------------------------------------------------------------------

  function SweepEntries(ledger: seq<Entry>, insts: seq<Installment>, part: Component, amount: int, n: nat): seq<Entry>
    decreases |insts|
  {
    if insts == [] then ledger
    else
      var take := W.Take(amount, Part(insts[0], part));
      SweepEntries(Record(ledger, if part.PrincipalPart? then PrincipalOff else ProfitOff, take, FromWriteOff(n)),
                   insts[1..], part, amount - take, n)
  }

  function SweepFeeEntries(ledger: seq<Entry>, charges: seq<Charge>, amount: int, n: nat): seq<Entry>
    decreases |charges|
  {
    if charges == [] then ledger
    else
      var take := W.Take(amount, charges[0].Outstanding());
      SweepFeeEntries(Record(ledger, LateFeeOff, take, FromWriteOff(n)), charges[1..], amount - take, n)
  }

  // The three independent sweeps; `x` is what the request asked for.
  function Swept(b: Book, x: Execution): Book {
    var n := |b.executions|;
    var first := Sweep(b.installments, PrincipalPart, x.principal);
    var l1 := SweepEntries(b.ledger, b.installments, PrincipalPart, x.principal, n);
    var l2 := SweepEntries(l1, first, ProfitPart, x.profit, n);
    b.(installments := Sweep(first, ProfitPart, x.profit),
       charges := SweepFees(b.charges, x.lateFee),
       ledger := SweepFeeEntries(l2, b.charges, x.lateFee, n),
       executions := b.executions + [x])
  }

  function WriteOffWith(b: Book, full: bool, x: Execution): Book {
    var n := |b.executions|;
    var swept := Swept(b, x);
    var closed := if full then swept.(status := Closed, closure := Some(WriteOff)) else swept;
    var emitted := Emit(closed, if full then GL.WriteOffExecuted else GL.PartialWriteOffExecuted, WriteOffKey(n), x.Total());
    Release(emitted, n, x)
  }

  // The write-off releases the contract's current provision, if it has one.
  function Release(b: Book, n: nat, x: Execution): Book {
    if x.provision > 0 then Emit(b, GL.EclReleased, ReleaseKey(n), -x.provision) else b
  }

  function ExecuteWriteOff(b: Book, full: bool, x: Execution): (Book, Verdict) {
    if !b.status.Active? then (b, Refused(WrongStatus))
    else if x.principal > Sum(b.installments, PrincipalOutstanding)
      || x.profit > Sum(b.installments, ProfitOutstanding)
      || x.lateFee > Sum(b.charges, FeeOutstanding)
    then (b, Refused(ExceedsOutstanding))
    else (WriteOffWith(b, full, x), Accepted)
  }

  // -------------------------------------------------------------------------
  // Runs
  // -------------------------------------------------------------------------

  datatype Command =
    | DoDeliver
    | DoAssess(policy: OverduePolicy)
    | DoPay(reference: string, amount: int)
    | DoRequestWaiver(charge: nat, user: nat)
    | DoDecideWaiver(request: nat, user: nat, approve: bool)
    | DoSettle(reference: string, amount: int, rebate: RebateRequest, defaultPct: real)
    | DoReturn(defaultPct: real, refundPct: real)
    | DoCancel(refundPct: real)
    | DoWriteOff(full: bool, requested: Execution)

  function Step(b: Book, c: Command): Book {
    match c
    case DoDeliver => Deliver(b).0
    case DoAssess(policy) => AssessOverdue(b, policy).0
    case DoPay(reference, amount) => Pay(b, reference, amount).0
    case DoRequestWaiver(charge, user) => RequestWaiver(b, charge, user).0
    case DoDecideWaiver(request, user, approve) => DecideWaiver(b, request, user, approve).0
    case DoSettle(reference, amount, request, pct) => Settle(b, reference, amount, request, pct).0
    case DoReturn(pct, refund) => ReturnGoods(b, pct, refund).0
    case DoCancel(refund) => Cancel(b, refund).0
    case DoWriteOff(full, x) => ExecuteWriteOff(b, full, x).0
  }

  function Run(b: Book, commands: seq<Command>): Book
    decreases |commands|
  {
    if commands == [] then b else Run(Step(b, commands[0]), commands[1..])
  }

  // The shipped configuration's ranges: fees are not negative, percentages are fractions,
  // and a write-off request asks for no negative component.
  predicate Configured(c: Command) {
    match c
    case DoAssess(policy) => policy.rate >= 0.0
    case DoSettle(_, _, _, pct) => 0.0 <= pct <= 1.0
    case DoReturn(pct, _) => 0.0 <= pct <= 1.0
    case DoCancel(refund) => refund >= 0.0
    case DoWriteOff(_, x) => x.principal >= 0 && x.profit >= 0 && x.lateFee >= 0 && x.provision >= 0
    case _ => true
  }
}
