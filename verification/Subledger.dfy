// app/models/contract.py and app/models/payment.py: the installment schedule and the late-fee
// charges of one contract, with the row updates the services make to them.
// An installment's id is its position in the schedule; a charge's id is its position in
// assessment order.
module Subledger {
  import opened Sums
  import M = Money
  import W = Waterfall

  datatype FeeStatus = Assessed | Waived | FeePaid | FeeWrittenOff

  datatype Charge = Charge(inst: nat, amount: int, paid: int, writtenOff: int, status: FeeStatus) {
    function Outstanding(): int { if status.Waived? then 0 else amount - paid - writtenOff }
  }

  datatype InstallmentStatus = Pending | PartiallyPaid | Overdue | Paid | WrittenOff

  datatype Installment = Installment(dueDate: int, principal: int, profit: int, principalPaid: int, profitPaid: int,
                                     principalWrittenOff: int, profitWrittenOff: int, status: InstallmentStatus) {
    function PrincipalOutstanding(): int { principal - principalPaid - principalWrittenOff }

    function ProfitOutstanding(): int { profit - profitPaid - profitWrittenOff }

    predicate FullyPaid() { PrincipalOutstanding() <= 0 && ProfitOutstanding() <= 0 }

    predicate HasAnyPayment() { principalPaid > 0 || profitPaid > 0 }
  }

  // Column views, for summing.
  function PrincipalOf(i: Installment): int { i.principal }
  function ProfitOf(i: Installment): int { i.profit }
  function PrincipalPaidOf(i: Installment): int { i.principalPaid }
  function ProfitPaidOf(i: Installment): int { i.profitPaid }
  function PrincipalOffOf(i: Installment): int { i.principalWrittenOff }
  function ProfitOffOf(i: Installment): int { i.profitWrittenOff }
  function PrincipalOutstanding(i: Installment): int { i.PrincipalOutstanding() }
  function ProfitOutstanding(i: Installment): int { i.ProfitOutstanding() }
  function FeeAmount(c: Charge): int { c.amount }
  function FeePaidAmount(c: Charge): int { c.paid }
  function FeeOffAmount(c: Charge): int { c.writtenOff }
  function FeeOutstanding(c: Charge): int { c.Outstanding() }
  function FeeCounted(c: Charge): int { if c.status.Waived? then 0 else c.amount }
  function LineProfit(l: W.Line): int { l.profit }
  function LinePrincipal(l: W.Line): int { l.principal }
  function LineFee(l: W.Line): int { l.lateFee }

  // -------------------------------------------------------------------------
  // Balances
  // -------------------------------------------------------------------------

  // Installment.late_fee_outstanding
  function LateFeeOf(charges: seq<Charge>, i: nat): int {
    if charges == [] then 0
    else (if charges[0].inst == i then charges[0].Outstanding() else 0) + LateFeeOf(charges[1..], i)
  }

  function Dues(insts: seq<Installment>, charges: seq<Charge>): (due: seq<W.Outstanding>)
    ensures |due| == |insts|
    ensures forall i :: 0 <= i < |insts| ==>
      due[i] == W.Outstanding(i, i + 1, LateFeeOf(charges, i), insts[i].ProfitOutstanding(), insts[i].PrincipalOutstanding())
  {
    seq(|insts|, i requires 0 <= i < |insts| =>
      W.Outstanding(i, i + 1, LateFeeOf(charges, i), insts[i].ProfitOutstanding(), insts[i].PrincipalOutstanding()))
  }

  predicate IsLive(d: W.Outstanding) { d.principal > 0 || d.profit > 0 || d.lateFee > 0 }

  function Live(due: seq<W.Outstanding>): seq<W.Outstanding> {
    if due == [] then [] else (if IsLive(due[0]) then [due[0]] else []) + Live(due[1..])
  }

  // build_receivable(): principal plus profit, and the late fees beside them.
  function TotalOutstanding(insts: seq<Installment>, charges: seq<Charge>): int {
    Sum(insts, PrincipalOutstanding) + Sum(insts, ProfitOutstanding) + Sum(charges, FeeOutstanding)
  }

  // -------------------------------------------------------------------------
  // Payment application (app/services/payments.py)
  // -------------------------------------------------------------------------

  function WithStatus(i: Installment): Installment {
    if i.FullyPaid() then i.(status := Paid)
    else if i.status.Overdue? then i
    else if i.HasAnyPayment() then i.(status := PartiallyPaid)
    else i
  }

  function ApplyLine(i: Installment, line: W.Line): Installment {
    WithStatus(i.(profitPaid := i.profitPaid + line.profit, principalPaid := i.principalPaid + line.principal))
  }

  function PayCharge(c: Charge, take: int): Charge {
    if take <= 0 then c
    else c.(paid := c.paid + take, status := if c.paid + take >= c.amount then FeePaid else c.status)
  }

  predicate Payable(c: Charge, i: nat) { c.inst == i && !c.status.Waived? }

  // What one charge takes of the money meant for installment i.
  function FeeTake(c: Charge, i: nat, amount: int): int {
    if Payable(c, i) then Max(0, Min(amount, c.amount - c.paid)) else 0
  }

  // _apply_late_fee(): the installment's charges, oldest first, waived ones skipped.
  function ApplyFee(charges: seq<Charge>, i: nat, amount: int): (after: seq<Charge>)
    ensures |after| == |charges|
  {
    if charges == [] then []
    else
      var c := charges[0];
      var take := FeeTake(c, i, amount);
      [PayCharge(c, take)] + ApplyFee(charges[1..], i, amount - take)
  }

  function ApplyFees(charges: seq<Charge>, lines: seq<W.Line>): (after: seq<Charge>)
    ensures |after| == |charges|
    decreases |lines|
  {
    if lines == [] then charges
    else ApplyFees(ApplyFee(charges, lines[0].id, lines[0].lateFee), lines[1..])
  }

  function ApplyAt(insts: seq<Installment>, line: W.Line): (after: seq<Installment>)
    ensures |after| == |insts|
  {
    if line.id < |insts| then insts[line.id := ApplyLine(insts[line.id], line)] else insts
  }

  function ApplyLines(insts: seq<Installment>, lines: seq<W.Line>): (after: seq<Installment>)
    ensures |after| == |insts|
    decreases |lines|
  {
    if lines == [] then insts else ApplyLines(ApplyAt(insts, lines[0]), lines[1..])
  }

  // -------------------------------------------------------------------------
  // Close-out (app/services/closure.py)
  // -------------------------------------------------------------------------

  function ClosedOut(i: Installment): Installment {
    i.(principalPaid := i.principal, profitPaid := i.profit, status := Paid)
  }

  function FeeClosedOut(c: Charge): Charge {
    if c.status.Waived? then c else c.(paid := c.amount, status := FeePaid)
  }

  function CloseOutInstallments(insts: seq<Installment>): (after: seq<Installment>)
    ensures |after| == |insts|
    ensures forall i :: 0 <= i < |insts| ==> after[i] == ClosedOut(insts[i])
  {
    seq(|insts|, i requires 0 <= i < |insts| => ClosedOut(insts[i]))
  }

  function CloseOutCharges(charges: seq<Charge>): (after: seq<Charge>)
    ensures |after| == |charges|
    ensures forall i :: 0 <= i < |charges| ==> after[i] == FeeClosedOut(charges[i])
  {
    seq(|charges|, i requires 0 <= i < |charges| => FeeClosedOut(charges[i]))
  }

  // -------------------------------------------------------------------------
  // Overdue assessment (app/services/overdue.py)
  // -------------------------------------------------------------------------

  // Days of grace, the fee as a rate of the installment's scheduled total, and the cap on a
  // contract's fees; a cap of zero is no cap.
  datatype OverduePolicy = OverduePolicy(asOf: int, grace: int, rate: real, cap: int)

  function FeeFor(i: Installment, policy: OverduePolicy): int { M.Times(i.principal + i.profit, policy.rate) }

  predicate AlreadyCharged(charges: seq<Charge>, i: nat) {
    exists k :: 0 <= k < |charges| && Payable(charges[k], i)
  }

  predicate PastDue(i: Installment, policy: OverduePolicy) {
    i.dueDate < policy.asOf && !i.status.Paid?
  }

  predicate Charges(i: Installment, charges: seq<Charge>, id: nat, policy: OverduePolicy) {
    && PastDue(i, policy)
    && policy.asOf - i.dueDate > policy.grace
    && !AlreadyCharged(charges, id)
    && !(policy.cap > 0 && Sum(charges, FeeCounted) + FeeFor(i, policy) > policy.cap)
  }

  function MarkedOverdue(i: Installment, policy: OverduePolicy): Installment {
    if PastDue(i, policy) && !i.FullyPaid() then i.(status := Overdue) else i
  }

  // The charges once installments from `id` on have been assessed.
  function Assess(insts: seq<Installment>, charges: seq<Charge>, id: nat, policy: OverduePolicy): seq<Charge>
    requires id <= |insts|
    decreases |insts| - id
  {
    if id == |insts| then charges
    else
      var more := if Charges(insts[id], charges, id, policy) then [Charge(id, FeeFor(insts[id], policy), 0, 0, Assessed)] else [];
      Assess(insts, charges + more, id + 1, policy)
  }

  function MarkOverdue(insts: seq<Installment>, policy: OverduePolicy): (after: seq<Installment>)
    ensures |after| == |insts|
    ensures forall i :: 0 <= i < |insts| ==> after[i] == MarkedOverdue(insts[i], policy)
  {
    seq(|insts|, i requires 0 <= i < |insts| => MarkedOverdue(insts[i], policy))
  }

  // -------------------------------------------------------------------------
  // Write-off sweeps (app/services/write_off.py)
  // -------------------------------------------------------------------------

  datatype Component = PrincipalPart | ProfitPart

  function Part(i: Installment, part: Component): int {
    if part.PrincipalPart? then i.PrincipalOutstanding() else i.ProfitOutstanding()
  }

  function WriteOffPart(i: Installment, part: Component, take: int): Installment {
    if take <= 0 then i
    else
      var j := if part.PrincipalPart? then i.(principalWrittenOff := i.principalWrittenOff + take)
               else i.(profitWrittenOff := i.profitWrittenOff + take);
      if j.FullyPaid() then j.(status := WrittenOff) else j
  }

  // _write_off_installment_component(): oldest installment first, one component at a time.
  function Sweep(insts: seq<Installment>, part: Component, amount: int): (after: seq<Installment>)
    ensures |after| == |insts|
  {
    if insts == [] then []
    else
      var take := W.Take(amount, Part(insts[0], part));
      [WriteOffPart(insts[0], part, take)] + Sweep(insts[1..], part, amount - take)
  }

  function WriteOffFee(c: Charge, take: int): Charge {
    if take <= 0 then c
    else
      var d := c.(writtenOff := c.writtenOff + take);
      if d.Outstanding() <= 0 && !d.status.Waived? then d.(status := FeeWrittenOff) else d
  }

  function SweepFees(charges: seq<Charge>, amount: int): (after: seq<Charge>)
    ensures |after| == |charges|
  {
    if charges == [] then []
    else
      var take := W.Take(amount, charges[0].Outstanding());
      [WriteOffFee(charges[0], take)] + SweepFees(charges[1..], amount - take)
  }
}
