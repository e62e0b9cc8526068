// Loop steps: how the services' loops over rows relate to the functions that specify them.
module AccountLoops {
  import opened Sums
  import opened Subledger
  import opened Books
  import W = Waterfall

  lemma {:induction false} FeeSpent(charges: seq<Charge>, i: nat, amount: int)
    requires charges == [] || amount <= 0
    ensures ApplyFee(charges, i, amount) == charges
  {
    if charges != [] {
      FeeSpent(charges[1..], i, amount);
    }
  }

  lemma FeeStart(charges: seq<Charge>, i: nat, amount: int)
    ensures ApplyFee(charges, i, amount) == charges[..0] + ApplyFee(charges[0..], i, amount)
  {
    assert charges[0..] == charges;
  }

  // One turn of the loop over the charges.
  lemma FeeStep(charges: seq<Charge>, i: nat, amount: int, k: nat)
    requires k < |charges|
    ensures var take := FeeTake(charges[k], i, amount); var after := charges[k := PayCharge(charges[k], take)];
      charges[..k] + ApplyFee(charges[k..], i, amount) == after[..k + 1] + ApplyFee(after[k + 1..], i, amount - take)
  {
    var take := FeeTake(charges[k], i, amount);
    var after := charges[k := PayCharge(charges[k], take)];
    assert charges[k..][1..] == charges[k + 1..] == after[k + 1..];
    assert after[..k + 1] == charges[..k] + [PayCharge(charges[k], take)];
  }

  lemma {:induction false} LiveIds(due: seq<W.Outstanding>, n: nat)
    requires forall i :: 0 <= i < |due| ==> due[i].id < n
    ensures forall i :: 0 <= i < |Live(due)| ==> Live(due)[i].id < n
  {
    if due != [] {
      LiveIds(due[1..], n);
    }
  }

  predicate Sensible(l: W.Line, n: nat) {
    l.id < n && l.lateFee >= 0 && l.profit >= 0 && l.principal >= 0
  }

  lemma {:induction false} WalkSensible(p: int, due: seq<W.Outstanding>, n: nat)
    requires forall i :: 0 <= i < |due| ==> due[i].id < n
    ensures forall i :: 0 <= i < |W.Kept(W.Walk(p, due))| ==> Sensible(W.Kept(W.Walk(p, due))[i], n)
  {
    if due != [] {
      var l := W.LineFor(p, due[0]);
      assert W.Walk(p, due) == [l] + W.Walk(p - l.Total(), due[1..]);
      WalkSensible(p - l.Total(), due[1..], n);
    }
  }

  // A plan names only installments of the schedule and takes nothing negative.
  lemma PlanLines(p: int, insts: seq<Installment>, charges: seq<Charge>, plan: W.Allocation)
    requires plan == W.Plan(p, Live(Dues(insts, charges)))
    ensures forall k :: 0 <= k < |plan.lines| ==> Sensible(plan.lines[k], |insts|)
  {
    var due := Live(Dues(insts, charges));
    LiveIds(Dues(insts, charges), |insts|);
    W.PlanIsWalk(p, due);
    WalkSensible(p, due, |insts|);
  }

  // -------------------------------------------------------------------------
  // The overdue job
  // -------------------------------------------------------------------------

  lemma AssessStep(insts: seq<Installment>, before: seq<Charge>, after: seq<Charge>, i: nat, policy: OverduePolicy)
    requires i < |insts|
    requires after == before + (if Charges(insts[i], before, i, policy) then [Charge(i, FeeFor(insts[i], policy), 0, 0, Assessed)] else [])
    ensures Assess(insts, after, i + 1, policy) == Assess(insts, before, i, policy)
  {
  }

  // -------------------------------------------------------------------------
  // Write-off sweeps
  // -------------------------------------------------------------------------

  function OffKind(part: Component): EntryKind { if part.PrincipalPart? then PrincipalOff else ProfitOff }

  lemma {:induction false} SweepSpent(insts: seq<Installment>, part: Component, amount: int, ledger: seq<Entry>, n: nat)
    requires insts == [] || amount <= 0
    ensures Sweep(insts, part, amount) == insts && SweepEntries(ledger, insts, part, amount, n) == ledger
  {
    if insts != [] {
      SweepSpent(insts[1..], part, amount, ledger, n);
    }
  }

  lemma SweepStart(insts: seq<Installment>, part: Component, amount: int, ledger: seq<Entry>, n: nat)
    ensures Sweep(insts, part, amount) == insts[..0] + Sweep(insts[0..], part, amount)
    ensures SweepEntries(ledger, insts[0..], part, amount, n) == SweepEntries(ledger, insts, part, amount, n)
  {
    assert insts[0..] == insts;
  }

  lemma SweepStep(insts: seq<Installment>, part: Component, amount: int, i: nat, ledger: seq<Entry>, n: nat)
    requires i < |insts| && amount > 0
    ensures var take := W.Take(amount, Part(insts[i], part)); var after := insts[i := WriteOffPart(insts[i], part, take)];
      && insts[..i] + Sweep(insts[i..], part, amount) == after[..i + 1] + Sweep(after[i + 1..], part, amount - take)
      && SweepEntries(ledger, insts[i..], part, amount, n) ==
           SweepEntries(Record(ledger, OffKind(part), take, FromWriteOff(n)), after[i + 1..], part, amount - take, n)
  {
    var take := W.Take(amount, Part(insts[i], part));
    var after := insts[i := WriteOffPart(insts[i], part, take)];
    assert insts[i..][1..] == insts[i + 1..] == after[i + 1..];
    assert after[..i + 1] == insts[..i] + [WriteOffPart(insts[i], part, take)];
  }

  lemma {:induction false} SweepFeeSpent(charges: seq<Charge>, amount: int, ledger: seq<Entry>, n: nat)
    requires charges == [] || amount <= 0
    ensures SweepFees(charges, amount) == charges && SweepFeeEntries(ledger, charges, amount, n) == ledger
  {
    if charges != [] {
      SweepFeeSpent(charges[1..], amount, ledger, n);
    }
  }

  lemma SweepFeeStart(charges: seq<Charge>, amount: int, ledger: seq<Entry>, n: nat)
    ensures SweepFees(charges, amount) == charges[..0] + SweepFees(charges[0..], amount)
    ensures SweepFeeEntries(ledger, charges[0..], amount, n) == SweepFeeEntries(ledger, charges, amount, n)
  {
    assert charges[0..] == charges;
  }

  lemma SweepFeeStep(charges: seq<Charge>, amount: int, i: nat, ledger: seq<Entry>, n: nat)
    requires i < |charges| && amount > 0
    ensures var take := W.Take(amount, charges[i].Outstanding()); var after := charges[i := WriteOffFee(charges[i], take)];
      && charges[..i] + SweepFees(charges[i..], amount) == after[..i + 1] + SweepFees(after[i + 1..], amount - take)
      && SweepFeeEntries(ledger, charges[i..], amount, n) ==
           SweepFeeEntries(Record(ledger, LateFeeOff, take, FromWriteOff(n)), after[i + 1..], amount - take, n)
  {
    var take := W.Take(amount, charges[i].Outstanding());
    var after := charges[i := WriteOffFee(charges[i], take)];
    assert charges[i..][1..] == charges[i + 1..] == after[i + 1..];
    assert after[..i + 1] == charges[..i] + [WriteOffFee(charges[i], take)];
  }

  // -------------------------------------------------------------------------
  // Runs
  // -------------------------------------------------------------------------

  lemma RunStart(b: Book, commands: seq<Command>)
    ensures Run(b, commands[0..]) == Run(b, commands)
  {
    assert commands[0..] == commands;
  }

  lemma RunStep(b: Book, commands: seq<Command>, k: nat)
    requires k < |commands|
    ensures Run(b, commands[k..]) == Run(Step(b, commands[k]), commands[k + 1..])
  {
    assert commands[k..][1..] == commands[k + 1..];
  }

  lemma RunEnd(b: Book, commands: seq<Command>)
    ensures Run(b, commands[|commands|..]) == b
  {
    assert commands[|commands|..] == [];
  }
}
