// What the row updates of the subledger do to its sums and to its validity.
module SubledgerLaws {
  import opened Sums
  import opened Subledger
  import W = Waterfall

  predicate ValidInstallment(i: Installment) {
    && i.principal >= 0 && i.profit >= 0
    && i.principalPaid >= 0 && i.profitPaid >= 0
    && i.principalWrittenOff >= 0 && i.profitWrittenOff >= 0
    && i.PrincipalOutstanding() >= 0 && i.ProfitOutstanding() >= 0
  }

  predicate ValidCharge(c: Charge) {
    && c.paid >= 0 && c.writtenOff >= 0
    && c.paid + c.writtenOff <= c.amount
  }

  // At most one charge of an installment is not waived.
  predicate OneFee(charges: seq<Charge>) {
    forall a, b :: 0 <= a < b < |charges| && charges[a].inst == charges[b].inst ==>
      charges[a].status.Waived? || charges[b].status.Waived?
  }

  predicate ValidCharges(charges: seq<Charge>) {
    (forall k :: 0 <= k < |charges| ==> ValidCharge(charges[k])) && OneFee(charges)
  }

  predicate Owned(charges: seq<Charge>, n: nat) {
    forall k :: 0 <= k < |charges| ==> charges[k].inst < n
  }

  predicate ValidInstallments(insts: seq<Installment>) {
    forall i :: 0 <= i < |insts| ==> ValidInstallment(insts[i])
  }

  // -------------------------------------------------------------------------
  // Late fees per installment
  // -------------------------------------------------------------------------

  lemma {:induction false} LateFeeOfNone(charges: seq<Charge>, i: nat)
    requires forall k :: 0 <= k < |charges| && charges[k].inst == i ==> charges[k].status.Waived?
    ensures LateFeeOf(charges, i) == 0
  {
    if charges != [] {
      LateFeeOfNone(charges[1..], i);
    }
  }

  lemma OneFeeTail(charges: seq<Charge>)
    requires charges != [] && OneFee(charges)
    ensures OneFee(charges[1..])
    ensures !charges[0].status.Waived? ==>
      forall k :: 0 <= k < |charges| - 1 && charges[1..][k].inst == charges[0].inst ==> charges[1..][k].status.Waived?
  {
  }

  // The one live charge of an installment is all of the installment's late fee.
  lemma {:induction false} OnlyFee(charges: seq<Charge>, k: nat)
    requires k < |charges| && OneFee(charges) && !charges[k].status.Waived?
    ensures LateFeeOf(charges, charges[k].inst) == charges[k].Outstanding()
  {
    OneFeeTail(charges);
    if k == 0 {
      LateFeeOfNone(charges[1..], charges[0].inst);
    } else {
      OnlyFee(charges[1..], k - 1);
    }
  }

  lemma {:induction false} LateFeeOfNonNegative(charges: seq<Charge>, i: nat)
    requires forall k :: 0 <= k < |charges| ==> ValidCharge(charges[k])
    ensures LateFeeOf(charges, i) >= 0
  {
    if charges != [] {
      LateFeeOfNonNegative(charges[1..], i);
    }
  }

  function FeesBelow(charges: seq<Charge>, n: nat): int {
    if n == 0 then 0 else FeesBelow(charges, n - 1) + LateFeeOf(charges, n - 1)
  }

  lemma {:induction false} FeesBelowHead(charges: seq<Charge>, n: nat)
    requires charges != []
    ensures FeesBelow(charges, n) == FeesBelow(charges[1..], n) + if charges[0].inst < n then charges[0].Outstanding() else 0
  {
    if n > 0 {
      FeesBelowHead(charges, n - 1);
    }
  }

  lemma {:induction false} FeesBelowNothing(n: nat)
    ensures FeesBelow([], n) == 0
  {
    if n > 0 {
      FeesBelowNothing(n - 1);
    }
  }

  // Late fees by installment add up to late fees by charge.
  lemma {:induction false} FeesPartition(charges: seq<Charge>, n: nat)
    requires Owned(charges, n)
    ensures FeesBelow(charges, n) == Sum(charges, FeeOutstanding)
  {
    if charges == [] {
      FeesBelowNothing(n);
    } else {
      FeesBelowHead(charges, n);
      FeesPartition(charges[1..], n);
    }
  }

  function DueFee(d: W.Outstanding): int { d.lateFee }
  function DueProfit(d: W.Outstanding): int { d.profit }
  function DuePrincipal(d: W.Outstanding): int { d.principal }

  lemma {:induction false} DueFees(insts: seq<Installment>, charges: seq<Charge>, n: nat)
    requires n <= |insts|
    ensures Sum(Dues(insts, charges)[..n], DueFee) == FeesBelow(charges, n)
  {
    if n > 0 {
      DueFees(insts, charges, n - 1);
      var due := Dues(insts, charges);
      assert due[..n] == due[..n - 1] + [due[n - 1]];
      SumSnoc(due[..n - 1], due[n - 1], DueFee);
    }
  }

  lemma {:induction false} TotalOwedByColumns(due: seq<W.Outstanding>)
    requires forall i :: 0 <= i < |due| ==> due[i].lateFee >= 0 && due[i].profit >= 0 && due[i].principal >= 0
    ensures W.TotalOwed(W.Flatten(due)) == Sum(due, DueFee) + Sum(due, DueProfit) + Sum(due, DuePrincipal)
  {
    if due != [] {
      W.FlattenHead(due);
      TotalOwedByColumns(due[1..]);
    }
  }

  // What the waterfall sees is exactly the contract's outstanding balance.
  lemma DuesAreOutstanding(insts: seq<Installment>, charges: seq<Charge>)
    requires ValidInstallments(insts) && ValidCharges(charges) && Owned(charges, |insts|)
    ensures W.TotalOwed(W.Flatten(Dues(insts, charges))) == TotalOutstanding(insts, charges)
  {
    var due := Dues(insts, charges);
    forall i | 0 <= i < |due| ensures due[i].lateFee >= 0 {
      LateFeeOfNonNegative(charges, i);
    }
    TotalOwedByColumns(due);
    DueFees(insts, charges, |insts|);
    assert due[..|insts|] == due;
    FeesPartition(charges, |insts|);
    SumSame(due, DueProfit, insts, ProfitOutstanding);
    SumSame(due, DuePrincipal, insts, PrincipalOutstanding);
  }

  // -------------------------------------------------------------------------
  // Allocation lines
  // -------------------------------------------------------------------------

  predicate Increasing(lines: seq<W.Line>) {
    forall a, b :: 0 <= a < b < |lines| ==> lines[a].id < lines[b].id
  }

  // Every line moves money it is allowed to move.
  predicate Fits(l: W.Line, insts: seq<Installment>, charges: seq<Charge>) {
    && l.id < |insts|
    && 0 <= l.lateFee <= LateFeeOf(charges, l.id)
    && 0 <= l.profit <= insts[l.id].ProfitOutstanding()
    && 0 <= l.principal <= insts[l.id].PrincipalOutstanding()
  }

  predicate AllFit(lines: seq<W.Line>, insts: seq<Installment>, charges: seq<Charge>) {
    forall k :: 0 <= k < |lines| ==> Fits(lines[k], insts, charges)
  }

  lemma {:induction false} WalkBounds(p: int, due: seq<W.Outstanding>, i: nat)
    requires i < |due|
    ensures var l := W.Walk(p, due)[i];
      && l.id == due[i].id
      && 0 <= l.lateFee <= W.Owed(due[i].lateFee)
      && 0 <= l.profit <= W.Owed(due[i].profit)
      && 0 <= l.principal <= W.Owed(due[i].principal)
  {
    if i > 0 {
      WalkBounds(p - W.LineFor(p, due[0]).Total(), due[1..], i - 1);
    }
  }

  // Lines in order, from an id on, that fit the rows.
  predicate Proper(lines: seq<W.Line>, insts: seq<Installment>, charges: seq<Charge>, least: nat) {
    Increasing(lines) && AllFit(lines, insts, charges) && forall k :: 0 <= k < |lines| ==> lines[k].id >= least
  }

  lemma ProperTail(lines: seq<W.Line>, insts: seq<Installment>, charges: seq<Charge>, least: nat)
    requires Proper(lines, insts, charges, least) && lines != []
    ensures Proper(lines[1..], insts, charges, lines[0].id + 1) && lines[0].id >= least && Fits(lines[0], insts, charges)
  {
    hide Fits;
  }

  lemma ProperHead(head: W.Line, lines: seq<W.Line>, insts: seq<Installment>, charges: seq<Charge>, least: nat)
    requires Proper(lines, insts, charges, head.id + 1) && head.id >= least && Fits(head, insts, charges)
    ensures Proper(lines, insts, charges, least) && Proper([head] + lines, insts, charges, least)
  {
    hide Fits;
  }

  // Dropping lines that move nothing keeps the rest in order and within the rows.
  lemma {:induction false} KeptIsProper(lines: seq<W.Line>, insts: seq<Installment>, charges: seq<Charge>, least: nat)
    requires Proper(lines, insts, charges, least)
    ensures Proper(W.Kept(lines), insts, charges, least)
  {
    if lines != [] {
      hide Proper, Fits;
      ProperTail(lines, insts, charges, least);
      KeptIsProper(lines[1..], insts, charges, lines[0].id + 1);
      ProperHead(lines[0], W.Kept(lines[1..]), insts, charges, least);
      KeptCons(lines);
    }
  }

  lemma KeptCons(lines: seq<W.Line>)
    requires lines != []
    ensures W.Kept(lines) == if lines[0].Total() > 0 then [lines[0]] + W.Kept(lines[1..]) else W.Kept(lines[1..])
  {
  }

  lemma {:induction false} KeptSum(lines: seq<W.Line>, f: W.Line -> int)
    requires forall k :: 0 <= k < |lines| && lines[k].Total() <= 0 ==> f(lines[k]) == 0
    ensures Sum(W.Kept(lines), f) == Sum(lines, f)
  {
    if lines != [] {
      KeptSum(lines[1..], f);
      SumAppend(if lines[0].Total() > 0 then [lines[0]] else [], W.Kept(lines[1..]), f);
    }
  }

  function KeptLines(p: int, due: seq<W.Outstanding>): seq<W.Line> { W.Kept(W.Walk(p, due)) }

  // Dropping the installments that owe nothing does not change the plan's lines.
  lemma {:induction false} LiveSameLines(p: int, due: seq<W.Outstanding>)
    ensures KeptLines(p, Live(due)) == KeptLines(p, due)
    decreases |due|
  {
    if due != [] {
      hide KeptLines, IsLive, Live;
      var l := W.LineFor(p, due[0]);
      LiveSameLines(p - l.Total(), due[1..]);
      LiveHead(due);
      KeptHead(p, due);
      if IsLive(due[0]) {
        KeptHead(p, Live(due));
      } else {
        NothingTaken(p, due[0]);
      }
    }
  }

  lemma LiveHead(due: seq<W.Outstanding>)
    requires due != []
    ensures if IsLive(due[0]) then Live(due) != [] && Live(due)[0] == due[0] && Live(due)[1..] == Live(due[1..])
            else Live(due) == Live(due[1..])
  {
  }

  lemma KeptHead(p: int, due: seq<W.Outstanding>)
    requires due != []
    ensures var l := W.LineFor(p, due[0]); var rest := KeptLines(p - l.Total(), due[1..]);
      KeptLines(p, due) == if l.Total() > 0 then [l] + rest else rest
  {
    hide W.LineFor;
    var l := W.LineFor(p, due[0]);
    assert W.Walk(p, due)[1..] == W.Walk(p - l.Total(), due[1..]);
  }

  lemma NothingTaken(p: int, d: W.Outstanding)
    requires !IsLive(d)
    ensures W.LineFor(p, d).Total() == 0
  {
  }

  lemma {:induction false} LiveSameOwed(due: seq<W.Outstanding>)
    ensures W.TotalOwed(W.Flatten(Live(due))) == W.TotalOwed(W.Flatten(due))
  {
    if due != [] {
      LiveSameOwed(due[1..]);
      W.FlattenHead(due);
      if IsLive(due[0]) {
        assert Live(due) == [due[0]] + Live(due[1..]);
        W.FlattenHead(Live(due));
      } else {
        assert Live(due) == Live(due[1..]);
      }
    }
  }

  lemma {:induction false} TotalByColumns(lines: seq<W.Line>)
    ensures Sum(lines, W.LineTotal) == Sum(lines, LineFee) + Sum(lines, LineProfit) + Sum(lines, LinePrincipal)
  {
    if lines != [] {
      TotalByColumns(lines[1..]);
    }
  }

  // The plan of a payment the contract can absorb: it fits the rows and spends everything.
  lemma PlanFits(p: int, insts: seq<Installment>, charges: seq<Charge>)
    requires ValidInstallments(insts) && ValidCharges(charges) && Owned(charges, |insts|)
    requires 0 < p <= TotalOutstanding(insts, charges)
    ensures var plan := W.Plan(p, Live(Dues(insts, charges)));
      && plan.unallocated == 0 && plan.applied == p
      && plan.lines == W.Kept(W.Walk(p, Dues(insts, charges)))
      && Increasing(plan.lines) && AllFit(plan.lines, insts, charges)
      && Sum(plan.lines, LineFee) + Sum(plan.lines, LineProfit) + Sum(plan.lines, LinePrincipal) == p
  {
    var due := Dues(insts, charges);
    var walk := W.Walk(p, due);
    W.PlanIsWalk(p, Live(due));
    W.WalkTotal(p, Live(due));
    LiveSameOwed(due);
    LiveSameLines(p, due);
    DuesAreOutstanding(insts, charges);
    forall i | 0 <= i < |walk|
      ensures walk[i].id == i && Fits(walk[i], insts, charges)
    {
      WalkBounds(p, due, i);
      LateFeeOfNonNegative(charges, i);
    }
    KeptIsProper(walk, insts, charges, 0);
    W.WalkTotal(p, due);
    KeptSum(walk, W.LineTotal);
    TotalByColumns(W.Kept(walk));
  }

  // -------------------------------------------------------------------------
  // Applying lines to installments
  // -------------------------------------------------------------------------

  lemma ApplyLineValid(i: Installment, l: W.Line)
    requires ValidInstallment(i)
    requires 0 <= l.profit <= i.ProfitOutstanding() && 0 <= l.principal <= i.PrincipalOutstanding()
    ensures ValidInstallment(ApplyLine(i, l))
    ensures ApplyLine(i, l).PrincipalOutstanding() == i.PrincipalOutstanding() - l.principal
    ensures ApplyLine(i, l).ProfitOutstanding() == i.ProfitOutstanding() - l.profit
  {
  }

  // Summed over a column that a line moves by `g`.
  lemma {:induction false} ApplyLinesSum(insts: seq<Installment>, lines: seq<W.Line>, f: Installment -> int, g: W.Line -> int)
    requires forall k :: 0 <= k < |lines| ==> lines[k].id < |insts|
    requires forall i: Installment, l: W.Line :: f(ApplyLine(i, l)) == f(i) + g(l)
    ensures Sum(ApplyLines(insts, lines), f) == Sum(insts, f) + Sum(lines, g)
    decreases |lines|
  {
    if lines != [] {
      var i := lines[0].id;
      SumSet(insts, i, ApplyLine(insts[i], lines[0]), f);
      ApplyLinesSum(ApplyAt(insts, lines[0]), lines[1..], f, g);
    }
  }

  lemma {:induction false} ApplyLinesValid(insts: seq<Installment>, charges: seq<Charge>, lines: seq<W.Line>)
    requires ValidInstallments(insts) && Increasing(lines) && AllFit(lines, insts, charges)
    ensures ValidInstallments(ApplyLines(insts, lines))
    decreases |lines|
  {
    if lines != [] {
      var next := ApplyAt(insts, lines[0]);
      ApplyLineValid(insts[lines[0].id], lines[0]);
      assert forall k :: 0 <= k < |lines| - 1 ==> Fits(lines[1..][k], next, charges) by {
        assert forall k :: 0 <= k < |lines| - 1 ==> lines[1..][k].id != lines[0].id && Fits(lines[1..][k], insts, charges);
      }
      ApplyLinesValid(next, charges, lines[1..]);
    }
  }

  // -------------------------------------------------------------------------
  // Applying late-fee money to charges
  // -------------------------------------------------------------------------

  // A payment may change how much of a charge is paid and whether it reads paid, nothing else.
  predicate SameCharge(c: Charge, d: Charge) {
    && d.inst == c.inst && d.amount == c.amount && d.writtenOff == c.writtenOff
    && (d.status.Waived? <==> c.status.Waived?)
    && (c.status.Waived? ==> d == c)
  }

  predicate SameCharges(before: seq<Charge>, after: seq<Charge>) {
    |before| == |after| && forall k :: 0 <= k < |before| ==> SameCharge(before[k], after[k])
  }

  lemma SameChargesTrans(a: seq<Charge>, b: seq<Charge>, c: seq<Charge>)
    requires SameCharges(a, b) && SameCharges(b, c)
    ensures SameCharges(a, c)
  {
    forall k | 0 <= k < |a| ensures SameCharge(a[k], c[k]) {
      assert SameCharge(a[k], b[k]) && SameCharge(b[k], c[k]);
    }
  }

  lemma {:induction false} ApplyFeeEffect(charges: seq<Charge>, i: nat, amount: int)
    requires forall k :: 0 <= k < |charges| ==> ValidCharge(charges[k])
    requires amount <= LateFeeOf(charges, i)
    ensures SameCharges(charges, ApplyFee(charges, i, amount))
    ensures Sum(ApplyFee(charges, i, amount), FeePaidAmount) == Sum(charges, FeePaidAmount) + Max(amount, 0)
    ensures LateFeeOf(ApplyFee(charges, i, amount), i) == LateFeeOf(charges, i) - Max(amount, 0)
    ensures forall k :: 0 <= k < |charges| ==> 0 <= ApplyFee(charges, i, amount)[k].paid <= charges[k].amount
  {
    if charges != [] {
      var c := charges[0];
      var take := FeeTake(c, i, amount);
      LateFeeOfNonNegative(charges[1..], i);
      ApplyFeeEffect(charges[1..], i, amount - take);
    }
  }

  lemma {:induction false} ApplyFeeOther(charges: seq<Charge>, i: nat, amount: int, j: nat)
    requires i != j
    ensures LateFeeOf(ApplyFee(charges, i, amount), j) == LateFeeOf(charges, j)
  {
    if charges != [] {
      var c := charges[0];
      var take := FeeTake(c, i, amount);
      ApplyFeeOther(charges[1..], i, amount - take, j);
    }
  }

  lemma ApplyFeeValid(charges: seq<Charge>, i: nat, amount: int)
    requires ValidCharges(charges) && amount <= LateFeeOf(charges, i)
    ensures ValidCharges(ApplyFee(charges, i, amount))
  {
    var after := ApplyFee(charges, i, amount);
    ApplyFeeEffect(charges, i, amount);
    assert forall k :: 0 <= k < |charges| ==> SameCharge(charges[k], after[k]);
    LateFeeOfNonNegative(charges, i);
    forall k | 0 <= k < |after| ensures ValidCharge(after[k]) {
      if !after[k].status.Waived? {
        OnlyFee(after, k);
        LateFeeOfNonNegative(charges, after[k].inst);
        if after[k].inst != i {
          ApplyFeeOther(charges, i, amount, after[k].inst);
        }
      }
    }
  }

  lemma {:induction false} ApplyFeesEffect(insts: seq<Installment>, charges: seq<Charge>, lines: seq<W.Line>)
    requires ValidCharges(charges) && Increasing(lines) && AllFit(lines, insts, charges)
    ensures ValidCharges(ApplyFees(charges, lines))
    ensures SameCharges(charges, ApplyFees(charges, lines))
    ensures Sum(ApplyFees(charges, lines), FeePaidAmount) == Sum(charges, FeePaidAmount) + Sum(lines, LineFee)
    decreases |lines|
  {
    if lines == [] {
      assert forall k :: 0 <= k < |charges| ==> SameCharge(charges[k], charges[k]);
    } else {
      var l := lines[0];
      assert Fits(l, insts, charges);
      var next := ApplyFee(charges, l.id, l.lateFee);
      ApplyFeeEffect(charges, l.id, l.lateFee);
      ApplyFeeValid(charges, l.id, l.lateFee);
      forall k | 0 <= k < |lines| - 1 ensures Fits(lines[1..][k], insts, next) {
        assert Fits(lines[k + 1], insts, charges);
        ApplyFeeOther(charges, l.id, l.lateFee, lines[k + 1].id);
      }
      ApplyFeesEffect(insts, next, lines[1..]);
      SameChargesTrans(charges, next, ApplyFees(charges, lines));
    }
  }
}
