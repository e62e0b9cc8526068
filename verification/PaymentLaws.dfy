// Two equivalences between payments: a payment split in two, and a settlement without rebate.
module PaymentLaws {
  import opened Options
  import opened Sums
  import opened Subledger
  import opened SubledgerLaws
  import opened Books
  import opened Reconciliation
  import opened BookSteps
  import opened BookTheorems
  import W = Waterfall
  import GL = GeneralLedger

  // -------------------------------------------------------------------------
  // What a plan does to each installment and each charge
  // -------------------------------------------------------------------------

  // Lines of a walk over a whole schedule: line i belongs to installment i.
  predicate Covers(walk: seq<W.Line>, n: nat) {
    |walk| == n && forall i :: 0 <= i < n ==> walk[i].id == i
  }

  function Touched(i: Installment, l: W.Line): Installment {
    if l.Total() > 0 then ApplyLine(i, l) else i
  }

  lemma {:induction false} ApplyKept(insts: seq<Installment>, walk: seq<W.Line>, k: nat, i: nat)
    requires Covers(walk, |insts|) && k <= |insts| && i < |insts|
    ensures ApplyLines(insts, W.Kept(walk[k..]))[i] == if i < k then insts[i] else Touched(insts[i], walk[i])
    decreases |insts| - k
  {
    if k < |insts| {
      var rest := walk[k..];
      assert rest[0] == walk[k] && rest[1..] == walk[k + 1..];
      if walk[k].Total() > 0 {
        var next := ApplyAt(insts, walk[k]);
        assert W.Kept(rest) == [walk[k]] + W.Kept(rest[1..]);
        ApplyKept(next, walk, k + 1, i);
      } else {
        assert W.Kept(rest) == W.Kept(rest[1..]);
        ApplyKept(insts, walk, k + 1, i);
      }
    } else {
      assert walk[k..] == [];
    }
  }

  lemma {:induction false} NoFee(charges: seq<Charge>, i: nat)
    ensures ApplyFee(charges, i, 0) == charges
  {
    if charges != [] {
      NoFee(charges[1..], i);
    }
  }

  // The late-fee shares of installments k and later.
  function FeesFrom(charges: seq<Charge>, walk: seq<W.Line>, k: nat): (after: seq<Charge>)
    ensures |after| == |charges|
    decreases |walk| - k
  {
    if k >= |walk| then charges else FeesFrom(ApplyFee(charges, k, walk[k].lateFee), walk, k + 1)
  }

  predicate Whole(walk: seq<W.Line>) {
    forall i :: 0 <= i < |walk| ==> walk[i].lateFee >= 0 && walk[i].profit >= 0 && walk[i].principal >= 0
  }

  lemma {:induction false} FeesKept(charges: seq<Charge>, walk: seq<W.Line>, k: nat)
    requires Covers(walk, |walk|) && Whole(walk) && k <= |walk|
    ensures ApplyFees(charges, W.Kept(walk[k..])) == FeesFrom(charges, walk, k)
    decreases |walk| - k
  {
    if k < |walk| {
      var rest := walk[k..];
      assert rest[0] == walk[k] && rest[1..] == walk[k + 1..];
      if walk[k].Total() > 0 {
        assert W.Kept(rest) == [walk[k]] + W.Kept(rest[1..]);
      } else {
        assert W.Kept(rest) == W.Kept(rest[1..]);
        NoFee(charges, k);
      }
      FeesKept(ApplyFee(charges, k, walk[k].lateFee), walk, k + 1);
    } else {
      assert walk[k..] == [];
    }
  }

  lemma ApplyFeeHead(charges: seq<Charge>, i: nat, amount: int, c: Charge, take: int)
    requires charges != [] && c == charges[0] && take == FeeTake(c, i, amount)
    ensures var after := ApplyFee(charges, i, amount);
      after[0] == PayCharge(c, take) && after[1..] == ApplyFee(charges[1..], i, amount - take)
  {
  }

  lemma ChargeTwice(c: Charge, i: nat, x: nat, y: nat)
    ensures var take := FeeTake(c, i, x); var more := FeeTake(PayCharge(c, take), i, y);
      && 0 <= take <= x && 0 <= more <= y && take + more == FeeTake(c, i, x + y)
      && PayCharge(PayCharge(c, take), more) == PayCharge(c, take + more)
  {
  }

  lemma {:induction false} FeeTwice(charges: seq<Charge>, i: nat, x: nat, y: nat)
    ensures ApplyFee(ApplyFee(charges, i, x), i, y) == ApplyFee(charges, i, x + y)
  {
    hide FeeTake, PayCharge;
    if charges != [] {
      var c := charges[0];
      var take := FeeTake(c, i, x);
      var d := PayCharge(c, take);
      var more := FeeTake(d, i, y);
      ChargeTwice(c, i, x, y);
      ApplyFeeHead(charges, i, x, c, take);
      ApplyFeeHead(ApplyFee(charges, i, x), i, y, d, more);
      ApplyFeeHead(charges, i, x + y, c, take + more);
      FeeTwice(charges[1..], i, x - take, y - more);
      SameHeadAndTail(ApplyFee(ApplyFee(charges, i, x), i, y), ApplyFee(charges, i, x + y));
    }
  }

  lemma SameHeadAndTail<T>(xs: seq<T>, ys: seq<T>)
    requires xs != [] && ys != [] && xs[0] == ys[0] && xs[1..] == ys[1..]
    ensures xs == ys
  {
    assert xs == [xs[0]] + xs[1..] && ys == [ys[0]] + ys[1..];
  }

  // Money for one installment does not touch the charges of another.
  lemma ChargesApart(c: Charge, i: nat, x: int, j: nat, y: int)
    requires i != j
    ensures var forI, forJ := FeeTake(c, i, x), FeeTake(c, j, y);
      && FeeTake(PayCharge(c, forI), j, y) == forJ && FeeTake(PayCharge(c, forJ), i, x) == forI
      && PayCharge(PayCharge(c, forI), forJ) == PayCharge(PayCharge(c, forJ), forI)
  {
  }

  lemma {:induction false} FeesCommute(charges: seq<Charge>, i: nat, x: int, j: nat, y: int)
    requires i != j
    ensures ApplyFee(ApplyFee(charges, i, x), j, y) == ApplyFee(ApplyFee(charges, j, y), i, x)
  {
    hide FeeTake, PayCharge;
    if charges != [] {
      var c := charges[0];
      var forI, forJ := FeeTake(c, i, x), FeeTake(c, j, y);
      ChargesApart(c, i, x, j, y);
      ApplyFeeHead(charges, i, x, c, forI);
      ApplyFeeHead(charges, j, y, c, forJ);
      ApplyFeeHead(ApplyFee(charges, i, x), j, y, PayCharge(c, forI), forJ);
      ApplyFeeHead(ApplyFee(charges, j, y), i, x, PayCharge(c, forJ), forI);
      FeesCommute(charges[1..], i, x - forI, j, y - forJ);
      SameHeadAndTail(ApplyFee(ApplyFee(charges, i, x), j, y), ApplyFee(ApplyFee(charges, j, y), i, x));
    }
  }

  lemma {:induction false} FeePastLater(charges: seq<Charge>, i: nat, x: int, walk: seq<W.Line>, k: nat)
    requires i < k
    ensures FeesFrom(ApplyFee(charges, i, x), walk, k) == ApplyFee(FeesFrom(charges, walk, k), i, x)
    decreases |walk| - k
  {
    if k < |walk| {
      FeesCommute(charges, i, x, k, walk[k].lateFee);
      FeePastLater(ApplyFee(charges, k, walk[k].lateFee), i, x, walk, k + 1);
    }
  }

  lemma {:induction false} FeesCompose(charges: seq<Charge>, first: seq<W.Line>, second: seq<W.Line>, both: seq<W.Line>, k: nat)
    requires |first| == |second| == |both| && Whole(first) && Whole(second)
    requires forall i :: 0 <= i < |both| ==> both[i].lateFee == first[i].lateFee + second[i].lateFee
    ensures FeesFrom(FeesFrom(charges, first, k), second, k) == FeesFrom(charges, both, k)
    decreases |both| - k
  {
    hide ApplyFee;
    if k < |both| {
      var x, y := first[k].lateFee, second[k].lateFee;
      var paid := ApplyFee(charges, k, x);
      FeePastLater(paid, k, y, first, k + 1);
      FeeTwice(charges, k, x, y);
      FeesCompose(ApplyFee(charges, k, x + y), first, second, both, k + 1);
    }
  }

  // The rows once every line of a walk has been applied.
  function TouchedAll(insts: seq<Installment>, walk: seq<W.Line>): (after: seq<Installment>)
    requires |walk| == |insts|
    ensures |after| == |insts| && forall i :: 0 <= i < |insts| ==> after[i] == Touched(insts[i], walk[i])
  {
    seq(|insts|, i requires 0 <= i < |insts| => Touched(insts[i], walk[i]))
  }

  lemma KeptApplied(insts: seq<Installment>, charges: seq<Charge>, walk: seq<W.Line>)
    requires Covers(walk, |insts|) && Whole(walk)
    ensures ApplyLines(insts, W.Kept(walk)) == TouchedAll(insts, walk)
    ensures ApplyFees(charges, W.Kept(walk)) == FeesFrom(charges, walk, 0)
  {
    assert walk[0..] == walk;
    forall i | 0 <= i < |insts| ensures ApplyLines(insts, W.Kept(walk))[i] == TouchedAll(insts, walk)[i] {
      ApplyKept(insts, walk, 0, i);
    }
    FeesKept(charges, walk, 0);
  }

  // -------------------------------------------------------------------------
  // Balances after a payment
  // -------------------------------------------------------------------------

  predicate WalkFits(walk: seq<W.Line>, insts: seq<Installment>, charges: seq<Charge>) {
    |walk| == |insts| && forall i :: 0 <= i < |walk| ==> walk[i].id == i && Fits(walk[i], insts, charges)
  }

  lemma WalkOfDues(p: int, insts: seq<Installment>, charges: seq<Charge>)
    requires ValidInstallments(insts) && ValidCharges(charges)
    ensures WalkFits(W.Walk(p, Dues(insts, charges)), insts, charges)
  {
    var due := Dues(insts, charges);
    forall i | 0 <= i < |due| ensures W.Walk(p, due)[i].id == i && Fits(W.Walk(p, due)[i], insts, charges) {
      WalkBounds(p, due, i);
      LateFeeOfNonNegative(charges, i);
    }
  }

  lemma FeeApplied(charges: seq<Charge>, k: nat, amount: int)
    requires ValidCharges(charges) && 0 <= amount <= LateFeeOf(charges, k)
    ensures var next := ApplyFee(charges, k, amount); ValidCharges(next) && LateFeeOf(next, k) == LateFeeOf(charges, k) - amount
  {
    ApplyFeeEffect(charges, k, amount);
    ApplyFeeValid(charges, k, amount);
  }

  lemma {:induction false} FeesFromBalances(insts: seq<Installment>, charges: seq<Charge>, walk: seq<W.Line>, k: nat, i: nat)
    requires ValidCharges(charges) && k <= |walk| && i < |walk|
    requires forall j :: k <= j < |walk| ==> 0 <= walk[j].lateFee <= LateFeeOf(charges, j)
    ensures LateFeeOf(FeesFrom(charges, walk, k), i) == LateFeeOf(charges, i) - if i < k then 0 else walk[i].lateFee
    decreases |walk| - k
  {
    hide LateFeeOf, ApplyFee, ValidCharges, SameCharges;
    if k < |walk| {
      var amount := walk[k].lateFee;
      var next := ApplyFee(charges, k, amount);
      FeeApplied(charges, k, amount);
      forall j | 0 <= j < |walk| && j != k ensures LateFeeOf(next, j) == LateFeeOf(charges, j) {
        ApplyFeeOther(charges, k, amount, j);
      }
      FeesFromBalances(insts, next, walk, k + 1, i);
    }
  }

  // After a payment the waterfall sees the old balances less what the payment covered.
  lemma DuesAfter(p: int, insts: seq<Installment>, charges: seq<Charge>)
    requires ValidInstallments(insts) && ValidCharges(charges)
    ensures var walk := W.Walk(p, Dues(insts, charges));
      Dues(TouchedAll(insts, walk), FeesFrom(charges, walk, 0)) == W.After(p, Dues(insts, charges))
  {
    hide ValidInstallment, LateFeeOf, FeesFrom, W.Walk;
    var due := Dues(insts, charges);
    var walk := W.Walk(p, due);
    WalkOfDues(p, insts, charges);
    var after := Dues(TouchedAll(insts, walk), FeesFrom(charges, walk, 0));
    assert forall j :: 0 <= j < |walk| ==> Fits(walk[j], insts, charges);
    forall i | 0 <= i < |due| ensures after[i] == W.After(p, due)[i] {
      assert Fits(walk[i], insts, charges);
      FeesFromBalances(insts, charges, walk, 0, i);
    }
  }

  lemma TouchedTwice(i: Installment, l: W.Line, m: W.Line)
    requires ValidInstallment(i)
    requires l.lateFee >= 0 && 0 <= l.profit <= i.ProfitOutstanding() && 0 <= l.principal <= i.PrincipalOutstanding()
    requires m.lateFee >= 0 && 0 <= m.profit <= i.ProfitOutstanding() - l.profit
    requires 0 <= m.principal <= i.PrincipalOutstanding() - l.principal
    ensures Touched(Touched(i, l), m) == Touched(i, W.Plus(l, m))
  {
  }

  // Rows after paying p and then q are the rows after paying p + q.
  lemma RowsCompose(p: nat, q: nat, insts: seq<Installment>, charges: seq<Charge>)
    requires ValidInstallments(insts) && ValidCharges(charges)
    ensures var first, both := W.Walk(p, Dues(insts, charges)), W.Walk(p + q, Dues(insts, charges));
      var insts1, charges1 := TouchedAll(insts, first), FeesFrom(charges, first, 0);
      var second := W.Walk(q, Dues(insts1, charges1));
      TouchedAll(insts1, second) == TouchedAll(insts, both) && FeesFrom(charges1, second, 0) == FeesFrom(charges, both, 0)
  {
    hide W.Walk, FeesFrom, LateFeeOf, ApplyLine, ValidCharges;
    var due := Dues(insts, charges);
    var first, second, both := W.Walk(p, due), W.Walk(q, W.After(p, due)), W.Walk(p + q, due);
    DuesAfter(p, insts, charges);
    WalkOfDues(p, insts, charges);
    WalkOfDues(p + q, insts, charges);
    forall i | 0 <= i < |due|
      ensures both[i] == W.Plus(first[i], second[i]) && Fits(first[i], insts, charges) && Fits(both[i], insts, charges)
      ensures second[i].lateFee >= 0 && second[i].profit >= 0 && second[i].principal >= 0
    {
      W.WalkComposes(p, q, due, i);
      WalkBounds(q, W.After(p, due), i);
    }
    forall i | 0 <= i < |insts| ensures Touched(Touched(insts[i], first[i]), second[i]) == Touched(insts[i], both[i]) {
      assert both[i] == W.Plus(first[i], second[i]) && Fits(first[i], insts, charges) && Fits(both[i], insts, charges);
      TouchedTwice(insts[i], first[i], second[i]);
    }
    FeesCompose(charges, first, second, both, 0);
  }

  // -------------------------------------------------------------------------
  // An accepted payment, seen from outside
  // -------------------------------------------------------------------------

  function WalkOf(b: Book, p: int): (walk: seq<W.Line>)
    ensures |walk| == |b.installments|
  {
    W.Walk(p, Dues(b.installments, b.charges))
  }

  function PaidInstallments(b: Book, p: int): seq<Installment> { TouchedAll(b.installments, WalkOf(b, p)) }

  function PaidCharges(b: Book, p: int): seq<Charge> { FeesFrom(b.charges, WalkOf(b, p), 0) }

  predicate Repaid(insts: seq<Installment>, charges: seq<Charge>) {
    && AllPaid(insts)
    && Sum(insts, PrincipalOutstanding) + Sum(insts, ProfitOutstanding) <= 0
    && Sum(charges, FeeOutstanding) <= 0
  }

  // What an accepted payment makes of a book.
  ghost function AfterPaying(b: Book, reference: string, amount: int): iset<Book> {
    iset d: Book |
      && d in SOUND && d.terms == b.terms
      && d.installments == PaidInstallments(b, amount) && d.charges == PaidCharges(b, amount)
      && d.payments == b.payments + [Payment(reference, amount, amount, 0)]
      && d.status == (if Repaid(d.installments, d.charges) then Closed else Active)
      && d.closure == (if Repaid(d.installments, d.charges) then Some(Normal) else None)
      && TotalOutstanding(d.installments, d.charges) == TotalOutstanding(b.installments, b.charges) - amount
  }

  lemma PlanRows(b: Book, reference: string, amount: int)
    requires ValidInstallments(b.installments) && ValidCharges(b.charges) && Owned(b.charges, |b.installments|)
    requires PayVerdict(b, reference, amount).Accepted?
    ensures var lines := PayPlan(b, amount).lines;
      ApplyLines(b.installments, lines) == PaidInstallments(b, amount) && ApplyFees(b.charges, lines) == PaidCharges(b, amount)
  {
    PlanFits(amount, b.installments, b.charges);
    WalkOfDues(amount, b.installments, b.charges);
    var walk := WalkOf(b, amount);
    assert forall i :: 0 <= i < |walk| ==> Fits(walk[i], b.installments, b.charges);
    KeptApplied(b.installments, b.charges, walk);
  }

  lemma EmitKeepsRows(a: Book, n: nat, amount: int, profit: int)
    ensures var d := EmitPayment(a, n, amount, profit); SameRecords(a, d)
  {
  }

  lemma CloseOrNot(b: Book)
    requires b.status.Active? && b.closure.None?
    ensures var d := CloseIfRepaid(b);
      && d.terms == b.terms && d.installments == b.installments && d.charges == b.charges && d.payments == b.payments
      && d.status == (if Repaid(b.installments, b.charges) then Closed else Active)
      && d.closure == (if Repaid(b.installments, b.charges) then Some(Normal) else None)
  {
  }

  lemma PaidOutstanding(b: Book, a: Book, principal: int, profit: int, lateFee: int)
    requires ValidCharges(b.charges) && PaidBy(b, a, principal, profit, lateFee)
    ensures TotalOutstanding(a.installments, a.charges) == TotalOutstanding(b.installments, b.charges) - principal - profit - lateFee
  {
    OutstandingByColumns(b.installments, b.charges);
    OutstandingByColumns(a.installments, a.charges);
  }

  // `a` is the book with the plan applied, `d` the same book once its events and closing are done.
  lemma ConcludePaid(b: Book, a: Book, d: Book, reference: string, amount: int)
    requires d in SOUND && a.terms == b.terms && d.terms == a.terms
    requires a.installments == PaidInstallments(b, amount) && a.charges == PaidCharges(b, amount)
    requires a.payments == b.payments + [Payment(reference, amount, amount, 0)]
    requires d.installments == a.installments && d.charges == a.charges && d.payments == a.payments
    requires d.status == (if Repaid(a.installments, a.charges) then Closed else Active)
    requires d.closure == (if Repaid(a.installments, a.charges) then Some(Normal) else None)
    requires TotalOutstanding(a.installments, a.charges) == TotalOutstanding(b.installments, b.charges) - amount
    ensures d in AfterPaying(b, reference, amount)
  {
  }

  lemma PayEnds(a: Book, n: nat, amount: int, profit: int, d: Book)
    requires a.status.Active? && a.closure.None? && d == CloseIfRepaid(EmitPayment(a, n, amount, profit))
    ensures d.terms == a.terms && d.installments == a.installments && d.charges == a.charges && d.payments == a.payments
    ensures d.status == (if Repaid(a.installments, a.charges) then Closed else Active)
    ensures d.closure == (if Repaid(a.installments, a.charges) then Some(Normal) else None)
  {
    EmitKeepsRows(a, n, amount, profit);
    CloseOrNot(EmitPayment(a, n, amount, profit));
  }

  lemma PayIsPaid(b: Book, reference: string, amount: int)
    requires b in SOUND && PayVerdict(b, reference, amount).Accepted?
    ensures Pay(b, reference, amount).0 in AfterPaying(b, reference, amount)
  {
    var plan := PayPlan(b, amount);
    var a := ApplyPlan(b, reference, amount, plan);
    var profit := Sum(plan.lines, LineProfit);
    var d := CloseIfRepaid(EmitPayment(a, |b.payments|, amount, profit));
    PayKeeps(b, reference, amount);
    ActiveRows(b);
    PayPlanLaws(b, reference, amount);
    PlanRows(b, reference, amount);
    ApplyPlanPays(b, reference, amount, plan);
    PaidOutstanding(b, a, Sum(plan.lines, LinePrincipal), profit, Sum(plan.lines, LineFee));
    PayEnds(a, |b.payments|, amount, profit, d);
    ConcludePaid(b, a, d, reference, amount);
  }

  // What two sound books with the same rows and the same ending cannot disagree on.
  predicate SameLedger(d: Book, e: Book) {
    && Cash(d) == Cash(e)
    && LedgerSum(d.ledger, PrincipalPaid) == LedgerSum(e.ledger, PrincipalPaid)
    && LedgerSum(d.ledger, ProfitRecognized) == LedgerSum(e.ledger, ProfitRecognized)
    && LedgerSum(d.ledger, LateFeePaid) == LedgerSum(e.ledger, LateFeePaid)
    && LedgerSum(d.ledger, LateFeeWaived) == LedgerSum(e.ledger, LateFeeWaived)
  }

  predicate SameAccounts(d: Book, e: Book) {
    && d.unearned == e.unearned
    && GL.Balance(d.journals, GL.RECEIVABLE) == GL.Balance(e.journals, GL.RECEIVABLE)
    && GL.Balance(d.journals, GL.UNEARNED) == GL.Balance(e.journals, GL.UNEARNED)
    && GL.Balance(d.journals, GL.BANK) == GL.Balance(e.journals, GL.BANK)
  }

  predicate Agree(d: Book, e: Book) {
    && d.installments == e.installments && d.charges == e.charges
    && d.status == e.status && d.closure == e.closure
    && SameLedger(d, e) && SameAccounts(d, e)
  }

  lemma LedgerTotals(b: Book)
    requires b in LEDGERS && !ClosedOutByClosure(b)
    ensures var c := ColsOf(b);
      && LedgerSum(b.ledger, PrincipalPaid) == c.principalPaid && LedgerSum(b.ledger, ProfitRecognized) == c.profitPaid
      && LedgerSum(b.ledger, LateFeePaid) == c.feesPaid && LedgerSum(b.ledger, LateFeeWaived) == c.feesWaived
      && Cash(b) == c.principalPaid + c.profitPaid + c.feesPaid
  {
    assert LedgerOk(b);
  }

  lemma AccountTotals(b: Book)
    requires b in ROWS && b in JOURNALS && !ClosedOutByClosure(b) && Booked(b)
    ensures var c := ColsOf(b);
      && b.unearned == c.profit - c.profitPaid
      && GL.Balance(b.journals, GL.UNEARNED) == -b.unearned
      && GL.Balance(b.journals, GL.BANK) == b.terms.downPayment + Cash(b)
      && GL.Balance(b.journals, GL.RECEIVABLE) == c.principal - c.principalPaid - c.principalOff + c.profit - c.profitPaid - c.profitOff
           + c.fees - c.feesPaid - c.feesOff - c.feesWaived
  {
    assert RowsOk(b) && JournalsOk(b);
  }

  lemma SameColumns(d: Book, e: Book)
    requires d in SOUND && e in SOUND && d.terms == e.terms && ColsOf(d) == ColsOf(e)
    requires Booked(d) && Booked(e) && !ClosedOutByClosure(d) && !ClosedOutByClosure(e)
    ensures SameLedger(d, e) && SameAccounts(d, e)
  {
    LedgerTotals(d);
    LedgerTotals(e);
    AccountTotals(d);
    AccountTotals(e);
  }

  lemma SplitRows(b: Book, b1: Book, d: Book, e: Book, first: string, p: nat, second: string, q: nat, whole: string)
    requires ValidInstallments(b.installments) && ValidCharges(b.charges)
    requires b1 in AfterPaying(b, first, p) && d in AfterPaying(b1, second, q) && e in AfterPaying(b, whole, p + q)
    ensures Agree(d, e)
  {
    RowsCompose(p, q, b.installments, b.charges);
    SameColumns(d, e);
  }

  lemma PayMakes(b: Book, reference: string, amount: int) returns (d: Book)
    requires b in SOUND && PayVerdict(b, reference, amount).Accepted?
    ensures d == Pay(b, reference, amount).0 && d in AfterPaying(b, reference, amount)
  {
    PayIsPaid(b, reference, amount);
    d := Pay(b, reference, amount).0;
  }

  lemma AcceptedWithin(b: Book, reference: string, amount: int)
    requires b in SOUND && PayVerdict(b, reference, amount).Accepted?
    ensures ValidInstallments(b.installments) && ValidCharges(b.charges)
    ensures amount <= TotalOutstanding(b.installments, b.charges)
  {
    ActiveRows(b);
  }

  // Paying in two parts leaves the contract as paying at once does: rows, status, ledger totals,
  // unearned profit, cash and control accounts.
  lemma SplitPayment(b: Book, first: string, p: nat, second: string, q: nat, whole: string) returns (b1: Book, d: Book, e: Book)
    requires b in SOUND && p > 0 && q > 0
    requires PayVerdict(b, whole, p + q).Accepted? && PayVerdict(b, first, p).Accepted?
    requires second != "" && second != first && !HasReference(b.payments, second)
    ensures b1 == Pay(b, first, p).0 && PayVerdict(b1, second, q).Accepted?
    ensures d == Pay(b1, second, q).0
    ensures e == Pay(b, whole, p + q).0
    ensures Agree(d, e)
  {
    hide *;
    b1 := PayMakes(b, first, p);
    e := PayMakes(b, whole, p + q);
    AcceptedWithin(b, whole, p + q);
    SecondAccepted(b, b1, first, p, second, q);
    d := PayMakes(b1, second, q);
    SplitRows(b, b1, d, e, first, p, second, q, whole);
  }

  lemma SecondAccepted(b: Book, d: Book, first: string, p: nat, second: string, q: nat)
    requires d in AfterPaying(b, first, p) && q > 0 && p + q <= TotalOutstanding(b.installments, b.charges)
    requires second != "" && second != first && !HasReference(b.payments, second)
    ensures d in SOUND && PayVerdict(d, second, q).Accepted?
  {
  }

  // -------------------------------------------------------------------------
  // Settling without a rebate is paying what is outstanding
  // -------------------------------------------------------------------------

  // Nothing written off, charges that were waived anyway aside.
  predicate NothingLost(b: Book) {
    && (forall i :: 0 <= i < |b.installments| ==> b.installments[i].principalWrittenOff == b.installments[i].profitWrittenOff == 0)
    && (forall k :: 0 <= k < |b.charges| && !b.charges[k].status.Waived? ==> b.charges[k].writtenOff == 0)
  }

  predicate SamePaid(i: Installment, j: Installment) {
    i.principalPaid == j.principalPaid && i.profitPaid == j.profitPaid
  }

  predicate SameFee(c: Charge, d: Charge) {
    c.paid == d.paid && c.Outstanding() == d.Outstanding()
  }

  // The same amounts paid and still due, row by row; a row that owed nothing may read differently.
  predicate SameAmounts(d: Book, e: Book) {
    && |d.installments| == |e.installments| && |d.charges| == |e.charges|
    && (forall i :: 0 <= i < |d.installments| ==> SamePaid(d.installments[i], e.installments[i]))
    && (forall k :: 0 <= k < |d.charges| ==> SameFee(d.charges[k], e.charges[k]))
    && d.unearned == e.unearned
  }

  // A contract with nothing outstanding has every row paid up.
  lemma PaidUp(insts: seq<Installment>, charges: seq<Charge>)
    requires ValidInstallments(insts) && ValidCharges(charges) && TotalOutstanding(insts, charges) == 0
    ensures forall i :: 0 <= i < |insts| ==> insts[i].PrincipalOutstanding() == 0 && insts[i].ProfitOutstanding() == 0
    ensures forall k :: 0 <= k < |charges| ==> charges[k].Outstanding() == 0
  {
    assert forall i :: 0 <= i < |insts| ==> ValidInstallment(insts[i]);
    assert forall k :: 0 <= k < |charges| ==> ValidCharge(charges[k]);
    SumNonNegative(insts, PrincipalOutstanding);
    SumNonNegative(insts, ProfitOutstanding);
    SumNonNegative(charges, FeeOutstanding);
    assert forall i :: 0 <= i < |insts| ==> PrincipalOutstanding(insts[i]) == 0 && ProfitOutstanding(insts[i]) == 0;
    assert forall k :: 0 <= k < |charges| ==> FeeOutstanding(charges[k]) == 0;
  }

  // A payment changes nothing in a row but what is paid and how it reads.
  predicate PaidOnly(i: Installment, j: Installment) {
    j.principal == i.principal && j.profit == i.profit && j.principalWrittenOff == i.principalWrittenOff && j.profitWrittenOff == i.profitWrittenOff
  }

  lemma PaidOnlyRow(b: Book, p: int, i: nat)
    requires i < |b.installments|
    ensures PaidOnly(b.installments[i], PaidInstallments(b, p)[i])
  {
  }

  lemma PaidKeepsDue(b: Book, p: int)
    requires ValidInstallments(b.installments) && ValidCharges(b.charges) && Owned(b.charges, |b.installments|)
    requires 0 < p <= TotalOutstanding(b.installments, b.charges)
    ensures SameCharges(b.charges, PaidCharges(b, p)) && ValidInstallments(PaidInstallments(b, p)) && ValidCharges(PaidCharges(b, p))
  {
    hide W.Walk, Dues, ApplyFees, ApplyLines, FeesFrom, ValidInstallment, ValidCharges, SameCharges, LateFeeOf, TotalOutstanding, TouchedAll;
    var lines := W.Kept(WalkOf(b, p));
    PlanFits(p, b.installments, b.charges);
    WalkOfDues(p, b.installments, b.charges);
    assert forall i :: 0 <= i < |b.installments| ==> Fits(WalkOf(b, p)[i], b.installments, b.charges);
    KeptApplied(b.installments, b.charges, WalkOf(b, p));
    ApplyFeesEffect(b.installments, b.charges, lines);
    ApplyLinesValid(b.installments, b.charges, lines);
  }

  // Rows after paying everything outstanding against rows after the close-out.
  lemma PaidUpIsClosedOut(b: Book, p: int)
    requires ValidInstallments(b.installments) && ValidCharges(b.charges) && Owned(b.charges, |b.installments|)
    requires 0 < p == TotalOutstanding(b.installments, b.charges)
    requires TotalOutstanding(PaidInstallments(b, p), PaidCharges(b, p)) == 0
    ensures var insts, charges := PaidInstallments(b, p), PaidCharges(b, p);
      ((forall i :: 0 <= i < |insts| ==> SamePaid(insts[i], CloseOutInstallments(b.installments)[i]))
       && (forall k :: 0 <= k < |charges| ==> SameFee(charges[k], CloseOutCharges(b.charges)[k])))
      <==> NothingLost(b)
  {
    var insts, charges := PaidInstallments(b, p), PaidCharges(b, p);
    PaidKeepsDue(b, p);
    PaidUp(insts, charges);
    forall i | 0 <= i < |insts|
      ensures SamePaid(insts[i], CloseOutInstallments(b.installments)[i]) <==>
        b.installments[i].principalWrittenOff == b.installments[i].profitWrittenOff == 0
    {
      PaidOnlyRow(b, p, i);
    }
    forall k | 0 <= k < |charges|
      ensures SameFee(charges[k], CloseOutCharges(b.charges)[k]) <==> b.charges[k].status.Waived? || b.charges[k].writtenOff == 0
    {
      assert SameCharge(b.charges[k], charges[k]) && ValidCharge(charges[k]);
    }
  }

  lemma LostProfit(b: Book)
    requires ValidInstallments(b.installments)
    ensures NothingLost(b) ==> Sum(b.installments, ProfitOffOf) == 0
    ensures Sum(b.installments, ProfitOffOf) >= 0
  {
    assert forall i :: 0 <= i < |b.installments| ==> ValidInstallment(b.installments[i]);
    SumNonNegative(b.installments, ProfitOffOf);
    if NothingLost(b) {
      SumZero(b.installments, ProfitOffOf);
    }
  }

  // Paying the payoff, when it is what is outstanding, against settling at that payoff.
  lemma PayoffPaid(b: Book, d: Book, s: Book, reference: string)
    requires b in SOUND && b.status.Active? && 0 < PayoffOf(b) == TotalOutstanding(b.installments, b.charges)
    requires d in AfterPaying(b, reference, PayoffOf(b))
    requires s in SOUND && s.closure == Some(Closure.EarlySettlement)
    requires s.installments == CloseOutInstallments(b.installments) && s.charges == CloseOutCharges(b.charges)
    ensures SameAmounts(d, s) <==> NothingLost(b)
  {
    hide SamePaid, SameFee, TotalOutstanding, PayoffOf, TouchedAll, FeesFrom, LedgerOk, JournalsOk, KeysOk, ClosedOut, FeeClosedOut;
    ActiveRows(b);
    PaidUpIsClosedOut(b, PayoffOf(b));
    SettledUnearned(s);
    if NothingLost(b) {
      PaidUpUnearned(b, d, reference);
    }
  }

  lemma SettledUnearned(s: Book)
    requires s in ROWS && s.closure == Some(Closure.EarlySettlement)
    ensures s.unearned == 0
  {
  }

  lemma PaidUpUnearned(b: Book, d: Book, reference: string)
    requires b in SOUND && b.status.Active? && 0 < PayoffOf(b) == TotalOutstanding(b.installments, b.charges)
    requires d in AfterPaying(b, reference, PayoffOf(b)) && NothingLost(b)
    ensures d.unearned == 0
  {
    hide TouchedAll, FeesFrom, LateFeeOf, LedgerOk, JournalsOk, KeysOk, PayoffOf;
    ActiveRows(b);
    var p := PayoffOf(b);
    PaidKeepsDue(b, p);
    PaidUp(d.installments, d.charges);
    forall i | 0 <= i < |d.installments| ensures ProfitPaidOf(d.installments[i]) == ProfitOf(d.installments[i]) {
      PaidOnlyRow(b, p, i);
    }
    SumSame(d.installments, ProfitPaidOf, d.installments, ProfitOf);
    assert RowsOk(d);
  }

  // A payment of the zero-rebate payoff is accepted exactly when no profit was written off.
  lemma PayoffPayable(b: Book, reference: string)
    requires b in SOUND && b.status.Active? && reference != "" && !HasReference(b.payments, reference) && PayoffOf(b) > 0
    ensures PayVerdict(b, reference, PayoffOf(b)).Accepted? <==> Sum(b.installments, ProfitOffOf) == 0
    ensures PayoffOf(b) == TotalOutstanding(b.installments, b.charges) + Sum(b.installments, ProfitOffOf)
    ensures Sum(b.installments, ProfitOffOf) >= 0
    ensures NothingLost(b) ==> Sum(b.installments, ProfitOffOf) == 0
  {
    hide RowsOk, KeysOk, LedgerOk, JournalsOk, TotalOutstanding, NothingLost, ColsOf;
    ActiveRows(b);
    LostProfit(b);
    PayoffAgainstOutstanding(b, 0.0);
  }

  lemma SettleMakes(b: Book, reference: string) returns (s: Book)
    requires b in SOUND && b.status.Active? && !HasReference(b.payments, reference)
    ensures s == Settle(b, reference, PayoffOf(b), ByAmount(0), 0.0).0
    ensures Settle(b, reference, PayoffOf(b), ByAmount(0), 0.0).1.Accepted?
    ensures s in SOUND && s.closure == Some(Closure.EarlySettlement)
    ensures s.installments == CloseOutInstallments(b.installments) && s.charges == CloseOutCharges(b.charges)
  {
    PayoffAccepted(b, reference);
    s := Settle(b, reference, PayoffOf(b), ByAmount(0), 0.0).0;
  }

  // Settling at a zero rebate and simply paying the payoff come to the same amounts on every row
  // if and only if nothing that is still owed was ever written off.
  lemma SettleIsPayment(b: Book, reference: string) returns (d: Book, s: Book)
    requires b in SOUND && b.status.Active? && reference != "" && !HasReference(b.payments, reference) && PayoffOf(b) > 0
    ensures d == Pay(b, reference, PayoffOf(b)).0
    ensures s == Settle(b, reference, PayoffOf(b), ByAmount(0), 0.0).0
    ensures PayVerdict(b, reference, PayoffOf(b)).Accepted? && SameAmounts(d, s) <==> NothingLost(b)
  {
    hide *;
    s := SettleMakes(b, reference);
    PayoffPayable(b, reference);
    d := Pay(b, reference, PayoffOf(b)).0;
    if PayVerdict(b, reference, PayoffOf(b)).Accepted? {
      var paid := PayMakes(b, reference, PayoffOf(b));
      PayoffPaid(b, d, s, reference);
    }
  }
}
