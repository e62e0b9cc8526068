// app/services/allocation.py: the payment allocation waterfall.
// Oldest installment first; inside an installment late fee, then profit, then principal.
module Waterfall {
  import opened Sums

  datatype Outstanding = Outstanding(id: nat, sequence: nat, lateFee: int, profit: int, principal: int)

  datatype Line = Line(id: nat, sequence: nat, lateFee: int, profit: int, principal: int) {
    function Total(): int { lateFee + profit + principal }
  }

  datatype Allocation = Allocation(lines: seq<Line>, applied: int, unallocated: int)

  // -------------------------------------------------------------------------
  // Declarative reference: what each bucket receives.
  // -------------------------------------------------------------------------

  function Owed(x: int): int { Max(x, 0) }

  // The money owed by a list of buckets, negative buckets counting as settled.
  function TotalOwed(owed: seq<int>): int {
    Sum(owed, Owed)
  }

  // Bucket k gets whatever is left after every earlier bucket, up to what it is owed.
  function Bucket(p: int, owed: seq<int>, k: nat): int
    requires k < |owed|
  {
    Max(0, Min(p - TotalOwed(owed[..k]), Owed(owed[k])))
  }

  function Split(p: int, owed: seq<int>): (taken: seq<int>)
    ensures |taken| == |owed|
    ensures forall k :: 0 <= k < |owed| ==> taken[k] == Bucket(p, owed, k)
  {
    seq(|owed|, k requires 0 <= k < |owed| => Bucket(p, owed, k))
  }

  function Flatten(due: seq<Outstanding>): (owed: seq<int>)
    ensures |owed| == 3 * |due|
  {
    if due == [] then [] else [due[0].lateFee, due[0].profit, due[0].principal] + Flatten(due[1..])
  }

  // The line of installment i under the flattened split.
  function DueLine(p: int, due: seq<Outstanding>, i: nat): Line
    requires i < |due|
  {
    var taken := Split(p, Flatten(due));
    Line(due[i].id, due[i].sequence, taken[3 * i], taken[3 * i + 1], taken[3 * i + 2])
  }

  // Only lines that move money are kept.
  function Kept(lines: seq<Line>): seq<Line> {
    if lines == [] then []
    else (if lines[0].Total() > 0 then [lines[0]] else []) + Kept(lines[1..])
  }

  function Plan(p: int, due: seq<Outstanding>): Allocation {
    var unallocated := Max(0, p - TotalOwed(Flatten(due)));
    Allocation(Kept(seq(|due|, i requires 0 <= i < |due| => DueLine(p, due, i))), Max(p, 0) - unallocated, unallocated)
  }

  // -------------------------------------------------------------------------
  // The waterfall as the service walks it.
  // -------------------------------------------------------------------------

  function Take(remaining: int, owed: int): int {
    if remaining <= 0 || owed <= 0 then 0 else Min(remaining, owed)
  }

  function LineFor(p: int, due: Outstanding): Line {
    var f := Take(p, due.lateFee);
    var g := Take(p - f, due.profit);
    Line(due.id, due.sequence, f, g, Take(p - f - g, due.principal))
  }

  function Walk(p: int, due: seq<Outstanding>): (lines: seq<Line>)
    ensures |lines| == |due|
  {
    if due == [] then [] else [LineFor(p, due[0])] + Walk(p - LineFor(p, due[0]).Total(), due[1..])
  }

  lemma {:induction false} BucketShift(p: int, owed: seq<int>, k: nat)
    requires owed != [] && k < |owed| - 1
    ensures Bucket(p, owed, k + 1) == Bucket(p - Take(p, owed[0]), owed[1..], k)
  {
    assert owed[..k + 1] == [owed[0]] + owed[1..][..k];
    SumAppend([owed[0]], owed[1..][..k], Owed);
    SumNonNegative(owed[1..][..k], Owed);
    assert Sum([owed[0]], Owed) == Owed(owed[0]) + Sum<int>([], Owed);
  }

  lemma SplitHead(p: int, owed: seq<int>)
    requires owed != []
    ensures Split(p, owed)[0] == Take(p, owed[0])
    ensures Split(p, owed)[1..] == Split(p - Take(p, owed[0]), owed[1..])
  {
    assert owed[..0] == [];
    forall k | 0 <= k < |owed| - 1
      ensures Split(p, owed)[1..][k] == Split(p - Take(p, owed[0]), owed[1..])[k]
    {
      BucketShift(p, owed, k);
    }
  }

  lemma SplitTriple(p: int, d: Outstanding, rest: seq<int>)
    ensures var l := LineFor(p, d);
      Split(p, [d.lateFee, d.profit, d.principal] + rest) == [l.lateFee, l.profit, l.principal] + Split(p - l.Total(), rest)
  {
    hide Split, Bucket;
    var l := LineFor(p, d);
    var owed := [d.lateFee, d.profit, d.principal] + rest;
    SplitHead(p, owed);
    assert owed[1..] == [d.profit, d.principal] + rest;
    SplitHead(p - l.lateFee, [d.profit, d.principal] + rest);
    assert ([d.profit, d.principal] + rest)[1..] == [d.principal] + rest;
    SplitHead(p - l.lateFee - l.profit, [d.principal] + rest);
    assert ([d.principal] + rest)[1..] == rest;
    Uncons(Split(p, owed));
    Uncons(Split(p - l.lateFee, [d.profit, d.principal] + rest));
    Uncons(Split(p - l.lateFee - l.profit, [d.principal] + rest));
  }

  lemma Uncons<T>(xs: seq<T>)
    requires xs != []
    ensures xs == [xs[0]] + xs[1..]
  {
  }

  // The lines laid out bucket by bucket.
  function Cells(lines: seq<Line>): (cells: seq<int>)
    ensures |cells| == 3 * |lines|
  {
    if lines == [] then [] else [lines[0].lateFee, lines[0].profit, lines[0].principal] + Cells(lines[1..])
  }

  lemma {:induction false} CellsAt(lines: seq<Line>, i: nat)
    requires i < |lines|
    ensures Cells(lines)[3 * i] == lines[i].lateFee
    ensures Cells(lines)[3 * i + 1] == lines[i].profit
    ensures Cells(lines)[3 * i + 2] == lines[i].principal
  {
    if i > 0 {
      CellsAt(lines[1..], i - 1);
    }
  }

  // Walking installment by installment gives every bucket its declared share.
  lemma {:induction false} WalkMeetsSplit(p: int, due: seq<Outstanding>)
    ensures Cells(Walk(p, due)) == Split(p, Flatten(due))
  {
    if due != [] {
      var rest := p - LineFor(p, due[0]).Total();
      SplitTriple(p, due[0], Flatten(due[1..]));
      WalkMeetsSplit(rest, due[1..]);
      assert Walk(p, due)[1..] == Walk(rest, due[1..]);
    }
  }

  lemma {:induction false} WalkKeepsIds(p: int, due: seq<Outstanding>, i: nat)
    requires i < |due|
    ensures Walk(p, due)[i].id == due[i].id && Walk(p, due)[i].sequence == due[i].sequence
  {
    if i > 0 {
      WalkKeepsIds(p - LineFor(p, due[0]).Total(), due[1..], i - 1);
    }
  }

  lemma WalkIsDue(p: int, due: seq<Outstanding>)
    ensures Walk(p, due) == seq(|due|, i requires 0 <= i < |due| => DueLine(p, due, i))
  {
    WalkMeetsSplit(p, due);
    forall i | 0 <= i < |due| ensures Walk(p, due)[i] == DueLine(p, due, i) {
      CellsAt(Walk(p, due), i);
      WalkKeepsIds(p, due, i);
    }
  }

  lemma PlanIsWalk(p: int, due: seq<Outstanding>)
    ensures Plan(p, due).lines == Kept(Walk(p, due))
    ensures Plan(p, due).applied == Sum(Walk(p, due), LineTotal)
    ensures Plan(p, due).unallocated == Max(p, 0) - Sum(Walk(p, due), LineTotal)
  {
    WalkIsDue(p, due);
    WalkTotal(p, due);
    SumNonNegative(Flatten(due), Owed);
  }

  function LineTotal(l: Line): int { l.Total() }

  function Identity(x: int): int { x }

  function OwedBy(d: Outstanding): (n: int)
    ensures n >= 0
  {
    Owed(d.lateFee) + Owed(d.profit) + Owed(d.principal)
  }

  lemma FlattenHead(due: seq<Outstanding>)
    requires due != []
    ensures TotalOwed(Flatten(due)) == OwedBy(due[0]) + TotalOwed(Flatten(due[1..]))
  {
    var d := due[0];
    SumAppend([d.lateFee, d.profit, d.principal], Flatten(due[1..]), Owed);
    SumAppend([d.lateFee], [d.profit, d.principal], Owed);
    SumAppend([d.profit], [d.principal], Owed);
    assert [d.lateFee, d.profit, d.principal] == [d.lateFee] + [d.profit, d.principal];
    assert [d.profit, d.principal] == [d.profit] + [d.principal];
  }

  // A line takes all the installment owes, or all that is left.
  lemma LineTakes(p: int, d: Outstanding)
    ensures LineFor(p, d).Total() == Max(0, Min(p, OwedBy(d)))
  {
  }

  lemma TakeThenRest(p: int, head: int, rest: int, line: int)
    requires head >= 0 && rest >= 0 && line == Max(0, Min(p, head))
    ensures line + Max(0, Min(p - line, rest)) == Max(0, Min(p, head + rest))
  {
  }

  lemma WalkHead(p: int, due: seq<Outstanding>)
    requires due != []
    ensures var l := LineFor(p, due[0]); Sum(Walk(p, due), LineTotal) == l.Total() + Sum(Walk(p - l.Total(), due[1..]), LineTotal)
  {
    hide LineFor;
    var l := LineFor(p, due[0]);
    assert Walk(p, due)[1..] == Walk(p - l.Total(), due[1..]);
  }

  lemma OwedNotNegative(due: seq<Outstanding>)
    ensures TotalOwed(Flatten(due)) >= 0
  {
    SumNonNegative(Flatten(due), Owed);
  }

  lemma NoneOwed(p: int)
    ensures Sum(Walk(p, []), LineTotal) == 0 == TotalOwed(Flatten([]))
  {
  }

  lemma {:induction false} WalkTotal(p: int, due: seq<Outstanding>)
    ensures Sum(Walk(p, due), LineTotal) == Max(0, Min(p, TotalOwed(Flatten(due))))
    decreases |due|
  {
    hide LineFor, Walk, TotalOwed, Flatten, OwedBy, Sums.Sum, Max, Min;
    if due == [] {
      NoneOwed(p);
      NoMoney(p);
    } else {
      var l, rest := LineFor(p, due[0]), TotalOwed(Flatten(due[1..]));
      FlattenHead(due);
      LineTakes(p, due[0]);
      WalkHead(p, due);
      WalkTotal(p - l.Total(), due[1..]);
      OwedNotNegative(due[1..]);
      TakeThenRest(p, OwedBy(due[0]), rest, l.Total());
    }
  }

  lemma NoMoney(p: int)
    ensures Max(0, Min(p, 0)) == 0
  {
  }

  lemma {:induction false} WalkExhausted(p: int, due: seq<Outstanding>)
    requires p <= 0
    ensures Kept(Walk(p, due)) == [] && Sum(Walk(p, due), LineTotal) == 0
  {
    if due != [] {
      assert Walk(p, due)[1..] == Walk(p, due[1..]);
      WalkExhausted(p, due[1..]);
    }
  }

  // The inner loop of allocate(): one installment's three buckets in order.
  method FillLine(payment: int, inst: Outstanding) returns (line: Line)
    ensures line == LineFor(payment, inst)
  {
    var buckets := [inst.lateFee, inst.profit, inst.principal];
    var taken := [0, 0, 0];
    var remaining := payment;
    for b := 0 to 3
      invariant |taken| == 3 && remaining == payment - taken[0] - taken[1] - taken[2]
      invariant taken[0] == if b > 0 then Take(payment, inst.lateFee) else 0
      invariant taken[1] == if b > 1 then Take(payment - taken[0], inst.profit) else 0
      invariant taken[2] == if b > 2 then Take(payment - taken[0] - taken[1], inst.principal) else 0
    {
      var owed := buckets[b];
      if remaining > 0 && owed > 0 {
        var take := Min(remaining, owed);
        taken := taken[b := take];
        remaining := remaining - take;
      }
    }
    line := Line(inst.id, inst.sequence, taken[0], taken[1], taken[2]);
  }

  // The part of the walk still to come, after `lines` have been kept and `p` remains.
  ghost predicate Resumes(payment: int, due: seq<Outstanding>, lines: seq<Line>, p: int, i: nat)
    requires i <= |due|
  {
    && Kept(Walk(payment, due)) == lines + Kept(Walk(p, due[i..]))
    && Sum(Walk(payment, due), LineTotal) == payment - p + Sum(Walk(p, due[i..]), LineTotal)
  }

  lemma ResumesStep(payment: int, due: seq<Outstanding>, lines: seq<Line>, p: int, i: nat)
    requires i < |due| && Resumes(payment, due, lines, p, i)
    ensures var l := LineFor(p, due[i]);
      Resumes(payment, due, if l.Total() > 0 then lines + [l] else lines, p - l.Total(), i + 1)
  {
    var l, rest := LineFor(p, due[i]), due[i..];
    assert rest[1..] == due[i + 1..];
    assert Walk(p, rest)[1..] == Walk(p - l.Total(), due[i + 1..]);
    var kept := if l.Total() > 0 then [l] else [];
    var tail := Kept(Walk(p - l.Total(), due[i + 1..]));
    assert lines + (kept + tail) == (if l.Total() > 0 then lines + [l] else lines) + tail;
  }

  lemma ResumesEnd(payment: int, due: seq<Outstanding>, lines: seq<Line>, p: int, i: nat)
    requires payment > 0 && i <= |due| && p >= 0 && (p == 0 || i == |due|)
    requires Resumes(payment, due, lines, p, i)
    ensures Plan(payment, due) == Allocation(lines, payment - p, p)
  {
    WalkExhausted(0, due[i..]);
    PlanIsWalk(payment, due);
    assert i == |due| ==> due[i..] == [];
  }

  // allocate(): the loop over the installments, stopping when the money is gone.
  method Allocate(payment: int, due: seq<Outstanding>) returns (result: Allocation)
    ensures result == Plan(payment, due)
  {
    var remaining := payment;
    if remaining <= 0 {
      WalkExhausted(payment, due);
      PlanIsWalk(payment, due);
      return Allocation([], 0, Max(remaining, 0));
    }
    var lines: seq<Line> := [];
    var i := 0;
    assert due[0..] == due;
    while i < |due| && remaining > 0
      invariant 0 <= i <= |due|
      invariant remaining >= 0
      invariant Resumes(payment, due, lines, remaining, i)
      decreases |due| - i
    {
      ResumesStep(payment, due, lines, remaining, i);
      var line := FillLine(remaining, due[i]);
      remaining := remaining - line.Total();
      if line.Total() > 0 {
        lines := lines + [line];
      }
      i := i + 1;
    }
    ResumesEnd(payment, due, lines, remaining, i);
    result := Allocation(lines, payment - remaining, remaining);
  }

  // -------------------------------------------------------------------------
  // What the split is: the greediest way to spend the money in order.
  // -------------------------------------------------------------------------

  ghost predicate Feasible(p: int, owed: seq<int>, taken: seq<int>) {
    && |taken| == |owed|
    && (forall k :: 0 <= k < |owed| ==> 0 <= taken[k] <= Owed(owed[k]))
    && Sum(taken, Identity) <= Max(p, 0)
  }

  ghost predicate LexAtMost(s: seq<int>, t: seq<int>)
    requires |s| == |t|
  {
    s == [] || s[0] < t[0] || (s[0] == t[0] && LexAtMost(s[1..], t[1..]))
  }

  lemma {:induction false} SplitConserves(p: int, owed: seq<int>)
    ensures Sum(Split(p, owed), Identity) == Max(0, Min(p, TotalOwed(owed)))
  {
    SumNonNegative(owed, Owed);
    if owed != [] {
      SumNonNegative(owed[1..], Owed);
      SplitHead(p, owed);
      SplitConserves(p - Take(p, owed[0]), owed[1..]);
    }
  }

  // Among all feasible splits the waterfall's is the lexicographically greatest,
  // that is, no bucket can get more without an earlier bucket getting less.
  lemma {:induction false} SplitIsGreediest(p: int, owed: seq<int>, taken: seq<int>)
    requires Feasible(p, owed, taken)
    ensures Feasible(p, owed, Split(p, owed))
    ensures LexAtMost(taken, Split(p, owed))
  {
    SplitConserves(p, owed);
    SumNonNegative(owed, Owed);
    if owed != [] {
      SplitHead(p, owed);
      SumNonNegative(taken[1..], Identity);
      if taken[0] == Take(p, owed[0]) {
        SplitIsGreediest(p - taken[0], owed[1..], taken[1..]);
      }
    }
  }

  lemma SplitMonotone(p: int, q: int, owed: seq<int>, k: nat)
    requires p <= q && k < |owed|
    ensures Split(p, owed)[k] <= Split(q, owed)[k]
  {
  }

  // -------------------------------------------------------------------------
  // Path independence: splitting a payment changes nothing.
  // -------------------------------------------------------------------------

  function Less(d: Outstanding, l: Line): Outstanding {
    d.(lateFee := d.lateFee - l.lateFee, profit := d.profit - l.profit, principal := d.principal - l.principal)
  }

  function Plus(l: Line, m: Line): Line {
    Line(l.id, l.sequence, l.lateFee + m.lateFee, l.profit + m.profit, l.principal + m.principal)
  }

  function Settle(due: seq<Outstanding>, lines: seq<Line>): (rest: seq<Outstanding>)
    requires |due| == |lines|
    ensures |rest| == |due|
    ensures forall i :: 0 <= i < |due| ==> rest[i] == Less(due[i], lines[i])
  {
    seq(|due|, i requires 0 <= i < |due| => Less(due[i], lines[i]))
  }

  // The balances left once a payment has been allocated.
  function After(p: int, due: seq<Outstanding>): seq<Outstanding> {
    Settle(due, Walk(p, due))
  }

  function Remaining(p: int, owed: seq<int>): (rest: seq<int>)
    ensures |rest| == |owed|
    ensures forall k :: 0 <= k < |owed| ==> rest[k] == owed[k] - Bucket(p, owed, k)
  {
    seq(|owed|, k requires 0 <= k < |owed| => owed[k] - Bucket(p, owed, k))
  }

  // A payment clears a prefix of the buckets: what is still owed up to k is what exceeds it.
  lemma {:induction false} PrefixAfter(p: nat, owed: seq<int>, k: nat)
    requires k <= |owed|
    ensures TotalOwed(Remaining(p, owed)[..k]) == Max(0, TotalOwed(owed[..k]) - p)
  {
    if k == 0 {
      assert owed[..0] == [] && Remaining(p, owed)[..0] == [];
    } else {
      PrefixAfter(p, owed, k - 1);
      assert owed[..k] == owed[..k - 1] + [owed[k - 1]];
      assert Remaining(p, owed)[..k] == Remaining(p, owed)[..k - 1] + [Remaining(p, owed)[k - 1]];
      SumSnoc(owed[..k - 1], owed[k - 1], Owed);
      SumSnoc(Remaining(p, owed)[..k - 1], Remaining(p, owed)[k - 1], Owed);
      SumNonNegative(owed[..k - 1], Owed);
    }
  }

  lemma BucketComposes(p: nat, q: nat, owed: seq<int>, k: nat)
    requires k < |owed|
    ensures Bucket(p + q, owed, k) == Bucket(p, owed, k) + Bucket(q, Remaining(p, owed), k)
  {
    PrefixAfter(p, owed, k);
    SumNonNegative(owed[..k], Owed);
  }

  lemma {:induction false} FlattenAt(due: seq<Outstanding>, i: nat)
    requires i < |due|
    ensures Flatten(due)[3 * i] == due[i].lateFee
    ensures Flatten(due)[3 * i + 1] == due[i].profit
    ensures Flatten(due)[3 * i + 2] == due[i].principal
  {
    if i > 0 {
      FlattenAt(due[1..], i - 1);
    }
  }

  lemma WalkBuckets(p: int, due: seq<Outstanding>, i: nat)
    requires i < |due|
    ensures Walk(p, due)[i].lateFee == Bucket(p, Flatten(due), 3 * i)
    ensures Walk(p, due)[i].profit == Bucket(p, Flatten(due), 3 * i + 1)
    ensures Walk(p, due)[i].principal == Bucket(p, Flatten(due), 3 * i + 2)
    ensures Walk(p, due)[i].id == due[i].id && Walk(p, due)[i].sequence == due[i].sequence
  {
    WalkMeetsSplit(p, due);
    CellsAt(Walk(p, due), i);
    WalkKeepsIds(p, due, i);
  }

  lemma FlattenAfter(p: int, due: seq<Outstanding>)
    ensures Flatten(After(p, due)) == Remaining(p, Flatten(due))
  {
    var rest := After(p, due);
    forall k | 0 <= k < 3 * |due| ensures Flatten(rest)[k] == Remaining(p, Flatten(due))[k] {
      var i := k / 3;
      FlattenAt(due, i);
      FlattenAt(rest, i);
      WalkBuckets(p, due, i);
      assert k == 3 * i || k == 3 * i + 1 || k == 3 * i + 2;
    }
  }

  ghost predicate Composes(p: int, q: int, due: seq<Outstanding>, k: nat)
    requires k < 3 * |due|
  {
    Cells(Walk(p + q, due))[k] == Cells(Walk(p, due))[k] + Cells(Walk(q, After(p, due)))[k]
  }

  lemma CellComposes(p: nat, q: nat, due: seq<Outstanding>, k: nat)
    requires k < 3 * |due|
    ensures Composes(p, q, due, k)
  {
    hide Walk, Flatten, After, Bucket, Remaining, Cells;
    FlattenAfter(p, due);
    BucketComposes(p, q, Flatten(due), k);
    WalkMeetsSplit(p, due);
    WalkMeetsSplit(p + q, due);
    WalkMeetsSplit(q, After(p, due));
  }

  // Paying q out of the balances p left takes, bucket by bucket, what p + q would have added.
  lemma WalkComposes(p: nat, q: nat, due: seq<Outstanding>, i: nat)
    requires i < |due|
    ensures Walk(p + q, due)[i] == Plus(Walk(p, due)[i], Walk(q, After(p, due))[i])
  {
    hide Walk, Flatten, Cells;
    CellComposes(p, q, due, 3 * i);
    CellComposes(p, q, due, 3 * i + 1);
    CellComposes(p, q, due, 3 * i + 2);
    CellsAt(Walk(p, due), i);
    CellsAt(Walk(p + q, due), i);
    CellsAt(Walk(q, After(p, due)), i);
    WalkKeepsIds(p, due, i);
    WalkKeepsIds(p + q, due, i);
  }

  lemma SplitPaymentEquivalent(p: nat, q: nat, due: seq<Outstanding>)
    ensures After(q, After(p, due)) == After(p + q, due)
    ensures Plan(p, due).unallocated + Plan(q, After(p, due)).unallocated == Plan(p + q, due).unallocated
  {
    hide Walk, Plan, Flatten, TotalOwed;
    SameBalances(p, q, due);
    forall i | 0 <= i < |due|
      ensures LineTotal(Walk(p + q, due)[i]) == LineTotal(Walk(p, due)[i]) + LineTotal(Walk(q, After(p, due))[i])
    {
      WalkComposes(p, q, due, i);
    }
    SumPointwise(Walk(p + q, due), LineTotal, Walk(p, due), LineTotal, Walk(q, After(p, due)), LineTotal);
    PlanIsWalk(p, due);
    PlanIsWalk(q, After(p, due));
    PlanIsWalk(p + q, due);
  }

  lemma SameBalances(p: nat, q: nat, due: seq<Outstanding>)
    ensures After(q, After(p, due)) == After(p + q, due)
  {
    hide Walk;
    forall i | 0 <= i < |due| ensures After(q, After(p, due))[i] == After(p + q, due)[i] {
      WalkComposes(p, q, due, i);
    }
  }

  // Any number of instalments of one payment leaves the balances the whole payment leaves.
  ghost function AfterAll(payments: seq<nat>, due: seq<Outstanding>): seq<Outstanding>
    decreases |payments|
  {
    if payments == [] then due else AfterAll(payments[1..], After(payments[0], due))
  }

  function Amount(p: nat): int { p }

  lemma {:induction false} AnySplitEquivalent(payments: seq<nat>, due: seq<Outstanding>)
    ensures Sum(payments, Amount) >= 0
    ensures AfterAll(payments, due) == After(Sum(payments, Amount), due)
    decreases |payments|
  {
    if payments == [] {
      forall i | 0 <= i < |due| ensures After(0, due)[i] == due[i] {
        WalkNothing(due, i);
      }
    } else {
      AnySplitEquivalent(payments[1..], After(payments[0], due));
      SplitPaymentEquivalent(payments[0], Sum(payments[1..], Amount), due);
    }
  }

  lemma {:induction false} WalkNothing(due: seq<Outstanding>, i: nat)
    requires i < |due|
    ensures Walk(0, due)[i] == Line(due[i].id, due[i].sequence, 0, 0, 0)
  {
    if i > 0 {
      WalkNothing(due[1..], i - 1);
    }
  }
}
