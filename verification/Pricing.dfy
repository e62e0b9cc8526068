// app/services/pricing.py: the installment schedule of an offer, and the contract signed on it.
module Pricing {
  import opened Options
  import opened Sums
  import S = Subledger
  import M = Money
  import B = Books
  import T = BookTheorems
  import R = Reconciliation
  import GL = GeneralLedger

  datatype Line = Line(sequence: nat, principal: int, profit: int)

  datatype Plan = Plan(cashPrice: int, downPayment: int, principal: int, profit: int, salePrice: int, financed: int, schedule: seq<Line>)

  datatype Outcome = Priced(plan: Plan) | BadTenor | NegativeDownPayment | NothingToFinance

  // N + (N - 1) + ... down to installment i's weight.
  function Weight(n: nat, i: nat): int { if i == 0 then 0 else Weight(n, i - 1) + n - i + 1 }

  lemma {:induction false} WeightIs(n: nat, i: nat)
    ensures 2 * Weight(n, i) == i * (2 * n - i + 1)
  {
    if i > 0 {
      WeightIs(n, i - 1);
    }
  }

  // The share of the principal, and of the profit, due with the first i installments.
  function PrincipalShare(n: nat, i: nat): real
    requires n > 0
  {
    i as real / n as real
  }

  function TotalWeight(n: nat): (total: nat)
    requires n > 0
    ensures total == Weight(n, n) > 0
  {
    WeightIs(n, n);
    assert n * (n + 1) > 0;
    n * (n + 1) / 2
  }

  function ProfitShare(n: nat, i: nat): real
    requires n > 0
  {
    Weight(n, i) as real / TotalWeight(n) as real
  }

  lemma {:induction false} WeightGrows(n: nat, i: nat, j: nat)
    requires i <= j <= n
    ensures Weight(n, i) <= Weight(n, j)
    decreases j
  {
    if i < j {
      WeightGrows(n, i, j - 1);
    }
  }

  // Rounded running totals; the last one is exact.
  function PrincipalUpTo(principal: int, n: nat, i: nat): int
    requires n > 0
  {
    if i >= n then principal else M.Times(principal, PrincipalShare(n, i))
  }

  function ProfitUpTo(profit: int, n: nat, i: nat): int
    requires n > 0
  {
    if i >= n then profit else M.Times(profit, ProfitShare(n, i))
  }

  function LineOf(principal: int, profit: int, n: nat, i: nat): Line
    requires n > 0 && i > 0
  {
    Line(i, PrincipalUpTo(principal, n, i) - (if i == 1 then 0 else PrincipalUpTo(principal, n, i - 1)),
         ProfitUpTo(profit, n, i) - (if i == 1 then 0 else ProfitUpTo(profit, n, i - 1)))
  }

  function Schedule(principal: int, profit: int, n: nat): (lines: seq<Line>)
    requires n > 0
    ensures |lines| == n && forall k :: 0 <= k < n ==> lines[k] == LineOf(principal, profit, n, k + 1)
  {
    seq(n, k requires 0 <= k < n => LineOf(principal, profit, n, k + 1))
  }

  function Price(cashPrice: int, downPayment: int, tenor: int, rate: real): Outcome {
    if tenor < 1 then BadTenor
    else if downPayment < 0 then NegativeDownPayment
    else if downPayment >= cashPrice then NothingToFinance
    else
      var principal := cashPrice - downPayment;
      var profit := M.Times(principal, rate);
      Priced(Plan(cashPrice, downPayment, principal, profit, cashPrice + profit, principal + profit, Schedule(principal, profit, tenor)))
  }

  // build_plan(): one pass that keeps the running totals and the running weight.
  method BuildPlan(cashPrice: int, downPayment: int, tenor: int, rate: real) returns (outcome: Outcome)
    ensures outcome == Price(cashPrice, downPayment, tenor, rate)
  {
    if tenor < 1 {
      return BadTenor;
    }
    if downPayment < 0 {
      return NegativeDownPayment;
    }
    if downPayment >= cashPrice {
      return NothingToFinance;
    }
    var principal := cashPrice - downPayment;
    var profit := M.Times(principal, rate);
    var n: nat := tenor;
    var totalWeight := n * (n + 1) / 2;
    assert totalWeight == TotalWeight(n);
    var schedule: seq<Line> := [];
    var principalSoFar, profitSoFar, weight := 0, 0, 0;
    for i := 1 to n + 1
      invariant |schedule| == i - 1 && weight == Weight(n, i - 1)
      invariant forall k :: 0 <= k < i - 1 ==> schedule[k] == LineOf(principal, profit, n, k + 1)
      invariant i > 1 ==> principalSoFar == PrincipalUpTo(principal, n, i - 1) && profitSoFar == ProfitUpTo(profit, n, i - 1)
      invariant i == 1 ==> principalSoFar == profitSoFar == 0
    {
      weight := weight + n - i + 1;
      var principalNow, profitNow := principal, profit;
      if i < n {
        principalNow := M.Times(principal, i as real / n as real);
        profitNow := M.Times(profit, weight as real / totalWeight as real);
      }
      schedule := schedule + [Line(i, principalNow - principalSoFar, profitNow - profitSoFar)];
      principalSoFar, profitSoFar := principalNow, profitNow;
    }
    assert schedule == Schedule(principal, profit, n);
    return Priced(Plan(cashPrice, downPayment, principal, profit, cashPrice + profit, principal + profit, schedule));
  }

  // -------------------------------------------------------------------------
  // Nothing is lost to rounding
  // -------------------------------------------------------------------------

  function PrincipalIn(l: Line): int { l.principal }
  function ProfitIn(l: Line): int { l.profit }

  lemma {:induction false} RunningTotals(principal: int, profit: int, n: nat, i: nat)
    requires 0 < i <= n
    ensures Sum(Schedule(principal, profit, n)[..i], PrincipalIn) == PrincipalUpTo(principal, n, i)
    ensures Sum(Schedule(principal, profit, n)[..i], ProfitIn) == ProfitUpTo(profit, n, i)
  {
    var lines := Schedule(principal, profit, n);
    assert lines[..i] == lines[..i - 1] + [lines[i - 1]];
    SumSnoc(lines[..i - 1], lines[i - 1], PrincipalIn);
    SumSnoc(lines[..i - 1], lines[i - 1], ProfitIn);
    if i > 1 {
      RunningTotals(principal, profit, n, i - 1);
    } else {
      assert lines[..0] == [];
    }
  }

  // The columns add up to the financed principal and the whole profit, to the cent.
  lemma ScheduleExact(principal: int, profit: int, n: nat)
    requires n > 0
    ensures Sum(Schedule(principal, profit, n), PrincipalIn) == principal && Sum(Schedule(principal, profit, n), ProfitIn) == profit
  {
    RunningTotals(principal, profit, n, n);
    assert Schedule(principal, profit, n)[..n] == Schedule(principal, profit, n);
  }

  lemma Share(a: int, b: int, c: int)
    requires 0 <= a <= b <= c && c > 0
    ensures 0.0 <= a as real / c as real <= b as real / c as real <= 1.0
  {
    var r := 1.0 / c as real;
    Divided(a, c, r);
    Divided(b, c, r);
    Divided(c, c, r);
    M.ScaleMonotone(r, 0.0, a as real);
    M.ScaleMonotone(r, a as real, b as real);
    M.ScaleMonotone(r, b as real, c as real);
  }

  lemma Divided(a: int, c: int, r: real)
    requires c > 0 && r == 1.0 / c as real
    ensures a as real / c as real == r * a as real
  {
  }

  lemma TotalsGrow(principal: nat, profit: nat, n: nat, i: nat)
    requires 0 < i <= n
    ensures PrincipalUpTo(principal, n, i) >= (if i == 1 then 0 else PrincipalUpTo(principal, n, i - 1))
    ensures ProfitUpTo(profit, n, i) >= (if i == 1 then 0 else ProfitUpTo(profit, n, i - 1))
  {
    WeightGrows(n, 0, i - 1);
    WeightGrows(n, i - 1, i);
    WeightGrows(n, i, n);
    Share(i - 1, i, n);
    Share(Weight(n, i - 1), Weight(n, i), TotalWeight(n));
    M.TimesShare(principal, PrincipalShare(n, i - 1));
    M.TimesShare(profit, ProfitShare(n, i - 1));
    M.TimesShare(principal, PrincipalShare(n, i));
    M.TimesShare(profit, ProfitShare(n, i));
    M.TimesMonotone(principal, PrincipalShare(n, i - 1), PrincipalShare(n, i));
    M.TimesMonotone(profit, ProfitShare(n, i - 1), ProfitShare(n, i));
  }

  lemma ComponentsNonNegative(principal: nat, profit: nat, n: nat)
    requires n > 0
    ensures forall k :: 0 <= k < n ==> Schedule(principal, profit, n)[k].principal >= 0 && Schedule(principal, profit, n)[k].profit >= 0
  {
    forall k | 0 <= k < n ensures Schedule(principal, profit, n)[k].principal >= 0 && Schedule(principal, profit, n)[k].profit >= 0 {
      TotalsGrow(principal, profit, n, k + 1);
    }
  }

  // -------------------------------------------------------------------------
  // Does profit per installment never increase?
  // -------------------------------------------------------------------------

  // Not to the cent: one per cent on one unit of account over four installments is one cent of profit,
  // and it falls on the second.
  lemma ProfitMayIncrease()
    ensures var outcome := Price(100, 0, 4, 0.01);
      && outcome.Priced? && outcome.plan.profit == 1 && |outcome.plan.schedule| == 4
      && outcome.plan.schedule[0].profit < outcome.plan.schedule[1].profit
  {
    assert M.Times(100, 0.01) == 1;
    assert Weight(4, 1) == 4 && Weight(4, 2) == 7 && Weight(4, 4) == 10 by {
      WeightIs(4, 1);
      WeightIs(4, 2);
      WeightIs(4, 4);
    }
    assert ProfitUpTo(1, 4, 1) == 0 && ProfitUpTo(1, 4, 2) == 1;
  }

  predicate IncreasesAt(lines: seq<Line>, k: nat) { k + 1 < |lines| && lines[k + 1].profit > lines[k].profit }

  lemma {:induction false} NoneAbove(lines: seq<Line>, k: nat)
    requires k < |lines| && forall j: nat :: !IncreasesAt(lines, j)
    ensures lines[k].profit <= lines[0].profit
  {
    if k > 0 {
      NoneAbove(lines, k - 1);
      assert !IncreasesAt(lines, k - 1);
    }
  }

  lemma {:induction false} NotPositive(lines: seq<Line>)
    requires forall k :: 0 <= k < |lines| ==> lines[k].profit <= 0
    ensures Sum(lines, ProfitIn) <= 0
  {
    if lines != [] {
      NotPositive(lines[1..]);
    }
  }

  lemma LessThanHalf(profit: nat, n: nat, total: nat)
    requires total > 0 && 2 * n * profit < total
    ensures M.Times(profit, n as real / total as real) == 0
  {
    var r := 1.0 / total as real;
    Divided(n, total, r);
    Divided(total, total, r);
    HalfCent(profit as real, n as real, total as real, r, profit as real * (r * n as real), n as real * profit as real);
  }

  lemma HalfCent(p: real, n: real, total: real, r: real, x: real, y: real)
    requires p >= 0.0 && n >= 0.0 && total > 0.0 && r * total == 1.0 && r > 0.0
    requires x == p * (r * n) && y == n * p && 2.0 * y < total
    ensures 0.0 <= x < 0.5 && M.RoundHalfUp(x) == 0
  {
    Reorder(p, r, n);
    M.ScaleMonotone(p, 0.0, n);
    BelowHalf(r, y, x, total);
  }

  lemma BelowHalf(r: real, y: real, x: real, total: real)
    requires r > 0.0 && y >= 0.0 && x == r * y && r * total == 1.0 && 2.0 * y < total
    ensures 0.0 <= x < 0.5
  {
    var rest := total - 2.0 * y;
    M.ScaleMonotone(r, 0.0, y);
    M.Positive(r, rest);
    Twice(r, y, rest, total);
    Opposite(r * rest, r * y);
  }

  lemma Reorder(p: real, r: real, n: real)
    ensures p * (r * n) == r * (n * p)
  {
    assert p * (r * n) == (p * r) * n;
    assert r * (n * p) == (r * p) * n;
  }

  lemma Twice(r: real, y: real, rest: real, total: real)
    requires rest == total - 2.0 * y
    ensures r * rest == r * total - 2.0 * (r * y)
  {
    assert r * rest + r * (y + y) == r * total;
    assert r * (y + y) == r * y + r * y;
  }

  lemma Opposite(rest: real, half: real)
    requires rest > 0.0 && rest == 1.0 - 2.0 * half
    ensures half < 0.5
  {
  }

  // It increases whenever there is some profit but not half a cent of it for the first installment:
  // that one gets none, and a later one must.
  lemma SmallProfitIncreases(principal: int, profit: nat, n: nat)
    requires n > 0 && 0 < profit && 2 * n * profit < TotalWeight(n)
    ensures exists k: nat :: IncreasesAt(Schedule(principal, profit, n), k)
  {
    hide M.Times, PrincipalUpTo;
    var lines := Schedule(principal, profit, n);
    WeightIs(n, n);
    if n == 1 {
      assert false;
    }
    assert Weight(n, 1) == n;
    LessThanHalf(profit, n, TotalWeight(n));
    assert lines[0].profit == 0;
    ScheduleExact(principal, profit, n);
    if forall k: nat :: !IncreasesAt(lines, k) {
      forall k | 0 <= k < |lines| ensures lines[k].profit <= 0 { NoneAbove(lines, k); }
      NotPositive(lines);
    }
  }

  // The unrounded profit due with the first i installments, and per unit of weight.
  function Ideal(profit: int, n: nat, i: nat): real
    requires n > 0
  {
    profit as real * ProfitShare(n, i)
  }

  function PerWeight(profit: int, n: nat): real
    requires n > 0
  {
    profit as real / TotalWeight(n) as real
  }

  lemma StepOfShare(n: nat, i: nat, profit: int)
    requires 0 < i < n
    ensures Ideal(profit, n, i + 1) - Ideal(profit, n, i) == (Ideal(profit, n, i) - Ideal(profit, n, i - 1)) - PerWeight(profit, n)
  {
    var p, r := profit as real, 1.0 / TotalWeight(n) as real;
    Divided(Weight(n, i + 1), TotalWeight(n), r);
    Divided(Weight(n, i), TotalWeight(n), r);
    Divided(Weight(n, i - 1), TotalWeight(n), r);
    SecondDifference(p, r, Weight(n, i - 1) as real, (n - i + 1) as real);
    assert p / TotalWeight(n) as real == p * r;
  }

  lemma SecondDifference(p: real, r: real, w: real, d: real)
    ensures p * (r * (w + d + d - 1.0)) - p * (r * (w + d)) == (p * (r * (w + d)) - p * (r * w)) - p * r
  {
    var q := p * r;
    assert p * (r * (w + d + d - 1.0)) == q * (w + d + d - 1.0);
    assert p * (r * (w + d)) == q * (w + d);
    assert p * (r * w) == q * w;
  }

  // Never, as soon as the profit is one cent per unit of weight.
  lemma ProfitNeverIncreases(principal: int, profit: nat, n: nat, k: nat)
    requires k + 1 < n && profit >= TotalWeight(n)
    ensures Schedule(principal, profit, n)[k + 1].profit <= Schedule(principal, profit, n)[k].profit
  {
    hide M.Times, Weight, ProfitUpTo, PrincipalUpTo, Ideal, PerWeight;
    var i := k + 1;
    StepOfShare(n, i, profit);
    AtLeastOne(profit, n);
    ProfitNear(profit, n, i - 1);
    ProfitNear(profit, n, i);
    ProfitNear(profit, n, i + 1);
    SecondRounding(Ideal(profit, n, i - 1), Ideal(profit, n, i), Ideal(profit, n, i + 1), PerWeight(profit, n),
                   if i == 1 then 0 else ProfitUpTo(profit, n, i - 1), ProfitUpTo(profit, n, i), ProfitUpTo(profit, n, i + 1));
  }

  // Rounding half up is never a whole half too low, which is what makes one cent enough.
  lemma SecondRounding(x: real, y: real, z: real, gap: real, a: int, b: int, c: int)
    requires z - y == (y - x) - gap && gap >= 1.0
    requires M.Nearest(a, x) && M.Nearest(b, y) && M.Nearest(c, z)
    ensures c - b <= b - a
  {
    assert (c - b) as real < (b - a) as real + 1.0;
  }

  lemma AtLeastOne(profit: nat, n: nat)
    requires n > 0 && profit >= TotalWeight(n)
    ensures PerWeight(profit, n) >= 1.0
  {
    var weight := TotalWeight(n);
    var r := 1.0 / weight as real;
    Divided(profit, weight, r);
    Divided(weight, weight, r);
    M.ScaleMonotone(r, weight as real, profit as real);
  }

  lemma OwnShare(x: real)
    requires x != 0.0
    ensures x / x == 1.0
  {
  }

  lemma ProfitNear(profit: nat, n: nat, i: nat)
    requires i <= n && n > 0
    ensures M.Nearest(if i == 0 then 0 else ProfitUpTo(profit, n, i), Ideal(profit, n, i))
  {
    hide PrincipalUpTo, M.RoundHalfUp;
    if i == 0 {
      assert ProfitShare(n, 0) == 0.0;
    } else if i == n {
      OwnShare(TotalWeight(n) as real);
    } else {
      IdealNotNegative(profit, n, i);
      M.RoundedNearest(Ideal(profit, n, i));
    }
  }

  lemma IdealNotNegative(profit: nat, n: nat, i: nat)
    requires i <= n && n > 0
    ensures Ideal(profit, n, i) >= 0.0
  {
    hide Weight;
    NoWeight(n);
    WeightGrows(n, 0, i);
    WeightGrows(n, i, n);
    Share(Weight(n, i), Weight(n, i), TotalWeight(n));
    M.ScaleMonotone(profit as real, 0.0, ProfitShare(n, i));
  }

  lemma NoWeight(n: nat)
    ensures Weight(n, 0) == 0
  {
  }

  // The unrounded principal due with the first i installments.
  function Even(principal: int, n: nat, i: nat): real
    requires n > 0
  {
    principal as real * PrincipalShare(n, i)
  }

  lemma PrincipalNear(principal: nat, n: nat, i: nat)
    requires i <= n && n > 0
    ensures M.Nearest(if i == 0 then 0 else PrincipalUpTo(principal, n, i), Even(principal, n, i))
  {
    hide ProfitUpTo, M.RoundHalfUp;
    if i == 0 {
      assert PrincipalShare(n, 0) == 0.0;
    } else if i == n {
      OwnShare(n as real);
    } else {
      Share(i, n, n);
      M.ScaleMonotone(principal as real, 0.0, PrincipalShare(n, i));
      M.RoundedNearest(principal as real * PrincipalShare(n, i));
    }
  }

  lemma OneShare(principal: nat, n: nat, i: nat)
    requires n > 0
    ensures Even(principal, n, i + 1) - Even(principal, n, i) == principal as real / n as real
  {
    var p, r := principal as real, 1.0 / n as real;
    Divided(i + 1, n, r);
    Divided(i, n, r);
    assert p * (r * (i + 1) as real) == p * (r * i as real) + p * r;
    assert p / n as real == p * r;
  }

  // A difference of two rounded totals is within a cent of the exact one.
  lemma Within(a: int, b: int, x: real, y: real)
    requires M.Nearest(a, x) && M.Nearest(b, y)
    ensures -1.0 < (b - a) as real - (y - x) < 1.0
  {
  }

  // The principal falls due evenly: every installment carries its n-th part, give or take less than a cent.
  lemma EvenPrincipal(principal: nat, profit: int, n: nat, k: nat)
    requires k < n
    ensures -1.0 < Schedule(principal, profit, n)[k].principal as real - principal as real / n as real < 1.0
  {
    hide PrincipalUpTo, ProfitUpTo, Even, M.Nearest;
    PrincipalNear(principal, n, k);
    PrincipalNear(principal, n, k + 1);
    OneShare(principal, n, k);
    Within(if k == 0 then 0 else PrincipalUpTo(principal, n, k), PrincipalUpTo(principal, n, k + 1),
           Even(principal, n, k), Even(principal, n, k + 1));
  }

  lemma OneIdeal(profit: int, n: nat, i: nat)
    requires i < n
    ensures Ideal(profit, n, i + 1) - Ideal(profit, n, i) == profit as real * ((n - i) as real / TotalWeight(n) as real)
  {
    var p, r := profit as real, 1.0 / TotalWeight(n) as real;
    Divided(Weight(n, i + 1), TotalWeight(n), r);
    Divided(Weight(n, i), TotalWeight(n), r);
    Divided(n - i, TotalWeight(n), r);
    Distribute(p, r, Weight(n, i) as real, (n - i) as real);
  }

  lemma Distribute(p: real, r: real, w: real, d: real)
    ensures p * (r * (w + d)) == p * (r * w) + p * (r * d)
  {
    var q := p * r;
    assert p * (r * (w + d)) == q * (w + d);
    assert p * (r * w) == q * w && p * (r * d) == q * d;
  }

  // The profit falls due by the sum of the digits: the first of n installments carries n parts of the
  // 1 + 2 + ... + n, the last one part, again give or take less than a cent.
  lemma DigitsProfit(principal: int, profit: nat, n: nat, k: nat)
    requires k < n
    ensures -1.0 < Schedule(principal, profit, n)[k].profit as real - profit as real * ((n - k) as real / (n * (n + 1) / 2) as real) < 1.0
  {
    hide PrincipalUpTo, ProfitUpTo, Ideal, M.Nearest;
    ProfitNear(profit, n, k);
    ProfitNear(profit, n, k + 1);
    OneIdeal(profit, n, k);
    assert TotalWeight(n) == n * (n + 1) / 2;
    Within(if k == 0 then 0 else ProfitUpTo(profit, n, k), ProfitUpTo(profit, n, k + 1), Ideal(profit, n, k), Ideal(profit, n, k + 1));
  }

  // What an offer costs: what is financed is the cash price less the down payment, the profit is the rate on
  // that, and the down payment with all the installments adds up to the sale price.
  lemma PricedTerms(cashPrice: int, downPayment: int, tenor: int, rate: real)
    ensures var outcome := Price(cashPrice, downPayment, tenor, rate);
      && (outcome.Priced? <==> tenor >= 1 && 0 <= downPayment < cashPrice)
      && (outcome.BadTenor? <==> tenor < 1) && (outcome.NegativeDownPayment? <==> tenor >= 1 && downPayment < 0)
      && (outcome.Priced? ==> var p := outcome.plan;
           && p.cashPrice == cashPrice && p.downPayment == downPayment && |p.schedule| == tenor
           && p.downPayment + p.principal == cashPrice && cashPrice + p.profit == p.salePrice && p.downPayment + p.financed == p.salePrice
           && p.downPayment + Sum(p.schedule, PrincipalIn) + Sum(p.schedule, ProfitIn) == p.salePrice
           && (rate >= 0.0 ==> M.NearestShare(p.profit, cashPrice - downPayment, rate))
           && forall k :: 0 <= k < tenor ==> p.schedule[k].sequence == k + 1)
  {
    hide M.Times, M.NearestShare, Sums.Sum;
    if Price(cashPrice, downPayment, tenor, rate).Priced? {
      var p := Price(cashPrice, downPayment, tenor, rate).plan;
      ScheduleExact(p.principal, p.profit, tenor);
      if rate >= 0.0 { M.TimesNearest(cashPrice - downPayment, rate); }
    }
  }

  lemma WeightsOfSix()
    ensures Weight(6, 1) == 6 && Weight(6, 2) == 11 && Weight(6, 3) == 15 && Weight(6, 4) == 18 && Weight(6, 5) == 20 && TotalWeight(6) == 21
  {
    WeightIs(6, 1);
    WeightIs(6, 2);
    WeightIs(6, 3);
    WeightIs(6, 4);
    WeightIs(6, 5);
  }

  function SixProfits(lines: seq<Line>): seq<int>
    requires |lines| == 6
  {
    [lines[0].profit, lines[1].profit, lines[2].profit, lines[3].profit, lines[4].profit, lines[5].profit]
  }

  lemma EightCents(principal: int)
    ensures SixProfits(Schedule(principal, 8, 6)) == [2, 2, 2, 1, 1, 0]
  {
    hide Weight, PrincipalUpTo;
    WeightsOfSix();
    assert ProfitUpTo(8, 6, 1) == 2 && ProfitUpTo(8, 6, 2) == 4 && ProfitUpTo(8, 6, 3) == 6 && ProfitUpTo(8, 6, 4) == 7 && ProfitUpTo(8, 6, 5) == 8;
  }

  lemma NineCents(principal: int)
    ensures SixProfits(Schedule(principal, 9, 6)) == [3, 2, 1, 2, 1, 0]
  {
    hide Weight, PrincipalUpTo;
    WeightsOfSix();
    assert ProfitUpTo(9, 6, 1) == 3 && ProfitUpTo(9, 6, 2) == 5 && ProfitUpTo(9, 6, 3) == 6 && ProfitUpTo(9, 6, 4) == 8 && ProfitUpTo(9, 6, 5) == 9;
  }

  lemma TenCents(principal: int)
    ensures SixProfits(Schedule(principal, 10, 6)) == [3, 2, 2, 2, 1, 0]
  {
    hide Weight, PrincipalUpTo;
    WeightsOfSix();
    assert ProfitUpTo(10, 6, 1) == 3 && ProfitUpTo(10, 6, 2) == 5 && ProfitUpTo(10, 6, 3) == 7 && ProfitUpTo(10, 6, 4) == 9 && ProfitUpTo(10, 6, 5) == 10;
  }

  lemma SixIncrease(lines: seq<Line>)
    requires |lines| == 6
    ensures var p := SixProfits(lines); (exists k: nat :: IncreasesAt(lines, k)) <==>
      p[0] < p[1] || p[1] < p[2] || p[2] < p[3] || p[3] < p[4] || p[4] < p[5]
  {
    assert forall j: nat :: j < 5 ==> (IncreasesAt(lines, j) <==> SixProfits(lines)[j] < SixProfits(lines)[j + 1]);
    if exists k: nat :: IncreasesAt(lines, k) {
      var k: nat :| IncreasesAt(lines, k);
      assert k == 0 || k == 1 || k == 2 || k == 3 || k == 4;
    }
  }

  // In between no amount of profit separates the two: over six installments profit increases at nine
  // cents, and at neither eight nor ten.
  lemma NoThreshold(principal: int)
    ensures exists k: nat :: IncreasesAt(Schedule(principal, 9, 6), k)
    ensures forall k: nat :: !IncreasesAt(Schedule(principal, 8, 6), k) && !IncreasesAt(Schedule(principal, 10, 6), k)
  {
    hide *;
    EightCents(principal);
    NineCents(principal);
    TenCents(principal);
    SixIncrease(Schedule(principal, 8, 6));
    SixIncrease(Schedule(principal, 9, 6));
    SixIncrease(Schedule(principal, 10, 6));
  }

  // -------------------------------------------------------------------------
  // A priced offer is a sound contract
  // -------------------------------------------------------------------------

  function RowOf(l: Line, due: int): S.Installment {
    S.Installment(due, l.principal, l.profit, 0, 0, 0, 0, S.InstallmentStatus.Pending)
  }

  function RowsOf(lines: seq<Line>, due: seq<int>): (rows: seq<S.Installment>)
    requires |due| == |lines|
    ensures |rows| == |lines| && forall k :: 0 <= k < |lines| ==> rows[k] == RowOf(lines[k], due[k])
  {
    seq(|lines|, k requires 0 <= k < |lines| => RowOf(lines[k], due[k]))
  }

  // The contract a plan is signed as.
  function Contract(p: Plan, due: seq<int>): B.Book
    requires |due| == |p.schedule|
  {
    B.Book(B.Terms(p.salePrice, p.profit, p.downPayment), B.Created, None, RowsOf(p.schedule, due), [], p.profit, [], [], [], [], [], [])
  }

  // Any offer priced at a rate that is not negative starts out reconciled, so that everything
  // proved of a contract's books holds of it.
  lemma PricedIsSigned(cashPrice: int, downPayment: int, tenor: int, rate: real, due: seq<int>)
    requires Price(cashPrice, downPayment, tenor, rate).Priced? && rate >= 0.0 && |due| == tenor
    ensures T.Signed(Contract(Price(cashPrice, downPayment, tenor, rate).plan, due))
  {
    hide Schedule, RowsOf, Sums.Sum, M.Times;
    var p := Price(cashPrice, downPayment, tenor, rate).plan;
    M.TimesMonotone(p.principal, 0.0, rate);
    M.TimesShare(p.principal, 0.0);
    ScheduleExact(p.principal, p.profit, tenor);
    ComponentsNonNegative(p.principal, p.profit, tenor);
    var rows := RowsOf(p.schedule, due);
    SumSame(rows, S.PrincipalOf, p.schedule, PrincipalIn);
    SumSame(rows, S.ProfitOf, p.schedule, ProfitIn);
    assert R.ValidTerms(Contract(p, due));
  }
}
