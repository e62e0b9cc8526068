// Money is an integer number of cents; rates are reals.  Every service of the
// platform quantizes with ROUND_HALF_UP, which this module makes explicit.
module Money {

  // Nearest integer, a tie going away from zero (decimal.ROUND_HALF_UP).
  function RoundHalfUp(x: real): (n: int)
    ensures -0.5 <= n as real - x <= 0.5
    ensures n as real - x == 0.5 ==> x >= 0.0
    ensures n as real - x == -0.5 ==> x < 0.0
  {
    if x >= 0.0 then (x + 0.5).Floor else -((-x + 0.5).Floor)
  }

  // An amount of cents times a rate, quantized to cents.
  function Times(amount: int, rate: real): int {
    RoundHalfUp(amount as real * rate)
  }

  // A cent amount nearest to an exact one that is not negative, half a cent going up; and nearest to a
  // part of another amount.
  predicate Nearest(cents: int, exact: real) { -0.5 < cents as real - exact <= 0.5 }

  predicate NearestShare(cents: int, amount: int, rate: real) { Nearest(cents, amount as real * rate) }

  lemma RoundedNearest(exact: real)
    requires exact >= 0.0
    ensures Nearest(RoundHalfUp(exact), exact)
  {
  }

  lemma TimesNearest(amount: int, rate: real)
    requires amount >= 0 && rate >= 0.0
    ensures NearestShare(Times(amount, rate), amount, rate)
  {
    ScaleMonotone(amount as real, 0.0, rate);
    RoundedNearest(amount as real * rate);
  }

  lemma OneNearest(c: int, d: int, amount: int, rate: real)
    requires NearestShare(d, amount, rate)
    ensures NearestShare(c, amount, rate) <==> c == d
  {
    SameNearest(c, d, amount as real * rate);
  }

  lemma SameNearest(c: int, d: int, exact: real)
    requires Nearest(d, exact)
    ensures Nearest(c, exact) <==> c == d
  {
  }

  lemma NearestPositive(cents: int, amount: int, rate: real)
    requires amount >= 0 && rate >= 0.0 && NearestShare(cents, amount, rate)
    ensures cents >= 0
  {
    ScaleMonotone(amount as real, 0.0, rate);
  }

  lemma RoundMonotone(x: real, y: real)
    requires x <= y
    ensures RoundHalfUp(x) <= RoundHalfUp(y)
  {
    if x < y {
      assert RoundHalfUp(x) as real - 0.5 <= x < y <= RoundHalfUp(y) as real + 0.5;
    }
  }

  lemma RoundCents(n: int)
    ensures RoundHalfUp(n as real) == n
  {
    assert -0.5 <= (RoundHalfUp(n as real) - n) as real <= 0.5;
  }

  lemma TimesMonotone(amount: nat, r: real, s: real)
    requires r <= s
    ensures Times(amount, r) <= Times(amount, s)
  {
    ScaleMonotone(amount as real, r, s);
    ProductsOrdered(amount, r, s, amount as real * r, amount as real * s);
  }

  lemma ProductsOrdered(amount: int, r: real, s: real, x: real, y: real)
    requires x == amount as real * r && y == amount as real * s && x <= y
    ensures Times(amount, r) <= Times(amount, s)
  {
    RoundMonotone(x, y);
  }

  // A share of an amount of cents is never negative and never exceeds the amount.
  lemma TimesShare(amount: nat, share: real)
    requires 0.0 <= share <= 1.0
    ensures 0 <= Times(amount, share) <= amount
    ensures Times(amount, 0.0) == 0 && Times(amount, 1.0) == amount
  {
    TimesMonotone(amount, 0.0, share);
    TimesMonotone(amount, share, 1.0);
    assert amount as real * 0.0 == 0 as real && amount as real * 1.0 == amount as real;
    RoundCents(0);
    RoundCents(amount);
  }

  // Rounding hides the order of two rates on some amounts, but never on all of them.
  lemma RateOrder(r: real, s: real)
    ensures (forall e: nat :: Times(e, r) <= Times(e, s)) <==> r <= s
  {
    if r <= s {
      forall e: nat ensures Times(e, r) <= Times(e, s) {
        TimesMonotone(e, r, s);
      }
    } else {
      var gap := r - s;
      var e := Separator(gap);
      var x, y := e as real * r, e as real * s;
      assert x - y == e as real * gap;
      assert !(Times(e, r) <= Times(e, s)) by { RoundSeparates(x, y); }
    }
  }

  lemma RoundSeparates(x: real, y: real)
    requires x - y > 1.0
    ensures RoundHalfUp(x) > RoundHalfUp(y)
  {
    assert RoundHalfUp(x) as real >= x - 0.5;
    assert y + 0.5 >= RoundHalfUp(y) as real;
  }

  // Two rates give the same cents on every amount only when they are the same rate.
  lemma RateEquality(r: real, s: real)
    ensures (forall e: nat :: Times(e, r) == Times(e, s)) <==> r == s
  {
    RateOrder(r, s);
    RateOrder(s, r);
  }

  lemma ScaleMonotone(k: real, r: real, s: real)
    requires k >= 0.0 && r <= s
    ensures k * r <= k * s
  {
    assert k * (s - r) >= 0.0;
  }

  // An amount on which a gap between two rates is worth more than one cent.
  lemma Separator(gap: real) returns (e: nat)
    requires gap > 0.0
    ensures e as real * gap > 1.0
  {
    var q := Reciprocal(gap);
    e := q.Floor + 1;
    Exceeds(gap, q, e as real, gap * q, e as real * gap);
  }

  lemma Exceeds(gap: real, q: real, k: real, p: real, r: real)
    requires gap > 0.0 && k > q
    requires p == gap * q && p == 1.0 && r == k * gap
    ensures r > 1.0
  {
    assert r - p == gap * (k - q);
    Positive(gap, k - q);
  }

  lemma Reciprocal(a: real) returns (q: real)
    requires a > 0.0
    ensures q > 0.0 && a * q == 1.0
  {
    q := 1.0 / a;
  }

  lemma Positive(a: real, b: real)
    requires a > 0.0 && b > 0.0
    ensures a * b > 0.0
  {
  }
}
