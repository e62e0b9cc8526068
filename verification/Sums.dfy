// Sums over sequences, and what appending to or updating a sequence does to them.
module Sums {

  function Max(a: int, b: int): int { if a > b then a else b }

  function Min(a: int, b: int): int { if a < b then a else b }

  function Sum<T>(xs: seq<T>, f: T -> int): int {
    if xs == [] then 0 else f(xs[0]) + Sum(xs[1..], f)
  }

  lemma {:induction false} SumAppend<T>(xs: seq<T>, ys: seq<T>, f: T -> int)
    ensures Sum(xs + ys, f) == Sum(xs, f) + Sum(ys, f)
  {
    if xs == [] {
      assert xs + ys == ys;
    } else {
      assert (xs + ys)[1..] == xs[1..] + ys;
      SumAppend(xs[1..], ys, f);
    }
  }

  lemma SumSnoc<T>(xs: seq<T>, x: T, f: T -> int)
    ensures Sum(xs + [x], f) == Sum(xs, f) + f(x)
  {
    SumAppend(xs, [x], f);
    assert Sum([x], f) == f(x) + Sum<T>([], f);
  }

  lemma {:induction false} SumSet<T>(xs: seq<T>, i: nat, x: T, f: T -> int)
    requires i < |xs|
    ensures Sum(xs[i := x], f) == Sum(xs, f) - f(xs[i]) + f(x)
  {
    if i == 0 {
      assert xs[0 := x][1..] == xs[1..];
    } else {
      assert xs[i := x][1..] == xs[1..][i - 1 := x];
      SumSet(xs[1..], i - 1, x, f);
    }
  }

  // f on one sequence is, element by element, g on the other plus h on a third.
  lemma {:induction false} SumPointwise<S, T, U>(xs: seq<S>, f: S -> int, ys: seq<T>, g: T -> int, zs: seq<U>, h: U -> int)
    requires |xs| == |ys| == |zs|
    requires forall i :: 0 <= i < |xs| ==> f(xs[i]) == g(ys[i]) + h(zs[i])
    ensures Sum(xs, f) == Sum(ys, g) + Sum(zs, h)
  {
    if xs != [] {
      assert f(xs[0]) == g(ys[0]) + h(zs[0]);
      SumPointwise(xs[1..], f, ys[1..], g, zs[1..], h);
    }
  }

  lemma {:induction false} SumSame<S, T>(xs: seq<S>, f: S -> int, ys: seq<T>, g: T -> int)
    requires |xs| == |ys|
    requires forall i :: 0 <= i < |xs| ==> f(xs[i]) == g(ys[i])
    ensures Sum(xs, f) == Sum(ys, g)
  {
    if xs != [] {
      assert f(xs[0]) == g(ys[0]);
      SumSame(xs[1..], f, ys[1..], g);
    }
  }

  lemma {:induction false} SumNonNegative<T>(xs: seq<T>, f: T -> int)
    requires forall i :: 0 <= i < |xs| ==> f(xs[i]) >= 0
    ensures Sum(xs, f) >= 0
    ensures forall i :: 0 <= i < |xs| ==> f(xs[i]) <= Sum(xs, f)
  {
    if xs != [] {
      assert f(xs[0]) >= 0;
      SumNonNegative(xs[1..], f);
      forall i | 0 <= i < |xs| ensures f(xs[i]) <= Sum(xs, f) {
        if i > 0 { assert xs[1..][i - 1] == xs[i]; }
      }
    }
  }
}
