// An executed write-off (app/services/write_off.py): what it took off a contract's books, the
// provision it found there, and what it takes out of the allowance account.
module WriteOffs {
  import opened Sums

  datatype Execution = Execution(principal: int, profit: int, lateFee: int, provision: int) {
    function Total(): int { principal + profit + lateFee }
  }

  predicate NothingNegative(x: Execution) { x.principal >= 0 && x.profit >= 0 && x.lateFee >= 0 }

  // By the write-off's own rule: as much of the total as the provision covers.  A negative provision
  // makes the rule unresolvable, and nothing is posted.
  function CoveredAmount(x: Execution): int { Max(0, Min(x.provision, x.Total())) }

  // By the release emitted next to it: the whole provision, if there is one.
  function ReleasedAmount(x: Execution): int { Max(0, x.provision) }

  predicate Unprovided(xs: seq<Execution>) { forall n :: 0 <= n < |xs| ==> xs[n].provision <= 0 }

  // Nothing is taken out of the allowance exactly when no write-off found a provision.
  lemma {:induction false} NothingDrawn(xs: seq<Execution>)
    requires forall n :: 0 <= n < |xs| ==> NothingNegative(xs[n])
    ensures Sum(xs, CoveredAmount) >= 0 && Sum(xs, ReleasedAmount) >= 0
    ensures Sum(xs, CoveredAmount) + Sum(xs, ReleasedAmount) == 0 <==> Unprovided(xs)
  {
    if xs != [] {
      NothingDrawn(xs[1..]);
      assert Unprovided(xs) <==> xs[0].provision <= 0 && Unprovided(xs[1..]) by {
        assert forall n :: 1 <= n < |xs| ==> xs[n] == xs[1..][n - 1];
      }
    }
  }
}
