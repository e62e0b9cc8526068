// The dpd_banded methodology (app/services/ecl_engine.py): when more days past due never cost less.
module EclBands {
  import opened Options
  import opened Sums
  import opened EclModel
  import opened EclAssessment
  import M = Money

  // The position of the band that past-due days fall into.
  function PlaceOf(dpd: int, buckets: seq<Bucket>): (k: nat)
    requires buckets != []
    ensures k < |buckets|
  {
    if buckets[0].Holds(dpd) || |buckets| == 1 then 0 else 1 + PlaceOf(dpd, buckets[1..])
  }

  lemma {:induction false} LabelIsPlace(dpd: int, buckets: seq<Bucket>)
    requires dpd > 0 && buckets != []
    ensures LabelOf(dpd, buckets) == buckets[PlaceOf(dpd, buckets)].Label()
  {
    if !buckets[0].Holds(dpd) && |buckets| > 1 {
      LabelIsPlace(dpd, buckets[1..]);
    }
  }

  // Buckets that start by the first day and leave no gap: each but the last ends the day before the
  // next begins.
  predicate Contiguous(buckets: seq<Bucket>) {
    buckets != [] && buckets[0].least == 1 && forall k :: 0 <= k < |buckets| - 1 ==> Adjoins(buckets, k)
  }

  predicate Adjoins(buckets: seq<Bucket>, k: nat)
    requires k + 1 < |buckets|
  {
    buckets[k].most.Some? && buckets[k].least <= buckets[k].most.value && buckets[k + 1].least == buckets[k].most.value + 1
  }

  lemma {:induction false} LeastGrows(buckets: seq<Bucket>, j: nat, k: nat)
    requires Contiguous(buckets) && j <= k < |buckets|
    ensures buckets[k].least >= buckets[j].least + (k - j)
    decreases k
  {
    if j < k {
      assert Adjoins(buckets, k - 1);
      LeastGrows(buckets, j, k - 1);
    }
  }

  // In contiguous buckets the band is the last one that begins by the day.
  lemma {:induction false} PlaceFrom(dpd: int, buckets: seq<Bucket>, k: nat)
    requires k < |buckets| && buckets[0].least <= dpd
    requires forall j :: 0 <= j < |buckets| - 1 ==> Adjoins(buckets, j)
    ensures k <= PlaceOf(dpd, buckets) <==> buckets[k].least <= dpd
    decreases k
  {
    if k > 0 {
      var rest := buckets[1..];
      if buckets[0].Holds(dpd) {
        Beyond(dpd, buckets, k);
      } else {
        assert Adjoins(buckets, 0);
        forall j | 0 <= j < |rest| - 1 ensures Adjoins(rest, j) { assert Adjoins(buckets, j + 1); }
        PlaceFrom(dpd, rest, k - 1);
      }
    }
  }

  lemma {:induction false} Beyond(dpd: int, buckets: seq<Bucket>, k: nat)
    requires 0 < k < |buckets| && buckets[0].Holds(dpd)
    requires forall j :: 0 <= j < |buckets| - 1 ==> Adjoins(buckets, j)
    ensures dpd < buckets[k].least
    decreases k
  {
    assert Adjoins(buckets, k - 1);
    if k > 1 {
      Beyond(dpd, buckets, k - 1);
    }
  }

  lemma PlaceMonotone(buckets: seq<Bucket>, d: int, e: int)
    requires Contiguous(buckets) && 0 < d <= e
    ensures PlaceOf(d, buckets) <= PlaceOf(e, buckets)
  {
    PlaceFrom(d, buckets, PlaceOf(d, buckets));
    PlaceFrom(e, buckets, PlaceOf(d, buckets));
  }

  // A bucket's first day falls into it.
  lemma PlaceOfLeast(buckets: seq<Bucket>, k: nat)
    requires Contiguous(buckets) && k < |buckets|
    ensures buckets[k].least > 0 && PlaceOf(buckets[k].least, buckets) == k
  {
    LeastGrows(buckets, 0, k);
    PlaceFrom(buckets[k].least, buckets, k);
    if k + 1 < |buckets| {
      LeastGrows(buckets, k, k + 1);
      PlaceFrom(buckets[k].least, buckets, k + 1);
    }
  }

  // -------------------------------------------------------------------------
  // Percentages and losses
  // -------------------------------------------------------------------------

  // The calibration has a percentage for the current contracts and for every bucket.
  predicate Complete(pct: map<DpdLabel, real>, buckets: seq<Bucket>) {
    Current in pct && forall k :: 0 <= k < |buckets| ==> buckets[k].Label() in pct
  }

  // Slot 0 is for current contracts, slot k + 1 for bucket k.
  function SlotPct(pct: map<DpdLabel, real>, buckets: seq<Bucket>, slot: nat): real
    requires Complete(pct, buckets) && slot <= |buckets|
  {
    if slot == 0 then pct[Current] else pct[buckets[slot - 1].Label()]
  }

  function SlotOf(dpd: int, buckets: seq<Bucket>): (slot: nat)
    requires buckets != []
    ensures slot <= |buckets|
  {
    if dpd <= 0 then 0 else PlaceOf(dpd, buckets) + 1
  }

  lemma LabelInPct(dpd: int, pct: map<DpdLabel, real>, buckets: seq<Bucket>)
    requires buckets != [] && Complete(pct, buckets)
    ensures LabelOf(dpd, buckets) in pct && pct[LabelOf(dpd, buckets)] == SlotPct(pct, buckets, SlotOf(dpd, buckets))
  {
    if dpd > 0 {
      LabelIsPlace(dpd, buckets);
    }
  }

  function BandedLoss(ead: int, dpd: int, pct: map<DpdLabel, real>, buckets: seq<Bucket>): int
    requires buckets != [] && Complete(pct, buckets)
  {
    M.Times(ead, SlotPct(pct, buckets, SlotOf(dpd, buckets)))
  }

  predicate Rising(pct: map<DpdLabel, real>, buckets: seq<Bucket>)
    requires Complete(pct, buckets)
  {
    forall j: nat, k: nat :: j <= k <= |buckets| ==> SlotPct(pct, buckets, j) <= SlotPct(pct, buckets, k)
  }

  lemma SlotMonotone(buckets: seq<Bucket>, d: int, e: int)
    requires Contiguous(buckets) && d <= e
    ensures SlotOf(d, buckets) <= SlotOf(e, buckets)
  {
    if d > 0 { PlaceMonotone(buckets, d, e); }
  }

  // A day in the slot.
  function DayIn(buckets: seq<Bucket>, slot: nat): int
    requires slot <= |buckets|
  {
    if slot == 0 then 0 else buckets[slot - 1].least
  }

  lemma DayInSlot(buckets: seq<Bucket>, j: nat, k: nat)
    requires Contiguous(buckets) && j <= k <= |buckets|
    ensures SlotOf(DayIn(buckets, j), buckets) == j && DayIn(buckets, j) <= DayIn(buckets, k)
  {
    if j > 0 {
      PlaceOfLeast(buckets, j - 1);
      LeastGrows(buckets, j - 1, k - 1);
    } else if k > 0 {
      PlaceOfLeast(buckets, k - 1);
    }
  }

  // Over contiguous buckets, more days past due never lower the loss on any exposure exactly when the
  // percentages do not fall from one bucket to the next.
  lemma MoreDaysCostMore(pct: map<DpdLabel, real>, buckets: seq<Bucket>)
    requires Contiguous(buckets) && Complete(pct, buckets)
    ensures (forall ead: nat, d: int, e: int :: d <= e ==> BandedLoss(ead, d, pct, buckets) <= BandedLoss(ead, e, pct, buckets))
      <==> Rising(pct, buckets)
  {
    hide Complete, SlotPct, SlotOf, M.Times;
    if Rising(pct, buckets) {
      forall ead: nat, d: int, e: int | d <= e ensures BandedLoss(ead, d, pct, buckets) <= BandedLoss(ead, e, pct, buckets) {
        SlotMonotone(buckets, d, e);
        M.TimesMonotone(ead, SlotPct(pct, buckets, SlotOf(d, buckets)), SlotPct(pct, buckets, SlotOf(e, buckets)));
      }
    } else {
      var j: nat, k: nat :| j <= k <= |buckets| && !(SlotPct(pct, buckets, j) <= SlotPct(pct, buckets, k));
      DayInSlot(buckets, j, k);
      DayInSlot(buckets, k, k);
      M.RateOrder(SlotPct(pct, buckets, j), SlotPct(pct, buckets, k));
      var ead: nat :| !(M.Times(ead, SlotPct(pct, buckets, j)) <= M.Times(ead, SlotPct(pct, buckets, k)));
      assert !(BandedLoss(ead, DayIn(buckets, j), pct, buckets) <= BandedLoss(ead, DayIn(buckets, k), pct, buckets));
    }
  }

  // A banded assessment takes exactly this loss, whatever the history.
  lemma BandedAssessment(h: seq<Row>, v: Visit)
    requires v.calibration.methodology.DpdBanded? && v.buckets != [] && Complete(v.calibration.bandPct, v.buckets) && Assess(h, v).Ok?
    ensures Assess(h, v).value.auto.loss == BandedLoss(v.facts.ead, v.facts.dpd, v.calibration.bandPct, v.buckets)
    ensures Assess(h, v).value.auto.band == Some(LabelOf(v.facts.dpd, v.buckets))
  {
    hide RowOf, OriginOf, M.Times, Finalize;
    LabelInPct(v.facts.dpd, v.calibration.bandPct, v.buckets);
    AutomatedIs(h, v);
  }

  lemma AutomatedIs(h: seq<Row>, v: Visit)
    requires Assess(h, v).Ok?
    ensures Automate(h, v.contract, v.asOf, v.calibration, v.buckets, v.facts) == Ok(Assess(h, v).value.auto)
  {
    hide Automate, Finalize, OpeningOf, MovementOf;
  }

  // So under a rising calibration a contract with more days past due is not provided for less.
  lemma MoreDaysProvideMore(h: seq<Row>, v: Visit, dpd: int)
    requires v.calibration.methodology.DpdBanded? && Contiguous(v.buckets) && Complete(v.calibration.bandPct, v.buckets)
    requires Rising(v.calibration.bandPct, v.buckets) && v.facts.ead >= 0 && v.facts.dpd <= dpd && Assess(h, v).Ok?
    ensures var w := v.(facts := v.facts.(dpd := dpd));
      Assess(h, w).Ok? && Assess(h, v).value.auto.loss <= Assess(h, w).value.auto.loss
  {
    hide Complete, Rising, BandedLoss, RowOf, SlotPct, SlotOf;
    var w := v.(facts := v.facts.(dpd := dpd));
    StillConfigured(h, v, dpd);
    BandedAssessment(h, v);
    BandedAssessment(h, w);
    MoreDaysCostMore(v.calibration.bandPct, v.buckets);
  }

  lemma StillConfigured(h: seq<Row>, v: Visit, dpd: int)
    requires v.calibration.methodology.DpdBanded? && v.buckets != [] && Complete(v.calibration.bandPct, v.buckets) && Assess(h, v).Ok?
    ensures Assess(h, v.(facts := v.facts.(dpd := dpd))).Ok?
  {
    hide RowOf, OriginOf, M.Times, Complete;
    LabelInPct(dpd, v.calibration.bandPct, v.buckets);
  }

  // The shipped buckets and percentages are such a calibration.
  const SHIPPED_BUCKETS: seq<Bucket> := [Bucket(1, Some(30)), Bucket(31, Some(60)), Bucket(61, Some(90)), Bucket(91, None)]

  lemma ShippedRises()
    ensures Contiguous(SHIPPED_BUCKETS) && Complete(PLACEHOLDER.bandPct, SHIPPED_BUCKETS) && Rising(PLACEHOLDER.bandPct, SHIPPED_BUCKETS)
  {
    var pct := PLACEHOLDER.bandPct;
    assert Contiguous(SHIPPED_BUCKETS);
    assert Complete(pct, SHIPPED_BUCKETS);
    assert SlotPct(pct, SHIPPED_BUCKETS, 0) == 0.005 && SlotPct(pct, SHIPPED_BUCKETS, 1) == 0.03 && SlotPct(pct, SHIPPED_BUCKETS, 2) == 0.15;
    assert SlotPct(pct, SHIPPED_BUCKETS, 3) == 0.40 && SlotPct(pct, SHIPPED_BUCKETS, 4) == 0.75;
  }
}
