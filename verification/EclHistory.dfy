// Curing over whole histories: how the automated stage of a contract relates to its raw stages.
module EclHistory {
  import opened Options
  import opened Sums
  import opened EclModel
  import opened Overrides
  import opened EclAssessment

  // The stage the rules alone gave, read back from the triggers a row stores.
  function RawOf(r: Row): int {
    if exists k :: 0 <= k < |r.auto.triggers| && k < |r.snapshot.stage3Rules| && r.auto.triggers[k] then 3
    else if exists k :: 0 <= k < |r.auto.triggers| && r.auto.triggers[k] then 2
    else 1
  }

  lemma RawIsStored(h: seq<Row>, v: Visit)
    requires Assess(h, v).Ok? && v.calibration.methodology.ThreeStage?
    ensures var r := Assess(h, v).value; var c := v.calibration;
      && RawOf(r) == RawStage(ContextOf(h, v.contract, v.facts, r.auto.rating, OrElse(r.auto.pd12, 0.0)), c)
      && StageOf(r) == Cured(c.cure, Peak(h, v.contract, StageOf), RawOf(r), v.facts, v.asOf)
  {
    var r, c := Assess(h, v).value, v.calibration;
    var x := ContextOf(h, v.contract, v.facts, r.auto.rating, OrElse(r.auto.pd12, 0.0));
    var f3, f2 := Fired(c.stage3Rules, x), Fired(c.sicrRules, x);
    assert r.auto.triggers == f3 + f2;
    TriggersTell(f3, f2, c.stage3Rules, c.sicrRules, x);
  }

  lemma TriggersTell(f3: seq<bool>, f2: seq<bool>, stage3: seq<Rule>, sicr: seq<Rule>, x: Context)
    requires f3 == Fired(stage3, x) && f2 == Fired(sicr, x)
    ensures (exists k :: 0 <= k < |f3 + f2| && k < |stage3| && (f3 + f2)[k]) <==> AnyFires(stage3, x)
    ensures (exists k :: 0 <= k < |f3 + f2| && (f3 + f2)[k]) <==> AnyFires(stage3, x) || AnyFires(sicr, x)
  {
    if AnyFires(stage3, x) {
      var k :| 0 <= k < |stage3| && Fires(stage3[k], x);
      assert (f3 + f2)[k];
    }
    if AnyFires(sicr, x) {
      var k :| 0 <= k < |sicr| && Fires(sicr[k], x);
      assert (f3 + f2)[|f3| + k];
    }
  }

  // -------------------------------------------------------------------------
  // What every grown history satisfies
  // -------------------------------------------------------------------------

  // The stage of a row, given what came before it: the raw stage, or the peak being held.
  predicate WellCured(r: Row, before: Option<Summit>) {
    && (before.None? || RawOf(r) >= before.value.stage ==> StageOf(r) == RawOf(r))
    && (before.Some? ==> StageOf(r) == RawOf(r) || StageOf(r) == before.value.stage)
  }

  predicate AllCured(h: seq<Row>) {
    forall k :: 0 <= k < |h| && h[k].auto.stage.Some? ==> WellCured(h[k], Peak(h[..k], h[k].contract, StageOf))
  }

  lemma AssessCured(h: seq<Row>, v: Visit)
    requires Assess(h, v).Ok? && Assess(h, v).value.auto.stage.Some?
    ensures WellCured(Assess(h, v).value, Peak(h, v.contract, StageOf))
  {
    assert v.calibration.methodology.ThreeStage?;
    hide Peak, RawOf, Finalize, PdsOf, LgdsOf;
    RawIsStored(h, v);
  }

  lemma AppendCured(h: seq<Row>, r: Row)
    requires AllCured(h) && (r.auto.stage.Some? ==> WellCured(r, Peak(h, r.contract, StageOf)))
    ensures AllCured(h + [r])
  {
    var g := h + [r];
    forall k | 0 <= k < |g| && g[k].auto.stage.Some? ensures WellCured(g[k], Peak(g[..k], g[k].contract, StageOf)) {
      if k < |h| {
        assert g[..k] == h[..k] && g[k] == h[k];
      } else {
        assert g[..k] == h;
      }
    }
  }

  lemma {:induction false} GrowCured(h: seq<Row>, visits: seq<Visit>)
    requires AllCured(h)
    ensures AllCured(Grow(h, visits))
    decreases |visits|
  {
    if visits != [] {
      var r := Assess(h, visits[0]);
      if r.Ok? {
        if r.value.auto.stage.Some? { AssessCured(h, visits[0]); }
        AppendCured(h, r.value);
        GrowCured(h + [r.value], visits[1..]);
      } else {
        GrowCured(h, visits[1..]);
      }
    }
  }

  // As-of dates of a contract never go back in creation order.
  predicate Chronological(h: seq<Row>, contract: nat) {
    forall j, k :: 0 <= j < k < |h| ==> h[j].contract == contract == h[k].contract ==> h[j].asOf <= h[k].asOf
  }

  // -------------------------------------------------------------------------
  // The peak is the peak of the raw stages
  // -------------------------------------------------------------------------

  lemma {:induction false} PeakSeen(h: seq<Row>, contract: nat, f: Row -> int)
    ensures var p := Peak(h, contract, f);
      && (p.Some? ==> exists k :: 0 <= k < |h| && h[k].contract == contract && h[k].asOf == p.value.since)
      && (forall k :: 0 <= k < |h| && h[k].contract == contract && h[k].auto.stage.Some? ==> p.Some? && f(h[k]) <= p.value.stage)
  {
    if h != [] {
      var init := h[..|h| - 1];
      PeakSeen(init, contract, f);
      if Peak(init, contract, f).Some? {
        var k :| 0 <= k < |init| && init[k].contract == contract && init[k].asOf == Peak(init, contract, f).value.since;
        assert h[k] == init[k];
      }
      assert forall k :: 0 <= k < |init| ==> init[k] == h[k];
    }
  }

  lemma CuredPrefix(h: seq<Row>)
    requires AllCured(h) && h != []
    ensures AllCured(h[..|h| - 1])
    ensures h[|h| - 1].auto.stage.Some? ==> WellCured(h[|h| - 1], Peak(h[..|h| - 1], h[|h| - 1].contract, StageOf))
  {
    var init := h[..|h| - 1];
    forall k | 0 <= k < |init| && init[k].auto.stage.Some? ensures WellCured(init[k], Peak(init[..k], init[k].contract, StageOf)) {
      assert init[..k] == h[..k] && init[k] == h[k];
    }
  }

  // The peak stage seen through held rows is the peak of the raw stages; so is the day it was
  // first seen, once dates are chronological.
  lemma {:induction false} PeakOfRawStages(h: seq<Row>, contract: nat)
    requires AllCured(h)
    ensures var a, r := Peak(h, contract, StageOf), Peak(h, contract, RawOf);
      && (a.Some? <==> r.Some?)
      && (a.Some? ==> a.value.stage == r.value.stage)
      && (Chronological(h, contract) ==> a == r)
  {
    if h != [] {
      var init, last := h[..|h| - 1], h[|h| - 1];
      CuredPrefix(h);
      PeakOfRawStages(init, contract);
      PeakSeen(init, contract, StageOf);
      if Chronological(h, contract) {
        assert Chronological(init, contract);
        if Peak(init, contract, StageOf).Some? && last.contract == contract {
          var k :| 0 <= k < |init| && init[k].contract == contract && init[k].asOf == Peak(init, contract, StageOf).value.since;
          assert h[k] == init[k];
        }
      }
    }
  }

  // A row drops below the peak seen so far, or shows the running maximum of the raw stages.
  lemma RunningMaximum(h: seq<Row>, k: nat)
    requires AllCured(h) && k < |h| && h[k].auto.stage.Some?
    ensures var before, upTo := Peak(h[..k], h[k].contract, StageOf), Peak(h[..k + 1], h[k].contract, RawOf);
      upTo.Some? && (StageOf(h[k]) == upTo.value.stage <==> !(before.Some? && StageOf(h[k]) < before.value.stage))
  {
    var g := h[..k + 1];
    assert AllCured(g) by {
      forall j | 0 <= j < |g| && g[j].auto.stage.Some? ensures WellCured(g[j], Peak(g[..j], g[j].contract, StageOf)) {
        assert g[..j] == h[..j] && g[j] == h[j];
      }
    }
    PeakOfRawStages(g, h[k].contract);
    assert g[..|g| - 1] == h[..k] && g[|g| - 1] == h[k];
    assert WellCured(h[k], Peak(h[..k], h[k].contract, StageOf));
  }

  // A staged visit lands below the peak exactly when its raw stage is below and curing is off or
  // its rule is met on days past due, payments and days observed.
  lemma BelowPeak(h: seq<Row>, v: Visit)
    requires Assess(h, v).Ok? && v.calibration.methodology.ThreeStage? && Peak(h, v.contract, StageOf).Some?
    ensures var r := Assess(h, v).value; var peak := Peak(h, v.contract, StageOf).value;
      StageOf(r) < peak.stage <==>
        RawOf(r) < peak.stage && (!v.calibration.cure.enabled || CureMet(v.calibration.cure, peak, v.facts, v.asOf))
  {
    hide Peak, RawOf, CureMet, Finalize, PdsOf, LgdsOf, ContextOf;
    RawIsStored(h, v);
  }

  // -------------------------------------------------------------------------
  // Assessing twice
  // -------------------------------------------------------------------------

  // No row of the contract is dated after `day`.
  predicate UpTo(h: seq<Row>, contract: nat, day: int) {
    forall k :: 0 <= k < |h| && h[k].contract == contract ==> h[k].asOf <= day
  }

  // Row k is the contract's first by date, and the first created on that date.
  predicate ComesFirst(h: seq<Row>, contract: nat, k: nat)
    requires k < |h|
  {
    h[k].contract == contract
    && forall j :: 0 <= j < |h| && h[j].contract == contract ==> h[k].asOf < h[j].asOf || (h[k].asOf == h[j].asOf && k <= j)
  }

  lemma {:induction false} EarliestFound(h: seq<Row>, contract: nat)
    ensures Earliest(h, contract).Some? ==> exists k :: 0 <= k < |h| && h[k] == Earliest(h, contract).value && ComesFirst(h, contract, k)
    ensures Earliest(h, contract).None? ==> forall k :: 0 <= k < |h| ==> h[k].contract != contract
  {
    if h != [] {
      var init, last := h[..|h| - 1], |h| - 1;
      EarliestFound(init, contract);
      assert forall j :: 0 <= j < |init| ==> init[j] == h[j];
      if Earliest(init, contract).Some? {
        var k :| 0 <= k < |init| && init[k] == Earliest(init, contract).value && ComesFirst(init, contract, k);
        assert h[last].contract == contract && h[last].asOf < h[k].asOf ==> ComesFirst(h, contract, last);
        assert !(h[last].contract == contract && h[last].asOf < h[k].asOf) ==> ComesFirst(h, contract, k);
      } else if h[last].contract == contract {
        assert ComesFirst(h, contract, last);
      }
    }
  }

  predicate Eligible(r: Row, contract: nat, before: int, exclude: Option<nat>) {
    r.contract == contract && r.asOf <= before && (exclude.None? || r.run != exclude)
  }

  // Row k is the last by date among the eligible ones, and the last created on that date.
  predicate ComesLast(h: seq<Row>, contract: nat, before: int, exclude: Option<nat>, k: nat)
    requires k < |h|
  {
    Eligible(h[k], contract, before, exclude)
    && forall j :: 0 <= j < |h| && Eligible(h[j], contract, before, exclude) ==> h[j].asOf < h[k].asOf || (h[j].asOf == h[k].asOf && j <= k)
  }

  // The last row of a longer history comes last, or the row that came last before still does.
  lemma LastStep(init: seq<Row>, last: Row, contract: nat, before: int, exclude: Option<nat>, k: nat)
    requires k < |init| && ComesLast(init, contract, before, exclude, k)
    ensures var h := init + [last];
      if Eligible(last, contract, before, exclude) && last.asOf >= init[k].asOf
      then ComesLast(h, contract, before, exclude, |init|) else ComesLast(h, contract, before, exclude, k)
  {
    hide Eligible;
    var h := init + [last];
    assert h[|init|] == last && forall j :: 0 <= j < |init| ==> h[j] == init[j];
  }

  lemma OnlyOne(init: seq<Row>, last: Row, contract: nat, before: int, exclude: Option<nat>)
    requires Eligible(last, contract, before, exclude) && NoneEligible(init, contract, before, exclude)
    ensures ComesLast(init + [last], contract, before, exclude, |init|)
  {
    var h := init + [last];
    assert h[|init|] == last && forall j :: 0 <= j < |init| ==> h[j] == init[j];
  }

  predicate NoneEligible(h: seq<Row>, contract: nat, before: int, exclude: Option<nat>) {
    forall k :: 0 <= k < |h| ==> !Eligible(h[k], contract, before, exclude)
  }

  lemma StillNone(init: seq<Row>, last: Row, contract: nat, before: int, exclude: Option<nat>)
    requires NoneEligible(init, contract, before, exclude) && !Eligible(last, contract, before, exclude)
    ensures NoneEligible(init + [last], contract, before, exclude)
  {
  }

  predicate LastAmong(h: seq<Row>, contract: nat, before: int, exclude: Option<nat>, best: Row) {
    exists k :: 0 <= k < |h| && h[k] == best && ComesLast(h, contract, before, exclude, k)
  }

  lemma LastAmongNext(init: seq<Row>, last: Row, contract: nat, before: int, exclude: Option<nat>, best: Row)
    requires LastAmong(init, contract, before, exclude, best)
    ensures LastAmong(init + [last], contract, before, exclude,
      if Eligible(last, contract, before, exclude) && last.asOf >= best.asOf then last else best)
  {
    hide ComesLast, Eligible;
    var k :| 0 <= k < |init| && init[k] == best && ComesLast(init, contract, before, exclude, k);
    LastStep(init, last, contract, before, exclude, k);
    assert (init + [last])[k] == best && (init + [last])[|init|] == last;
  }

  lemma {:induction false} PriorFound(h: seq<Row>, contract: nat, before: int, exclude: Option<nat>)
    ensures match Prior(h, contract, before, exclude)
      case Some(best) => LastAmong(h, contract, before, exclude, best)
      case None => NoneEligible(h, contract, before, exclude)
  {
    if h != [] {
      hide LastAmong, NoneEligible, ComesLast;
      var init, last := h[..|h| - 1], h[|h| - 1];
      PriorFound(init, contract, before, exclude);
      assert h == init + [last];
      var best := Prior(init, contract, before, exclude);
      if best.Some? {
        LastAmongNext(init, last, contract, before, exclude, best.value);
      } else if Eligible(last, contract, before, exclude) {
        OnlyOne(init, last, contract, before, exclude);
        LastAmongNew(init, last, contract, before, exclude);
      } else {
        StillNone(init, last, contract, before, exclude);
      }
    }
  }

  lemma LastAmongNew(init: seq<Row>, last: Row, contract: nat, before: int, exclude: Option<nat>)
    requires ComesLast(init + [last], contract, before, exclude, |init|)
    ensures LastAmong(init + [last], contract, before, exclude, last)
  {
    assert (init + [last])[|init|] == last;
  }

  // The row is the contract's first by date, and the origination rating the earlier first row lacked.
  predicate OriginMoves(h: seq<Row>, v: Visit) {
    var rating, first := RatingOf(v.facts.score, v.calibration), Earliest(h, v.contract);
    first.Some? && v.asOf < first.value.asOf && rating != "" && OriginOf(h, v.contract, rating, 0.0).rating == ""
  }

  // The stage being held was first seen on a later day, and the cure rule, not met when counted from
  // there, is met when counted from the day of the row itself.
  predicate CureMoves(h: seq<Row>, v: Visit, raw: int) {
    var cure, peak := v.calibration.cure, Peak(h, v.contract, StageOf);
    && cure.enabled && peak.Some? && raw < peak.value.stage && v.asOf < peak.value.since
    && !CureMet(cure, peak.value, v.facts, v.asOf) && CureMet(cure, Summit(peak.value.stage, v.asOf), v.facts, v.asOf)
  }

  lemma OriginAgain(h: seq<Row>, v: Visit)
    requires Assess(h, v).Ok?
    ensures var a := Assess(h, v).value.auto; var pd := PdsOf(a.segment, v.calibration);
      && pd.Ok? && a.rating == RatingOf(v.facts.score, v.calibration)
      && Origin(a.originRating, a.originPd) == OriginOf(h, v.contract, a.rating, pd.value.pd12)
      && var again := OriginOf(h + [Assess(h, v).value], v.contract, a.rating, pd.value.pd12);
        again == OriginOf(h, v.contract, a.rating, pd.value.pd12) <==> !OriginMoves(h, v)
  {
    hide RatingOf, SegmentOf, PdsOf, LgdsOf, RawStage, Cured, Fired, ThreeStageLoss, Finalize, OpeningOf, MovementOf, LabelOf, GoverningIn, ValueIn;
    var r := Assess(h, v).value;
    assert (h + [r])[..|h|] == h;
  }

  lemma StageAgain(h: seq<Row>, v: Visit, raw: int, r: Row)
    requires r.contract == v.contract && r.asOf == v.asOf && r.auto.stage.Some?
    requires StageOf(r) == Cured(v.calibration.cure, Peak(h, v.contract, StageOf), raw, v.facts, v.asOf)
    ensures Cured(v.calibration.cure, Peak(h + [r], v.contract, StageOf), raw, v.facts, v.asOf) == StageOf(r) <==> !CureMoves(h, v, raw)
  {
    assert (h + [r])[..|h|] == h;
  }

  // Assessing again on the same day with the same inputs changes nothing in the automated result,
  // exactly when the first assessment has not moved the contract's origin nor the day its cure is
  // counted from.
  lemma AssessTwice(h: seq<Row>, v: Visit, w: Visit)
    requires Assess(h, v).Ok? && w == v.(run := w.run, overrides := w.overrides)
    ensures var again := Assess(h + [Assess(h, v).value], w);
      && again.Ok?
      && (again.value.auto == Assess(h, v).value.auto <==>
            !OriginMoves(h, v) && (v.calibration.methodology.ThreeStage? ==> !CureMoves(h, v, RawOf(Assess(h, v).value))))
  {
    hide Peak, CureMoves, OriginMoves, RawOf;
    var r := Assess(h, v).value;
    OriginAgain(h, v);
    if v.calibration.methodology.ThreeStage? {
      RawIsStored(h, v);
      StageAgain(h, v, RawOf(r), r);
    }
  }

  // So in particular when no row of the contract is dated later.
  lemma AssessLatestTwice(h: seq<Row>, v: Visit, w: Visit)
    requires Assess(h, v).Ok? && UpTo(h, v.contract, v.asOf)
    requires w == v.(run := w.run, overrides := w.overrides)
    ensures Assess(h + [Assess(h, v).value], w).Ok?
    ensures Assess(h + [Assess(h, v).value], w).value.auto == Assess(h, v).value.auto
  {
    hide Assess, RawOf;
    AssessTwice(h, v, w);
    EarliestFound(h, v.contract);
    PeakSeen(h, v.contract, StageOf);
  }

  // And whatever the dates, when every grade has a name and both cure rules ask for at least a day, as
  // the shipped ones do.
  lemma {:induction false} AssessNamedTwice(before: seq<Visit>, v: Visit, w: Visit)
    requires var h := Grow([], before);
      Assess(h, v).Ok? && w == v.(run := w.run, overrides := w.overrides)
    requires forall k :: 0 <= k < |before| ==> RatingOf(before[k].facts.score, before[k].calibration) != ""
    requires v.calibration.cure.threeToTwo.minDays > 0 && v.calibration.cure.twoToOne.minDays > 0
    ensures var h := Grow([], before); var again := Assess(h + [Assess(h, v).value], w);
      again.Ok? && again.value.auto == Assess(h, v).value.auto
    ensures PLACEHOLDER.cure.threeToTwo.minDays > 0 && PLACEHOLDER.cure.twoToOne.minDays > 0
  {
    hide Assess, RawOf, Grow, Peak, RatingOf, OriginOf, Earliest;
    var h := Grow([], before);
    AssessTwice(h, v, w);
    NoneNamed();
    GrowNamed([], before);
    NamedOrigin(h, v);
  }

  predicate Named(h: seq<Row>) { forall k :: 0 <= k < |h| ==> h[k].auto.rating != "" && h[k].auto.originRating != "" }

  lemma NoneNamed()
    ensures Named([])
  {
  }

  lemma NamedOrigin(h: seq<Row>, v: Visit)
    requires Named(h)
    ensures !OriginMoves(h, v)
  {
    EarliestFound(h, v.contract);
  }

  lemma AssessNamed(h: seq<Row>, v: Visit)
    requires Named(h) && Assess(h, v).Ok? && RatingOf(v.facts.score, v.calibration) != ""
    ensures Named(h + [Assess(h, v).value])
  {
    hide Assess, RatingOf, Earliest, PdsOf;
    OriginAgain(h, v);
    EarliestFound(h, v.contract);
  }

  lemma {:induction false} GrowNamed(h: seq<Row>, visits: seq<Visit>)
    requires Named(h) && forall k :: 0 <= k < |visits| ==> RatingOf(visits[k].facts.score, visits[k].calibration) != ""
    ensures Named(Grow(h, visits))
    decreases |visits|
  {
    hide Assess, Named, RatingOf;
    if visits != [] {
      if Assess(h, visits[0]).Ok? {
        AssessNamed(h, visits[0]);
        GrowNamed(h + [Assess(h, visits[0]).value], visits[1..]);
      } else {
        GrowNamed(h, visits[1..]);
      }
    }
  }

  // -------------------------------------------------------------------------
  // Worse facts, worse result
  // -------------------------------------------------------------------------

  predicate WorseFacts(f: Facts, g: Facts) {
    && f.dpd <= g.dpd && (forall s: FlagSource :: f.signals.Has(s) ==> g.signals.Has(s))
    && g == f.(dpd := g.dpd, signals := g.signals)
  }

  lemma CuredMonotone(rules: CureRules, peak: Option<Summit>, raw: int, f: Facts, worse: int, g: Facts, asOf: int)
    requires raw <= worse && WorseFacts(f, g)
    ensures Cured(rules, peak, raw, f, asOf) <= Cured(rules, peak, worse, g, asOf)
  {
  }

  // On a fixed history, more days past due or more flags never lower the cured stage, nor, when
  // the segment's calibration is ordered, the loss in cents.
  lemma WorseFactsCostMore(h: seq<Row>, v: Visit, g: Facts)
    requires v.calibration.methodology.ThreeStage? && WorseFacts(v.facts, g) && v.facts.ead >= 0 && Assess(h, v).Ok?
    requires StagesOk(h)
    ensures Assess(h, v.(facts := g)).Ok?
    ensures StageOf(Assess(h, v).value) <= StageOf(Assess(h, v.(facts := g)).value)
    ensures var segment := Assess(h, v).value.auto.segment;
      var p, l := PdsOf(segment, v.calibration), LgdsOf(segment, v.calibration);
      p.Ok? && l.Ok? && (Ordered(p.value, l.value) ==> Assess(h, v).value.auto.loss <= Assess(h, v.(facts := g)).value.auto.loss)
  {
    var w := v.(facts := g);
    var a, b := Assess(h, v).value.auto, Assess(h, w).value.auto;
    var p, l := PdsOf(a.segment, v.calibration).value, LgdsOf(a.segment, v.calibration).value;
    var x, y := ContextOf(h, v.contract, v.facts, a.rating, p.pd12), ContextOf(h, v.contract, g, a.rating, p.pd12);
    RawStageMonotone(x, y, v.calibration);
    CuredMonotone(v.calibration.cure, Peak(h, v.contract, StageOf), RawStage(x, v.calibration), v.facts,
                  RawStage(y, v.calibration), g, v.asOf);
    StagesInRange(h, v);
    StagesInRange(h, w);
    assert a.loss == StageLoss(a.ead, p, l, a.stage.value) && b.loss == StageLoss(a.ead, p, l, b.stage.value);
    WorseStageCostsMore(p, l);
  }

  // -------------------------------------------------------------------------
  // What curing does not do
  // -------------------------------------------------------------------------

  lemma {:induction false} GrowStages(h: seq<Row>, visits: seq<Visit>)
    requires StagesOk(h)
    ensures StagesOk(Grow(h, visits))
    decreases |visits|
  {
    hide Assess;
    if visits != [] {
      StagesInRange(h, visits[0]);
      if Assess(h, visits[0]).Ok? {
        GrowStages(h + [Assess(h, visits[0]).value], visits[1..]);
      } else {
        GrowStages(h, visits[1..]);
      }
    }
  }

  predicate InStage(r: Row, contract: nat, stage: int) { r.contract == contract && r.auto.stage == Some(stage) }

  predicate WasInStage(h: seq<Row>, contract: nat, stage: int) {
    exists k :: 0 <= k < |h| && InStage(h[k], contract, stage)
  }

  // The first day the contract was in a stage.
  predicate FirstIn(h: seq<Row>, contract: nat, stage: int, day: int) {
    && (exists k :: 0 <= k < |h| && InStage(h[k], contract, stage) && h[k].asOf == day)
    && (forall k :: 0 <= k < |h| && InStage(h[k], contract, stage) ==> h[k].asOf >= day)
  }

  lemma FirstInLonger(init: seq<Row>, last: Row, contract: nat, stage: int, day: int)
    requires FirstIn(init, contract, stage, day)
    ensures FirstIn(init + [last], contract, stage, if InStage(last, contract, stage) then Min(day, last.asOf) else day)
  {
    var h := init + [last];
    var k :| 0 <= k < |init| && InStage(init[k], contract, stage) && init[k].asOf == day;
    assert h[k] == init[k] && h[|init|] == last;
    assert forall j :: 0 <= j < |init| ==> h[j] == init[j];
  }

  lemma FirstInNew(init: seq<Row>, last: Row, contract: nat, stage: int)
    requires InStage(last, contract, stage) && !WasInStage(init, contract, stage)
    ensures FirstIn(init + [last], contract, stage, last.asOf)
  {
    var h := init + [last];
    assert h[|init|] == last && forall j :: 0 <= j < |init| ==> h[j] == init[j];
  }

  // The peak is attained, and dated on its first day.
  lemma {:induction false} PeakFirst(h: seq<Row>, contract: nat)
    ensures var p := Peak(h, contract, StageOf); p.Some? ==> FirstIn(h, contract, p.value.stage, p.value.since)
  {
    if h != [] {
      hide FirstIn;
      var init, last := h[..|h| - 1], h[|h| - 1];
      PeakFirst(init, contract);
      PeakSeen(init, contract, StageOf);
      assert h == init + [last];
      var best := Peak(init, contract, StageOf);
      if best.Some? { FirstInLonger(init, last, contract, best.value.stage, best.value.since); }
      if last.contract == contract && last.auto.stage.Some? && (best.None? || StageOf(last) > best.value.stage) {
        FirstInNew(init, last, contract, StageOf(last));
      }
    }
  }

  // Once in stage 3, the peak is stage 3 for ever.
  lemma PeakThree(h: seq<Row>, contract: nat)
    requires StagesOk(h) && WasInStage(h, contract, 3)
    ensures var p := Peak(h, contract, StageOf); p.Some? && p.value.stage == 3 && FirstIn(h, contract, 3, p.value.since)
  {
    hide Peak;
    PeakSeen(h, contract, StageOf);
    PeakInRange(h, contract);
    PeakFirst(h, contract);
  }

  // What a cure takes, counted from the day stage 3 was first seen.
  predicate ThreeToTwoMet(rule: CureRule, since: int, f: Facts, asOf: int) {
    f.dpd <= rule.maxDpd && PaymentsSince(f.paidOn, since) >= rule.minPayments && asOf - since >= rule.minDays
  }

  // A cure does not stick.  Whatever visits came before, and however often the contract was cured in
  // between: once one of them put it in stage 3, a staged visit puts it there exactly when its raw
  // stage is 3, or curing is on and the 3-to-2 rule is not met on that very day.
  lemma CureDoesNotStick(before: seq<Visit>, v: Visit)
    requires var h := Grow([], before);
      Assess(h, v).Ok? && v.calibration.methodology.ThreeStage? && WasInStage(h, v.contract, 3)
    ensures var h, r, cure := Grow([], before), Assess(Grow([], before), v).value, v.calibration.cure;
      exists since :: FirstIn(h, v.contract, 3, since)
        && (StageOf(r) == 3 <==> RawOf(r) == 3 || (cure.enabled && !ThreeToTwoMet(cure.threeToTwo, since, v.facts, v.asOf)))
  {
    hide Assess, RawOf, Peak, FirstIn, WasInStage, PaymentsSince;
    var h := Grow([], before);
    GrowStages([], before);
    PeakThree(h, v.contract);
    RawIsStored(h, v);
    RawInRange(Assess(h, v).value);
    var since := Peak(h, v.contract, StageOf).value.since;
    assert FirstIn(h, v.contract, 3, since);
  }

  lemma RawInRange(r: Row)
    ensures 1 <= RawOf(r) <= 3
  {
  }

  // So one day past due more than the rule allows undoes it; under the shipped rules, the first.
  lemma Relapse(before: seq<Visit>, v: Visit)
    requires var h := Grow([], before);
      Assess(h, v).Ok? && v.calibration.methodology.ThreeStage? && WasInStage(h, v.contract, 3)
    requires v.calibration.cure.enabled && v.facts.dpd > v.calibration.cure.threeToTwo.maxDpd
    ensures StageOf(Assess(Grow([], before), v).value) == 3
    ensures PLACEHOLDER.cure.enabled && PLACEHOLDER.cure.threeToTwo.maxDpd == 0
  {
    hide Assess, RawOf, Grow, FirstIn, WasInStage;
    CureDoesNotStick(before, v);
  }

  // The same row under another calibration.
  predicate SameRow(r: Row, s: Row) { s == r.(snapshot := s.snapshot) }

  predicate SameRows(h: seq<Row>, g: seq<Row>) {
    |h| == |g| && forall k :: 0 <= k < |h| ==> SameRow(h[k], g[k])
  }

  predicate SameFound(a: Option<Row>, b: Option<Row>) {
    (a.Some? <==> b.Some?) && (a.Some? ==> SameRow(a.value, b.value))
  }

  lemma {:induction false} SameReads(h: seq<Row>, g: seq<Row>, contract: nat, day: int, exclude: Option<nat>)
    requires SameRows(h, g)
    ensures SameFound(Earliest(h, contract), Earliest(g, contract))
    ensures SameFound(Prior(h, contract, day, exclude), Prior(g, contract, day, exclude))
    ensures Peak(h, contract, StageOf) == Peak(g, contract, StageOf)
  {
    if h != [] {
      assert SameRow(h[|h| - 1], g[|g| - 1]);
      SameReads(h[..|h| - 1], g[..|g| - 1], contract, day, exclude);
    }
  }

  function WithTwoToOne(c: Calibration, rule: CureRule): Calibration { c.(cure := c.cure.(twoToOne := rule)) }

  // Two visits that may differ in the 2-to-1 cure rule, and in nothing else.
  predicate SameBarTwoToOne(v: Visit, w: Visit) {
    w == v.(calibration := WithTwoToOne(v.calibration, w.calibration.cure.twoToOne))
  }

  lemma SameRead(v: Visit, rule: CureRule)
    ensures var c, d := v.calibration, WithTwoToOne(v.calibration, rule); var segment := SegmentOf(RatingOf(v.facts.score, c), c);
      && RatingOf(v.facts.score, d) == RatingOf(v.facts.score, c) && SegmentOf(RatingOf(v.facts.score, d), d) == segment
      && PdsOf(segment, d) == PdsOf(segment, c) && LgdsOf(segment, d) == LgdsOf(segment, c)
    ensures GoverningIn(v.(calibration := WithTwoToOne(v.calibration, rule))) == GoverningIn(v)
    ensures ValueIn(v.(calibration := WithTwoToOne(v.calibration, rule))) == ValueIn(v)
  {
  }

  lemma SameCured(rules: CureRules, rule: CureRule, peak: Option<Summit>, raw: int, f: Facts, asOf: int)
    requires peak.Some? && peak.value.stage == 3
    ensures Cured(rules.(twoToOne := rule), peak, raw, f, asOf) == Cured(rules, peak, raw, f, asOf)
  {
  }

  lemma SameAutomate(h: seq<Row>, g: seq<Row>, v: Visit, w: Visit)
    requires SameRows(h, g) && SameBarTwoToOne(v, w) && Peak(h, v.contract, StageOf).Some? && Peak(h, v.contract, StageOf).value.stage == 3
    ensures Automate(g, w.contract, w.asOf, w.calibration, w.buckets, w.facts) ==
      Automate(h, v.contract, v.asOf, v.calibration, v.buckets, v.facts)
  {
    hide Cured, Peak, Earliest, Fires, ThreeStageLoss, RatingOf, SegmentOf, PdsOf, LgdsOf, LabelOf;
    var c, rule := v.calibration, w.calibration.cure.twoToOne;
    SameReads(h, g, v.contract, v.asOf, v.run);
    SameRead(v, rule);
    forall raw: int ensures Cured(w.calibration.cure, Peak(h, v.contract, StageOf), raw, v.facts, v.asOf)
      == Cured(c.cure, Peak(h, v.contract, StageOf), raw, v.facts, v.asOf)
    {
      SameCured(c.cure, rule, Peak(h, v.contract, StageOf), raw, v.facts, v.asOf);
    }
  }

  lemma SameAssess(h: seq<Row>, g: seq<Row>, v: Visit, w: Visit)
    requires SameRows(h, g) && SameBarTwoToOne(v, w) && Peak(h, v.contract, StageOf).Some? && Peak(h, v.contract, StageOf).value.stage == 3
    ensures Assess(h, v).Ok? <==> Assess(g, w).Ok?
    ensures Assess(h, v).Ok? ==> SameRow(Assess(h, v).value, Assess(g, w).value)
  {
    hide Automate, Peak, Prior, Finalize, MovementOf, RatingOf, SegmentOf, PdsOf, LgdsOf, GoverningIn, ValueIn;
    SameAutomate(h, g, v, w);
    SameReads(h, g, v.contract, v.asOf, v.run);
    SameRead(v, w.calibration.cure.twoToOne);
  }

  lemma StillInStage(h: seq<Row>, r: Row, contract: nat)
    requires WasInStage(h, contract, 3)
    ensures WasInStage(h + [r], contract, 3)
  {
    var k :| 0 <= k < |h| && InStage(h[k], contract, 3);
    assert (h + [r])[k] == h[k];
  }

  predicate Paired(h: seq<Row>, vs: seq<Visit>, ws: seq<Visit>) {
    |vs| == |ws| && forall k :: 0 <= k < |vs| ==> SameBarTwoToOne(vs[k], ws[k]) && WasInStage(h, vs[k].contract, 3)
  }

  lemma PairedTail(h: seq<Row>, r: Row, vs: seq<Visit>, ws: seq<Visit>)
    requires Paired(h, vs, ws) && vs != []
    ensures Paired(h, vs[1..], ws[1..]) && Paired(h + [r], vs[1..], ws[1..])
  {
    hide SameBarTwoToOne, WasInStage;
    forall k | 0 <= k < |vs| - 1 ensures SameBarTwoToOne(vs[1..][k], ws[1..][k]) && WasInStage(h + [r], vs[1..][k].contract, 3) {
      assert vs[1..][k] == vs[k + 1] && ws[1..][k] == ws[k + 1];
      StillInStage(h, r, vs[k + 1].contract);
    }
  }

  lemma StagesNext(h: seq<Row>, v: Visit)
    requires StagesOk(h)
    ensures Assess(h, v).Ok? ==> StagesOk(h + [Assess(h, v).value])
  {
    hide Assess;
    StagesInRange(h, v);
  }

  lemma SameRowsSnoc(h: seq<Row>, g: seq<Row>, r: Row, s: Row)
    requires SameRows(h, g) && SameRow(r, s)
    ensures SameRows(h + [r], g + [s])
  {
  }

  lemma {:induction false} TwoToOneIdle(h: seq<Row>, g: seq<Row>, vs: seq<Visit>, ws: seq<Visit>)
    requires StagesOk(h) && SameRows(h, g) && Paired(h, vs, ws)
    ensures SameRows(Grow(h, vs), Grow(g, ws))
    decreases |vs|
  {
    if vs != [] {
      hide Assess, WasInStage, SameBarTwoToOne, SameRows, SameRow, StagesOk, Peak, RawOf;
      var v, w := vs[0], ws[0];
      PeakThree(h, v.contract);
      SameAssess(h, g, v, w);
      StagesNext(h, v);
      if Assess(h, v).Ok? {
        var r, s := Assess(h, v).value, Assess(g, w).value;
        PairedTail(h, r, vs, ws);
        SameRowsSnoc(h, g, r, s);
        TwoToOneIdle(h + [r], g + [s], vs[1..], ws[1..]);
      } else {
        TwoToOneIdle(h, g, vs[1..], ws[1..]);
      }
    }
  }

  // The 2-to-1 rule is forgotten.  After any visits, as long as only contracts that have been in
  // stage 3 are visited, changing that rule at every visit changes nothing in any row: not a stage, not
  // a provision, not a movement.
  lemma TwoToOneForgotten(before: seq<Visit>, vs: seq<Visit>, ws: seq<Visit>)
    requires Paired(Grow([], before), vs, ws)
    ensures SameRows(Grow(Grow([], before), vs), Grow(Grow([], before), ws))
  {
    hide Grow, WasInStage, SameBarTwoToOne;
    GrowStages([], before);
    TwoToOneIdle(Grow([], before), Grow([], before), vs, ws);
  }

  // -------------------------------------------------------------------------
  // Cured and back under the shipped rules
  // -------------------------------------------------------------------------

  const NO_SIGNALS: Signals := Signals(false, false, false, false, false)

  // The shipped calibration but for its cure rules.
  function WithCure(cure: CureRules): Calibration { PLACEHOLDER.(cure := cure) }

  function ShippedBut(cure: CureRules, day: int, dpd: int, paidOn: seq<int>): Visit {
    Visit(0, None, day, 1, WithCure(cure), [], Facts(None, 100000, dpd, NO_SIGNALS, paidOn), [])
  }

  function Shipped(day: int, dpd: int, paidOn: seq<int>): Visit { ShippedBut(PLACEHOLDER.cure, day, dpd, paidOn) }

  lemma SameShipped(cure: CureRules)
    ensures RatingOf(None, WithCure(cure)) == RatingOf(None, PLACEHOLDER)
    ensures forall rating :: SegmentOf(rating, WithCure(cure)) == SegmentOf(rating, PLACEHOLDER)
    ensures forall segment :: PdsOf(segment, WithCure(cure)) == PdsOf(segment, PLACEHOLDER)
    ensures forall segment :: LgdsOf(segment, WithCure(cure)) == LgdsOf(segment, PLACEHOLDER)
    ensures forall x :: RawStage(x, WithCure(cure)) == RawStage(x, PLACEHOLDER)
  {
    hide PLACEHOLDER;
  }

  lemma ShippedFires(x: Context)
    requires x.signals == NO_SIGNALS && x.pd == x.originPd && x.rating == x.originRating
    ensures RawStage(x, PLACEHOLDER) == if x.dpd >= 90 then 3 else if x.dpd >= 30 then 2 else 1
  {
    var three, sicr := PLACEHOLDER.stage3Rules, PLACEHOLDER.sicrRules;
    assert Fires(three[0], x) <==> x.dpd >= 90;
    assert Fires(sicr[0], x) <==> x.dpd >= 30;
    if x.pd != 0.0 && x.originPd > 0.0 { assert x.pd / x.originPd == 1.0; }
    assert !Fires(three[1], x) && !Fires(three[2], x);
    assert !Fires(sicr[1], x) && !Fires(sicr[2], x) && !Fires(sicr[3], x) && !Fires(sicr[4], x);
  }

  // The origin of a contract that is always visited with the same score is its own rating and PD.
  predicate AsNow(h: seq<Row>, rating: string, pd: real) { OriginOf(h, 0, rating, pd) == Origin(rating, pd) }

  function ShippedPd(): real {
    var p := PdsOf(SegmentOf(RatingOf(None, PLACEHOLDER), PLACEHOLDER), PLACEHOLDER);
    if p.Ok? then p.value.pd12 else 0.0
  }

  lemma ShippedStage(h: seq<Row>, v: Visit, pd: real)
    requires v == ShippedBut(v.calibration.cure, v.asOf, v.facts.dpd, v.facts.paidOn) && AsNow(h, RatingOf(None, PLACEHOLDER), pd) && pd == ShippedPd()
    ensures Assess(h, v).Ok?
    ensures var r := Assess(h, v).value;
      && r.contract == 0 && r.asOf == v.asOf && r.auto.rating == RatingOf(None, PLACEHOLDER)
      && r.auto.originRating == r.auto.rating && r.auto.originPd == pd && r.auto.stage.Some?
      && StageOf(r) == Cured(v.calibration.cure, Peak(h, 0, StageOf), RawStage(Context(v.facts.dpd, pd, pd, r.auto.rating, r.auto.rating, NO_SIGNALS), PLACEHOLDER), v.facts, v.asOf)
  {
    hide RawStage, Cured, Peak, Fired, ThreeStageLoss, RatingOf, SegmentOf, PdsOf, LgdsOf, Earliest;
    SameShipped(v.calibration.cure);
    PlaceholderRows(SegmentOf(RatingOf(None, PLACEHOLDER), PLACEHOLDER));
    assert PLACEHOLDER.methodology.ThreeStage?;
  }

  // A row of the contract as every visit above leaves it.
  ghost predicate Ordinary(r: Row, pd: real) {
    r.contract == 0 && r.auto.rating == RatingOf(None, PLACEHOLDER) && r.auto.originRating == r.auto.rating && r.auto.originPd == pd
    && r.auto.stage.Some?
  }

  lemma OriginKept(h: seq<Row>, pd: real)
    requires forall k :: 0 <= k < |h| ==> Ordinary(h[k], pd)
    ensures AsNow(h, RatingOf(None, PLACEHOLDER), pd)
  {
    hide RatingOf;
    EarliestFound(h, 0);
  }

  // Any next visit, once every earlier row is ordinary.
  lemma ShippedNext(h: seq<Row>, v: Visit) returns (r: Row)
    requires v == ShippedBut(v.calibration.cure, v.asOf, v.facts.dpd, v.facts.paidOn)
    requires forall k :: 0 <= k < |h| ==> Ordinary(h[k], ShippedPd())
    ensures Assess(h, v) == Ok(r) && Ordinary(r, ShippedPd()) && r.asOf == v.asOf
    ensures StageOf(r) == Cured(v.calibration.cure, Peak(h, 0, StageOf), if v.facts.dpd >= 90 then 3 else if v.facts.dpd >= 30 then 2 else 1, v.facts, v.asOf)
  {
    hide Assess, RawStage, Cured, Peak, RatingOf, ShippedPd;
    var pd := ShippedPd();
    OriginKept(h, pd);
    ShippedStage(h, v, pd);
    r := Assess(h, v).value;
    ShippedFires(Context(v.facts.dpd, pd, pd, r.auto.rating, r.auto.rating, NO_SIGNALS));
  }

  lemma PeakOne(r: Row)
    requires r.contract == 0 && r.auto.stage.Some?
    ensures Peak([], 0, StageOf).None? && Peak([r], 0, StageOf) == Some(Summit(StageOf(r), r.asOf))
  {
    assert [r][..0] == [];
  }

  lemma PeakTwo(r: Row, s: Row)
    requires r.contract == 0 == s.contract && r.auto.stage.Some? && s.auto.stage.Some? && StageOf(s) < StageOf(r)
    ensures Peak([r, s], 0, StageOf) == Some(Summit(StageOf(r), r.asOf))
  {
    assert [r, s][..1] == [r];
    PeakOne(r);
  }

  lemma ThreePayments()
    ensures PaymentsSince([10, 40, 70], 0) == 3
  {
    assert [10, 40, 70][..2] == [10, 40] && [10, 40][..1] == [10] && [10][..0] == [];
    assert PaymentsSince([10, 40], 0) == PaymentsSince([10], 0) + 1;
  }

  lemma CuredByThree(day: int)
    requires day >= 90
    ensures var f := Facts(None, 100000, 0, NO_SIGNALS, [10, 40, 70]); Cured(PLACEHOLDER.cure, Some(Summit(3, 0)), 1, f, day) == 1
    ensures var f := Facts(None, 100000, 1, NO_SIGNALS, [10, 40, 70]); Cured(PLACEHOLDER.cure, Some(Summit(3, 0)), 1, f, day) == 3
  {
    ThreePayments();
  }

  lemma GrowThree(a: Visit, b: Visit, c: Visit, r: Row, s: Row, t: Row)
    requires Assess([], a) == Ok(r) && Assess([r], b) == Ok(s) && Assess([r, s], c) == Ok(t)
    ensures Grow([], [a, b, c]) == [r, s, t]
  {
    hide Assess;
    assert [a, b, c][1..] == [b, c] && [b, c][1..] == [c] && [c][1..] == [];
    assert [] + [r] == [r] && [r] + [s] == [r, s] && [r, s] + [t] == [r, s, t];
    assert Grow([r], [b, c]) == Grow([r, s], [c]);
  }

  // Ninety-five days past due, three payments and nothing past due, one day past due a month later.
  function CureStory(): seq<Visit> { [Shipped(0, 95, []), Shipped(90, 0, [10, 40, 70]), Shipped(120, 1, [10, 40, 70])] }

  // It happens: stage 3, a cure to stage 1, and stage 3 again on the first day past due.
  lemma CuredAndBack()
    ensures var h := Grow([], CureStory()); |h| == 3 && StageOf(h[0]) == 3 && StageOf(h[1]) == 1 && StageOf(h[2]) == 3
  {
    hide Assess, Cured, Peak, Grow, ShippedPd, PLACEHOLDER;
    var a, b, c := Shipped(0, 95, []), Shipped(90, 0, [10, 40, 70]), Shipped(120, 1, [10, 40, 70]);
    var r := ShippedNext([], a);
    PeakOne(r);
    NoPeak(PLACEHOLDER.cure, 3, a.facts, 0);
    var s := ShippedNext([r], b);
    CuredByThree(90);
    PeakTwo(r, s);
    var t := ShippedNext([r, s], c);
    CuredByThree(120);
    GrowThree(a, b, c, r, s, t);
  }

  lemma NoPeak(rules: CureRules, raw: int, f: Facts, day: int)
    ensures Cured(rules, None, raw, f, day) == raw
  {
  }

  // -------------------------------------------------------------------------
  // A back-dated assessment, twice
  // -------------------------------------------------------------------------

  // A 3-to-2 rule that asks for nothing but no days past due.
  const AT_ONCE := CureRules(true, CureRule(0, 0, 0), CureRule(3, 0, 30))

  // Two visits, and the second one again with another automated result.
  ghost predicate DiffersTwice(a: Visit, b: Visit) {
    && Assess([], a).Ok? && Assess([Assess([], a).value], b).Ok?
    && var r, s := Assess([], a).value, Assess([Assess([], a).value], b).value;
      Assess([r, s], b).Ok? && Assess([r, s], b).value.auto != s.auto
  }

  lemma Differs(a: Visit, b: Visit, r: Row, s: Row)
    requires Assess([], a) == Ok(r) && Assess([r], b) == Ok(s) && Assess([r] + [s], b).Ok? && Assess([r] + [s], b).value.auto != s.auto
    ensures DiffersTwice(a, b)
  {
    hide Assess;
    assert [r] + [s] == [r, s];
  }

  lemma HeldUntilLater(f: Facts, raw: int)
    requires f.dpd == 0 && f.paidOn == [] && raw == 1
    ensures Cured(AT_ONCE, Some(Summit(3, 200)), raw, f, 100) == 3
    ensures CureMet(AT_ONCE, Summit(3, 100), f, 100) && !CureMet(AT_ONCE, Summit(3, 200), f, 100)
  {
  }

  lemma RawIsOne(h: seq<Row>, v: Visit, r: Row)
    requires v == ShippedBut(v.calibration.cure, v.asOf, 0, []) && forall k :: 0 <= k < |h| ==> Ordinary(h[k], ShippedPd())
    requires Assess(h, v) == Ok(r)
    ensures RawOf(r) == 1
  {
    hide Assess, RawStage, RatingOf, ShippedPd, Peak, Cured, OriginOf;
    var pd := ShippedPd();
    OriginKept(h, pd);
    ShippedRaw(h, v, pd);
    ShippedFires(Context(0, pd, pd, r.auto.rating, r.auto.rating, NO_SIGNALS));
  }

  lemma ShippedRaw(h: seq<Row>, v: Visit, pd: real)
    requires v == ShippedBut(v.calibration.cure, v.asOf, v.facts.dpd, v.facts.paidOn) && AsNow(h, RatingOf(None, PLACEHOLDER), pd) && pd == ShippedPd()
    requires Assess(h, v).Ok?
    ensures var r := Assess(h, v).value;
      RawOf(r) == RawStage(Context(v.facts.dpd, pd, pd, r.auto.rating, r.auto.rating, NO_SIGNALS), PLACEHOLDER)
  {
    hide RawStage, RawOf, Cured, Peak, Fired, ThreeStageLoss, RatingOf, SegmentOf, PdsOf, LgdsOf, Earliest;
    SameShipped(v.calibration.cure);
    RawIsStored(h, v);
  }

  // Stage 3 is seen on day 200; an assessment dated day 100 holds it, and another one on that day,
  // with the same inputs, does not.
  lemma BackdatedTwiceDiffers()
    ensures exists a, b :: DiffersTwice(a, b)
  {
    hide Assess, Cured, Peak, ShippedPd, PLACEHOLDER, CureMet, DiffersTwice, AT_ONCE;
    var a, b := ShippedBut(AT_ONCE, 200, 95, []), ShippedBut(AT_ONCE, 100, 0, []);
    var r := ShippedNext([], a);
    PeakOne(r);
    NoPeak(AT_ONCE, 3, a.facts, 200);
    var s := ShippedNext([r], b);
    HeldUntilLater(b.facts, 1);
    RawIsOne([r], b, s);
    AtOnce();
    AssessTwice([r], b, b);
    Differs(a, b, r, s);
  }

  lemma AtOnce()
    ensures AT_ONCE.enabled && PLACEHOLDER.methodology.ThreeStage?
  {
  }
}
