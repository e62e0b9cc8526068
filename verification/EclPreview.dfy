// Requesting an override, and the financial impact shown to the approver:
// app/services/ecl_override.py against what the next assessment computes.
module EclPreview {
  import opened Options
  import opened Sums
  import opened EclModel
  import opened Overrides
  import opened EclAssessment
  import opened EclHistory
  import M = Money

  // -------------------------------------------------------------------------
  // Previews
  // -------------------------------------------------------------------------

  // _project_parameter_ecl()
  function ParameterPreview(a: Row, v: OverrideValue): int
    requires v.Parameters?
  {
    var stage := if StageOf(a) == 0 then 1 else StageOf(a);
    var ead := OrElse(v.ead, a.auto.ead as real);
    var lgd := if v.lgd.Some? then v.lgd else a.auto.lgd;
    var pd := if stage == 1 then (if v.pd12.Some? then v.pd12 else a.auto.pd12)
              else (if v.lifetime.Some? then v.lifetime else a.auto.lifetime);
    Loss(ead, OrElse(pd, 0.0), OrElse(lgd, 0.0))
  }

  // _pd_lgd_from_snapshot(): the snapshot is read without the fallback segment an assessment has.
  function SnapshotPd(a: Row, stage: int): real {
    var segment := if a.auto.segment == "" then RETAIL_UNRATED else a.auto.segment;
    if stage == 1 && a.auto.pd12.Some? then a.auto.pd12.value
    else if segment in a.snapshot.pds then StagePd(PdsOfRow(a.snapshot.pds[segment]), if stage == 1 || stage == 2 then stage else 3)
    else 0.0
  }

  function SnapshotLgd(a: Row, stage: int): real {
    var segment := if a.auto.segment == "" then RETAIL_UNRATED else a.auto.segment;
    if stage == 1 && a.auto.lgd.Some? then a.auto.lgd.value
    else match LgdsOf(segment, a.snapshot)
      case Misconfigured => 0.0
      case Ok(l) => StageLgd(l, if stage == 1 || stage == 2 then stage else 3)
  }

  // _project_stage_ecl()
  function StagePreview(a: Row, stage: int): int {
    Loss(if a.final.ead != 0.0 then a.final.ead else a.auto.ead as real, SnapshotPd(a, stage), SnapshotLgd(a, stage))
  }

  // -------------------------------------------------------------------------
  // Requests
  // -------------------------------------------------------------------------

  datatype Decline = NoAssessment | PendingExists | EvidenceMissing | NotStaged | SameStage | NoParameter | NotPermitted | EndsBeforeStart

  datatype Outcome = Placed(before: int, after: int) | Declined(reason: Decline)

  function Named(v: OverrideValue): set<Parameter> {
    match v
    case StageValue(_) => {StageParameter}
    case Parameters(pd12, lifetime, lgd, ead, rating) =>
      (if pd12.Some? then {Pd12Parameter} else {}) + (if lifetime.Some? then {LifetimeParameter} else {})
      + (if lgd.Some? then {LgdParameter} else {}) + (if ead.Some? then {EadParameter} else {})
      + (if rating.Some? then {RatingParameter} else {})
  }

  // request_stage_override() and request_parameter_override(), guard by guard.
  function RequestOverride(d: Desk, h: seq<Row>, rules: OverrideRules, contract: nat, v: OverrideValue, start: int, end: Option<int>,
                           evidence: bool, user: nat): (Desk, Outcome) {
    match Latest(h, contract)
    case None => (d, Declined(NoAssessment))
    case Some(a) =>
      if HasPending(d.overrides, contract) then (d, Declined(PendingExists))
      else if rules.requireEvidence && !evidence then (d, Declined(EvidenceMissing))
      else if !a.auto.methodology.ThreeStage? then (d, Declined(NotStaged))
      else if v.StageValue? && a.auto.stage == Some(v.stage) then (d, Declined(SameStage))
      else if v.Parameters? && Named(v) == {} then (d, Declined(NoParameter))
      else if v.Parameters? && rules.permitted != {} && !(Named(v) <= rules.permitted) then (d, Declined(NotPermitted))
      else
        var until := OrElse(end, start + rules.validityDays);
        if until < start then (d, Declined(EndsBeforeStart))
        else (Place(d, contract, v, start, until, user).0,
              Placed(a.auto.loss, if v.StageValue? then StagePreview(a, v.stage) else ParameterPreview(a, v)))
  }

  // A declined request leaves the desk alone; a placed one is a pending override and keeps the
  // desk orderly.
  lemma RequestKeeps(d: Desk, h: seq<Row>, rules: OverrideRules, contract: nat, v: OverrideValue, start: int, end: Option<int>, evidence: bool, user: nat)
    requires Orderly(d)
    ensures var (after, outcome) := RequestOverride(d, h, rules, contract, v, start, end, evidence, user);
      && Orderly(after) && (outcome.Declined? ==> after == d)
      && (outcome.Placed? ==> HasPending(after.overrides, contract) && |after.overrides| == |d.overrides| + 1)
  {
    hide Orderly, ParameterPreview, StagePreview, Latest, Named;
    var (after, outcome) := RequestOverride(d, h, rules, contract, v, start, end, evidence, user);
    if outcome.Placed? {
      PlaceKeeps(d, contract, v, start, OrElse(end, start + rules.validityDays), user);
      assert after.overrides[|d.overrides|].status.Pending?;
    }
  }

  // -------------------------------------------------------------------------
  // Parameter overrides: the preview is the result
  // -------------------------------------------------------------------------

  // The visit after `v`, same day and inputs, with `value` governing the contract.
  predicate Under(v: Visit, w: Visit, value: OverrideValue) {
    w == v.(run := w.run, overrides := w.overrides) && GoverningIn(w).Some? && ValueIn(w) == value
  }

  lemma FinalUnder(h: seq<Row>, v: Visit, w: Visit, value: OverrideValue)
    requires Assess(h, v).Ok? && UpTo(h, v.contract, v.asOf) && Under(v, w, value)
    ensures var a := Assess(h, v).value; var p := PdsOf(a.auto.segment, v.calibration);
      && p.Ok? && Assess(h + [a], w).Ok?
      && Assess(h + [a], w).value.final == Finalize(a.auto, GoverningIn(w), value, p.value)
  {
    hide Automate, OpeningOf, MovementOf, GoverningIn, ValueIn, Finalize;
    AssessLatestTwice(h, v, w);
    SegmentStored(h, v);
  }

  // The segment a row names is the one its rates were resolved for.
  lemma SegmentStored(h: seq<Row>, v: Visit)
    requires Assess(h, v).Ok?
    ensures Assess(h, v).value.auto.segment == SegmentOf(RatingOf(v.facts.score, v.calibration), v.calibration)
  {
    hide Finalize, OpeningOf, MovementOf, RawStage, Cured, Fired, RatingOf, SegmentOf, PdsOf, LgdsOf, OriginOf, ThreeStageLoss, LabelOf;
  }

  lemma AutomatedRates(h: seq<Row>, v: Visit)
    requires Assess(h, v).Ok? && v.calibration.methodology.ThreeStage?
    ensures var a := Assess(h, v).value; var p, l := PdsOf(a.auto.segment, v.calibration), LgdsOf(a.auto.segment, v.calibration);
      && p.Ok? && l.Ok? && a.auto.stage.Some? && StageOf(a) >= 1 && a.auto.pd12 == Some(p.value.pd12)
      && a.auto.lifetime == Some(if StageOf(a) == 3 then p.value.lifetime3 else p.value.lifetime)
      && a.auto.lgd == Some(StageLgd(l.value, StageOf(a)))
      && a.auto.ead == v.facts.ead && a.snapshot == v.calibration && a.auto.methodology.ThreeStage?
  {
    StagesInRange(h, v);
  }

  // For every subset of overridden parameters and every automated stage, what the approver was
  // shown is to the cent what the next assessment on the same facts books.
  lemma ParameterPreviewExact(h: seq<Row>, v: Visit, w: Visit, value: OverrideValue)
    requires Assess(h, v).Ok? && v.calibration.methodology.ThreeStage? && UpTo(h, v.contract, v.asOf)
    requires value.Parameters? && Under(v, w, value)
    ensures Assess(h + [Assess(h, v).value], w).Ok?
    ensures Assess(h + [Assess(h, v).value], w).value.final.loss == ParameterPreview(Assess(h, v).value, value)
  {
    FinalUnder(h, v, w, value);
    AutomatedRates(h, v);
  }

  // A rating override is accepted, approved and shown as active, and changes nothing.
  lemma RatingOverrideIsInert(h: seq<Row>, v: Visit, w: Visit, rating: string)
    requires Assess(h, v).Ok? && v.calibration.methodology.ThreeStage? && UpTo(h, v.contract, v.asOf)
    requires Under(v, w, Parameters(None, None, None, None, Some(rating)))
    ensures var b := Assess(h + [Assess(h, v).value], w);
      && b.Ok? && b.value.adjustment == 0 && b.value.closing == b.value.auto.loss
      && b.value.final.stage == b.value.auto.stage && b.value.final.overrideId.Some?
  {
    FinalUnder(h, v, w, Parameters(None, None, None, None, Some(rating)));
    AutomatedRates(h, v);
    AssessLatestTwice(h, v, w);
    StagedLoss(h, v);
  }

  lemma StagedLoss(h: seq<Row>, v: Visit)
    requires Assess(h, v).Ok? && v.calibration.methodology.ThreeStage?
    ensures var a := Assess(h, v).value.auto;
      a.stage.Some? && a.pd12.Some? && a.lifetime.Some? && a.lgd.Some?
      && a.loss == ThreeStageLoss(a.ead as real, a.stage.value, a.pd12.value, a.lifetime.value, a.lgd.value)
  {
  }

  // -------------------------------------------------------------------------
  // Stage overrides: the preview reads other rates, and perhaps another exposure, than the assessment
  // -------------------------------------------------------------------------

  function LossOn(ead: nat, pd: real, lgd: real): int { Loss(ead as real, pd, lgd) }

  lemma LossIsTimes(e: nat, pd: real, lgd: real, r: real)
    requires r == pd * lgd
    ensures LossOn(e, pd, lgd) == M.Times(e, r)
  {
    Associate(e as real, pd, lgd);
  }

  // Two pairs of rates give the same loss on every exposure exactly when their products agree.
  lemma SameProductSameLoss(pd: real, lgd: real, pd2: real, lgd2: real, r: real, s: real)
    requires r == pd * lgd && s == pd2 * lgd2
    ensures (forall e: nat :: LossOn(e, pd, lgd) == LossOn(e, pd2, lgd2)) <==> r == s
  {
    hide LossOn, M.Times;
    forall e: nat ensures LossOn(e, pd, lgd) == M.Times(e, r) && LossOn(e, pd2, lgd2) == M.Times(e, s) {
      LossIsTimes(e, pd, lgd, r);
      LossIsTimes(e, pd2, lgd2, s);
    }
    M.RateEquality(r, s);
  }

  lemma NoLoss(e: nat)
    ensures LossOn(e, 0.0, 0.0) == 0
    ensures forall pd: real, lgd: real :: LossOn(0, pd, lgd) == 0
  {
    forall pd: real, lgd: real ensures LossOn(0, pd, lgd) == 0 {
      ZeroTimes(pd, lgd);
    }
    ZeroTimes2(e as real);
  }

  lemma ZeroTimes(pd: real, lgd: real)
    ensures 0.0 * pd * lgd == 0.0
  {
  }

  lemma ZeroTimes2(e: real)
    ensures e * 0.0 * 0.0 == 0.0
  {
  }

  // One fixed loss is right on every exposure exactly when it is zero and the product of the rates is.
  lemma FixedLoss(loss: int, pd: real, lgd: real, r: real)
    requires r == pd * lgd
    ensures (forall e: nat :: loss == LossOn(e, pd, lgd)) <==> loss == 0 && r == 0.0
  {
    hide LossOn;
    forall e: nat ensures LossOn(e, 0.0, 0.0) == 0 { NoLoss(e); }
    NoLoss(0);
    SameProductSameLoss(pd, lgd, 0.0, 0.0, r, 0.0);
    if forall e: nat :: loss == LossOn(e, pd, lgd) {
      assert LossOn(0, pd, lgd) == 0;
    }
  }

  function At(v: Visit, ead: nat): Visit { v.(facts := v.facts.(ead := ead)) }

  // The exposure an EAD override in force holds fixed in the preview; a zero one is read as absent.
  function HeldEad(v: Visit): Option<real> {
    if EadUnder(ValueIn(v)) == Some(0.0) then None else EadUnder(ValueIn(v))
  }

  // The preview of a stage override and the booked result: the preview takes the governing exposure
  // and the snapshot's rates, the assessment its own exposure, the rates it resolves, and the LGD of
  // the automated stage.
  lemma StageOverrideRates(h: seq<Row>, v: Visit, w: Visit, stage: int)
    requires Assess(h, v).Ok? && v.calibration.methodology.ThreeStage? && UpTo(h, v.contract, v.asOf)
    requires Under(v, w, StageValue(stage)) && 1 <= stage <= 3
    ensures var a := Assess(h, v).value; var p, l := PdsOf(a.auto.segment, v.calibration), LgdsOf(a.auto.segment, v.calibration);
      && p.Ok? && l.Ok? && Assess(h + [a], w).Ok?
      && StagePreview(a, stage) == Loss(OrElse(HeldEad(v), v.facts.ead as real), SnapshotPd(a, stage), SnapshotLgd(a, stage))
      && Assess(h + [a], w).value.final.loss == Loss(v.facts.ead as real, StagePd(p.value, stage), StageLgd(l.value, StageOf(a)))
  {
    hide SnapshotPd, SnapshotLgd, Loss, RawStage, Cured;
    FinalUnder(h, v, w, StageValue(stage));
    AutomatedRates(h, v);
  }

  // The exposure does not enter the stage, nor the rates.
  lemma RatesIgnoreExposure(h: seq<Row>, v: Visit, ead: nat, stage: int)
    requires Assess(h, v).Ok? && v.calibration.methodology.ThreeStage?
    ensures Assess(h, At(v, ead)).Ok?
    ensures var a, b := Assess(h, v).value, Assess(h, At(v, ead)).value;
      && StageOf(b) == StageOf(a) && b.auto.segment == a.auto.segment
      && SnapshotPd(b, stage) == SnapshotPd(a, stage) && SnapshotLgd(b, stage) == SnapshotLgd(a, stage)
  {
    hide RawStage, Fired, ThreeStageLoss;
  }

  ghost predicate StagePreviewRight(h: seq<Row>, v: Visit, w: Visit, stage: int) {
    && Assess(h, v).Ok? && Assess(h + [Assess(h, v).value], w).Ok?
    && StagePreview(Assess(h, v).value, stage) == Assess(h + [Assess(h, v).value], w).value.final.loss
  }

  lemma OneExposure(h: seq<Row>, v: Visit, w: Visit, stage: int, e: nat, p: Pds, l: Lgds)
    requires Assess(h, v).Ok? && v.calibration.methodology.ThreeStage? && UpTo(h, v.contract, v.asOf)
    requires Under(v, w, StageValue(stage)) && 1 <= stage <= 3
    requires PdsOf(Assess(h, v).value.auto.segment, v.calibration) == Ok(p) && LgdsOf(Assess(h, v).value.auto.segment, v.calibration) == Ok(l)
    ensures var a := Assess(h, v).value;
      StagePreviewRight(h, At(v, e), At(w, e), stage) <==>
      Loss(OrElse(HeldEad(v), e as real), SnapshotPd(a, stage), SnapshotLgd(a, stage)) == LossOn(e, StagePd(p, stage), StageLgd(l, StageOf(a)))
  {
    hide SnapshotPd, SnapshotLgd, Loss, Assess, UpTo, StagePd, StageLgd;
    RatesIgnoreExposure(h, v, e, stage);
    StageOverrideRates(h, At(v, e), At(w, e), stage);
  }

  // The preview of a stage override is right on every exposure exactly when, without an EAD override
  // in force, the rates shown and the rates booked have the same product, and with one, the loss shown
  // is zero and so is the product booked.
  lemma StagePreviewExact(h: seq<Row>, v: Visit, w: Visit, stage: int)
    requires Assess(h, v).Ok? && v.calibration.methodology.ThreeStage? && UpTo(h, v.contract, v.asOf)
    requires Under(v, w, StageValue(stage)) && 1 <= stage <= 3
    ensures var a := Assess(h, v).value; var p, l := PdsOf(a.auto.segment, v.calibration), LgdsOf(a.auto.segment, v.calibration);
      && p.Ok? && l.Ok?
      && var booked := StagePd(p.value, stage) * StageLgd(l.value, StageOf(a));
        (forall e: nat :: StagePreviewRight(h, At(v, e), At(w, e), stage)) <==>
          match HeldEad(v)
          case None => SnapshotPd(a, stage) * SnapshotLgd(a, stage) == booked
          case Some(x) => Loss(x, SnapshotPd(a, stage), SnapshotLgd(a, stage)) == 0 && booked == 0.0
  {
    hide SnapshotPd, SnapshotLgd, Loss, UpTo, StagePd, StageLgd, StagePreviewRight, Under, HeldEad, LossOn, RawStage, Cured;
    var a := Assess(h, v).value;
    AutomatedRates(h, v);
    var p, l := PdsOf(a.auto.segment, v.calibration).value, LgdsOf(a.auto.segment, v.calibration).value;
    var pd, lgd, pd2, lgd2 := SnapshotPd(a, stage), SnapshotLgd(a, stage), StagePd(p, stage), StageLgd(l, StageOf(a));
    forall e: nat
      ensures StagePreviewRight(h, At(v, e), At(w, e), stage) <==> Loss(OrElse(HeldEad(v), e as real), pd, lgd) == LossOn(e, pd2, lgd2)
    {
      OneExposure(h, v, w, stage, e, p, l);
    }
    Everywhere(h, v, w, stage, HeldEad(v), pd, lgd, pd2, lgd2);
  }

  lemma Everywhere(h: seq<Row>, v: Visit, w: Visit, stage: int, held: Option<real>, pd: real, lgd: real, pd2: real, lgd2: real)
    requires forall e: nat :: StagePreviewRight(h, At(v, e), At(w, e), stage) <==> Loss(OrElse(held, e as real), pd, lgd) == LossOn(e, pd2, lgd2)
    ensures (forall e: nat :: StagePreviewRight(h, At(v, e), At(w, e), stage)) <==>
      match held
      case None => pd * lgd == pd2 * lgd2
      case Some(x) => Loss(x, pd, lgd) == 0 && pd2 * lgd2 == 0.0
  {
    hide StagePreviewRight, Loss, At, LossOn;
    if held.None? {
      forall e: nat ensures Loss(OrElse(held, e as real), pd, lgd) == LossOn(e, pd, lgd) { LossOnIs(e, pd, lgd); }
      SameProductSameLoss(pd, lgd, pd2, lgd2, pd * lgd, pd2 * lgd2);
    } else {
      FixedLoss(Loss(held.value, pd, lgd), pd2, lgd2, pd2 * lgd2);
    }
  }

  lemma LossOnIs(e: nat, pd: real, lgd: real)
    ensures Loss(e as real, pd, lgd) == LossOn(e, pd, lgd)
  {
  }

  lemma ProductSame(x: real, y: real, z: real)
    ensures x * y == x * z <==> x == 0.0 || y == z
  {
    if x * y == x * z && x != 0.0 {
      Cancelled(x, y - z);
      assert x * (y - z) == x * y - x * z;
    }
  }

  lemma Cancelled(x: real, d: real)
    requires x != 0.0
    ensures x * d == 0.0 ==> d == 0.0
  {
  }

  lemma NoRate(x: real)
    ensures 0.0 * x == 0.0
  {
  }

  // The snapshot's rates for a named segment: those of the segment's own rows, a missing PD row read
  // as zero.
  lemma SnapshotRates(a: Row, stage: int, p: Pds, l: Lgds)
    requires a.auto.segment != "" && 1 <= stage <= 3 && 1 <= StageOf(a) <= 3 && stage != StageOf(a)
    requires PdsOf(a.auto.segment, a.snapshot) == Ok(p) && LgdsOf(a.auto.segment, a.snapshot) == Ok(l)
    requires a.auto.pd12 == Some(p.pd12) && a.auto.lgd == Some(StageLgd(l, StageOf(a)))
    ensures SnapshotPd(a, stage) == if stage == 1 || a.auto.segment in a.snapshot.pds then StagePd(p, stage) else 0.0
    ensures SnapshotLgd(a, stage) == if stage == 1 then StageLgd(l, StageOf(a)) else StageLgd(l, stage)
    ensures stage != 1 ==> (StageLgd(l, stage) == StageLgd(l, StageOf(a)) <==> l.lgd == l.lgd3 || (stage == 2 && StageOf(a) == 1))
  {
  }

  // When the rates shown and the rates booked have the same product, in the calibration's own terms:
  // the stage asked for is 1; or the segment has its own PD row, and its PD is zero, it has one LGD for
  // all stages, or the move is from 1 to 2; or it has none, and nothing would be booked.
  lemma StagePreviewRates(h: seq<Row>, v: Visit, stage: int)
    requires Assess(h, v).Ok? && v.calibration.methodology.ThreeStage? && StagesOk(h)
    requires 1 <= stage <= 3 && stage != StageOf(Assess(h, v).value) && Assess(h, v).value.auto.segment != ""
    ensures var a, c := Assess(h, v).value, v.calibration; var p, l := PdsOf(a.auto.segment, c), LgdsOf(a.auto.segment, c);
      && p.Ok? && l.Ok?
      && var booked := StagePd(p.value, stage) * StageLgd(l.value, StageOf(a));
        SnapshotPd(a, stage) * SnapshotLgd(a, stage) == booked <==>
          || stage == 1
          || (if a.auto.segment in c.pds
              then StagePd(p.value, stage) == 0.0 || l.value.lgd == l.value.lgd3 || (stage == 2 && StageOf(a) == 1)
              else booked == 0.0)
  {
    hide Automate, RowOf, StagePd, StageLgd, SnapshotPd, SnapshotLgd;
    var a := Assess(h, v).value;
    AutomatedRates(h, v);
    StagesInRange(h, v);
    var p, l := PdsOf(a.auto.segment, v.calibration).value, LgdsOf(a.auto.segment, v.calibration).value;
    SnapshotRates(a, stage, p, l);
    ProductSame(StagePd(p, stage), StageLgd(l, stage), StageLgd(l, StageOf(a)));
    NoRate(SnapshotLgd(a, stage));
  }

  // -------------------------------------------------------------------------
  // Under the shipped calibration
  // -------------------------------------------------------------------------

  lemma ShippedSegment(rating: string)
    ensures SegmentOf(rating, PLACEHOLDER) != "" && SegmentOf(rating, PLACEHOLDER) in PLACEHOLDER.pds
  {
    assert UNRATED in PLACEHOLDER.segments;
    if rating == "A" || rating == "B" {
    } else if rating == "C" {
    } else if rating == "D" || rating == "E" {
    } else if rating == "UNRATED" {
    } else {
      assert rating !in PLACEHOLDER.segments;
    }
  }

  // Every rate is positive, and stage 3 has an LGD of its own.
  lemma RatesPositive(p: Pds, l: Lgds, stage: int, lgd: real)
    requires OneOf(p, l) && (lgd == l.lgd || lgd == l.lgd3)
    ensures StagePd(p, stage) * lgd > 0.0 && StagePd(p, stage) != 0.0 && l.lgd != l.lgd3
  {
    M.Positive(StagePd(p, stage), lgd);
  }

  // The preview of a stage override is right on every exposure exactly when no EAD override is in
  // force and the stage asked for is 1, or 2 where the model says 1.
  lemma ShippedPreviewExact(h: seq<Row>, v: Visit, w: Visit, stage: int)
    requires Assess(h, v).Ok? && v.calibration == PLACEHOLDER && UpTo(h, v.contract, v.asOf) && StagesOk(h)
    requires Under(v, w, StageValue(stage)) && 1 <= stage <= 3 && stage != StageOf(Assess(h, v).value)
    ensures (forall e: nat :: StagePreviewRight(h, At(v, e), At(w, e), stage)) <==>
      HeldEad(v).None? && (stage == 1 || (stage == 2 && StageOf(Assess(h, v).value) == 1))
  {
    hide Assess, UpTo, Under, HeldEad, StagePreviewRight, At, Loss, SnapshotPd, SnapshotLgd, StagePd, SegmentOf, RatingOf, PdsOf, LgdsOf, PLACEHOLDER, OneOf;
    var segment := Assess(h, v).value.auto.segment;
    Staged();
    SegmentStored(h, v);
    ShippedSegment(RatingOf(v.facts.score, v.calibration));
    PlaceholderRows(segment);
    var p, l := PdsOf(segment, PLACEHOLDER).value, LgdsOf(segment, PLACEHOLDER).value;
    RatesPositive(p, l, stage, StageLgd(l, StageOf(Assess(h, v).value)));
    StagePreviewExact(h, v, w, stage);
    StagePreviewRates(h, v, stage);
  }

  lemma Staged()
    ensures PLACEHOLDER.methodology.ThreeStage?
  {
  }

  // A contract in stage 1 for which stage 3 is asked, and the preview shows another loss than the next
  // assessment books.
  ghost predicate Misleads(v: Visit, w: Visit) {
    && v.calibration == PLACEHOLDER && Assess([], v).Ok? && StageOf(Assess([], v).value) == 1
    && Under(v, w, StageValue(3)) && !StagePreviewRight([], v, w, 3)
  }

  function AskedFor(v: Visit, stage: int): Visit {
    v.(overrides := [Override(v.contract, StageValue(stage), v.asOf, None, OverrideStatus.Active, 0, None)])
  }

  lemma AskedUnder(v: Visit, stage: int, e: nat)
    ensures Under(At(v, e), At(AskedFor(v, stage), e), StageValue(stage)) && Under(v, AskedFor(v, stage), StageValue(stage))
  {
  }

  lemma NothingHeld(v: Visit)
    requires v.overrides == []
    ensures HeldEad(v).None?
  {
  }

  lemma MisledAt(v: Visit, w: Visit, e: nat)
    requires v.calibration == PLACEHOLDER && Assess([], v).Ok? && StageOf(Assess([], v).value) == 1
    requires Under(At(v, e), At(w, e), StageValue(3)) && !StagePreviewRight([], At(v, e), At(w, e), 3)
    ensures Misleads(At(v, e), At(w, e))
  {
    hide Assess, Under, StagePreviewRight, PLACEHOLDER;
    Staged();
    RatesIgnoreExposure([], v, e, 3);
  }

  // It happens under the shipped calibration.
  lemma ShippedPreviewMisleads()
    ensures exists v, w :: Misleads(v, w)
  {
    hide Assess, Under, StagePreviewRight, At, HeldEad, PLACEHOLDER, Cured, ShippedPd, Misleads, Peak, AskedFor;
    var v := Shipped(0, 0, []);
    var w := AskedFor(v, 3);
    var r := ShippedNext([], v);
    FirstVisit(v);
    AskedUnder(v, 3, 0);
    NothingHeld(v);
    ShippedPreviewExact([], v, w, 3);
    var e: nat :| !StagePreviewRight([], At(v, e), At(w, e), 3);
    AskedUnder(v, 3, e);
    MisledAt(v, w, e);
  }

  lemma FirstVisit(v: Visit)
    ensures Cured(v.calibration.cure, Peak([], 0, StageOf), 1, v.facts, v.asOf) == 1
    ensures WithCure(PLACEHOLDER.cure) == PLACEHOLDER
  {
  }
}
