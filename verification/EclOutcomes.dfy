// What one assessment books, and what is emitted for it once its run is posted (app/services/ecl.py,
// app/services/ecl_engine.py).
module EclOutcomes {
  import opened Options
  import opened Sums
  import opened EclModel
  import opened Overrides
  import opened EclAssessment
  import opened EclHistory
  import opened EclBook
  import opened EclBookLaws
  import opened EclBookTheorems
  import opened EclPreview
  import D = DeskOutcomes
  import M = Money

  // -------------------------------------------------------------------------
  // The automated loss, methodology by methodology
  // -------------------------------------------------------------------------

  // The rates one three-stage assessment uses.
  function StagedPd(p: Pds, stage: int): real { if stage == 1 then p.pd12 else if stage == 2 then p.lifetime else p.lifetime3 }

  function StagedLgd(l: Lgds, stage: int): real { if stage == 1 || stage == 2 then l.lgd else l.lgd3 }

  lemma ProductNotNegative(ead: real, pd: real, lgd: real)
    requires ead >= 0.0 && pd >= 0.0 && lgd >= 0.0
    ensures ead * pd * lgd >= 0.0
  {
    M.ScaleMonotone(ead, 0.0, pd);
    M.ScaleMonotone(ead * pd, 0.0, lgd);
  }

  // Three stages: exposure times the PD and the LGD of the stage, to the nearest cent.
  lemma StagedLossBooked(h: seq<Row>, v: Visit)
    requires Assess(h, v).Ok? && v.calibration.methodology.ThreeStage? && StagesOk(h) && v.facts.ead >= 0
    ensures var a := Assess(h, v).value.auto; var p, l := PdsOf(a.segment, v.calibration), LgdsOf(a.segment, v.calibration);
      && p.Ok? && l.Ok? && a.stage.Some? && 1 <= a.stage.value <= 3
      && (Fractions(p.value, l.value) ==>
           M.Nearest(a.loss, v.facts.ead as real * StagedPd(p.value, a.stage.value) * StagedLgd(l.value, a.stage.value)))
  {
    hide Cured, RawStage, Peak, Fired, Finalize, OpeningOf, MovementOf, RatingOf, SegmentOf, PdsOf, LgdsOf, OriginOf, GoverningIn, ValueIn, M.RoundHalfUp;
    StagesInRange(h, v);
    var a := Assess(h, v).value.auto;
    var p, l := PdsOf(a.segment, v.calibration).value, LgdsOf(a.segment, v.calibration).value;
    if Fractions(p, l) {
      ProductNotNegative(v.facts.ead as real, StagedPd(p, a.stage.value), StagedLgd(l, a.stage.value));
      M.RoundedNearest(v.facts.ead as real * StagedPd(p, a.stage.value) * StagedLgd(l, a.stage.value));
    }
  }

  // With an override in force the loss is exposure times PD times LGD again. A stage override takes the PD of
  // its own stage on the exposure and the LGD the stage rules gave; a parameter override keeps the stage and
  // puts what it names in place of the automated figure.
  lemma OverriddenLossBooked(h: seq<Row>, v: Visit)
    requires Assess(h, v).Ok? && v.calibration.methodology.ThreeStage? && StagesOk(h) && GoverningIn(v).Some?
    ensures var r, o := Assess(h, v).value, ValueIn(v); var p := PdsOf(r.auto.segment, v.calibration);
      && p.Ok? && r.final.overrideId == GoverningIn(v) && r.auto.lgd.Some? && r.auto.stage.Some?
      && (o.StageValue? && 1 <= o.stage <= 3 ==>
           && r.final.stage == Some(o.stage) && r.final.ead == r.auto.ead as real && r.final.lgd == r.auto.lgd
           && Booked(r.final.loss, r.auto.ead as real, StagedPd(p.value, o.stage), r.auto.lgd.value))
      && (o.Parameters? ==>
           && r.final.stage == r.auto.stage && r.final.ead == (if o.ead.Some? then o.ead.value else r.auto.ead as real)
           && r.final.lgd == (if o.lgd.Some? then o.lgd else r.auto.lgd)
           && Booked(r.final.loss, r.final.ead,
                if r.auto.stage == Some(1) then (if o.pd12.Some? then o.pd12.value else p.value.pd12)
                else if o.lifetime.Some? then o.lifetime.value else StagedPd(p.value, r.auto.stage.value),
                r.final.lgd.value))
  {
    hide Cured, RawStage, Peak, Fired, OpeningOf, MovementOf, RatingOf, SegmentOf, PdsOf, LgdsOf, OriginOf, GoverningIn, ValueIn, M.RoundHalfUp, Booked;
    StagesInRange(h, v);
    LossIsBooked();
  }

  // A loss of exposure times PD times LGD, to the nearest cent.
  predicate Booked(loss: int, ead: real, pd: real, lgd: real) { ead * pd * lgd >= 0.0 ==> M.Nearest(loss, ead * pd * lgd) }

  lemma LossIsBooked()
    ensures forall ead, pd, lgd :: Booked(Loss(ead, pd, lgd), ead, pd, lgd)
  {
    forall ead, pd, lgd ensures Booked(Loss(ead, pd, lgd), ead, pd, lgd) {
      if ead * pd * lgd >= 0.0 { M.RoundedNearest(ead * pd * lgd); }
    }
  }

  // The two simplified methodologies stage nothing: one rate for all, or the rate of the bucket the days
  // past due fall in.
  lemma SimpleLossBooked(h: seq<Row>, v: Visit)
    requires Assess(h, v).Ok? && !v.calibration.methodology.ThreeStage? && v.facts.ead >= 0
    ensures var r := Assess(h, v).value;
      && r.auto.stage.None? && r.final.stage == (if ValueIn(v).StageValue? then Some(ValueIn(v).stage) else None) && r.final.loss == r.auto.loss
      && (v.calibration.methodology.SimplifiedLifetime? && v.calibration.lossRate >= 0.0 ==>
           M.NearestShare(r.auto.loss, v.facts.ead, v.calibration.lossRate))
      && (v.calibration.methodology.DpdBanded? ==>
           && (v.facts.dpd > 0 ==> v.buckets != []) && r.auto.band == Some(LabelOf(v.facts.dpd, v.buckets))
           && r.auto.band.value in v.calibration.bandPct
           && (v.calibration.bandPct[r.auto.band.value] >= 0.0 ==>
                M.NearestShare(r.auto.loss, v.facts.ead, v.calibration.bandPct[r.auto.band.value])))
  {
    hide Peak, Fired, OpeningOf, MovementOf, RatingOf, SegmentOf, PdsOf, LgdsOf, OriginOf, GoverningIn, ValueIn, M.Times, LabelOf, M.NearestShare;
    if v.calibration.methodology.SimplifiedLifetime? {
      if v.calibration.lossRate >= 0.0 { M.TimesNearest(v.facts.ead, v.calibration.lossRate); }
    } else {
      var band := LabelOf(v.facts.dpd, v.buckets);
      if v.calibration.bandPct[band] >= 0.0 { M.TimesNearest(v.facts.ead, v.calibration.bandPct[band]); }
    }
  }

  // What a row says of its movement: an override when it changed the loss, else where the provision went.
  lemma MovementTells(h: seq<Row>, v: Visit)
    requires Assess(h, v).Ok?
    ensures var r := Assess(h, v).value;
      && r.closing == r.final.loss && r.adjustment == r.final.loss - r.auto.loss
      && (r.movement == OverrideAdjustment <==> r.final.loss != r.auto.loss)
      && (r.final.loss == r.auto.loss ==>
           && (r.movement == Created <==> r.opening == 0 && r.closing > 0)
           && (r.movement == Increased <==> r.closing > r.opening && !(r.opening == 0 && r.closing > 0))
           && (r.movement == Released <==> r.closing < r.opening) && (r.movement == Unchanged <==> r.closing == r.opening))
  {
    hide Automate, Finalize, OpeningOf, GoverningIn, ValueIn;
  }

  // -------------------------------------------------------------------------
  // The newest assessment
  // -------------------------------------------------------------------------

  // The contract's latest assessment is the last by date and then by creation: the prior one of any visit
  // that is not before it.
  lemma {:induction false} LatestIsPrior(h: seq<Row>, contract: nat, day: int)
    requires UpTo(h, contract, day)
    ensures Latest(h, contract) == Prior(h, contract, day, None)
  {
    if h != [] {
      var init, last := h[..|h| - 1], h[|h| - 1];
      assert forall k :: 0 <= k < |init| ==> init[k] == h[k];
      LatestIsPrior(init, contract, day);
    }
  }

  lemma LatestFound(h: seq<Row>, contract: nat, day: int)
    requires UpTo(h, contract, day)
    ensures match Latest(h, contract)
      case Some(best) => LastAmong(h, contract, day, None, best)
      case None => NoneEligible(h, contract, day, None)
  {
    hide Latest, Prior, LastAmong, NoneEligible;
    LatestIsPrior(h, contract, day);
    PriorFound(h, contract, day, None);
  }

  // -------------------------------------------------------------------------
  // The raw stage of an assessment
  // -------------------------------------------------------------------------

  // Under the shipped calibration the raw stage of an assessment is told by the day's facts, today's PD and
  // rating, and the PD and rating of the contract's first assessment.
  lemma ShippedAssessment(h: seq<Row>, v: Visit)
    requires Assess(h, v).Ok? && v.calibration == PLACEHOLDER
    ensures var r, f := Assess(h, v).value, v.facts;
      && r.auto.pd12.Some?
      && (RawOf(r) == 3 <==> f.dpd >= 90 || f.signals.brokenPromise || f.signals.impaired)
      && (RawOf(r) >= 2 <==>
           || f.dpd >= 30 || f.signals.brokenPromise || f.signals.impaired || f.signals.openCase || f.signals.forbearance
           || (r.auto.originPd > 0.0 && r.auto.pd12.value >= 2.0 * r.auto.originPd) || TwoDown(r.auto.originRating, r.auto.rating))
  {
    hide *;
    ShippedIsStaged();
    RawIsStored(h, v);
    RatesStored(h, v);
    ShippedRawStage(ContextOf(h, v.contract, v.facts, Assess(h, v).value.auto.rating, OrElse(Assess(h, v).value.auto.pd12, 0.0)));
  }

  lemma ShippedIsStaged()
    ensures PLACEHOLDER.methodology.ThreeStage?
  {
  }

  lemma RatesStored(h: seq<Row>, v: Visit)
    requires Assess(h, v).Ok? && v.calibration.methodology.ThreeStage?
    ensures var a := Assess(h, v).value.auto; var x := ContextOf(h, v.contract, v.facts, a.rating, OrElse(a.pd12, 0.0));
      && a.pd12.Some? && x == Context(v.facts.dpd, a.pd12.value, a.originPd, a.rating, a.originRating, v.facts.signals)
  {
    hide Cured, RawStage, Peak, Fired, Finalize, OpeningOf, MovementOf, RatingOf, SegmentOf, PdsOf, LgdsOf, Earliest, GoverningIn, ValueIn;
  }

  // Those of the first assessment are kept: a contract's first row stores its own, later ones the first's.
  lemma OriginKept(h: seq<Row>, v: Visit)
    requires Assess(h, v).Ok?
    ensures var a := Assess(h, v).value.auto;
      match Earliest(h, v.contract)
      case None => a.originRating == a.rating && (a.pd12.Some? ==> a.originPd == a.pd12.value)
      case Some(first) => a.originPd == first.auto.originPd && (first.auto.originRating != "" ==> a.originRating == first.auto.originRating)
  {
    hide Cured, RawStage, Peak, Fired, Finalize, OpeningOf, MovementOf, RatingOf, SegmentOf, PdsOf, LgdsOf, Earliest, GoverningIn, ValueIn;
  }

  // -------------------------------------------------------------------------
  // Origination, runs, postings and write-offs
  // -------------------------------------------------------------------------

  // Whether the calibration serves a contract does not depend on the history.
  lemma ServedAnyway(h: seq<Row>, g: seq<Row>, v: Visit)
    ensures Assess(h, v).Ok? <==> Assess(g, v).Ok?
  {
    hide EclAssessment.Staged, Unstaged, RatingOf, SegmentOf, PdsOf, LgdsOf, LabelOf, RowOf, M.Times;
  }

  predicate AssessedAs(h: seq<Row>, r: Row, input: Input, x: Exposure, run: Option<nat>) {
    && Assess(h, Visit(x.contract, run, input.asOf, input.version, input.calibration, input.buckets, x.facts, input.overrides)) == Ok(r)
    && r.contract == x.contract && r.run == run && r.asOf == input.asOf && r.version == input.version && r.snapshot == input.calibration
    && r.auto.ead == x.facts.ead && r.auto.dpd == x.facts.dpd
  }

  lemma AssessedRow(h: seq<Row>, input: Input, x: Exposure, run: Option<nat>)
    requires Assess(h, VisitOf(input, x, run)).Ok?
    ensures AssessedAs(h, Assess(h, VisitOf(input, x, run)).value, input, x, run)
  {
    hide Cured, RawStage, Peak, Fired, Finalize, OpeningOf, MovementOf, RatingOf, SegmentOf, PdsOf, LgdsOf, Earliest, GoverningIn, ValueIn, LabelOf, M.Times;
  }

  predicate RowsFor(h: seq<Row>, after: seq<Row>, input: Input, xs: seq<Exposure>, run: nat) {
    && |after| == |h| + |xs| && h <= after
    && forall k :: 0 <= k < |xs| ==> AssessedAs(after[..|h| + k], after[|h| + k], input, xs[k], Some(run))
  }

  lemma {:induction false} EachAssessed(h: seq<Row>, input: Input, run: nat, xs: seq<Exposure>)
    ensures AssessAll(h, input, run, xs).Ok? <==> forall k :: 0 <= k < |xs| ==> Assess([], VisitOf(input, xs[k], Some(run))).Ok?
    ensures AssessAll(h, input, run, xs).Ok? ==> RowsFor(h, AssessAll(h, input, run, xs).value, input, xs, run)
    decreases |xs|
  {
    hide Assess, AssessedAs;
    if xs != [] {
      var v := VisitOf(input, xs[0], Some(run));
      ServedAnyway(h, [], v);
      if Assess(h, v).Ok? {
        var r := Assess(h, v).value;
        assert forall k :: 0 <= k < |xs| - 1 ==> xs[1..][k] == xs[k + 1];
        EachAssessed(h + [r], input, run, xs[1..]);
        AssessedRow(h, input, xs[0], Some(run));
        if AssessAll(h, input, run, xs).Ok? {
          FirstAssessed(h, r, AssessAll(h, input, run, xs).value, input, xs, run);
        }
      }
    }
  }

  lemma FirstAssessed(h: seq<Row>, r: Row, after: seq<Row>, input: Input, xs: seq<Exposure>, run: nat)
    requires xs != [] && AssessedAs(h, r, input, xs[0], Some(run)) && RowsFor(h + [r], after, input, xs[1..], run)
    ensures RowsFor(h, after, input, xs, run)
  {
    hide AssessedAs;
    assert h + [r] == after[..|h| + 1];
    assert after[..|h|] == (h + [r])[..|h|] == h && after[|h|] == (h + [r])[|h|] == r;
    forall k | 0 <= k < |xs| ensures AssessedAs(after[..|h| + k], after[|h| + k], input, xs[k], Some(run)) {
      if k > 0 { assert xs[1..][k - 1] == xs[k] && |h| + k == |h + [r]| + (k - 1); }
    }
  }

  // A portfolio run assesses every contract it is given once, in order, each on the rows before it, or, when
  // the calibration does not serve one of them, leaves everything as it was.
  lemma RunOutcome(b: Book, input: Input, xs: seq<Exposure>)
    ensures RunEcl(b, input, xs).1.Fine? <==> forall k :: 0 <= k < |xs| ==> Assess([], VisitOf(input, xs[k], Some(|b.runs|))).Ok?
    ensures var (d, outcome) := RunEcl(b, input, xs);
      if outcome.Fine? then
        && RowsFor(b.rows, d.rows, input, xs, |b.runs|) && d.events == b.events && d.executions == b.executions
        && |d.runs| == |b.runs| + 1 && b.runs <= d.runs && d.runs[|b.runs|].status.Completed?
      else d == b && outcome.Misconfiguration?
  {
    hide Assess, RowsFor, TotalsOf;
    EachAssessed(b.rows, input, |b.runs|, xs);
  }

  // A contract gets its origination assessment once.
  lemma InitialOutcome(b: Book, input: Input, x: Exposure)
    ensures var (d, outcome) := InitialAssessment(b, input, x);
      if exists k :: 0 <= k < |b.rows| && b.rows[k].contract == x.contract && b.rows[k].run.None? then d == b && outcome.Fine?
      else if Assess(b.rows, VisitOf(input, x, None)).Misconfigured? then d == b && outcome.Misconfiguration?
      else
        && outcome.Fine? && |d.rows| == |b.rows| + 1 && b.rows <= d.rows && AssessedAs(b.rows, d.rows[|b.rows|], input, x, None)
        && d.runs == b.runs && d.executions == b.executions && b.events <= d.events
  {
    hide Assess, AssessedAs;
    var v := VisitOf(input, x, None);
    if Assess(b.rows, v).Ok? { AssessedRow(b.rows, input, x, None); }
  }

  lemma {:induction false} EmittedGrow(events: seq<Event>, rows: seq<Row>, run: nat)
    ensures events <= EmitRows(events, rows, run)
    decreases |rows|
  {
    if rows != [] {
      var init := rows[..|rows| - 1];
      EmittedGrow(events, init, run);
      var before, after := EmitRows(events, init, run), EmitRows(events, rows, run);
      assert before <= after;
      assert events == before[..|events|] == after[..|events|];
    }
  }

  // Posting marks the run and adds events, nothing else; a posted run is not posted again.
  lemma PostOutcome(b: Book, run: nat)
    ensures var (d, outcome) := PostRun(b, run);
      && (outcome.NoSuchRun? <==> run >= |b.runs|) && d.rows == b.rows && d.executions == b.executions && |d.runs| == |b.runs| && b.events <= d.events
      && (forall r :: 0 <= r < |b.runs| ==>
           d.runs[r] == if r == run then RunRow(b.runs[r].asOf, b.runs[r].version, Posted, b.runs[r].contracts, b.runs[r].totals) else b.runs[r])
      && (run >= |b.runs| || b.runs[run].status.Posted? ==> d == b)
  {
    hide EmitRows;
    EmittedGrow(b.events, b.rows, run);
    assert b.events == EmitRows(b.events, b.rows, run)[..|b.events|];
  }

  // A write-off is recorded with the closing provision of the contract's latest assessment, and leaves every
  // assessment and run as it is.
  lemma WriteOffOutcome(b: Book, contract: nat, full: bool, principal: int, profit: int, lateFee: int, day: int)
    requires UpTo(b.rows, contract, day)
    ensures var d := WriteOff(b, contract, full, principal, profit, lateFee);
      && d.rows == b.rows && d.runs == b.runs && |d.executions| == |b.executions| + 1 && b.executions <= d.executions && b.events <= d.events
      && var x := d.executions[|b.executions|];
        && x.contract == contract && x.full == full && x.taken.principal == principal && x.taken.profit == profit && x.taken.lateFee == lateFee
        && ((exists best :: LastAmong(b.rows, contract, day, None, best) && x.taken.provision == best.closing)
            || (NoneEligible(b.rows, contract, day, None) && x.taken.provision == 0))
  {
    hide Latest, LastAmong, NoneEligible;
    LatestFound(b.rows, contract, day);
  }

  // -------------------------------------------------------------------------
  // Requesting an override
  // -------------------------------------------------------------------------

  // What a parameter override names, parameter by parameter.
  predicate Names(v: OverrideValue, p: Parameter)
    requires v.Parameters?
  {
    match p
    case StageParameter => false
    case Pd12Parameter => v.pd12.Some?
    case LifetimeParameter => v.lifetime.Some?
    case LgdParameter => v.lgd.Some?
    case EadParameter => v.ead.Some?
    case RatingParameter => v.rating.Some?
  }

  lemma NamedIs(v: OverrideValue)
    requires v.Parameters?
    ensures forall p :: p in EclPreview.Named(v) <==> Names(v, p)
    ensures EclPreview.Named(v) == {} <==> forall p :: !Names(v, p)
  {
    forall p ensures p in EclPreview.Named(v) <==> Names(v, p) {
      match p {
        case StageParameter =>
        case Pd12Parameter =>
        case LifetimeParameter =>
        case LgdParameter =>
        case EadParameter =>
        case RatingParameter =>
      }
    }
  }

  ghost predicate Requestable(d: Desk, h: seq<Row>, rules: OverrideRules, contract: nat, v: OverrideValue, start: int, end: Option<int>, evidence: bool) {
    && (exists k :: 0 <= k < |h| && h[k].contract == contract)
    && (forall k :: 0 <= k < |d.overrides| && d.overrides[k].contract == contract ==> !d.overrides[k].status.Pending?)
    && (evidence || !rules.requireEvidence)
    && Latest(h, contract).Some? && Latest(h, contract).value.auto.methodology.ThreeStage?
    && (match v
        case StageValue(stage) => Latest(h, contract).value.auto.stage != Some(stage)
        case Parameters(_, _, _, _, _) =>
          && (exists p :: Names(v, p)) && (rules.permitted == {} || forall p :: Names(v, p) ==> p in rules.permitted))
    && (if end.Some? then start <= end.value else rules.validityDays >= 0)
  }

  lemma {:induction false} LatestExists(h: seq<Row>, contract: nat)
    ensures Latest(h, contract).Some? <==> exists k :: 0 <= k < |h| && h[k].contract == contract
  {
    if h != [] {
      var init := h[..|h| - 1];
      LatestExists(init, contract);
      assert forall k :: 0 <= k < |init| ==> init[k] == h[k];
    }
  }

  // When an override can be requested, and what the request then is: a pending override of the value asked
  // for, over the window asked for or the configured number of days, shown next to the latest automated loss.
  lemma RequestWhen(d: Desk, h: seq<Row>, rules: OverrideRules, contract: nat, v: OverrideValue, start: int, end: Option<int>, evidence: bool, user: nat)
    ensures var (after, outcome) := RequestOverride(d, h, rules, contract, v, start, end, evidence, user);
      && (outcome.Placed? <==> Requestable(d, h, rules, contract, v, start, end, evidence))
      && (outcome.Placed? ==>
           && Latest(h, contract).Some? && outcome.before == Latest(h, contract).value.auto.loss
           && d.overrides <= after.overrides && |after.overrides| == |d.overrides| + 1
           && var o := after.overrides[|d.overrides|];
             && o.contract == contract && o.value == v && o.status.Pending?
             && (forall day :: o.Covers(day) <==> start <= day <= if end.Some? then end.value else start + rules.validityDays))
  {
    hide Latest, ParameterPreview, StagePreview, EclPreview.Named, Place;
    LatestExists(h, contract);
    if v.Parameters? { NamedIs(v); }
    var until := if end.Some? then end.value else start + rules.validityDays;
    D.PlaceOutcome(d, contract, v, start, until, user);
  }

  // -------------------------------------------------------------------------
  // Curing from stage 2
  // -------------------------------------------------------------------------

  predicate TwoToOneMet(rule: CureRule, since: int, f: Facts, asOf: int) {
    f.dpd <= rule.maxDpd && PaymentsSince(f.paidOn, since) >= rule.minPayments && asOf - since >= rule.minDays
  }

  lemma PeakTwo(h: seq<Row>, contract: nat)
    requires StagesOk(h) && WasInStage(h, contract, 2) && !WasInStage(h, contract, 3)
    ensures var p := Peak(h, contract, StageOf); p.Some? && p.value.stage == 2 && FirstIn(h, contract, 2, p.value.since)
  {
    hide Peak;
    PeakSeen(h, contract, StageOf);
    PeakInRange(h, contract);
    PeakFirst(h, contract);
  }

  // A contract that has been in stage 2 but never in stage 3 goes where the rules put it, except that it
  // stays in stage 2 as long as curing is on and the 2-to-1 rule, counted from its first day there, is not
  // met.
  lemma CureFromTwo(before: seq<Visit>, v: Visit)
    requires var h := Grow([], before);
      Assess(h, v).Ok? && v.calibration.methodology.ThreeStage? && WasInStage(h, v.contract, 2) && !WasInStage(h, v.contract, 3)
    ensures var h, r, cure := Grow([], before), Assess(Grow([], before), v).value, v.calibration.cure;
      exists since :: FirstIn(h, v.contract, 2, since)
        && StageOf(r) == if RawOf(r) == 1 && cure.enabled && !TwoToOneMet(cure.twoToOne, since, v.facts, v.asOf) then 2 else RawOf(r)
  {
    hide Assess, RawOf, Peak, FirstIn, WasInStage, PaymentsSince;
    var h := Grow([], before);
    GrowStages([], before);
    PeakTwo(h, v.contract);
    RawIsStored(h, v);
    RawInRange(Assess(h, v).value);
    var since := Peak(h, v.contract, StageOf).value.since;
    assert FirstIn(h, v.contract, 2, since);
  }

  lemma NothingToCure(h: seq<Row>, v: Visit)
    requires Assess(h, v).Ok? && v.calibration.methodology.ThreeStage? && StagesOk(h)
    requires !WasInStage(h, v.contract, 2) && !WasInStage(h, v.contract, 3)
    ensures StageOf(Assess(h, v).value) == RawOf(Assess(h, v).value)
  {
    hide Assess, RawOf, Peak;
    PeakFirst(h, v.contract);
    PeakInRange(h, v.contract);
    RawIsStored(h, v);
    RawInRange(Assess(h, v).value);
  }
}
