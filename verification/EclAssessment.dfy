// One contract's assessment: app/services/ecl.py, _assess_one() and what it reads of the history.
// A history lists assessment rows in the order they were created.
module EclAssessment {
  import opened Options
  import opened Sums
  import opened EclModel
  import opened Overrides
  import M = Money

  // What the platform knows about a contract on the day: its score, exposure in cents, days past
  // due, risk indicators and the days payments were received on.
  datatype Facts = Facts(score: Option<int>, ead: int, dpd: int, signals: Signals, paidOn: seq<int>)

  datatype Automated = Automated(methodology: Methodology, rating: string, segment: string, originRating: string, originPd: real,
                                 ead: int, dpd: int, stage: Option<int>, pd12: Option<real>, lifetime: Option<real>, lgd: Option<real>,
                                 loss: int, triggers: seq<bool>, band: Option<DpdLabel>)

  datatype Final = Final(overrideId: Option<nat>, stage: Option<int>, pd12: Option<real>, lifetime: Option<real>, lgd: Option<real>,
                         ead: real, loss: int)

  datatype Movement = OverrideAdjustment | Created | Increased | Released | Unchanged

  datatype Row = Row(contract: nat, run: Option<nat>, asOf: int, version: nat, snapshot: Calibration, auto: Automated, final: Final,
                     opening: int, adjustment: int, closing: int, movement: Movement)

  // -------------------------------------------------------------------------
  // What an assessment reads of the history
  // -------------------------------------------------------------------------

  // The row with the earliest as-of date, the first created among equals.
  function Earliest(h: seq<Row>, contract: nat): Option<Row> {
    if h == [] then None
    else
      var best, last := Earliest(h[..|h| - 1], contract), h[|h| - 1];
      if last.contract == contract && (best.None? || last.asOf < best.value.asOf) then Some(last) else best
  }

  // The row with the latest as-of date up to `before`, the last created among equals.
  function Prior(h: seq<Row>, contract: nat, before: int, exclude: Option<nat>): Option<Row> {
    if h == [] then None
    else
      var best, last := Prior(h[..|h| - 1], contract, before, exclude), h[|h| - 1];
      if last.contract == contract && last.asOf <= before && (exclude.None? || last.run != exclude)
         && (best.None? || last.asOf >= best.value.asOf)
      then Some(last) else best
  }

  // latest_assessment(): newest as-of date, the last created among equals.
  function Latest(h: seq<Row>, contract: nat): Option<Row> {
    if h == [] then None
    else
      var best, last := Latest(h[..|h| - 1], contract), h[|h| - 1];
      if last.contract == contract && (best.None? || last.asOf >= best.value.asOf) then Some(last) else best
  }

  datatype Summit = Summit(stage: int, since: int)

  function Climb(best: Option<Summit>, stage: int, day: int): Option<Summit> {
    if best.None? || stage > best.value.stage then Some(Summit(stage, day))
    else if stage == best.value.stage then Some(Summit(stage, Min(best.value.since, day)))
    else best
  }

  // The highest stage among the contract's staged rows and the earliest day it was reached.
  function Peak(h: seq<Row>, contract: nat, stageOf: Row -> int): Option<Summit> {
    if h == [] then None
    else
      var best, last := Peak(h[..|h| - 1], contract, stageOf), h[|h| - 1];
      if last.contract == contract && last.auto.stage.Some? then Climb(best, stageOf(last), last.asOf) else best
  }

  function StageOf(r: Row): int { OrElse(r.auto.stage, 0) }

  function PaymentsSince(paidOn: seq<int>, day: int): nat {
    if paidOn == [] then 0
    else PaymentsSince(paidOn[..|paidOn| - 1], day) + if paidOn[|paidOn| - 1] > day then 1 else 0
  }

  // It counts the payments strictly after the day, and only those.
  lemma {:induction false} PaymentsCounted(paidOn: seq<int>, day: int)
    ensures PaymentsSince(paidOn, day) == |set i | 0 <= i < |paidOn| && paidOn[i] > day|
  {
    var all := set i | 0 <= i < |paidOn| && paidOn[i] > day;
    if paidOn == [] {
      assert all == {};
    } else {
      var init, n := paidOn[..|paidOn| - 1], |paidOn| - 1;
      PaymentsCounted(init, day);
      var before := set i | 0 <= i < |init| && init[i] > day;
      assert all == if paidOn[n] > day then before + {n} else before;
    }
  }

  // -------------------------------------------------------------------------
  // Curing
  // -------------------------------------------------------------------------

  // Which rule applies depends on the peak alone, not on how far down the raw stage is.
  predicate CureMet(rules: CureRules, peak: Summit, f: Facts, asOf: int) {
    var rule := if peak.stage == 3 then rules.threeToTwo else rules.twoToOne;
    f.dpd <= rule.maxDpd && PaymentsSince(f.paidOn, peak.since) >= rule.minPayments && asOf - peak.since >= rule.minDays
  }

  function Cured(rules: CureRules, peak: Option<Summit>, raw: int, f: Facts, asOf: int): int {
    if !rules.enabled || peak.None? || raw >= peak.value.stage then raw
    else if CureMet(rules, peak.value, f, asOf) then raw
    else Max(raw, peak.value.stage)
  }

  // -------------------------------------------------------------------------
  // The automated result
  // -------------------------------------------------------------------------

  datatype Origin = Origin(rating: string, pd: real)

  function OriginOf(h: seq<Row>, contract: nat, rating: string, pd: real): Origin {
    match Earliest(h, contract)
    case None => Origin(rating, pd)
    case Some(r) => Origin(if r.auto.originRating != "" then r.auto.originRating else r.auto.rating, r.auto.originPd)
  }

  function ContextOf(h: seq<Row>, contract: nat, f: Facts, rating: string, pd: real): Context {
    var o := OriginOf(h, contract, rating, pd);
    Context(f.dpd, pd, o.pd, rating, o.rating, f.signals)
  }

  function Staged(h: seq<Row>, contract: nat, asOf: int, c: Calibration, f: Facts, rating: string, segment: string, p: Pds, l: Lgds): Automated {
    var x := ContextOf(h, contract, f, rating, p.pd12);
    var stage := Cured(c.cure, Peak(h, contract, StageOf), RawStage(x, c), f, asOf);
    var lifetime := if stage == 3 then p.lifetime3 else p.lifetime;
    var lgd := if stage == 3 then l.lgd3 else l.lgd;
    Automated(ThreeStage, rating, segment, x.originRating, x.originPd, f.ead, f.dpd, Some(stage), Some(p.pd12), Some(lifetime), Some(lgd),
              ThreeStageLoss(f.ead as real, stage, p.pd12, lifetime, lgd), Fired(c.stage3Rules, x) + Fired(c.sicrRules, x), None)
  }

  function Unstaged(h: seq<Row>, contract: nat, c: Calibration, f: Facts, rating: string, segment: string, pd: real,
                    loss: int, band: Option<DpdLabel>): Automated {
    var o := OriginOf(h, contract, rating, pd);
    Automated(c.methodology, rating, segment, o.rating, o.pd, f.ead, f.dpd, None, None, None, None, loss, [], band)
  }

  function Automate(h: seq<Row>, contract: nat, asOf: int, c: Calibration, buckets: seq<Bucket>, f: Facts): Result<Automated> {
    var rating := RatingOf(f.score, c);
    var segment := SegmentOf(rating, c);
    var p, l := PdsOf(segment, c), LgdsOf(segment, c);
    if p.Misconfigured? || l.Misconfigured? then Misconfigured
    else
      match c.methodology
      case ThreeStage => Ok(Staged(h, contract, asOf, c, f, rating, segment, p.value, l.value))
      case SimplifiedLifetime =>
        Ok(Unstaged(h, contract, c, f, rating, segment, p.value.pd12, M.Times(f.ead, c.lossRate), None))
      case DpdBanded =>
        if f.dpd > 0 && buckets == [] then Misconfigured
        else
          var band := LabelOf(f.dpd, buckets);
          if band !in c.bandPct then Misconfigured
          else Ok(Unstaged(h, contract, c, f, rating, segment, p.value.pd12, M.Times(f.ead, c.bandPct[band]), Some(band)))
  }

  // -------------------------------------------------------------------------
  // The override on top, and the provision
  // -------------------------------------------------------------------------

  function StageUnder(v: OverrideValue, automated: Option<int>): Option<int> { if v.StageValue? then Some(v.stage) else automated }
  function Pd12Under(v: OverrideValue): Option<real> { if v.Parameters? then v.pd12 else None }
  function LifetimeUnder(v: OverrideValue): Option<real> { if v.Parameters? then v.lifetime else None }
  function LgdUnder(v: OverrideValue): Option<real> { if v.Parameters? then v.lgd else None }
  function EadUnder(v: OverrideValue): Option<real> { if v.Parameters? then v.ead else None }

  function Finalize(a: Automated, id: Option<nat>, v: OverrideValue, p: Pds): Final {
    var stage := StageUnder(v, a.stage);
    var pd12 := if Pd12Under(v).Some? then Pd12Under(v) else a.pd12;
    var lgd := if LgdUnder(v).Some? then LgdUnder(v) else a.lgd;
    var ead := OrElse(EadUnder(v), a.ead as real);
    if a.methodology.ThreeStage? then
      var lifetime := OrElse(LifetimeUnder(v), if stage == Some(3) then p.lifetime3 else p.lifetime);
      var effective := if OrElse(stage, 0) == 0 then 1 else stage.value;
      Final(id, stage, pd12, Some(lifetime), lgd, ead, ThreeStageLoss(ead, effective, OrElse(pd12, 0.0), lifetime, OrElse(lgd, 0.0)))
    else Final(id, stage, pd12, None, lgd, ead, a.loss)
  }

  function MovementOf(opening: int, adjustment: int, closing: int): Movement {
    if adjustment != 0 then OverrideAdjustment
    else if opening == 0 && closing > 0 then Created
    else if closing > opening then Increased
    else if closing < opening then Released
    else Unchanged
  }

  // One visit: everything _assess_one() is given for a contract, the overrides included.
  datatype Visit = Visit(contract: nat, run: Option<nat>, asOf: int, version: nat, calibration: Calibration, buckets: seq<Bucket>,
                         facts: Facts, overrides: seq<Override>)

  function GoverningIn(v: Visit): (g: Option<nat>)
    ensures g.Some? ==> g.value < |v.overrides|
  {
    GoverningFound(v.overrides, v.contract, v.asOf);
    Governing(v.overrides, v.contract, v.asOf)
  }

  function ValueIn(v: Visit): OverrideValue {
    var g := GoverningIn(v);
    if g.Some? then v.overrides[g.value].value else Parameters(None, None, None, None, None)
  }

  function OpeningOf(h: seq<Row>, v: Visit): int {
    match Prior(h, v.contract, v.asOf, v.run)
    case None => 0
    case Some(r) => r.closing
  }

  function RowOf(h: seq<Row>, v: Visit, a: Automated, p: Pds): Row {
    var final := Finalize(a, GoverningIn(v), ValueIn(v), p);
    var opening := OpeningOf(h, v);
    Row(v.contract, v.run, v.asOf, v.version, v.calibration, a, final, opening, final.loss - a.loss, final.loss,
        MovementOf(opening, final.loss - a.loss, final.loss))
  }

  function Assess(h: seq<Row>, v: Visit): Result<Row> {
    match Automate(h, v.contract, v.asOf, v.calibration, v.buckets, v.facts)
    case Misconfigured => Misconfigured
    case Ok(a) =>
      var p := PdsOf(SegmentOf(RatingOf(v.facts.score, v.calibration), v.calibration), v.calibration);
      if p.Misconfigured? then Misconfigured else Ok(RowOf(h, v, a, p.value))
  }

  // A history grown by a list of visits; a visit the calibration cannot serve adds nothing.
  function Grow(h: seq<Row>, visits: seq<Visit>): seq<Row>
    decreases |visits|
  {
    if visits == [] then h
    else
      match Assess(h, visits[0])
      case Misconfigured => Grow(h, visits[1..])
      case Ok(r) => Grow(h + [r], visits[1..])
  }

  // -------------------------------------------------------------------------
  // Overrides never interfere with the automated result
  // -------------------------------------------------------------------------

  // The same row as far as anything automated goes.
  predicate SameAutomation(r: Row, s: Row) {
    && r.contract == s.contract && r.run == s.run && r.asOf == s.asOf && r.version == s.version && r.snapshot == s.snapshot
    && r.auto == s.auto
  }

  predicate Alike(h: seq<Row>, g: seq<Row>) {
    |h| == |g| && forall k :: 0 <= k < |h| ==> SameAutomation(h[k], g[k])
  }

  lemma {:induction false} AlikeEarliest(h: seq<Row>, g: seq<Row>, contract: nat)
    requires Alike(h, g)
    ensures Earliest(h, contract).Some? <==> Earliest(g, contract).Some?
    ensures Earliest(h, contract).Some? ==> SameAutomation(Earliest(h, contract).value, Earliest(g, contract).value)
  {
    if h != [] {
      assert SameAutomation(h[|h| - 1], g[|g| - 1]);
      AlikeEarliest(h[..|h| - 1], g[..|g| - 1], contract);
    }
  }

  lemma {:induction false} AlikePeak(h: seq<Row>, g: seq<Row>, contract: nat)
    requires Alike(h, g)
    ensures Peak(h, contract, StageOf) == Peak(g, contract, StageOf)
  {
    if h != [] {
      assert SameAutomation(h[|h| - 1], g[|g| - 1]);
      AlikePeak(h[..|h| - 1], g[..|g| - 1], contract);
    }
  }

  lemma AlikeAutomation(h: seq<Row>, g: seq<Row>, contract: nat, asOf: int, c: Calibration, buckets: seq<Bucket>, f: Facts)
    requires Alike(h, g)
    ensures Automate(h, contract, asOf, c, buckets, f) == Automate(g, contract, asOf, c, buckets, f)
  {
    hide RawStage, Cured, Fired, ThreeStageLoss, RatingOf, SegmentOf, PdsOf, LgdsOf, LabelOf, Peak, Earliest;
    AlikeEarliest(h, g, contract);
    AlikePeak(h, g, contract);
  }

  lemma AlikeAppend(h: seq<Row>, g: seq<Row>, r: Row, s: Row)
    requires Alike(h, g) && SameAutomation(r, s)
    ensures Alike(h + [r], g + [s])
  {
  }

  // Two visits that may differ in the overrides in force, and in nothing else.
  predicate SameBarOverrides(v: Visit, w: Visit) { w == v.(overrides := w.overrides) }

  // Whatever is overridden, whenever: every automated stage, PD, LGD, loss, trigger and
  // origination value of every row is what it would have been without the overrides.
  lemma {:induction false} OverridesDoNotInterfere(h: seq<Row>, g: seq<Row>, vs: seq<Visit>, ws: seq<Visit>)
    requires Alike(h, g) && |vs| == |ws| && forall k :: 0 <= k < |vs| ==> SameBarOverrides(vs[k], ws[k])
    ensures Alike(Grow(h, vs), Grow(g, ws))
    decreases |vs|
  {
    if vs != [] {
      var v, w := vs[0], ws[0];
      assert SameBarOverrides(v, w);
      AlikeAutomation(h, g, v.contract, v.asOf, v.calibration, v.buckets, v.facts);
      if Assess(h, v).Ok? {
        AlikeAppend(h, g, Assess(h, v).value, Assess(g, w).value);
        OverridesDoNotInterfere(h + [Assess(h, v).value], g + [Assess(g, w).value], vs[1..], ws[1..]);
      } else {
        OverridesDoNotInterfere(h, g, vs[1..], ws[1..]);
      }
    }
  }

  // With no override in force the recomputed final result is the automated one.
  lemma NothingGoverns(h: seq<Row>, v: Visit)
    requires Assess(h, v).Ok? && (forall k :: 0 <= k < |v.overrides| ==> !InForce(v.overrides[k], v.contract, v.asOf))
    ensures var r := Assess(h, v).value;
      && r.adjustment == 0 && r.closing == r.auto.loss && r.movement != OverrideAdjustment
      && r.final == Final(None, r.auto.stage, r.auto.pd12, r.auto.lifetime, r.auto.lgd, r.auto.ead as real, r.auto.loss)
  {
    GoverningFound(v.overrides, v.contract, v.asOf);
    StagesInRange(h, v);
  }

  // An automated stage is 1, 2 or 3 as long as those before it are.
  predicate StagesOk(h: seq<Row>) {
    forall k :: 0 <= k < |h| && h[k].auto.stage.Some? ==> 1 <= h[k].auto.stage.value <= 3
  }

  lemma {:induction false} PeakInRange(h: seq<Row>, contract: nat)
    requires StagesOk(h)
    ensures Peak(h, contract, StageOf).Some? ==> 1 <= Peak(h, contract, StageOf).value.stage <= 3
  {
    if h != [] {
      PeakInRange(h[..|h| - 1], contract);
    }
  }

  lemma StagesInRange(h: seq<Row>, v: Visit)
    ensures Assess(h, v).Ok? ==> var a := Assess(h, v).value.auto;
      && (a.stage.Some? <==> a.methodology.ThreeStage?)
      && (a.stage.Some? ==> a.stage.value >= 1)
      && (StagesOk(h) && a.stage.Some? ==> a.stage.value <= 3)
  {
    if StagesOk(h) {
      PeakInRange(h, v.contract);
    }
  }
}
