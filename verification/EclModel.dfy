// The expected-credit-loss calibration and the three pure engines that read it:
// app/services/ecl_risk.py, app/services/ecl_stage.py and app/services/ecl_engine.py.
module EclModel {
  import opened Options
  import opened Sums
  import M = Money

  // A ValueError raised for a calibration that lacks an entry.
  datatype Result<T> = Ok(value: T) | Misconfigured

  datatype Methodology = ThreeStage | SimplifiedLifetime | DpdBanded

  datatype Band = Band(least: int, most: int, rating: string) {
    predicate Holds(score: int) { least <= score <= most }
  }

  datatype PdRow = PdRow(pd12: real, lifetime: real, lifetime3: Option<real>)

  datatype LgdRow = LgdRow(lgd: real, lgd3: Option<real>)

  datatype FlagSource = OpenCollectionsCase | BrokenPromise | Forbearance | CreditImpaired | UnlikelyToPay | UnknownSource

  datatype Signals = Signals(openCase: bool, brokenPromise: bool, forbearance: bool, impaired: bool, unlikely: bool) {
    predicate Has(source: FlagSource) {
      match source
      case OpenCollectionsCase => openCase
      case BrokenPromise => brokenPromise
      case Forbearance => forbearance
      case CreditImpaired => impaired
      case UnlikelyToPay => unlikely
      case UnknownSource => false
    }
  }

  datatype Rule = DpdAtLeast(threshold: int) | Flag(source: FlagSource) | PdRatioAtLeast(ratio: real) | NotchesAtLeast(notches: int) | UnknownRule

  datatype CureRule = CureRule(minPayments: int, maxDpd: int, minDays: int)

  datatype CureRules = CureRules(enabled: bool, threeToTwo: CureRule, twoToOne: CureRule)

  datatype Parameter = StageParameter | Pd12Parameter | LifetimeParameter | LgdParameter | EadParameter | RatingParameter

  datatype OverrideRules = OverrideRules(permitted: set<Parameter>, validityDays: int, reviewDays: int, requireEvidence: bool)

  // The values one configuration version fixes; all but the accounting mapping go into a snapshot.
  datatype Calibration = Calibration(
    methodology: Methodology, ratings: seq<Band>, segments: map<string, string>,
    pds: map<string, PdRow>, lgds: map<string, LgdRow>,
    stage3Rules: seq<Rule>, sicrRules: seq<Rule>, cure: CureRules, overrides: OverrideRules,
    bandPct: map<DpdLabel, real>, lossRate: real)

  // -------------------------------------------------------------------------
  // ecl_risk.py
  // -------------------------------------------------------------------------

  const UNRATED := "UNRATED"
  const RETAIL_UNRATED := "retail_unrated"
  const DEFAULT_LGD := "_default"

  function FirstBand(bands: seq<Band>, score: int): string {
    if bands == [] then UNRATED
    else if bands[0].Holds(score) then bands[0].rating
    else FirstBand(bands[1..], score)
  }

  function RatingOf(score: Option<int>, c: Calibration): string {
    if score.None? then UNRATED else FirstBand(c.ratings, score.value)
  }

  // Band k is the first to hold the score, and its rating is the one given.
  predicate Rates(bands: seq<Band>, score: int, k: nat)
    requires k < |bands|
  {
    bands[k].Holds(score) && FirstBand(bands, score) == bands[k].rating && forall j :: 0 <= j < k ==> !bands[j].Holds(score)
  }

  // The rating of the first band that holds the score; without one the customer is unrated.
  lemma {:induction false} RatingFound(bands: seq<Band>, score: int)
    ensures (exists k :: 0 <= k < |bands| && Rates(bands, score, k))
      || (FirstBand(bands, score) == UNRATED && forall k :: 0 <= k < |bands| ==> !bands[k].Holds(score))
  {
    if bands == [] {
    } else if bands[0].Holds(score) {
      assert Rates(bands, score, 0);
    } else {
      var rest := bands[1..];
      RatingFound(rest, score);
      assert forall j :: 0 < j < |bands| ==> bands[j] == rest[j - 1];
      if exists k :: 0 <= k < |rest| && Rates(rest, score, k) {
        var k :| 0 <= k < |rest| && Rates(rest, score, k);
        assert Rates(bands, score, k + 1);
      }
    }
  }

  function SegmentOf(rating: string, c: Calibration): string {
    if rating in c.segments && c.segments[rating] != "" then c.segments[rating]
    else if UNRATED in c.segments then c.segments[UNRATED] else RETAIL_UNRATED
  }

  datatype Pds = Pds(pd12: real, lifetime: real, lifetime3: real)

  datatype Lgds = Lgds(lgd: real, lgd3: real)

  function OrElse<T>(o: Option<T>, default: T): T { if o.Some? then o.value else default }

  function PdsOfRow(row: PdRow): Pds { Pds(row.pd12, row.lifetime, OrElse(row.lifetime3, row.lifetime)) }

  function LgdsOfRow(row: LgdRow): Lgds { Lgds(row.lgd, OrElse(row.lgd3, row.lgd)) }

  function PdsOf(segment: string, c: Calibration): Result<Pds> {
    if segment in c.pds then Ok(PdsOfRow(c.pds[segment]))
    else if RETAIL_UNRATED in c.pds then Ok(PdsOfRow(c.pds[RETAIL_UNRATED]))
    else Misconfigured
  }

  function LgdsOf(segment: string, c: Calibration): Result<Lgds> {
    if segment in c.lgds then Ok(LgdsOfRow(c.lgds[segment]))
    else if DEFAULT_LGD in c.lgds then Ok(LgdsOfRow(c.lgds[DEFAULT_LGD]))
    else Misconfigured
  }

  // A grade's place from best to worst; anything unknown ranks after the worst grade.
  function Grade(rating: string): nat {
    match rating
    case "A" => 0
    case "B" => 1
    case "C" => 2
    case "D" => 3
    case "E" => 4
    case _ => 5
  }

  function Notches(origin: string, current: string): int { Grade(current) - Grade(origin) }

  // -------------------------------------------------------------------------
  // ecl_stage.py
  // -------------------------------------------------------------------------

  datatype Context = Context(dpd: int, pd: real, originPd: real, rating: string, originRating: string, signals: Signals)

  predicate Fires(rule: Rule, x: Context) {
    match rule
    case DpdAtLeast(threshold) => x.dpd >= threshold
    case Flag(source) => x.signals.Has(source)
    case PdRatioAtLeast(ratio) => x.pd != 0.0 && x.originPd > 0.0 && x.pd / x.originPd >= ratio
    case NotchesAtLeast(notches) => x.rating != "" && x.originRating != "" && Notches(x.originRating, x.rating) >= notches
    case UnknownRule => false
  }

  function Fired(rules: seq<Rule>, x: Context): (hits: seq<bool>)
    ensures |hits| == |rules| && forall k :: 0 <= k < |rules| ==> hits[k] == Fires(rules[k], x)
  {
    seq(|rules|, k requires 0 <= k < |rules| => Fires(rules[k], x))
  }

  predicate AnyFires(rules: seq<Rule>, x: Context) {
    exists k :: 0 <= k < |rules| && Fires(rules[k], x)
  }

  function RawStage(x: Context, c: Calibration): (stage: int)
    ensures 1 <= stage <= 3
  {
    if AnyFires(c.stage3Rules, x) then 3 else if AnyFires(c.sicrRules, x) then 2 else 1
  }

  // A current rating no better than another: the same, or a named one further down.
  predicate NoBetter(before: string, now: string) { now == before || (now != "" && Grade(before) <= Grade(now)) }

  // Worse on days past due, on flags, on the current PD or on the current rating; the same origin.
  predicate Worse(x: Context, y: Context) {
    && x.dpd <= y.dpd
    && (forall s: FlagSource :: x.signals.Has(s) ==> y.signals.Has(s))
    && (x.pd == y.pd || 0.0 <= x.pd <= y.pd) && NoBetter(x.rating, y.rating)
    && y == x.(dpd := y.dpd, signals := y.signals, pd := y.pd, rating := y.rating)
  }

  // More days past due, more flags, a higher PD or a worse rating never lower the raw stage, whatever
  // the rules.
  lemma RawStageMonotone(x: Context, y: Context, c: Calibration)
    requires Worse(x, y)
    ensures RawStage(x, c) <= RawStage(y, c)
  {
    if AnyFires(c.stage3Rules, x) { MoreFire(c.stage3Rules, x, y); }
    if AnyFires(c.sicrRules, x) { MoreFire(c.sicrRules, x, y); }
  }

  lemma RatioGrows(pd: real, higher: real, origin: real)
    requires 0.0 <= pd <= higher && origin > 0.0
    ensures pd / origin <= higher / origin
  {
    var r := 1.0 / origin;
    assert pd / origin == r * pd && higher / origin == r * higher;
    M.ScaleMonotone(r, pd, higher);
  }

  lemma StillFires(rule: Rule, x: Context, y: Context)
    requires Worse(x, y) && Fires(rule, x)
    ensures Fires(rule, y)
  {
    hide Grade;
    if rule.PdRatioAtLeast? && x.pd != y.pd {
      RatioGrows(x.pd, y.pd, x.originPd);
    }
  }

  lemma MoreFire(rules: seq<Rule>, x: Context, y: Context)
    requires Worse(x, y) && AnyFires(rules, x)
    ensures AnyFires(rules, y)
  {
    var k :| 0 <= k < |rules| && Fires(rules[k], x);
    StillFires(rules[k], x, y);
  }

  // -------------------------------------------------------------------------
  // ecl_engine.py
  // -------------------------------------------------------------------------

  // EAD may be an overridden amount, so it need not be whole cents.
  function Loss(ead: real, pd: real, lgd: real): int { M.RoundHalfUp(ead * pd * lgd) }

  function ThreeStageLoss(ead: real, stage: int, pd12: real, lifetime: real, lgd: real): int {
    Loss(ead, if stage == 1 then pd12 else lifetime, lgd)
  }

  datatype DpdLabel = Current | Range(least: int, most: int) | From(least: int)

  datatype Bucket = Bucket(least: int, most: Option<int>) {
    function Label(): DpdLabel { if most.None? then From(least) else Range(least, most.value) }
    predicate Holds(dpd: int) { dpd >= least && (most.None? || dpd <= most.value) }
  }

  // The first bucket that holds the days past due, or the last bucket.
  function LabelOf(dpd: int, buckets: seq<Bucket>): DpdLabel
    requires dpd <= 0 || buckets != []
  {
    if dpd <= 0 then Current
    else if buckets[0].Holds(dpd) || |buckets| == 1 then buckets[0].Label()
    else LabelOf(dpd, buckets[1..])
  }

  predicate Labels(dpd: int, buckets: seq<Bucket>, k: nat)
    requires dpd > 0 && k < |buckets|
  {
    && LabelOf(dpd, buckets) == buckets[k].Label()
    && (forall j :: 0 <= j < k ==> !buckets[j].Holds(dpd)) && (buckets[k].Holds(dpd) || k == |buckets| - 1)
  }

  // Past-due days carry the label of the first bucket that holds them, or of the last bucket.
  lemma {:induction false} LabelFound(dpd: int, buckets: seq<Bucket>)
    requires dpd > 0 && buckets != []
    ensures exists k :: 0 <= k < |buckets| && Labels(dpd, buckets, k)
  {
    if buckets[0].Holds(dpd) || |buckets| == 1 {
      assert Labels(dpd, buckets, 0);
    } else {
      var rest := buckets[1..];
      LabelFound(dpd, rest);
      var k :| 0 <= k < |rest| && Labels(dpd, rest, k);
      assert buckets[k + 1] == rest[k];
      forall j | 0 <= j < k + 1 ensures !buckets[j].Holds(dpd) {
        if j > 0 { assert buckets[j] == rest[j - 1]; }
      }
      assert Labels(dpd, buckets, k + 1);
    }
  }

  // dpd_band_label()
  method FindLabel(dpd: int, buckets: seq<Bucket>) returns (band: DpdLabel)
    requires dpd <= 0 || buckets != []
    ensures band == LabelOf(dpd, buckets)
  {
    if dpd <= 0 {
      return Current;
    }
    for k := 0 to |buckets|
      invariant k < |buckets| ==> LabelOf(dpd, buckets) == LabelOf(dpd, buckets[k..])
      invariant k == |buckets| ==> LabelOf(dpd, buckets) == buckets[|buckets| - 1].Label()
    {
      assert buckets[k..][1..] == buckets[k + 1..];
      if buckets[k].Holds(dpd) {
        return buckets[k].Label();
      }
    }
    return buckets[|buckets| - 1].Label();
  }

  // -------------------------------------------------------------------------
  // What a calibration provides stage by stage
  // -------------------------------------------------------------------------

  function StagePd(p: Pds, stage: int): real { if stage == 1 then p.pd12 else if stage == 3 then p.lifetime3 else p.lifetime }

  function StageLgd(l: Lgds, stage: int): real { if stage == 3 then l.lgd3 else l.lgd }

  function StageRate(p: Pds, l: Lgds, stage: int): real { StagePd(p, stage) * StageLgd(l, stage) }

  function StageLoss(ead: int, p: Pds, l: Lgds, stage: int): int { Loss(ead as real, StagePd(p, stage), StageLgd(l, stage)) }

  predicate Ordered(p: Pds, l: Lgds) {
    StageRate(p, l, 1) <= StageRate(p, l, 2) <= StageRate(p, l, 3)
  }

  predicate Fractions(p: Pds, l: Lgds) {
    && 0.0 <= p.pd12 <= 1.0 && 0.0 <= p.lifetime <= 1.0 && 0.0 <= p.lifetime3 <= 1.0
    && 0.0 <= l.lgd <= 1.0 && 0.0 <= l.lgd3 <= 1.0
  }

  lemma StageLossIsRate(ead: int, p: Pds, l: Lgds, stage: int)
    ensures StageLoss(ead, p, l, stage) == M.Times(ead, StageRate(p, l, stage))
  {
    hide StagePd, StageLgd, M.RoundHalfUp;
    Associate(ead as real, StagePd(p, stage), StageLgd(l, stage));
  }

  lemma Associate(x: real, y: real, z: real)
    ensures x * y * z == x * (y * z)
  {
  }

  // A worse stage costs at least as much on every exposure exactly when the rates are ordered.
  lemma WorseStageCostsMore(p: Pds, l: Lgds)
    ensures (forall ead: nat, s: int, t: int :: 1 <= s <= t <= 3 ==> StageLoss(ead, p, l, s) <= StageLoss(ead, p, l, t))
      <==> Ordered(p, l)
  {
    if Ordered(p, l) {
      forall ead: nat, s: int, t: int | 1 <= s <= t <= 3 ensures StageLoss(ead, p, l, s) <= StageLoss(ead, p, l, t) {
        StageLossIsRate(ead, p, l, s);
        StageLossIsRate(ead, p, l, t);
        M.TimesMonotone(ead, StageRate(p, l, s), StageRate(p, l, t));
      }
    } else {
      var s := if StageRate(p, l, 1) > StageRate(p, l, 2) then 1 else 2;
      M.RateOrder(StageRate(p, l, s), StageRate(p, l, s + 1));
      var ead: nat :| M.Times(ead, StageRate(p, l, s)) > M.Times(ead, StageRate(p, l, s + 1));
      StageLossIsRate(ead, p, l, s);
      StageLossIsRate(ead, p, l, s + 1);
    }
  }

  // A provision is never negative and never exceeds the exposure.
  lemma LossWithinExposure(ead: nat, p: Pds, l: Lgds, stage: int)
    requires Fractions(p, l)
    ensures 0 <= StageLoss(ead, p, l, stage) <= ead
  {
    StageLossIsRate(ead, p, l, stage);
    ProductOfFractions(StagePd(p, stage), StageLgd(l, stage));
    M.TimesShare(ead, StageRate(p, l, stage));
  }

  lemma ProductOfFractions(x: real, y: real)
    requires 0.0 <= x <= 1.0 && 0.0 <= y <= 1.0
    ensures 0.0 <= x * y <= 1.0
  {
    Between(x, y, x * y);
  }

  lemma Between(x: real, y: real, z: real)
    requires 0.0 <= x && 0.0 <= y <= 1.0 && z == x * y
    ensures 0.0 <= z <= x
  {
    M.ScaleMonotone(x, 0.0, y);
    M.ScaleMonotone(x, y, 1.0);
  }

  // -------------------------------------------------------------------------
  // The shipped calibration
  // -------------------------------------------------------------------------

  const PLACEHOLDER: Calibration := Calibration(
    ThreeStage,
    [Band(750, 1000, "A"), Band(700, 749, "B"), Band(650, 699, "C"), Band(600, 649, "D"), Band(0, 599, "E")],
    map["A" := "retail_prime", "B" := "retail_prime", "C" := "retail_standard", "D" := "retail_subprime",
        "E" := "retail_subprime", "UNRATED" := "retail_unrated"],
    map["retail_prime" := PdRow(0.02, 0.12, Some(0.45)), "retail_standard" := PdRow(0.04, 0.18, Some(0.55)),
        "retail_subprime" := PdRow(0.09, 0.30, Some(0.70)), "retail_unrated" := PdRow(0.05, 0.20, Some(0.55))],
    map["_default" := LgdRow(0.40, Some(0.50)), "retail_prime" := LgdRow(0.40, Some(0.50)),
        "retail_standard" := LgdRow(0.45, Some(0.55)), "retail_subprime" := LgdRow(0.55, Some(0.65)),
        "retail_unrated" := LgdRow(0.45, Some(0.55))],
    [DpdAtLeast(90), Flag(BrokenPromise), Flag(CreditImpaired)],
    [DpdAtLeast(30), Flag(OpenCollectionsCase), PdRatioAtLeast(2.0), NotchesAtLeast(2), Flag(Forbearance)],
    CureRules(true, CureRule(3, 0, 90), CureRule(3, 0, 30)),
    OverrideRules({StageParameter, Pd12Parameter, LifetimeParameter, LgdParameter, EadParameter, RatingParameter}, 90, 90, true),
    map[Current := 0.005, Range(1, 30) := 0.03, Range(31, 60) := 0.15, Range(61, 90) := 0.40, From(91) := 0.75],
    0.10)

  predicate OneOf(p: Pds, l: Lgds) {
    || (p == Pds(0.02, 0.12, 0.45) && l == Lgds(0.40, 0.50))
    || (p == Pds(0.04, 0.18, 0.55) && l == Lgds(0.45, 0.55))
    || (p == Pds(0.09, 0.30, 0.70) && l == Lgds(0.55, 0.65))
    || (p == Pds(0.05, 0.20, 0.55) && (l == Lgds(0.45, 0.55) || l == Lgds(0.40, 0.50)))
  }

  lemma PlaceholderRows(segment: string)
    ensures PdsOf(segment, PLACEHOLDER).Ok? && LgdsOf(segment, PLACEHOLDER).Ok?
    ensures OneOf(PdsOf(segment, PLACEHOLDER).value, LgdsOf(segment, PLACEHOLDER).value)
  {
    assert RETAIL_UNRATED in PLACEHOLDER.pds && DEFAULT_LGD in PLACEHOLDER.lgds;
    if segment == "retail_prime" {
    } else if segment == "retail_standard" {
    } else if segment == "retail_subprime" {
    } else if segment == "retail_unrated" {
    } else {
      assert segment !in PLACEHOLDER.pds;
    }
  }

  lemma OneOfOrdered(p: Pds, l: Lgds)
    requires OneOf(p, l)
    ensures Ordered(p, l) && Fractions(p, l)
  {
  }

  // Every segment of the shipped calibration is complete, ordered and made of fractions.
  lemma PlaceholderOrdered(segment: string)
    ensures PdsOf(segment, PLACEHOLDER).Ok? && LgdsOf(segment, PLACEHOLDER).Ok?
    ensures var p, l := PdsOf(segment, PLACEHOLDER).value, LgdsOf(segment, PLACEHOLDER).value; Ordered(p, l) && Fractions(p, l)
  {
    hide *;
    PlaceholderRows(segment);
    OneOfOrdered(PdsOf(segment, PLACEHOLDER).value, LgdsOf(segment, PLACEHOLDER).value);
  }

  // The rates of the shipped calibration, straight from the score.
  predicate RatesAt(score: Option<int>, p: Pds, l: Lgds) {
    if score.Some? && 700 <= score.value <= 1000 then p == Pds(0.02, 0.12, 0.45) && l == Lgds(0.40, 0.50)
    else if score.Some? && 650 <= score.value < 700 then p == Pds(0.04, 0.18, 0.55) && l == Lgds(0.45, 0.55)
    else if score.Some? && 0 <= score.value < 650 then p == Pds(0.09, 0.30, 0.70) && l == Lgds(0.55, 0.65)
    else p == Pds(0.05, 0.20, 0.55) && l == Lgds(0.45, 0.55)
  }

  lemma ShippedBands(score: int)
    ensures FirstBand(PLACEHOLDER.ratings, score) ==
      if 750 <= score <= 1000 then "A" else if 700 <= score < 750 then "B" else if 650 <= score < 700 then "C"
      else if 600 <= score < 650 then "D" else if 0 <= score < 600 then "E" else UNRATED
  {
    var bands := PLACEHOLDER.ratings;
    assert |bands| == 5;
    RatingFound(bands, score);
    if exists k :: 0 <= k < |bands| && Rates(bands, score, k) {
      var k :| 0 <= k < |bands| && Rates(bands, score, k);
      assert k == 0 || k == 1 || k == 2 || k == 3 || k == 4;
    } else {
      assert !bands[0].Holds(score) && !bands[1].Holds(score) && !bands[2].Holds(score) && !bands[3].Holds(score) && !bands[4].Holds(score);
    }
  }

  lemma ShippedSegments(rating: string)
    requires rating in ["A", "B", "C", "D", "E", UNRATED]
    ensures SegmentOf(rating, PLACEHOLDER) ==
      if rating == "A" || rating == "B" then "retail_prime" else if rating == "C" then "retail_standard"
      else if rating == UNRATED then "retail_unrated" else "retail_subprime"
  {
  }

  lemma ShippedRows(segment: string)
    requires segment in ["retail_prime", "retail_standard", "retail_subprime", "retail_unrated"]
    ensures PdsOf(segment, PLACEHOLDER).Ok? && LgdsOf(segment, PLACEHOLDER).Ok?
    ensures var p, l := PdsOf(segment, PLACEHOLDER).value, LgdsOf(segment, PLACEHOLDER).value;
      if segment == "retail_prime" then p == Pds(0.02, 0.12, 0.45) && l == Lgds(0.40, 0.50)
      else if segment == "retail_standard" then p == Pds(0.04, 0.18, 0.55) && l == Lgds(0.45, 0.55)
      else if segment == "retail_subprime" then p == Pds(0.09, 0.30, 0.70) && l == Lgds(0.55, 0.65)
      else p == Pds(0.05, 0.20, 0.55) && l == Lgds(0.45, 0.55)
  {
    if segment == "retail_prime" {
    } else if segment == "retail_standard" {
    } else if segment == "retail_subprime" {
    }
  }

  lemma ShippedRates(score: Option<int>)
    ensures var segment := SegmentOf(RatingOf(score, PLACEHOLDER), PLACEHOLDER);
      && PdsOf(segment, PLACEHOLDER).Ok? && LgdsOf(segment, PLACEHOLDER).Ok?
      && RatesAt(score, PdsOf(segment, PLACEHOLDER).value, LgdsOf(segment, PLACEHOLDER).value)
  {
    hide FirstBand, SegmentOf, PdsOf, LgdsOf, PLACEHOLDER;
    if score.Some? { ShippedBands(score.value); }
    ShippedSegments(RatingOf(score, PLACEHOLDER));
    ShippedRows(SegmentOf(RatingOf(score, PLACEHOLDER), PLACEHOLDER));
  }

  // -------------------------------------------------------------------------
  // The shipped stage rules
  // -------------------------------------------------------------------------

  // From one named grade to another at least two further down; a grade outside the scale ranks below E.
  predicate TwoDown(origin: string, now: string) {
    now != "" && (
      || (origin == "A" && now != "A" && now != "B")
      || (origin == "B" && now != "A" && now != "B" && now != "C")
      || (origin == "C" && now != "A" && now != "B" && now != "C" && now != "D")
      || (origin == "D" && now != "A" && now != "B" && now != "C" && now != "D" && now != "E"))
  }

  lemma NotchesDown(origin: string, now: string)
    ensures origin != "" && now != "" && Notches(origin, now) >= 2 <==> TwoDown(origin, now)
  {
  }

  lemma RatioIsMultiple(pd: real, origin: real, k: real)
    requires origin > 0.0
    ensures pd / origin >= k <==> pd >= k * origin
  {
    var q := pd / origin;
    assert q * origin == pd;
    if q >= k {
      M.ScaleMonotone(origin, k, q);
    } else {
      M.Positive(origin, k - q);
      assert origin * (k - q) == origin * k - origin * q;
    }
  }

  lemma PdDoubled(x: Context)
    ensures Fires(PdRatioAtLeast(2.0), x) <==> x.originPd > 0.0 && x.pd >= 2.0 * x.originPd
  {
    if x.originPd > 0.0 {
      RatioIsMultiple(x.pd, x.originPd, 2.0);
    }
  }

  lemma ThirdRules(x: Context)
    ensures AnyFires(PLACEHOLDER.stage3Rules, x) <==> x.dpd >= 90 || x.signals.brokenPromise || x.signals.impaired
  {
    var rules := PLACEHOLDER.stage3Rules;
    assert |rules| == 3;
    assert Fires(rules[0], x) <==> x.dpd >= 90;
    assert Fires(rules[1], x) <==> x.signals.brokenPromise;
    assert Fires(rules[2], x) <==> x.signals.impaired;
  }

  lemma SecondRules(x: Context)
    ensures AnyFires(PLACEHOLDER.sicrRules, x) <==>
      || x.dpd >= 30 || x.signals.openCase || x.signals.forbearance
      || (x.originPd > 0.0 && x.pd >= 2.0 * x.originPd) || TwoDown(x.originRating, x.rating)
  {
    hide TwoDown, Notches;
    var rules := PLACEHOLDER.sicrRules;
    assert |rules| == 5;
    PdDoubled(x);
    NotchesDown(x.originRating, x.rating);
    assert Fires(rules[0], x) <==> x.dpd >= 30;
    assert Fires(rules[1], x) <==> x.signals.openCase;
    assert Fires(rules[2], x) <==> x.originPd > 0.0 && x.pd >= 2.0 * x.originPd;
    assert Fires(rules[3], x) <==> TwoDown(x.originRating, x.rating);
    assert Fires(rules[4], x) <==> x.signals.forbearance;
  }

  // The raw stage under the shipped calibration, exactly.
  lemma ShippedRawStage(x: Context)
    ensures RawStage(x, PLACEHOLDER) == 3 <==> x.dpd >= 90 || x.signals.brokenPromise || x.signals.impaired
    ensures RawStage(x, PLACEHOLDER) >= 2 <==>
      || x.dpd >= 30 || x.signals.brokenPromise || x.signals.impaired || x.signals.openCase || x.signals.forbearance
      || (x.originPd > 0.0 && x.pd >= 2.0 * x.originPd) || TwoDown(x.originRating, x.rating)
  {
    hide AnyFires, TwoDown, PLACEHOLDER;
    ThirdRules(x);
    SecondRules(x);
  }

  // Each rule on its own, in any rule list: the first two kinds read the days past due and a flag, the
  // third asks for a multiple of the PD at origination, the fourth counts grades.
  lemma RuleMeans(rule: Rule, x: Context)
    ensures rule.DpdAtLeast? ==> (Fires(rule, x) <==> rule.threshold <= x.dpd)
    ensures rule.PdRatioAtLeast? ==> (Fires(rule, x) <==> x.pd != 0.0 && x.originPd > 0.0 && x.pd >= rule.ratio * x.originPd)
    ensures rule.UnknownRule? || rule == Flag(UnknownSource) ==> !Fires(rule, x)
  {
    hide Notches;
    if rule.PdRatioAtLeast? && x.originPd > 0.0 {
      RatioIsMultiple(x.pd, x.originPd, rule.ratio);
    }
  }
}
