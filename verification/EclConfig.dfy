// Versioned calibration: app/services/ecl_config.py.  A change never edits a row; it activates a
// new version cloned from the active one.
module EclConfig {
  import opened Options
  import opened EclModel

  datatype Version = Version(number: nat, active: bool, calibration: Calibration, mapping: map<string, string>)

  // One entry of the change set: a configurable field with its value, or a name that is none.
  datatype Change =
    | SetMethodology(name: string)
    | SetRatings(ratings: seq<Band>)
    | SetSegments(segments: map<string, string>)
    | SetPds(pds: map<string, PdRow>)
    | SetLgds(lgds: map<string, LgdRow>)
    | SetStage3Rules(rules: seq<Rule>)
    | SetSicrRules(rules: seq<Rule>)
    | SetCure(cure: CureRules)
    | SetOverrides(overrides: OverrideRules)
    | SetMapping(mapping: map<string, string>)
    | SetBandPct(bandPct: map<DpdLabel, real>)
    | SetLossRate(rate: real)
    | SetUnknown(name: string)

  datatype Outcome = Activated(number: nat) | UnknownField | BadMethodology

  function Parse(name: string): Option<Methodology> {
    match name
    case "three_stage" => Some(ThreeStage)
    case "simplified_lifetime" => Some(SimplifiedLifetime)
    case "dpd_banded" => Some(DpdBanded)
    case _ => None
  }

  predicate Legal(change: Change) {
    match change
    case SetMethodology(name) => Parse(name).Some?
    case SetUnknown(_) => false
    case _ => true
  }

  function ApplyOne(v: Version, change: Change): Version {
    var c := v.calibration;
    match change
    case SetMethodology(name) => if Parse(name).Some? then v.(calibration := c.(methodology := Parse(name).value)) else v
    case SetRatings(ratings) => v.(calibration := c.(ratings := ratings))
    case SetSegments(segments) => v.(calibration := c.(segments := segments))
    case SetPds(pds) => v.(calibration := c.(pds := pds))
    case SetLgds(lgds) => v.(calibration := c.(lgds := lgds))
    case SetStage3Rules(rules) => v.(calibration := c.(stage3Rules := rules))
    case SetSicrRules(rules) => v.(calibration := c.(sicrRules := rules))
    case SetCure(cure) => v.(calibration := c.(cure := cure))
    case SetOverrides(overrides) => v.(calibration := c.(overrides := overrides))
    case SetMapping(mapping) => v.(mapping := mapping)
    case SetBandPct(bandPct) => v.(calibration := c.(bandPct := bandPct))
    case SetLossRate(rate) => v.(calibration := c.(lossRate := rate))
    case SetUnknown(_) => v
  }

  function Apply(v: Version, changes: seq<Change>): Version {
    if changes == [] then v else ApplyOne(Apply(v, changes[..|changes| - 1]), changes[|changes| - 1])
  }

  const FIRST: Version := Version(1, true, PLACEHOLDER, map[])

  // get_active(): version 1 is seeded when no version is active.
  function Seeded(versions: seq<Version>): seq<Version> {
    if exists k :: 0 <= k < |versions| && versions[k].active then versions else versions + [FIRST]
  }

  function ActiveOf(versions: seq<Version>): (k: nat)
    requires exists k :: 0 <= k < |versions| && versions[k].active
    ensures k < |versions| && versions[k].active
  {
    if versions[0].active then 0
    else
      assert exists k :: 0 <= k < |versions[1..]| && versions[1..][k].active by {
        var k :| 0 <= k < |versions| && versions[k].active;
        assert versions[1..][k - 1].active;
      }
      1 + ActiveOf(versions[1..])
  }

  function Highest(versions: seq<Version>): nat {
    if versions == [] then 0
    else
      var rest := Highest(versions[..|versions| - 1]);
      if versions[|versions| - 1].number > rest then versions[|versions| - 1].number else rest
  }

  predicate AllKnown(changes: seq<Change>) { forall k :: 0 <= k < |changes| ==> !changes[k].SetUnknown? }

  predicate AllLegal(changes: seq<Change>) { forall k :: 0 <= k < |changes| ==> Legal(changes[k]) }

  function SeededActive(versions: seq<Version>): (k: nat)
    ensures k < |Seeded(versions)| && Seeded(versions)[k].active
  {
    var all := Seeded(versions);
    assert all != versions ==> all[|all| - 1].active;
    ActiveOf(all)
  }

  // A rejected change set leaves the table as it was.
  function Activate(versions: seq<Version>, changes: seq<Change>): (seq<Version>, Outcome) {
    if !AllKnown(changes) then (versions, UnknownField)
    else if !AllLegal(changes) then (versions, BadMethodology)
    else
      var all := Seeded(versions);
      var k := SeededActive(versions);
      var next := Highest(all) + 1;
      (all[k := all[k].(active := false)] + [Apply(all[k], changes).(number := next, active := true)], Activated(next))
  }

  // -------------------------------------------------------------------------
  // The invariant
  // -------------------------------------------------------------------------

  // Versions are numbered from 1 without gaps and only the newest is active.
  predicate Versioned(versions: seq<Version>) {
    && (forall k :: 0 <= k < |versions| ==> versions[k].number == k + 1)
    && (forall k :: 0 <= k < |versions| ==> (versions[k].active <==> k == |versions| - 1))
  }

  // What a version fixes, once and for all.
  predicate SameVersion(v: Version, w: Version) { v.number == w.number && v.calibration == w.calibration && v.mapping == w.mapping }

  predicate Extends(before: seq<Version>, after: seq<Version>) {
    |before| <= |after| && forall k :: 0 <= k < |before| ==> SameVersion(before[k], after[k])
  }

  lemma {:induction false} HighestIsLast(versions: seq<Version>)
    requires forall k :: 0 <= k < |versions| ==> versions[k].number == k + 1
    ensures Highest(versions) == |versions|
  {
    if versions != [] {
      HighestIsLast(versions[..|versions| - 1]);
    }
  }

  // Seeding keeps the numbering and makes the newest version the active one.
  lemma SeededVersions(versions: seq<Version>)
    requires Versioned(versions)
    ensures var all := Seeded(versions);
      && Versioned(all) && Extends(versions, all) && all != [] && SeededActive(versions) == |all| - 1
      && all[|all| - 1] == if versions == [] then FIRST else versions[|versions| - 1]
  {
    hide PLACEHOLDER, ActiveOf;
    if versions != [] {
      assert versions[|versions| - 1].active;
    }
  }

  // The next version takes over from the active one.
  lemma Succeeds(all: seq<Version>, v: Version)
    requires Versioned(all) && all != [] && v.number == |all| + 1 && v.active
    ensures var after := all[|all| - 1 := all[|all| - 1].(active := false)] + [v]; Versioned(after) && Extends(all, after)
  {
  }

  lemma ExtendsTrans(a: seq<Version>, b: seq<Version>, c: seq<Version>)
    requires Extends(a, b) && Extends(b, c)
    ensures Extends(a, c)
  {
    assert forall k :: 0 <= k < |a| ==> SameVersion(a[k], b[k]) && SameVersion(b[k], c[k]);
  }

  lemma LegalIsKnown(changes: seq<Change>)
    requires AllLegal(changes)
    ensures AllKnown(changes)
  {
  }

  lemma NumberedFromOne(versions: seq<Version>)
    requires Versioned(versions)
    ensures Highest(versions) == |versions|
  {
    HighestIsLast(versions);
  }

  // One activation: numbering and activity hold, every earlier version is untouched, and the new
  // one is the previously active version with the changes laid over it.
  lemma ActivateKeeps(versions: seq<Version>, changes: seq<Change>)
    requires Versioned(versions)
    ensures var after := Activate(versions, changes).0;
      && Versioned(after) && Extends(versions, after)
      && (Activate(versions, changes).1.Activated? <==> AllLegal(changes))
      && (!AllLegal(changes) ==> after == versions)
      && (AllLegal(changes) ==>
           && after != [] && Activate(versions, changes).1.number == |after|
           && SameVersion(after[|after| - 1],
                Apply(if versions == [] then FIRST else versions[|versions| - 1], changes).(number := |after|)))
  {
    hide Versioned, Apply, Seeded, SeededActive, Highest, AllLegal, AllKnown, FIRST;
    if AllLegal(changes) {
      var all := Seeded(versions);
      LegalIsKnown(changes);
      SeededVersions(versions);
      NumberedFromOne(all);
      var v := Apply(all[|all| - 1], changes).(number := |all| + 1, active := true);
      Succeeds(all, v);
      ExtendsTrans(versions, all, all[|all| - 1 := all[|all| - 1].(active := false)] + [v]);
    }
  }

  function ActivateAll(versions: seq<Version>, sets: seq<seq<Change>>): seq<Version>
    decreases |sets|
  {
    if sets == [] then versions else ActivateAll(Activate(versions, sets[0]).0, sets[1..])
  }

  // Over any run of activations; in particular what version n means never changes.
  lemma {:induction false} RunKeeps(versions: seq<Version>, sets: seq<seq<Change>>)
    requires Versioned(versions)
    ensures Versioned(ActivateAll(versions, sets)) && Extends(versions, ActivateAll(versions, sets))
    decreases |sets|
  {
    if sets != [] {
      var next := Activate(versions, sets[0]).0;
      ActivateKeeps(versions, sets[0]);
      RunKeeps(next, sets[1..]);
      assert forall k :: 0 <= k < |versions| ==> SameVersion(versions[k], next[k]);
    }
  }

  datatype Field = MethodologyField | RatingsField | SegmentsField | PdsField | LgdsField | Stage3Field | SicrField
                 | CureField | OverridesField | MappingField | BandPctField | LossRateField | NoField

  function FieldOf(change: Change): Field {
    match change
    case SetMethodology(_) => MethodologyField
    case SetRatings(_) => RatingsField
    case SetSegments(_) => SegmentsField
    case SetPds(_) => PdsField
    case SetLgds(_) => LgdsField
    case SetStage3Rules(_) => Stage3Field
    case SetSicrRules(_) => SicrField
    case SetCure(_) => CureField
    case SetOverrides(_) => OverridesField
    case SetMapping(_) => MappingField
    case SetBandPct(_) => BandPctField
    case SetLossRate(_) => LossRateField
    case SetUnknown(_) => NoField
  }

  predicate SameField(f: Field, v: Version, w: Version) {
    match f
    case MethodologyField => v.calibration.methodology == w.calibration.methodology
    case RatingsField => v.calibration.ratings == w.calibration.ratings
    case SegmentsField => v.calibration.segments == w.calibration.segments
    case PdsField => v.calibration.pds == w.calibration.pds
    case LgdsField => v.calibration.lgds == w.calibration.lgds
    case Stage3Field => v.calibration.stage3Rules == w.calibration.stage3Rules
    case SicrField => v.calibration.sicrRules == w.calibration.sicrRules
    case CureField => v.calibration.cure == w.calibration.cure
    case OverridesField => v.calibration.overrides == w.calibration.overrides
    case MappingField => v.mapping == w.mapping
    case BandPctField => v.calibration.bandPct == w.calibration.bandPct
    case LossRateField => v.calibration.lossRate == w.calibration.lossRate
    case NoField => true
  }

  // The last change that names a field.
  predicate LastOf(changes: seq<Change>, k: nat, f: Field)
    requires k < |changes|
  {
    FieldOf(changes[k]) == f && Legal(changes[k]) && forall j :: k < j < |changes| ==> FieldOf(changes[j]) != f
  }

  // Changes laid over a version touch the fields they name and no other; per field the last one wins.
  lemma {:induction false} LastChangeWins(v: Version, changes: seq<Change>, f: Field)
    ensures (forall k :: 0 <= k < |changes| ==> FieldOf(changes[k]) != f) ==> SameField(f, v, Apply(v, changes))
    ensures forall k :: 0 <= k < |changes| && LastOf(changes, k, f) ==> SameField(f, Apply(v, changes), ApplyOne(v, changes[k]))
  {
    if changes == [] {
      SameAsItself(f, v);
    } else {
      hide SameField, FieldOf, Legal, ApplyOne;
      var init, last := changes[..|changes| - 1], changes[|changes| - 1];
      LastChangeWins(v, init, f);
      if FieldOf(last) != f {
        OtherField(Apply(v, init), last, f);
      } else if Legal(last) {
        SameWrite(v, Apply(v, init), last);
      }
      forall k | 0 <= k < |changes| && LastOf(changes, k, f)
        ensures SameField(f, Apply(v, changes), ApplyOne(v, changes[k]))
      {
        if k < |init| {
          assert init[k] == changes[k] && FieldOf(last) != f && LastOf(init, k, f);
          FieldTransitive(f, Apply(v, changes), Apply(v, init), ApplyOne(v, init[k]));
        }
      }
      if forall k :: 0 <= k < |changes| ==> FieldOf(changes[k]) != f {
        FieldTransitive(f, v, Apply(v, init), Apply(v, changes));
      }
    }
  }

  lemma SameAsItself(f: Field, v: Version)
    ensures SameField(f, v, v)
  {
  }

  lemma OtherField(v: Version, change: Change, f: Field)
    requires FieldOf(change) != f
    ensures SameField(f, v, ApplyOne(v, change)) && SameField(f, ApplyOne(v, change), v)
  {
    hide Parse;
    if change.SetMapping? {
    } else if change.SetMethodology? {
    }
  }

  lemma SameWrite(v: Version, w: Version, change: Change)
    requires Legal(change)
    ensures SameField(FieldOf(change), ApplyOne(w, change), ApplyOne(v, change))
  {
  }

  lemma FieldTransitive(f: Field, u: Version, v: Version, w: Version)
    ensures SameField(f, u, v) && SameField(f, v, w) ==> SameField(f, u, w)
  {
  }

  function NameOf(m: Methodology): string {
    match m
    case ThreeStage => "three_stage"
    case SimplifiedLifetime => "simplified_lifetime"
    case DpdBanded => "dpd_banded"
  }

  // The version holds what the change asks for.
  predicate Carries(v: Version, change: Change) {
    match change
    case SetMethodology(name) => NameOf(v.calibration.methodology) == name
    case SetRatings(ratings) => v.calibration.ratings == ratings
    case SetSegments(segments) => v.calibration.segments == segments
    case SetPds(pds) => v.calibration.pds == pds
    case SetLgds(lgds) => v.calibration.lgds == lgds
    case SetStage3Rules(rules) => v.calibration.stage3Rules == rules
    case SetSicrRules(rules) => v.calibration.sicrRules == rules
    case SetCure(cure) => v.calibration.cure == cure
    case SetOverrides(overrides) => v.calibration.overrides == overrides
    case SetMapping(mapping) => v.mapping == mapping
    case SetBandPct(bandPct) => v.calibration.bandPct == bandPct
    case SetLossRate(rate) => v.calibration.lossRate == rate
    case SetUnknown(_) => false
  }

  lemma OneCarries(v: Version, change: Change)
    requires Legal(change)
    ensures Carries(ApplyOne(v, change), change)
  {
  }

  lemma SameCarries(v: Version, w: Version, change: Change)
    requires Carries(v, change) && SameField(FieldOf(change), w, v)
    ensures Carries(w, change)
  {
  }

  // The methodologies a change set may name are the three.
  lemma Nameable(change: Change)
    ensures Legal(change) <==> !change.SetUnknown? && (change.SetMethodology? ==> exists m :: NameOf(m) == change.name)
  {
    if change.SetMethodology? {
      assert NameOf(ThreeStage) == "three_stage" && NameOf(SimplifiedLifetime) == "simplified_lifetime" && NameOf(DpdBanded) == "dpd_banded";
    }
  }

  // An accepted change set: the new version holds, of each field it names, what the last change to it asks
  // for, and every other field as the version before had it.
  lemma ActivatedHolds(versions: seq<Version>, changes: seq<Change>, f: Field)
    requires Versioned(versions) && Activate(versions, changes).1.Activated?
    ensures |Activate(versions, changes).0| > 0
    ensures var after := Activate(versions, changes).0; var v := after[|after| - 1];
      && v.active && v.number == |after|
      && (forall k :: 0 <= k < |changes| && FieldOf(changes[k]) == f && (forall j :: k < j < |changes| ==> FieldOf(changes[j]) != f) ==> Carries(v, changes[k]))
      && ((forall k :: 0 <= k < |changes| ==> FieldOf(changes[k]) != f) ==>
           SameField(f, if versions == [] then FIRST else versions[|versions| - 1], v))
  {
    hide Activate, Apply, ApplyOne, SameField, Carries, Legal, FIRST, Extends;
    ActivateKeeps(versions, changes);
    var after := Activate(versions, changes).0;
    var base, v := if versions == [] then FIRST else versions[|versions| - 1], after[|after| - 1];
    LastChangeWins(base, changes, f);
    Renumbered(v, Apply(base, changes), |after|, f);
    FieldTransitive(f, base, Apply(base, changes), v);
    forall k | 0 <= k < |changes| && FieldOf(changes[k]) == f && (forall j :: k < j < |changes| ==> FieldOf(changes[j]) != f)
      ensures Carries(v, changes[k])
    {
      assert LastOf(changes, k, f);
      OneCarries(base, changes[k]);
      FieldTransitive(f, v, Apply(base, changes), ApplyOne(base, changes[k]));
      SameCarries(ApplyOne(base, changes[k]), v, changes[k]);
    }
  }

  lemma Renumbered(v: Version, w: Version, number: nat, f: Field)
    requires SameVersion(v, w.(number := number))
    ensures SameField(f, v, w) && SameField(f, w, v)
  {
  }

  // -------------------------------------------------------------------------
  // The table as the service updates it
  // -------------------------------------------------------------------------

  class ConfigurationTable {
    var versions: seq<Version>

    constructor ()
      ensures versions == []
    {
      versions := [];
    }

    method GetActive() returns (k: nat)
      modifies this
      ensures versions == Seeded(old(versions)) && k == SeededActive(old(versions))
    {
      k := 0;
      while k < |versions| && !versions[k].active
        invariant 0 <= k <= |versions|
        invariant forall j :: 0 <= j < k ==> !versions[j].active
        invariant versions == old(versions)
      {
        k := k + 1;
      }
      if k == |versions| {
        versions := versions + [FIRST];
      }
      FirstActive(versions, k);
    }

    method ActivateVersion(changes: seq<Change>) returns (outcome: Outcome)
      modifies this
      ensures (versions, outcome) == Activate(old(versions), changes)
    {
      hide ApplyOne, Seeded, SeededActive, FIRST, PLACEHOLDER;
      for i := 0 to |changes|
        invariant AllKnown(changes[..i])
      {
        if changes[i].SetUnknown? {
          return UnknownField;
        }
      }
      assert changes[..|changes|] == changes;
      if !AllLegal(changes) {
        return BadMethodology;
      }
      var k := GetActive();
      var highest := 0;
      for i := 0 to |versions|
        invariant highest == Highest(versions[..i])
      {
        assert versions[..i + 1][..i] == versions[..i];
        if versions[i].number > highest {
          highest := versions[i].number;
        }
      }
      assert versions[..|versions|] == versions;
      var row := versions[k];
      for i := 0 to |changes|
        invariant row == Apply(versions[k], changes[..i])
      {
        assert changes[..i + 1][..i] == changes[..i];
        row := ApplyOne(row, changes[i]);
      }
      versions := versions[k := versions[k].(active := false)] + [row.(number := highest + 1, active := true)];
      return Activated(highest + 1);
    }
  }

  lemma {:induction false} FirstActive(versions: seq<Version>, k: nat)
    requires k < |versions| && versions[k].active && forall j :: 0 <= j < k ==> !versions[j].active
    ensures ActiveOf(versions) == k
  {
    if k > 0 {
      FirstActive(versions[1..], k - 1);
    }
  }
}
