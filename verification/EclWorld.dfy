// Assessments and configuration changes interleaved: every stored row stays reproducible from the
// version it is stamped with.
module EclWorld {
  import opened Options
  import opened Sums
  import opened EclModel
  import opened EclConfig
  import opened EclAssessment
  import opened EclBookLaws
  import B = EclBook
  import O = Overrides

  datatype World = World(versions: seq<Version>, book: B.Book)

  // What a command is given by its caller; the calibration is always the active one.
  datatype Request = Request(asOf: int, buckets: seq<Bucket>, overrides: seq<O.Override>)

  datatype Command =
    | Configure(changes: seq<Change>)
    | Originate(request: Request, exposure: B.Exposure)
    | Portfolio(request: Request, exposures: seq<B.Exposure>)
    | Post(run: nat)
    | WriteOff(contract: nat, full: bool, principal: int, profit: int, lateFee: int)

  function ActiveVersion(w: World): Version {
    Seeded(w.versions)[SeededActive(w.versions)]
  }

  function InputOf(w: World, r: Request): B.Input {
    B.Input(r.asOf, ActiveVersion(w).number, ActiveVersion(w).calibration, r.buckets, r.overrides)
  }

  function Step(w: World, c: Command): World {
    match c
    case Configure(changes) => w.(versions := Activate(w.versions, changes).0)
    case Originate(r, x) => World(Seeded(w.versions), B.InitialAssessment(w.book, InputOf(w, r), x).0)
    case Portfolio(r, xs) => World(Seeded(w.versions), B.RunEcl(w.book, InputOf(w, r), xs).0)
    case Post(run) => w.(book := B.PostRun(w.book, run).0)
    case WriteOff(contract, full, principal, profit, lateFee) =>
      w.(book := B.WriteOff(w.book, contract, full, principal, profit, lateFee))
  }

  function Run(w: World, commands: seq<Command>): World
    decreases |commands|
  {
    if commands == [] then w else Run(Step(w, commands[0]), commands[1..])
  }

  const START: World := World([], B.NEW)

  // The row's snapshot is the calibration of the version it names, as that version reads today.
  predicate Stamped(r: Row, versions: seq<Version>) {
    1 <= r.version <= |versions| && versions[r.version - 1].number == r.version && versions[r.version - 1].calibration == r.snapshot
  }

  // Some visit under the row's own snapshot, on the history of the time, gives the row again.
  ghost predicate Replayable(rows: seq<Row>, k: nat)
    requires k < |rows|
  {
    exists v: Visit :: v.calibration == rows[k].snapshot && v.version == rows[k].version && Assess(rows[..k], v) == Ok(rows[k])
  }

  ghost predicate Faithful(w: World) {
    && Versioned(w.versions)
    && (forall k :: 0 <= k < |w.book.rows| ==> Stamped(w.book.rows[k], w.versions) && Replayable(w.book.rows, k))
  }

  lemma StampedLater(rows: seq<Row>, before: seq<Version>, after: seq<Version>)
    requires Extends(before, after) && forall k :: 0 <= k < |rows| ==> Stamped(rows[k], before)
    ensures forall k :: 0 <= k < |rows| ==> Stamped(rows[k], after)
  {
    forall k | 0 <= k < |rows| ensures Stamped(rows[k], after) {
      assert Stamped(rows[k], before) && SameVersion(before[rows[k].version - 1], after[rows[k].version - 1]);
    }
  }

  lemma ReplayAppend(rows: seq<Row>, v: Visit)
    requires Assess(rows, v).Ok? && forall k :: 0 <= k < |rows| ==> Replayable(rows, k)
    ensures var out := rows + [Assess(rows, v).value]; forall k :: 0 <= k < |out| ==> Replayable(out, k)
  {
    var out := rows + [Assess(rows, v).value];
    AssessIdentity(rows, v);
    forall k | 0 <= k < |out| ensures Replayable(out, k) {
      if k < |rows| {
        assert Replayable(rows, k);
        var u: Visit :| u.calibration == rows[k].snapshot && u.version == rows[k].version && Assess(rows[..k], u) == Ok(rows[k]);
        assert out[..k] == rows[..k] && out[k] == rows[k];
      } else {
        assert out[..k] == rows;
      }
    }
  }

  lemma {:induction false} ReplayAll(rows: seq<Row>, input: B.Input, run: nat, xs: seq<B.Exposure>, versions: seq<Version>)
    requires B.AssessAll(rows, input, run, xs).Ok?
    requires forall k :: 0 <= k < |rows| ==> Replayable(rows, k) && Stamped(rows[k], versions)
    requires 1 <= input.version <= |versions| && versions[input.version - 1].number == input.version
    requires versions[input.version - 1].calibration == input.calibration
    ensures var out := B.AssessAll(rows, input, run, xs).value;
      forall k :: 0 <= k < |out| ==> Replayable(out, k) && Stamped(out[k], versions)
    decreases |xs|
  {
    hide Assess, Replayable;
    if xs != [] {
      var v := B.VisitOf(input, xs[0], Some(run));
      ReplayAppend(rows, v);
      AssessIdentity(rows, v);
      ReplayAll(rows + [Assess(rows, v).value], input, run, xs[1..], versions);
    }
  }

  lemma ActiveInput(w: World, r: Request)
    requires Versioned(w.versions)
    ensures var input, versions := InputOf(w, r), Seeded(w.versions);
      1 <= input.version <= |versions| && versions[input.version - 1].number == input.version
      && versions[input.version - 1].calibration == input.calibration
  {
    SeededVersions(w.versions);
  }

  lemma OriginateKeeps(w: World, r: Request, x: B.Exposure)
    requires Faithful(w)
    ensures Faithful(Step(w, Originate(r, x)))
  {
    hide Assess, Replayable, Versioned, Seeded, B.Emit;
    var v := B.VisitOf(InputOf(w, r), x, None);
    SeededVersions(w.versions);
    StampedLater(w.book.rows, w.versions, Seeded(w.versions));
    ActiveInput(w, r);
    if !B.HasOrigination(w.book.rows, x.contract) && Assess(w.book.rows, v).Ok? {
      ReplayAppend(w.book.rows, v);
      AssessIdentity(w.book.rows, v);
    }
  }

  lemma PortfolioKeeps(w: World, r: Request, xs: seq<B.Exposure>)
    requires Faithful(w)
    ensures Faithful(Step(w, Portfolio(r, xs)))
  {
    SeededVersions(w.versions);
    StampedLater(w.book.rows, w.versions, Seeded(w.versions));
    ActiveInput(w, r);
    if B.AssessAll(w.book.rows, InputOf(w, r), |w.book.runs|, xs).Ok? {
      ReplayAll(w.book.rows, InputOf(w, r), |w.book.runs|, xs, Seeded(w.versions));
    }
  }

  // After any run of configuration changes, assessments, postings and write-offs exactly the
  // newest version is active, and every stored row still carries, and can be recomputed under, the
  // calibration of the version it is stamped with.
  lemma {:induction false} RunKeeps(w: World, commands: seq<Command>)
    requires Faithful(w)
    ensures Faithful(Run(w, commands))
    decreases |commands|
  {
    if commands != [] {
      match commands[0] {
        case Configure(changes) =>
          ActivateKeeps(w.versions, changes);
          StampedLater(w.book.rows, w.versions, Activate(w.versions, changes).0);
        case Originate(r, x) => OriginateKeeps(w, r, x);
        case Portfolio(r, xs) => PortfolioKeeps(w, r, xs);
        case Post(_) =>
        case WriteOff(_, _, _, _, _) =>
      }
      RunKeeps(Step(w, commands[0]), commands[1..]);
    }
  }

  lemma StartFaithful(commands: seq<Command>)
    ensures Faithful(Run(START, commands))
  {
    RunKeeps(START, commands);
  }
}
