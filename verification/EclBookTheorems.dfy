// What holds of provisions after any run of assessments, portfolio runs, postings and write-offs.
module EclBookTheorems {
  import opened Options
  import opened Sums
  import opened WriteOffs
  import opened EclModel
  import opened EclAssessment
  import opened EclHistory
  import opened EclBook
  import opened EclBookLaws
  import O = Overrides

  // -------------------------------------------------------------------------
  // Each step keeps the books consistent
  // -------------------------------------------------------------------------

  lemma UnknownKey(b: Book, key: Key)
    requires KeysOk(b) && !Accounted(b, key)
    ensures !Known(b.events, key)
  {
  }

  lemma {:induction false} MoveSumAppend(rows: seq<Row>, r: Row, run: nat)
    requires r.run != Some(run)
    ensures MoveSum(rows + [r], run, None) == MoveSum(rows, run, None)
  {
    assert (rows + [r])[..|rows|] == rows;
  }

  lemma NoOrigination(rows: seq<Row>, contract: nat)
    requires !HasOrigination(rows, contract)
    ensures forall k :: 0 <= k < |rows| && rows[k].contract == contract ==> rows[k].run != None
  {
  }

  // Origination.
  lemma InitialFacts(b: Book, input: Input, x: Exposure, c: nat)
    requires Consistent(b, c) && !HasOrigination(b.rows, x.contract) && Assess(b.rows, VisitOf(input, x, None)).Ok?
    ensures var r := Assess(b.rows, VisitOf(input, x, None)).value; var rows := b.rows + [r];
      && RowsOk(rows, |b.runs|) && OpeningsOk(rows) && r.run.None? && r.contract == x.contract && HasOrigination(rows, x.contract)
      && Counted(rows, b.runs, c) == Counted(b.rows, b.runs, c) + (if r.contract == c then r.closing - r.opening else 0)
      && (forall run: nat :: MoveSum(rows, run, None) == MoveSum(b.rows, run, None))
  {
    hide Assess, MoveSum, RowsOk, OpeningsOk, KeysOk, RollUpsOk, EventSum;
    var v := VisitOf(input, x, None);
    var r := Assess(b.rows, v).value;
    AssessIdentity(b.rows, v);
    NoOrigination(b.rows, x.contract);
    OpeningsAppend(b.rows, v, |b.runs|);
    var rows := b.rows + [r];
    assert rows[..|b.rows|] == b.rows && rows[|b.rows|] == r;
    forall run: nat ensures MoveSum(rows, run, None) == MoveSum(b.rows, run, None) {
      MoveSumAppend(b.rows, r, run);
    }
  }

  lemma OriginationKeys(b: Book, d: Book, e: Event)
    requires KeysOk(b) && RollUpsOk(b) && TotalsOk(b)
    requires |d.rows| == |b.rows| + 1 && d.rows[..|b.rows|] == b.rows && d.runs == b.runs && d.executions == b.executions
    requires forall run: nat :: MoveSum(d.rows, run, None) == MoveSum(b.rows, run, None)
    requires d.events == b.events || d.events == b.events + [e]
    requires e.key.Origination? && HasOrigination(d.rows, e.key.contract)
    ensures KeysOk(d) && RollUpsOk(d) && TotalsOk(d)
  {
    forall k | 0 <= k < |b.events| ensures Accounted(d, b.events[k].key) {
      assert Accounted(b, b.events[k].key);
      if b.events[k].key.Origination? {
        var j :| 0 <= j < |b.rows| && b.rows[j].contract == b.events[k].key.contract && b.rows[j].run.None?;
        assert d.rows[j] == b.rows[j];
      }
    }
    forall r | 0 <= r < |d.runs| ensures RunSum(d.events, r) == RunSum(b.events, r) {
      EventAppend(b.events, e, 0, r);
    }
    forall r | 0 <= r < |d.runs| && d.runs[r].status.Posted? ensures Known(d.events, Summary(r)) {
      KnownAppend(b.events, e, Summary(r));
    }
  }

  lemma InitialKeeps(b: Book, input: Input, x: Exposure, c: nat)
    requires Consistent(b, c)
    ensures Consistent(InitialAssessment(b, input, x).0, c)
  {
    if !HasOrigination(b.rows, x.contract) && Assess(b.rows, VisitOf(input, x, None)).Ok? {
      var d := InitialAssessment(b, input, x).0;
      var r := Assess(b.rows, VisitOf(input, x, None)).value;
      var e := Event(ProvisionCreated, Origination(x.contract), Some(x.contract), r.closing - r.opening);
      InitialFacts(b, input, x, c);
      UnknownKey(b, Origination(x.contract));
      InitialIs(b, input, x, d, r, e);
      EventAppend(b.events, e, c, 0);
      OriginationKeys(b, d, e);
    }
  }

  lemma InitialIs(b: Book, input: Input, x: Exposure, d: Book, r: Row, e: Event)
    requires d == InitialAssessment(b, input, x).0 && Assess(b.rows, VisitOf(input, x, None)) == Ok(r)
    requires !HasOrigination(b.rows, x.contract) && !Known(b.events, e.key)
    requires e == Event(ProvisionCreated, Origination(x.contract), Some(x.contract), r.closing - r.opening)
    ensures d == b.(rows := b.rows + [r], events := if e.amount != 0 then b.events + [e] else b.events)
  {
  }

  // A portfolio run.
  lemma RunRows(b: Book, input: Input, xs: seq<Exposure>, c: nat)
    requires RowsOk(b.rows, |b.runs|) && OpeningsOk(b.rows) && Distinct(xs) && AssessAll(b.rows, input, |b.runs|, xs).Ok?
    ensures var d := RunEcl(b, input, xs).0;
      && RowsOk(d.rows, |d.runs|) && OpeningsOk(d.rows)
      && Counted(d.rows, d.runs, c) == Counted(b.rows, b.runs, c)
      && MoveSum(d.rows, |b.runs|, None) == d.runs[|b.runs|].totals.movement
      && (forall r: nat :: r < |b.runs| ==> MoveSum(d.rows, r, None) == MoveSum(b.rows, r, None))
  {
    hide MoveSum, Counted, TotalsOf, Assess, Chronological, OpeningsOk;
    var n := |b.runs|;
    var d := RunEcl(b, input, xs).0;
    var more := d.rows[|b.rows|..];
    AssessAllLaws(b.rows, input, n, xs);
    assert d.rows == b.rows + more;
    CountedNewRun(b.rows, more, b.runs, d.runs[n], c);
    forall r: nat | r <= n ensures MoveSum(d.rows, r, None) == if r == n then TotalsOf(more).movement else MoveSum(b.rows, r, None) {
      MoveSumNewRun(b.rows, more, r, n);
    }
  }

  lemma {:induction false} NoRunEvents(events: seq<Event>, run: nat)
    requires forall k :: 0 <= k < |events| ==> !OfRun(events[k].key, run)
    ensures RunSum(events, run) == 0
  {
    if events != [] {
      NoRunEvents(events[..|events| - 1], run);
    }
  }

  lemma RunKeys(b: Book, input: Input, xs: seq<Exposure>)
    requires KeysOk(b) && RollUpsOk(b) && RunEcl(b, input, xs).1.Fine?
    ensures var d := RunEcl(b, input, xs).0; KeysOk(d) && RollUpsOk(d)
  {
    hide AssessAll, TotalsOf, RunSum;
    var d := RunEcl(b, input, xs).0;
    forall k | 0 <= k < |b.events| ensures Accounted(d, b.events[k].key) && !OfRun(b.events[k].key, |b.runs|) {
      assert Accounted(b, b.events[k].key);
      if b.events[k].key.Origination? {
        var j :| 0 <= j < |b.rows| && b.rows[j].contract == b.events[k].key.contract && b.rows[j].run.None?;
        assert d.rows[j] == b.rows[j];
      }
    }
    NoRunEvents(b.events, |b.runs|);
    assert forall r :: 0 <= r < |b.runs| ==> d.runs[r] == b.runs[r];
  }

  lemma RunKeepsTotals(b: Book, input: Input, xs: seq<Exposure>, c: nat)
    requires Consistent(b, c) && Distinct(xs) && RunEcl(b, input, xs).1.Fine?
    ensures TotalsOk(RunEcl(b, input, xs).0)
  {
    var d := RunEcl(b, input, xs).0;
    RunRows(b, input, xs, c);
    TotalsAddUp(d.rows[|b.rows|..]);
    forall r | 0 <= r < |d.runs|
      ensures d.runs[r].totals.movement == MoveSum(d.rows, r, None)
      ensures d.runs[r].totals.loss == d.runs[r].totals.stage1 + d.runs[r].totals.stage2 + d.runs[r].totals.stage3 + d.runs[r].totals.none
    {
      assert r < |b.runs| ==> d.runs[r] == b.runs[r];
    }
  }

  lemma RunEclKeeps(b: Book, input: Input, xs: seq<Exposure>, c: nat)
    requires Consistent(b, c) && Distinct(xs)
    ensures Consistent(RunEcl(b, input, xs).0, c)
  {
    if RunEcl(b, input, xs).1.Fine? {
      RunRows(b, input, xs, c);
      RunKeys(b, input, xs);
      RunKeepsTotals(b, input, xs, c);
    }
  }

  // Posting.
  lemma PostFresh(b: Book, run: nat)
    requires KeysOk(b) && run < |b.runs| && b.runs[run].status.Completed?
    ensures Fresh(b.events, b.rows, run) && !Known(b.events, Summary(run))
  {
    forall k | 0 <= k < |b.rows|
      ensures !Known(b.events, Move(run, b.rows[k].contract)) && !Known(b.events, Adjust(run, b.rows[k].contract))
    {
      UnknownKey(b, Move(run, b.rows[k].contract));
      UnknownKey(b, Adjust(run, b.rows[k].contract));
    }
    UnknownKey(b, Summary(run));
  }

  function PostedBook(b: Book, run: nat): Book
    requires run < |b.runs|
  {
    b.(events := EmitRows(b.events, b.rows, run) + [Event(RollUp, Summary(run), None, b.runs[run].totals.movement)],
       runs := b.runs[run := b.runs[run].(status := Posted)])
  }

  lemma PostIs(b: Book, run: nat)
    requires KeysOk(b) && run < |b.runs| && b.runs[run].status.Completed?
    ensures PostRun(b, run).0 == PostedBook(b, run)
  {
    var moved := EmitRows(b.events, b.rows, run);
    PostFresh(b, run);
    EmitRowsKeys(b.events, b.rows, run);
    forall k | 0 <= k < |moved| ensures moved[k].key != Summary(run) {
      assert k < |b.events| ==> moved[k] == b.events[k];
    }
  }

  lemma PostSums(b: Book, run: nat, c: nat, other: nat)
    requires Consistent(b, c) && run < |b.runs| && b.runs[run].status.Completed?
    ensures var d := PostedBook(b, run);
      && EventSum(d.events, c) == Counted(d.rows, d.runs, c)
      && RunSum(d.events, other) == RunSum(b.events, other) + (if other == run then b.runs[run].totals.movement else 0)
  {
    PostFresh(b, run);
    EmitRowsSums(b.events, b.rows, run, |b.runs|, c, other);
    EventAppend(EmitRows(b.events, b.rows, run), Event(RollUp, Summary(run), None, b.runs[run].totals.movement), c, other);
    CountedPost(b.rows, b.runs, run, c);
  }

  lemma PostKeys(b: Book, run: nat)
    requires KeysOk(b) && run < |b.runs| && b.runs[run].status.Completed?
    ensures KeysOk(PostedBook(b, run))
  {
    var d := PostedBook(b, run);
    EmitRowsKeys(b.events, b.rows, run);
    forall k | 0 <= k < |d.events| ensures Accounted(d, d.events[k].key) {
      if k < |b.events| {
        assert d.events[k] == b.events[k] && Accounted(b, b.events[k].key);
      }
    }
  }

  lemma PostRollUps(b: Book, run: nat, c: nat)
    requires Consistent(b, c) && run < |b.runs| && b.runs[run].status.Completed?
    ensures RollUpsOk(PostedBook(b, run))
  {
    var d := PostedBook(b, run);
    EmitRowsKeys(b.events, b.rows, run);
    forall r | 0 <= r < |d.runs| ensures RunSum(d.events, r) == if d.runs[r].status.Posted? then d.runs[r].totals.movement else 0 {
      PostSums(b, run, c, r);
    }
    forall r | 0 <= r < |d.runs| && d.runs[r].status.Posted? ensures Known(d.events, Summary(r)) {
      if r == run {
        assert d.events[|d.events| - 1].key == Summary(run);
      } else {
        var k :| 0 <= k < |b.events| && b.events[k].key == Summary(r);
        assert d.events[k] == b.events[k];
      }
    }
    forall k | 0 <= k < |d.events| && d.events[k].key.Summary? && d.events[k].key.run < |d.runs|
      ensures d.events[k].amount == d.runs[d.events[k].key.run].totals.movement
    {
      if k < |b.events| { assert d.events[k] == b.events[k]; }
    }
  }

  lemma PostKeeps(b: Book, run: nat, c: nat)
    requires Consistent(b, c)
    ensures Consistent(PostRun(b, run).0, c)
  {
    hide EmitRows, EventSum, Counted, RunSum, Known, RowsOk, OpeningsOk, KeysOk, RollUpsOk;
    if run < |b.runs| && b.runs[run].status.Completed? {
      PostIs(b, run);
      PostSums(b, run, c, run);
      PostKeys(b, run);
      PostRollUps(b, run, c);
    }
  }

  // An executed write-off: its booking, and perhaps its release.
  function Written(b: Book, x: WriteOffRow): Book {
    var n := |b.executions|;
    var booked := b.events + [BookingEvent(n, x)];
    b.(executions := b.executions + [x], events := if x.taken.provision > 0 then booked + [ReleaseEvent(n, x)] else booked)
  }

  function ExecutionOf(b: Book, c: Command): WriteOffRow
    requires c.DoWriteOff?
  {
    WriteOffRow(c.contract, c.full, Execution(c.principal, c.profit, c.lateFee, ProvisionOf(b.rows, c.contract)))
  }

  lemma WriteOffIs(b: Book, c: Command)
    requires KeysOk(b) && c.DoWriteOff?
    ensures Step(b, c) == Written(b, ExecutionOf(b, c))
  {
    var n, x := |b.executions|, ExecutionOf(b, c);
    UnknownKey(b, WriteOffBooking(n));
    UnknownKey(b, WriteOffRelease(n));
    KnownAppend(b.events, BookingEvent(n, x), WriteOffRelease(n));
  }

  // One further event of a write-off.
  ghost predicate OneMore(b: Book, d: Book, e: Event) {
    && d.rows == b.rows && d.runs == b.runs && b.executions <= d.executions
    && d.events == b.events + [e] && OfWriteOff(e.key) && e.key.execution < |d.executions|
  }

  lemma OneMoreKeys(b: Book, d: Book, e: Event)
    requires KeysOk(b) && OneMore(b, d, e)
    ensures KeysOk(d)
  {
    assert forall k :: 0 <= k < |b.events| ==> Accounted(b, b.events[k].key) && d.events[k] == b.events[k];
  }

  lemma OneMoreRollUps(b: Book, d: Book, e: Event)
    requires RollUpsOk(b) && OneMore(b, d, e)
    ensures RollUpsOk(d)
  {
    hide RunSum, Known;
    forall r | 0 <= r < |d.runs|
      ensures RunSum(d.events, r) == RunSum(b.events, r) && (Known(b.events, Summary(r)) ==> Known(d.events, Summary(r)))
    {
      EventAppend(b.events, e, 0, r);
      KnownAppend(b.events, e, Summary(r));
    }
    forall k | 0 <= k < |d.events| && d.events[k].key.Summary? && d.events[k].key.run < |d.runs|
      ensures d.events[k].amount == d.runs[d.events[k].key.run].totals.movement
    {
      assert k < |b.events| && d.events[k] == b.events[k];
    }
  }

  lemma OneMoreKeeps(b: Book, d: Book, e: Event, c: nat)
    requires Consistent(b, c) && OneMore(b, d, e)
    ensures Consistent(d, c)
  {
    hide RowsOk, OpeningsOk, KeysOk, RollUpsOk, MoveSum, Counted, EventSum;
    EventAppend(b.events, e, c, 0);
    OneMoreKeys(b, d, e);
    OneMoreRollUps(b, d, e);
  }

  lemma WrittenKeeps(b: Book, x: WriteOffRow, c: nat)
    requires Consistent(b, c)
    ensures Consistent(Written(b, x), c)
  {
    hide Consistent;
    var n := |b.executions|;
    var booked := b.(executions := b.executions + [x], events := b.events + [BookingEvent(n, x)]);
    OneMoreKeeps(b, booked, BookingEvent(n, x), c);
    if x.taken.provision > 0 {
      OneMoreKeeps(booked, Written(b, x), ReleaseEvent(n, x), c);
    }
  }

  lemma WriteOffKeeps(b: Book, command: Command, c: nat)
    requires Consistent(b, c) && command.DoWriteOff?
    ensures Consistent(Step(b, command), c)
  {
    WriteOffIs(b, command);
    WrittenKeeps(b, ExecutionOf(b, command), c);
  }

  lemma StepKeeps(b: Book, command: Command, c: nat)
    requires Consistent(b, c) && Regular(command)
    ensures Consistent(Step(b, command), c)
  {
    hide Consistent;
    match command
    case DoInitial(input, x) => InitialKeeps(b, input, x, c);
    case DoRun(input, xs) => RunEclKeeps(b, input, xs, c);
    case DoPost(run) => PostKeeps(b, run, c);
    case DoWriteOff(_, _, _, _, _) => WriteOffKeeps(b, command, c);
  }

  lemma {:induction false} RunKeeps(b: Book, commands: seq<Command>, c: nat)
    requires Consistent(b, c) && forall k :: 0 <= k < |commands| ==> Regular(commands[k])
    ensures Consistent(Run(b, commands), c)
    decreases |commands|
  {
    hide Consistent, Step, Regular;
    if commands != [] {
      StepKeeps(b, commands[0], c);
      RunKeeps(Step(b, commands[0]), commands[1..], c);
    }
  }

  lemma NewConsistent(c: nat)
    ensures Consistent(NEW, c)
  {
  }

  // -------------------------------------------------------------------------
  // Main results
  // -------------------------------------------------------------------------

  // In any order, with any repetitions: a contract's provision events sum to closing minus opening
  // over exactly its origination row and its posted rows.
  lemma EventsAreCountedMovements(commands: seq<Command>, c: nat)
    requires forall k :: 0 <= k < |commands| ==> Regular(commands[k])
    ensures var d := Run(NEW, commands); EventSum(d.events, c) == Counted(d.rows, d.runs, c)
  {
    NewConsistent(c);
    RunKeeps(NEW, commands, c);
  }

  // With chronological dates and every run posted the movements add up to the latest closing provision.
  lemma MovementsAreTheProvision(d: Book, c: nat)
    requires Consistent(d, c) && Chronological(d.rows, c) && forall r :: 0 <= r < |d.runs| ==> d.runs[r].status.Posted?
    ensures Counted(d.rows, d.runs, c) == ProvisionOf(d.rows, c)
  {
    AllPostedCountsAll(d.rows, d.runs, c);
    Telescope(d.rows, c);
    LatestIsLast(d.rows, c);
  }

  // So then the events sum to the provision on the books.
  lemma EventsAreTheProvision(commands: seq<Command>, c: nat)
    requires forall k :: 0 <= k < |commands| ==> Regular(commands[k])
    requires var d := Run(NEW, commands);
      Chronological(d.rows, c) && forall r :: 0 <= r < |d.runs| ==> d.runs[r].status.Posted?
    ensures var d := Run(NEW, commands); EventSum(d.events, c) == ProvisionOf(d.rows, c)
  {
    NewConsistent(c);
    RunKeeps(NEW, commands, c);
    MovementsAreTheProvision(Run(NEW, commands), c);
  }

  // Releases by write-offs are booked on top, so the net allowance is the provision on the books
  // exactly when no write-off has released anything.
  lemma WriteOffsBreakTheAllowance(commands: seq<Command>, c: nat)
    requires forall k :: 0 <= k < |commands| ==> Regular(commands[k])
    requires var d := Run(NEW, commands);
      Chronological(d.rows, c) && forall r :: 0 <= r < |d.runs| ==> d.runs[r].status.Posted?
    ensures var d := Run(NEW, commands);
      EventSum(d.events, c) + ReleaseSum(d.events, c) == ProvisionOf(d.rows, c) <==>
      forall k :: 0 <= k < |d.events| && d.events[k].key.WriteOffRelease? ==> d.events[k].contract != Some(c)
  {
    EventsAreTheProvision(commands, c);
    ReleasesNegative(NEW, commands);
    ReleaseZero(Run(NEW, commands).events, c);
  }

  predicate ReleasesOk(events: seq<Event>) {
    forall k :: 0 <= k < |events| && events[k].key.WriteOffRelease? ==> events[k].amount < 0
  }

  lemma {:induction false} ReleaseZero(events: seq<Event>, c: nat)
    requires ReleasesOk(events)
    ensures ReleaseSum(events, c) <= 0
    ensures ReleaseSum(events, c) == 0 <==> forall k :: 0 <= k < |events| && events[k].key.WriteOffRelease? ==> events[k].contract != Some(c)
  {
    if events != [] {
      ReleaseZero(events[..|events| - 1], c);
    }
  }

  lemma {:induction false} RowsReleaseNothing(events: seq<Event>, rows: seq<Row>, run: nat)
    requires ReleasesOk(events)
    ensures ReleasesOk(EmitRows(events, rows, run))
  {
    EmitRowsKeys(events, rows, run);
    var after := EmitRows(events, rows, run);
    assert forall k :: 0 <= k < |events| ==> after[k] == events[k];
  }

  lemma {:induction false} ReleasesNegative(b: Book, commands: seq<Command>)
    requires ReleasesOk(b.events)
    ensures ReleasesOk(Run(b, commands).events)
    decreases |commands|
  {
    if commands != [] {
      var c := commands[0];
      assert ReleasesOk(Step(b, c).events) by {
        if c.DoPost? { RowsReleaseNothing(b.events, b.rows, c.run); }
      }
      ReleasesNegative(Step(b, c), commands[1..]);
    }
  }

  // The portfolio roll-up of a posted run repeats, in one amount, what the run's contract events
  // already say: posting both would count the movement twice.
  lemma RollUpRepeatsContracts(commands: seq<Command>, k: nat)
    requires forall j :: 0 <= j < |commands| ==> Regular(commands[j])
    requires var d := Run(NEW, commands); k < |d.events| && d.events[k].key.Summary?
    ensures var d := Run(NEW, commands); var run := d.events[k].key.run;
      && run < |d.runs| && d.runs[run].status.Posted?
      && d.events[k].amount == RunSum(d.events, run) == MoveSum(d.rows, run, None)
      && d.runs[run].totals.loss == d.runs[run].totals.stage1 + d.runs[run].totals.stage2 + d.runs[run].totals.stage3 + d.runs[run].totals.none
  {
    NewConsistent(0);
    RunKeeps(NEW, commands, 0);
    assert Accounted(Run(NEW, commands), Run(NEW, commands).events[k].key);
  }

  // -------------------------------------------------------------------------
  // Stage totals
  // -------------------------------------------------------------------------

  // Stage overrides ask for one of the three stages.
  predicate StagesAsked(overrides: seq<O.Override>) {
    forall k :: 0 <= k < |overrides| && overrides[k].value.StageValue? ==> 1 <= overrides[k].value.stage <= 3
  }

  predicate Asked(c: Command) {
    match c
    case DoInitial(input, _) => StagesAsked(input.overrides)
    case DoRun(input, _) => StagesAsked(input.overrides)
    case _ => true
  }

  predicate FinalStageOk(r: Row) { r.final.stage.Some? && 1 <= r.final.stage.value <= 3 }

  predicate FinalsOk(rows: seq<Row>) {
    StagesOk(rows) && forall k :: 0 <= k < |rows| && rows[k].auto.methodology.ThreeStage? ==> FinalStageOk(rows[k])
  }

  lemma AssessStage(h: seq<Row>, v: Visit)
    requires Assess(h, v).Ok? && FinalsOk(h) && StagesAsked(v.overrides)
    ensures FinalsOk(h + [Assess(h, v).value])
  {
    StagesInRange(h, v);
    FinalStage(h, v);
  }

  lemma FinalStage(h: seq<Row>, v: Visit)
    requires Assess(h, v).Ok? && StagesAsked(v.overrides)
    ensures var r := Assess(h, v).value;
      r.final.stage == r.auto.stage || (r.final.stage.Some? && 1 <= r.final.stage.value <= 3)
  {
    hide Automate, OpeningOf, ThreeStageLoss, MovementOf;
  }

  lemma {:induction false} AssessAllStages(rows: seq<Row>, input: Input, run: nat, xs: seq<Exposure>)
    requires AssessAll(rows, input, run, xs).Ok? && FinalsOk(rows) && StagesAsked(input.overrides)
    ensures FinalsOk(AssessAll(rows, input, run, xs).value)
    ensures forall k :: |rows| <= k < |AssessAll(rows, input, run, xs).value| ==> AssessAll(rows, input, run, xs).value[k].run == Some(run)
    decreases |xs|
  {
    hide Assess, FinalsOk;
    if xs != [] {
      var v := VisitOf(input, xs[0], Some(run));
      AssessStage(rows, v);
      AssessIdentity(rows, v);
      AssessAllStages(rows + [Assess(rows, v).value], input, run, xs[1..]);
    }
  }

  // Every row of the run was staged.
  predicate ThreeStaged(rows: seq<Row>, run: nat) {
    forall k :: 0 <= k < |rows| && rows[k].run == Some(run) ==> rows[k].auto.methodology.ThreeStage?
  }

  predicate NoneUnstaged(b: Book) {
    forall r :: 0 <= r < |b.runs| && ThreeStaged(b.rows, r) ==> b.runs[r].totals.none == 0
  }

  lemma StagedLess(rows: seq<Row>, more: seq<Row>, run: nat)
    requires rows <= more && ThreeStaged(more, run)
    ensures ThreeStaged(rows, run)
  {
    assert forall k :: 0 <= k < |rows| ==> rows[k] == more[k];
  }

  lemma RunStages(b: Book, input: Input, xs: seq<Exposure>)
    requires FinalsOk(b.rows) && NoneUnstaged(b) && StagesAsked(input.overrides)
    ensures var d := RunEcl(b, input, xs).0; FinalsOk(d.rows) && NoneUnstaged(d)
  {
    if RunEcl(b, input, xs).1.Fine? {
      hide AssessAll, TotalsOf, FinalsOk, ThreeStaged;
      var d, n := RunEcl(b, input, xs).0, |b.runs|;
      var more := d.rows[|b.rows|..];
      AssessAllStages(b.rows, input, n, xs);
      forall r | 0 <= r < |d.runs| && ThreeStaged(d.rows, r) ensures d.runs[r].totals.none == 0 {
        if r < n {
          StagedLess(b.rows, d.rows, r);
          assert d.runs[r] == b.runs[r];
        } else {
          StagedRun(d.rows, |b.rows|, n);
        }
      }
    }
  }

  lemma StagedRun(rows: seq<Row>, first: nat, run: nat)
    requires first <= |rows| && FinalsOk(rows) && ThreeStaged(rows, run)
    requires forall k :: first <= k < |rows| ==> rows[k].run == Some(run)
    ensures TotalsOf(rows[first..]).none == 0
  {
    var more := rows[first..];
    assert forall k :: 0 <= k < |more| ==> more[k] == rows[first + k] && FinalStageOk(more[k]);
    TotalsAddUp(more);
  }

  lemma InitialStages(b: Book, input: Input, x: Exposure)
    requires FinalsOk(b.rows) && NoneUnstaged(b) && StagesAsked(input.overrides)
    ensures var d := InitialAssessment(b, input, x).0; FinalsOk(d.rows) && NoneUnstaged(d)
  {
    hide Assess, FinalsOk, ThreeStaged;
    var v, d := VisitOf(input, x, None), InitialAssessment(b, input, x).0;
    if !HasOrigination(b.rows, x.contract) && Assess(b.rows, v).Ok? {
      AssessStage(b.rows, v);
      forall r | 0 <= r < |d.runs| && ThreeStaged(d.rows, r) ensures d.runs[r].totals.none == 0 {
        StagedLess(b.rows, d.rows, r);
      }
    }
  }

  lemma SameRunTotals(b: Book, d: Book)
    requires NoneUnstaged(b) && d.rows == b.rows && |d.runs| == |b.runs|
    requires forall r :: 0 <= r < |b.runs| ==> d.runs[r].totals == b.runs[r].totals
    ensures NoneUnstaged(d)
  {
  }

  lemma {:induction false} RunsStaged(b: Book, commands: seq<Command>)
    requires FinalsOk(b.rows) && NoneUnstaged(b) && forall k :: 0 <= k < |commands| ==> Asked(commands[k])
    ensures FinalsOk(Run(b, commands).rows) && NoneUnstaged(Run(b, commands))
    decreases |commands|
  {
    hide FinalsOk, NoneUnstaged, InitialAssessment, RunEcl, EmitRows, Emit, Latest;
    if commands != [] {
      var c := commands[0];
      match c {
        case DoInitial(input, x) => InitialStages(b, input, x);
        case DoRun(input, xs) => RunStages(b, input, xs);
        case _ => SameRunTotals(b, Step(b, c));
      }
      RunsStaged(Step(b, c), commands[1..]);
    }
  }

  // After any run of the protocol: the loss of a portfolio run all of whose rows are staged is the sum
  // of its three stage totals.
  lemma ThreeStageTotals(commands: seq<Command>, r: nat)
    requires forall k :: 0 <= k < |commands| ==> Regular(commands[k]) && Asked(commands[k])
    requires r < |Run(NEW, commands).runs| && ThreeStaged(Run(NEW, commands).rows, r)
    ensures var t := Run(NEW, commands).runs[r].totals; t.none == 0 && t.loss == t.stage1 + t.stage2 + t.stage3
  {
    hide Regular, Asked, Run, ThreeStaged, RowsOk, OpeningsOk, KeysOk, RollUpsOk;
    NewConsistent(0);
    RunKeeps(NEW, commands, 0);
    RunsStaged(NEW, commands);
  }

  // -------------------------------------------------------------------------
  // What the kind of an event says
  // -------------------------------------------------------------------------

  // A release is negative, an increase positive, and no contract event is empty but perhaps the
  // booking of a write-off.
  predicate SignOk(e: Event) {
    && (e.kind.ProvisionReleased? ==> e.amount < 0) && (e.kind.ProvisionIncreased? ==> e.amount > 0)
    && (e.contract.Some? ==> e.amount != 0 || e.key.WriteOffBooking?) && (e.kind.RollUp? <==> e.contract.None?)
  }

  predicate SignsOk(events: seq<Event>) { forall k :: 0 <= k < |events| ==> SignOk(events[k]) }

  lemma SignEmit(events: seq<Event>, e: Event)
    requires SignsOk(events) && (e.amount != 0 ==> SignOk(e))
    ensures SignsOk(EmitNonZero(events, e))
    ensures SignOk(e) ==> SignsOk(Emit(events, e))
  {
  }

  lemma {:induction false} SignRows(events: seq<Event>, rows: seq<Row>, run: nat)
    requires SignsOk(events)
    ensures SignsOk(EmitRows(events, rows, run))
  {
    if rows != [] {
      var before, last := EmitRows(events, rows[..|rows| - 1], run), rows[|rows| - 1];
      SignRows(events, rows[..|rows| - 1], run);
      if last.run == Some(run) {
        SignEmit(before, ModelEvent(last, run));
        SignEmit(EmitNonZero(before, ModelEvent(last, run)), OverrideEvent(last, run));
      }
    }
  }

  lemma StepSigns(b: Book, c: Command)
    requires SignsOk(b.events)
    ensures SignsOk(Step(b, c).events)
  {
    hide SignOk, Assess, Known;
    match c
    case DoPost(run) =>
      if run < |b.runs| {
        SignRows(b.events, b.rows, run);
        SignEmit(EmitRows(b.events, b.rows, run), Event(RollUp, Summary(run), None, b.runs[run].totals.movement));
        SummarySign(run, b.runs[run].totals.movement);
      }
    case DoInitial(input, x) => InitialSigns(b, input, x);
    case DoRun(_, _) =>
    case DoWriteOff(_, _, _, _, _) => WriteOffSigns(b.events, |b.executions|, ExecutionOf(b, c));
  }

  lemma SummarySign(run: nat, amount: int)
    ensures SignOk(Event(RollUp, Summary(run), None, amount))
  {
  }

  lemma InitialSigns(b: Book, input: Input, x: Exposure)
    requires SignsOk(b.events)
    ensures SignsOk(InitialAssessment(b, input, x).0.events)
  {
    hide Assess;
  }

  lemma WriteOffSigns(events: seq<Event>, n: nat, x: WriteOffRow)
    requires SignsOk(events)
    ensures SignsOk(Emit(events, BookingEvent(n, x)))
    ensures x.taken.provision > 0 ==> SignsOk(Emit(Emit(events, BookingEvent(n, x)), ReleaseEvent(n, x)))
  {
    SignEmit(events, BookingEvent(n, x));
    if x.taken.provision > 0 {
      SignEmit(Emit(events, BookingEvent(n, x)), ReleaseEvent(n, x));
    }
  }

  // Over any run of the protocol.
  lemma {:induction false} KindsTellSigns(b: Book, commands: seq<Command>)
    requires SignsOk(b.events)
    ensures SignsOk(Run(b, commands).events)
    decreases |commands|
  {
    hide Step, SignsOk;
    if commands != [] {
      StepSigns(b, commands[0]);
      KindsTellSigns(Step(b, commands[0]), commands[1..]);
    }
  }
}
