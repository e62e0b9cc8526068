// Every movement of a provision has its accounting event, named for what it does (app/services/ecl.py,
// initial_assessment() and post_run()).
module EclEvents {
  import opened Options
  import opened Sums
  import opened WriteOffs
  import opened EclModel
  import opened EclAssessment
  import opened EclBook
  import opened EclBookLaws
  import opened EclBookTheorems

  predicate Has(events: seq<Event>, kind: Kind, key: Key, contract: Option<nat>, amount: int) {
    Event(kind, key, contract, amount) in events
  }

  // The model's part of a row's movement: a first provision, an increase or a release.
  predicate ModelMoved(events: seq<Event>, r: Row, run: nat) {
    var moved := r.auto.loss - r.opening;
    && (r.opening == 0 && moved != 0 ==> Has(events, ProvisionCreated, Move(run, r.contract), Some(r.contract), moved))
    && (r.opening != 0 && moved > 0 ==> Has(events, ProvisionIncreased, Move(run, r.contract), Some(r.contract), moved))
    && (r.opening != 0 && moved < 0 ==> Has(events, ProvisionReleased, Move(run, r.contract), Some(r.contract), moved))
  }

  // The override's part.
  predicate OverrideMoved(events: seq<Event>, r: Row, run: nat) {
    r.closing != r.auto.loss ==> Has(events, ProvisionOverridden, Adjust(run, r.contract), Some(r.contract), r.closing - r.auto.loss)
  }

  predicate RowEvented(events: seq<Event>, r: Row, run: nat) { ModelMoved(events, r, run) && OverrideMoved(events, r, run) }

  predicate OriginEvented(events: seq<Event>, r: Row) {
    r.closing != r.opening ==> Has(events, ProvisionCreated, Origination(r.contract), Some(r.contract), r.closing - r.opening)
  }

  predicate WriteOffEvented(events: seq<Event>, x: WriteOffRow, n: nat) {
    && Has(events, if x.full then FullWriteOff else PartialWriteOff, WriteOffBooking(n), Some(x.contract), x.taken.Total())
    && (x.taken.provision > 0 ==> Has(events, ProvisionReleased, WriteOffRelease(n), Some(x.contract), -x.taken.provision))
  }

  predicate RowsEvented(b: Book) {
    forall k :: 0 <= k < |b.rows| ==>
      match b.rows[k].run
      case None => OriginEvented(b.events, b.rows[k])
      case Some(run) => run < |b.runs| && b.runs[run].status.Posted? ==> RowEvented(b.events, b.rows[k], run)
  }

  predicate Evented(b: Book) {
    && RowsEvented(b)
    && (forall r :: 0 <= r < |b.runs| && b.runs[r].status.Posted? ==> Has(b.events, RollUp, Summary(r), None, b.runs[r].totals.movement))
    && (forall n :: 0 <= n < |b.executions| ==> WriteOffEvented(b.events, b.executions[n], n))
  }

  // -------------------------------------------------------------------------
  // Events are never taken back
  // -------------------------------------------------------------------------

  lemma StillHas(events: seq<Event>, after: seq<Event>)
    requires events <= after
    ensures forall kind, key, contract, amount :: Has(events, kind, key, contract, amount) ==> Has(after, kind, key, contract, amount)
  {
    forall kind, key, contract, amount | Has(events, kind, key, contract, amount) ensures Has(after, kind, key, contract, amount) {
      var k :| 0 <= k < |events| && events[k] == Event(kind, key, contract, amount);
      assert after[k] == events[k];
    }
  }

  lemma StillEvented(events: seq<Event>, after: seq<Event>, r: Row, run: nat)
    requires events <= after
    ensures RowEvented(events, r, run) ==> RowEvented(after, r, run)
    ensures OriginEvented(events, r) ==> OriginEvented(after, r)
  {
    hide Has;
    StillHas(events, after);
  }

  lemma StillWritten(events: seq<Event>, after: seq<Event>, x: WriteOffRow, n: nat)
    requires events <= after && WriteOffEvented(events, x, n)
    ensures WriteOffEvented(after, x, n)
  {
    hide Has;
    StillHas(events, after);
  }

  // The books with more events, everything else but runs' status the same.
  predicate MoreEvents(b: Book, d: Book) {
    && b.events <= d.events && d.rows == b.rows && d.executions == b.executions && |d.runs| == |b.runs|
    && forall r :: 0 <= r < |b.runs| ==> d.runs[r].totals == b.runs[r].totals
  }

  // -------------------------------------------------------------------------
  // Posting
  // -------------------------------------------------------------------------

  lemma EmittedNew(events: seq<Event>, e: Event)
    requires !Known(events, e.key)
    ensures e.amount != 0 ==> e in EmitNonZero(events, e)
    ensures events <= EmitNonZero(events, e) && e in Emit(events, e) && events <= Emit(events, e)
  {
    assert (events + [e])[|events|] == e;
  }

  lemma RowJustEmitted(events: seq<Event>, r: Row, run: nat)
    requires !Known(events, Move(run, r.contract)) && !Known(events, Adjust(run, r.contract))
    ensures RowEvented(EmitRow(events, r, run), r, run) && events <= EmitRow(events, r, run)
  {
    hide Known, EmitNonZero;
    var moved := EmitNonZero(events, ModelEvent(r, run));
    EmittedNew(events, ModelEvent(r, run));
    AdjustFree(events, r, run);
    EmittedNew(moved, OverrideEvent(r, run));
    StillHas(moved, EmitRow(events, r, run));
  }

  lemma AdjustFree(events: seq<Event>, r: Row, run: nat)
    requires !Known(events, Adjust(run, r.contract))
    ensures !Known(EmitNonZero(events, ModelEvent(r, run)), Adjust(run, r.contract))
  {
  }

  predicate AllEvented(events: seq<Event>, rows: seq<Row>, run: nat) {
    forall k :: 0 <= k < |rows| && rows[k].run == Some(run) ==> RowEvented(events, rows[k], run)
  }

  lemma {:induction false} RunEmitted(events: seq<Event>, rows: seq<Row>, run: nat, runs: nat)
    requires RowsOk(rows, runs) && Fresh(events, rows, run)
    ensures AllEvented(EmitRows(events, rows, run), rows, run) && events <= EmitRows(events, rows, run)
    decreases |rows|
  {
    hide RowEvented;
    if rows != [] {
      var init, last := rows[..|rows| - 1], rows[|rows| - 1];
      assert RowsOk(init, runs) && Fresh(events, init, run);
      RunEmitted(events, init, run, runs);
      var before, after := EmitRows(events, init, run), EmitRows(events, rows, run);
      if last.run == Some(run) {
        KeyStillFree(events, rows, run, Move(run, last.contract), runs);
        KeyStillFree(events, rows, run, Adjust(run, last.contract), runs);
        RowJustEmitted(before, last, run);
      }
      forall k | 0 <= k < |rows| && rows[k].run == Some(run) ensures RowEvented(after, rows[k], run) {
        if k < |init| {
          assert rows[k] == init[k];
          StillEvented(before, after, init[k], run);
        }
      }
    }
  }

  lemma PostEvents(b: Book, run: nat)
    requires RowsOk(b.rows, |b.runs|) && KeysOk(b) && Evented(b)
    ensures Evented(PostRun(b, run).0)
  {
    if run < |b.runs| && b.runs[run].status.Completed? {
      hide RowsOk, KeysOk, EmitRows, Emit, RowEvented, OriginEvented, WriteOffEvented, Has, Fresh, Known;
      var d, moved := PostRun(b, run).0, EmitRows(b.events, b.rows, run);
      var e := Event(RollUp, Summary(run), None, b.runs[run].totals.movement);
      PostFresh(b, run);
      RunEmitted(b.events, b.rows, run, |b.runs|);
      SummaryFree(b, run);
      EmittedNew(moved, e);
      PostedHas(b, d, moved, run);
      forall k | 0 <= k < |b.rows|
        ensures match d.rows[k].run
          case None => OriginEvented(d.events, d.rows[k])
          case Some(r) => r < |d.runs| && d.runs[r].status.Posted? ==> RowEvented(d.events, d.rows[k], r)
      {
        match b.rows[k].run
        case None => StillEvented(b.events, d.events, b.rows[k], 0);
        case Some(r) =>
          StillEvented(b.events, d.events, b.rows[k], r);
          StillEvented(moved, d.events, b.rows[k], r);
      }
      forall n | 0 <= n < |b.executions| ensures WriteOffEvented(d.events, d.executions[n], n) {
        StillWritten(b.events, d.events, b.executions[n], n);
      }
    }
  }

  lemma SummaryFree(b: Book, run: nat)
    requires KeysOk(b) && run < |b.runs| && b.runs[run].status.Completed?
    ensures !Known(EmitRows(b.events, b.rows, run), Summary(run))
  {
    var moved := EmitRows(b.events, b.rows, run);
    EmitRowsKeys(b.events, b.rows, run);
    forall k | 0 <= k < |moved| ensures moved[k].key != Summary(run) {
      if k < |b.events| {
        assert moved[k] == b.events[k] && Accounted(b, b.events[k].key);
      }
    }
  }

  // The roll-ups after posting: the run's own, and the earlier ones.
  lemma PostedHas(b: Book, d: Book, moved: seq<Event>, run: nat)
    requires Evented(b) && run < |b.runs| && d.runs == b.runs[run := b.runs[run].(status := Posted)]
    requires b.events <= moved <= d.events && Event(RollUp, Summary(run), None, b.runs[run].totals.movement) in d.events
    ensures b.events <= d.events
    ensures forall r :: 0 <= r < |d.runs| && d.runs[r].status.Posted? ==> Has(d.events, RollUp, Summary(r), None, d.runs[r].totals.movement)
  {
    hide RowsEvented, WriteOffEvented;
    assert b.events == moved[..|b.events|] == d.events[..|b.events|];
    StillHas(b.events, d.events);
  }

  // -------------------------------------------------------------------------
  // Origination, runs and write-offs
  // -------------------------------------------------------------------------

  lemma CarryRows(b: Book, d: Book, more: seq<Row>)
    requires RowsEvented(b) && d.rows == b.rows + more && b.events <= d.events
    requires |b.runs| <= |d.runs| && (forall r :: 0 <= r < |b.runs| ==> d.runs[r] == b.runs[r])
    requires forall r :: |b.runs| <= r < |d.runs| ==> d.runs[r].status.Completed?
    requires forall k :: 0 <= k < |more| ==> match more[k].run
      case None => OriginEvented(d.events, more[k])
      case Some(r) => r < |d.runs| && d.runs[r].status.Posted? ==> RowEvented(d.events, more[k], r)
    ensures RowsEvented(d)
  {
    hide RowEvented, OriginEvented;
    forall k | 0 <= k < |d.rows|
      ensures match d.rows[k].run
        case None => OriginEvented(d.events, d.rows[k])
        case Some(r) => r < |d.runs| && d.runs[r].status.Posted? ==> RowEvented(d.events, d.rows[k], r)
    {
      if k < |b.rows| {
        assert d.rows[k] == b.rows[k];
        match b.rows[k].run
        case None => StillEvented(b.events, d.events, b.rows[k], 0);
        case Some(r) => StillEvented(b.events, d.events, b.rows[k], r);
      } else {
        assert d.rows[k] == more[k - |b.rows|];
      }
    }
  }

  lemma CarryRest(b: Book, d: Book)
    requires Evented(b) && b.events <= d.events && |b.runs| <= |d.runs| && b.executions == d.executions
    requires (forall r :: 0 <= r < |b.runs| ==> d.runs[r] == b.runs[r]) && (forall r :: |b.runs| <= r < |d.runs| ==> d.runs[r].status.Completed?)
    requires RowsEvented(d)
    ensures Evented(d)
  {
    hide RowsEvented, WriteOffEvented, Has;
    StillHas(b.events, d.events);
    forall n | 0 <= n < |b.executions| ensures WriteOffEvented(d.events, d.executions[n], n) {
      StillWritten(b.events, d.events, b.executions[n], n);
    }
  }

  lemma InitialEvents(b: Book, input: Input, x: Exposure)
    requires KeysOk(b) && Evented(b)
    ensures Evented(InitialAssessment(b, input, x).0)
  {
    var v := VisitOf(input, x, None);
    if !HasOrigination(b.rows, x.contract) && Assess(b.rows, v).Ok? {
      hide Assess, Emit, RowsEvented, RowEvented, Has, Known, Evented;
      var d, r := InitialAssessment(b, input, x).0, Assess(b.rows, v).value;
      var e := Event(ProvisionCreated, Origination(x.contract), Some(x.contract), r.closing - r.opening);
      AssessIdentity(b.rows, v);
      UnknownKey(b, Origination(x.contract));
      EmittedNew(b.events, e);
      OriginJustEmitted(d.events, r, e);
      EventedRows(b);
      CarryRows(b, d, [r]);
      CarryRest(b, d);
    }
  }

  lemma EventedRows(b: Book)
    requires Evented(b)
    ensures RowsEvented(b)
  {
  }

  lemma OriginJustEmitted(events: seq<Event>, r: Row, e: Event)
    requires e == Event(ProvisionCreated, Origination(r.contract), Some(r.contract), r.closing - r.opening)
    requires e.amount != 0 ==> e in events
    ensures OriginEvented(events, r)
  {
  }

  lemma RunEvents(b: Book, input: Input, xs: seq<Exposure>)
    requires Evented(b)
    ensures Evented(RunEcl(b, input, xs).0)
  {
    if RunEcl(b, input, xs).1.Fine? {
      hide AssessAll, TotalsOf, RowsEvented, Evented;
      var d := RunEcl(b, input, xs).0;
      var more := d.rows[|b.rows|..];
      AssessAllRuns(b.rows, input, |b.runs|, xs);
      assert d.rows == b.rows + more;
      EventedRows(b);
      CarryRows(b, d, more);
      CarryRest(b, d);
    }
  }

  lemma {:induction false} AssessAllRuns(rows: seq<Row>, input: Input, run: nat, xs: seq<Exposure>)
    requires AssessAll(rows, input, run, xs).Ok?
    ensures var after := AssessAll(rows, input, run, xs).value; forall k :: |rows| <= k < |after| ==> after[k].run == Some(run)
    decreases |xs|
  {
    hide Assess;
    if xs != [] {
      var v := VisitOf(input, xs[0], Some(run));
      AssessIdentity(rows, v);
      AssessAllRuns(rows + [Assess(rows, v).value], input, run, xs[1..]);
    }
  }

  lemma WrittenJust(events: seq<Event>, x: WriteOffRow, n: nat)
    requires BookingEvent(n, x) in events && (x.taken.provision > 0 ==> ReleaseEvent(n, x) in events)
    ensures WriteOffEvented(events, x, n)
  {
  }

  lemma WriteOffEvents(b: Book, c: Command)
    requires KeysOk(b) && Evented(b) && c.DoWriteOff?
    ensures Evented(Step(b, c))
  {
    hide RowEvented, OriginEvented, WriteOffEvented, Has, KeysOk, ProvisionOf;
    var x, n := ExecutionOf(b, c), |b.executions|;
    WriteOffIs(b, c);
    var d := Written(b, x);
    assert d.events[|b.events|] == BookingEvent(n, x);
    if x.taken.provision > 0 { assert d.events[|b.events| + 1] == ReleaseEvent(n, x); }
    WrittenJust(d.events, x, n);
    CarryRows(b, d, []);
    StillHas(b.events, d.events);
    forall k | 0 <= k < |d.executions| ensures WriteOffEvented(d.events, d.executions[k], k) {
      if k < n { StillWritten(b.events, d.events, b.executions[k], k); }
    }
  }

  lemma StepEvents(b: Book, c: Command)
    requires Consistent(b, 0) && Evented(b)
    ensures Evented(Step(b, c))
  {
    hide Evented, OpeningsOk, TotalsOk, RollUpsOk, InitialAssessment, RunEcl, PostRun, RowsOk, KeysOk;
    match c
    case DoInitial(input, x) => InitialEvents(b, input, x);
    case DoRun(input, xs) => RunEvents(b, input, xs);
    case DoPost(run) => PostEvents(b, run);
    case DoWriteOff(_, _, _, _, _) => WriteOffEvents(b, c);
  }

  lemma {:induction false} RunEvented(b: Book, commands: seq<Command>)
    requires Consistent(b, 0) && Evented(b) && forall k :: 0 <= k < |commands| ==> Regular(commands[k])
    ensures Evented(Run(b, commands))
    decreases |commands|
  {
    hide Consistent, Evented, Step, Regular;
    if commands != [] {
      StepKeeps(b, commands[0], 0);
      StepEvents(b, commands[0]);
      RunEvented(Step(b, commands[0]), commands[1..]);
    }
  }

  lemma NewEvented()
    ensures Evented(NEW)
  {
  }

  // After any originations, runs, postings and write-offs: each origination that moved the provision, each
  // part of a posted row's movement, each posted run and each write-off has its event, of the kind that
  // says what it does and with its amount.
  lemma EveryMovementHasItsEvent(commands: seq<Command>)
    requires forall k :: 0 <= k < |commands| ==> Regular(commands[k])
    ensures Evented(Run(NEW, commands))
  {
    hide Consistent, Evented, Run, Regular;
    NewConsistent(0);
    NewEvented();
    RunEvented(NEW, commands);
  }
}
