// What the events of the run-and-post protocol add up to.
module EclBookLaws {
  import opened Options
  import opened Sums
  import opened EclModel
  import opened EclAssessment
  import opened EclHistory
  import opened EclBook

  // -------------------------------------------------------------------------
  // Sums over events and rows
  // -------------------------------------------------------------------------

  predicate OfWriteOff(key: Key) { key.WriteOffBooking? || key.WriteOffRelease? }

  // The contract's provision events, those of write-offs apart.
  function EventSum(events: seq<Event>, contract: nat): int {
    if events == [] then 0
    else
      var last := events[|events| - 1];
      EventSum(events[..|events| - 1], contract) + if last.contract == Some(contract) && !OfWriteOff(last.key) then last.amount else 0
  }

  function ReleaseSum(events: seq<Event>, contract: nat): int {
    if events == [] then 0
    else
      var last := events[|events| - 1];
      ReleaseSum(events[..|events| - 1], contract) + if last.contract == Some(contract) && last.key.WriteOffRelease? then last.amount else 0
  }

  predicate OfRun(key: Key, run: nat) { (key.Move? || key.Adjust?) && key.run == run }

  // The contract-level events one run was posted with.
  function RunSum(events: seq<Event>, run: nat): int {
    if events == [] then 0
    else
      var last := events[|events| - 1];
      RunSum(events[..|events| - 1], run) + if OfRun(last.key, run) then last.amount else 0
  }

  // The movement of the rows of one run, of one contract or of all.
  function MoveSum(rows: seq<Row>, run: nat, contract: Option<nat>): int {
    if rows == [] then 0
    else
      var last := rows[|rows| - 1];
      MoveSum(rows[..|rows| - 1], run, contract)
      + if last.run == Some(run) && (contract.None? || contract.value == last.contract) then last.closing - last.opening else 0
  }

  predicate CountsIn(r: Row, runs: seq<RunRow>) {
    r.run.None? || (r.run.value < |runs| && runs[r.run.value].status.Posted?)
  }

  // Closing minus opening over the contract's origination row and its posted rows.
  function Counted(rows: seq<Row>, runs: seq<RunRow>, contract: nat): int {
    if rows == [] then 0
    else
      var last := rows[|rows| - 1];
      Counted(rows[..|rows| - 1], runs, contract) + if last.contract == contract && CountsIn(last, runs) then last.closing - last.opening else 0
  }

  function MovedAll(rows: seq<Row>, contract: nat): int {
    if rows == [] then 0
    else
      var last := rows[|rows| - 1];
      MovedAll(rows[..|rows| - 1], contract) + if last.contract == contract then last.closing - last.opening else 0
  }

  function LastRow(rows: seq<Row>, contract: nat): Option<Row> {
    if rows == [] then None
    else if rows[|rows| - 1].contract == contract then Some(rows[|rows| - 1]) else LastRow(rows[..|rows| - 1], contract)
  }

  function LastClosing(rows: seq<Row>, contract: nat): int {
    match LastRow(rows, contract)
    case None => 0
    case Some(r) => r.closing
  }

  lemma EventAppend(events: seq<Event>, e: Event, contract: nat, run: nat)
    ensures EventSum(events + [e], contract) ==
      EventSum(events, contract) + if e.contract == Some(contract) && !OfWriteOff(e.key) then e.amount else 0
    ensures ReleaseSum(events + [e], contract) ==
      ReleaseSum(events, contract) + if e.contract == Some(contract) && e.key.WriteOffRelease? then e.amount else 0
    ensures RunSum(events + [e], run) == RunSum(events, run) + if OfRun(e.key, run) then e.amount else 0
  {
    assert (events + [e])[..|events|] == events;
  }

  lemma KnownAppend(events: seq<Event>, e: Event, key: Key)
    ensures Known(events + [e], key) <==> Known(events, key) || e.key == key
  {
    if Known(events, key) {
      var k :| 0 <= k < |events| && events[k].key == key;
      assert (events + [e])[k].key == key;
    }
    if e.key == key {
      assert (events + [e])[|events|].key == key;
    }
  }

  // -------------------------------------------------------------------------
  // The invariant
  // -------------------------------------------------------------------------

  // One row per contract and run, one origination row per contract, runs that exist.
  predicate RowsOk(rows: seq<Row>, runs: nat) {
    && (forall k :: 0 <= k < |rows| && rows[k].run.Some? ==> rows[k].run.value < runs)
    && (forall j, k :: 0 <= j < k < |rows| && rows[j].contract == rows[k].contract ==> rows[j].run != rows[k].run)
  }

  // A row opens where the contract's previous row closed, as long as dates did not go back.
  predicate OpeningsOk(rows: seq<Row>) {
    forall k :: 0 <= k < |rows| && Chronological(rows[..k + 1], rows[k].contract) ==>
      rows[k].opening == LastClosing(rows[..k], rows[k].contract)
  }

  predicate Accounted(b: Book, key: Key) {
    match key
    case Origination(c) => HasOrigination(b.rows, c)
    case Move(run, _) => run < |b.runs| && b.runs[run].status.Posted?
    case Adjust(run, _) => run < |b.runs| && b.runs[run].status.Posted?
    case Summary(run) => run < |b.runs| && b.runs[run].status.Posted?
    case WriteOffBooking(n) => n < |b.executions|
    case WriteOffRelease(n) => n < |b.executions|
  }

  predicate KeysOk(b: Book) {
    forall k :: 0 <= k < |b.events| ==> Accounted(b, b.events[k].key)
  }

  predicate TotalsOk(b: Book) {
    forall r :: 0 <= r < |b.runs| ==>
      && b.runs[r].totals.movement == MoveSum(b.rows, r, None)
      && b.runs[r].totals.loss == b.runs[r].totals.stage1 + b.runs[r].totals.stage2 + b.runs[r].totals.stage3 + b.runs[r].totals.none
  }

  // The roll-up of a posted run carries the run's movement, which its contract events add up to.
  predicate RollUpsOk(b: Book) {
    && (forall r :: 0 <= r < |b.runs| ==> RunSum(b.events, r) == if b.runs[r].status.Posted? then b.runs[r].totals.movement else 0)
    && (forall r :: 0 <= r < |b.runs| && b.runs[r].status.Posted? ==> Known(b.events, Summary(r)))
    && (forall k :: 0 <= k < |b.events| && b.events[k].key.Summary? && b.events[k].key.run < |b.runs| ==>
         b.events[k].amount == b.runs[b.events[k].key.run].totals.movement)
  }

  predicate EventsOk(b: Book, contract: nat) {
    EventSum(b.events, contract) == Counted(b.rows, b.runs, contract)
  }

  predicate Consistent(b: Book, contract: nat) {
    && RowsOk(b.rows, |b.runs|) && OpeningsOk(b.rows) && KeysOk(b) && TotalsOk(b) && RollUpsOk(b) && EventsOk(b, contract)
  }

  // -------------------------------------------------------------------------
  // Openings
  // -------------------------------------------------------------------------

  lemma {:induction false} LastRowIs(rows: seq<Row>, contract: nat)
    ensures LastRow(rows, contract).Some? ==>
      exists k :: 0 <= k < |rows| && rows[k] == LastRow(rows, contract).value && rows[k].contract == contract
    ensures LastRow(rows, contract).None? ==> forall k :: 0 <= k < |rows| ==> rows[k].contract != contract
  {
    if rows != [] {
      var init := rows[..|rows| - 1];
      LastRowIs(init, contract);
      if rows[|rows| - 1].contract == contract {
        assert rows[|rows| - 1] == LastRow(rows, contract).value;
      } else if LastRow(init, contract).Some? {
        var k :| 0 <= k < |init| && init[k] == LastRow(init, contract).value && init[k].contract == contract;
        assert rows[k] == init[k];
      }
    }
  }

  lemma {:induction false} PriorIsLast(h: seq<Row>, contract: nat, day: int, exclude: Option<nat>)
    requires Chronological(h, contract) && UpTo(h, contract, day)
    requires exclude.Some? ==> forall k :: 0 <= k < |h| && h[k].contract == contract ==> h[k].run != exclude
    ensures Prior(h, contract, day, exclude) == LastRow(h, contract)
  {
    if h != [] {
      var init := h[..|h| - 1];
      assert Chronological(init, contract);
      PriorIsLast(init, contract, day, exclude);
      LastRowIs(init, contract);
      if LastRow(init, contract).Some? {
        var k :| 0 <= k < |init| && init[k] == LastRow(init, contract).value && init[k].contract == contract;
        assert h[k] == init[k];
      }
    }
  }

  lemma {:induction false} LatestIsLast(h: seq<Row>, contract: nat)
    requires Chronological(h, contract)
    ensures Latest(h, contract) == LastRow(h, contract)
  {
    if h != [] {
      var init := h[..|h| - 1];
      assert Chronological(init, contract);
      LatestIsLast(init, contract);
      LastRowIs(init, contract);
      if LastRow(init, contract).Some? {
        var k :| 0 <= k < |init| && init[k] == LastRow(init, contract).value && init[k].contract == contract;
        assert h[k] == init[k];
      }
    }
  }

  lemma OpeningsAppend(h: seq<Row>, v: Visit, runs: nat)
    requires RowsOk(h, runs) && OpeningsOk(h) && Assess(h, v).Ok? && (v.run.Some? ==> v.run.value < runs)
    requires forall k :: 0 <= k < |h| && h[k].contract == v.contract ==> h[k].run != v.run
    ensures RowsOk(h + [Assess(h, v).value], runs) && OpeningsOk(h + [Assess(h, v).value])
  {
    var r := Assess(h, v).value;
    var g := h + [r];
    AssessIdentity(h, v);
    forall k | 0 <= k < |g| && Chronological(g[..k + 1], g[k].contract)
      ensures g[k].opening == LastClosing(g[..k], g[k].contract)
    {
      if k < |h| {
        assert g[..k + 1] == h[..k + 1] && g[..k] == h[..k] && g[k] == h[k];
      } else {
        assert g[..k + 1] == g && g[..k] == h;
        DatesUpTo(h, r);
        PriorIsLast(h, v.contract, v.asOf, v.run);
      }
    }
  }

  lemma DatesUpTo(h: seq<Row>, r: Row)
    requires Chronological(h + [r], r.contract)
    ensures Chronological(h, r.contract) && UpTo(h, r.contract, r.asOf)
  {
    var g := h + [r];
    assert forall k :: 0 <= k < |h| ==> g[k] == h[k];
    assert g[|h|] == r;
  }

  lemma AssessIdentity(h: seq<Row>, v: Visit)
    requires Assess(h, v).Ok?
    ensures var r := Assess(h, v).value;
      r.contract == v.contract && r.run == v.run && r.asOf == v.asOf && r.opening == OpeningOf(h, v)
      && r.version == v.version && r.snapshot == v.calibration
  {
  }

  // A visit dated before everything the contract has opens at zero: its whole closing provision
  // would be booked again.
  lemma {:induction false} NothingBefore(h: seq<Row>, contract: nat, day: int, exclude: Option<nat>)
    requires forall k :: 0 <= k < |h| && h[k].contract == contract ==> h[k].asOf > day
    ensures Prior(h, contract, day, exclude).None?
  {
    if h != [] {
      NothingBefore(h[..|h| - 1], contract, day, exclude);
    }
  }

  lemma BackdatedOpensAtZero(h: seq<Row>, v: Visit)
    requires Assess(h, v).Ok? && forall k :: 0 <= k < |h| && h[k].contract == v.contract ==> h[k].asOf > v.asOf
    ensures Assess(h, v).value.opening == 0
  {
    NothingBefore(h, v.contract, v.asOf, v.run);
    AssessIdentity(h, v);
  }

  // Movements telescope over chronological rows.
  lemma {:induction false} Telescope(rows: seq<Row>, contract: nat)
    requires OpeningsOk(rows) && Chronological(rows, contract)
    ensures MovedAll(rows, contract) == LastClosing(rows, contract)
  {
    if rows != [] {
      var init, last := rows[..|rows| - 1], rows[|rows| - 1];
      assert Chronological(init, contract);
      forall k | 0 <= k < |init| && Chronological(init[..k + 1], init[k].contract)
        ensures init[k].opening == LastClosing(init[..k], init[k].contract)
      {
        assert init[..k + 1] == rows[..k + 1] && init[..k] == rows[..k] && init[k] == rows[k];
      }
      Telescope(init, contract);
      if last.contract == contract {
        assert rows[..|rows| - 1 + 1] == rows;
      }
    }
  }

  lemma {:induction false} AllPostedCountsAll(rows: seq<Row>, runs: seq<RunRow>, contract: nat)
    requires forall k :: 0 <= k < |rows| && rows[k].contract == contract ==> CountsIn(rows[k], runs)
    ensures Counted(rows, runs, contract) == MovedAll(rows, contract)
  {
    if rows != [] {
      AllPostedCountsAll(rows[..|rows| - 1], runs, contract);
    }
  }

  // -------------------------------------------------------------------------
  // Posting a run
  // -------------------------------------------------------------------------

  predicate Fresh(events: seq<Event>, rows: seq<Row>, run: nat) {
    forall k :: 0 <= k < |rows| && rows[k].run == Some(run) ==>
      !Known(events, Move(run, rows[k].contract)) && !Known(events, Adjust(run, rows[k].contract))
  }

  lemma EmitNonZeroSums(events: seq<Event>, e: Event, contract: nat, run: nat)
    requires !Known(events, e.key) && !OfWriteOff(e.key)
    ensures var after := EmitNonZero(events, e);
      && EventSum(after, contract) == EventSum(events, contract) + (if e.contract == Some(contract) then e.amount else 0)
      && ReleaseSum(after, contract) == ReleaseSum(events, contract)
      && RunSum(after, run) == RunSum(events, run) + (if OfRun(e.key, run) then e.amount else 0)
      && (forall key :: Known(after, key) ==> Known(events, key) || key == e.key)
  {
    EventAppend(events, e, contract, run);
    forall key | Known(EmitNonZero(events, e), key) ensures Known(events, key) || key == e.key {
      KnownAppend(events, e, key);
    }
  }

  // One row's one or two events carry its movement.
  lemma EmitRowSums(events: seq<Event>, r: Row, run: nat, contract: nat, other: nat)
    requires !Known(events, Move(run, r.contract)) && !Known(events, Adjust(run, r.contract))
    ensures var after := EmitRow(events, r, run);
      && EventSum(after, contract) == EventSum(events, contract) + (if r.contract == contract then r.closing - r.opening else 0)
      && ReleaseSum(after, contract) == ReleaseSum(events, contract)
      && RunSum(after, other) == RunSum(events, other) + (if other == run then r.closing - r.opening else 0)
  {
    hide EmitNonZero, Known, EventSum, ReleaseSum, RunSum;
    EmitNonZeroSums(events, ModelEvent(r, run), contract, other);
    EmitNonZeroSums(EmitNonZero(events, ModelEvent(r, run)), OverrideEvent(r, run), contract, other);
  }

  lemma EmitRowKeys(events: seq<Event>, r: Row, run: nat)
    ensures var after := EmitRow(events, r, run);
      && events <= after
      && (forall k :: |events| <= k < |after| ==> OfRun(after[k].key, run) && after[k].key.contract == r.contract)
  {
  }

  predicate HasRow(rows: seq<Row>, run: nat, contract: nat) {
    exists j :: 0 <= j < |rows| && rows[j].run == Some(run) && rows[j].contract == contract
  }

  lemma HasRowLonger(rows: seq<Row>, run: nat, contract: nat)
    requires rows != [] && HasRow(rows[..|rows| - 1], run, contract)
    ensures HasRow(rows, run, contract)
  {
    var j :| 0 <= j < |rows| - 1 && rows[..|rows| - 1][j].run == Some(run) && rows[..|rows| - 1][j].contract == contract;
    assert rows[j].run == Some(run) && rows[j].contract == contract;
  }

  // The events a run is posted with are keyed by the run and by contracts it assessed.
  lemma {:induction false} EmitRowsKeys(events: seq<Event>, rows: seq<Row>, run: nat)
    ensures var after := EmitRows(events, rows, run);
      && events <= after
      && (forall k :: |events| <= k < |after| ==> OfRun(after[k].key, run) && HasRow(rows, run, after[k].key.contract))
    decreases |rows|
  {
    if rows != [] {
      var init, last := rows[..|rows| - 1], rows[|rows| - 1];
      EmitRowsKeys(events, init, run);
      var before, after := EmitRows(events, init, run), EmitRows(events, rows, run);
      if last.run == Some(run) { EmitRowKeys(before, last, run); }
      forall k | |events| <= k < |after| ensures OfRun(after[k].key, run) && HasRow(rows, run, after[k].key.contract) {
        if k < |before| {
          assert after[k] == before[k];
          HasRowLonger(rows, run, before[k].key.contract);
        } else {
          assert rows[|rows| - 1].run == Some(run);
        }
      }
    }
  }

  lemma KeyStillFree(events: seq<Event>, rows: seq<Row>, run: nat, key: Key, runs: nat)
    requires rows != [] && RowsOk(rows, runs) && rows[|rows| - 1].run == Some(run) && OfRun(key, run)
    requires key.contract == rows[|rows| - 1].contract && !Known(events, key)
    ensures !Known(EmitRows(events, rows[..|rows| - 1], run), key)
  {
    var init := rows[..|rows| - 1];
    var before := EmitRows(events, init, run);
    EmitRowsKeys(events, init, run);
    forall k | 0 <= k < |before| ensures before[k].key != key {
      if k >= |events| {
        var j :| 0 <= j < |init| && init[j].run == Some(run) && init[j].contract == before[k].key.contract;
        assert rows[j] == init[j];
        assert rows[j].contract != rows[|rows| - 1].contract;
      }
    }
  }

  lemma {:induction false} EmitRowsSums(events: seq<Event>, rows: seq<Row>, run: nat, runs: nat, contract: nat, other: nat)
    requires RowsOk(rows, runs) && Fresh(events, rows, run)
    ensures var after := EmitRows(events, rows, run);
      && EventSum(after, contract) == EventSum(events, contract) + MoveSum(rows, run, Some(contract))
      && ReleaseSum(after, contract) == ReleaseSum(events, contract)
      && RunSum(after, other) == RunSum(events, other) + (if other == run then MoveSum(rows, run, None) else 0)
    decreases |rows|
  {
    if rows != [] {
      var init, last := rows[..|rows| - 1], rows[|rows| - 1];
      assert RowsOk(init, runs) && Fresh(events, init, run);
      EmitRowsSums(events, init, run, runs, contract, other);
      if last.run == Some(run) {
        KeyStillFree(events, rows, run, Move(run, last.contract), runs);
        KeyStillFree(events, rows, run, Adjust(run, last.contract), runs);
        EmitRowSums(EmitRows(events, init, run), last, run, contract, other);
      }
    }
  }

  // Marking one run as posted counts its rows and no others.
  lemma {:induction false} CountedPost(rows: seq<Row>, runs: seq<RunRow>, run: nat, contract: nat)
    requires run < |runs| && runs[run].status.Completed?
    ensures Counted(rows, runs[run := runs[run].(status := Posted)], contract) ==
      Counted(rows, runs, contract) + MoveSum(rows, run, Some(contract))
  {
    if rows != [] {
      CountedPost(rows[..|rows| - 1], runs, run, contract);
    }
  }

  lemma {:induction false} CountedLater(rows: seq<Row>, runs: seq<RunRow>, run: RunRow, contract: nat)
    requires RowsOk(rows, |runs|)
    ensures Counted(rows, runs + [run], contract) == Counted(rows, runs, contract)
  {
    if rows != [] {
      var last := rows[|rows| - 1];
      CountedLater(rows[..|rows| - 1], runs, run, contract);
      assert CountsIn(last, runs + [run]) == CountsIn(last, runs);
    }
  }

  // Rows of a run that is not posted yet do not count.
  lemma {:induction false} CountedNewRun(rows: seq<Row>, more: seq<Row>, runs: seq<RunRow>, run: RunRow, contract: nat)
    requires RowsOk(rows, |runs|) && run.status.Completed?
    requires forall k :: 0 <= k < |more| ==> more[k].run == Some(|runs|)
    ensures Counted(rows + more, runs + [run], contract) == Counted(rows, runs, contract)
    decreases |more|
  {
    if more == [] {
      assert rows + more == rows;
      CountedLater(rows, runs, run, contract);
    } else {
      assert (rows + more)[..|rows + more| - 1] == rows + more[..|more| - 1];
      assert !CountsIn(more[|more| - 1], runs + [run]);
      CountedNewRun(rows, more[..|more| - 1], runs, run, contract);
    }
  }

  predicate NoneOf(rows: seq<Row>, run: nat) { forall k :: 0 <= k < |rows| ==> rows[k].run != Some(run) }

  lemma {:induction false} NoMoves(rows: seq<Row>, run: nat)
    requires NoneOf(rows, run)
    ensures MoveSum(rows, run, None) == 0
  {
    if rows != [] {
      NoMoves(rows[..|rows| - 1], run);
    }
  }

  lemma MoveSnoc(rows: seq<Row>, r: Row, run: nat)
    ensures MoveSum(rows + [r], run, None) == MoveSum(rows, run, None) + if r.run == Some(run) then r.closing - r.opening else 0
    ensures TotalsOf(rows + [r]).movement == TotalsOf(rows).movement + r.closing - r.opening
  {
    assert (rows + [r])[..|rows|] == rows;
  }

  lemma {:induction false} MoveSumNewRun(rows: seq<Row>, more: seq<Row>, run: nat, next: nat)
    requires NoneOf(rows, next) && run <= next && forall k :: 0 <= k < |more| ==> more[k].run == Some(next)
    ensures MoveSum(rows + more, run, None) == if run == next then TotalsOf(more).movement else MoveSum(rows, run, None)
    decreases |more|
  {
    hide MoveSum, Plus;
    if more == [] {
      assert rows + more == rows;
      NoMoves(rows, next);
    } else {
      var init, last := more[..|more| - 1], more[|more| - 1];
      MoveSumNewRun(rows, init, run, next);
      MoveSnoc(rows + init, last, run);
      MoveSnoc(init, last, run);
      assert rows + more == (rows + init) + [last] && more == init + [last];
    }
  }

  lemma {:induction false} TotalsAddUp(rows: seq<Row>)
    ensures var t := TotalsOf(rows); t.loss == t.stage1 + t.stage2 + t.stage3 + t.none
    ensures (forall k :: 0 <= k < |rows| ==> rows[k].final.stage.Some? && 1 <= rows[k].final.stage.value <= 3) ==> TotalsOf(rows).none == 0
  {
    if rows != [] {
      TotalsAddUp(rows[..|rows| - 1]);
    }
  }

  lemma {:induction false} AssessAllLaws(rows: seq<Row>, input: Input, run: nat, xs: seq<Exposure>)
    requires RowsOk(rows, run + 1) && OpeningsOk(rows) && Distinct(xs) && AssessAll(rows, input, run, xs).Ok?
    requires forall i, k :: 0 <= i < |xs| && 0 <= k < |rows| && rows[k].contract == xs[i].contract ==> rows[k].run != Some(run)
    ensures var out := AssessAll(rows, input, run, xs).value;
      && RowsOk(out, run + 1) && OpeningsOk(out)
      && (forall k :: |rows| <= k < |out| ==> out[k].run == Some(run) && out[k].version == input.version && out[k].snapshot == input.calibration)
    decreases |xs|
  {
    if xs != [] {
      var v := VisitOf(input, xs[0], Some(run));
      var r := Assess(rows, v).value;
      AssessIdentity(rows, v);
      OpeningsAppend(rows, v, run + 1);
      AssessAllLaws(rows + [r], input, run, xs[1..]);
    }
  }
}
