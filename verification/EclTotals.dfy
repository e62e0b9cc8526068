// What the stored totals of a portfolio run say of its rows (app/services/ecl.py, run_ecl()).
module EclTotals {
  import opened Options
  import opened Sums
  import opened EclModel
  import opened EclAssessment
  import opened EclBook
  import opened EclBookLaws
  import opened EclBookTheorems

  // -------------------------------------------------------------------------
  // Sums over the rows of one run
  // -------------------------------------------------------------------------

  function One(r: Row): int { 1 }

  function LossOf(r: Row): int { r.final.loss }

  function ExposureOf(r: Row): int { r.auto.ead }

  function MovedBy(r: Row): int { r.closing - r.opening }

  // An amount, counted for the rows of run `run` only.
  function InRun(run: nat, f: Row -> int): Row -> int { (r: Row) => if r.run == Some(run) then f(r) else 0 }

  // The loss of the rows booked in one stage, and of those booked in none of the three.
  function LossAt(stage: int): Row -> int { (r: Row) => if r.final.stage == Some(stage) then r.final.loss else 0 }

  function LossElsewhere(r: Row): int {
    if r.final.stage == Some(1) || r.final.stage == Some(2) || r.final.stage == Some(3) then 0 else r.final.loss
  }

  predicate AddsUp(rows: seq<Row>, t: Totals, run: nat) {
    && t.exposure == Sum(rows, InRun(run, ExposureOf)) && t.loss == Sum(rows, InRun(run, LossOf))
    && t.stage1 == Sum(rows, InRun(run, LossAt(1))) && t.stage2 == Sum(rows, InRun(run, LossAt(2)))
    && t.stage3 == Sum(rows, InRun(run, LossAt(3))) && t.none == Sum(rows, InRun(run, LossElsewhere))
    && t.movement == Sum(rows, InRun(run, MovedBy))
  }

  // What a run row says of itself: one row per contract assessed, on its day and under its version.
  predicate Described(rows: seq<Row>, r: RunRow, run: nat) {
    && r.contracts == Sum(rows, InRun(run, One))
    && forall k :: 0 <= k < |rows| && rows[k].run == Some(run) ==> rows[k].asOf == r.asOf && rows[k].version == r.version
  }

  predicate RunsAddUp(b: Book) {
    forall r :: 0 <= r < |b.runs| ==> AddsUp(b.rows, b.runs[r].totals, r) && Described(b.rows, b.runs[r], r)
  }

  predicate NoneLater(b: Book) { forall k :: 0 <= k < |b.rows| && b.rows[k].run.Some? ==> b.rows[k].run.value < |b.runs| }

  // -------------------------------------------------------------------------
  // Rows of other runs do not count
  // -------------------------------------------------------------------------

  lemma {:induction false} OthersCountNothing(rows: seq<Row>, run: nat, f: Row -> int)
    requires forall k :: 0 <= k < |rows| ==> rows[k].run != Some(run)
    ensures Sum(rows, InRun(run, f)) == 0
  {
    if rows != [] {
      OthersCountNothing(rows[1..], run, f);
    }
  }

  lemma Unmoved(rows: seq<Row>, more: seq<Row>, run: nat, f: Row -> int)
    requires forall k :: 0 <= k < |more| ==> more[k].run != Some(run)
    ensures Sum(rows + more, InRun(run, f)) == Sum(rows, InRun(run, f))
  {
    SumAppend(rows, more, InRun(run, f));
    OthersCountNothing(more, run, f);
  }

  lemma StillAddsUp(rows: seq<Row>, more: seq<Row>, t: RunRow, run: nat)
    requires AddsUp(rows, t.totals, run) && Described(rows, t, run) && forall k :: 0 <= k < |more| ==> more[k].run != Some(run)
    ensures AddsUp(rows + more, t.totals, run) && Described(rows + more, t, run)
  {
    hide Sums.Sum;
    Unmoved(rows, more, run, ExposureOf);
    Unmoved(rows, more, run, LossOf);
    Unmoved(rows, more, run, LossAt(1));
    Unmoved(rows, more, run, LossAt(2));
    Unmoved(rows, more, run, LossAt(3));
    Unmoved(rows, more, run, LossElsewhere);
    Unmoved(rows, more, run, MovedBy);
    Unmoved(rows, more, run, One);
    assert forall k :: 0 <= k < |rows| ==> (rows + more)[k] == rows[k];
    assert forall k :: |rows| <= k < |rows + more| ==> (rows + more)[k] == more[k - |rows|];
  }

  // -------------------------------------------------------------------------
  // The run's own rows
  // -------------------------------------------------------------------------

  lemma OneMoreRow(init: seq<Row>, last: Row, run: nat, f: Row -> int)
    requires last.run == Some(run)
    ensures Sum(init + [last], InRun(run, f)) == Sum(init, InRun(run, f)) + f(last)
  {
    SumSnoc(init, last, InRun(run, f));
  }

  lemma OneMoreAddsUp(init: seq<Row>, last: Row, t: Totals, run: nat)
    requires last.run == Some(run) && AddsUp(init, t, run)
    ensures AddsUp(init + [last], Plus(t, last), run)
  {
    hide Sums.Sum;
    OneMoreRow(init, last, run, ExposureOf);
    OneMoreRow(init, last, run, LossOf);
    OneMoreRow(init, last, run, LossAt(1));
    OneMoreRow(init, last, run, LossAt(2));
    OneMoreRow(init, last, run, LossAt(3));
    OneMoreRow(init, last, run, LossElsewhere);
    OneMoreRow(init, last, run, MovedBy);
  }

  lemma {:induction false} OwnRows(rows: seq<Row>, run: nat)
    requires forall k :: 0 <= k < |rows| ==> rows[k].run == Some(run)
    ensures AddsUp(rows, TotalsOf(rows), run) && Sum(rows, InRun(run, One)) == |rows|
  {
    if rows != [] {
      hide Sums.Sum, AddsUp, Plus;
      var init, last := rows[..|rows| - 1], rows[|rows| - 1];
      OwnRows(init, run);
      assert rows == init + [last];
      OneMoreAddsUp(init, last, TotalsOf(init), run);
      OneMoreRow(init, last, run, One);
    }
  }

  lemma Prepended(rows: seq<Row>, more: seq<Row>, run: nat, f: Row -> int)
    requires forall k :: 0 <= k < |rows| ==> rows[k].run != Some(run)
    ensures Sum(rows + more, InRun(run, f)) == Sum(more, InRun(run, f))
  {
    SumAppend(rows, more, InRun(run, f));
    OthersCountNothing(rows, run, f);
  }

  lemma NewAddsUp(rows: seq<Row>, more: seq<Row>, t: RunRow, run: nat)
    requires (forall k :: 0 <= k < |rows| ==> rows[k].run != Some(run)) && (forall k :: 0 <= k < |more| ==> more[k].run == Some(run))
    requires t.totals == TotalsOf(more) && t.contracts == |more|
    requires forall k :: 0 <= k < |more| ==> more[k].asOf == t.asOf && more[k].version == t.version
    ensures AddsUp(rows + more, t.totals, run) && Described(rows + more, t, run)
  {
    hide Sums.Sum, TotalsOf;
    OwnRows(more, run);
    Prepended(rows, more, run, ExposureOf);
    Prepended(rows, more, run, LossOf);
    Prepended(rows, more, run, LossAt(1));
    Prepended(rows, more, run, LossAt(2));
    Prepended(rows, more, run, LossAt(3));
    Prepended(rows, more, run, LossElsewhere);
    Prepended(rows, more, run, MovedBy);
    Prepended(rows, more, run, One);
    assert forall k :: 0 <= k < |rows| ==> (rows + more)[k] == rows[k];
    assert forall k :: |rows| <= k < |rows + more| ==> (rows + more)[k] == more[k - |rows|];
  }

  lemma {:induction false} AssessedRows(rows: seq<Row>, input: Input, run: nat, xs: seq<Exposure>)
    requires AssessAll(rows, input, run, xs).Ok?
    ensures var after := AssessAll(rows, input, run, xs).value;
      forall k :: |rows| <= k < |after| ==> after[k].run == Some(run) && after[k].asOf == input.asOf && after[k].version == input.version
    decreases |xs|
  {
    hide Assess;
    if xs != [] {
      var v := VisitOf(input, xs[0], Some(run));
      AssessIdentity(rows, v);
      AssessedRows(rows + [Assess(rows, v).value], input, run, xs[1..]);
    }
  }

  // -------------------------------------------------------------------------
  // Every run of the protocol
  // -------------------------------------------------------------------------

  // What a completed run leaves: the rows of before, its own, and one run more.
  lemma RunShape(b: Book, input: Input, xs: seq<Exposure>) returns (more: seq<Row>)
    requires RunEcl(b, input, xs).1.Fine?
    ensures var d := RunEcl(b, input, xs).0;
      && d.rows == b.rows + more && |d.runs| == |b.runs| + 1 && (forall r :: 0 <= r < |b.runs| ==> d.runs[r] == b.runs[r])
      && d.runs[|b.runs|].totals == TotalsOf(more) && d.runs[|b.runs|].contracts == |more|
      && forall k :: 0 <= k < |more| ==>
        more[k].run == Some(|b.runs|) && more[k].asOf == d.runs[|b.runs|].asOf && more[k].version == d.runs[|b.runs|].version
  {
    hide AssessAll, TotalsOf;
    more := RunEcl(b, input, xs).0.rows[|b.rows|..];
    AssessedRows(b.rows, input, |b.runs|, xs);
  }

  lemma OneRun(b: Book, d: Book, more: seq<Row>, r: nat)
    requires RunsAddUp(b) && NoneLater(b) && d.rows == b.rows + more && r <= |b.runs| < |d.runs|
    requires r < |b.runs| ==> d.runs[r] == b.runs[r]
    requires r == |b.runs| ==> d.runs[r].totals == TotalsOf(more) && d.runs[r].contracts == |more|
    requires forall k :: 0 <= k < |more| ==> more[k].run == Some(|b.runs|)
    requires r == |b.runs| ==> forall k :: 0 <= k < |more| ==> more[k].asOf == d.runs[r].asOf && more[k].version == d.runs[r].version
    ensures AddsUp(d.rows, d.runs[r].totals, r) && Described(d.rows, d.runs[r], r)
  {
    hide TotalsOf, AddsUp, Described;
    if r < |b.runs| {
      StillAddsUp(b.rows, more, b.runs[r], r);
    } else {
      NewAddsUp(b.rows, more, d.runs[r], r);
    }
  }

  lemma NoneLaterStill(b: Book, d: Book, more: seq<Row>)
    requires NoneLater(b) && d.rows == b.rows + more && |d.runs| == |b.runs| + 1 && forall k :: 0 <= k < |more| ==> more[k].run == Some(|b.runs|)
    ensures NoneLater(d)
  {
  }

  lemma RunEclAddsUp(b: Book, input: Input, xs: seq<Exposure>)
    requires RunsAddUp(b) && NoneLater(b)
    ensures var d := RunEcl(b, input, xs).0; RunsAddUp(d) && NoneLater(d)
  {
    hide RunEcl, AddsUp, Described, NoneLater, TotalsOf;
    var d := RunEcl(b, input, xs).0;
    RunOrNothing(b, input, xs);
    if RunEcl(b, input, xs).1.Fine? {
      var more := RunShape(b, input, xs);
      NoneLaterStill(b, d, more);
      forall r | 0 <= r < |d.runs| ensures AddsUp(d.rows, d.runs[r].totals, r) && Described(d.rows, d.runs[r], r) {
        OneRun(b, d, more, r);
      }
    }
  }

  lemma RunOrNothing(b: Book, input: Input, xs: seq<Exposure>)
    ensures RunEcl(b, input, xs).1.Fine? || RunEcl(b, input, xs).0 == b
  {
    hide AssessAll, TotalsOf;
  }

  lemma InitialAddsUp(b: Book, input: Input, x: Exposure)
    requires RunsAddUp(b) && NoneLater(b)
    ensures var d := InitialAssessment(b, input, x).0; RunsAddUp(d) && NoneLater(d)
  {
    hide Assess, AddsUp, Described, Emit;
    var v := VisitOf(input, x, None);
    if !HasOrigination(b.rows, x.contract) && Assess(b.rows, v).Ok? {
      AssessIdentity(b.rows, v);
      forall r | 0 <= r < |b.runs|
        ensures AddsUp(b.rows + [Assess(b.rows, v).value], b.runs[r].totals, r) && Described(b.rows + [Assess(b.rows, v).value], b.runs[r], r)
      {
        StillAddsUp(b.rows, [Assess(b.rows, v).value], b.runs[r], r);
      }
    }
  }

  lemma PostAddsUp(b: Book, run: nat)
    requires RunsAddUp(b) && NoneLater(b)
    ensures var d := PostRun(b, run).0; RunsAddUp(d) && NoneLater(d)
  {
    hide AddsUp, EmitRows, Emit;
    if run < |b.runs| {
      assert forall r :: 0 <= r < |b.runs| ==> Described(b.rows, b.runs[r], r) && AddsUp(b.rows, b.runs[r].totals, r);
    }
  }

  lemma {:induction false} RunKeepsTotals(b: Book, commands: seq<Command>)
    requires RunsAddUp(b) && NoneLater(b)
    ensures RunsAddUp(Run(b, commands)) && NoneLater(Run(b, commands))
    decreases |commands|
  {
    hide RunsAddUp, NoneLater, InitialAssessment, RunEcl, PostRun, WriteOff;
    if commands != [] {
      match commands[0] {
        case DoInitial(input, x) => InitialAddsUp(b, input, x);
        case DoRun(input, xs) => RunEclAddsUp(b, input, xs);
        case DoPost(run) => PostAddsUp(b, run);
        case DoWriteOff(contract, full, principal, profit, lateFee) => WriteOffLeavesRuns(b, contract, full, principal, profit, lateFee);
      }
      RunKeepsTotals(Step(b, commands[0]), commands[1..]);
    }
  }

  lemma WriteOffLeavesRuns(b: Book, contract: nat, full: bool, principal: int, profit: int, lateFee: int)
    requires RunsAddUp(b) && NoneLater(b)
    ensures var d := WriteOff(b, contract, full, principal, profit, lateFee); RunsAddUp(d) && NoneLater(d)
  {
    hide AddsUp, Described, Emit, ProvisionOf;
  }

  lemma NewAddUp()
    ensures RunsAddUp(NEW) && NoneLater(NEW)
  {
  }

  // After any origination, runs, postings and write-offs, in any order: each stored total of a run is
  // the sum over exactly that run's rows, each stage's total over exactly the rows booked in that stage,
  // and the run's row names their number, their day and their version.
  lemma TotalsAreSums(commands: seq<Command>, r: nat)
    requires r < |Run(NEW, commands).runs|
    ensures var d := Run(NEW, commands); var t := d.runs[r].totals;
      && t.exposure == Sum(d.rows, InRun(r, ExposureOf)) && t.loss == Sum(d.rows, InRun(r, LossOf))
      && t.stage1 == Sum(d.rows, InRun(r, LossAt(1))) && t.stage2 == Sum(d.rows, InRun(r, LossAt(2)))
      && t.stage3 == Sum(d.rows, InRun(r, LossAt(3))) && t.none == Sum(d.rows, InRun(r, LossElsewhere))
      && t.movement == Sum(d.rows, InRun(r, MovedBy))
      && d.runs[r].contracts == Sum(d.rows, InRun(r, One))
      && (forall k :: 0 <= k < |d.rows| && d.rows[k].run == Some(r) ==> d.rows[k].asOf == d.runs[r].asOf && d.rows[k].version == d.runs[r].version)
  {
    hide Run, Sums.Sum;
    NewAddUp();
    RunKeepsTotals(NEW, commands);
  }
}
