// The assessment, run and event tables as the service fills them.
module EclPortfolios {
  import opened Options
  import opened Sums
  import opened WriteOffs
  import opened EclModel
  import opened EclAssessment
  import opened EclBook
  import S = Subledger

  // _dpd(): days past due of the worst installment that is not fully paid.
  function DaysPastDue(insts: seq<S.Installment>, asOf: int): (days: int)
    ensures days >= 0
    ensures forall i :: 0 <= i < |insts| && !insts[i].FullyPaid() ==> asOf - insts[i].dueDate <= days
    ensures days > 0 ==> exists i :: 0 <= i < |insts| && !insts[i].FullyPaid() && asOf - insts[i].dueDate == days
  {
    if insts == [] then 0
    else
      var init, last := insts[..|insts| - 1], insts[|insts| - 1];
      var rest := DaysPastDue(init, asOf);
      assert forall i :: 0 <= i < |init| ==> init[i] == insts[i];
      if !last.FullyPaid() && last.dueDate < asOf then Max(rest, asOf - last.dueDate) else rest
  }

  method WorstDays(insts: seq<S.Installment>, asOf: int) returns (worst: int)
    ensures worst == DaysPastDue(insts, asOf)
  {
    worst := 0;
    for i := 0 to |insts|
      invariant worst == DaysPastDue(insts[..i], asOf)
    {
      assert insts[..i + 1][..i] == insts[..i];
      if !insts[i].FullyPaid() && insts[i].dueDate < asOf {
        worst := Max(worst, asOf - insts[i].dueDate);
      }
    }
    assert insts[..|insts|] == insts;
  }

  // Days past due never fall by waiting, and never rise by an installment being paid off.
  lemma DaysGrow(insts: seq<S.Installment>, day: int, later: int)
    requires day <= later
    ensures DaysPastDue(insts, day) <= DaysPastDue(insts, later)
  {
    if DaysPastDue(insts, day) > 0 {
      var i :| 0 <= i < |insts| && !insts[i].FullyPaid() && day - insts[i].dueDate == DaysPastDue(insts, day);
      assert later - insts[i].dueDate <= DaysPastDue(insts, later);
    }
  }

  class Portfolio {
    var rows: seq<Row>
    var runs: seq<RunRow>
    var events: seq<Event>
    var executions: seq<WriteOffRow>

    function Model(): Book
      reads this
    {
      Book(rows, runs, events, executions)
    }

    constructor ()
      ensures Model() == NEW
    {
      rows, runs, events, executions := [], [], [], [];
    }

    method EmitEvent(e: Event)
      modifies this`events
      ensures events == Emit(old(events), e)
    {
      for k := 0 to |events|
        invariant !Known(events[..k], e.key)
      {
        if events[k].key == e.key {
          return;
        }
      }
      assert events[..|events|] == events;
      events := events + [e];
    }

    method InitialAssessment(input: Input, x: Exposure) returns (outcome: Outcome)
      modifies this
      ensures (Model(), outcome) == EclBook.InitialAssessment(old(Model()), input, x)
    {
      for k := 0 to |rows|
        invariant !HasOrigination(rows[..k], x.contract)
      {
        if rows[k].contract == x.contract && rows[k].run.None? {
          return Fine;
        }
      }
      assert rows[..|rows|] == rows;
      var assessed := Assess(rows, VisitOf(input, x, None));
      if assessed.Misconfigured? {
        return Misconfiguration;
      }
      var row := assessed.value;
      rows := rows + [row];
      if row.closing - row.opening != 0 {
        EmitEvent(Event(ProvisionCreated, Origination(x.contract), Some(x.contract), row.closing - row.opening));
      }
      return Fine;
    }

    // run_ecl(): a configuration gap part-way undoes the run.
    method RunEcl(input: Input, xs: seq<Exposure>) returns (outcome: Outcome)
      modifies this
      ensures (Model(), outcome) == EclBook.RunEcl(old(Model()), input, xs)
    {
      hide Assess, AssessAll, TotalsOf, Plus;
      var run, before, totals := |runs|, rows, NOTHING;
      NothingYet(rows, input, run);
      assert xs[0..] == xs && xs[|xs|..] == [];
      for i := 0 to |xs|
        invariant runs == old(runs) && events == old(events) && executions == old(executions)
        invariant before <= rows && totals == TotalsOf(rows[|before|..])
        invariant AssessAll(before, input, run, xs) == AssessAll(rows, input, run, xs[i..])
      {
        assert xs[i..][1..] == xs[i + 1..] && xs[i..][0] == xs[i];
        AssessNext(rows, input, run, xs[i..]);
        var assessed := Assess(rows, VisitOf(input, xs[i], Some(run)));
        if assessed.Misconfigured? {
          rows := before;
          return Misconfiguration;
        }
        RunStep(before, rows, assessed.value);
        rows := rows + [assessed.value];
        totals := Plus(totals, assessed.value);
      }
      NothingYet(rows, input, run);
      runs := runs + [RunRow(input.asOf, input.version, Completed, |xs|, totals)];
      return Fine;
    }

    method EmitIfAny(e: Event)
      modifies this`events
      ensures events == EmitNonZero(old(events), e)
    {
      if e.amount != 0 {
        EmitEvent(e);
      }
    }

    method PostRun(run: nat) returns (outcome: Outcome)
      modifies this
      ensures (Model(), outcome) == EclBook.PostRun(old(Model()), run)
    {
      if run >= |runs| {
        return NoSuchRun;
      }
      if runs[run].status.Posted? {
        return Fine;
      }
      for k := 0 to |rows|
        invariant rows == old(rows) && runs == old(runs) && executions == old(executions)
        invariant events == EmitRows(old(events), rows[..k], run)
      {
        assert rows[..k + 1][..k] == rows[..k];
        var a := rows[k];
        if a.run == Some(run) {
          EmitIfAny(ModelEvent(a, run));
          EmitIfAny(OverrideEvent(a, run));
        }
      }
      assert rows[..|rows|] == rows;
      EmitEvent(Event(RollUp, Summary(run), None, runs[run].totals.movement));
      runs := runs[run := runs[run].(status := Posted)];
      return Fine;
    }

    // What execute_write_off() does here: the execution takes its snapshot of the provision, then the
    // write-off and the release are emitted.
    method WriteOff(contract: nat, full: bool, principal: int, profit: int, lateFee: int)
      modifies this
      ensures Model() == EclBook.WriteOff(old(Model()), contract, full, principal, profit, lateFee)
    {
      var provision := LatestClosing(contract);
      var n := |executions|;
      var x := WriteOffRow(contract, full, Execution(principal, profit, lateFee, provision));
      executions := executions + [x];
      EmitEvent(BookingEvent(n, x));
      if provision > 0 {
        EmitEvent(ReleaseEvent(n, x));
      }
    }

    // latest_assessment(): newest as-of date, the last created among equals.
    method LatestClosing(contract: nat) returns (closing: int)
      ensures closing == ProvisionOf(rows, contract)
    {
      var found, day := false, 0;
      closing := 0;
      for k := 0 to |rows|
        invariant found == Latest(rows[..k], contract).Some?
        invariant found ==> Latest(rows[..k], contract).value.asOf == day && Latest(rows[..k], contract).value.closing == closing
        invariant !found ==> closing == 0
      {
        assert rows[..k + 1][..k] == rows[..k];
        if rows[k].contract == contract && (!found || rows[k].asOf >= day) {
          found, day, closing := true, rows[k].asOf, rows[k].closing;
        }
      }
      assert rows[..|rows|] == rows;
    }
  }

  // One round of the run: the row appended, the totals moved on.
  lemma RunStep(before: seq<Row>, rows: seq<Row>, r: Row)
    requires before <= rows
    ensures before <= rows + [r] && TotalsOf((rows + [r])[|before|..]) == Plus(TotalsOf(rows[|before|..]), r)
  {
    hide Plus, TotalsOf;
    TotalsSnoc(rows[|before|..], r);
    assert (rows + [r])[|before|..] == rows[|before|..] + [r];
  }

  lemma AssessNext(rows: seq<Row>, input: Input, run: nat, xs: seq<Exposure>)
    requires xs != []
    ensures AssessAll(rows, input, run, xs) ==
      match Assess(rows, VisitOf(input, xs[0], Some(run)))
      case Misconfigured => Misconfigured
      case Ok(r) => AssessAll(rows + [r], input, run, xs[1..])
  {
    hide Assess;
  }

  lemma NothingYet(rows: seq<Row>, input: Input, run: nat)
    ensures AssessAll(rows, input, run, []) == Ok(rows) && TotalsOf(rows[|rows|..]) == NOTHING
  {
  }

  lemma TotalsSnoc(rows: seq<Row>, r: Row)
    ensures TotalsOf(rows + [r]) == Plus(TotalsOf(rows), r)
  {
    assert (rows + [r])[..|rows|] == rows;
  }
}
