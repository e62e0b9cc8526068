// What the ECL events and the write-off events put on the allowance account under the seeded
// posting rules.
module EclPostings {
  import opened Options
  import opened Sums
  import opened WriteOffs
  import opened EclBook
  import opened EclBookLaws
  import opened EclBookTheorems
  import opened EclHistory
  import opened EclAssessment
  import E = EclModel
  import GL = GeneralLedger
  import P = Postings

  function TypeOf(kind: Kind): GL.EventType {
    match kind
    case ProvisionCreated => GL.EclCreated
    case ProvisionIncreased => GL.EclIncreased
    case ProvisionReleased => GL.EclReleased
    case ProvisionOverridden => GL.EclOverrideAdjustment
    case RollUp => GL.EclMovement
    case FullWriteOff => GL.WriteOffExecuted
    case PartialWriteOff => GL.PartialWriteOffExecuted
  }

  // The resolvers read the event's own amount, or the execution the event points at.
  function Resolve(e: Event, xs: seq<WriteOffRow>, source: GL.AmountSource): Option<int> {
    if source.EventAmount? then Some(e.amount)
    else if !e.key.WriteOffBooking? || e.key.execution >= |xs| then None
    else
      var x := xs[e.key.execution].taken;
      match source
      case WrittenOffPrincipal => Some(x.principal)
      case WrittenOffProfit => Some(x.profit)
      case WrittenOffLateFee => Some(x.lateFee)
      case ProvisionUsed => Some(Min(x.provision, x.Total()))
      case ExpenseExcess => Some(Max(0, x.Total() - x.provision))
      case _ => None
  }

  function AmountsOf(e: Event, xs: seq<WriteOffRow>): GL.Amounts {
    source => Resolve(e, xs, source)
  }

  // The journal of one event, as a net debit of an account.
  function Posted(e: Event, xs: seq<WriteOffRow>, account: nat): int {
    match GL.JournalFor(TypeOf(e.kind), AmountsOf(e, xs))
    case None => 0
    case Some(j) => GL.Net(j.postings, Some(account))
  }

  predicate Booking(e: Event) { e.kind.FullWriteOff? || e.kind.PartialWriteOff? }

  // A provision event posts its signed amount to impairment against the allowance; the portfolio
  // roll-up posts nothing.
  lemma OneEvent(e: Event, xs: seq<WriteOffRow>, account: nat)
    requires !Booking(e)
    ensures Posted(e, xs, account) ==
      if e.kind.RollUp? then 0 else P.At(account, GL.IMPAIRMENT, e.amount) - P.At(account, GL.ALLOWANCE, e.amount)
  {
    hide GL.JournalUnder, P.At;
    if e.kind.RollUp? {
      SummaryPostsNothing(AmountsOf(e, xs));
    } else {
      SignedPairPosted(TypeOf(e.kind), AmountsOf(e, xs), e.amount, account);
    }
  }

  lemma SummaryPostsNothing(amounts: GL.Amounts)
    ensures GL.JournalFor(GL.EclMovement, amounts).None?
  {
  }

  lemma SignedPairPosted(kind: GL.EventType, amounts: GL.Amounts, amount: int, account: nat)
    requires GL.Seed(kind) == GL.SignedPair(GL.IMPAIRMENT, GL.ALLOWANCE) && amounts(GL.EventAmount) == Some(amount)
    ensures GL.JournalFor(kind, amounts).Some?
    ensures GL.Net(GL.JournalFor(kind, amounts).value.postings, Some(account)) ==
      P.At(account, GL.IMPAIRMENT, amount) - P.At(account, GL.ALLOWANCE, amount)
  {
    hide GL.Net, GL.Build;
    var lines := GL.Seed(kind).lines;
    assert forall k :: 0 <= k < |lines| ==> GL.Resolvable(lines[k], amounts);
    P.Unroll(lines, amounts, None);
    P.Unroll(lines, amounts, Some(account));
    GL.JournalEffect(GL.Seed(kind), kind, amounts, account);
  }

  lemma OneBooking(e: Event, xs: seq<WriteOffRow>)
    requires Booking(e) && e.key.WriteOffBooking? && e.key.execution < |xs| && NothingNegative(xs[e.key.execution].taken)
    ensures Posted(e, xs, GL.ALLOWANCE) == CoveredAmount(xs[e.key.execution].taken)
  {
    hide GL.Build, GL.Net, GL.Effect, GL.Resolvable, Resolve;
    var x, amounts, kind := xs[e.key.execution].taken, AmountsOf(e, xs), TypeOf(e.kind);
    ReadsExecution(e, xs);
    if x.provision >= 0 {
      P.WriteOffRuleEffect(amounts, x.principal, x.profit, x.lateFee, x.provision, None);
      P.WriteOffRuleEffect(amounts, x.principal, x.profit, x.lateFee, x.provision, Some(GL.ALLOWANCE));
      GL.JournalEffect(GL.Seed(kind), kind, amounts, GL.ALLOWANCE);
    } else {
      P.Unresolvable(amounts, Min(x.provision, x.Total()));
    }
  }

  lemma ReadsExecution(e: Event, xs: seq<WriteOffRow>)
    requires e.key.WriteOffBooking? && e.key.execution < |xs|
    ensures var x := xs[e.key.execution].taken; P.Reads(AmountsOf(e, xs), x.principal, x.profit, x.lateFee, x.provision)
  {
  }

  // -------------------------------------------------------------------------
  // The allowance of one contract
  // -------------------------------------------------------------------------

  // The net credit of the allowance account from the events of one contract.
  function Allowance(events: seq<Event>, xs: seq<WriteOffRow>, contract: nat): int {
    if events == [] then 0
    else
      var last := events[|events| - 1];
      Allowance(events[..|events| - 1], xs, contract) - if last.contract == Some(contract) then Posted(last, xs, GL.ALLOWANCE) else 0
  }

  // What the bookings among the events draw, and what the executions draw and release.
  function Drawn(events: seq<Event>, xs: seq<WriteOffRow>, contract: nat): int {
    if events == [] then 0
    else
      var last := events[|events| - 1];
      Drawn(events[..|events| - 1], xs, contract)
      + if last.contract == Some(contract) && last.key.WriteOffBooking? && last.key.execution < |xs| then CoveredAmount(xs[last.key.execution].taken) else 0
  }

  // A booking points at an execution that takes nothing negative; a roll-up belongs to no contract.
  predicate Shaped(e: Event, xs: seq<WriteOffRow>) {
    && (Booking(e) <==> e.key.WriteOffBooking?)
    && (e.key.WriteOffBooking? ==> e.key.execution < |xs| && NothingNegative(xs[e.key.execution].taken))
    && (e.kind.RollUp? ==> e.contract.None?)
  }

  predicate AllShaped(events: seq<Event>, xs: seq<WriteOffRow>) { forall k :: 0 <= k < |events| ==> Shaped(events[k], xs) }

  // Impairment less write-offs: the allowance in terms of event amounts and of what bookings draw.
  lemma {:induction false} AllowanceIsSum(events: seq<Event>, xs: seq<WriteOffRow>, contract: nat)
    requires AllShaped(events, xs)
    ensures Allowance(events, xs, contract) ==
      EventSum(events, contract) + ReleaseSum(events, contract) - Drawn(events, xs, contract)
  {
    hide Posted, CoveredAmount;
    if events != [] {
      var last := events[|events| - 1];
      AllowanceIsSum(events[..|events| - 1], xs, contract);
      if Booking(last) { OneBooking(last, xs); } else { OneEvent(last, xs, GL.ALLOWANCE); }
    }
  }

  // -------------------------------------------------------------------------
  // Every run
  // -------------------------------------------------------------------------

  predicate Settled(b: Book, contract: nat) {
    && AllShaped(b.events, b.executions) && (forall n :: 0 <= n < |b.executions| ==> NothingNegative(b.executions[n].taken))
    && Drawn(b.events, b.executions, contract) == Sum(TakenFrom(b.executions, contract), CoveredAmount)
    && ReleaseSum(b.events, contract) == -Sum(TakenFrom(b.executions, contract), ReleasedAmount)
  }

  lemma DrawnSnoc(events: seq<Event>, e: Event, xs: seq<WriteOffRow>, contract: nat)
    ensures Drawn(events + [e], xs, contract) == Drawn(events, xs, contract) +
      if e.contract == Some(contract) && e.key.WriteOffBooking? && e.key.execution < |xs| then CoveredAmount(xs[e.key.execution].taken) else 0
    ensures ReleaseSum(events + [e], contract) ==
      ReleaseSum(events, contract) + if e.contract == Some(contract) && e.key.WriteOffRelease? then e.amount else 0
  {
    assert (events + [e])[..|events|] == events;
  }

  lemma {:induction false} DrawnLater(events: seq<Event>, xs: seq<WriteOffRow>, x: WriteOffRow, contract: nat)
    requires AllShaped(events, xs)
    ensures Drawn(events, xs + [x], contract) == Drawn(events, xs, contract) && AllShaped(events, xs + [x])
  {
    if events != [] {
      var init, last := events[..|events| - 1], events[|events| - 1];
      DrawnLater(init, xs, x, contract);
      assert forall k :: 0 <= k < |init| ==> events[k] == init[k];
      assert last.key.WriteOffBooking? ==> (xs + [x])[last.key.execution] == xs[last.key.execution];
    }
  }

  // An event that is not a write-off's.
  predicate Plain(e: Event) { !Booking(e) && !OfWriteOff(e.key) && (e.kind.RollUp? ==> e.contract.None?) }

  lemma PlainEmit(events: seq<Event>, e: Event, xs: seq<WriteOffRow>, contract: nat)
    requires AllShaped(events, xs) && Plain(e)
    ensures var after := Emit(events, e);
      AllShaped(after, xs) && Drawn(after, xs, contract) == Drawn(events, xs, contract) && ReleaseSum(after, contract) == ReleaseSum(events, contract)
  {
    hide Known;
    DrawnSnoc(events, e, xs, contract);
  }

  lemma {:induction false} PlainRows(events: seq<Event>, rows: seq<Row>, run: nat, xs: seq<WriteOffRow>, contract: nat)
    requires AllShaped(events, xs)
    ensures var after := EmitRows(events, rows, run);
      AllShaped(after, xs) && Drawn(after, xs, contract) == Drawn(events, xs, contract) && ReleaseSum(after, contract) == ReleaseSum(events, contract)
    decreases |rows|
  {
    hide AllShaped, Drawn, ReleaseSum, Emit;
    if rows != [] {
      var before, last := EmitRows(events, rows[..|rows| - 1], run), rows[|rows| - 1];
      PlainRows(events, rows[..|rows| - 1], run, xs, contract);
      if last.run == Some(run) {
        PlainEmit(before, ModelEvent(last, run), xs, contract);
        PlainEmit(EmitNonZero(before, ModelEvent(last, run)), OverrideEvent(last, run), xs, contract);
      }
    }
  }

  lemma PostSettles(b: Book, run: nat, contract: nat)
    requires Settled(b, contract)
    ensures Settled(PostRun(b, run).0, contract)
  {
    hide AllShaped, Drawn, ReleaseSum, Emit, EmitRows;
    if run < |b.runs| && b.runs[run].status.Completed? {
      var moved := EmitRows(b.events, b.rows, run);
      PlainRows(b.events, b.rows, run, b.executions, contract);
      PlainEmit(moved, Event(RollUp, Summary(run), None, b.runs[run].totals.movement), b.executions, contract);
    }
  }

  lemma InitialSettles(b: Book, input: Input, x: Exposure, contract: nat)
    requires Settled(b, contract)
    ensures Settled(InitialAssessment(b, input, x).0, contract)
  {
    hide AllShaped, Drawn, ReleaseSum, Emit, Assess;
    if !HasOrigination(b.rows, x.contract) && Assess(b.rows, VisitOf(input, x, None)).Ok? {
      var r := Assess(b.rows, VisitOf(input, x, None)).value;
      PlainEmit(b.events, Event(ProvisionCreated, Origination(x.contract), Some(x.contract), r.closing - r.opening), b.executions, contract);
    }
  }

  lemma WrittenSettles(b: Book, x: WriteOffRow, contract: nat)
    requires Settled(b, contract) && NothingNegative(x.taken)
    ensures Settled(Written(b, x), contract)
  {
    hide Drawn, ReleaseSum, CoveredAmount, TakenFrom, Sums.Sum;
    var n, xs := |b.executions|, b.executions + [x];
    var booked := b.events + [BookingEvent(n, x)];
    DrawnLater(b.events, b.executions, x, contract);
    DrawnSnoc(b.events, BookingEvent(n, x), xs, contract);
    DrawnSnoc(booked, ReleaseEvent(n, x), xs, contract);
    TakenSnoc(b.executions, x, contract);
    SumSnoc(TakenFrom(b.executions, contract), x.taken, CoveredAmount);
    SumSnoc(TakenFrom(b.executions, contract), x.taken, ReleasedAmount);
  }

  lemma {:induction false} RunSettles(b: Book, commands: seq<Command>, contract: nat)
    requires Consistent(b, contract) && Settled(b, contract) && forall k :: 0 <= k < |commands| ==> Regular(commands[k])
    ensures Settled(Run(b, commands), contract)
    decreases |commands|
  {
    hide Consistent, Settled, AssessAll;
    if commands != [] {
      var c := commands[0];
      StepSettles(b, c, contract);
      StepKeeps(b, c, contract);
      RunSettles(Step(b, c), commands[1..], contract);
    }
  }

  lemma StepSettles(b: Book, c: Command, contract: nat)
    requires Consistent(b, contract) && Settled(b, contract) && Regular(c)
    ensures Settled(Step(b, c), contract)
  {
    hide RowsOk, OpeningsOk, TotalsOk, RollUpsOk, Drawn, ReleaseSum, AllShaped, Sums.Sum, Assess, EventSum, Counted;
    match c
    case DoInitial(input, x) => InitialSettles(b, input, x, contract);
    case DoRun(_, _) =>
    case DoPost(run) => PostSettles(b, run, contract);
    case DoWriteOff(_, _, _, _, _) =>
      WriteOffIs(b, c);
      WrittenSettles(b, ExecutionOf(b, c), contract);
  }

  lemma TakenSnoc(xs: seq<WriteOffRow>, x: WriteOffRow, contract: nat)
    ensures var own := TakenFrom(xs, contract);
      TakenFrom(xs + [x], contract) == if x.contract == contract then own + [x.taken] else own
  {
    assert (xs + [x])[..|xs|] == xs;
  }

  predicate NoneNegative(xs: seq<Execution>) { forall n :: 0 <= n < |xs| ==> NothingNegative(xs[n]) }

  lemma {:induction false} TakenNotNegative(xs: seq<WriteOffRow>, contract: nat)
    requires forall n :: 0 <= n < |xs| ==> NothingNegative(xs[n].taken)
    ensures NoneNegative(TakenFrom(xs, contract))
  {
    hide NothingNegative;
    if xs != [] {
      var init, last := xs[..|xs| - 1], xs[|xs| - 1];
      TakenNotNegative(init, contract);
      var own := TakenFrom(init, contract);
      assert TakenFrom(xs, contract) == if last.contract == contract then own + [last.taken] else own;
    }
  }

  lemma DrawnByOne(xs: seq<WriteOffRow>, contract: nat)
    requires forall n :: 0 <= n < |xs| ==> NothingNegative(xs[n].taken)
    ensures var own := TakenFrom(xs, contract);
      Sum(own, CoveredAmount) + Sum(own, ReleasedAmount) == 0 <==> Unprovided(own)
  {
    TakenNotNegative(xs, contract);
    NothingDrawn(TakenFrom(xs, contract));
  }

  lemma NewSettled(contract: nat)
    ensures Settled(NEW, contract)
  {
  }

  lemma AllowanceOf(d: Book, c: nat)
    requires Consistent(d, c) && Settled(d, c)
    ensures Allowance(d.events, d.executions, c) ==
      Counted(d.rows, d.runs, c) - Sum(TakenFrom(d.executions, c), ReleasedAmount) - Sum(TakenFrom(d.executions, c), CoveredAmount)
    ensures ReleaseSum(d.events, c) == -Sum(TakenFrom(d.executions, c), ReleasedAmount)
    ensures Allowance(d.events, d.executions, c) == Counted(d.rows, d.runs, c) <==> Unprovided(TakenFrom(d.executions, c))
  {
    hide Allowance, EventSum, ReleaseSum, Drawn, Sums.Sum, AllShaped, Unprovided, TakenFrom, Counted, RowsOk, OpeningsOk, KeysOk, TotalsOk, RollUpsOk;
    AllowanceIsSum(d.events, d.executions, c);
    DrawnByOne(d.executions, c);
  }

  // On the general ledger, after any run: the allowance of a contract is the movement of its
  // origination row and its posted rows, less, for each of its write-offs, what the write-off's own
  // rule drew and the whole provision it released.
  lemma AllowanceIsMovements(commands: seq<Command>, c: nat)
    requires forall k :: 0 <= k < |commands| ==> Regular(commands[k])
    ensures var d := Run(NEW, commands);
      && Allowance(d.events, d.executions, c) ==
           Counted(d.rows, d.runs, c) - Sum(TakenFrom(d.executions, c), ReleasedAmount) - Sum(TakenFrom(d.executions, c), CoveredAmount)
      && ReleaseSum(d.events, c) == -Sum(TakenFrom(d.executions, c), ReleasedAmount)
      && (Allowance(d.events, d.executions, c) == Counted(d.rows, d.runs, c) <==> Unprovided(TakenFrom(d.executions, c)))
  {
    hide *;
    NewConsistent(c);
    NewSettled(c);
    RunKeeps(NEW, commands, c);
    RunSettles(NEW, commands, c);
    AllowanceOf(Run(NEW, commands), c);
  }

  // So with chronological dates and every run posted it is the latest closing provision less both,
  // and the provision itself exactly when no write-off of the contract found one.
  lemma AllowanceIsProvision(commands: seq<Command>, c: nat)
    requires forall k :: 0 <= k < |commands| ==> Regular(commands[k])
    requires var d := Run(NEW, commands);
      Chronological(d.rows, c) && forall r :: 0 <= r < |d.runs| ==> d.runs[r].status.Posted?
    ensures var d := Run(NEW, commands);
      && Allowance(d.events, d.executions, c) ==
           ProvisionOf(d.rows, c) + ReleaseSum(d.events, c) - Sum(TakenFrom(d.executions, c), CoveredAmount)
      && ReleaseSum(d.events, c) == -Sum(TakenFrom(d.executions, c), ReleasedAmount)
      && (Allowance(d.events, d.executions, c) == ProvisionOf(d.rows, c) <==> Unprovided(TakenFrom(d.executions, c)))
  {
    hide *;
    NewConsistent(c);
    RunKeeps(NEW, commands, c);
    AllowanceIsMovements(commands, c);
    MovementsAreTheProvision(Run(NEW, commands), c);
  }

  // -------------------------------------------------------------------------
  // A write-off that finds a provision parts the two for good
  // -------------------------------------------------------------------------

  lemma {:induction false} RunAppend(b: Book, first: seq<Command>, more: seq<Command>)
    ensures Run(b, first + more) == Run(Run(b, first), more)
    decreases |first|
  {
    hide Step;
    if first == [] {
      assert first + more == more;
    } else {
      assert (first + more)[1..] == first[1..] + more;
      RunAppend(Step(b, first[0]), first[1..], more);
    }
  }

  lemma ExecutionsStep(b: Book, c: Command)
    ensures b.executions <= Step(b, c).executions
  {
    hide Assess, AssessAll, EmitRows, Emit;
  }

  lemma {:induction false} ExecutionsGrow(b: Book, commands: seq<Command>)
    ensures b.executions <= Run(b, commands).executions
    decreases |commands|
  {
    hide Step;
    if commands != [] {
      ExecutionsStep(b, commands[0]);
      ExecutionsGrow(Step(b, commands[0]), commands[1..]);
    }
  }

  lemma {:induction false} ProvidedRecord(xs: seq<WriteOffRow>, n: nat, contract: nat)
    requires n < |xs| && xs[n].contract == contract && xs[n].taken.provision > 0
    ensures !Unprovided(TakenFrom(xs, contract))
  {
    var init, last := xs[..|xs| - 1], xs[|xs| - 1];
    var own := TakenFrom(init, contract);
    if n == |init| {
      assert TakenFrom(xs, contract)[|own|] == last.taken;
    } else {
      ProvidedRecord(init, n, contract);
      var k :| 0 <= k < |own| && own[k].provision > 0;
      assert TakenFrom(xs, contract)[k] == own[k];
    }
  }

  lemma WrittenRecord(b: Book, c: Command)
    requires c.DoWriteOff?
    ensures var d := Step(b, c);
      d.executions == b.executions + [WriteOffRow(c.contract, c.full, Execution(c.principal, c.profit, c.lateFee, ProvisionOf(b.rows, c.contract)))]
  {
    hide Emit;
  }

  lemma FoundProvision(before: seq<Command>, w: Command, more: seq<Command>)
    requires w.DoWriteOff? && ProvisionOf(Run(NEW, before).rows, w.contract) > 0
    ensures !Unprovided(TakenFrom(Run(NEW, before + [w] + more).executions, w.contract))
  {
    hide Step, ProvisionOf, TakenFrom, Unprovided;
    var b := Run(NEW, before);
    var d := Step(b, w);
    RunAppend(NEW, before, [w] + more);
    assert before + [w] + more == before + ([w] + more);
    assert ([w] + more)[1..] == more;
    WrittenRecord(b, w);
    ExecutionsGrow(d, more);
    ProvidedRecord(Run(d, more).executions, |b.executions|, w.contract);
  }

  // Whatever happens before and after it.
  lemma AllowanceLost(before: seq<Command>, w: Command, more: seq<Command>)
    requires w.DoWriteOff? && ProvisionOf(Run(NEW, before).rows, w.contract) > 0
    requires var commands := before + [w] + more; forall k :: 0 <= k < |commands| ==> Regular(commands[k])
    requires var d := Run(NEW, before + [w] + more);
      Chronological(d.rows, w.contract) && forall r :: 0 <= r < |d.runs| ==> d.runs[r].status.Posted?
    ensures var d := Run(NEW, before + [w] + more);
      Allowance(d.events, d.executions, w.contract) != ProvisionOf(d.rows, w.contract)
  {
    hide *;
    FoundProvision(before, w, more);
    AllowanceIsProvision(before + [w] + more, w.contract);
  }

  // -------------------------------------------------------------------------
  // It happens under the shipped calibration
  // -------------------------------------------------------------------------

  const ON_BOOKS: Input := Input(0, 1, E.PLACEHOLDER, [], [])

  const NOT_DUE: Exposure := Exposure(0, Facts(None, 100000, 0, NO_SIGNALS, []))

  lemma SameVisit()
    ensures VisitOf(ON_BOOKS, NOT_DUE, None) == Shipped(0, 0, [])
  {
    hide E.PLACEHOLDER;
  }

  lemma FirstRow() returns (r: Row)
    ensures Assess([], VisitOf(ON_BOOKS, NOT_DUE, None)) == E.Ok(r) && r.closing > 0 && r.contract == 0
  {
    hide Assess, E.PLACEHOLDER, Cured, Peak, ShippedPd, RawOf, E.RatingOf, E.SegmentOf;
    var v := Shipped(0, 0, []);
    SameVisit();
    r := ShippedNext([], v);
    NothingGoverns([], v);
    StagedRow(v, r);
  }

  lemma StagedRow(v: Visit, r: Row)
    requires v == Shipped(0, 0, []) && Assess([], v) == E.Ok(r) && r.auto.stage.Some?
    ensures r.auto.loss > 0 && r.contract == 0
  {
    hide E.PLACEHOLDER, Cured, Peak, E.Fired, E.RatingOf, E.SegmentOf, E.Loss, E.PdsOf, E.LgdsOf;
    ShippedStaged();
    var segment := E.SegmentOf(E.RatingOf(v.facts.score, v.calibration), v.calibration);
    E.PlaceholderRows(segment);
    var p, l := E.PdsOf(segment, E.PLACEHOLDER).value, E.LgdsOf(segment, E.PLACEHOLDER).value;
    PositiveLoss(p, l, if StageOf(r) == 1 then p.pd12 else if StageOf(r) == 3 then p.lifetime3 else p.lifetime, if StageOf(r) == 3 then l.lgd3 else l.lgd);
  }

  lemma ShippedStaged()
    ensures E.PLACEHOLDER.methodology.ThreeStage? && WithCure(E.PLACEHOLDER.cure) == E.PLACEHOLDER
  {
  }

  lemma PositiveLoss(p: E.Pds, l: E.Lgds, pd: real, lgd: real)
    requires E.OneOf(p, l) && (pd == p.pd12 || pd == p.lifetime || pd == p.lifetime3) && (lgd == l.lgd || lgd == l.lgd3)
    ensures E.Loss(100000 as real, pd, lgd) > 0
  {
  }

  const FIRST: Command := DoInitial(ON_BOOKS, NOT_DUE)

  const FORTY: Command := DoWriteOff(0, false, 40, 0, 0)

  lemma Originated() returns (r: Row)
    ensures r.contract == 0 && r.closing > 0 && Step(NEW, FIRST).rows == [r] && Step(NEW, FIRST).runs == []
  {
    hide Assess, E.PLACEHOLDER, Emit;
    r := FirstRow();
  }

  lemma FortyKeeps(b: Book)
    ensures Step(b, FORTY).rows == b.rows && Step(b, FORTY).runs == b.runs
  {
    hide Emit, ProvisionOf;
  }

  lemma OneRow(r: Row)
    requires r.contract == 0
    ensures Chronological([r], 0) && ProvisionOf([r], 0) == r.closing
  {
    var h := [r];
    assert h[..|h| - 1] == [] && h[|h| - 1] == r;
    assert Latest(h[..|h| - 1], 0).None?;
    assert Latest(h, 0) == Some(r);
  }

  // Regular commands after which a contract's allowance is not its provision, with everything posted.
  ghost predicate PartsAllowance(commands: seq<Command>) {
    var d := Run(NEW, commands);
    && (forall k :: 0 <= k < |commands| ==> Regular(commands[k]))
    && Chronological(d.rows, 0) && (forall r :: 0 <= r < |d.runs| ==> d.runs[r].status.Posted?)
    && Allowance(d.events, d.executions, 0) != ProvisionOf(d.rows, 0)
  }

  lemma Parts(commands: seq<Command>, r: Row)
    requires var d := Run(NEW, commands); d.rows == [r] && d.runs == [] && Allowance(d.events, d.executions, 0) != ProvisionOf(d.rows, 0)
    requires Chronological([r], 0) && forall k :: 0 <= k < |commands| ==> Regular(commands[k])
    ensures PartsAllowance(commands)
  {
    hide Run, Allowance, ProvisionOf, Chronological, Regular;
  }

  lemma BothRegular()
    ensures Regular(FIRST) && Regular(FORTY) && FORTY.DoWriteOff? && FORTY.contract == 0
  {
    hide E.PLACEHOLDER;
  }

  lemma TwoRuns()
    ensures Run(NEW, [FIRST]) == Step(NEW, FIRST) && Run(NEW, [FIRST] + [FORTY] + []) == Step(Step(NEW, FIRST), FORTY)
  {
    hide Step;
    assert [FIRST][1..] == [] && [FORTY][1..] == [] && [FIRST] + [FORTY] + [] == [FIRST] + [FORTY];
    RunAppend(NEW, [FIRST], [FORTY]);
    assert Run(Step(NEW, FIRST), [FORTY]) == Run(Step(Step(NEW, FIRST), FORTY), []);
  }

  // A contract provided for at origination, of which forty cents are written off.
  lemma AllowanceParts()
    ensures exists commands :: PartsAllowance(commands)
  {
    hide *;
    var r := Originated();
    OneRow(r);
    TwoRuns();
    BothRegular();
    FortyKeeps(Step(NEW, FIRST));
    AllowanceLost([FIRST], FORTY, []);
    Parts([FIRST] + [FORTY] + [], r);
  }
}
