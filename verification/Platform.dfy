// Contracts and the ECL books side by side: an executed write-off takes the provision of the
// contract's latest assessment, and both sides record it (app/services/write_off.py).
module Platform {
  import opened Sums
  import opened WriteOffs
  import opened BookAllowance
  import B = Books
  import E = EclBook
  import L = EclBookLaws
  import T = EclBookTheorems
  import P = EclPostings
  import H = EclHistory
  import A = EclAssessment
  import K = BookHistory
  import W = BookWriteOffs
  import C = BookTheorems
  import Y = Maturity
  import GL = GeneralLedger

  // A contract's id is its position.
  datatype Platform = Platform(books: seq<B.Book>, ecl: E.Book)

  datatype Command = OnContract(contract: nat, operation: B.Command) | OnPortfolio(command: E.Command)

  // The provision an execution records is the one on the books, whatever the request.
  function Priced(p: Platform, contract: nat, c: B.Command): B.Command {
    match c
    case DoWriteOff(full, x) => B.DoWriteOff(full, x.(provision := E.ProvisionOf(p.ecl.rows, contract)))
    case _ => c
  }

  function OnBooks(p: Platform, contract: nat, c: B.Command): Platform
    requires contract < |p.books|
  {
    var b := p.books[contract];
    var d := B.Step(b, Priced(p, contract, c));
    var written := c.DoWriteOff? && |d.executions| > |b.executions|;
    Platform(p.books[contract := d],
             if written then E.WriteOff(p.ecl, contract, c.full, c.requested.principal, c.requested.profit, c.requested.lateFee) else p.ecl)
  }

  function Step(p: Platform, c: Command): Platform {
    match c
    case OnContract(contract, command) => if contract < |p.books| then OnBooks(p, contract, command) else p
    case OnPortfolio(command) => if command.DoWriteOff? then p else p.(ecl := E.Step(p.ecl, command))
  }

  function Run(p: Platform, commands: seq<Command>): Platform
    decreases |commands|
  {
    if commands == [] then p else Run(Step(p, commands[0]), commands[1..])
  }

  predicate Regular(c: Command) {
    match c
    case OnContract(_, command) => command.DoWriteOff? ==> NothingNegative(command.requested)
    case OnPortfolio(command) => E.Regular(command)
  }

  // No contract has done anything yet.
  predicate Opening(p: Platform) {
    p.ecl == E.NEW && forall c :: 0 <= c < |p.books| ==> p.books[c].executions == [] && p.books[c].events == [] && p.books[c].journals == []
  }

  // -------------------------------------------------------------------------
  // The two records of the executions
  // -------------------------------------------------------------------------

  // Each provision an execution recorded was the latest closing provision at some earlier point.
  ghost predicate ProvidedAt(rows: seq<A.Row>, provision: int, contract: nat) {
    exists k :: 0 <= k <= |rows| && provision == E.ProvisionOf(rows[..k], contract)
  }

  ghost predicate Linked(p: Platform, c: nat)
    requires c < |p.books|
  {
    && E.TakenFrom(p.ecl.executions, c) == p.books[c].executions && AllowanceOk(p.books[c])
    && (forall n :: 0 <= n < |p.books[c].executions| ==> ProvidedAt(p.ecl.rows, p.books[c].executions[n].provision, c))
  }

  ghost predicate Sound(p: Platform, c: nat) {
    c < |p.books| && Linked(p, c) && L.Consistent(p.ecl, c) && P.Settled(p.ecl, c)
  }

  lemma ProvidedLater(rows: seq<A.Row>, more: seq<A.Row>, provision: int, contract: nat)
    requires ProvidedAt(rows, provision, contract) && rows <= more
    ensures ProvidedAt(more, provision, contract)
  {
    var k :| 0 <= k <= |rows| && provision == E.ProvisionOf(rows[..k], contract);
    assert more[..k] == rows[..k];
  }

  lemma ProvidedNow(rows: seq<A.Row>, contract: nat)
    ensures ProvidedAt(rows, E.ProvisionOf(rows, contract), contract)
  {
    assert rows[..|rows|] == rows;
  }

  lemma RowsGrow(b: E.Book, c: E.Command)
    ensures b.rows <= E.Step(b, c).rows
    ensures !c.DoWriteOff? ==> E.Step(b, c).executions == b.executions
  {
  }

  lemma PortfolioKeeps(p: Platform, command: E.Command, c: nat)
    requires Sound(p, c) && E.Regular(command) && !command.DoWriteOff?
    ensures Sound(p.(ecl := E.Step(p.ecl, command)), c)
  {
    hide L.Consistent, P.Settled, E.Step, E.Regular, ProvidedAt, AllowanceOk, E.TakenFrom;
    T.StepKeeps(p.ecl, command, c);
    P.StepSettles(p.ecl, command, c);
    RowsGrow(p.ecl, command);
    var d := E.Step(p.ecl, command);
    forall n | 0 <= n < |p.books[c].executions| ensures ProvidedAt(d.rows, p.books[c].executions[n].provision, c) {
      ProvidedLater(p.ecl.rows, d.rows, p.books[c].executions[n].provision, c);
    }
  }

  // A write-off as the ECL books see it.
  lemma WrittenBoth(p: Platform, command: E.Command, c: nat)
    requires L.Consistent(p.ecl, c) && P.Settled(p.ecl, c) && E.Regular(command) && command.DoWriteOff?
    ensures var d := E.Step(p.ecl, command);
      && L.Consistent(d, c) && P.Settled(d, c) && d.rows == p.ecl.rows
      && E.TakenFrom(d.executions, c) == E.TakenFrom(p.ecl.executions, c) +
           if command.contract == c
           then [Execution(command.principal, command.profit, command.lateFee, E.ProvisionOf(p.ecl.rows, c))] else []
  {
    hide L.Consistent, P.Settled, E.Regular, E.TakenFrom, E.Emit;
    T.StepKeeps(p.ecl, command, c);
    P.StepSettles(p.ecl, command, c);
    P.TakenSnoc(p.ecl.executions, T.ExecutionOf(p.ecl, command), c);
  }

  lemma BookKeeps(b: B.Book, command: B.Command)
    requires AllowanceOk(b) && (command.DoWriteOff? ==> NothingNegative(command.requested))
    ensures var d := B.Step(b, command);
      && AllowanceOk(d)
      && d.executions == if command.DoWriteOff? && |d.executions| > |b.executions| then b.executions + [command.requested] else b.executions
  {
    hide AllowanceOk, B.ExecuteWriteOff, B.Deliver, B.AssessOverdue, B.Pay, B.RequestWaiver, B.DecideWaiver, B.Settle, B.ReturnGoods, B.Cancel;
    match command
    case DoWriteOff(full, x) => StepWritesOff(b, full, x);
    case _ => StepQuiet(b, command); QuietKeeps(b, B.Step(b, command));
  }

  lemma ContractKeeps(p: Platform, contract: nat, command: B.Command, c: nat)
    requires Sound(p, c) && contract < |p.books| && (command.DoWriteOff? ==> NothingNegative(command.requested))
    requires contract != c ==> AllowanceOk(p.books[contract])
    ensures Sound(OnBooks(p, contract, command), c)
  {
    hide L.Consistent, P.Settled, ProvidedAt, AllowanceOk, E.TakenFrom, E.WriteOff, B.Step, E.ProvisionOf;
    var b, d := p.books[contract], OnBooks(p, contract, command);
    BookKeeps(b, Priced(p, contract, command));
    ProvidedNow(p.ecl.rows, c);
    if command.DoWriteOff? && |d.books[contract].executions| > |b.executions| {
      var x := command.requested;
      WrittenBoth(p, E.DoWriteOff(contract, command.full, x.principal, x.profit, x.lateFee), c);
    }
  }

  lemma StepKeeps(p: Platform, command: Command, c: nat)
    requires Regular(command) && c < |p.books| && forall i :: 0 <= i < |p.books| ==> Sound(p, i)
    ensures Sound(Step(p, command), c)
  {
    hide L.Consistent, P.Settled, ProvidedAt, AllowanceOk, E.TakenFrom, E.WriteOff, B.Step, E.ProvisionOf, E.Step, E.Regular;
    assert Sound(p, c);
    match command
    case OnContract(contract, inner) =>
      if contract < |p.books| {
        assert Sound(p, contract);
        ContractKeeps(p, contract, inner, c);
      }
    case OnPortfolio(inner) =>
      if !inner.DoWriteOff? { PortfolioKeeps(p, inner, c); }
  }

  lemma SameContracts(p: Platform, command: Command)
    ensures |Step(p, command).books| == |p.books|
  {
    hide B.Step, E.Step, E.WriteOff;
  }

  lemma {:induction false} RunKeeps(p: Platform, commands: seq<Command>)
    requires (forall i :: 0 <= i < |p.books| ==> Sound(p, i)) && forall k :: 0 <= k < |commands| ==> Regular(commands[k])
    ensures var d := Run(p, commands); |d.books| == |p.books| && forall i :: 0 <= i < |d.books| ==> Sound(d, i)
    decreases |commands|
  {
    hide Sound, Step, Regular;
    if commands != [] {
      var d := Step(p, commands[0]);
      SameContracts(p, commands[0]);
      forall i | 0 <= i < |d.books| ensures Sound(d, i) {
        StepKeeps(p, commands[0], i);
      }
      RunKeeps(d, commands[1..]);
    }
  }

  lemma OpeningSound(p: Platform, c: nat)
    requires Opening(p) && c < |p.books|
    ensures Sound(p, c)
  {
    hide L.Consistent, P.Settled;
    T.NewConsistent(c);
    P.NewSettled(c);
  }

  // -------------------------------------------------------------------------
  // The allowance account
  // -------------------------------------------------------------------------

  // The net credit of account 2300 for one contract: its provision events, less what its own journals
  // debit.
  function AllowanceAccount(p: Platform, c: nat): int
    requires c < |p.books|
  {
    L.EventSum(p.ecl.events, c) - GL.Balance(p.books[c].journals, GL.ALLOWANCE)
  }

  lemma SumsOfDrawn(xs: seq<Execution>)
    ensures Sum(xs, Drawn) == Sum(xs, CoveredAmount) + Sum(xs, ReleasedAmount)
  {
    SumPointwise(xs, Drawn, xs, CoveredAmount, xs, ReleasedAmount);
  }

  lemma AccountOf(p: Platform, c: nat)
    requires Sound(p, c)
    ensures var xs := p.books[c].executions;
      && AllowanceAccount(p, c) == P.Allowance(p.ecl.events, p.ecl.executions, c)
      && AllowanceAccount(p, c) == L.Counted(p.ecl.rows, p.ecl.runs, c) - Sum(xs, ReleasedAmount) - Sum(xs, CoveredAmount)
      && (AllowanceAccount(p, c) == L.Counted(p.ecl.rows, p.ecl.runs, c) <==> Unprovided(xs))
  {
    hide P.Settled, P.Allowance, L.EventSum, L.Counted, L.ReleaseSum, Sums.Sum, E.TakenFrom, Unprovided, ProvidedAt, GL.Balance;
    P.AllowanceOf(p.ecl, c);
    SumsOfDrawn(p.books[c].executions);
  }

  // After any run of operations on any contracts, portfolio runs and postings: both records of a
  // contract's write-offs agree, each one recorded a provision that was the latest on the day, and the
  // allowance account carries the contract's posted movements less everything its write-offs drew and
  // released.
  lemma AllowanceOnTheLedger(p: Platform, commands: seq<Command>, c: nat)
    requires Opening(p) && c < |p.books| && forall k :: 0 <= k < |commands| ==> Regular(commands[k])
    ensures |Run(p, commands).books| == |p.books|
    ensures var d := Run(p, commands); var xs := d.books[c].executions;
      && E.TakenFrom(d.ecl.executions, c) == xs
      && (forall n :: 0 <= n < |xs| ==> ProvidedAt(d.ecl.rows, xs[n].provision, c))
      && AllowanceAccount(d, c) == P.Allowance(d.ecl.events, d.ecl.executions, c)
      && AllowanceAccount(d, c) == L.Counted(d.ecl.rows, d.ecl.runs, c) - Sum(xs, ReleasedAmount) - Sum(xs, CoveredAmount)
      && (AllowanceAccount(d, c) == L.Counted(d.ecl.rows, d.ecl.runs, c) <==> Unprovided(xs))
  {
    hide Run, Regular, Opening, P.Settled, P.Allowance, L.Consistent, L.Counted, Sums.Sum, E.TakenFrom, Unprovided, ProvidedAt, AllowanceOk, AllowanceAccount;
    forall i | 0 <= i < |p.books| ensures Sound(p, i) { OpeningSound(p, i); }
    RunKeeps(p, commands);
    AccountOf(Run(p, commands), c);
  }

  // With chronological dates and every run posted: the latest closing provision less both, which is
  // the provision exactly when no write-off of the contract found one.
  lemma AllowanceAgainstProvision(p: Platform, commands: seq<Command>, c: nat)
    requires Opening(p) && c < |p.books| && forall k :: 0 <= k < |commands| ==> Regular(commands[k])
    requires var d := Run(p, commands).ecl;
      H.Chronological(d.rows, c) && forall r :: 0 <= r < |d.runs| ==> d.runs[r].status.Posted?
    ensures |Run(p, commands).books| == |p.books|
    ensures var d := Run(p, commands); var xs := d.books[c].executions;
      && AllowanceAccount(d, c) == E.ProvisionOf(d.ecl.rows, c) - Sum(xs, ReleasedAmount) - Sum(xs, CoveredAmount)
      && (AllowanceAccount(d, c) == E.ProvisionOf(d.ecl.rows, c) <==> Unprovided(xs))
  {
    hide Run, Regular, Opening, P.Settled, H.Chronological, L.Consistent, L.Counted, Sums.Sum, Unprovided, Linked, AllowanceAccount;
    forall i | 0 <= i < |p.books| ensures Sound(p, i) { OpeningSound(p, i); }
    RunKeeps(p, commands);
    assert Sound(Run(p, commands), c);
    AllowanceOnTheLedger(p, commands, c);
    T.MovementsAreTheProvision(Run(p, commands).ecl, c);
  }

  // -------------------------------------------------------------------------
  // A write-off that finds a provision parts the two for good
  // -------------------------------------------------------------------------

  lemma {:induction false} RunAppend(p: Platform, first: seq<Command>, more: seq<Command>)
    ensures Run(p, first + more) == Run(Run(p, first), more)
    decreases |first|
  {
    hide Step;
    if first == [] {
      assert first + more == more;
    } else {
      assert (first + more)[1..] == first[1..] + more;
      RunAppend(Step(p, first[0]), first[1..], more);
    }
  }

  predicate Grown(p: Platform, d: Platform) {
    |d.books| == |p.books| && forall c :: 0 <= c < |p.books| ==> p.books[c].executions <= d.books[c].executions
  }

  lemma StepGrows(p: Platform, command: Command)
    ensures Grown(p, Step(p, command))
  {
    hide B.Step, E.Step, E.WriteOff, Priced;
    if command.OnContract? && command.contract < |p.books| {
      K.StepKept(p.books[command.contract], Priced(p, command.contract, command.operation));
    }
  }

  lemma {:induction false} RunGrows(p: Platform, commands: seq<Command>)
    ensures Grown(p, Run(p, commands))
    decreases |commands|
  {
    hide Step;
    if commands != [] {
      StepGrows(p, commands[0]);
      RunGrows(Step(p, commands[0]), commands[1..]);
    }
  }

  // A write-off of the contract that can be executed and finds a provision.
  predicate FindsProvision(d: Platform, c: nat, full: bool, x: Execution) {
    var provision := E.ProvisionOf(d.ecl.rows, c);
    c < |d.books| && provision > 0 && NothingNegative(x) && B.ExecuteWriteOff(d.books[c], full, x.(provision := provision)).1.Accepted?
  }

  lemma RecordsProvision(d: Platform, c: nat, full: bool, x: Execution)
    requires FindsProvision(d, c, full, x) && Sound(d, c)
    ensures var xs := Step(d, OnContract(c, B.DoWriteOff(full, x))).books[c].executions;
      |xs| > 0 && xs[|xs| - 1].provision > 0
  {
    hide B.ExecuteWriteOff, E.WriteOff, E.ProvisionOf, AllowanceOk, L.Consistent, P.Settled, ProvidedAt, E.TakenFrom;
    StepWritesOff(d.books[c], full, x.(provision := E.ProvisionOf(d.ecl.rows, c)));
  }

  lemma StillProvided(e: Platform, d: Platform, c: nat)
    requires Grown(e, d) && c < |e.books|
    requires var xs := e.books[c].executions; |xs| > 0 && xs[|xs| - 1].provision > 0
    ensures !Unprovided(d.books[c].executions)
  {
    var n := |e.books[c].executions| - 1;
    assert d.books[c].executions[n] == e.books[c].executions[n];
  }

  lemma SoundThen(p: Platform, commands: seq<Command>, c: nat)
    requires Opening(p) && c < |p.books| && forall k :: 0 <= k < |commands| ==> Regular(commands[k])
    ensures Sound(Run(p, commands), c) && |Run(p, commands).books| == |p.books|
  {
    hide Sound, Run, Regular, Opening;
    forall i | 0 <= i < |p.books| ensures Sound(p, i) { OpeningSound(p, i); }
    RunKeeps(p, commands);
  }

  lemma FoundProvision(p: Platform, before: seq<Command>, c: nat, full: bool, x: Execution, more: seq<Command>)
    requires Opening(p) && c < |p.books| && FindsProvision(Run(p, before), c, full, x)
    requires forall k :: 0 <= k < |before| ==> Regular(before[k])
    ensures var d := Run(p, before + [OnContract(c, B.DoWriteOff(full, x))] + more);
      |d.books| == |p.books| && !Unprovided(d.books[c].executions)
  {
    hide Step, Regular, Unprovided, FindsProvision, Sound, Opening;
    var b, w := Run(p, before), OnContract(c, B.DoWriteOff(full, x));
    SoundThen(p, before, c);
    RecordsProvision(b, c, full, x);
    RunAppend(p, before, [w] + more);
    assert before + [w] + more == before + ([w] + more);
    assert ([w] + more)[1..] == more;
    StepGrows(b, w);
    RunGrows(Step(b, w), more);
    StillProvided(Step(b, w), Run(Step(b, w), more), c);
  }

  // Whatever happens before and after it, on this contract or on any other.
  lemma AllowanceNeverReturns(p: Platform, before: seq<Command>, c: nat, full: bool, x: Execution, more: seq<Command>)
    requires Opening(p) && c < |p.books| && FindsProvision(Run(p, before), c, full, x)
    requires forall k :: 0 <= k < |before| ==> Regular(before[k])
    requires forall k :: 0 <= k < |more| ==> Regular(more[k])
    requires var d := Run(p, before + [OnContract(c, B.DoWriteOff(full, x))] + more).ecl;
      H.Chronological(d.rows, c) && forall r :: 0 <= r < |d.runs| ==> d.runs[r].status.Posted?
    ensures var d := Run(p, before + [OnContract(c, B.DoWriteOff(full, x))] + more);
      |d.books| == |p.books| && AllowanceAccount(d, c) != E.ProvisionOf(d.ecl.rows, c)
  {
    hide *;
    FoundProvision(p, before, c, full, x, more);
    RegularToo(p, before, c, full, x, more);
    AllowanceAgainstProvision(p, before + [OnContract(c, B.DoWriteOff(full, x))] + more, c);
  }

  lemma RegularToo(p: Platform, before: seq<Command>, c: nat, full: bool, x: Execution, more: seq<Command>)
    requires FindsProvision(Run(p, before), c, full, x)
    requires forall k :: 0 <= k < |before| ==> Regular(before[k])
    requires forall k :: 0 <= k < |more| ==> Regular(more[k])
    ensures var commands := before + [OnContract(c, B.DoWriteOff(full, x))] + more; forall k :: 0 <= k < |commands| ==> Regular(commands[k])
  {
    hide Run, E.ProvisionOf, B.ExecuteWriteOff, E.Regular;
  }

  // -------------------------------------------------------------------------
  // It happens under the shipped calibration
  // -------------------------------------------------------------------------

  const START: Platform := Platform([C.SAMPLE], E.NEW)

  const PROVIDED: seq<Command> := [OnContract(0, B.DoDeliver), OnPortfolio(P.FIRST)]

  const FORTY_OFF: Execution := Execution(40, 0, 0, 0)

  const PARTING: seq<Command> := PROVIDED + [OnContract(0, B.DoWriteOff(false, FORTY_OFF))] + []

  lemma StartOpens()
    ensures Opening(START) && |START.books| == 1 && START.books[0] == C.SAMPLE && START.ecl == E.NEW
  {
  }

  lemma AfterProviding()
    ensures var d := Run(START, PROVIDED); d.books == [B.Deliver(C.SAMPLE).0] && d.ecl == E.Step(E.NEW, P.FIRST)
    ensures |PROVIDED| == 2 && PROVIDED[0] == OnContract(0, B.DoDeliver) && PROVIDED[1] == OnPortfolio(P.FIRST)
  {
    hide B.Deliver, E.Step, C.SAMPLE, P.FIRST, E.NEW;
    assert PROVIDED[1..] == [OnPortfolio(P.FIRST)] && PROVIDED[1..][1..] == [];
    var first := Step(START, PROVIDED[0]);
    DeliverStep(C.SAMPLE);
    assert first == Platform([B.Deliver(C.SAMPLE).0], E.NEW);
    FirstIsInitial();
    assert Run(START, PROVIDED) == Run(first, PROVIDED[1..]) == Step(first, OnPortfolio(P.FIRST));
  }

  lemma DeliverStep(b: B.Book)
    ensures B.Step(b, B.DoDeliver) == B.Deliver(b).0
  {
    hide B.Deliver;
  }

  lemma FirstIsInitial()
    ensures !P.FIRST.DoWriteOff? && E.Regular(P.FIRST)
  {
    hide P.ON_BOOKS, P.NOT_DUE;
  }

  lemma FortyFinds(d: Platform)
    requires d.books == [B.Deliver(C.SAMPLE).0] && E.ProvisionOf(d.ecl.rows, 0) > 0
    ensures FindsProvision(d, 0, false, FORTY_OFF)
  {
    hide B.Deliver, B.ExecuteWriteOff, E.ProvisionOf, C.SAMPLE, Sums.Sum;
    C.SampleDelivered();
    Y.AskedIsAccepted(d.books[0], FORTY_OFF.(provision := E.ProvisionOf(d.ecl.rows, 0)));
  }

  lemma EclAfter(d: Platform)
    requires d.books == [B.Deliver(C.SAMPLE).0]
    ensures var e := Step(d, OnContract(0, B.DoWriteOff(false, FORTY_OFF))).ecl; e.rows == d.ecl.rows && e.runs == d.ecl.runs
  {
    hide B.Step, E.Emit, E.ProvisionOf, B.Deliver;
  }

  lemma Partings(d: Platform)
    requires d == Run(START, PROVIDED)
    ensures Run(START, PARTING) == Step(d, OnContract(0, B.DoWriteOff(false, FORTY_OFF)))
  {
    hide Step, START, PROVIDED, FORTY_OFF;
    var w := OnContract(0, B.DoWriteOff(false, FORTY_OFF));
    assert PARTING == PROVIDED + [w] && [w][1..] == [];
    RunAppend(START, PROVIDED, [w]);
    assert Run(d, [w]) == Run(Step(d, w), []);
  }

  ghost predicate PartsAccount(p: Platform, commands: seq<Command>) {
    var d := Run(p, commands);
    && Opening(p) && (forall k :: 0 <= k < |commands| ==> Regular(commands[k]))
    && |d.books| == |p.books| > 0 && H.Chronological(d.ecl.rows, 0) && (forall r :: 0 <= r < |d.ecl.runs| ==> d.ecl.runs[r].status.Posted?)
    && AllowanceAccount(d, 0) != E.ProvisionOf(d.ecl.rows, 0)
  }

  lemma Parts(p: Platform, commands: seq<Command>, r: A.Row)
    requires Opening(p) && (forall k :: 0 <= k < |commands| ==> Regular(commands[k]))
    requires var d := Run(p, commands);
      |d.books| == |p.books| > 0 && d.ecl.rows == [r] && d.ecl.runs == [] && AllowanceAccount(d, 0) != E.ProvisionOf(d.ecl.rows, 0)
    requires H.Chronological([r], 0)
    ensures PartsAccount(p, commands)
  {
    hide Run, Opening, Regular, AllowanceAccount, E.ProvisionOf, H.Chronological;
  }

  lemma PartingRegular()
    ensures forall k :: 0 <= k < |PROVIDED| ==> Regular(PROVIDED[k])
    ensures PARTING == PROVIDED + [OnContract(0, B.DoWriteOff(false, FORTY_OFF))] + []
  {
    hide P.FIRST;
    FirstIsInitial();
  }

  // Deliver the sample, provide for it at origination, write forty cents off: account 2300 is not its
  // provision any more.
  lemma AccountParts()
    ensures exists p, commands :: PartsAccount(p, commands)
  {
    hide *;
    var d := Run(START, PROVIDED);
    StartOpens();
    AfterProviding();
    var r := P.Originated();
    P.OneRow(r);
    FortyFinds(d);
    EclAfter(d);
    Partings(d);
    PartingRegular();
    RegularToo(START, PROVIDED, 0, false, FORTY_OFF, []);
    AllowanceNeverReturns(START, PROVIDED, 0, false, FORTY_OFF, []);
    Parts(START, PARTING, r);
  }
}
