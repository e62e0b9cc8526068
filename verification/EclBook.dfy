// The run-and-post protocol over a portfolio: app/services/ecl.py, initial_assessment(), run_ecl()
// and post_run(), with the two events an executed write-off emits (app/services/write_off.py).
// A run's id is its position in creation order.
module EclBook {
  import opened Options
  import opened Sums
  import opened WriteOffs
  import opened EclModel
  import opened Overrides
  import opened EclAssessment
  import opened EclHistory

  datatype Kind = ProvisionCreated | ProvisionIncreased | ProvisionReleased | ProvisionOverridden | RollUp
                | FullWriteOff | PartialWriteOff

  // The unique event_reference of each event.
  datatype Key = Origination(contract: nat) | Move(run: nat, contract: nat) | Adjust(run: nat, contract: nat)
               | Summary(run: nat) | WriteOffBooking(execution: nat) | WriteOffRelease(execution: nat)

  datatype Event = Event(kind: Kind, key: Key, contract: Option<nat>, amount: int)

  datatype RunStatus = Completed | Posted

  datatype Totals = Totals(exposure: int, loss: int, stage1: int, stage2: int, stage3: int, none: int, movement: int)

  datatype RunRow = RunRow(asOf: int, version: nat, status: RunStatus, contracts: nat, totals: Totals)

  // An executed write-off of a contract; its provision is the closing one of the contract's latest
  // assessment on the day.
  datatype WriteOffRow = WriteOffRow(contract: nat, full: bool, taken: Execution)

  // The executions of one contract, as its own books record them.
  function TakenFrom(xs: seq<WriteOffRow>, contract: nat): seq<Execution> {
    if xs == [] then []
    else
      var last := xs[|xs| - 1];
      TakenFrom(xs[..|xs| - 1], contract) + if last.contract == contract then [last.taken] else []
  }

  datatype Book = Book(rows: seq<Row>, runs: seq<RunRow>, events: seq<Event>, executions: seq<WriteOffRow>)

  const NEW: Book := Book([], [], [], [])

  // -------------------------------------------------------------------------
  // Events
  // -------------------------------------------------------------------------

  predicate Known(events: seq<Event>, key: Key) {
    exists k :: 0 <= k < |events| && events[k].key == key
  }

  function Emit(events: seq<Event>, e: Event): seq<Event> {
    if Known(events, e.key) then events else events + [e]
  }

  // -------------------------------------------------------------------------
  // Runs
  // -------------------------------------------------------------------------

  datatype Exposure = Exposure(contract: nat, facts: Facts)

  // What a portfolio run reads: the configuration, the overrides and the active contracts.
  datatype Input = Input(asOf: int, version: nat, calibration: Calibration, buckets: seq<Bucket>, overrides: seq<Override>)

  function VisitOf(input: Input, x: Exposure, run: Option<nat>): Visit {
    Visit(x.contract, run, input.asOf, input.version, input.calibration, input.buckets, x.facts, input.overrides)
  }

  function AssessAll(rows: seq<Row>, input: Input, run: nat, xs: seq<Exposure>): (out: Result<seq<Row>>)
    ensures out.Ok? ==> rows <= out.value && |out.value| == |rows| + |xs|
    decreases |xs|
  {
    if xs == [] then Ok(rows)
    else
      match Assess(rows, VisitOf(input, xs[0], Some(run)))
      case Misconfigured => Misconfigured
      case Ok(r) => AssessAll(rows + [r], input, run, xs[1..])
  }

  const NOTHING: Totals := Totals(0, 0, 0, 0, 0, 0, 0)

  function Plus(t: Totals, r: Row): Totals {
    var s := OrElse(r.final.stage, 0);
    t.(exposure := t.exposure + r.auto.ead, loss := t.loss + r.final.loss, movement := t.movement + r.closing - r.opening,
       stage1 := t.stage1 + (if s == 1 then r.final.loss else 0),
       stage2 := t.stage2 + (if s == 2 then r.final.loss else 0),
       stage3 := t.stage3 + (if s == 3 then r.final.loss else 0),
       none := t.none + (if s == 1 || s == 2 || s == 3 then 0 else r.final.loss))
  }

  function TotalsOf(rows: seq<Row>): Totals {
    if rows == [] then NOTHING else Plus(TotalsOf(rows[..|rows| - 1]), rows[|rows| - 1])
  }

  datatype Outcome = Fine | Misconfiguration | NoSuchRun

  // A run that meets a calibration gap is not kept.
  function RunEcl(b: Book, input: Input, xs: seq<Exposure>): (Book, Outcome) {
    match AssessAll(b.rows, input, |b.runs|, xs)
    case Misconfigured => (b, Misconfiguration)
    case Ok(rows) =>
      (b.(rows := rows, runs := b.runs + [RunRow(input.asOf, input.version, Completed, |xs|, TotalsOf(rows[|b.rows|..]))]), Fine)
  }

  // -------------------------------------------------------------------------
  // Posting
  // -------------------------------------------------------------------------

  function MoveKind(opening: int, base: int): Kind {
    if opening == 0 then ProvisionCreated else if base > 0 then ProvisionIncreased else ProvisionReleased
  }

  function EmitNonZero(events: seq<Event>, e: Event): seq<Event> {
    if e.amount != 0 then Emit(events, e) else events
  }

  function ModelEvent(r: Row, run: nat): Event {
    var base := r.auto.loss - r.opening;
    Event(MoveKind(r.opening, base), Move(run, r.contract), Some(r.contract), base)
  }

  function OverrideEvent(r: Row, run: nat): Event {
    Event(ProvisionOverridden, Adjust(run, r.contract), Some(r.contract), r.closing - r.auto.loss)
  }

  // The movement of one row: the model's part, then the override's.
  function EmitRow(events: seq<Event>, r: Row, run: nat): seq<Event> {
    EmitNonZero(EmitNonZero(events, ModelEvent(r, run)), OverrideEvent(r, run))
  }

  function EmitRows(events: seq<Event>, rows: seq<Row>, run: nat): seq<Event>
    decreases |rows|
  {
    if rows == [] then events
    else
      var before, last := EmitRows(events, rows[..|rows| - 1], run), rows[|rows| - 1];
      if last.run == Some(run) then EmitRow(before, last, run) else before
  }

  function PostRun(b: Book, run: nat): (Book, Outcome) {
    if run >= |b.runs| then (b, NoSuchRun)
    else if b.runs[run].status.Posted? then (b, Fine)
    else
      var moved := EmitRows(b.events, b.rows, run);
      (b.(events := Emit(moved, Event(RollUp, Summary(run), None, b.runs[run].totals.movement)),
          runs := b.runs[run := b.runs[run].(status := Posted)]), Fine)
  }

  // -------------------------------------------------------------------------
  // Origination and write-off
  // -------------------------------------------------------------------------

  predicate HasOrigination(rows: seq<Row>, contract: nat) {
    exists k :: 0 <= k < |rows| && rows[k].contract == contract && rows[k].run.None?
  }

  function InitialAssessment(b: Book, input: Input, x: Exposure): (Book, Outcome) {
    if HasOrigination(b.rows, x.contract) then (b, Fine)
    else
      match Assess(b.rows, VisitOf(input, x, None))
      case Misconfigured => (b, Misconfiguration)
      case Ok(r) =>
        (b.(rows := b.rows + [r],
            events := if r.closing - r.opening != 0
                      then Emit(b.events, Event(ProvisionCreated, Origination(x.contract), Some(x.contract), r.closing - r.opening))
                      else b.events), Fine)
  }

  function ProvisionOf(rows: seq<Row>, contract: nat): int {
    match Latest(rows, contract)
    case None => 0
    case Some(r) => r.closing
  }

  function BookingEvent(n: nat, x: WriteOffRow): Event {
    Event(if x.full then FullWriteOff else PartialWriteOff, WriteOffBooking(n), Some(x.contract), x.taken.Total())
  }

  function ReleaseEvent(n: nat, x: WriteOffRow): Event {
    Event(ProvisionReleased, WriteOffRelease(n), Some(x.contract), -x.taken.provision)
  }

  // An executed write-off books what it took off, and releases the whole closing provision of the
  // contract's latest assessment.
  function WriteOff(b: Book, contract: nat, full: bool, principal: int, profit: int, lateFee: int): Book {
    var n := |b.executions|;
    var x := WriteOffRow(contract, full, Execution(principal, profit, lateFee, ProvisionOf(b.rows, contract)));
    var booked := Emit(b.events, BookingEvent(n, x));
    b.(executions := b.executions + [x], events := if x.taken.provision > 0 then Emit(booked, ReleaseEvent(n, x)) else booked)
  }

  datatype Command =
    | DoInitial(input: Input, exposure: Exposure)
    | DoRun(input: Input, exposures: seq<Exposure>)
    | DoPost(run: nat)
    | DoWriteOff(contract: nat, full: bool, principal: int, profit: int, lateFee: int)

  function Step(b: Book, c: Command): Book {
    match c
    case DoInitial(input, x) => InitialAssessment(b, input, x).0
    case DoRun(input, xs) => RunEcl(b, input, xs).0
    case DoPost(run) => PostRun(b, run).0
    case DoWriteOff(contract, full, principal, profit, lateFee) => WriteOff(b, contract, full, principal, profit, lateFee)
  }

  function Run(b: Book, commands: seq<Command>): Book
    decreases |commands|
  {
    if commands == [] then b else Run(Step(b, commands[0]), commands[1..])
  }

  predicate Distinct(xs: seq<Exposure>) {
    forall j, k :: 0 <= j < k < |xs| ==> xs[j].contract != xs[k].contract
  }

  // A portfolio run visits each active contract once, and a write-off takes no negative amount.
  predicate Regular(c: Command) {
    (c.DoRun? ==> Distinct(c.exposures)) && (c.DoWriteOff? ==> c.principal >= 0 && c.profit >= 0 && c.lateFee >= 0)
  }
}
