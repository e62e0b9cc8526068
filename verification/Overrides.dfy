// The life of a manual ECL override under maker-checker:
// app/services/ecl_override.py, app/services/approvals.py.
// An override's id is its position in creation order, and so is a request's.
module Overrides {
  import opened Options
  import opened EclModel

  datatype OverrideStatus = Pending | Approved | Active | Rejected | Cancelled | Expired

  datatype OverrideValue =
    | StageValue(stage: int)
    | Parameters(pd12: Option<real>, lifetime: Option<real>, lgd: Option<real>, ead: Option<real>, rating: Option<string>)

  datatype Override = Override(contract: nat, value: OverrideValue, start: int, end: Option<int>, status: OverrideStatus,
                               request: nat, supersededBy: Option<nat>) {
    predicate Covers(day: int) { start <= day && (end.None? || day <= end.value) }
    predicate Governs() { status.Active? || status.Approved? }
  }

  datatype RequestStatus = Waiting | Granted | Denied

  datatype Request = Request(subject: nat, requestedBy: nat, status: RequestStatus, decidedBy: Option<nat>)

  datatype Desk = Desk(overrides: seq<Override>, requests: seq<Request>)

  datatype Refusal = NoSuchRequest | AlreadyDecided | OwnRequest | NoSuchOverride | NotPending | AlreadyPending | BadWindow | NotCancellable

  datatype Verdict = Done | Refused(reason: Refusal)

  // -------------------------------------------------------------------------
  // Operations
  // -------------------------------------------------------------------------

  predicate HasPending(overrides: seq<Override>, contract: nat) {
    exists k :: 0 <= k < |overrides| && overrides[k].contract == contract && overrides[k].status.Pending?
  }

  // request_stage_override() and request_parameter_override(), once their guards have passed.
  function Place(d: Desk, contract: nat, value: OverrideValue, start: int, end: int, user: nat): (Desk, Verdict) {
    if HasPending(d.overrides, contract) then (d, Refused(AlreadyPending))
    else if end < start then (d, Refused(BadWindow))
    else
      (Desk(d.overrides + [Override(contract, value, start, Some(end), OverrideStatus.Pending, |d.requests|, None)],
            d.requests + [Request(|d.overrides|, user, Waiting, None)]), Done)
  }

  // A newly approved override withdraws whatever still governed the contract.
  function Superseded(o: Override, id: nat, successor: nat, contract: nat): Override {
    if o.contract == contract && id != successor && o.Governs() then o.(status := Cancelled, supersededBy := Some(successor)) else o
  }

  function SupersedeAll(overrides: seq<Override>, successor: nat, contract: nat): (after: seq<Override>)
    ensures |after| == |overrides|
    ensures forall k :: 0 <= k < |overrides| ==> after[k] == Superseded(overrides[k], k, successor, contract)
  {
    seq(|overrides|, k requires 0 <= k < |overrides| => Superseded(overrides[k], k, successor, contract))
  }

  // approvals.decide() on an override request; an error inside it undoes the whole decision.
  function Decide(d: Desk, request: nat, user: nat, approve: bool, today: int): (Desk, Verdict) {
    if request >= |d.requests| then (d, Refused(NoSuchRequest))
    else
      var r := d.requests[request];
      if !r.status.Waiting? then (d, Refused(AlreadyDecided))
      else if user == r.requestedBy then (d, Refused(OwnRequest))
      else
        var decided := d.requests[request := r.(status := if approve then Granted else Denied, decidedBy := Some(user))];
        if approve then
          if r.subject >= |d.overrides| then (d, Refused(NoSuchOverride))
          else if !d.overrides[r.subject].status.Pending? then (d, Refused(NotPending))
          else
            var o := d.overrides[r.subject];
            var live := d.overrides[r.subject := o.(status := if o.Covers(today) then Active else OverrideStatus.Approved)];
            (Desk(SupersedeAll(live, r.subject, o.contract), decided), Done)
        else
          (Desk(if r.subject < |d.overrides| && d.overrides[r.subject].status.Pending?
                then d.overrides[r.subject := d.overrides[r.subject].(status := Rejected)] else d.overrides, decided), Done)
  }

  // cancel_override()
  function Cancel(d: Desk, id: nat, user: nat): (Desk, Verdict) {
    if id >= |d.overrides| then (d, Refused(NoSuchOverride))
    else
      var o := d.overrides[id];
      if !o.status.Pending? && !o.Governs() then (d, Refused(NotCancellable))
      else
        var requests := if o.request < |d.requests| && d.requests[o.request].status.Waiting?
                        then d.requests[o.request := d.requests[o.request].(status := Denied, decidedBy := Some(user))] else d.requests;
        (Desk(d.overrides[id := o.(status := Cancelled)], requests), Done)
  }

  function Aged(o: Override, today: int): Override {
    if !o.Governs() then o
    else if o.end.Some? && o.end.value < today then o.(status := Expired)
    else if o.status.Approved? && o.start <= today then o.(status := Active)
    else o
  }

  // expire_due()
  function ExpireDue(d: Desk, today: int): Desk {
    d.(overrides := seq(|d.overrides|, k requires 0 <= k < |d.overrides| => Aged(d.overrides[k], today)))
  }

  datatype Command =
    | DoPlace(contract: nat, value: OverrideValue, start: int, end: int, user: nat)
    | DoDecide(request: nat, user: nat, approve: bool, today: int)
    | DoCancel(id: nat, user: nat)
    | DoExpire(today: int)

  function Step(d: Desk, c: Command): Desk {
    match c
    case DoPlace(contract, value, start, end, user) => Place(d, contract, value, start, end, user).0
    case DoDecide(request, user, approve, today) => Decide(d, request, user, approve, today).0
    case DoCancel(id, user) => Cancel(d, id, user).0
    case DoExpire(today) => ExpireDue(d, today)
  }

  function Run(d: Desk, commands: seq<Command>): Desk
    decreases |commands|
  {
    if commands == [] then d else Run(Step(d, commands[0]), commands[1..])
  }

  const EMPTY: Desk := Desk([], [])

  // -------------------------------------------------------------------------
  // The invariant
  // -------------------------------------------------------------------------

  predicate Paired(d: Desk) {
    && (forall k :: 0 <= k < |d.overrides| ==>
         d.overrides[k].request < |d.requests| && d.requests[d.overrides[k].request].subject == k)
    && (forall r :: 0 <= r < |d.requests| ==>
         d.requests[r].subject < |d.overrides| && d.overrides[d.requests[r].subject].request == r)
  }

  // An override waits for a decision exactly while its request does.
  predicate InStep(d: Desk)
    requires Paired(d)
  {
    forall k :: 0 <= k < |d.overrides| ==> (d.overrides[k].status.Pending? <==> d.requests[d.overrides[k].request].status.Waiting?)
  }

  // A pending override is the newest of its contract, hence the only pending one.
  predicate PendingIsNewest(d: Desk) {
    forall j, k :: 0 <= j < |d.overrides| && 0 <= k < |d.overrides| && j != k ==>
      d.overrides[j].contract == d.overrides[k].contract && d.overrides[k].status.Pending? ==> j < k
  }

  predicate OneGoverns(d: Desk) {
    forall j, k :: 0 <= j < |d.overrides| && 0 <= k < |d.overrides| && j != k ==>
      d.overrides[j].contract == d.overrides[k].contract && d.overrides[j].Governs() ==> !d.overrides[k].Governs()
  }

  predicate FourEyes(d: Desk) {
    forall r :: 0 <= r < |d.requests| && d.requests[r].status.Granted? ==>
      d.requests[r].decidedBy.Some? && d.requests[r].decidedBy.value != d.requests[r].requestedBy
  }

  // A governing override was granted; a superseded one is cancelled, by a later granted one.
  predicate Supersession(d: Desk)
    requires Paired(d)
  {
    && (forall k :: 0 <= k < |d.overrides| && d.overrides[k].Governs() ==> d.requests[d.overrides[k].request].status.Granted?)
    && (forall k :: 0 <= k < |d.overrides| && d.overrides[k].supersededBy.Some? ==>
         && d.overrides[k].status.Cancelled?
         && k < d.overrides[k].supersededBy.value < |d.overrides|
         && d.overrides[d.overrides[k].supersededBy.value].contract == d.overrides[k].contract
         && d.requests[d.overrides[d.overrides[k].supersededBy.value].request].status.Granted?)
  }

  predicate Orderly(d: Desk) {
    Paired(d) && InStep(d) && PendingIsNewest(d) && OneGoverns(d) && FourEyes(d) && Supersession(d)
  }

  lemma PlaceKeeps(d: Desk, contract: nat, value: OverrideValue, start: int, end: int, user: nat)
    requires Orderly(d)
    ensures Orderly(Place(d, contract, value, start, end, user).0)
  {
    if Place(d, contract, value, start, end, user).1.Done? {
      var o := Override(contract, value, start, Some(end), OverrideStatus.Pending, |d.requests|, None);
      var after := Desk(d.overrides + [o], d.requests + [Request(|d.overrides|, user, Waiting, None)]);
      Appended(d, after, o);
      AppendedPairs(d, after, o);
    }
  }

  predicate Appends(d: Desk, after: Desk, o: Override) {
    && after.overrides == d.overrides + [o] && o.status.Pending? && o.request == |d.requests| && o.supersededBy.None?
    && |after.requests| == |d.requests| + 1 && after.requests[..|d.requests|] == d.requests
    && after.requests[|d.requests|].subject == |d.overrides| && after.requests[|d.requests|].status.Waiting?
    && !HasPending(d.overrides, o.contract)
  }

  lemma Appended(d: Desk, after: Desk, o: Override)
    requires PendingIsNewest(d) && OneGoverns(d) && FourEyes(d) && Appends(d, after, o)
    ensures PendingIsNewest(after) && OneGoverns(after) && FourEyes(after)
  {
    assert forall r :: 0 <= r < |d.requests| ==> after.requests[r] == d.requests[r];
    assert forall k :: 0 <= k < |d.overrides| && d.overrides[k].contract == o.contract ==> !d.overrides[k].status.Pending?;
  }

  lemma AppendedPairs(d: Desk, after: Desk, o: Override)
    requires Paired(d) && InStep(d) && Supersession(d) && Appends(d, after, o)
    ensures Paired(after) && InStep(after) && Supersession(after)
  {
    assert forall r :: 0 <= r < |d.requests| ==> after.requests[r] == d.requests[r];
    assert forall k :: 0 <= k < |d.overrides| ==> after.overrides[k] == d.overrides[k];
  }

  // A step that only retires overrides and denies requests.
  predicate RetiresOne(o: Override, p: Override) {
    && p == o.(status := p.status)
    && (p.status.Pending? ==> o.status.Pending?) && (p.Governs() ==> o.Governs())
    && (o.status.Cancelled? ==> p.status.Cancelled?)
  }

  predicate DeniesOne(r: Request, q: Request) { q == r || (r.status.Waiting? && q == r.(status := Denied, decidedBy := q.decidedBy)) }

  predicate Retires(d: Desk, after: Desk) {
    && |after.overrides| == |d.overrides| && |after.requests| == |d.requests|
    && (forall k :: 0 <= k < |d.overrides| ==> RetiresOne(d.overrides[k], after.overrides[k]))
    && (forall r :: 0 <= r < |d.requests| ==> DeniesOne(d.requests[r], after.requests[r]))
  }

  lemma RetiredOrder(d: Desk, after: Desk)
    requires PendingIsNewest(d) && OneGoverns(d) && Retires(d, after)
    ensures PendingIsNewest(after) && OneGoverns(after)
  {
    assert forall k :: 0 <= k < |d.overrides| ==> RetiresOne(d.overrides[k], after.overrides[k]);
  }

  lemma RetiredRecords(d: Desk, after: Desk)
    requires Paired(d) && FourEyes(d) && Supersession(d) && Retires(d, after)
    ensures Paired(after) && FourEyes(after) && Supersession(after)
  {
    assert forall k :: 0 <= k < |d.overrides| ==> RetiresOne(d.overrides[k], after.overrides[k]);
    assert forall r :: 0 <= r < |d.requests| ==> DeniesOne(d.requests[r], after.requests[r]);
  }

  lemma RetiresKeeps(d: Desk, after: Desk)
    requires Orderly(d) && Retires(d, after) && (Paired(after) ==> InStep(after))
    ensures Orderly(after)
  {
    hide PendingIsNewest, OneGoverns, FourEyes, Supersession, Paired, InStep, Retires;
    RetiredOrder(d, after);
    RetiredRecords(d, after);
  }

  lemma RejectRetires(d: Desk, request: nat, user: nat, today: int)
    requires Paired(d) && InStep(d)
    ensures var after := Decide(d, request, user, false, today).0; Retires(d, after) && (Paired(after) ==> InStep(after))
  {
    var after := Decide(d, request, user, false, today).0;
    forall k | 0 <= k < |d.overrides| ensures RetiresOne(d.overrides[k], after.overrides[k]) {
    }
    forall r | 0 <= r < |d.requests| ensures DeniesOne(d.requests[r], after.requests[r]) {
    }
  }

  lemma RejectKeeps(d: Desk, request: nat, user: nat, today: int)
    requires Orderly(d)
    ensures Orderly(Decide(d, request, user, false, today).0)
  {
    hide PendingIsNewest, OneGoverns, FourEyes, Supersession, Paired, InStep, Retires, Decide;
    RejectRetires(d, request, user, today);
    RetiresKeeps(d, Decide(d, request, user, false, today).0);
  }

  // An approval: override `id`, until now pending, starts to govern, and what still governed its
  // contract is superseded by it.
  predicate Approves(d: Desk, after: Desk, id: nat, request: nat) {
    && id < |d.overrides| == |after.overrides| && request < |d.requests| == |after.requests|
    && d.overrides[id].status.Pending? && d.requests[request].status.Waiting? && d.requests[request].subject == id
    && (forall k :: 0 <= k < |d.overrides| && k != id ==>
         after.overrides[k] == Superseded(d.overrides[k], k, id, d.overrides[id].contract))
    && after.overrides[id] == d.overrides[id].(status := after.overrides[id].status) && after.overrides[id].Governs()
    && (forall r :: 0 <= r < |d.requests| && r != request ==> after.requests[r] == d.requests[r])
    && after.requests[request] == d.requests[request].(status := Granted, decidedBy := after.requests[request].decidedBy)
    && after.requests[request].decidedBy.Some? && after.requests[request].decidedBy.value != d.requests[request].requestedBy
  }

  lemma DecideApproves(d: Desk, request: nat, user: nat, today: int)
    requires Decide(d, request, user, true, today).1.Done?
    ensures request < |d.requests| && Approves(d, Decide(d, request, user, true, today).0, d.requests[request].subject, request)
  {
  }

  // The two halves of an approval: the newest override of the contract alone governs ...
  lemma ApprovedAlone(d: Desk, after: Desk, id: nat, request: nat)
    requires PendingIsNewest(d) && OneGoverns(d) && Approves(d, after, id, request)
    ensures OneGoverns(after)
  {
    forall j, k | 0 <= j < |after.overrides| && 0 <= k < |after.overrides| && j != k
        && after.overrides[j].contract == after.overrides[k].contract && after.overrides[j].Governs()
      ensures !after.overrides[k].Governs()
    {
      assert j != id ==> after.overrides[j] == Superseded(d.overrides[j], j, id, d.overrides[id].contract);
      assert k != id ==> after.overrides[k] == Superseded(d.overrides[k], k, id, d.overrides[id].contract);
    }
  }

  lemma ApprovedNewest(d: Desk, after: Desk, id: nat, request: nat)
    requires PendingIsNewest(d) && Approves(d, after, id, request)
    ensures PendingIsNewest(after)
  {
    assert forall k :: 0 <= k < |d.overrides| ==> after.overrides[k].contract == d.overrides[k].contract;
    assert forall k :: 0 <= k < |d.overrides| && after.overrides[k].status.Pending? ==> d.overrides[k].status.Pending?;
  }

  lemma ApprovedPairs(d: Desk, after: Desk, id: nat, request: nat)
    requires Paired(d) && InStep(d) && FourEyes(d) && Approves(d, after, id, request)
    ensures Paired(after) && InStep(after) && FourEyes(after)
  {
    assert forall k :: 0 <= k < |d.overrides| ==> after.overrides[k].request == d.overrides[k].request;
  }

  // ... and whatever it supersedes is older.
  lemma ApprovedSupersedes(d: Desk, after: Desk, id: nat, request: nat)
    requires Paired(d) && PendingIsNewest(d) && Supersession(d) && Approves(d, after, id, request) && Paired(after)
    ensures Supersession(after)
  {
    assert d.overrides[id].request == request;
    forall r | 0 <= r < |d.requests| && d.requests[r].status.Granted? ensures after.requests[r].status.Granted? {
    }
    forall k | 0 <= k < |after.overrides| && after.overrides[k].supersededBy.Some?
      ensures
        && after.overrides[k].status.Cancelled? && k < after.overrides[k].supersededBy.value < |after.overrides|
        && after.overrides[after.overrides[k].supersededBy.value].contract == after.overrides[k].contract
        && after.requests[after.overrides[after.overrides[k].supersededBy.value].request].status.Granted?
    {
      if k != id {
        assert after.overrides[k] == Superseded(d.overrides[k], k, id, d.overrides[id].contract);
      }
    }
  }

  lemma ApproveKeeps(d: Desk, request: nat, user: nat, today: int)
    requires Orderly(d)
    ensures Orderly(Decide(d, request, user, true, today).0)
  {
    if Decide(d, request, user, true, today).1.Done? {
      hide PendingIsNewest, OneGoverns, FourEyes, Supersession, Paired, InStep, Approves, Decide;
      var after, id := Decide(d, request, user, true, today).0, d.requests[request].subject;
      DecideApproves(d, request, user, today);
      ApprovedAlone(d, after, id, request);
      ApprovedNewest(d, after, id, request);
      ApprovedPairs(d, after, id, request);
      ApprovedSupersedes(d, after, id, request);
    }
  }

  lemma CancelRetires(d: Desk, id: nat, user: nat)
    requires Paired(d) && InStep(d)
    ensures var after := Cancel(d, id, user).0; Retires(d, after) && (Paired(after) ==> InStep(after))
  {
    var after := Cancel(d, id, user).0;
    forall k | 0 <= k < |d.overrides| ensures RetiresOne(d.overrides[k], after.overrides[k]) {
    }
    forall r | 0 <= r < |d.requests| ensures DeniesOne(d.requests[r], after.requests[r]) {
    }
  }

  lemma CancelKeeps(d: Desk, id: nat, user: nat)
    requires Orderly(d)
    ensures Orderly(Cancel(d, id, user).0)
  {
    hide PendingIsNewest, OneGoverns, FourEyes, Supersession, Paired, InStep, Retires, Cancel;
    CancelRetires(d, id, user);
    RetiresKeeps(d, Cancel(d, id, user).0);
  }

  lemma ExpireKeeps(d: Desk, today: int)
    requires Orderly(d)
    ensures Orderly(ExpireDue(d, today))
  {
    hide PendingIsNewest, OneGoverns, FourEyes, Supersession;
    var after := ExpireDue(d, today);
    assert forall k :: 0 <= k < |d.overrides| ==> after.overrides[k] == Aged(d.overrides[k], today);
    RetiresKeeps(d, after);
  }

  lemma {:induction false} RunKeeps(d: Desk, commands: seq<Command>)
    requires Orderly(d)
    ensures Orderly(Run(d, commands))
    decreases |commands|
  {
    if commands != [] {
      match commands[0] {
        case DoPlace(contract, value, start, end, user) => PlaceKeeps(d, contract, value, start, end, user);
        case DoDecide(request, user, approve, today) =>
          if approve { ApproveKeeps(d, request, user, today); } else { RejectKeeps(d, request, user, today); }
        case DoCancel(id, user) => CancelKeeps(d, id, user);
        case DoExpire(today) => ExpireKeeps(d, today);
      }
      RunKeeps(Step(d, commands[0]), commands[1..]);
    }
  }

  // On any reachable desk a contract has one pending override at most.
  lemma AtMostOnePending(commands: seq<Command>, j: nat, k: nat)
    requires var d := Run(EMPTY, commands);
      && j < |d.overrides| && k < |d.overrides| && d.overrides[j].contract == d.overrides[k].contract
      && d.overrides[j].status.Pending? && d.overrides[k].status.Pending?
    ensures j == k
  {
    hide Paired, InStep, OneGoverns, FourEyes, Supersession;
    RunKeeps(EMPTY, commands);
  }

  // Following superseded_by from any override ends at one that nothing has superseded.
  function ChainEnd(d: Desk, k: nat): (last: nat)
    requires Orderly(d) && k < |d.overrides|
    ensures k <= last < |d.overrides| && d.overrides[last].supersededBy.None?
    ensures d.overrides[last].contract == d.overrides[k].contract
    decreases |d.overrides| - k
  {
    if d.overrides[k].supersededBy.None? then k else ChainEnd(d, d.overrides[k].supersededBy.value)
  }

  // -------------------------------------------------------------------------
  // What governs a contract on a day
  // -------------------------------------------------------------------------

  predicate InForce(o: Override, contract: nat, day: int) { o.contract == contract && o.Governs() && o.Covers(day) }

  // _active_override(): newest first.
  function Governing(overrides: seq<Override>, contract: nat, day: int): Option<nat> {
    if overrides == [] then None
    else
      var last := |overrides| - 1;
      if InForce(overrides[last], contract, day) then Some(last) else Governing(overrides[..last], contract, day)
  }

  lemma {:induction false} GoverningFound(overrides: seq<Override>, contract: nat, day: int)
    ensures var g := Governing(overrides, contract, day);
      && (g.Some? ==> g.value < |overrides| && InForce(overrides[g.value], contract, day))
      && (g.None? ==> forall k :: 0 <= k < |overrides| ==> !InForce(overrides[k], contract, day))
  {
    if overrides != [] {
      GoverningFound(overrides[..|overrides| - 1], contract, day);
    }
  }

  // On any reachable desk the order of the search is immaterial: at most one override is in force.
  lemma GoverningUnique(commands: seq<Command>, contract: nat, day: int, k: nat)
    requires var d := Run(EMPTY, commands); k < |d.overrides| && InForce(d.overrides[k], contract, day)
    ensures Governing(Run(EMPTY, commands).overrides, contract, day) == Some(k)
  {
    RunKeeps(EMPTY, commands);
    GoverningFound(Run(EMPTY, commands).overrides, contract, day);
  }

  lemma AgedInForce(o: Override, contract: nat, today: int, day: int)
    requires day >= today
    ensures InForce(Aged(o, today), contract, day) <==> InForce(o, contract, day)
  {
  }

  lemma {:induction false} SameGoverning(before: seq<Override>, after: seq<Override>, contract: nat, day: int)
    requires |before| == |after| && forall k :: 0 <= k < |before| ==> InForce(before[k], contract, day) == InForce(after[k], contract, day)
    ensures Governing(before, contract, day) == Governing(after, contract, day)
  {
    if before != [] {
      SameGoverning(before[..|before| - 1], after[..|after| - 1], contract, day);
    }
  }

  // The expiry job is housekeeping: what governs a contract from that day on does not change.
  lemma ExpiryIsNeutral(d: Desk, today: int, contract: nat, day: int)
    requires day >= today
    ensures Governing(ExpireDue(d, today).overrides, contract, day) == Governing(d.overrides, contract, day)
  {
    var after := ExpireDue(d, today).overrides;
    forall k | 0 <= k < |after| ensures InForce(d.overrides[k], contract, day) == InForce(after[k], contract, day) {
      AgedInForce(d.overrides[k], contract, today, day);
    }
    SameGoverning(d.overrides, after, contract, day);
  }

  // An approval takes effect at once: in its window, the approved override is what governs.
  lemma ApprovalGoverns(d: Desk, request: nat, user: nat, today: int, day: int)
    requires Orderly(d) && Decide(d, request, user, true, today).1.Done?
    requires d.overrides[d.requests[request].subject].Covers(day)
    ensures var k := d.requests[request].subject;
      Governing(Decide(d, request, user, true, today).0.overrides, d.overrides[k].contract, day) == Some(k)
  {
    var k := d.requests[request].subject;
    var after := Decide(d, request, user, true, today).0;
    ApproveKeeps(d, request, user, today);
    GoverningFound(after.overrides, d.overrides[k].contract, day);
    assert InForce(after.overrides[k], d.overrides[k].contract, day);
  }
}
