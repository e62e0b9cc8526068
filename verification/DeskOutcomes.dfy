// What each operation on an override changes, and all that it changes
// (app/services/ecl_override.py, app/services/approvals.py).
module DeskOutcomes {
  import opened Options
  import opened Sums
  import opened EclModel
  import opened Overrides

  // Nobody but override `id` and request `r` is touched.
  predicate OnlyTouches(d: Desk, after: Desk, id: nat, r: nat) {
    && |after.overrides| == |d.overrides| && |after.requests| == |d.requests|
    && (forall k :: 0 <= k < |d.overrides| && k != id ==> after.overrides[k] == d.overrides[k])
    && (forall q :: 0 <= q < |d.requests| && q != r ==> after.requests[q] == d.requests[q])
  }

  lemma {:induction false} NobodyGoverns(overrides: seq<Override>, contract: nat, day: int)
    requires forall k :: 0 <= k < |overrides| ==> !InForce(overrides[k], contract, day)
    ensures Governing(overrides, contract, day) == None
  {
    GoverningFound(overrides, contract, day);
  }

  // When override `id` stops governing and nothing else changes, its contract is governed by nobody on
  // the days it governed, and by whoever governed on the others.
  lemma StopsGoverning(d: Desk, after: Desk, id: nat, contract: nat, day: int)
    requires OneGoverns(d) && id < |d.overrides| && OnlyTouches(d, after, id, d.overrides[id].request)
    requires !after.overrides[id].Governs()
    ensures Governing(after.overrides, contract, day) ==
      if Governing(d.overrides, contract, day) == Some(id) then None else Governing(d.overrides, contract, day)
  {
    GoverningFound(d.overrides, contract, day);
    GoverningFound(after.overrides, contract, day);
    var g, h := Governing(d.overrides, contract, day), Governing(after.overrides, contract, day);
    if h.Some? {
      assert h.value != id && InForce(d.overrides[h.value], contract, day);
    }
  }

  // -------------------------------------------------------------------------
  // Cancellation
  // -------------------------------------------------------------------------

  // It is possible exactly while the override waits or governs.
  lemma CancelWhen(d: Desk, id: nat, user: nat)
    ensures Cancel(d, id, user).1.Done? <==>
      id < |d.overrides| && (d.overrides[id].status.Pending? || d.overrides[id].status.Approved? || d.overrides[id].status.Active?)
    ensures !Cancel(d, id, user).1.Done? ==> Cancel(d, id, user).0 == d
  {
  }

  // It ends the override: the override neither waits nor governs on any day afterwards, its request is no
  // longer waiting, its contract is governed by nobody on the days it governed, and nothing else changes.
  lemma CancelEnds(d: Desk, id: nat, user: nat)
    requires Orderly(d) && Cancel(d, id, user).1.Done?
    ensures id < |d.overrides|
    ensures var e, r := Cancel(d, id, user).0, d.overrides[id].request;
      && OnlyTouches(d, e, id, r) && r < |d.requests|
      && e.overrides[id] == d.overrides[id].(status := OverrideStatus.Cancelled)
      && !e.overrides[id].status.Pending? && (forall contract, day :: !InForce(e.overrides[id], contract, day))
      && e.requests[r] == (if d.overrides[id].status.Pending? then d.requests[r].(status := Denied, decidedBy := Some(user)) else d.requests[r])
    ensures var e := Cancel(d, id, user).0; forall contract, day ::
      Governing(e.overrides, contract, day) ==
        if Governing(d.overrides, contract, day) == Some(id) then None else Governing(d.overrides, contract, day)
  {
    hide PendingIsNewest, FourEyes, Supersession;
    var e := Cancel(d, id, user).0;
    forall contract, day
      ensures Governing(e.overrides, contract, day) ==
        if Governing(d.overrides, contract, day) == Some(id) then None else Governing(d.overrides, contract, day)
    {
      StopsGoverning(d, e, id, contract, day);
    }
  }

  // -------------------------------------------------------------------------
  // Request
  // -------------------------------------------------------------------------

  lemma {:induction false} SamePrefixGoverning(overrides: seq<Override>, o: Override, contract: nat, day: int)
    requires !o.Governs()
    ensures Governing(overrides + [o], contract, day) == Governing(overrides, contract, day)
  {
    assert (overrides + [o])[..|overrides|] == overrides;
  }

  // A request is taken exactly when nothing of the contract waits and the window is not empty; it adds
  // one waiting override with what was asked for, and what governs stays as it was.
  lemma PlaceOutcome(d: Desk, contract: nat, value: OverrideValue, start: int, end: int, user: nat)
    ensures Place(d, contract, value, start, end, user).1.Done? <==>
      start <= end && forall k :: 0 <= k < |d.overrides| && d.overrides[k].contract == contract ==> !d.overrides[k].status.Pending?
    ensures var (e, verdict) := Place(d, contract, value, start, end, user);
      if verdict.Done? then
        && |e.overrides| == |d.overrides| + 1 && |e.requests| == |d.requests| + 1 && d.overrides <= e.overrides && d.requests <= e.requests
        && var o, r := e.overrides[|d.overrides|], e.requests[|d.requests|];
          && o.contract == contract && o.value == value && o.status.Pending? && o.request == |d.requests| && o.supersededBy.None?
          && (forall day :: o.Covers(day) <==> start <= day <= end)
          && r.subject == |d.overrides| && r.requestedBy == user && r.status.Waiting? && r.decidedBy.None?
      else e == d
    ensures forall c, day :: Governing(Place(d, contract, value, start, end, user).0.overrides, c, day) == Governing(d.overrides, c, day)
  {
    var (e, verdict) := Place(d, contract, value, start, end, user);
    if verdict.Done? {
      forall c, day ensures Governing(e.overrides, c, day) == Governing(d.overrides, c, day) {
        SamePrefixGoverning(d.overrides, e.overrides[|d.overrides|], c, day);
      }
    }
  }

  // -------------------------------------------------------------------------
  // Decisions
  // -------------------------------------------------------------------------

  // A decision goes through exactly when its request waits and another user decides.
  lemma DecideWhen(d: Desk, request: nat, user: nat, approve: bool, today: int)
    requires Orderly(d)
    ensures Decide(d, request, user, approve, today).1.Done? <==>
      request < |d.requests| && d.requests[request].status.Waiting? && user != d.requests[request].requestedBy
    ensures !Decide(d, request, user, approve, today).1.Done? ==> Decide(d, request, user, approve, today).0 == d
  {
    hide PendingIsNewest, OneGoverns, FourEyes, Supersession;
    if request < |d.requests| && d.requests[request].status.Waiting? {
      assert d.overrides[d.requests[request].subject].request == request;
    }
  }

  // A rejection ends the override and its request, and touches nothing else; what governs stays.
  lemma RejectOutcome(d: Desk, request: nat, user: nat, today: int)
    requires Orderly(d) && Decide(d, request, user, false, today).1.Done?
    ensures request < |d.requests| && d.requests[request].subject < |d.overrides|
    ensures var e, id := Decide(d, request, user, false, today).0, d.requests[request].subject;
      && OnlyTouches(d, e, id, request)
      && e.overrides[id] == d.overrides[id].(status := OverrideStatus.Rejected)
      && e.requests[request] == d.requests[request].(status := Denied, decidedBy := Some(user))
    ensures var e := Decide(d, request, user, false, today).0;
      forall contract, day :: Governing(e.overrides, contract, day) == Governing(d.overrides, contract, day)
  {
    hide PendingIsNewest, FourEyes, Supersession;
    var e, id := Decide(d, request, user, false, today).0, d.requests[request].subject;
    assert d.overrides[id].request == request;
    forall contract, day ensures Governing(e.overrides, contract, day) == Governing(d.overrides, contract, day) {
      StopsGoverning(d, e, id, contract, day);
      GoverningFound(d.overrides, contract, day);
    }
  }

  // An approval starts the override -- at once inside its window, else later -- withdraws whatever else
  // governed the same contract in its favour, and touches nothing else.
  lemma ApproveOutcome(d: Desk, request: nat, user: nat, today: int)
    requires Orderly(d) && Decide(d, request, user, true, today).1.Done?
    ensures request < |d.requests| && d.requests[request].subject < |d.overrides|
    ensures var e, id := Decide(d, request, user, true, today).0, d.requests[request].subject;
      && |e.overrides| == |d.overrides| && |e.requests| == |d.requests|
      && e.overrides[id] == d.overrides[id].(status := if d.overrides[id].Covers(today) then OverrideStatus.Active else OverrideStatus.Approved)
      && e.requests[request] == d.requests[request].(status := Granted, decidedBy := Some(user))
      && (forall q :: 0 <= q < |d.requests| && q != request ==> e.requests[q] == d.requests[q])
      && (forall k :: 0 <= k < |d.overrides| && k != id ==>
           if d.overrides[k].contract == d.overrides[id].contract && (d.overrides[k].status.Active? || d.overrides[k].status.Approved?)
           then e.overrides[k] == d.overrides[k].(status := OverrideStatus.Cancelled, supersededBy := Some(id))
           else e.overrides[k] == d.overrides[k])
  {
    hide PendingIsNewest, OneGoverns, FourEyes, Supersession;
  }

  // -------------------------------------------------------------------------
  // Expiry
  // -------------------------------------------------------------------------

  // The job ends what is past its window, starts what was approved and has reached it, and leaves the
  // rest; requests are not touched.
  lemma ExpireOutcome(d: Desk, today: int)
    ensures var e := ExpireDue(d, today);
      && |e.overrides| == |d.overrides| && e.requests == d.requests
      && forall k :: 0 <= k < |d.overrides| ==>
        var o := d.overrides[k];
        if !o.status.Active? && !o.status.Approved? then e.overrides[k] == o
        else e.overrides[k] == o.(status :=
          if exists last :: o.end == Some(last) && last < today then OverrideStatus.Expired
          else if o.start <= today then OverrideStatus.Active else o.status)
  {
  }

  // So after it an override that governs is active exactly once its window has begun, unless it was
  // active before.
  lemma ExpirySettles(d: Desk, today: int)
    ensures var e := ExpireDue(d, today); forall k :: 0 <= k < |e.overrides| && e.overrides[k].Governs() ==>
      && (e.overrides[k].end.Some? ==> today <= e.overrides[k].end.value)
      && (e.overrides[k].status.Approved? ==> today < e.overrides[k].start)
  {
  }

  // -------------------------------------------------------------------------
  // How many the job moved
  // -------------------------------------------------------------------------

  function ExpiresOn(today: int): Override -> int {
    (o: Override) => if o.Governs() && o.end.Some? && o.end.value < today then 1 else 0
  }

  function StartsOn(today: int): Override -> int {
    (o: Override) => if o.status.Approved? && (o.end.Some? ==> today <= o.end.value) && o.start <= today then 1 else 0
  }
}
