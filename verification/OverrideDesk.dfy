// The override and request rows as the services update them in place.
module OverrideDesks {
  import opened Options
  import opened Sums
  import opened EclModel
  import opened Overrides
  import opened DeskOutcomes

  class OverrideDesk {
    var overrides: seq<Override>
    var requests: seq<Request>

    function Model(): Desk
      reads this
    {
      Desk(overrides, requests)
    }

    constructor ()
      ensures Model() == EMPTY
    {
      overrides, requests := [], [];
    }

    method Place(contract: nat, value: OverrideValue, start: int, end: int, user: nat) returns (verdict: Verdict)
      modifies this
      ensures (Model(), verdict) == Overrides.Place(old(Model()), contract, value, start, end, user)
    {
      for k := 0 to |overrides|
        invariant !HasPending(overrides[..k], contract)
      {
        if overrides[k].contract == contract && overrides[k].status.Pending? {
          return Refused(AlreadyPending);
        }
      }
      assert overrides[..|overrides|] == overrides;
      if end < start {
        return Refused(BadWindow);
      }
      overrides := overrides + [Override(contract, value, start, Some(end), OverrideStatus.Pending, |requests|, None)];
      requests := requests + [Request(|overrides| - 1, user, Waiting, None)];
      return Done;
    }

    method Decide(request: nat, user: nat, approve: bool, today: int) returns (verdict: Verdict)
      modifies this
      ensures (Model(), verdict) == Overrides.Decide(old(Model()), request, user, approve, today)
    {
      if request >= |requests| {
        return Refused(NoSuchRequest);
      }
      var r := requests[request];
      if !r.status.Waiting? {
        return Refused(AlreadyDecided);
      }
      if user == r.requestedBy {
        return Refused(OwnRequest);
      }
      if approve && r.subject >= |overrides| {
        return Refused(NoSuchOverride);
      }
      if approve && !overrides[r.subject].status.Pending? {
        return Refused(NotPending);
      }
      requests := requests[request := r.(status := if approve then Granted else Denied, decidedBy := Some(user))];
      if approve {
        var o := overrides[r.subject];
        overrides := overrides[r.subject := o.(status := if o.Covers(today) then Active else OverrideStatus.Approved)];
        Supersede(r.subject, o.contract);
      } else if r.subject < |overrides| && overrides[r.subject].status.Pending? {
        overrides := overrides[r.subject := overrides[r.subject].(status := Rejected)];
      }
      return Done;
    }

    // The loop over the siblings that still govern.
    method Supersede(successor: nat, contract: nat)
      modifies this`overrides
      ensures overrides == SupersedeAll(old(overrides), successor, contract)
    {
      for k := 0 to |overrides|
        invariant |overrides| == |old(overrides)|
        invariant forall j :: 0 <= j < k ==> overrides[j] == Superseded(old(overrides)[j], j, successor, contract)
        invariant forall j :: k <= j < |overrides| ==> overrides[j] == old(overrides)[j]
      {
        var o := overrides[k];
        if o.contract == contract && k != successor && o.Governs() {
          overrides := overrides[k := o.(status := Cancelled, supersededBy := Some(successor))];
        }
      }
    }

    method Cancel(id: nat, user: nat) returns (verdict: Verdict)
      modifies this
      ensures (Model(), verdict) == Overrides.Cancel(old(Model()), id, user)
    {
      if id >= |overrides| {
        return Refused(NoSuchOverride);
      }
      var o := overrides[id];
      if !o.status.Pending? && !o.Governs() {
        return Refused(NotCancellable);
      }
      if o.request < |requests| && requests[o.request].status.Waiting? {
        requests := requests[o.request := requests[o.request].(status := Denied, decidedBy := Some(user))];
      }
      overrides := overrides[id := o.(status := Cancelled)];
      return Done;
    }

    method ExpireDue(today: int) returns (expired: nat, activated: nat)
      modifies this`overrides
      ensures Model() == Overrides.ExpireDue(old(Model()), today)
      ensures expired == Sum(old(overrides), ExpiresOn(today)) && activated == Sum(old(overrides), StartsOn(today))
    {
      ghost var before := overrides;
      expired, activated := 0, 0;
      for k := 0 to |overrides|
        invariant |overrides| == |old(overrides)|
        invariant expired == Sum(before[..k], ExpiresOn(today)) && activated == Sum(before[..k], StartsOn(today))
        invariant forall j :: 0 <= j < k ==> overrides[j] == Aged(old(overrides)[j], today)
        invariant forall j :: k <= j < |overrides| ==> overrides[j] == old(overrides)[j]
      {
        var o := overrides[k];
        assert before[..k + 1] == before[..k] + [o];
        SumSnoc(before[..k], o, ExpiresOn(today));
        SumSnoc(before[..k], o, StartsOn(today));
        if o.Governs() {
          if o.end.Some? && o.end.value < today {
            overrides := overrides[k := o.(status := Expired)];
            expired := expired + 1;
          } else if o.status.Approved? && o.start <= today {
            overrides := overrides[k := o.(status := Active)];
            activated := activated + 1;
          }
        }
      }
      assert before[..|before|] == before;
    }
  }
}
