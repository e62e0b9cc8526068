// Payment intents driven by gateway webhooks: app/models/payment_gateway.py (the transition graph)
// and app/services/gateway_webhooks.py (what one delivery does).
module PaymentIntents {
  import opened Options

  datatype Status = Initiated | Pending | Authorized | Captured | Settled | Failed | Cancelled | Expired
                  | Reversed | PartiallyRefunded | Refunded | Chargeback

  function Targets(s: Status): set<Status> {
    match s
    case Initiated => {Pending, Cancelled, Expired}
    case Pending => {Authorized, Failed, Cancelled, Expired}
    case Authorized => {Captured, Failed, Expired}
    case Captured => {Settled, Failed}
    case Settled => {Reversed, PartiallyRefunded, Refunded, Chargeback}
    case PartiallyRefunded => {Refunded}
    case _ => {}
  }

  predicate CanTransition(current: Status, target: Status) { current != target && target in Targets(current) }

  predicate Terminal(s: Status) { s in {Failed, Cancelled, Expired, Reversed, Refunded, Chargeback} }

  // -------------------------------------------------------------------------
  // One delivery
  // -------------------------------------------------------------------------

  // What the gateway sends, whether applying its financial effect raises, and the status the
  // configuration names, as read at this delivery, for allocating the payment.
  datatype Delivery = Delivery(id: nat, claimed: Option<Status>, signed: bool, stale: bool, raises: bool, allocatesAt: Status)

  datatype Processing = RejectedSignature | RejectedStale | RejectedOutOfOrder | Unusable | Processed | DeadLettered

  datatype Record = Record(id: nat, result: Processing, retries: nat)

  // `entered` lists the statuses the intent has entered, oldest first; `calls` counts how often the
  // payment was to be recorded, under the intent's own reference, and `payments` what that recorded.
  datatype Intent = Intent(status: Status, entered: seq<Status>, calls: nat, payments: nat, records: seq<Record>)

  const FRESH: Intent := Intent(Initiated, [], 0, 0, [])

  predicate Seen(records: seq<Record>, id: nat) {
    exists k :: 0 <= k < |records| && records[k].id == id
  }

  function BumpAll(records: seq<Record>, id: nat): seq<Record> {
    if records == [] then []
    else [if records[0].id == id then records[0].(retries := records[0].retries + 1) else records[0]] + BumpAll(records[1..], id)
  }

  function Log(t: Intent, d: Delivery, result: Processing): Intent {
    t.(records := t.records + [Record(d.id, result, 0)])
  }

  // A payment under a reference that is already on the contract is replayed, not recorded again.
  function Allocate(t: Intent): Intent {
    t.(calls := t.calls + 1, payments := if t.payments == 0 then 1 else t.payments)
  }

  predicate Usable(d: Delivery) { d.signed && !d.stale && d.claimed.Some? }

  function Receive(t: Intent, d: Delivery): Intent {
    if Seen(t.records, d.id) then t.(records := BumpAll(t.records, d.id))
    else if !d.signed then Log(t, d, RejectedSignature)
    else if d.stale then Log(t, d, RejectedStale)
    else if d.claimed.None? then Log(t, d, Unusable)
    else if !CanTransition(t.status, d.claimed.value) then Log(t, d, RejectedOutOfOrder)
    else if d.raises then Log(t, d, DeadLettered)
    else
      var moved := t.(status := d.claimed.value, entered := t.entered + [d.claimed.value]);
      Log(if d.claimed.value == d.allocatesAt then Allocate(moved) else moved, d, Processed)
  }

  function Run(t: Intent, stream: seq<Delivery>): Intent
    decreases |stream|
  {
    if stream == [] then t else Run(Receive(t, stream[0]), stream[1..])
  }

  // -------------------------------------------------------------------------
  // What every stream keeps
  // -------------------------------------------------------------------------

  // Steps still possible; every transition uses at least one up.
  function Rank(s: Status): nat {
    match s
    case Initiated => 6
    case Pending => 5
    case Authorized => 4
    case Captured => 3
    case Settled => 2
    case PartiallyRefunded => 1
    case _ => 0
  }

  lemma RankFalls(s: Status, t: Status)
    ensures CanTransition(s, t) ==> Rank(t) < Rank(s)
    ensures Terminal(s) <==> forall u :: !CanTransition(s, u)
  {
    match s {
      case Initiated => assert CanTransition(s, Pending);
      case Pending => assert CanTransition(s, Authorized);
      case Authorized => assert CanTransition(s, Captured);
      case Captured => assert CanTransition(s, Settled);
      case Settled => assert CanTransition(s, Reversed);
      case PartiallyRefunded => assert CanTransition(s, Refunded);
      case _ =>
    }
  }

  // The permitted transitions again, told from where they lead.
  function Sources(s: Status): set<Status> {
    match s
    case Initiated => {}
    case Pending => {Initiated}
    case Authorized => {Pending}
    case Captured => {Authorized}
    case Settled => {Captured}
    case Failed => {Pending, Authorized, Captured}
    case Cancelled => {Initiated, Pending}
    case Expired => {Initiated, Pending, Authorized}
    case Reversed => {Settled}
    case PartiallyRefunded => {Settled}
    case Refunded => {Settled, PartiallyRefunded}
    case Chargeback => {Settled}
  }

  lemma PermittedFrom(s: Status, t: Status)
    ensures CanTransition(s, t) <==> s in Sources(t)
  {
    match s {
      case Initiated =>
      case Pending =>
      case Authorized =>
      case Captured =>
      case Settled =>
      case PartiallyRefunded =>
      case _ =>
    }
  }

  predicate IsPath(entered: seq<Status>) {
    && (entered != [] ==> CanTransition(Initiated, entered[0]))
    && (forall k :: 0 < k < |entered| ==> CanTransition(entered[k - 1], entered[k]))
  }

  function Count(entered: seq<Status>, s: Status): nat {
    if entered == [] then 0 else Count(entered[..|entered| - 1], s) + if entered[|entered| - 1] == s then 1 else 0
  }

  predicate Tracked(t: Intent) {
    && IsPath(t.entered)
    && t.status == (if t.entered == [] then Initiated else t.entered[|t.entered| - 1])
    && t.calls <= |t.entered| && t.payments <= 1 && (t.payments == 1 <==> t.calls > 0)
  }

  lemma FreshTracked()
    ensures Tracked(FRESH)
  {
  }

  lemma PathLonger(entered: seq<Status>, s: Status)
    requires IsPath(entered) && CanTransition(if entered == [] then Initiated else entered[|entered| - 1], s)
    ensures IsPath(entered + [s])
  {
  }

  lemma ReceiveKeeps(t: Intent, d: Delivery)
    requires Tracked(t)
    ensures Tracked(Receive(t, d)) && t.entered <= Receive(t, d).entered
  {
    hide IsPath, CanTransition, Seen, BumpAll;
    if Receive(t, d).entered != t.entered {
      PathLonger(t.entered, d.claimed.value);
    }
  }

  lemma {:induction false} RunTracked(t: Intent, stream: seq<Delivery>)
    requires Tracked(t)
    ensures Tracked(Run(t, stream)) && t.entered <= Run(t, stream).entered
    decreases |stream|
  {
    if stream != [] {
      ReceiveKeeps(t, stream[0]);
      RunTracked(Receive(t, stream[0]), stream[1..]);
    }
  }

  // With one allocation status throughout, recording is asked for at each entry into it.
  predicate Fixed(stream: seq<Delivery>, final: Status) { forall k :: 0 <= k < |stream| ==> stream[k].allocatesAt == final }

  lemma CallsCounted(t: Intent, d: Delivery, final: Status)
    requires t.calls == Count(t.entered, final) && d.allocatesAt == final
    ensures Receive(t, d).calls == Count(Receive(t, d).entered, final)
  {
    hide Seen, BumpAll, CanTransition;
    if Receive(t, d).entered != t.entered {
      assert Receive(t, d).entered[..|t.entered|] == t.entered;
    }
  }

  lemma {:induction false} RunCounted(t: Intent, stream: seq<Delivery>, final: Status)
    requires t.calls == Count(t.entered, final) && Fixed(stream, final)
    ensures Run(t, stream).calls == Count(Run(t, stream).entered, final)
    decreases |stream|
  {
    if stream != [] {
      CallsCounted(t, stream[0], final);
      RunCounted(Receive(t, stream[0]), stream[1..], final);
    }
  }

  lemma {:induction false} RanksFall(entered: seq<Status>, j: nat, k: nat)
    requires IsPath(entered) && j < k < |entered|
    ensures Rank(entered[k]) < Rank(entered[j])
    decreases k
  {
    RankFalls(entered[k - 1], entered[k]);
    if j < k - 1 {
      RanksFall(entered, j, k - 1);
    }
  }

  lemma {:induction false} PathShort(entered: seq<Status>)
    requires IsPath(entered)
    ensures entered != [] ==> Rank(entered[|entered| - 1]) + |entered| <= 6
  {
    if entered != [] {
      var init := entered[..|entered| - 1];
      PathShort(init);
      if init == [] {
        RankFalls(Initiated, entered[0]);
      } else {
        assert CanTransition(entered[|entered| - 2], entered[|entered| - 1]);
        RankFalls(init[|init| - 1], entered[|entered| - 1]);
      }
    }
  }

  lemma {:induction false} CountOnce(entered: seq<Status>, s: Status)
    requires forall j, k :: 0 <= j < k < |entered| ==> entered[j] != entered[k]
    ensures Count(entered, s) <= 1 && (Count(entered, s) == 1 <==> s in entered)
  {
    if entered != [] {
      CountOnce(entered[..|entered| - 1], s);
    }
  }

  // Whatever the stream, and whatever the configuration says at each delivery: each status is
  // entered at most once, at most six transitions are made, and the payment is recorded at most
  // once -- under one configuration throughout, asked for once, exactly when its status was entered.
  lemma EnteredOnce(stream: seq<Delivery>, final: Status)
    ensures var t := Run(FRESH, stream);
      && (forall j, k :: 0 <= j < k < |t.entered| ==> t.entered[j] != t.entered[k])
      && |t.entered| <= 6
      && t.payments <= 1 && (t.payments == 1 <==> t.calls > 0)
      && (Fixed(stream, final) ==> t.calls <= 1 && (t.calls == 1 <==> final in t.entered))
  {
    var t := Run(FRESH, stream);
    RunTracked(FRESH, stream);
    forall j, k | 0 <= j < k < |t.entered| ensures t.entered[j] != t.entered[k] {
      RanksFall(t.entered, j, k);
    }
    PathShort(t.entered);
    CountOnce(t.entered, final);
    if Fixed(stream, final) {
      RunCounted(FRESH, stream, final);
    }
  }

  // A terminal status is never left.
  lemma {:induction false} TerminalStays(t: Intent, stream: seq<Delivery>)
    requires Terminal(t.status)
    ensures Run(t, stream).status == t.status && Run(t, stream).entered == t.entered
    decreases |stream|
  {
    if stream != [] {
      TerminalStays(Receive(t, stream[0]), stream[1..]);
    }
  }

  predicate PostSettlement(s: Status) { s == Reversed || s == PartiallyRefunded || s == Refunded || s == Chargeback }

  lemma {:induction false} SettledBefore(entered: seq<Status>, k: nat)
    requires IsPath(entered) && k < |entered| && PostSettlement(entered[k])
    ensures exists j :: 0 <= j < k && entered[j] == Settled
    decreases k
  {
    if k > 0 {
      assert CanTransition(entered[k - 1], entered[k]);
      if entered[k - 1] != Settled {
        SettledBefore(entered, k - 1);
      }
    }
  }

  // Money is only ever given back after it was settled.
  lemma RefundAfterSettlement(stream: seq<Delivery>, k: nat)
    requires k < |Run(FRESH, stream).entered| && PostSettlement(Run(FRESH, stream).entered[k])
    ensures exists j :: 0 <= j < k && Run(FRESH, stream).entered[j] == Settled
  {
    RunTracked(FRESH, stream);
    SettledBefore(Run(FRESH, stream).entered, k);
  }

  // -------------------------------------------------------------------------
  // Duplicates
  // -------------------------------------------------------------------------

  // The stream with every delivery of an already delivered event left out.
  function Firsts(stream: seq<Delivery>, seen: set<nat>): seq<Delivery>
    decreases |stream|
  {
    if stream == [] then []
    else if stream[0].id in seen then Firsts(stream[1..], seen)
    else [stream[0]] + Firsts(stream[1..], seen + {stream[0].id})
  }

  ghost predicate Knows(t: Intent, seen: set<nat>) {
    forall id: nat :: Seen(t.records, id) <==> id in seen
  }

  lemma {:induction false} BumpKeepsIds(records: seq<Record>, id: nat)
    ensures |BumpAll(records, id)| == |records|
    ensures forall k :: 0 <= k < |records| ==>
      BumpAll(records, id)[k].id == records[k].id && BumpAll(records, id)[k].result == records[k].result
  {
    if records != [] {
      BumpKeepsIds(records[1..], id);
    }
  }

  lemma RecordsNext(t: Intent, d: Delivery)
    ensures var after := Receive(t, d).records;
      if Seen(t.records, d.id) then after == BumpAll(t.records, d.id)
      else |after| == |t.records| + 1 && after[..|t.records|] == t.records && after[|t.records|].id == d.id
  {
  }

  predicate SameIds(after: seq<Record>, before: seq<Record>) {
    |after| == |before| && forall k :: 0 <= k < |before| ==> after[k].id == before[k].id
  }

  lemma SeenSame(before: seq<Record>, after: seq<Record>, id: nat)
    requires SameIds(after, before)
    ensures Seen(after, id) <==> Seen(before, id)
  {
    if Seen(before, id) {
      var k :| 0 <= k < |before| && before[k].id == id;
      assert after[k].id == id;
    }
  }

  lemma SeenLonger(before: seq<Record>, after: seq<Record>, id: nat)
    requires |after| == |before| + 1 && after[..|before|] == before
    ensures Seen(after, id) <==> Seen(before, id) || after[|before|].id == id
  {
    if Seen(before, id) {
      var k :| 0 <= k < |before| && before[k].id == id;
      assert after[..|before|][k].id == id;
    }
    if Seen(after, id) && after[|before|].id != id {
      var k :| 0 <= k < |after| && after[k].id == id;
      assert before[k] == after[k];
    }
  }

  // What is seen after a delivery, besides the delivered event, was seen before.
  lemma SeenNext(t: Intent, d: Delivery, id: nat)
    ensures Seen(Receive(t, d).records, id) <==> Seen(t.records, id) || id == d.id
  {
    hide Receive, Seen;
    RecordsNext(t, d);
    BumpKeepsIds(t.records, d.id);
    if Seen(t.records, d.id) {
      SeenSame(t.records, Receive(t, d).records, id);
    } else {
      SeenLonger(t.records, Receive(t, d).records, id);
    }
  }

  lemma KnowsNext(t: Intent, d: Delivery, seen: set<nat>)
    requires Knows(t, seen)
    ensures Knows(Receive(t, d), seen + {d.id})
  {
    hide Receive, Seen;
    forall id: nat ensures Seen(Receive(t, d).records, id) <==> id in seen + {d.id} {
      SeenNext(t, d, id);
    }
  }

  // The same intent, bar how often each event was delivered.
  predicate SameEffect(t: Intent, u: Intent) {
    t.status == u.status && t.entered == u.entered && t.calls == u.calls && t.payments == u.payments
  }

  lemma SameNext(t: Intent, u: Intent, d: Delivery, seen: set<nat>)
    requires SameEffect(t, u) && Knows(t, seen) && Knows(u, seen)
    ensures SameEffect(Receive(t, d), Receive(u, d))
    ensures d.id in seen ==> SameEffect(Receive(t, d), u)
  {
  }

  // Redelivering events, in any order and any number of times, changes nothing: only the first
  // delivery of each event counts, accepted or not.
  lemma {:induction false} OnlyFirstsCount(t: Intent, u: Intent, stream: seq<Delivery>, seen: set<nat>)
    requires SameEffect(t, u) && Knows(t, seen) && Knows(u, seen)
    ensures SameEffect(Run(t, stream), Run(u, Firsts(stream, seen)))
    decreases |stream|
  {
    if stream != [] {
      var d := stream[0];
      SameNext(t, u, d, seen);
      KnowsNext(t, d, seen);
      if d.id in seen {
        assert seen + {d.id} == seen;
        OnlyFirstsCount(Receive(t, d), u, stream[1..], seen);
      } else {
        KnowsNext(u, d, seen);
        OnlyFirstsCount(Receive(t, d), Receive(u, d), stream[1..], seen + {d.id});
        assert Firsts(stream, seen)[1..] == Firsts(stream[1..], seen + {d.id});
      }
    }
  }

  lemma DuplicatesAreIdle(stream: seq<Delivery>)
    ensures SameEffect(Run(FRESH, stream), Run(FRESH, Firsts(stream, {})))
  {
    OnlyFirstsCount(FRESH, FRESH, stream, {});
  }

  // -------------------------------------------------------------------------
  // Which events take effect
  // -------------------------------------------------------------------------

  lemma {:induction false} RunSnoc(t: Intent, stream: seq<Delivery>, d: Delivery)
    ensures Run(t, stream + [d]) == Receive(Run(t, stream), d)
    decreases |stream|
  {
    if stream == [] {
      assert [] + [d] == [d] && [d][1..] == [];
    } else {
      assert (stream + [d])[1..] == stream[1..] + [d];
      RunSnoc(Receive(t, stream[0]), stream[1..], d);
    }
  }

  function Ids(stream: seq<Delivery>): set<nat> { set k | 0 <= k < |stream| :: stream[k].id }

  lemma {:induction false} RunKnows(stream: seq<Delivery>)
    ensures Knows(Run(FRESH, stream), Ids(stream))
    decreases |stream|
  {
    if stream != [] {
      var init, last := stream[..|stream| - 1], stream[|stream| - 1];
      RunKnows(init);
      RunSnoc(FRESH, init, last);
      KnowsNext(Run(FRESH, init), last, Ids(init));
      assert stream == init + [last];
      assert Ids(stream) == Ids(init) + {last.id} by {
        assert forall k :: 0 <= k < |init| ==> init[k] == stream[k];
      }
    }
  }

  // Delivery k is the first of its event, can be used, does not raise, and finds the intent where
  // its status is allowed next.
  predicate TakesEffect(stream: seq<Delivery>, k: nat)
    requires k < |stream|
  {
    var d := stream[k];
    && d.id !in Ids(stream[..k]) && Usable(d) && !d.raises
    && CanTransition(Run(FRESH, stream[..k]).status, d.claimed.value)
  }

  lemma ReceiveEnters(t: Intent, d: Delivery)
    ensures var after := Receive(t, d).entered;
      if !Seen(t.records, d.id) && Usable(d) && !d.raises && CanTransition(t.status, d.claimed.value)
      then after == t.entered + [d.claimed.value] else after == t.entered
  {
  }

  predicate EntersBy(stream: seq<Delivery>, s: Status, k: nat) {
    k < |stream| && stream[k].claimed == Some(s) && TakesEffect(stream, k)
  }

  lemma EntersByPrefix(init: seq<Delivery>, d: Delivery, s: Status, k: nat)
    requires k < |init|
    ensures EntersBy(init + [d], s, k) <==> EntersBy(init, s, k)
  {
    assert (init + [d])[..k] == init[..k] && (init + [d])[k] == init[k];
  }

  // The last delivery of a stream.
  lemma EntersLast(init: seq<Delivery>, d: Delivery, s: Status)
    ensures s in Run(FRESH, init + [d]).entered <==> s in Run(FRESH, init).entered || EntersBy(init + [d], s, |init|)
  {
    hide Receive, CanTransition, Seen, Run;
    RunSnoc(FRESH, init, d);
    RunKnows(init);
    ReceiveEnters(Run(FRESH, init), d);
    assert (init + [d])[..|init|] == init && (init + [d])[|init|] == d;
  }

  // A status is entered exactly when some event claiming it was in place at its first delivery.
  lemma {:induction false} EnteredExactly(stream: seq<Delivery>, s: Status)
    ensures s in Run(FRESH, stream).entered <==> exists k: nat :: EntersBy(stream, s, k)
    decreases |stream|
  {
    if stream != [] {
      hide TakesEffect;
      var init, d := stream[..|stream| - 1], stream[|stream| - 1];
      assert stream == init + [d];
      EnteredExactly(init, s);
      EntersLast(init, d, s);
      forall k: nat | k < |init| ensures EntersBy(stream, s, k) <==> EntersBy(init, s, k) {
        EntersByPrefix(init, d, s, k);
      }
      assert s in Run(FRESH, init).entered ==> exists k: nat :: EntersBy(stream, s, k);
    }
  }

  // -------------------------------------------------------------------------
  // What is kept of the deliveries
  // -------------------------------------------------------------------------

  function Deliveries(stream: seq<Delivery>, id: nat): nat {
    if stream == [] then 0 else Deliveries(stream[..|stream| - 1], id) + if stream[|stream| - 1].id == id then 1 else 0
  }

  // Why a first delivery, finding the intent in a status, is kept with a result.
  predicate Explains(result: Processing, d: Delivery, status: Status) {
    match result
    case RejectedSignature => !d.signed
    case RejectedStale => d.signed && d.stale
    case Unusable => d.signed && !d.stale && d.claimed.None?
    case RejectedOutOfOrder => d.signed && !d.stale && d.claimed.Some? && status !in Sources(d.claimed.value)
    case DeadLettered => d.signed && !d.stale && d.claimed.Some? && status in Sources(d.claimed.value) && d.raises
    case Processed => d.signed && !d.stale && d.claimed.Some? && status in Sources(d.claimed.value) && !d.raises
  }

  // Delivery i is the first of the record's event, and explains its result.
  predicate FirstExplains(stream: seq<Delivery>, r: Record, i: nat) {
    && i < |stream| && stream[i].id == r.id && r.id !in Ids(stream[..i])
    && Explains(r.result, stream[i], Run(FRESH, stream[..i]).status)
  }

  ghost predicate RecordTold(stream: seq<Delivery>, r: Record) {
    r.retries + 1 == Deliveries(stream, r.id) && exists i: nat :: FirstExplains(stream, r, i)
  }

  ghost predicate Told(stream: seq<Delivery>, records: seq<Record>) {
    && (forall j, k :: 0 <= j < k < |records| ==> records[j].id != records[k].id)
    && (forall k :: 0 <= k < |records| ==> RecordTold(stream, records[k]))
  }

  lemma {:induction false} NoDeliveries(stream: seq<Delivery>, id: nat)
    requires id !in Ids(stream)
    ensures Deliveries(stream, id) == 0
  {
    if stream != [] {
      var init := stream[..|stream| - 1];
      assert forall k :: 0 <= k < |init| ==> init[k] == stream[k];
      assert stream[|stream| - 1].id in Ids(stream);
      assert id !in Ids(init);
      NoDeliveries(init, id);
    }
  }

  lemma {:induction false} BumpCounts(records: seq<Record>, id: nat)
    ensures |BumpAll(records, id)| == |records| && forall k :: 0 <= k < |records| ==>
      BumpAll(records, id)[k] == if records[k].id == id then records[k].(retries := records[k].retries + 1) else records[k]
  {
    if records != [] {
      BumpCounts(records[1..], id);
    }
  }

  // One delivery more: the records of other events are told by the longer stream as well.
  lemma StillTold(init: seq<Delivery>, d: Delivery, r: Record)
    requires RecordTold(init, r)
    ensures RecordTold(init + [d], if d.id == r.id then r.(retries := r.retries + 1) else r)
  {
    hide Explains, Run;
    var stream := init + [d];
    var i: nat :| FirstExplains(init, r, i);
    assert stream[..|init|] == init && stream[..i] == init[..i];
    assert FirstExplains(stream, if d.id == r.id then r.(retries := r.retries + 1) else r, i);
  }

  lemma NewlyTold(init: seq<Delivery>, d: Delivery, result: Processing)
    requires d.id !in Ids(init) && Explains(result, d, Run(FRESH, init).status)
    ensures RecordTold(init + [d], Record(d.id, result, 0))
  {
    hide Explains, Run;
    var stream := init + [d];
    NoDeliveries(init, d.id);
    assert stream[..|init|] == init;
    assert FirstExplains(stream, Record(d.id, result, 0), |init|);
  }

  lemma ResultExplained(t: Intent, d: Delivery)
    requires !Seen(t.records, d.id)
    ensures exists result :: Explains(result, d, t.status) && Receive(t, d).records == t.records + [Record(d.id, result, 0)]
  {
    hide CanTransition, Sources, Seen;
    if d.claimed.Some? { PermittedFrom(t.status, d.claimed.value); }
    var after := Receive(t, d).records;
    var last := after[|t.records|];
    assert Explains(last.result, d, t.status) && after == t.records + [Record(d.id, last.result, 0)];
  }

  // Every event delivered has one record; it counts the redeliveries, and says what became of the first
  // delivery and why.
  lemma {:induction false} RecordsTell(stream: seq<Delivery>)
    ensures forall id: nat :: Seen(Run(FRESH, stream).records, id) <==> id in Ids(stream)
    ensures Told(stream, Run(FRESH, stream).records)
    decreases |stream|
  {
    RunKnows(stream);
    if stream != [] {
      hide Receive, RecordTold, Ids, Seen, Explains;
      var init, d := stream[..|stream| - 1], stream[|stream| - 1];
      var t := Run(FRESH, init);
      assert stream == init + [d];
      RecordsTell(init);
      RunSnoc(FRESH, init, d);
      if Seen(t.records, d.id) {
        RecordsNext(t, d);
        BumpCounts(t.records, d.id);
      } else {
        ResultExplained(t, d);
        var result :| Explains(result, d, t.status) && Receive(t, d).records == t.records + [Record(d.id, result, 0)];
        NewlyTold(init, d, result);
        NotAmong(t.records, d.id);
      }
      forall k | 0 <= k < |t.records| ensures RecordTold(stream, Receive(t, d).records[k]) {
        StillTold(init, d, t.records[k]);
        NotAmongAt(t.records, d.id, k);
      }
    }
  }

  lemma NotAmong(records: seq<Record>, id: nat)
    requires !Seen(records, id)
    ensures forall k :: 0 <= k < |records| ==> records[k].id != id
  {
  }

  lemma NotAmongAt(records: seq<Record>, id: nat, k: nat)
    requires k < |records|
    ensures records[k].id == id ==> Seen(records, id)
  {
  }

  // -------------------------------------------------------------------------
  // Events that arrive too early
  // -------------------------------------------------------------------------

  // So an event that overtakes the one it depends on is lost for good: unless another event claims
  // the same status, no redelivery will ever bring the intent there.
  lemma {:induction false} OvertakenEventIsLost(before: seq<Delivery>, d: Delivery, after: seq<Delivery>, s: Status)
    requires d.claimed == Some(s) && s !in Run(FRESH, before).entered && !CanTransition(Run(FRESH, before).status, s)
    requires forall k :: 0 <= k < |after| && after[k].claimed == Some(s) ==> after[k].id == d.id
    ensures s !in Run(FRESH, before + [d] + after).entered
  {
    var stream := before + [d] + after;
    EnteredExactly(stream, s);
    EnteredExactly(before, s);
    forall k: nat | k < |stream| ensures !EntersBy(stream, s, k) {
      if k < |before| {
        assert stream[..k] == before[..k] && stream[k] == before[k];
        assert EntersBy(stream, s, k) <==> EntersBy(before, s, k);
      } else if k == |before| {
        assert stream[..k] == before;
      } else {
        assert stream[k] == after[k - |before| - 1];
        assert stream[..k][|before|] == d;
      }
    }
  }

  // In particular a settlement that overtakes its capture: money the gateway settled is not counted.
  lemma {:induction false} OvertakenSettlement(before: seq<Delivery>, d: Delivery, after: seq<Delivery>)
    requires d.claimed == Some(Settled) && Run(FRESH, before).status == Authorized
    requires forall k :: 0 <= k < |after| && after[k].claimed == Some(Settled) ==> after[k].id == d.id
    requires Fixed(before + [d] + after, Settled)
    ensures var t := Run(FRESH, before + [d] + after); Settled !in t.entered && t.payments == 0
  {
    hide *;
    FreshTracked();
    RunTracked(FRESH, before);
    NotSettled(Run(FRESH, before));
    OvertakenEventIsLost(before, d, after, Settled);
    EnteredOnce(before + [d] + after, Settled);
  }

  lemma NotSettled(t: Intent)
    requires Tracked(t) && t.status == Authorized
    ensures Settled !in t.entered && !CanTransition(t.status, Settled)
  {
    NotYet(t.entered);
  }

  lemma NotYet(entered: seq<Status>)
    requires IsPath(entered) && entered != [] && entered[|entered| - 1] == Authorized
    ensures Settled !in entered
  {
    forall j | 0 <= j < |entered| ensures entered[j] != Settled {
      if j < |entered| - 1 {
        RanksFall(entered, j, |entered| - 1);
      }
    }
  }
}
