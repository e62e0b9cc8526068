// Handing balanced journals to the external ledger: app/services/accounting.py, post_pending() and
// retry_failed_posting().  A journal's id is its position in creation order.
module ErpPosting {
  import opened Sums

  datatype JournalStatus = Unmapped | Ready | Failed | Posted

  datatype EventStatus = EventPending | EventPosted | EventFailed

  // A journal with the accounting event it belongs to.
  datatype Journal = Journal(status: JournalStatus, balanced: bool, retries: nat, event: EventStatus, eventRetries: nat)

  // `accepted` lists the journals the provider took, oldest first.
  datatype Queue = Queue(journals: seq<Journal>, accepted: seq<nat>)

  // How journal generation leaves a new journal.
  datatype Generated = NoMapping | Unbalanced | Balanced

  function Fresh(g: Generated): Journal {
    match g
    case NoMapping => Journal(Unmapped, false, 0, EventPending, 0)
    case Unbalanced => Journal(Failed, false, 0, EventPending, 0)
    case Balanced => Journal(Ready, true, 0, EventPending, 0)
  }

  function PostOne(q: Queue, j: nat, ok: bool): Queue
    requires j < |q.journals|
  {
    var before := q.journals[j];
    if ok then Queue(q.journals[j := before.(status := Posted, event := EventPosted)], q.accepted + [j])
    else q.(journals := q.journals[j := before.(status := Failed, retries := before.retries + 1,
                                              event := EventFailed, eventRetries := before.eventRetries + 1)])
  }

  // The ready journals among the first `n`, in order of their id.
  function PostUpTo(q: Queue, answers: nat -> bool, n: nat): (r: Queue)
    requires n <= |q.journals|
    ensures |r.journals| == |q.journals|
    ensures forall j :: n <= j < |q.journals| ==> r.journals[j] == q.journals[j]
  {
    if n == 0 then q
    else
      var before := PostUpTo(q, answers, n - 1);
      if before.journals[n - 1].status.Ready? then PostOne(before, n - 1, answers(n - 1)) else before
  }

  function PostPending(q: Queue, answers: nat -> bool): Queue { PostUpTo(q, answers, |q.journals|) }

  predicate Retryable(q: Queue, j: nat) { j < |q.journals| && q.journals[j].status.Failed? && q.journals[j].balanced }

  function Retry(q: Queue, j: nat, ok: bool): Queue { if Retryable(q, j) then PostOne(q, j, ok) else q }

  datatype Command = DoGenerate(g: Generated) | DoPost(answers: nat -> bool) | DoRetry(journal: nat, ok: bool)

  function Step(q: Queue, c: Command): Queue {
    match c
    case DoGenerate(g) => q.(journals := q.journals + [Fresh(g)])
    case DoPost(answers) => PostPending(q, answers)
    case DoRetry(j, ok) => Retry(q, j, ok)
  }

  function Run(q: Queue, commands: seq<Command>): Queue
    decreases |commands|
  {
    if commands == [] then q else Run(Step(q, commands[0]), commands[1..])
  }

  const EMPTY: Queue := Queue([], [])

  predicate Sane(j: Journal) {
    && (j.status.Ready? || j.status.Posted? ==> j.balanced)
    && (j.status.Posted? <==> j.event.EventPosted?)
    && (j.event.EventFailed? ==> j.status.Failed?) && (j.status.Failed? && j.balanced ==> j.event.EventFailed?)
    && j.retries == j.eventRetries
  }

  // The provider took each posted journal once, and took nothing else.
  predicate InOrder(q: Queue) {
    && (forall k :: 0 <= k < |q.journals| ==> Sane(q.journals[k]))
    && (forall k :: 0 <= k < |q.accepted| ==> q.accepted[k] < |q.journals| && q.journals[q.accepted[k]].status.Posted?)
    && (forall j :: 0 <= j < |q.journals| && q.journals[j].status.Posted? ==> j in q.accepted)
    && (forall a, b :: 0 <= a < b < |q.accepted| ==> q.accepted[a] != q.accepted[b])
  }

  lemma PostOneKeeps(q: Queue, j: nat, ok: bool)
    requires InOrder(q) && j < |q.journals| && q.journals[j].balanced && !q.journals[j].status.Posted?
    ensures InOrder(PostOne(q, j, ok))
  {
    var r := PostOne(q, j, ok);
    assert forall k :: 0 <= k < |q.accepted| ==> q.accepted[k] != j;
    forall k | 0 <= k < |r.journals| && r.journals[k].status.Posted? ensures k in r.accepted {
      if k == j { assert r.accepted[|q.accepted|] == j; }
    }
  }

  lemma {:induction false} PostUpToKeeps(q: Queue, answers: nat -> bool, n: nat)
    requires InOrder(q) && n <= |q.journals|
    ensures InOrder(PostUpTo(q, answers, n))
  {
    if n > 0 {
      PostUpToKeeps(q, answers, n - 1);
      var before := PostUpTo(q, answers, n - 1);
      if before.journals[n - 1].status.Ready? {
        PostOneKeeps(before, n - 1, answers(n - 1));
      }
    }
  }

  // Over any run, whatever the provider answers: no journal is accepted twice, none that does not
  // balance is ever accepted, and an event reads posted exactly when its journal does.
  lemma {:induction false} RunKeeps(q: Queue, commands: seq<Command>)
    requires InOrder(q)
    ensures InOrder(Run(q, commands))
    decreases |commands|
  {
    if commands != [] {
      match commands[0] {
        case DoGenerate(g) =>
          var r := Step(q, commands[0]);
          assert forall k :: 0 <= k < |q.journals| ==> r.journals[k] == q.journals[k];
        case DoPost(answers) => PostUpToKeeps(q, answers, |q.journals|);
        case DoRetry(j, ok) => if Retryable(q, j) { PostOneKeeps(q, j, ok); }
      }
      RunKeeps(Step(q, commands[0]), commands[1..]);
    }
  }

  // Posting again without new journals hands nothing over: every ready journal was dealt with.
  lemma {:induction false} NothingReady(q: Queue, answers: nat -> bool, n: nat)
    requires n <= |q.journals|
    ensures forall j :: 0 <= j < n ==> !PostUpTo(q, answers, n).journals[j].status.Ready?
  {
    if n > 0 {
      NothingReady(q, answers, n - 1);
    }
  }

  lemma {:induction false} IdleWhenNoneReady(q: Queue, answers: nat -> bool, n: nat)
    requires n <= |q.journals| && forall j :: 0 <= j < n ==> !q.journals[j].status.Ready?
    ensures PostUpTo(q, answers, n) == q
  {
    if n > 0 {
      IdleWhenNoneReady(q, answers, n - 1);
    }
  }

  lemma PostingTwiceIsPostingOnce(q: Queue, answers: nat -> bool, others: nat -> bool)
    ensures PostPending(PostPending(q, answers), others) == PostPending(q, answers)
  {
    NothingReady(q, answers, |q.journals|);
    IdleWhenNoneReady(PostPending(q, answers), others, |q.journals|);
  }

  // -------------------------------------------------------------------------
  // What each operation changes
  // -------------------------------------------------------------------------

  // A journal the provider took, with its event; or refused, counted on both.
  predicate Answered(before: Journal, after: Journal, ok: bool) {
    && after == before.(status := after.status, retries := after.retries, event := after.event, eventRetries := after.eventRetries)
    && (if ok then after.status.Posted? && after.event.EventPosted? && after.retries == before.retries && after.eventRetries == before.eventRetries
        else after.status.Failed? && after.event.EventFailed? && after.retries == before.retries + 1 && after.eventRetries == before.eventRetries + 1)
  }

  predicate Takes(journals: seq<Journal>, answers: nat -> bool, j: nat) { j < |journals| && journals[j].status.Ready? && answers(j) }

  // The ready journals among the first n that the provider takes, in the order of their ids.
  predicate ReadyTaken(journals: seq<Journal>, taken: seq<nat>, answers: nat -> bool, n: nat) {
    && (forall k :: 0 <= k < |taken| ==> taken[k] < n && Takes(journals, answers, taken[k]))
    && (forall j, k :: 0 <= j < k < |taken| ==> taken[j] < taken[k])
    && (forall j: nat :: j < n && Takes(journals, answers, j) ==> j in taken)
  }

  predicate Dealt(before: Journal, after: Journal, ok: bool) {
    if before.status.Ready? then Answered(before, after, ok) else after == before
  }

  lemma OneMoreTaken(journals: seq<Journal>, taken: seq<nat>, answers: nat -> bool, n: nat)
    requires 0 < n && ReadyTaken(journals, taken, answers, n - 1)
    ensures ReadyTaken(journals, if Takes(journals, answers, n - 1) then taken + [n - 1] else taken, answers, n)
  {
    hide Takes;
  }

  // One journal further.
  lemma DealtNow(q: Queue, answers: nat -> bool, n: nat)
    requires 0 < n <= |q.journals|
    ensures var before, after := PostUpTo(q, answers, n - 1), PostUpTo(q, answers, n);
      && Dealt(q.journals[n - 1], after.journals[n - 1], answers(n - 1))
      && (forall k :: 0 <= k < |q.journals| && k != n - 1 ==> after.journals[k] == before.journals[k])
      && after.accepted == if Takes(q.journals, answers, n - 1) then before.accepted + [n - 1] else before.accepted
  {
  }

  lemma {:induction false} EachDealt(q: Queue, answers: nat -> bool, n: nat, j: nat)
    requires j < n <= |q.journals|
    ensures Dealt(q.journals[j], PostUpTo(q, answers, n).journals[j], answers(j))
  {
    hide *;
    DealtNow(q, answers, n);
    if j < n - 1 {
      EachDealt(q, answers, n - 1, j);
    }
  }

  lemma {:induction false} TakenUpTo(q: Queue, answers: nat -> bool, n: nat) returns (taken: seq<nat>)
    requires n <= |q.journals|
    ensures ReadyTaken(q.journals, taken, answers, n) && PostUpTo(q, answers, n).accepted == q.accepted + taken
    decreases n
  {
    hide *;
    if n == 0 {
      taken := [];
      NoneTaken(q, answers);
    } else {
      var before := TakenUpTo(q, answers, n - 1);
      OneMoreTaken(q.journals, before, answers, n);
      DealtNow(q, answers, n);
      if Takes(q.journals, answers, n - 1) {
        taken := before + [n - 1];
        Regrouped(q.accepted, before, n - 1);
      } else {
        taken := before;
      }
    }
  }

  lemma NoneTaken(q: Queue, answers: nat -> bool)
    ensures ReadyTaken(q.journals, [], answers, 0) && PostUpTo(q, answers, 0).accepted == q.accepted + []
  {
  }

  lemma Regrouped(a: seq<nat>, b: seq<nat>, x: nat)
    ensures a + (b + [x]) == (a + b) + [x]
  {
  }

  // The posting job hands over every ready journal and leaves the others as they are.
  lemma PostOutcome(q: Queue, answers: nat -> bool) returns (taken: seq<nat>)
    ensures var r := PostPending(q, answers);
      && |r.journals| == |q.journals| && r.accepted == q.accepted + taken && ReadyTaken(q.journals, taken, answers, |q.journals|)
      && forall j :: 0 <= j < |q.journals| ==> Dealt(q.journals[j], r.journals[j], answers(j))
  {
    hide ReadyTaken, Dealt, PostUpTo;
    taken := TakenUpTo(q, answers, |q.journals|);
    forall j | 0 <= j < |q.journals| ensures Dealt(q.journals[j], PostUpTo(q, answers, |q.journals|).journals[j], answers(j)) {
      EachDealt(q, answers, |q.journals|, j);
    }
  }

  // A retry goes through exactly for a failed journal that balances, and concerns that journal alone.
  lemma RetryOutcome(q: Queue, j: nat, ok: bool)
    ensures var r := Retry(q, j, ok);
      if j < |q.journals| && q.journals[j].status.Failed? && q.journals[j].balanced then
        && |r.journals| == |q.journals| && Answered(q.journals[j], r.journals[j], ok)
        && (forall k :: 0 <= k < |q.journals| && k != j ==> r.journals[k] == q.journals[k])
        && r.accepted == if ok then q.accepted + [j] else q.accepted
      else r == q
  {
  }

  function IsReady(j: Journal): int { if j.status.Ready? then 1 else 0 }

  // -------------------------------------------------------------------------
  // The rows as the service updates them
  // -------------------------------------------------------------------------

  class JournalQueue {
    var journals: seq<Journal>
    var accepted: seq<nat>

    function Model(): Queue
      reads this
    {
      Queue(journals, accepted)
    }

    constructor ()
      ensures Model() == EMPTY
    {
      journals, accepted := [], [];
    }

    // _post_one_journal()
    method Hand(j: nat, ok: bool)
      requires j < |journals|
      modifies this
      ensures Model() == PostOne(old(Model()), j, ok)
    {
      var journal := journals[j];
      if ok {
        journals := journals[j := journal.(status := Posted, event := EventPosted)];
        accepted := accepted + [j];
      } else {
        journals := journals[j := journal.(status := Failed, retries := journal.retries + 1,
                                           event := EventFailed, eventRetries := journal.eventRetries + 1)];
      }
    }

    method PostAll(answers: nat -> bool) returns (posted: nat, failed: nat)
      modifies this
      ensures Model() == PostPending(old(Model()), answers)
      ensures |accepted| == |old(accepted)| + posted && posted + failed == Sum(old(journals), IsReady)
    {
      posted, failed := 0, 0;
      for j := 0 to |journals|
        invariant |journals| == |old(journals)|
        invariant Model() == PostUpTo(old(Model()), answers, j)
        invariant |accepted| == |old(accepted)| + posted && posted + failed == Sum(old(journals)[..j], IsReady)
      {
        assert old(journals)[..j + 1] == old(journals)[..j] + [journals[j]];
        SumSnoc(old(journals)[..j], journals[j], IsReady);
        if journals[j].status.Ready? {
          Hand(j, answers(j));
          if answers(j) { posted := posted + 1; } else { failed := failed + 1; }
        }
      }
      assert old(journals)[..|journals|] == old(journals);
    }

    method RetryOne(j: nat, ok: bool) returns (done: bool)
      modifies this
      ensures Model() == Retry(old(Model()), j, ok) && done == Retryable(old(Model()), j)
    {
      done := j < |journals| && journals[j].status.Failed? && journals[j].balanced;
      if done {
        Hand(j, ok);
      }
    }
  }
}
