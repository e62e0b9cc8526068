// Which installments the overdue job charges (app/services/overdue.py), down to those a write-off has
// already taken off the books.
module LateFees {
  import opened Sums
  import opened Subledger
  import opened Books
  import opened Reconciliation
  import opened BookWriteOffs
  import opened BookSteps
  import opened BookTheorems
  import opened PaymentLaws
  import opened SubledgerLaws
  import opened Maturity
  import H = BookHistory

  import W = Waterfall
  import GL = GeneralLedger

  // The charge the job would add for installment `id`.
  function NewCharge(insts: seq<Installment>, id: nat, policy: OverduePolicy): Charge
    requires id < |insts|
  {
    Charge(id, FeeFor(insts[id], policy), 0, 0, Assessed)
  }

  function Next(insts: seq<Installment>, charges: seq<Charge>, id: nat, policy: OverduePolicy): seq<Charge>
    requires id < |insts|
  {
    if Charges(insts[id], charges, id, policy) then charges + [NewCharge(insts, id, policy)] else charges
  }

  lemma AssessNext(insts: seq<Installment>, charges: seq<Charge>, id: nat, policy: OverduePolicy)
    requires id < |insts|
    ensures Assess(insts, charges, id, policy) == Assess(insts, Next(insts, charges, id, policy), id + 1, policy)
  {
    assert charges + [] == charges;
  }

  // What the job adds from `id` on belongs to installments from `id` on.
  predicate AddsFrom(charges: seq<Charge>, after: seq<Charge>, id: nat, end: nat) {
    charges <= after && forall k :: |charges| <= k < |after| ==> id <= after[k].inst < end
  }

  lemma {:induction false} AssessAdds(insts: seq<Installment>, charges: seq<Charge>, id: nat, policy: OverduePolicy)
    requires id <= |insts|
    ensures AddsFrom(charges, Assess(insts, charges, id, policy), id, |insts|)
    decreases |insts| - id
  {
    hide Charges, FeeFor;
    if id < |insts| {
      AssessNext(insts, charges, id, policy);
      AssessAdds(insts, Next(insts, charges, id, policy), id + 1, policy);
    }
  }

  lemma SamePrefix(insts: seq<Installment>, charges: seq<Charge>, id: nat, i: nat, policy: OverduePolicy)
    requires id < i <= |insts|
    ensures Next(insts[..i], charges, id, policy) == Next(insts, charges, id, policy)
  {
  }

  // The job reaches installment `i` with the charges it has by then.
  lemma {:induction false} AssessReaches(insts: seq<Installment>, charges: seq<Charge>, id: nat, i: nat, policy: OverduePolicy)
    requires id <= i <= |insts|
    ensures Assess(insts, charges, id, policy) == Assess(insts, Assess(insts[..i], charges, id, policy), i, policy)
    decreases i - id
  {
    hide Charges, FeeFor, Next;
    if id < i {
      AssessNext(insts, charges, id, policy);
      AssessNext(insts[..i], charges, id, policy);
      SamePrefix(insts, charges, id, i, policy);
      AssessReaches(insts, Next(insts, charges, id, policy), id + 1, i, policy);
    }
  }

  // The job adds a charge for an installment.
  predicate Charged(before: seq<Charge>, after: seq<Charge>, i: nat) {
    exists k :: |before| <= k < |after| && after[k].inst == i
  }

  // Past the grace days, not yet paid, without a live charge, and within the cap of what the contract's
  // fees come to once every earlier installment has been looked at.
  predicate Chargeable(insts: seq<Installment>, charges: seq<Charge>, i: nat, policy: OverduePolicy)
    requires i < |insts|
  {
    && insts[i].dueDate < policy.asOf && policy.asOf - insts[i].dueDate > policy.grace
    && !insts[i].status.Paid? && !AlreadyCharged(charges, i)
    && !(policy.cap > 0 && Sum(Assess(insts[..i], charges, 0, policy), FeeCounted) + FeeFor(insts[i], policy) > policy.cap)
  }

  lemma SameLive(charges: seq<Charge>, before: seq<Charge>, i: nat)
    requires AddsFrom(charges, before, 0, i)
    ensures AlreadyCharged(before, i) <==> AlreadyCharged(charges, i)
  {
    if AlreadyCharged(charges, i) {
      var k :| 0 <= k < |charges| && Payable(charges[k], i);
      assert before[k] == charges[k];
    }
    if AlreadyCharged(before, i) {
      var k :| 0 <= k < |before| && Payable(before[k], i);
      assert k < |charges| && charges[k] == before[k];
    }
  }

  lemma ChargedNow(charges: seq<Charge>, before: seq<Charge>, next: seq<Charge>, after: seq<Charge>, i: nat, c: Charge, end: nat)
    requires AddsFrom(charges, before, 0, i) && AddsFrom(next, after, i + 1, end) && c.inst == i
    requires next == before || next == before + [c]
    ensures Charged(charges, after, i) <==> next == before + [c]
  {
    assert forall k :: 0 <= k < |next| ==> after[k] == next[k];
    if next == before + [c] {
      assert after[|before|].inst == i;
    }
  }

  // Exactly the chargeable installments are charged, in any state and under any policy.
  lemma ChargedExactly(insts: seq<Installment>, charges: seq<Charge>, policy: OverduePolicy, i: nat)
    requires i < |insts|
    ensures Charged(charges, Assess(insts, charges, 0, policy), i) <==> Chargeable(insts, charges, i, policy)
  {
    hide Assess, AddsFrom, AlreadyCharged, FeeFor, Charged, Sums.Sum;
    var before := Assess(insts[..i], charges, 0, policy);
    var next := Next(insts, before, i, policy);
    AssessReaches(insts, charges, 0, i, policy);
    AssessAdds(insts[..i], charges, 0, policy);
    AssessNext(insts, before, i, policy);
    AssessAdds(insts, next, i + 1, policy);
    SameLive(charges, before, i);
    ChargedNow(charges, before, next, Assess(insts, charges, 0, policy), i, NewCharge(insts, i, policy), |insts|);
  }

  // -------------------------------------------------------------------------
  // An installment that has been written off in full
  // -------------------------------------------------------------------------

  // A write-off is no protection: having nothing outstanding does not enter the condition.  The first
  // installment, written off in full, is charged as soon as it is past the grace days, unless its fee
  // alone is above the cap.
  predicate PastGrace(i: Installment, policy: OverduePolicy) {
    i.dueDate < policy.asOf && policy.asOf - i.dueDate > policy.grace && !(policy.cap > 0 && FeeFor(i, policy) > policy.cap)
  }

  lemma {:induction false} SweepKeepsTerms(insts: seq<Installment>, part: Component, amount: int)
    ensures var after := Sweep(insts, part, amount); forall k :: 0 <= k < |insts| ==>
      after[k].dueDate == insts[k].dueDate && after[k].principal == insts[k].principal && after[k].profit == insts[k].profit
  {
    if insts != [] {
      SweepKeepsTerms(insts[1..], part, amount - W.Take(amount, Part(insts[0], part)));
    }
  }

  lemma FirstChargeable(insts: seq<Installment>, policy: OverduePolicy)
    requires insts != [] && insts[0].status.WrittenOff?
    ensures Chargeable(insts, [], 0, policy) <==> PastGrace(insts[0], policy)
  {
    assert insts[..0] == [];
  }

  lemma AssessCharges(w: Book, policy: OverduePolicy)
    requires w.status.Active?
    ensures AssessOverdue(w, policy).0.charges == Assess(w.installments, w.charges, 0, policy)
  {
    hide Assess, Emit;
    var charges := Assess(w.installments, w.charges, 0, policy);
    ChargesKeepRows(w.(installments := MarkOverdue(w.installments, policy), charges := charges), charges, |w.charges|);
  }

  lemma {:induction false} ChargesKeepRows(b: Book, charges: seq<Charge>, c: nat)
    ensures EmitCharges(b, charges, c).charges == b.charges
    decreases |charges| - c
  {
    if c < |charges| {
      var d := Emit(b, GL.LateFeeCharged, ChargedKey(c), charges[c].amount);
      EmitCharge(b, GL.LateFeeCharged, ChargedKey(c), charges[c].amount);
      ChargesKeepRows(d, charges, c + 1);
    }
  }

  lemma EmitCharge(b: Book, kind: GL.EventType, key: Key, amount: int)
    ensures Emit(b, kind, key, amount).charges == b.charges
  {
    hide GL.JournalFor, AmountsOf, Known;
  }

  lemma SweptTerms(insts: seq<Installment>, policy: OverduePolicy)
    requires insts != []
    ensures PastGrace(SweptFirst(insts)[0], policy) <==> PastGrace(insts[0], policy)
  {
    SweepKeepsTerms(insts, PrincipalPart, insts[0].principal);
    SweepKeepsTerms(Sweep(insts, PrincipalPart, insts[0].principal), ProfitPart, insts[0].profit);
  }

  lemma OverdueStep(w: Book, policy: OverduePolicy)
    ensures Step(w, DoAssess(policy)) == AssessOverdue(w, policy).0
  {
    hide AssessOverdue;
  }

  // Reachable from every signed contract whose first installment carries an amount: deliver, write that
  // installment off, run the overdue job.
  lemma WrittenOffIsCharged(b: Book, policy: OverduePolicy)
    requires Signed(b) && b.installments != [] && b.installments[0].principal + b.installments[0].profit > 0
    ensures var commands := [DoDeliver, DoWriteOff(false, FirstOff(b.installments[0])), DoAssess(policy)];
      Charged([], Run(b, commands).charges, 0) <==> PastGrace(b.installments[0], policy)
  {
    hide *;
    var d, x := Deliver(b).0, FirstOff(b.installments[0]);
    Delivered(b);
    FirstAsked(b, d);
    AfterFirstOff(d);
    var w := ExecuteWriteOff(d, false, x).0;
    FirstAmounts(b);
    SweepFirst(b.installments);
    AssessCharges(w, policy);
    ChargedExactly(w.installments, [], policy, 0);
    FirstChargeable(w.installments, policy);
    SweptTerms(b.installments, policy);
    RunThree(b, DoDeliver, DoWriteOff(false, x), DoAssess(policy));
    StepsAre(b, x, 0);
    StepsAre(d, x, 0);
    OverdueStep(w, policy);
  }

  // -------------------------------------------------------------------------
  // A new fee opens the contract to payments again
  // -------------------------------------------------------------------------

  lemma {:induction false} FeesElsewhere(charges: seq<Charge>, after: seq<Charge>, i: nat)
    requires charges <= after && forall k :: |charges| <= k < |after| ==> after[k].inst != i
    ensures LateFeeOf(after, i) == LateFeeOf(charges, i)
  {
    if charges != [] {
      assert after[0] == charges[0];
      FeesElsewhere(charges[1..], after[1..], i);
    } else if after != [] {
      FeesElsewhere([], after[1..], i);
    }
  }

  lemma {:induction false} FeeAdded(charges: seq<Charge>, c: Charge)
    ensures LateFeeOf(charges + [c], c.inst) == LateFeeOf(charges, c.inst) + c.Outstanding()
  {
    if charges == [] {
      assert [c][1..] == [];
    } else {
      assert (charges + [c])[1..] == charges[1..] + [c];
      FeeAdded(charges[1..], c);
    }
  }

  // What the job adds to an installment's late-fee balance.
  lemma FeeAfterJob(insts: seq<Installment>, charges: seq<Charge>, policy: OverduePolicy, i: nat)
    requires i < |insts|
    ensures LateFeeOf(Assess(insts, charges, 0, policy), i) ==
      LateFeeOf(charges, i) + if Chargeable(insts, charges, i, policy) then FeeFor(insts[i], policy) else 0
  {
    hide Assess, AlreadyCharged, FeeFor, Sums.Sum, LateFeeOf;
    var before := Assess(insts[..i], charges, 0, policy);
    var next := Next(insts, before, i, policy);
    AssessReaches(insts, charges, 0, i, policy);
    AssessAdds(insts[..i], charges, 0, policy);
    AssessNext(insts, before, i, policy);
    AssessAdds(insts, next, i + 1, policy);
    SameLive(charges, before, i);
    FeesElsewhere(charges, before, i);
    FeeAdded(before, NewCharge(insts, i, policy));
    FeesElsewhere(next, Assess(insts, charges, 0, policy), i);
  }

  // A contract that is open with nothing to pay.
  ghost predicate AtZero(s: Book) { s in SOUND && s.status.Active? && TotalOutstanding(s.installments, s.charges) == 0 }

  lemma RowsAtZero(s: Book)
    requires AtZero(s)
    ensures forall i :: 0 <= i < |s.installments| ==>
      s.installments[i].PrincipalOutstanding() == 0 && s.installments[i].ProfitOutstanding() == 0 && LateFeeOf(s.charges, i) == 0
  {
    hide RowsOk, KeysOk, LedgerOk, JournalsOk;
    RowsFine(s);
    PaidUp(s.installments, s.charges);
    forall i | 0 <= i < |s.installments| ensures LateFeeOf(s.charges, i) == 0 { NoFeeDue(s.charges, i); }
  }

  lemma RowsFine(s: Book)
    requires AtZero(s)
    ensures ValidInstallments(s.installments) && ValidCharges(s.charges)
  {
    ActiveRows(s);
  }

  lemma {:induction false} NoFeeDue(charges: seq<Charge>, i: nat)
    requires forall k :: 0 <= k < |charges| ==> charges[k].Outstanding() == 0
    ensures LateFeeOf(charges, i) == 0
  {
    if charges != [] {
      NoFeeDue(charges[1..], i);
    }
  }

  // The job leaves the rows of such a contract alone: they are all fully paid or written off.
  lemma RowsUnmarked(s: Book, policy: OverduePolicy)
    requires AtZero(s)
    ensures var a := AssessOverdue(s, policy).0;
      && a.installments == s.installments && a.charges == Assess(s.installments, s.charges, 0, policy)
      && a.status.Active? && a.payments == s.payments
  {
    hide Assess, EmitCharges, RowsOk, KeysOk, LedgerOk, JournalsOk;
    RowsAtZero(s);
    var charges := Assess(s.installments, s.charges, 0, policy);
    var marked := s.(installments := MarkOverdue(s.installments, policy), charges := charges);
    assert marked.installments == s.installments;
    ChargesKeepRows(marked, charges, |s.charges|);
    ChargesExecutions(marked, charges, |s.charges|);
    ChargesKeepStatus(marked, charges, |s.charges|);
  }

  lemma {:induction false} ChargesKeepStatus(b: Book, charges: seq<Charge>, c: nat)
    ensures EmitCharges(b, charges, c).status == b.status && EmitCharges(b, charges, c).payments == b.payments
    decreases |charges| - c
  {
    hide Emit;
    if c < |charges| {
      EmitStatus(b, GL.LateFeeCharged, ChargedKey(c), charges[c].amount);
      ChargesKeepStatus(Emit(b, GL.LateFeeCharged, ChargedKey(c), charges[c].amount), charges, c + 1);
    }
  }

  lemma EmitStatus(b: Book, kind: GL.EventType, key: Key, amount: int)
    ensures Emit(b, kind, key, amount).status == b.status && Emit(b, kind, key, amount).payments == b.payments
  {
    hide GL.JournalFor, AmountsOf, Known;
  }

  // Each installment that does not read paid gets a fee.
  predicate EachCharged(s: Book, policy: OverduePolicy) {
    forall i :: 0 <= i < |s.installments| ==>
      s.installments[i].status.Paid? || (Chargeable(s.installments, s.charges, i, policy) && FeeFor(s.installments[i], policy) > 0)
  }

  lemma DueAfterJob(s: Book, policy: OverduePolicy)
    requires AtZero(s)
    ensures var a := AssessOverdue(s, policy).0; DueOrPaid(a.installments, a.charges) <==> EachCharged(s, policy)
  {
    hide Assess, AssessOverdue, Chargeable, LateFeeOf, FeeFor, RowsOk, KeysOk, LedgerOk, JournalsOk;
    RowsUnmarked(s, policy);
    RowsAtZero(s);
    var a := AssessOverdue(s, policy).0;
    forall i | 0 <= i < |s.installments|
      ensures IsLive(Dues(a.installments, a.charges)[i]) <==> Chargeable(s.installments, s.charges, i, policy) && FeeFor(s.installments[i], policy) > 0
    {
      FeeAfterJob(s.installments, s.charges, policy, i);
    }
  }

  // So a contract left open with nothing to pay can be closed by paying after all, exactly when the job
  // puts a fee on each of its installments that does not read paid.
  lemma FeeReopens(s: Book, policy: OverduePolicy, reference: string)
    requires AtZero(s) && policy.rate >= 0.0
    requires var a := AssessOverdue(s, policy).0; PayVerdict(a, reference, TotalOutstanding(a.installments, a.charges)).Accepted?
    ensures var a := AssessOverdue(s, policy).0;
      Pay(a, reference, TotalOutstanding(a.installments, a.charges)).0.status.Closed? <==> EachCharged(s, policy)
  {
    hide *;
    SoundAtZero(s);
    AssessKeeps(s, policy);
    PayoffCloses(AssessOverdue(s, policy).0, reference);
    DueAfterJob(s, policy);
  }

  lemma SoundAtZero(s: Book)
    requires AtZero(s)
    ensures s in SOUND && s.status.Active?
  {
  }

  // -------------------------------------------------------------------------
  // Reachable: deliver, write the first installment off, pay the rest, charge the fee, pay the fee
  // -------------------------------------------------------------------------

  predicate EachAmount(insts: seq<Installment>) { forall i :: 0 <= i < |insts| ==> insts[i].principal + insts[i].profit > 0 }

  // Only the first installment does not read paid, and its fee is due.
  ghost predicate OnlyFirst(s: Book, first: Installment) {
    && AtZero(s) && s.charges == [] && s.installments != [] && !HasReference(s.payments, "fee")
    && !s.installments[0].status.Paid? && (forall i :: 1 <= i < |s.installments| ==> s.installments[i].status.Paid?)
    && H.SameDue(first, s.installments[0])
  }

  lemma OneFee(s: Book, first: Installment, policy: OverduePolicy)
    requires OnlyFirst(s, first) && PastGrace(first, policy) && FeeFor(first, policy) > 0
    ensures Assess(s.installments, [], 0, policy) == [NewCharge(s.installments, 0, policy)]
    ensures FeeFor(s.installments[0], policy) == FeeFor(first, policy) && EachCharged(s, policy)
  {
    hide FeeFor, AtZero, HasReference;
    SameFee(first, s.installments[0], policy);
    assert s.installments[..0] == [];
    var next := Next(s.installments, [], 0, policy);
    AssessNext(s.installments, [], 0, policy);
    NothingToAssess(s.installments, next, 1, policy);
  }

  lemma SameFee(i: Installment, j: Installment, policy: OverduePolicy)
    requires H.SameDue(i, j)
    ensures FeeFor(j, policy) == FeeFor(i, policy) && j.dueDate == i.dueDate
  {
  }

  lemma FeeAlone(s: Book, first: Installment, policy: OverduePolicy)
    requires OnlyFirst(s, first) && PastGrace(first, policy) && FeeFor(first, policy) > 0
    ensures var a := AssessOverdue(s, policy).0;
      TotalOutstanding(a.installments, a.charges) == FeeFor(first, policy) && PayVerdict(a, "fee", FeeFor(first, policy)).Accepted?
  {
    hide FeeFor, AssessOverdue, RowsOk, KeysOk, LedgerOk, JournalsOk, PastGrace, HasReference;
    OneFee(s, first, policy);
    RowsUnmarked(s, policy);
    RowsAtZero(s);
    var a := AssessOverdue(s, policy).0;
    SumZero(a.installments, PrincipalOutstanding);
    SumZero(a.installments, ProfitOutstanding);
    SumOne(a.charges, FeeOutstanding);
  }

  lemma FeeCloses(s: Book, first: Installment, policy: OverduePolicy)
    requires OnlyFirst(s, first) && PastGrace(first, policy) && FeeFor(first, policy) > 0 && policy.rate >= 0.0
    ensures Pay(AssessOverdue(s, policy).0, "fee", FeeFor(first, policy)).0.status.Closed?
  {
    hide *;
    OnlyFirstAtZero(s, first);
    OneFee(s, first, policy);
    FeeAlone(s, first, policy);
    FeeReopens(s, policy, "fee");
  }

  lemma OnlyFirstAtZero(s: Book, first: Installment)
    requires OnlyFirst(s, first)
    ensures AtZero(s)
  {
  }

  lemma RestRow(w: Book, p: int, i: nat)
    requires ValidInstallments(w.installments) && ValidCharges(w.charges) && Owned(w.charges, |w.installments|) && w.charges == []
    requires 0 < p == TotalOutstanding(w.installments, w.charges) && i < |w.installments|
    ensures PaidInstallments(w, p)[i].status.Paid? <==>
      w.installments[i].PrincipalOutstanding() > 0 || w.installments[i].ProfitOutstanding() > 0 || w.installments[i].status.Paid?
  {
    hide W.Walk, FeesFrom;
    PaidOffRow(w, p, i);
  }

  // A contract without fees whose first installment was written off in full.
  ghost predicate FirstGoneFrom(w: Book, first: Installment) {
    && w in SOUND && w.status.Active? && w.charges == [] && w.payments == [] && w.installments != []
    && H.SameDue(first, w.installments[0]) && w.installments[0].status.WrittenOff?
    && w.installments[0].PrincipalOutstanding() == 0 == w.installments[0].ProfitOutstanding()
    && forall i :: 1 <= i < |w.installments| ==> w.installments[i].PrincipalOutstanding() > 0 || w.installments[i].ProfitOutstanding() > 0
  }

  lemma RestPaid(w: Book, s: Book, first: Installment, p: int)
    requires FirstGoneFrom(w, first) && 0 < p == TotalOutstanding(w.installments, w.charges)
    requires s in AfterPaying(w, "rest", p) && s.status.Active? && H.Kept(w, s)
    ensures OnlyFirst(s, first)
  {
    hide Pay, PayVerdict, W.Walk, LedgerOk, KeysOk, JournalsOk, FeesFrom, LateFeeOf;
    ActiveRows(w);
    PaidKeepsDue(w, p);
    forall i | 0 <= i < |w.installments|
      ensures s.installments[i].status.Paid? <==>
        w.installments[i].PrincipalOutstanding() > 0 || w.installments[i].ProfitOutstanding() > 0 || w.installments[i].status.Paid?
    {
      RestRow(w, p, i);
    }
  }

  lemma OffFirst(b: Book, d: Book, w: Book)
    requires Signed(b) && b.installments != [] && EachAmount(b.installments) && w in SOUND && d.installments == b.installments
    requires w.status.Active? && w.charges == [] && w.payments == [] && w.installments == SweptFirst(d.installments)
    ensures FirstGoneFrom(w, b.installments[0])
  {
    hide RowsOk, LedgerOk, KeysOk, JournalsOk, Sweep, SweptFirst;
    var insts := b.installments;
    SweepFirst(insts);
    SweptDue(insts);
    forall i | 1 <= i < |insts| ensures w.installments[i] == insts[i] && Untouched(insts[i]) && insts[i].principal + insts[i].profit > 0 {
      assert w.installments[i] == w.installments[1..][i - 1] && insts[i] == insts[1..][i - 1];
    }
  }

  lemma SweptDue(insts: seq<Installment>)
    requires insts != []
    ensures H.SameDue(insts[0], SweptFirst(insts)[0])
  {
    SweepKeepsTerms(insts, PrincipalPart, insts[0].principal);
    SweepKeepsTerms(Sweep(insts, PrincipalPart, insts[0].principal), ProfitPart, insts[0].profit);
  }

  lemma PaidTheRest(b: Book, w: Book) returns (s: Book)
    requires b.installments != [] && FirstGoneFrom(w, b.installments[0]) && w in SOUND && !DueOrPaid(w.installments, w.charges)
    requires TotalOutstanding(w.installments, w.charges) == Rest(b.installments)
    requires PayVerdict(w, "rest", Rest(b.installments)).Accepted?
    ensures s == Pay(w, "rest", Rest(b.installments)).0 && OnlyFirst(s, b.installments[0])
  {
    hide *;
    s := PayMakes(w, "rest", Rest(b.installments));
    AcceptedActive(w, "rest", Rest(b.installments));
    StaysOpen(w, "rest");
    StuckActive(s);
    H.PayKept(w, "rest", Rest(b.installments));
    RestPaid(w, s, b.installments[0], Rest(b.installments));
  }

  lemma StuckActive(s: Book)
    requires Stuck(s)
    ensures s.status.Active?
  {
  }

  lemma PayStep(a: Book, amount: int)
    ensures Step(a, DoPay("fee", amount)) == Pay(a, "fee", amount).0
  {
    hide Pay;
  }

  // From any signed contract whose installments all carry an amount.
  lemma LateFeeReopens(b: Book, policy: OverduePolicy)
    requires Signed(b) && b.installments != [] && EachAmount(b.installments) && Rest(b.installments) > 0
    requires policy.rate >= 0.0 && PastGrace(b.installments[0], policy) && FeeFor(b.installments[0], policy) > 0
    ensures Stuck(Run(b, FirstOffRun(b)))
    ensures Run(b, FirstOffRun(b) + [DoAssess(policy), DoPay("fee", FeeFor(b.installments[0], policy))]).status.Closed?
  {
    hide *;
    var d, x, rest, fee := Deliver(b).0, FirstOff(b.installments[0]), Rest(b.installments), FeeFor(b.installments[0], policy);
    FirstCarries(b);
    StaysOpenAfterWriteOff(b);
    Delivered(b);
    FirstAsked(b, d);
    var w := WrittenOffFirst(b, d);
    AfterFirstOff(d);
    OffFirst(b, d, w);
    var s := PaidTheRest(b, w);
    FeeCloses(s, b.installments[0], policy);
    FirstOffSteps(b, x, rest);
    RunThree(b, DoDeliver, DoWriteOff(false, x), DoPay("rest", rest));
    StepsAre(b, x, rest);
    StepsAre(d, x, rest);
    StepsAre(w, x, rest);
    RunAppend(b, FirstOffRun(b), [DoAssess(policy), DoPay("fee", fee)]);
    RunTwo(s, DoAssess(policy), DoPay("fee", fee));
    OverdueStep(s, policy);
    PayStep(AssessOverdue(s, policy).0, fee);
  }

  lemma FirstCarries(b: Book)
    requires b.installments != [] && EachAmount(b.installments)
    ensures b.installments[0].principal + b.installments[0].profit > 0
  {
  }
}
