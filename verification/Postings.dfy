// What one emitted event does to the balance of every account, under the seeded rules.
module Postings {
  import opened Options
  import opened Sums
  import opened Books
  import GL = GeneralLedger

  lemma BalanceSnoc(journals: seq<GL.Journal>, j: GL.Journal, account: nat)
    ensures GL.Balance(journals + [j], account) == GL.Balance(journals, account) + GL.Net(j.postings, Some(account))
  {
    assert (journals + [j])[..|journals|] == journals;
  }

  function RuleOf(kind: GL.EventType): seq<GL.MapLine> { GL.Seed(kind).lines }

  ghost predicate Clean(b: Book, kind: GL.EventType, key: Key, amount: int) {
    && GL.Seed(kind).classification.Postable?
    && (forall k :: 0 <= k < |RuleOf(kind)| ==> GL.Resolvable(RuleOf(kind)[k], AmountsOf(b, Event(kind, key, amount))))
    && GL.Effect(RuleOf(kind), AmountsOf(b, Event(kind, key, amount)), None) == 0
  }

  // A new event whose rule resolves and cancels moves each account by the rule's effect.
  lemma EmitEffect(b: Book, kind: GL.EventType, key: Key, amount: int, account: nat)
    requires !Known(b.events, key) && Clean(b, kind, key, amount)
    ensures GL.Balance(Emit(b, kind, key, amount).journals, account) ==
      GL.Balance(b.journals, account) + GL.Effect(RuleOf(kind), AmountsOf(b, Event(kind, key, amount)), Some(account))
  {
    var amounts := AmountsOf(b, Event(kind, key, amount));
    GL.JournalEffect(GL.Seed(kind), kind, amounts, account);
    BalanceSnoc(b.journals, GL.JournalFor(kind, amounts).value, account);
  }

  // -------------------------------------------------------------------------
  // Unrolling a rule of known length
  // -------------------------------------------------------------------------

  function PartialEffect(lines: seq<GL.MapLine>, amounts: GL.Amounts, account: Option<nat>, n: nat): int
    requires n <= |lines|
    requires forall k :: 0 <= k < |lines| ==> GL.Resolvable(lines[k], amounts)
  {
    if n == 0 then 0
    else PartialEffect(lines, amounts, account, n - 1) + GL.LineEffect(lines[n - 1], amounts, account)
  }

  lemma {:induction false} EffectIsPartial(lines: seq<GL.MapLine>, amounts: GL.Amounts, account: Option<nat>, n: nat)
    requires n <= |lines|
    requires forall k :: 0 <= k < |lines| ==> GL.Resolvable(lines[k], amounts)
    ensures GL.Effect(lines[..n], amounts, account) == PartialEffect(lines, amounts, account, n)
  {
    if n > 0 {
      EffectIsPartial(lines, amounts, account, n - 1);
      assert lines[..n][..n - 1] == lines[..n - 1];
    }
  }

  lemma Unroll(lines: seq<GL.MapLine>, amounts: GL.Amounts, account: Option<nat>)
    requires forall k :: 0 <= k < |lines| ==> GL.Resolvable(lines[k], amounts)
    requires 2 <= |lines| <= 8
    ensures GL.Effect(lines, amounts, account) ==
      GL.LineEffect(lines[0], amounts, account) + GL.LineEffect(lines[1], amounts, account) +
      (if |lines| > 2 then GL.LineEffect(lines[2], amounts, account) else 0) +
      (if |lines| > 3 then GL.LineEffect(lines[3], amounts, account) else 0) +
      (if |lines| > 4 then GL.LineEffect(lines[4], amounts, account) else 0) +
      (if |lines| > 5 then GL.LineEffect(lines[5], amounts, account) else 0) +
      (if |lines| > 6 then GL.LineEffect(lines[6], amounts, account) else 0) +
      (if |lines| > 7 then GL.LineEffect(lines[7], amounts, account) else 0)
  {
    EffectIsPartial(lines, amounts, account, |lines|);
    assert lines[..|lines|] == lines;
    assert PartialEffect(lines, amounts, account, 1) == GL.LineEffect(lines[0], amounts, account);
    assert PartialEffect(lines, amounts, account, 2) == PartialEffect(lines, amounts, account, 1) + GL.LineEffect(lines[1], amounts, account);
    if |lines| > 2 { assert PartialEffect(lines, amounts, account, 3) == PartialEffect(lines, amounts, account, 2) + GL.LineEffect(lines[2], amounts, account); }
    if |lines| > 3 { assert PartialEffect(lines, amounts, account, 4) == PartialEffect(lines, amounts, account, 3) + GL.LineEffect(lines[3], amounts, account); }
    if |lines| > 4 { assert PartialEffect(lines, amounts, account, 5) == PartialEffect(lines, amounts, account, 4) + GL.LineEffect(lines[4], amounts, account); }
    if |lines| > 5 { assert PartialEffect(lines, amounts, account, 6) == PartialEffect(lines, amounts, account, 5) + GL.LineEffect(lines[5], amounts, account); }
    if |lines| > 6 { assert PartialEffect(lines, amounts, account, 7) == PartialEffect(lines, amounts, account, 6) + GL.LineEffect(lines[6], amounts, account); }
  }

  // -------------------------------------------------------------------------
  // Event by event
  // -------------------------------------------------------------------------

  function At(account: nat, which: nat, amount: int): int { if account == which then amount else 0 }

  lemma EmitPair(b: Book, kind: GL.EventType, key: Key, amount: int, debit: nat, credit: nat, account: nat)
    requires GL.Seed(kind) == GL.Pair(debit, credit) && amount >= 0 && !Known(b.events, key)
    ensures GL.Balance(Emit(b, kind, key, amount).journals, account) ==
      GL.Balance(b.journals, account) + At(account, debit, amount) - At(account, credit, amount)
  {
    hide Emit, GL.Balance, GL.Build;
    var amounts := AmountsOf(b, Event(kind, key, amount));
    var lines := RuleOf(kind);
    assert forall k :: 0 <= k < |lines| ==> GL.Resolvable(lines[k], amounts);
    Unroll(lines, amounts, None);
    Unroll(lines, amounts, Some(account));
    EmitEffect(b, kind, key, amount, account);
  }

  lemma EmitSignedPair(b: Book, kind: GL.EventType, key: Key, amount: int, debit: nat, credit: nat, account: nat)
    requires GL.Seed(kind) == GL.SignedPair(debit, credit) && !Known(b.events, key)
    ensures GL.Balance(Emit(b, kind, key, amount).journals, account) ==
      GL.Balance(b.journals, account) + At(account, debit, amount) - At(account, credit, amount)
  {
    hide Emit, GL.Balance, GL.Build;
    var amounts := AmountsOf(b, Event(kind, key, amount));
    var lines := RuleOf(kind);
    assert forall k :: 0 <= k < |lines| ==> GL.Resolvable(lines[k], amounts);
    Unroll(lines, amounts, None);
    Unroll(lines, amounts, Some(account));
    EmitEffect(b, kind, key, amount, account);
  }

  lemma EmitActivated(b: Book, amount: int, account: nat)
    requires !Known(b.events, ActivatedKey)
    requires 0 <= b.terms.downPayment <= b.terms.salePrice - b.terms.totalProfit && b.terms.totalProfit >= 0
    ensures GL.Balance(Emit(b, GL.ContractActivated, ActivatedKey, amount).journals, account) ==
      GL.Balance(b.journals, account) + At(account, GL.DEPOSITS, b.terms.downPayment)
      + At(account, GL.RECEIVABLE, b.terms.salePrice - b.terms.downPayment)
      - At(account, GL.SALES, b.terms.salePrice - b.terms.totalProfit) - At(account, GL.UNEARNED, b.terms.totalProfit)
  {
    hide Emit, GL.Balance, GL.Build;
    var amounts := AmountsOf(b, Event(GL.ContractActivated, ActivatedKey, amount));
    var lines := RuleOf(GL.ContractActivated);
    assert forall k :: 0 <= k < |lines| ==> GL.Resolvable(lines[k], amounts);
    Unroll(lines, amounts, None);
    Unroll(lines, amounts, Some(account));
    EmitEffect(b, GL.ContractActivated, ActivatedKey, amount, account);
  }

  lemma EmitSettlement(b: Book, principal: nat, lateFees: nat, charged: nat, rebated: nat, amount: int, account: nat)
    requires !Known(b.events, ClosureKey)
    requires ClosureSum(b.ledger, PrincipalPaid) == principal && ClosureSum(b.ledger, LateFeePaid) == lateFees
    requires ClosureSum(b.ledger, ProfitRecognized) == charged && ClosureSum(b.ledger, ProfitRebated) == rebated
    ensures var payoff := principal + lateFees + charged;
      GL.Balance(Emit(b, GL.EarlySettlement, ClosureKey, amount).journals, account) ==
      GL.Balance(b.journals, account) + At(account, GL.BANK, payoff) - At(account, GL.RECEIVABLE, payoff + rebated)
      + At(account, GL.UNEARNED, charged + rebated) - At(account, GL.PROFIT_INCOME, charged)
  {
    hide Emit, GL.Balance, GL.Build;
    var amounts := AmountsOf(b, Event(GL.EarlySettlement, ClosureKey, amount));
    var lines := RuleOf(GL.EarlySettlement);
    assert forall k :: 0 <= k < |lines| ==> GL.Resolvable(lines[k], amounts);
    Unroll(lines, amounts, None);
    Unroll(lines, amounts, Some(account));
    EmitEffect(b, GL.EarlySettlement, ClosureKey, amount, account);
  }

  // The return rule, given what its four sources resolve to.
  lemma ReturnRule(amounts: GL.Amounts, principal: nat, lateFees: nat, retained: nat, waived: nat, account: Option<nat>)
    requires amounts(GL.ReturnedPrincipal) == Some(principal) && amounts(GL.ReturnedLateFee) == Some(lateFees)
    requires amounts(GL.RetainedProfit) == Some(retained) && amounts(GL.WaivedProfit) == Some(waived)
    ensures var lines := RuleOf(GL.Return); forall k :: 0 <= k < |lines| ==> GL.Resolvable(lines[k], amounts)
    ensures GL.Effect(RuleOf(GL.Return), amounts, account) == if account.None? then 0 else
      At(account.value, GL.UNEARNED, retained + waived) - At(account.value, GL.PROFIT_INCOME, retained)
      - At(account.value, GL.RECEIVABLE, waived + principal + lateFees) + At(account.value, GL.SUSPENSE, principal + lateFees)
  {
    var lines := RuleOf(GL.Return);
    assert forall k :: 0 <= k < |lines| ==> GL.Resolvable(lines[k], amounts);
    Unroll(lines, amounts, account);
  }

  lemma EmitReturn(b: Book, principal: nat, lateFees: nat, retained: nat, waived: nat, amount: int, account: nat)
    requires !Known(b.events, ClosureKey)
    requires ClosureSum(b.ledger, ReturnPrincipal) == principal && ClosureSum(b.ledger, ReturnLateFee) == lateFees
    requires ClosureSum(b.ledger, ReturnRetained) == retained && ClosureSum(b.ledger, ReturnWaived) == waived
    ensures GL.Balance(Emit(b, GL.Return, ClosureKey, amount).journals, account) ==
      GL.Balance(b.journals, account) + At(account, GL.UNEARNED, retained + waived) - At(account, GL.PROFIT_INCOME, retained)
      - At(account, GL.RECEIVABLE, waived + principal + lateFees) + At(account, GL.SUSPENSE, principal + lateFees)
  {
    hide Emit, GL.Balance, GL.Effect, GL.Resolvable, At;
    var amounts := AmountsOf(b, Event(GL.Return, ClosureKey, amount));
    ReturnRule(amounts, principal, lateFees, retained, waived, None);
    ReturnRule(amounts, principal, lateFees, retained, waived, Some(account));
    EmitEffect(b, GL.Return, ClosureKey, amount, account);
  }

  // What the write-off resolvers read of an execution.
  ghost predicate Reads(amounts: GL.Amounts, principal: int, profit: int, lateFee: int, provision: int) {
    var total := principal + profit + lateFee;
    && amounts(GL.WrittenOffPrincipal) == Some(principal) && amounts(GL.WrittenOffProfit) == Some(profit)
    && amounts(GL.WrittenOffLateFee) == Some(lateFee)
    && amounts(GL.ProvisionUsed) == Some(Min(provision, total)) && amounts(GL.ExpenseExcess) == Some(Max(0, total - provision))
  }

  // The write-off rule on one execution: the total leaves the receivable, provision first.
  lemma WriteOffRuleEffect(amounts: GL.Amounts, principal: nat, profit: nat, lateFee: nat, provision: nat, account: Option<nat>)
    requires Reads(amounts, principal, profit, lateFee, provision)
    ensures forall k :: 0 <= k < |GL.WriteOffRule().lines| ==> GL.Resolvable(GL.WriteOffRule().lines[k], amounts)
    ensures var total := principal + profit + lateFee;
      GL.Effect(GL.WriteOffRule().lines, amounts, account) == if account.None? then 0 else
        At(account.value, GL.ALLOWANCE, Min(provision, total))
        + At(account.value, GL.WRITE_OFF_EXPENSE, Max(0, total - provision)) - At(account.value, GL.RECEIVABLE, total)
  {
    var lines := GL.WriteOffRule().lines;
    assert forall k :: 0 <= k < |lines| ==> GL.Resolvable(lines[k], amounts);
    Unroll(lines, amounts, account);
  }

  // A negative provision makes the rule unresolvable.
  lemma Unresolvable(amounts: GL.Amounts, used: int)
    requires amounts(GL.ProvisionUsed) == Some(used) && used < 0
    ensures GL.Build(GL.WriteOffRule().lines, amounts).None?
    ensures GL.Net([], Some(GL.ALLOWANCE)) == 0
  {
    var lines := GL.WriteOffRule().lines;
    assert lines[..1] == [lines[0]] && lines[..1][..0] == [];
    assert !GL.Resolvable(lines[0], amounts);
    GL.BuildPrefix(lines, amounts, 1);
  }

  lemma ReadsExecution(b: Book, e: Event)
    requires e.key.WriteOffKey? && e.key.execution < |b.executions|
    ensures var x := b.executions[e.key.execution]; Reads(AmountsOf(b, e), x.principal, x.profit, x.lateFee, x.provision)
  {
  }

  lemma EmitWriteOff(b: Book, kind: GL.EventType, n: nat, amount: int, account: nat)
    requires kind == GL.WriteOffExecuted || kind == GL.PartialWriteOffExecuted
    requires !Known(b.events, WriteOffKey(n)) && n < |b.executions|
    requires var x := b.executions[n]; x.principal >= 0 && x.profit >= 0 && x.lateFee >= 0 && x.provision >= 0
    ensures var x := b.executions[n];
      GL.Balance(Emit(b, kind, WriteOffKey(n), amount).journals, account) ==
      GL.Balance(b.journals, account) + At(account, GL.ALLOWANCE, Min(x.provision, x.Total()))
      + At(account, GL.WRITE_OFF_EXPENSE, Max(0, x.Total() - x.provision)) - At(account, GL.RECEIVABLE, x.Total())
  {
    hide Emit, GL.Balance, GL.Effect, GL.Resolvable, At, Resolve;
    var x, amounts := b.executions[n], AmountsOf(b, Event(kind, WriteOffKey(n), amount));
    ReadsExecution(b, Event(kind, WriteOffKey(n), amount));
    WriteOffRuleEffect(amounts, x.principal, x.profit, x.lateFee, x.provision, None);
    WriteOffRuleEffect(amounts, x.principal, x.profit, x.lateFee, x.provision, Some(account));
    EmitEffect(b, kind, WriteOffKey(n), amount, account);
  }

  // -------------------------------------------------------------------------
  // Ledger sums
  // -------------------------------------------------------------------------

  lemma LedgerSnoc(ledger: seq<Entry>, e: Entry, kind: EntryKind)
    ensures LedgerSum(ledger + [e], kind) == LedgerSum(ledger, kind) + if e.kind == kind then e.amount else 0
    ensures ClosureSum(ledger + [e], kind) == ClosureSum(ledger, kind) + if e.kind == kind && e.source.FromClosure? then e.amount else 0
  {
    assert (ledger + [e])[..|ledger|] == ledger;
  }

  lemma RecordSum(ledger: seq<Entry>, kind: EntryKind, amount: int, source: Source, k: EntryKind)
    ensures LedgerSum(Record(ledger, kind, amount, source), k) == LedgerSum(ledger, k) + if k == kind then Max(amount, 0) else 0
    ensures ClosureSum(Record(ledger, kind, amount, source), k) ==
      ClosureSum(ledger, k) + if k == kind && source.FromClosure? then Max(amount, 0) else 0
  {
    LedgerSnoc(ledger, Entry(kind, amount, source), k);
  }
}
