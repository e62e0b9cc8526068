// app/services/gl_journal.py and the seeded posting rules of app/services/coa.py:
// one accounting event becomes at most one balanced journal of positive amounts.
module GeneralLedger {
  import opened Options

  datatype EventType =
    | ContractActivated | DownPaymentReceived | PaymentReceived | ProfitRecognized
    | LateFeeCharged | LateFeeWaived | EarlySettlement | Cancellation | Return | ContractClosed
    | EclMovement | EclCreated | EclIncreased | EclReleased | EclOverrideAdjustment
    | PaymentReversed | RefundCompleted | GatewayFeeRecognized | SettlementDifference
    | WriteOffExecuted | PartialWriteOffExecuted | RecoveryReceived | RecoveryAdjustment

  datatype AmountSource =
    | EventAmount | DownPayment | GrossReceivable | CashPrice | TotalProfit
    | SettledPayoff | SettledProfit | RebatedProfit
    | ReturnedPrincipal | ReturnedLateFee | RetainedProfit | WaivedProfit
    | WrittenOffPrincipal | WrittenOffProfit | WrittenOffLateFee | ProvisionUsed | ExpenseExcess

  datatype Side = Debit | Credit {
    function Opposite(): Side { if Debit? then Credit else Debit }
  }

  datatype Classification = Postable | SummaryOnly | Reserved

  datatype MapLine = MapLine(side: Side, account: nat, source: AmountSource, reverse: bool)

  datatype Mapping = Mapping(classification: Classification, lines: seq<MapLine>)

  datatype Posting = Posting(side: Side, account: nat, amount: int) {
    function Signed(): int { if side.Debit? then amount else -amount }
  }

  datatype JournalStatus = Ready | Failed | Unmapped

  datatype Journal = Journal(kind: EventType, status: JournalStatus, postings: seq<Posting>)

  // What each amount source resolves to for one event; None is a missing source row.
  type Amounts = AmountSource -> Option<int>

  const BANK := 1000
  const CLEARING := 1010
  const RECEIVABLE := 1100
  const DEPOSITS := 2000
  const UNEARNED := 2100
  const REFUNDS := 2200
  const ALLOWANCE := 2300
  const SUSPENSE := 2400
  const SALES := 4000
  const PROFIT_INCOME := 4100
  const FEE_INCOME := 4200
  const RECOVERY_INCOME := 4300
  const IMPAIRMENT := 5100
  const WRITE_OFF_EXPENSE := 5200
  const GATEWAY_FEES := 5300

  function Dr(account: nat, source: AmountSource): MapLine { MapLine(Debit, account, source, false) }

  function Cr(account: nat, source: AmountSource): MapLine { MapLine(Credit, account, source, false) }

  function Pair(debit: nat, credit: nat): Mapping {
    Mapping(Postable, [Dr(debit, EventAmount), Cr(credit, EventAmount)])
  }

  // A pair whose sides swap when the event amount is negative.
  function SignedPair(debit: nat, credit: nat): Mapping {
    Mapping(Postable, [MapLine(Debit, debit, EventAmount, true), MapLine(Credit, credit, EventAmount, true)])
  }

  function WriteOffRule(): Mapping {
    Mapping(Postable, [Dr(ALLOWANCE, ProvisionUsed), Dr(WRITE_OFF_EXPENSE, ExpenseExcess),
                       Cr(RECEIVABLE, WrittenOffPrincipal), Cr(RECEIVABLE, WrittenOffProfit), Cr(RECEIVABLE, WrittenOffLateFee)])
  }

  // _SEED_MAPPINGS: the active version-1 rule of every event type.
  function Seed(kind: EventType): Mapping {
    match kind
    case ContractActivated =>
      Mapping(Postable, [Dr(DEPOSITS, DownPayment), Dr(RECEIVABLE, GrossReceivable),
                         Cr(SALES, CashPrice), Cr(UNEARNED, TotalProfit)])
    case DownPaymentReceived => Pair(BANK, DEPOSITS)
    case PaymentReceived => Pair(BANK, RECEIVABLE)
    case ProfitRecognized => Pair(UNEARNED, PROFIT_INCOME)
    case LateFeeCharged => Pair(RECEIVABLE, FEE_INCOME)
    case LateFeeWaived => Pair(FEE_INCOME, RECEIVABLE)
    case EarlySettlement =>
      Mapping(Postable, [Dr(BANK, SettledPayoff), Cr(RECEIVABLE, SettledPayoff),
                         Dr(UNEARNED, SettledProfit), Cr(PROFIT_INCOME, SettledProfit),
                         Dr(UNEARNED, RebatedProfit), Cr(RECEIVABLE, RebatedProfit)])
    case Cancellation => Pair(DEPOSITS, REFUNDS)
    case Return =>
      Mapping(Postable, [Dr(UNEARNED, RetainedProfit), Cr(PROFIT_INCOME, RetainedProfit),
                         Dr(UNEARNED, WaivedProfit), Cr(RECEIVABLE, WaivedProfit),
                         Dr(SUSPENSE, ReturnedPrincipal), Cr(RECEIVABLE, ReturnedPrincipal),
                         Dr(SUSPENSE, ReturnedLateFee), Cr(RECEIVABLE, ReturnedLateFee)])
    case ContractClosed => Mapping(SummaryOnly, [])
    case EclMovement => Mapping(SummaryOnly, [])
    case EclCreated => SignedPair(IMPAIRMENT, ALLOWANCE)
    case EclIncreased => SignedPair(IMPAIRMENT, ALLOWANCE)
    case EclReleased => SignedPair(IMPAIRMENT, ALLOWANCE)
    case EclOverrideAdjustment => SignedPair(IMPAIRMENT, ALLOWANCE)
    case PaymentReversed => Pair(RECEIVABLE, BANK)
    case RefundCompleted => Pair(RECEIVABLE, BANK)
    case GatewayFeeRecognized => Pair(GATEWAY_FEES, CLEARING)
    case SettlementDifference => SignedPair(CLEARING, SUSPENSE)
    case WriteOffExecuted => WriteOffRule()
    case PartialWriteOffExecuted => WriteOffRule()
    case RecoveryReceived => Pair(BANK, RECOVERY_INCOME)
    case RecoveryAdjustment => Mapping(Reserved, [])
  }

  // -------------------------------------------------------------------------
  // Journal generation
  // -------------------------------------------------------------------------

  predicate Resolvable(line: MapLine, amounts: Amounts) {
    amounts(line.source).Some? && (amounts(line.source).value >= 0 || line.reverse)
  }

  // The posting of a resolvable line: nothing for zero, the other side for a negative amount.
  function Posted(line: MapLine, amount: int): seq<Posting> {
    if amount == 0 then []
    else if amount < 0 then [Posting(line.side.Opposite(), line.account, -amount)]
    else [Posting(line.side, line.account, amount)]
  }

  function Build(lines: seq<MapLine>, amounts: Amounts): Option<seq<Posting>> {
    if lines == [] then Some([])
    else
      var init, last := lines[..|lines| - 1], lines[|lines| - 1];
      match Build(init, amounts)
      case None => None
      case Some(postings) =>
        if Resolvable(last, amounts) then Some(postings + Posted(last, amounts(last.source).value)) else None
  }

  function SideTotal(postings: seq<Posting>, side: Side): int {
    if postings == [] then 0
    else
      var last := postings[|postings| - 1];
      SideTotal(postings[..|postings| - 1], side) + if last.side == side then last.amount else 0
  }

  predicate HasSide(postings: seq<Posting>, side: Side) {
    exists i :: 0 <= i < |postings| && postings[i].side == side
  }

  // None for an event type that never posts.
  function JournalUnder(mapping: Mapping, kind: EventType, amounts: Amounts): Option<Journal> {
    if !mapping.classification.Postable? then None
    else match Build(mapping.lines, amounts)
      case None => Some(Journal(kind, Failed, []))
      case Some(postings) =>
        if HasSide(postings, Debit) && HasSide(postings, Credit) && SideTotal(postings, Debit) == SideTotal(postings, Credit)
        then Some(Journal(kind, Ready, postings))
        else Some(Journal(kind, Failed, []))
  }

  // generate_journal(): an event keeps the journal it has, and one without a mapping in force gets an
  // unmapped journal.
  function JournalOf(existing: Option<Journal>, mapping: Option<Mapping>, kind: EventType, amounts: Amounts): Option<Journal> {
    if existing.Some? then existing
    else if mapping.None? then Some(Journal(kind, Unmapped, []))
    else JournalUnder(mapping.value, kind, amounts)
  }

  function JournalFor(kind: EventType, amounts: Amounts): Option<Journal> {
    JournalUnder(Seed(kind), kind, amounts)
  }

  // _build_lines(): resolve, reverse, drop zeros, stop at the first unresolvable line.
  method BuildLines(lines: seq<MapLine>, amounts: Amounts) returns (result: Option<seq<Posting>>)
    ensures result == Build(lines, amounts)
  {
    var resolved: seq<Posting> := [];
    for i := 0 to |lines|
      invariant Build(lines[..i], amounts) == Some(resolved)
    {
      var line := lines[i];
      assert lines[..i + 1][..i] == lines[..i];
      var raw := amounts(line.source);
      if raw.None? || (raw.value < 0 && !line.reverse) {
        BuildPrefix(lines, amounts, i + 1);
        return None;
      }
      var amount, side := raw.value, line.side;
      if amount < 0 {
        amount, side := -amount, side.Opposite();
      }
      ghost var before := resolved;
      if amount != 0 {
        resolved := resolved + [Posting(side, line.account, amount)];
      }
      assert resolved == before + Posted(line, raw.value);
    }
    assert lines[..|lines|] == lines;
    return Some(resolved);
  }

  lemma {:induction false} BuildPrefix(lines: seq<MapLine>, amounts: Amounts, i: nat)
    requires i <= |lines| && Build(lines[..i], amounts).None?
    ensures Build(lines, amounts).None?
  {
    if i < |lines| {
      var init := lines[..|lines| - 1];
      assert init[..i] == lines[..i];
      BuildPrefix(init, amounts, i);
    } else {
      assert lines[..i] == lines;
    }
  }

  lemma SidesStep(postings: seq<Posting>, i: nat, side: Side)
    requires i < |postings|
    ensures SideTotal(postings[..i + 1], side) == SideTotal(postings[..i], side) + if postings[i].side == side then postings[i].amount else 0
    ensures HasSide(postings[..i + 1], side) <==> HasSide(postings[..i], side) || postings[i].side == side
  {
    assert postings[..i + 1] == postings[..i] + [postings[i]];
    assert postings[..i + 1][..i] == postings[..i];
  }

  method GenerateJournal(existing: Option<Journal>, mapping: Option<Mapping>, kind: EventType, amounts: Amounts)
    returns (journal: Option<Journal>)
    ensures journal == JournalOf(existing, mapping, kind, amounts)
  {
    if existing.Some? {
      return existing;
    }
    if mapping.None? {
      return Some(Journal(kind, Unmapped, []));
    }
    if !mapping.value.classification.Postable? {
      return None;
    }
    var built := BuildLines(mapping.value.lines, amounts);
    if built.None? {
      return Some(Journal(kind, Failed, []));
    }
    var postings := built.value;
    var debit, credit, hasDebit, hasCredit := 0, 0, false, false;
    for i := 0 to |postings|
      invariant debit == SideTotal(postings[..i], Debit) && credit == SideTotal(postings[..i], Credit)
      invariant hasDebit == HasSide(postings[..i], Debit) && hasCredit == HasSide(postings[..i], Credit)
    {
      SidesStep(postings, i, Debit);
      SidesStep(postings, i, Credit);
      if postings[i].side.Debit? {
        debit, hasDebit := debit + postings[i].amount, true;
      } else {
        credit, hasCredit := credit + postings[i].amount, true;
      }
    }
    assert postings[..|postings|] == postings;
    if hasDebit && hasCredit && debit == credit {
      return Some(Journal(kind, Ready, postings));
    }
    return Some(Journal(kind, Failed, []));
  }

  // -------------------------------------------------------------------------
  // What a journal does to an account
  // -------------------------------------------------------------------------

  // Net debit of an account over some postings; None stands for every account.
  function Net(postings: seq<Posting>, account: Option<nat>): int {
    if postings == [] then 0
    else
      var last := postings[|postings| - 1];
      Net(postings[..|postings| - 1], account) + if account.None? || account.value == last.account then last.Signed() else 0
  }

  function Balance(journals: seq<Journal>, account: nat): int {
    if journals == [] then 0
    else Balance(journals[..|journals| - 1], account) + Net(journals[|journals| - 1].postings, Some(account))
  }

  // The signed effect a mapping asks for, before zero lines are dropped and signs normalised.
  function Effect(lines: seq<MapLine>, amounts: Amounts, account: Option<nat>): int
    requires forall k :: 0 <= k < |lines| ==> Resolvable(lines[k], amounts)
  {
    if lines == [] then 0
    else Effect(lines[..|lines| - 1], amounts, account) + LineEffect(lines[|lines| - 1], amounts, account)
  }

  function LineEffect(line: MapLine, amounts: Amounts, account: Option<nat>): int
    requires Resolvable(line, amounts)
  {
    if account.Some? && account.value != line.account then 0
    else if line.side.Debit? then amounts(line.source).value else -amounts(line.source).value
  }

  lemma NetOfPosted(postings: seq<Posting>, line: MapLine, amount: int, account: Option<nat>)
    ensures Net(postings + Posted(line, amount), account) == Net(postings, account) +
      if account.Some? && account.value != line.account then 0 else if line.side.Debit? then amount else -amount
  {
    var more := Posted(line, amount);
    if more == [] {
      assert postings + more == postings;
    } else {
      assert (postings + more)[..|postings|] == postings;
    }
  }

  lemma {:induction false} BuildEffect(lines: seq<MapLine>, amounts: Amounts, account: Option<nat>)
    requires forall k :: 0 <= k < |lines| ==> Resolvable(lines[k], amounts)
    ensures Build(lines, amounts).Some?
    ensures Net(Build(lines, amounts).value, account) == Effect(lines, amounts, account)
    ensures forall i :: 0 <= i < |Build(lines, amounts).value| ==> Build(lines, amounts).value[i].amount > 0
  {
    if lines != [] {
      var init, last := lines[..|lines| - 1], lines[|lines| - 1];
      BuildEffect(init, amounts, account);
      assert Resolvable(last, amounts);
      NetOfPosted(Build(init, amounts).value, last, amounts(last.source).value, account);
    }
  }

  lemma {:induction false} NetIsDebitLessCredit(postings: seq<Posting>)
    ensures Net(postings, None) == SideTotal(postings, Debit) - SideTotal(postings, Credit)
  {
    if postings != [] {
      NetIsDebitLessCredit(postings[..|postings| - 1]);
    }
  }

  lemma {:induction false} OneSided(postings: seq<Posting>)
    requires forall i :: 0 <= i < |postings| ==> postings[i].amount > 0
    ensures SideTotal(postings, Debit) >= 0 && SideTotal(postings, Credit) >= 0
    ensures HasSide(postings, Debit) <==> SideTotal(postings, Debit) > 0
    ensures HasSide(postings, Credit) <==> SideTotal(postings, Credit) > 0
  {
    if postings != [] {
      var init := postings[..|postings| - 1];
      OneSided(init);
      assert postings == init + [postings[|postings| - 1]];
      assert forall s :: HasSide(postings, s) <==> HasSide(init, s) || postings[|postings| - 1].side == s;
    }
  }

  // Whatever rule is in force, if any, a stored journal has two sides that agree, one that could not
  // be balanced or mapped stores no line at all, and generating again returns the journal stored.
  lemma JournalsBalance(mapping: Option<Mapping>, kind: EventType, amounts: Amounts)
    ensures var j := JournalOf(None, mapping, kind, amounts);
      && (j.None? <==> mapping.Some? && !mapping.value.classification.Postable?)
      && (j.Some? ==> Net(j.value.postings, None) == 0)
      && (j.Some? ==> (j.value.status.Ready? <==> j.value.postings != []))
      && (j.Some? ==> (j.value.status.Unmapped? <==> mapping.None?))
      && (j.Some? ==> forall m, a :: JournalOf(j, m, kind, a) == j)
  {
    var j := JournalOf(None, mapping, kind, amounts);
    if j.Some? {
      NetIsDebitLessCredit(j.value.postings);
    }
  }

  // When every source resolves and the rule's own effects cancel, the journal moves every
  // account by exactly what the rule asks for -- even when all of it was zero and the
  // journal is stored as failed.
  lemma JournalEffect(mapping: Mapping, kind: EventType, amounts: Amounts, account: nat)
    requires mapping.classification.Postable?
    requires forall k :: 0 <= k < |mapping.lines| ==> Resolvable(mapping.lines[k], amounts)
    requires Effect(mapping.lines, amounts, None) == 0
    ensures JournalUnder(mapping, kind, amounts).Some?
    ensures Net(JournalUnder(mapping, kind, amounts).value.postings, Some(account)) == Effect(mapping.lines, amounts, Some(account))
  {
    BuildEffect(mapping.lines, amounts, None);
    BuildEffect(mapping.lines, amounts, Some(account));
    var postings := Build(mapping.lines, amounts).value;
    NetIsDebitLessCredit(postings);
    OneSided(postings);
    if postings != [] {
      SomethingPosted(postings);
    }
  }

  lemma SomethingPosted(postings: seq<Posting>)
    requires postings != []
    ensures HasSide(postings, Debit) || HasSide(postings, Credit)
  {
    assert HasSide(postings, postings[0].side);
  }
}
