// Over every run of the operations on a contract, what its rows, its ledger and its journals
// have to do with one another -- write-offs included, where the code does not keep them equal.
module Reconciliation {
  import opened Options
  import opened Sums
  import opened Subledger
  import opened SubledgerLaws
  import opened Books
  import opened Postings
  import M = Money
  import W = Waterfall
  import GL = GeneralLedger

  // What a waiver posted for a charge: the unpaid part, written off or not.
  function FeeWaivedOf(c: Charge): int { if c.status.Waived? then c.amount - c.paid else 0 }

  // The written-off part of a charge whose waiver credited the receivable for it a second time.
  function DoubledOf(c: Charge): int { if c.status.Waived? && c.paid < c.amount then c.writtenOff else 0 }

  datatype Columns = Columns(principal: int, profit: int, principalPaid: int, profitPaid: int, principalOff: int, profitOff: int,
                             fees: int, feesPaid: int, feesOff: int, feesWaived: int, doubled: int)

  function Cols(insts: seq<Installment>, charges: seq<Charge>): Columns {
    Columns(Sum(insts, PrincipalOf), Sum(insts, ProfitOf), Sum(insts, PrincipalPaidOf), Sum(insts, ProfitPaidOf),
            Sum(insts, PrincipalOffOf), Sum(insts, ProfitOffOf),
            Sum(charges, FeeAmount), Sum(charges, FeePaidAmount), Sum(charges, FeeOffAmount),
            Sum(charges, FeeWaivedOf), Sum(charges, DoubledOf))
  }

  function ColsOf(b: Book): Columns { Cols(b.installments, b.charges) }

  function PaymentAmount(p: Payment): int { p.amount }

  function Cash(b: Book): int { Sum(b.payments, PaymentAmount) }

  // -------------------------------------------------------------------------
  // The invariant
  // -------------------------------------------------------------------------

  predicate Booked(b: Book) { !b.status.Created? && b.closure != Some(Closure.Cancellation) }

  predicate ClosedOutByClosure(b: Book) {
    b.closure == Some(Closure.EarlySettlement) || b.closure == Some(Closure.Return)
  }

  predicate ValidTerms(b: Book) {
    && 0 <= b.terms.downPayment <= b.terms.salePrice - b.terms.totalProfit
    && b.terms.totalProfit >= 0
    && ColsOf(b).principal == b.terms.salePrice - b.terms.totalProfit - b.terms.downPayment
    && ColsOf(b).profit == b.terms.totalProfit
  }

  predicate Untouched(i: Installment) {
    i.principalPaid == 0 && i.profitPaid == 0 && i.principalWrittenOff == 0 && i.profitWrittenOff == 0
  }

  predicate FullRow(i: Installment) { i.principalPaid == i.principal && i.profitPaid == i.profit }

  predicate SettledCharge(c: Charge) { ValidCharge(c) || c.paid == c.amount }

  predicate RowsOk(b: Book) {
    && ValidTerms(b)
    && (b.status.Closed? <==> b.closure.Some?)
    && Owned(b.charges, |b.installments|)
    && (!ClosedOutByClosure(b) ==> ValidInstallments(b.installments) && ValidCharges(b.charges))
    && (ClosedOutByClosure(b) ==>
         && (forall i :: 0 <= i < |b.installments| ==> FullRow(b.installments[i]))
         && (forall k :: 0 <= k < |b.charges| ==> SettledCharge(b.charges[k]))
         && (forall k :: 0 <= k < |b.charges| && !b.charges[k].status.Waived? ==> b.charges[k].paid == b.charges[k].amount))
    && (!Booked(b) ==>
         && b.charges == [] && b.payments == [] && b.executions == []
         && (forall i :: 0 <= i < |b.installments| ==> Untouched(b.installments[i])))
    && b.unearned == (if ClosedOutByClosure(b) || b.closure == Some(Closure.Cancellation) then 0 else ColsOf(b).profit - ColsOf(b).profitPaid)
  }

  predicate Accounted(b: Book, key: Key) {
    match key
    case ActivatedKey => !b.status.Created?
    case DownPaymentKey => !b.status.Created?
    case PaymentKey(n) => n < |b.payments|
    case ProfitKey(n) => n < |b.payments|
    case ChargedKey(c) => c < |b.charges|
    case WaivedKey(c) => c < |b.charges| && b.charges[c].status.Waived?
    case ClosureKey => b.closure.Some?
    case WriteOffKey(n) => n < |b.executions|
    case ReleaseKey(n) => n < |b.executions|
  }

  predicate WaiversOk(b: Book) {
    && (forall k :: 0 <= k < |b.waivers| ==> b.waivers[k].charge < |b.charges|)
    && (forall k :: 0 <= k < |b.waivers| && b.waivers[k].decision.Approved? ==>
         b.charges[b.waivers[k].charge].status.Waived? && b.waivers[k].decidedBy != b.waivers[k].requestedBy)
    && (forall k :: 0 <= k < |b.waivers| && b.waivers[k].decision.Pending? ==> !b.charges[b.waivers[k].charge].status.Waived?)
    && (forall j, k :: 0 <= j < k < |b.waivers| && b.waivers[j].decision.Pending? && b.waivers[k].decision.Pending? ==>
         b.waivers[j].charge != b.waivers[k].charge)
  }

  predicate KeysOk(b: Book) {
    && WaiversOk(b)
    && (forall k :: 0 <= k < |b.events| ==> Accounted(b, b.events[k].key))
  }

  predicate LedgerOk(b: Book) {
    var c := ColsOf(b);
    var out := ClosedOutByClosure(b);
    && LedgerSum(b.ledger, PrincipalPaid) + LedgerSum(b.ledger, ReturnPrincipal) == c.principalPaid - (if out then c.principalOff else 0)
    && LedgerSum(b.ledger, ProfitRecognized) + LedgerSum(b.ledger, ProfitRebated)
       + LedgerSum(b.ledger, ReturnRetained) + LedgerSum(b.ledger, ReturnWaived) == c.profitPaid
    && LedgerSum(b.ledger, LateFeePaid) + LedgerSum(b.ledger, ReturnLateFee) == c.feesPaid - (if out then c.feesOff - c.doubled else 0)
    && LedgerSum(b.ledger, LateFeeWaived) == c.feesWaived
    && LedgerSum(b.ledger, PrincipalOff) == c.principalOff
    && LedgerSum(b.ledger, ProfitOff) == c.profitOff
    && LedgerSum(b.ledger, LateFeeOff) == c.feesOff
    && Cash(b) == LedgerSum(b.ledger, PrincipalPaid) + LedgerSum(b.ledger, ProfitRecognized) + LedgerSum(b.ledger, LateFeePaid)
    && (b.closure != Some(Closure.Return) ==>
         LedgerSum(b.ledger, ReturnPrincipal) == LedgerSum(b.ledger, ReturnLateFee) == LedgerSum(b.ledger, ReturnRetained)
           == LedgerSum(b.ledger, ReturnWaived) == 0)
    && (b.closure != Some(Closure.EarlySettlement) ==> LedgerSum(b.ledger, ProfitRebated) == 0)
    && (b.closure.None? ==> NoClosureRows(b.ledger))
  }

  predicate NoClosureRows(ledger: seq<Entry>) {
    forall kind: EntryKind :: ClosureSum(ledger, kind) == 0
  }

  // What the receivable account carries, given how the contract ended.
  function Receivable(b: Book): int {
    var c := ColsOf(b);
    if !Booked(b) then 0
    else if b.closure == Some(Closure.EarlySettlement) then -c.profitOff - c.doubled
    else if b.closure == Some(Closure.Return) then LedgerSum(b.ledger, ReturnRetained) - c.profitOff - c.doubled
    else c.principal - c.principalPaid - c.principalOff + c.profit - c.profitPaid - c.profitOff
         + c.fees - c.feesPaid - c.feesOff - c.feesWaived
  }

  predicate JournalsOk(b: Book) {
    && GL.Balance(b.journals, GL.RECEIVABLE) == Receivable(b)
    && -GL.Balance(b.journals, GL.UNEARNED) == (if Booked(b) then b.unearned else 0)
    && GL.Balance(b.journals, GL.BANK) == (if Booked(b) then b.terms.downPayment + Cash(b) else 0)
  }

  // The same four conditions as sets of books; an operation maps each set into itself.
  ghost const ROWS: iset<Book> := iset b: Book | RowsOk(b)
  ghost const KEYS: iset<Book> := iset b: Book | KeysOk(b)
  ghost const LEDGERS: iset<Book> := iset b: Book | LedgerOk(b)
  ghost const JOURNALS: iset<Book> := iset b: Book | JournalsOk(b)
  ghost const RECORDED: iset<Book> := iset b: Book | b in ROWS && b in KEYS && b in LEDGERS
  ghost const SOUND: iset<Book> := iset b: Book | b in RECORDED && b in JOURNALS

  // -------------------------------------------------------------------------
  // Columns of rows
  // -------------------------------------------------------------------------

  lemma {:induction false} InstallmentColumns(insts: seq<Installment>)
    ensures Sum(insts, PrincipalOutstanding) == Sum(insts, PrincipalOf) - Sum(insts, PrincipalPaidOf) - Sum(insts, PrincipalOffOf)
    ensures Sum(insts, ProfitOutstanding) == Sum(insts, ProfitOf) - Sum(insts, ProfitPaidOf) - Sum(insts, ProfitOffOf)
  {
    if insts != [] {
      InstallmentColumns(insts[1..]);
    }
  }

  lemma {:induction false} ChargeColumns(charges: seq<Charge>)
    requires forall k :: 0 <= k < |charges| ==> ValidCharge(charges[k])
    ensures Sum(charges, FeeOutstanding) ==
      Sum(charges, FeeAmount) - Sum(charges, FeePaidAmount) - Sum(charges, FeeOffAmount) - Sum(charges, FeeWaivedOf) + Sum(charges, DoubledOf)
  {
    if charges != [] {
      assert ValidCharge(charges[0]);
      ChargeColumns(charges[1..]);
    }
  }

  lemma OutstandingByColumns(insts: seq<Installment>, charges: seq<Charge>)
    requires ValidCharges(charges)
    ensures var c := Cols(insts, charges);
      TotalOutstanding(insts, charges) == c.principal - c.principalPaid - c.principalOff + c.profit - c.profitPaid - c.profitOff
        + c.fees - c.feesPaid - c.feesOff - c.feesWaived + c.doubled
  {
    InstallmentColumns(insts);
    ChargeColumns(charges);
  }

  lemma SameChargesColumns(before: seq<Charge>, after: seq<Charge>)
    requires SameCharges(before, after)
    ensures Sum(after, FeeAmount) == Sum(before, FeeAmount) && Sum(after, FeeOffAmount) == Sum(before, FeeOffAmount)
    ensures Sum(after, FeeWaivedOf) == Sum(before, FeeWaivedOf) && Sum(after, DoubledOf) == Sum(before, DoubledOf)
  {
    assert forall k :: 0 <= k < |before| ==> SameCharge(before[k], after[k]);
    SumSame(after, FeeAmount, before, FeeAmount);
    SumSame(after, FeeOffAmount, before, FeeOffAmount);
    SumSame(after, FeeWaivedOf, before, FeeWaivedOf);
    SumSame(after, DoubledOf, before, DoubledOf);
  }
}
