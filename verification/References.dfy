// app/core/references.py: an entity's key rendered as a two-letter code, and back.
module References {
  import opened Options

  datatype Entity = Customer | Product | CreditApplication | InstallmentOffer | SalesOrder | InstallmentContract
                  | Payment | CollectionCase | PaymentIntent | Unregistered(name: string)

  // REFERENCE_PREFIXES, in the order it is searched.
  const REGISTERED: seq<Entity> := [Customer, Product, CreditApplication, InstallmentOffer, SalesOrder, InstallmentContract,
                                    Payment, CollectionCase, PaymentIntent]

  function Prefix(e: Entity): string {
    match e
    case Customer => "CU"
    case Product => "PR"
    case CreditApplication => "AP"
    case InstallmentOffer => "OF"
    case SalesOrder => "SO"
    case InstallmentContract => "CN"
    case Payment => "PY"
    case CollectionCase => "CC"
    case PaymentIntent => "PI"
    case Unregistered(_) => ""
  }

  // -------------------------------------------------------------------------
  // Decimal digits
  // -------------------------------------------------------------------------

  predicate IsDigit(c: char) { '0' <= c <= '9' }

  predicate AllDigits(s: string) { s != "" && forall k :: 0 <= k < |s| ==> IsDigit(s[k]) }

  function DigitOf(n: nat): (c: char)
    requires n < 10
    ensures IsDigit(c)
  {
    '0' + n as char
  }

  function ValueOfDigit(c: char): nat
    requires IsDigit(c)
  {
    (c - '0') as nat
  }

  function Decimal(n: nat): (s: string)
    ensures AllDigits(s)
  {
    if n < 10 then [DigitOf(n)] else Decimal(n / 10) + [DigitOf(n % 10)]
  }

  function Zeros(n: nat): string { seq(n, _ => '0') }

  // The :06d format of a number that may be negative: the sign counts towards the width.
  function Padded(id: int): string {
    if id < 0 then
      var digits := Decimal(-id);
      "-" + Zeros(if |digits| < 5 then 5 - |digits| else 0) + digits
    else
      var digits := Decimal(id);
      Zeros(if |digits| < 6 then 6 - |digits| else 0) + digits
  }

  function Number(s: string): nat
    requires AllDigits(s)
  {
    if |s| == 1 then ValueOfDigit(s[0]) else 10 * Number(s[..|s| - 1]) + ValueOfDigit(s[|s| - 1])
  }

  // -------------------------------------------------------------------------
  // format_reference() and parse_reference()
  // -------------------------------------------------------------------------

  // None stands for the ValueError on an unregistered entity.
  function Format(e: Entity, id: int): Option<string> {
    if e.Unregistered? then None else Some(Prefix(e) + "-" + Padded(id))
  }

  predicate IsSpace(c: char) { c == ' ' || ('\t' <= c <= '\r') || ('\U{1c}' <= c <= '\U{1f}') }

  function Strip(s: string): string {
    if s == "" then ""
    else if IsSpace(s[0]) then Strip(s[1..])
    else if IsSpace(s[|s| - 1]) then Strip(s[..|s| - 1])
    else s
  }

  function UpperChar(c: char): char { if 'a' <= c <= 'z' then c - 'a' + 'A' else c }

  function Upper(s: string): (u: string)
    ensures |u| == |s| && forall k :: 0 <= k < |s| ==> u[k] == UpperChar(s[k])
  {
    seq(|s|, k requires 0 <= k < |s| => UpperChar(s[k]))
  }

  // The position of the first hyphen, or the length.
  function Hyphen(s: string): (k: nat)
    ensures k <= |s| && (forall j :: 0 <= j < k ==> s[j] != '-') && (k < |s| ==> s[k] == '-')
  {
    if s == "" || s[0] == '-' then 0 else 1 + Hyphen(s[1..])
  }

  function Lookup(entities: seq<Entity>, prefix: string): Option<Entity> {
    if entities == [] then None else if Prefix(entities[0]) == prefix then Some(entities[0]) else Lookup(entities[1..], prefix)
  }

  // What the trimmed upper-case text stands for: the part before the first hyphen, and the rest.
  function Read(s: string): Option<(Entity, nat)> {
    var k := Hyphen(s);
    var num := if k < |s| then s[k + 1..] else "";
    match Lookup(REGISTERED, s[..k])
    case None => None
    case Some(e) => if AllDigits(num) then Some((e, Number(num))) else None
  }

  function Parse(code: string): Option<(Entity, nat)> {
    if '-' in code then Read(Upper(Strip(code))) else None
  }

  // The loop over the prefix table.
  method ParseReference(code: string) returns (r: Option<(Entity, nat)>)
    ensures r == Parse(code)
  {
    if '-' !in code {
      return None;
    }
    var s := Upper(Strip(code));
    var k := Hyphen(s);
    var prefix, num := s[..k], if k < |s| then s[k + 1..] else "";
    assert REGISTERED[0..] == REGISTERED;
    for i := 0 to |REGISTERED|
      invariant Lookup(REGISTERED, prefix) == Lookup(REGISTERED[i..], prefix)
        || (Lookup(REGISTERED, prefix).Some? && !AllDigits(num))
    {
      assert REGISTERED[i..][1..] == REGISTERED[i + 1..];
      if Prefix(REGISTERED[i]) == prefix && AllDigits(num) {
        return Some((REGISTERED[i], Number(num)));
      }
    }
    return None;
  }

  // -------------------------------------------------------------------------
  // Round trips
  // -------------------------------------------------------------------------

  lemma {:induction false} NumberOfDecimal(n: nat)
    ensures Number(Decimal(n)) == n
  {
    if n >= 10 {
      NumberOfDecimal(n / 10);
      var s := Decimal(n);
      assert s[..|s| - 1] == Decimal(n / 10);
    }
  }

  lemma NumberSnoc(s: string, c: char)
    requires AllDigits(s) && '0' <= c <= '9'
    ensures AllDigits(s + [c]) && Number(s + [c]) == 10 * Number(s) + Number([c])
  {
    assert (s + [c])[..|s|] == s;
  }

  lemma PrefixedSnoc(z: string, s: string, c: char)
    requires AllDigits(z + s) && '0' <= c <= '9'
    ensures AllDigits(z + (s + [c])) && Number(z + (s + [c])) == 10 * Number(z + s) + Number([c])
  {
    NumberSnoc(z + s, c);
    assert z + (s + [c]) == (z + s) + [c];
  }

  lemma SplitLast(s: string)
    requires AllDigits(s) && |s| > 1
    ensures AllDigits(s[..|s| - 1]) && '0' <= s[|s| - 1] <= '9' && s == s[..|s| - 1] + [s[|s| - 1]]
  {
  }

  lemma {:induction false} LeadingZeros(k: nat, s: string)
    requires AllDigits(s)
    ensures AllDigits(Zeros(k) + s) && Number(Zeros(k) + s) == Number(s)
    decreases |s|
  {
    if |s| == 1 {
      ZerosAreNothing(k, s);
    } else {
      TwoDigits(s);
      hide *;
      SplitLast(s);
      LeadingZeros(k, s[..|s| - 1]);
      NumberSnoc(s[..|s| - 1], s[|s| - 1]);
      PrefixedSnoc(Zeros(k), s[..|s| - 1], s[|s| - 1]);
    }
  }

  lemma TwoDigits(s: string)
    requires AllDigits(s) && |s| != 1
    ensures |s| > 1
  {
  }

  lemma {:induction false} ZerosAreNothing(k: nat, s: string)
    requires AllDigits(s) && |s| == 1
    ensures Number(Zeros(k) + s) == Number(s)
  {
    var t := Zeros(k) + s;
    if k > 0 {
      AllZeros(k);
      assert t[..|t| - 1] == Zeros(k);
    } else {
      assert t == s;
    }
  }

  lemma {:induction false} AllZeros(k: nat)
    requires k > 0
    ensures AllDigits(Zeros(k)) && Number(Zeros(k)) == 0
  {
    if k > 1 {
      AllZeros(k - 1);
      assert Zeros(k)[..k - 1] == Zeros(k - 1);
    }
  }

  lemma PaddedNumber(id: nat)
    ensures AllDigits(Padded(id)) && Number(Padded(id)) == id && |Padded(id)| >= 6
  {
    var digits := Decimal(id);
    LeadingZeros(if |digits| < 6 then 6 - |digits| else 0, digits);
    NumberOfDecimal(id);
  }

  lemma PrefixesDiffer(e: Entity, f: Entity)
    requires !e.Unregistered? && !f.Unregistered? && Prefix(e) == Prefix(f)
    ensures e == f
  {
    assert Prefix(e)[0] == Prefix(f)[0] && Prefix(e)[1] == Prefix(f)[1];
  }

  lemma PrefixShape(e: Entity)
    requires !e.Unregistered?
    ensures |Prefix(e)| == 2 && 'A' <= Prefix(e)[0] <= 'Z' && 'A' <= Prefix(e)[1] <= 'Z' && e in REGISTERED
  {
    match e
    case Customer => assert REGISTERED[0] == e;
    case Product => assert REGISTERED[1] == e;
    case CreditApplication => assert REGISTERED[2] == e;
    case InstallmentOffer => assert REGISTERED[3] == e;
    case SalesOrder => assert REGISTERED[4] == e;
    case InstallmentContract => assert REGISTERED[5] == e;
    case Payment => assert REGISTERED[6] == e;
    case CollectionCase => assert REGISTERED[7] == e;
    case PaymentIntent => assert REGISTERED[8] == e;
  }

  lemma PrefixFound(e: Entity)
    requires !e.Unregistered?
    ensures Lookup(REGISTERED, Prefix(e)) == Some(e)
    ensures |Prefix(e)| == 2 && '-' !in Prefix(e) && Upper(Prefix(e)) == Prefix(e)
  {
    hide Prefix;
    PrefixShape(e);
    forall f | f in REGISTERED && Prefix(f) == Prefix(e) ensures f == e {
      PrefixesDiffer(e, f);
    }
    Search(REGISTERED, e);
  }

  // The codes again, told from the prefix.
  function Meaning(prefix: string): Option<Entity> {
    match prefix
    case "AP" => Some(CreditApplication)
    case "CC" => Some(CollectionCase)
    case "CN" => Some(InstallmentContract)
    case "CU" => Some(Customer)
    case "OF" => Some(InstallmentOffer)
    case "PI" => Some(PaymentIntent)
    case "PR" => Some(Product)
    case "PY" => Some(Payment)
    case "SO" => Some(SalesOrder)
    case _ => None
  }

  lemma PrefixMeans(e: Entity)
    requires !e.Unregistered?
    ensures Meaning(Prefix(e)) == Some(e)
  {
  }

  lemma MeaningIs(prefix: string)
    ensures Meaning(prefix).Some? ==> !Meaning(prefix).value.Unregistered? && Prefix(Meaning(prefix).value) == prefix
  {
  }

  lemma {:induction false} LookupIn(entities: seq<Entity>, prefix: string)
    ensures Lookup(entities, prefix).Some? ==> Lookup(entities, prefix).value in entities && Prefix(Lookup(entities, prefix).value) == prefix
  {
    if entities != [] {
      LookupIn(entities[1..], prefix);
    }
  }

  lemma AllRegistered(e: Entity)
    requires e in REGISTERED
    ensures !e.Unregistered?
  {
  }

  // The search over the prefix table finds what the prefix means, and nothing for any other.
  lemma LookupMeans(prefix: string)
    ensures Lookup(REGISTERED, prefix) == Meaning(prefix)
  {
    hide Meaning, Prefix, Lookup;
    MeaningIs(prefix);
    LookupIn(REGISTERED, prefix);
    if Meaning(prefix).Some? {
      PrefixFound(Meaning(prefix).value);
    } else if Lookup(REGISTERED, prefix).Some? {
      AllRegistered(Lookup(REGISTERED, prefix).value);
      PrefixMeans(Lookup(REGISTERED, prefix).value);
    }
  }

  lemma {:induction false} Search(entities: seq<Entity>, e: Entity)
    requires e in entities && (forall f :: f in entities && Prefix(f) == Prefix(e) ==> f == e)
    ensures Lookup(entities, Prefix(e)) == Some(e)
  {
    if entities[0] != e {
      Search(entities[1..], e);
    }
  }

  // Any spelling whose trimmed upper case is the code parses back to what was formatted: letter
  // case and outer white space do not matter, and ids may exceed six digits.
  lemma RoundTrip(e: Entity, id: nat, code: string)
    requires Format(e, id).Some? && Upper(Strip(code)) == Format(e, id).value
    ensures Parse(code) == Some((e, id))
  {
    hide Read, Padded, Strip, Upper;
    CodeReads(e, id);
    HyphenKept(code);
    assert Format(e, id).value[|Prefix(e)|] == '-';
  }

  lemma CodeReads(e: Entity, id: nat)
    requires !e.Unregistered?
    ensures Read(Prefix(e) + "-" + Padded(id)) == Some((e, id))
  {
    hide Prefix, Padded, Number, Lookup;
    var s := Prefix(e) + "-" + Padded(id);
    PrefixFound(e);
    PaddedNumber(id);
    HyphenAt(s, 2);
    assert s[..2] == Prefix(e) && s[3..] == Padded(id);
  }

  // Trimming and upper-casing neither add nor remove a hyphen.
  lemma {:induction false} StripKeeps(s: string)
    ensures '-' in Strip(s) <==> '-' in s
  {
    if s != "" && IsSpace(s[0]) {
      StripKeeps(s[1..]);
      assert s == [s[0]] + s[1..];
    } else if s != "" && IsSpace(s[|s| - 1]) {
      StripKeeps(s[..|s| - 1]);
      assert s == s[..|s| - 1] + [s[|s| - 1]];
    }
  }

  lemma HyphenKept(code: string)
    ensures '-' in Upper(Strip(code)) <==> '-' in code
  {
    StripKeeps(code);
    var s := Strip(code);
    if '-' in s {
      var k :| 0 <= k < |s| && s[k] == '-';
      assert Upper(s)[k] == '-';
    }
    if '-' in Upper(s) {
      var k :| 0 <= k < |s| && Upper(s)[k] == '-';
      assert UpperChar(s[k]) == '-';
    }
  }

  lemma HyphenAt(s: string, k: nat)
    requires k < |s| && s[k] == '-' && forall j :: 0 <= j < k ==> s[j] != '-'
    ensures Hyphen(s) == k
  {
  }

  // The code itself, as formatted, round-trips exactly when the id is not negative.
  lemma FormattedRoundTrip(e: Entity, id: int)
    requires Format(e, id).Some?
    ensures Parse(Format(e, id).value).Some? <==> id >= 0
    ensures id >= 0 ==> Parse(Format(e, id).value) == Some((e, id))
  {
    var s := Format(e, id).value;
    PrefixFound(e);
    assert s[2] == '-';
    FormattedIsClean(e, id);
    if id >= 0 {
      RoundTrip(e, id, s);
    } else {
      HyphenAt(s, 2);
      assert s[3..] == Padded(id) && Padded(id)[0] == '-';
    }
  }

  lemma FormattedIsClean(e: Entity, id: int)
    requires Format(e, id).Some?
    ensures Upper(Strip(Format(e, id).value)) == Format(e, id).value
  {
    var s := Format(e, id).value;
    var digits := Decimal(if id < 0 then -id else id);
    assert s[|s| - 1] == digits[|digits| - 1];
    PrefixFound(e);
    assert s[0] == Prefix(e)[0] && s[1] == Prefix(e)[1] && Upper(Prefix(e))[0] == s[0];
    assert !IsSpace(s[0]) by { assert UpperChar(Prefix(e)[0]) == Prefix(e)[0]; LettersAreNoSpace(e); }
    assert !IsSpace(s[|s| - 1]);
    forall k | 0 <= k < |s| ensures UpperChar(s[k]) == s[k] {
      if k < 2 { assert s[k] == Prefix(e)[k] && Upper(Prefix(e))[k] == UpperChar(Prefix(e)[k]); } else { TailIsPlain(e, id, k); }
    }
    assert Upper(s) == s;
  }

  lemma LettersAreNoSpace(e: Entity)
    requires !e.Unregistered?
    ensures !IsSpace(Prefix(e)[0])
  {
  }

  lemma TailIsPlain(e: Entity, id: int, k: nat)
    requires Format(e, id).Some? && 2 <= k < |Format(e, id).value|
    ensures Format(e, id).value[k] == '-' || IsDigit(Format(e, id).value[k])
  {
    PrefixFound(e);
    var p := Padded(id);
    assert k > 2 ==> Format(e, id).value[k] == p[k - 3];
  }

  function Power(k: nat): nat { if k == 0 then 1 else 10 * Power(k - 1) }

  lemma {:induction false} DecimalFits(n: nat, k: nat)
    requires k > 0
    ensures |Decimal(n)| <= k <==> n < Power(k)
    decreases k
  {
    if k > 1 {
      if n >= 10 { DecimalFits(n / 10, k - 1); } else { PowerGrows(k - 1); }
    } else {
      assert Power(1) == 10 * Power(0);
    }
  }

  lemma {:induction false} PowerGrows(k: nat)
    ensures Power(k) >= 1
  {
    if k > 0 {
      PowerGrows(k - 1);
    }
  }

  lemma {:induction false} NoLeadingZero(n: nat)
    requires n > 0
    ensures Decimal(n)[0] != '0'
  {
    if n >= 10 {
      NoLeadingZero(n / 10);
    }
  }

  // A code is two letters, a hyphen and six digits, and more digits only for a number that needs them.
  lemma CodeShape(e: Entity, id: nat)
    requires Format(e, id).Some?
    ensures var code := Format(e, id).value;
      && |code| >= 9 && code[2] == '-' && (id < 1000000 <==> |code| == 9) && (|code| > 9 ==> code[3] != '0')
  {
    hide Decimal;
    PrefixFound(e);
    DecimalFits(id, 6);
    if id > 0 { NoLeadingZero(id); }
    assert Power(6) == 1000000 by { assert Power(3) == 1000; }
    var code, digits := Format(e, id).value, Decimal(id);
    assert |digits| > 6 ==> code[3..] == digits;
  }

  // Distinct entities or ids never share a code.
  lemma CodesAreUnique(e: Entity, id: nat, f: Entity, other: nat)
    requires Format(e, id).Some? && Format(f, other).Some? && Format(e, id) == Format(f, other)
    ensures e == f && id == other
  {
    FormattedRoundTrip(e, id);
    FormattedRoundTrip(f, other);
  }
}
