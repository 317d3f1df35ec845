/** The provider's decimal amounts: printing minor units and parsing them back at the int64 limit. */
module BillingAmount {

  const MAX_INT64: int := 0x7FFF_FFFF_FFFF_FFFF

  datatype Parsed = Value(value: int) | Invalid

  // ---------- decimal numerals ----------

  predicate IsDigit(c: char) { '0' <= c <= '9' }

  function DigitOf(n: int): char
    requires 0 <= n < 10
  {
    '0' + n as char
  }

  function DigitValue(c: char): int
    requires IsDigit(c)
  {
    c as int - '0' as int
  }

  predicate AllDigits(s: string) { s != [] && forall i :: 0 <= i < |s| ==> IsDigit(s[i]) }

  /** Go's %d of a non-negative number. */
  function Decimal(n: nat): (s: string)
    ensures AllDigits(s)
  {
    if n < 10 then [DigitOf(n)] else Decimal(n / 10) + [DigitOf(n % 10)]
  }

  function NumeralValue(s: string): nat
    requires AllDigits(s)
  {
    var last := DigitValue(s[|s| - 1]);
    if |s| == 1 then last else NumeralValue(s[..|s| - 1]) * 10 + last
  }

  /** strconv.ParseInt(s, 10, 64): an optional sign, digits, and the int64 range. */
  function ParseInt(s: string): Parsed {
    if s == [] then Invalid
    else
      var signed := s[0] == '+' || s[0] == '-';
      var body := if signed then s[1..] else s;
      if !AllDigits(body) then Invalid
      else
        var v: int := NumeralValue(body);
        if s[0] == '-' then if v > MAX_INT64 + 1 then Invalid else Value(-v)
        else if v > MAX_INT64 then Invalid else Value(v)
  }

  // ---------- strings.Split(value, ".") ----------

  function DotFrom(s: string, i: nat): (n: nat)
    requires i <= |s|
    ensures i <= n <= |s|
    ensures forall j :: i <= j < n ==> s[j] != '.'
    ensures n < |s| ==> s[n] == '.'
    decreases |s| - i
  {
    if i == |s| || s[i] == '.' then i else DotFrom(s, i + 1)
  }

  function Split(s: string): (parts: seq<string>)
    ensures parts != []
    decreases |s|
  {
    var n := DotFrom(s, 0);
    if n == |s| then [s] else [s[..n]] + Split(s[n + 1..])
  }

  // ---------- billingAmount and billingAmountMinor ----------

  function Amount(minor: nat): string {
    Decimal(minor / 100) + "." + [DigitOf(minor % 100 / 10), DigitOf(minor % 10)]
  }

  function AmountMinor(s: string): Parsed {
    var parts := Split(s);
    if |parts| != 2 || |parts[1]| != 2 then Invalid
    else
      var rubles := ParseInt(parts[0]);
      if rubles.Invalid? || rubles.value < 0 then Invalid
      else
        var kopecks := ParseInt(parts[1]);
        if kopecks.Invalid? || kopecks.value < 0 || kopecks.value > 99
           || rubles.value > (MAX_INT64 - kopecks.value) / 100 then Invalid
        else Value(rubles.value * 100 + kopecks.value)
  }

  // ---------- printing and parsing ----------

  lemma {:induction false} DecimalHasItsValue(n: nat)
    ensures NumeralValue(Decimal(n)) == n
  {
    if n >= 10 {
      DecimalHasItsValue(n / 10);
      var s := Decimal(n);
      assert s[..|s| - 1] == Decimal(n / 10);
    }
  }

  lemma {:induction false} SplitAtDot(a: string, b: string)
    requires '.' !in a && '.' !in b
    ensures Split(a + "." + b) == [a, b]
  {
    var s := a + "." + b;
    var n := DotFrom(s, 0);
    assert s[|a|] == '.';
    assert forall j :: 0 <= j < |a| ==> s[j] == a[j] && a[j] in a;
    assert n == |a|;
    assert s[..n] == a && s[n + 1..] == b;
    assert DotFrom(b, 0) == |b| by { assert forall j :: 0 <= j < |b| ==> b[j] in b; }
  }

  lemma TwoPartsRejoin(s: string)
    requires |Split(s)| == 2
    ensures s == Split(s)[0] + "." + Split(s)[1]
  {
    var n := DotFrom(s, 0);
    var rest := s[n + 1..];
    assert s == s[..n] + "." + rest;
  }

  lemma DigitsHoldNoDot(s: string)
    requires AllDigits(s)
    ensures '.' !in s && s[0] != '+' && s[0] != '-'
  {
  }

  lemma TwoDigits(n: int)
    requires 0 <= n < 100
    ensures AllDigits([DigitOf(n / 10), DigitOf(n % 10)])
    ensures NumeralValue([DigitOf(n / 10), DigitOf(n % 10)]) == n
  {
    var s := [DigitOf(n / 10), DigitOf(n % 10)];
    assert s[..1] == [DigitOf(n / 10)];
  }

  /** Every amount of the int64 range survives printing and parsing. */
  lemma AmountRoundTrip(minor: nat)
    requires minor <= MAX_INT64
    ensures AmountMinor(Amount(minor)) == Value(minor)
  {
    var whole, cents := Decimal(minor / 100), [DigitOf(minor % 100 / 10), DigitOf(minor % 10)];
    assert minor % 10 == minor % 100 % 10;
    TwoDigits(minor % 100);
    DecimalHasItsValue(minor / 100);
    DigitsHoldNoDot(whole);
    DigitsHoldNoDot(cents);
    SplitAtDot(whole, cents);
  }

  /** What the parser accepts is in range, and so is every intermediate product and sum. */
  lemma AcceptedAmountsFit(s: string)
    requires AmountMinor(s).Value?
    ensures 0 <= AmountMinor(s).value <= MAX_INT64
    ensures var rubles, kopecks := ParseInt(Split(s)[0]).value, ParseInt(Split(s)[1]).value;
            && 0 <= MAX_INT64 - kopecks <= MAX_INT64
            && 0 <= rubles * 100 <= MAX_INT64
            && rubles * 100 + kopecks == AmountMinor(s).value
  {
    var rubles, kopecks := ParseInt(Split(s)[0]).value, ParseInt(Split(s)[1]).value;
    assert rubles * 100 <= (MAX_INT64 - kopecks) / 100 * 100 <= MAX_INT64 - kopecks;
  }

  /** A decimal numeral of v: digits, perhaps with a plus sign, or with a minus sign zeros only. */
  predicate Reads(s: string, v: nat) {
    || (AllDigits(s) && NumeralValue(s) == v)
    || (|s| > 1 && s[0] == '+' && AllDigits(s[1..]) && NumeralValue(s[1..]) == v)
    || (|s| > 1 && s[0] == '-' && AllDigits(s[1..]) && NumeralValue(s[1..]) == 0 == v)
  }

  lemma ParsedExactly(s: string, v: nat)
    requires v <= MAX_INT64
    ensures ParseInt(s) == Value(v) <==> Reads(s, v)
  {
    if AllDigits(s) { DigitsHoldNoDot(s); }
  }

  lemma ReadsHoldNoDot(s: string, v: nat)
    requires Reads(s, v)
    ensures '.' !in s
  {
    if AllDigits(s) {
      DigitsHoldNoDot(s);
    } else {
      DigitsHoldNoDot(s[1..]);
      assert s == [s[0]] + s[1..];
    }
  }

  /** s is rubles, a dot and kopecks of two characters, together v minor units. */
  predicate Denotes(s: string, whole: string, cents: string, rubles: nat, kopecks: nat) {
    s == whole + "." + cents && |cents| == 2 && Reads(whole, rubles) && Reads(cents, kopecks)
  }

  lemma TwoDigitValue(cents: string)
    requires |cents| == 2 && AllDigits(cents)
    ensures NumeralValue(cents) == DigitValue(cents[0]) * 10 + DigitValue(cents[1]) < 100
    ensures cents == [DigitOf(NumeralValue(cents) / 10), DigitOf(NumeralValue(cents) % 10)]
  {
    assert cents[..1] == [cents[0]];
  }

  lemma TwoCharactersBelowHundred(s: string, v: nat)
    requires |s| == 2 && Reads(s, v)
    ensures v <= 99
  {
    if AllDigits(s) { TwoDigitValue(s); }
  }

  lemma DenotedIsAccepted(s: string, whole: string, cents: string, rubles: nat, kopecks: nat)
    requires Denotes(s, whole, cents, rubles, kopecks) && 100 * rubles + kopecks <= MAX_INT64
    ensures AmountMinor(s) == Value(100 * rubles + kopecks)
  {
    ReadsHoldNoDot(whole, rubles);
    ReadsHoldNoDot(cents, kopecks);
    SplitAtDot(whole, cents);
    ParsedExactly(whole, rubles);
    ParsedExactly(cents, kopecks);
    TwoCharactersBelowHundred(cents, kopecks);
  }

  /** Exactly which strings are accepted, and for what: two numerals around one dot, the second of
      two characters, whose amount fits in int64. */
  lemma AcceptedExactly(s: string, v: int)
    ensures AmountMinor(s) == Value(v) <==>
              exists whole, cents, rubles: nat, kopecks: nat ::
                Denotes(s, whole, cents, rubles, kopecks) && v == 100 * rubles + kopecks <= MAX_INT64
  {
    if AmountMinor(s) == Value(v) {
      TwoPartsRejoin(s);
      AcceptedAmountsFit(s);
      var whole, cents := Split(s)[0], Split(s)[1];
      var rubles, kopecks := ParseInt(whole).value, ParseInt(cents).value;
      ParsedExactly(whole, rubles);
      ParsedExactly(cents, kopecks);
      assert Denotes(s, whole, cents, rubles, kopecks);
    }
    forall whole, cents, rubles: nat, kopecks: nat |
      Denotes(s, whole, cents, rubles, kopecks) && v == 100 * rubles + kopecks <= MAX_INT64
      ensures AmountMinor(s) == Value(v)
    {
      DenotedIsAccepted(s, whole, cents, rubles, kopecks);
    }
  }

  /** Digits only, with no leading zero but that of zero itself. */
  predicate PlainNumeral(s: string) { AllDigits(s) && (|s| == 1 || s[0] != '0') }

  lemma {:induction false} PlainNumeralPrintsBack(s: string)
    requires PlainNumeral(s)
    ensures Decimal(NumeralValue(s)) == s
    ensures |s| > 1 ==> NumeralValue(s) >= 10
  {
    var front, last := s[..|s| - 1], DigitValue(s[|s| - 1]);
    if |s| > 1 {
      assert front[0] == s[0];
      PlainNumeralPrintsBack(front);
      if |s| == 2 { assert NumeralValue(front) == DigitValue(front[0]) >= 1; }
      assert NumeralValue(s) / 10 == NumeralValue(front) && NumeralValue(s) % 10 == last;
      assert s == front + [s[|s| - 1]];
    }
  }

  lemma {:induction false} DecimalIsPlain(n: nat)
    ensures PlainNumeral(Decimal(n)) && (n > 0 ==> Decimal(n)[0] != '0')
  {
    if n >= 10 { DecimalIsPlain(n / 10); }
  }

  predicate PlainAmount(s: string) {
    var parts := Split(s);
    |parts| == 2 && |parts[1]| == 2 && PlainNumeral(parts[0]) && AllDigits(parts[1])
  }

  lemma PlainPrintsBack(s: string)
    requires AmountMinor(s).Value? && PlainAmount(s)
    ensures AmountMinor(s).value >= 0 && Amount(AmountMinor(s).value) == s
  {
    AcceptedAmountsFit(s);
    var v, whole, cents := AmountMinor(s).value, Split(s)[0], Split(s)[1];
    TwoPartsRejoin(s);
    DigitsHoldNoDot(whole);
    DigitsHoldNoDot(cents);
    PlainNumeralPrintsBack(whole);
    TwoDigitValue(cents);
    assert v / 100 == NumeralValue(whole) && v % 100 == NumeralValue(cents);
    assert v % 10 == v % 100 % 10;
  }

  lemma PrintedIsPlain(v: nat)
    ensures PlainAmount(Amount(v))
  {
    var whole, cents := Decimal(v / 100), [DigitOf(v % 100 / 10), DigitOf(v % 10)];
    DigitsHoldNoDot(whole);
    DigitsHoldNoDot(cents);
    SplitAtDot(whole, cents);
    DecimalIsPlain(v / 100);
  }

  /** An accepted string prints back as itself exactly when it is plain: no sign, no
      leading zeros. */
  lemma PrintsBackExactlyWhenPlain(s: string)
    requires AmountMinor(s).Value?
    ensures AmountMinor(s).value >= 0
    ensures Amount(AmountMinor(s).value) == s <==> PlainAmount(s)
  {
    AcceptedAmountsFit(s);
    PrintedIsPlain(AmountMinor(s).value);
    if PlainAmount(s) { PlainPrintsBack(s); }
  }
}
