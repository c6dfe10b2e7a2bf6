/** Transaction-currency amounts: printing, parsing, and the round trip between them. */
module Money {
  import opened Wrappers
  import opened Currency

  const MAX_MINOR: int := 0x7fff_ffff_ffff_ffff

  datatype Money = Money(minor: int, currency: string, exponent: nat) {
    predicate Valid() {
      ValidAt(Exponent(currency))
    }

    predicate ValidAt(digits: Option<nat>) {
      0 <= minor <= MAX_MINOR && digits == Some(exponent)
    }

    /** The amount as an unsigned decimal string. */
    function Decimal(): string
      requires 0 <= minor
    {
      if exponent == 0 then Print(minor)
      else
        var unit: nat := Pow10(exponent);
        Print(Quotient(minor, unit)) + "." + PadLeft(Print(minor % unit), exponent)
    }
  }

  datatype MoneyError = NotUnsignedDecimal | UnsupportedCurrency | ExcessPrecision | InvalidLegacyUnits | OutOfRange

  // ----- digit strings -----

  function Pow10(e: nat): (p: nat)
    ensures p > 0
  {
    if e == 0 then 1 else 10 * Pow10(e - 1)
  }

  function Quotient(n: nat, d: nat): nat
    requires d > 0
  {
    n / d
  }

  predicate IsDigit(c: char) { '0' <= c <= '9' }

  predicate IsDigits(s: string) { forall i :: 0 <= i < |s| ==> IsDigit(s[i]) }

  function Print(n: nat): string {
    if n < 10 then ['0' + n as char] else Print(n / 10) + ['0' + (n % 10) as char]
  }

  /** Python's `int` on digits; the empty string counts as zero. */
  function ParseInt(s: string): nat
    requires IsDigits(s)
  {
    if s == [] then 0 else 10 * ParseInt(s[..|s| - 1]) + (s[|s| - 1] - '0') as nat
  }

  function PadLeft(s: string, width: nat): string
    decreases width - |s|
  {
    if |s| >= width then s else PadLeft("0" + s, width)
  }

  function PadRight(s: string, width: nat): string
    decreases width - |s|
  {
    if |s| >= width then s else PadRight(s + "0", width)
  }

  lemma {:induction false} PrintParses(n: nat)
    ensures IsDigits(Print(n)) && Print(n) != [] && ParseInt(Print(n)) == n
    ensures Print(n) == "0" || Print(n)[0] != '0'
  {
    if n >= 10 {
      PrintParses(n / 10);
      assert Print(n)[..|Print(n)| - 1] == Print(n / 10);
    }
  }

  lemma {:induction false} PrintFits(n: nat, digits: nat)
    requires digits > 0 && n < Pow10(digits)
    ensures |Print(n)| <= digits
  {
    if n >= 10 {
      PrintFits(n / 10, digits - 1);
    }
  }

  lemma {:induction false} LeadingZero(s: string)
    requires IsDigits(s)
    ensures IsDigits("0" + s) && ParseInt("0" + s) == ParseInt(s)
  {
    if s != [] {
      LeadingZero(s[..|s| - 1]);
      assert ("0" + s)[..|s|] == "0" + s[..|s| - 1];
    }
  }

  lemma {:induction false} PadLeftParses(s: string, width: nat)
    requires IsDigits(s)
    ensures IsDigits(PadLeft(s, width)) && ParseInt(PadLeft(s, width)) == ParseInt(s)
    ensures |PadLeft(s, width)| == if |s| >= width then |s| else width
    decreases width - |s|
  {
    if |s| < width {
      LeadingZero(s);
      PadLeftParses("0" + s, width);
    }
  }

  lemma TimesTen(n: nat, k: nat)
    ensures (10 * n) * k == n * (10 * k)
  {
  }

  lemma {:induction false} PadRightParses(s: string, width: nat)
    requires IsDigits(s) && |s| <= width
    ensures IsDigits(PadRight(s, width)) && |PadRight(s, width)| == width
    ensures ParseInt(PadRight(s, width)) == ParseInt(s) * Pow10(width - |s|)
    decreases width - |s|
  {
    if |s| < width {
      var k := Pow10(width - |s| - 1);
      assert (s + "0")[..|s|] == s && ParseInt(s + "0") == 10 * ParseInt(s);
      PadRightParses(s + "0", width);
      TimesTen(ParseInt(s), k);
    }
  }

  // ----- the server's parser -----

  /** Position of the first decimal point, or the length when there is none. */
  function Point(s: string): (k: nat)
    ensures k <= |s| && (k < |s| ==> s[k] == '.')
    ensures forall i :: 0 <= i < k ==> s[i] != '.'
  {
    if s == [] || s[0] == '.' then 0 else 1 + Point(s[1..])
  }

  function Whole(s: string): string { s[..Point(s)] }

  function Fraction(s: string): string { if Point(s) == |s| then "" else s[Point(s) + 1..] }

  /** The pattern (0|[1-9][0-9]*)(\.[0-9]+)? that both ends accept. */
  predicate UnsignedDecimal(s: string) {
    && Whole(s) != [] && IsDigits(Whole(s)) && (Whole(s) == "0" || s[0] != '0')
    && (Point(s) < |s| ==> Fraction(s) != [] && IsDigits(Fraction(s)))
  }

  function ParseWoo(value: string, currency: string): Result<Money, MoneyError> {
    ParseAt(value, currency, Exponent(currency))
  }

  /** `ParseWoo` once the currency table has been read. */
  function ParseAt(value: string, currency: string, digits: Option<nat>): Result<Money, MoneyError> {
    if |value| > 24 || !UnsignedDecimal(value) then Err(NotUnsignedDecimal)
    else if digits.None? then Err(UnsupportedCurrency)
    else if |Fraction(value)| > digits.value then Err(ExcessPrecision)
    else
      var minor := MinorUnits(value, digits.value);
      if minor > MAX_MINOR then Err(OutOfRange) else Ok(Money(minor, currency, digits.value))
  }

  function MinorUnits(value: string, exponent: nat): nat
    requires UnsignedDecimal(value) && |Fraction(value)| <= exponent
  {
    PadRightParses(Fraction(value), exponent);
    ParseInt(Whole(value)) * Pow10(exponent) + ParseInt(PadRight(Fraction(value), exponent))
  }

  /** Splitting a text built from its two parts gives the parts back. */
  lemma {:induction false} PointOf(whole: string, rest: string)
    requires IsDigits(whole) && (rest == [] || rest[0] == '.')
    ensures Point(whole + rest) == |whole|
  {
    if whole != [] {
      assert (whole + rest)[1..] == whole[1..] + rest;
      PointOf(whole[1..], rest);
    }
  }

  lemma SplitOf(whole: string, fraction: string)
    requires IsDigits(whole)
    ensures Whole(whole + "." + fraction) == whole && Fraction(whole + "." + fraction) == fraction
    ensures Point(whole + "." + fraction) == |whole|
  {
    PointOf(whole, "." + fraction);
    assert whole + "." + fraction == whole + ("." + fraction);
  }

  lemma SplitOfWhole(whole: string)
    requires IsDigits(whole)
    ensures Point(whole) == |whole| && Whole(whole) == whole && Fraction(whole) == ""
  {
    PointOf(whole, "");
    assert whole + "" == whole;
  }

  /** A plain digit string: no leading zero unless it is zero. */
  predicate PlainWhole(whole: string) { whole != [] && IsDigits(whole) && (whole == "0" || whole[0] != '0') }

  lemma PrintIsPlain(w: nat)
    requires w < Pow10(19)
    ensures PlainWhole(Print(w)) && |Print(w)| <= 19 && ParseInt(Print(w)) == w
  {
    hide Pow10, IsDigit;
    PrintParses(w);
    PrintFits(w, 19);
  }

  lemma JoinedUnits(whole: string, fraction: string, e: nat)
    requires PlainWhole(whole) && IsDigits(fraction) && 0 < |fraction| == e
    ensures var text := whole + "." + fraction;
      && UnsignedDecimal(text) && Fraction(text) == fraction
      && MinorUnits(text, e) == ParseInt(whole) * Pow10(e) + ParseInt(fraction)
  {
    hide Point, Pow10, ParseInt;
    SplitOf(whole, fraction);
    assert PadRight(fraction, e) == fraction;
  }

  /** A text of `w` and exactly `e` fraction digits worth `f` parses to w * 10^e + f. */
  lemma ParseParts(w: nat, fraction: string, currency: string, e: nat)
    requires IsDigits(fraction) && 0 < |fraction| == e <= 3 && w < Pow10(19)
    requires w * Pow10(e) + ParseInt(fraction) <= MAX_MINOR
    ensures ParseAt(Print(w) + "." + fraction, currency, Some(e))
         == Ok(Money(w * Pow10(e) + ParseInt(fraction), currency, e))
  {
    hide Print, ParseInt, Pow10, IsDigits, UnsignedDecimal, MinorUnits, Fraction, PlainWhole;
    PrintIsPlain(w);
    JoinedUnits(Print(w), fraction, e);
  }

  lemma WholeUnits(whole: string)
    requires PlainWhole(whole)
    ensures UnsignedDecimal(whole) && Fraction(whole) == "" && MinorUnits(whole, 0) == ParseInt(whole)
  {
    hide Point;
    SplitOfWhole(whole);
  }

  lemma ParseWhole(w: nat, currency: string)
    requires w < Pow10(19) && w <= MAX_MINOR
    ensures ParseAt(Print(w), currency, Some(0)) == Ok(Money(w, currency, 0))
  {
    hide Print, ParseInt, Pow10, IsDigits, UnsignedDecimal, MinorUnits, Fraction, PlainWhole;
    PrintIsPlain(w);
    WholeUnits(Print(w));
  }

  /** Every valid amount survives printing and parsing. */
  lemma DecimalRoundTrip(m: Money)
    requires m.Valid()
    ensures ParseWoo(m.Decimal(), m.currency) == Ok(m)
  {
    RoundTripAt(m, Exponent(m.currency));
  }

  lemma RoundTripAt(m: Money, digits: Option<nat>)
    requires m.ValidAt(digits) && m.exponent in {0, 2, 3}
    ensures ParseAt(m.Decimal(), m.currency, digits) == Ok(m)
  {
    Pow10Known();
    Pow10Large();
    if m.exponent == 0 {
      ParseWhole(m.minor, m.currency);
    } else if m.exponent == 2 {
      ParsePrinted(m.minor / 100, m.minor % 100, m.currency, 2);
    } else {
      ParsePrinted(m.minor / 1000, m.minor % 1000, m.currency, 3);
    }
  }

  lemma ParsePrinted(w: nat, f: nat, currency: string, e: nat)
    requires 0 < e <= 3 && f < Pow10(e) && w < Pow10(19) && w * Pow10(e) + f <= MAX_MINOR
    ensures ParseAt(Print(w) + "." + PadLeft(Print(f), e), currency, Some(e))
         == Ok(Money(w * Pow10(e) + f, currency, e))
  {
    hide *;
    FractionText(f, e);
    ParseParts(w, PadLeft(Print(f), e), currency, e);
  }

  lemma FractionText(f: nat, e: nat)
    requires 0 < e && f < Pow10(e)
    ensures var fraction := PadLeft(Print(f), e);
      IsDigits(fraction) && |fraction| == e && ParseInt(fraction) == f
  {
    PrintParses(f);
    PrintFits(f, e);
    PadLeftParses(Print(f), e);
  }

  lemma Pow10Known()
    ensures Pow10(0) == 1 && Pow10(1) == 10 && Pow10(2) == 100 && Pow10(3) == 1000
  {
  }

  lemma Pow10Large()
    ensures Pow10(16) == 10_000_000_000_000_000 && Pow10(19) == 10_000_000_000_000_000_000
  {
    assert Pow10(6) == 1_000_000 && Pow10(9) == 1_000_000_000 && Pow10(12) == 1_000_000_000_000;
  }

  // ----- what the server accepts -----

  /** The text is a plain number, alone or with a point and at least one digit after it. */
  predicate Writes(text: string, whole: string, fraction: string) {
    && PlainWhole(whole) && IsDigits(fraction)
    && text == if fraction == "" then whole else whole + "." + fraction
  }

  lemma WritesIff(text: string)
    ensures UnsignedDecimal(text) <==> exists whole, fraction :: Writes(text, whole, fraction)
    ensures forall whole, fraction :: Writes(text, whole, fraction) ==>
              Whole(text) == whole && Fraction(text) == fraction
  {
    hide Point;
    if UnsignedDecimal(text) {
      if Point(text) == |text| {
        assert text[..Point(text)] == text;
        assert Writes(text, text, "");
      } else {
        assert text == Whole(text) + "." + Fraction(text);
        assert Writes(text, Whole(text), Fraction(text));
      }
    }
    forall whole, fraction | Writes(text, whole, fraction)
      ensures UnsignedDecimal(text) && Whole(text) == whole && Fraction(text) == fraction
    {
      WrittenSplits(text, whole, fraction);
    }
  }

  lemma WrittenSplits(text: string, whole: string, fraction: string)
    requires Writes(text, whole, fraction)
    ensures UnsignedDecimal(text) && Whole(text) == whole && Fraction(text) == fraction
  {
    hide Point;
    if fraction == "" {
      SplitOfWhole(whole);
    } else {
      SplitOf(whole, fraction);
      assert text[0] == whole[0];
    }
  }

  /**
   A text parses to an amount exactly when it has at most 24 characters, writes a plain number with no more fraction
   digits than the currency has, and the amount is valid and counts what the text says.
   */
  lemma WooParsesIff(text: string, currency: string, m: Money)
    ensures ParseWoo(text, currency) == Ok(m) <==>
              && |text| <= 24 && m.currency == currency && m.Valid()
              && exists whole, fraction :: Writes(text, whole, fraction) && |fraction| <= m.exponent
                   && m.minor
                     == ParseInt(whole) * Pow10(m.exponent) + ParseInt(fraction) * Pow10(m.exponent - |fraction|)
  {
    WooParsesAt(text, currency, Exponent(currency), m);
  }

  lemma WooParsesAt(text: string, currency: string, digits: Option<nat>, m: Money)
    ensures ParseAt(text, currency, digits) == Ok(m) <==>
              && |text| <= 24 && m.currency == currency && m.ValidAt(digits)
              && exists whole, fraction :: Writes(text, whole, fraction) && |fraction| <= m.exponent
                   && m.minor
                     == ParseInt(whole) * Pow10(m.exponent) + ParseInt(fraction) * Pow10(m.exponent - |fraction|)
  {
    hide UnsignedDecimal, Whole, Fraction, ParseInt, Pow10, PlainWhole, Writes;
    WritesIff(text);
    forall whole, fraction | Writes(text, whole, fraction)
      ensures IsDigits(whole) && IsDigits(fraction)
      ensures UnsignedDecimal(text) && Whole(text) == whole && Fraction(text) == fraction
    {
      WrittenDigits(text, whole, fraction);
      WrittenSplits(text, whole, fraction);
    }
    if UnsignedDecimal(text) && digits.Some? && |Fraction(text)| <= digits.value {
      UnitsAre(text, digits.value);
    }
  }

  lemma WrittenDigits(text: string, whole: string, fraction: string)
    requires Writes(text, whole, fraction)
    ensures IsDigits(whole) && IsDigits(fraction)
  {
  }

  lemma UnitsAre(text: string, exponent: nat)
    requires UnsignedDecimal(text) && |Fraction(text)| <= exponent
    ensures IsDigits(Whole(text)) && IsDigits(Fraction(text))
    ensures MinorUnits(text, exponent)
         == ParseInt(Whole(text)) * Pow10(exponent) + ParseInt(Fraction(text)) * Pow10(exponent - |Fraction(text)|)
  {
    PadRightParses(Fraction(text), exponent);
  }

  // ----- Stripe's integer amounts -----

  function Upper(s: string): string {
    if s == [] then [] else [if 'a' <= s[0] <= 'z' then s[0] - 'a' + 'A' else s[0]] + Upper(s[1..])
  }

  /** Currencies without fraction digits that Stripe still counts in hundredths. */
  predicate InHundredths(currency: string) { currency == "ISK" || currency == "UGX" }

  function ParseStripe(value: int, currency: string): Result<Money, MoneyError> {
    ParseStripeAt(value, Upper(currency), Exponent(Upper(currency)))
  }

  function ParseStripeAt(value: int, currency: string, digits: Option<nat>): Result<Money, MoneyError> {
    if InHundredths(currency) && value % 100 != 0 then Err(InvalidLegacyUnits)
    else
      var minor := if InHundredths(currency) then value / 100 else value;
      if !(0 <= minor <= MAX_MINOR) then Err(OutOfRange)
      else if digits.None? then Err(UnsupportedCurrency)
      else Ok(Money(minor, currency, digits.value))
  }

  /** The integer that stands for an amount in Stripe's interface. */
  function StripeUnits(m: Money): int { if InHundredths(m.currency) then 100 * m.minor else m.minor }

  /** Stripe's integers and valid amounts correspond one to one: a value parses to exactly the amount it stands for. */
  lemma StripeParsesIff(value: int, currency: string, m: Money)
    ensures ParseStripe(value, currency) == Ok(m)
       <==> m.Valid() && m.currency == Upper(currency) && StripeUnits(m) == value
  {
    StripeParsesAt(value, Upper(currency), Exponent(Upper(currency)), m);
  }

  lemma StripeParsesAt(value: int, currency: string, digits: Option<nat>, m: Money)
    ensures ParseStripeAt(value, currency, digits) == Ok(m)
       <==> m.ValidAt(digits) && m.currency == currency && StripeUnits(m) == value
  {
  }
}
