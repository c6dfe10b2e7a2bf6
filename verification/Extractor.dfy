/** The plugin's decimal handling, and its agreement with the server's parser on refund totals. */
module Extractor {
  import opened Wrappers
  import opened Currency
  import opened Money

  datatype ExtractError = AmountFormatUnsupported | RefundPrecisionUnsupported | RefundTotalOverflow

  /** PHP's `rtrim(s, c)`. */
  function Rtrim(s: string, c: char): string {
    if s == [] || s[|s| - 1] != c then s else Rtrim(s[..|s| - 1], c)
  }

  /** The amount text with trailing fraction zeros, and then a bare point, removed. */
  function DecimalText(value: string): Result<string, ExtractError> {
    if !UnsignedDecimal(value) then Err(AmountFormatUnsupported)
    else Ok(if Point(value) < |value| then Rtrim(Rtrim(value, '0'), '.') else value)
  }

  lemma {:induction false} RtrimAppend(a: string, b: string, c: char)
    ensures Rtrim(a + b, c) == if Rtrim(b, c) == [] then Rtrim(a, c) else a + Rtrim(b, c)
  {
    if b == [] {
      assert a + b == a;
    } else if b[|b| - 1] == c {
      assert (a + b)[..|a + b| - 1] == a + b[..|b| - 1];
      RtrimAppend(a, b[..|b| - 1], c);
    }
  }

  lemma {:induction false} RtrimDigits(s: string)
    requires IsDigits(s)
    ensures IsDigits(Rtrim(s, '0')) && Rtrim(s, '.') == s
    ensures |Rtrim(s, '0')| <= |s| && PadRight(Rtrim(s, '0'), |s|) == s
    ensures Rtrim(s, '0') == [] || Rtrim(s, '0')[|Rtrim(s, '0')| - 1] != '0'
  {
    if s != [] && s[|s| - 1] == '0' {
      var t := s[..|s| - 1];
      RtrimDigits(t);
      PadRightOneMore(Rtrim(t, '0'), |t|);
      assert t + "0" == s;
    }
  }

  lemma {:induction false} PadRightOneMore(s: string, width: nat)
    requires |s| <= width
    ensures PadRight(s, width + 1) == PadRight(s, width) + "0"
    decreases width - |s|
  {
    if |s| < width {
      PadRightOneMore(s + "0", width);
    }
  }

  /** What the normal form of `whole.fraction` looks like. */
  lemma NormalForm(whole: string, fraction: string)
    requires IsDigits(whole) && whole != [] && (whole == "0" || whole[0] != '0')
    requires IsDigits(fraction) && fraction != []
    ensures var kept := Rtrim(fraction, '0');
      DecimalText(whole + "." + fraction) == Ok(if kept == [] then whole else whole + "." + kept)
  {
    var text, kept := whole + "." + fraction, Rtrim(fraction, '0');
    SplitOf(whole, fraction);
    assert UnsignedDecimal(text);
    RtrimDigits(fraction);
    RtrimAppend(whole + ".", fraction, '0');
    if kept == [] {
      RtrimDigits(whole);
      RtrimAppend(whole, ".", '.');
      assert Rtrim(".", '.') == [] && Rtrim(whole + ".", '0') == whole + ".";
    } else {
      assert Rtrim(whole + "." + kept, '.') == whole + "." + kept;
    }
  }

  /** The value of a text in thousandths. */
  function Thousandths(text: string): nat
    requires UnsignedDecimal(text) && |Fraction(text)| <= 3
  {
    MinorUnits(text, 3)
  }

  /** One refund amount, as `sum_refunds` reads it. */
  function Amount(value: string): Result<nat, ExtractError> {
    match DecimalText(value)
    case Err(e) => Err(e)
    case Ok(text) =>
      if !UnsignedDecimal(text) || |Fraction(text)| > 3 || |Whole(text)| > 12 then Err(RefundPrecisionUnsupported)
      else Ok(Thousandths(text))
  }

  /** The running total over the amounts, failing at the first amount that cannot be added. */
  function Total(amounts: seq<string>): (r: Result<nat, ExtractError>)
    ensures r.Ok? ==> r.value <= MAX_MINOR
  {
    if amounts == [] then Ok(0)
    else
      match Total(amounts[..|amounts| - 1])
      case Err(e) => Err(e)
      case Ok(sum) =>
        Plus(sum, Amount(amounts[|amounts| - 1]))
  }

  function Plus(sum: nat, amount: Result<nat, ExtractError>): (r: Result<nat, ExtractError>)
    ensures r.Ok? ==> r.value <= MAX_MINOR
  {
    match amount
    case Err(e) => Err(e)
    case Ok(minor) => if sum > MAX_MINOR - minor then Err(RefundTotalOverflow) else Ok(sum + minor)
  }

  function TextOf(sum: nat): string {
    Print(sum / 1000) + "." + PadLeft(Print(sum % 1000), 3)
  }

  /** `text` is the normal form of `sum` thousandths: no trailing fraction zeros, short enough to send. */
  ghost predicate Renders(text: string, sum: nat) {
    && UnsignedDecimal(text) && |text| <= 24 && |Fraction(text)| <= 3
    && Thousandths(text) == sum
    && (Fraction(text) == [] || Fraction(text)[|Fraction(text)| - 1] != '0')
  }

  method SumRefunds(amounts: seq<string>) returns (r: Result<string, ExtractError>)
    ensures Total(amounts).Err? ==> r == Err(Total(amounts).error)
    ensures Total(amounts).Ok? ==> r.Ok? && Renders(r.value, Total(amounts).value)
  {
    var sum := 0;
    for i := 0 to |amounts|
      invariant Total(amounts[..i]) == Ok(sum)
    {
      TotalStep(amounts, i);
      var amount := Amount(amounts[i]);
      if amount.Err? {
        return Err(amount.error);
      }
      if sum > MAX_MINOR - amount.value {
        return Err(RefundTotalOverflow);
      }
      sum := sum + amount.value;
    }
    assert amounts[..|amounts|] == amounts;
    TotalText(sum);
    r := DecimalText(TextOf(sum));
  }

  /** One step of the running total; a failing step decides the whole call. */
  lemma TotalStep(amounts: seq<string>, i: nat)
    requires i < |amounts| && Total(amounts[..i]).Ok?
    ensures Total(amounts[..i + 1]) == Plus(Total(amounts[..i]).value, Amount(amounts[i]))
    ensures Total(amounts[..i + 1]).Err? ==> Total(amounts) == Total(amounts[..i + 1])
  {
    assert amounts[..i + 1][..i] == amounts[..i];
    if Total(amounts[..i + 1]).Err? {
      TotalStops(amounts, i + 1);
    }
  }

  lemma {:induction false} TotalStops(amounts: seq<string>, k: nat)
    requires k <= |amounts| && Total(amounts[..k]).Err?
    ensures Total(amounts) == Total(amounts[..k])
  {
    if k == |amounts| {
      assert amounts[..k] == amounts;
    } else {
      var init := amounts[..|amounts| - 1];
      assert init[..k] == amounts[..k];
      TotalStops(init, k);
    }
  }

  /** A text whose fraction pads to three given digits is worth as much as with those digits. */
  lemma KeptValue(whole: string, kept: string, fraction: string)
    requires PlainWhole(whole) && IsDigits(kept) && kept != [] && |kept| <= 3
    requires IsDigits(fraction) && PadRight(kept, 3) == fraction
    ensures var text := whole + "." + kept;
      && UnsignedDecimal(text) && Fraction(text) == kept
      && Thousandths(text) == ParseInt(whole) * Pow10(3) + ParseInt(fraction)
  {
    hide Point, ParseInt, Pow10;
    SplitOf(whole, kept);
  }

  lemma WholeValue(whole: string, fraction: string)
    requires PlainWhole(whole) && IsDigits(fraction) && PadRight("", 3) == fraction
    ensures UnsignedDecimal(whole) && Fraction(whole) == ""
    ensures Thousandths(whole) == ParseInt(whole) * Pow10(3) + ParseInt(fraction)
  {
    hide Point, ParseInt, Pow10;
    SplitOfWhole(whole);
  }

  /** Normalising a text with three fraction digits never fails and keeps the value. */
  lemma NormalValue(whole: string, fraction: string)
    requires PlainWhole(whole) && |whole| <= 16 && IsDigits(fraction) && |fraction| == 3
    ensures var r := DecimalText(whole + "." + fraction);
      r.Ok? && Renders(r.value, ParseInt(whole) * Pow10(3) + ParseInt(fraction))
  {
    hide ParseInt, Point, Pow10, DecimalText, Thousandths, UnsignedDecimal, Fraction;
    NormalForm(whole, fraction);
    RtrimDigits(fraction);
    var kept := Rtrim(fraction, '0');
    if kept == [] {
      WholeValue(whole, fraction);
    } else {
      KeptValue(whole, kept, fraction);
    }
  }

  /** Printing a total in thousandths and normalising it never fails and keeps the value. */
  lemma TotalText(sum: nat)
    requires sum <= MAX_MINOR
    ensures var r := DecimalText(TextOf(sum));
      r.Ok? && Renders(r.value, sum)
  {
    hide DecimalText, Renders, Print, ParseInt, PadLeft;
    Pow10Known();
    Pow10Large();
    PrintParses(sum / 1000);
    PrintFits(sum / 1000, 16);
    FractionText(sum % 1000, 3);
    NormalValue(Print(sum / 1000), PadLeft(Print(sum % 1000), 3));
  }

  // ----- agreement with the server -----

  /** Minor units of a currency with `e` fraction digits, in thousandths. */
  function Scaled(minor: int, e: nat): int {
    if e == 0 then 1000 * minor else if e == 2 then 10 * minor else minor
  }

  /** The value of a text by the length of its fraction: only constant factors remain. */
  lemma ThousandthsByLength(text: string)
    requires UnsignedDecimal(text) && |Fraction(text)| <= 3
    ensures var w, p, k := ParseInt(Whole(text)), ParseInt(Fraction(text)), |Fraction(text)|;
      Thousandths(text)
      == 1000 * w + (if k == 0 then 1000 * p else if k == 1 then 100 * p else if k == 2 then 10 * p else p)
  {
    Pow10Known();
    var f := Fraction(text);
    PadRightParses(f, 3);
    ByConstant(ParseInt(f), 3 - |f|);
  }

  lemma ByConstant(p: nat, k: nat)
    requires k <= 3
    ensures p * Pow10(k) == if k == 0 then p else if k == 1 then 10 * p else if k == 2 then 100 * p else 1000 * p
  {
    Pow10Known();
  }

  /** A text the server accepts is worth the same number of thousandths on both ends. */
  lemma ServerValue(text: string, e: nat)
    requires e in {0, 2, 3} && UnsignedDecimal(text) && |Fraction(text)| <= e
    ensures Thousandths(text) == Scaled(MinorUnits(text, e), e)
  {
    ThousandthsByLength(text);
    var f := Fraction(text);
    PadRightParses(f, e);
    ByConstant(ParseInt(f), e - |f|);
    ByConstant(ParseInt(Whole(text)), e);
    assert f == [] ==> ParseInt(f) == 0;
  }

  lemma {:induction false} ParseIntBound(s: string)
    requires IsDigits(s)
    ensures ParseInt(s) < Pow10(|s|)
  {
    if s != [] {
      ParseIntBound(s[..|s| - 1]);
    }
  }

  /** Divisibility of the total shows up as a zero at the end of its fraction. */
  lemma LastDigitZero(text: string, e: nat, minor: int)
    requires e in {0, 2, 3} && UnsignedDecimal(text) && e < |Fraction(text)| <= 3
    requires Thousandths(text) == Scaled(minor, e)
    ensures Fraction(text)[|Fraction(text)| - 1] == '0'
  {
    Pow10Known();
    ThousandthsByLength(text);
    var f, w := Fraction(text), ParseInt(Whole(text));
    ParseIntBound(f);
    var p, q, last := ParseInt(f), ParseInt(f[..|f| - 1]), (f[|f| - 1] - '0') as nat;
    assert p == 10 * q + last;
    if e == 0 {
      FractionVanishes(minor - w, p, |f|);
    } else {
      assert |f| == 3 && 10 * (minor - 100 * w - q) == last;
    }
  }

  lemma FractionVanishes(d: int, p: nat, k: nat)
    requires 1 <= k <= 3 && p < Pow10(k)
    requires 1000 * d == if k == 1 then 100 * p else if k == 2 then 10 * p else p
    ensures p == 0
  {
    Pow10Known();
  }

  /** The server reads a rendered total as exactly that many minor units. */
  lemma RenderedParses(text: string, currency: string, e: nat, n: nat)
    requires e in {0, 2, 3} && Scaled(n, e) <= MAX_MINOR && Renders(text, Scaled(n, e))
    ensures ParseAt(text, currency, Some(e)) == Ok(Money(n, currency, e))
  {
    if |Fraction(text)| > e {
      LastDigitZero(text, e, n);
    }
    ServerValue(text, e);
    assert MinorUnits(text, e) == n;
  }

  predicate ServerAccepts(amount: string, currency: string, digits: Option<nat>) {
    DecimalText(amount).Ok? && ParseAt(DecimalText(amount).value, currency, digits).Ok?
  }

  function Minor(amount: string, currency: string, digits: Option<nat>): int
    requires ServerAccepts(amount, currency, digits)
  {
    ParseAt(DecimalText(amount).value, currency, digits).value.minor
  }

  /** The sum of the server's parses of the separate amounts. */
  function MinorSum(amounts: seq<string>, currency: string, digits: Option<nat>): int
    requires forall i :: 0 <= i < |amounts| ==> ServerAccepts(amounts[i], currency, digits)
  {
    if amounts == [] then 0
    else
      var last := amounts[|amounts| - 1];
      assert ServerAccepts(last, currency, digits);
      MinorSum(amounts[..|amounts| - 1], currency, digits) + Minor(last, currency, digits)
  }

  lemma AmountIsScaled(amount: string, currency: string, e: nat)
    requires e in {0, 2, 3} && ServerAccepts(amount, currency, Some(e)) && Amount(amount).Ok?
    ensures Minor(amount, currency, Some(e)) >= 0
    ensures Amount(amount).value == Scaled(Minor(amount, currency, Some(e)), e)
  {
    ServerValue(DecimalText(amount).value, e);
  }

  lemma {:induction false} TotalIsSum(amounts: seq<string>, currency: string, e: nat)
    requires e in {0, 2, 3}
    requires forall i :: 0 <= i < |amounts| ==> ServerAccepts(amounts[i], currency, Some(e))
    requires Total(amounts).Ok?
    ensures MinorSum(amounts, currency, Some(e)) >= 0
    ensures Total(amounts).value == Scaled(MinorSum(amounts, currency, Some(e)), e)
  {
    if amounts != [] {
      var n := |amounts| - 1;
      var init, last := amounts[..n], amounts[n];
      assert ServerAccepts(last, currency, Some(e));
      TotalIsSum(init, currency, e);
      AmountIsScaled(last, currency, e);
    }
  }

  /** The amount, as it is sent, has no more fraction digits than a currency with `e` of them allows. */
  predicate FitsCurrency(amount: string, e: nat) {
    DecimalText(amount).Ok? && |Fraction(DecimalText(amount).value)| <= e
  }

  /** Of the amounts that the plugin can add up the server accepts exactly those that fit the currency. */
  lemma ServerAcceptsIff(amount: string, currency: string, e: nat)
    requires e in {0, 2, 3} && Amount(amount).Ok?
    ensures ServerAccepts(amount, currency, Some(e)) <==> FitsCurrency(amount, e)
  {
    var text := DecimalText(amount).value;
    if |Fraction(text)| <= e {
      ServerValue(text, e);
      AmountBound(text);
    }
  }

  lemma AmountBound(text: string)
    requires UnsignedDecimal(text) && |Fraction(text)| <= 3 && |Whole(text)| <= 12
    ensures |text| <= 16 && Thousandths(text) < 1_000_000_000_000_000
  {
    var w, f := Whole(text), Fraction(text);
    ThousandthsByLength(text);
    ParseIntBound(w);
    ParseIntBound(f);
    Pow10Grows(|w|, 12);
    Pow10Known();
    assert Pow10(6) == 1_000_000 && Pow10(9) == 1_000_000_000;
    assert text == w + text[|w|..];
  }

  lemma {:induction false} Pow10Grows(a: nat, b: nat)
    requires a <= b
    ensures Pow10(a) <= Pow10(b)
  {
    if a < b { Pow10Grows(a, b - 1); }
  }

  lemma {:induction false} EachAmountAdds(amounts: seq<string>, i: nat)
    requires Total(amounts).Ok? && i < |amounts|
    ensures Amount(amounts[i]).Ok?
  {
    if i < |amounts| - 1 { EachAmountAdds(amounts[..|amounts| - 1], i); }
  }

  /**
   When the plugin can add up an order's refunds and each fits the currency, the server accepts all of them, and its
   parse of the plugin's total equals the sum of its parses of the parts.
   */
  lemma RefundTotalsAgree(amounts: seq<string>, total: string, currency: string)
    requires Total(amounts).Ok? && Renders(total, Total(amounts).value)
    requires Exponent(currency).Some?
    requires forall i :: 0 <= i < |amounts| ==> FitsCurrency(amounts[i], Exponent(currency).value)
    ensures forall i :: 0 <= i < |amounts| ==> ServerAccepts(amounts[i], currency, Exponent(currency))
    ensures var sum := MinorSum(amounts, currency, Exponent(currency));
      ParseWoo(total, currency) == Ok(Money(sum, currency, Exponent(currency).value))
  {
    hide FitsCurrency, ServerAccepts, Total, Renders, Amount;
    var e := Exponent(currency).value;
    forall i | 0 <= i < |amounts| ensures ServerAccepts(amounts[i], currency, Some(e)) {
      EachAmountAdds(amounts, i);
      ServerAcceptsIff(amounts[i], currency, e);
    }
    TotalsAgreeAt(amounts, total, currency, e);
  }

  lemma TotalsAgreeAt(amounts: seq<string>, total: string, currency: string, e: nat)
    requires Total(amounts).Ok? && Renders(total, Total(amounts).value) && e in {0, 2, 3}
    requires forall i :: 0 <= i < |amounts| ==> ServerAccepts(amounts[i], currency, Some(e))
    ensures ParseAt(total, currency, Some(e)) == Ok(Money(MinorSum(amounts, currency, Some(e)), currency, e))
  {
    TotalIsSum(amounts, currency, e);
    RenderedParses(total, currency, e, MinorSum(amounts, currency, Some(e)));
  }

  // ----- what the plugin can add up -----

  lemma {:induction false} PadRightIs(s: string, width: nat)
    requires |s| <= width
    ensures |PadRight(s, width)| == width
    ensures forall i :: 0 <= i < width ==> PadRight(s, width)[i] == if i < |s| then s[i] else '0'
    decreases width - |s|
  {
    if |s| < width { PadRightIs(s + "0", width); }
  }

  lemma {:induction false} Pow10Add(a: nat, b: nat)
    ensures Pow10(a + b) == Pow10(a) * Pow10(b)
  {
    if a > 0 {
      Pow10Add(a - 1, b);
      assert Pow10(a + b) == 10 * (Pow10(a - 1) * Pow10(b)) == (10 * Pow10(a - 1)) * Pow10(b);
    }
  }

  /** No digit but zeros after the third. */
  predicate ThreeDigits(fraction: string) { forall i :: 3 <= i < |fraction| ==> fraction[i] == '0' }

  lemma KeptFits(fraction: string)
    requires IsDigits(fraction)
    ensures |Rtrim(fraction, '0')| <= 3 <==> ThreeDigits(fraction)
  {
    RtrimDigits(fraction);
    var kept := Rtrim(fraction, '0');
    PadRightIs(kept, |fraction|);
    if |kept| > 3 { assert fraction[|kept| - 1] == kept[|kept| - 1]; }
  }

  /** The text in thousandths: exactly what it says. */
  ghost predicate Says(text: string, whole: string, fraction: string, n: nat) {
    && Writes(text, whole, fraction)
    && n * Pow10(|fraction|) == 1000 * (ParseInt(whole) * Pow10(|fraction|) + ParseInt(fraction))
  }

  lemma KeptSays(w: nat, k: nat, kept: nat, f: nat)
    requires k <= 3 && k <= f
    ensures (w * 1000 + kept * Pow10(3 - k)) * Pow10(f) == 1000 * (w * Pow10(f) + kept * Pow10(f - k))
  {
    Pow10Add(3 - k, f);
    Pow10Add(3, f - k);
    ThousandIs();
    Scales(w * 1000, kept * Pow10(3 - k), w, kept, Pow10(3 - k), Pow10(f), Pow10(f - k));
  }

  lemma Scales(u: nat, v: nat, w: nat, kept: nat, a: nat, b: nat, c: nat)
    requires a * b == 1000 * c && u == w * 1000 && v == kept * a
    ensures (u + v) * b == 1000 * (w * b + kept * c)
  {
    Associates(kept, a, b);
    Associates(kept, 1000, c);
    Associates(1000, kept, c);
    Associates(1000, w, b);
    assert (u + v) * b == u * b + v * b;
  }

  lemma Associates(x: nat, y: nat, z: nat)
    ensures (x * y) * z == x * (y * z)
  {
  }

  /**
   A refund amount can be added exactly when it writes a plain number of at most twelve digits before the point, with
   nothing but zeros after the third digit behind it; and what is added is what it says, in thousandths.
   */
  lemma AmountAddsIff(text: string)
    ensures Amount(text).Ok? <==>
              exists whole, fraction :: Writes(text, whole, fraction) && |whole| <= 12 && ThreeDigits(fraction)
    ensures forall whole, fraction :: Writes(text, whole, fraction) && Amount(text).Ok? ==>
              Says(text, whole, fraction, Amount(text).value)
    ensures Amount(text) == Err(AmountFormatUnsupported) <==>
              !exists whole, fraction :: Writes(text, whole, fraction)
  {
    hide UnsignedDecimal, Writes, Amount, ThreeDigits, Says;
    WritesIff(text);
    UnwrittenFails(text);
    forall whole, fraction | Writes(text, whole, fraction)
      ensures Amount(text).Ok? <==> |whole| <= 12 && ThreeDigits(fraction)
      ensures Amount(text).Ok? ==> Says(text, whole, fraction, Amount(text).value)
      ensures Amount(text) != Err(AmountFormatUnsupported)
    {
      WrittenSplits(text, whole, fraction);
      if fraction == "" { PlainAdds(text, whole); } else { PointAdds(text, whole, fraction); }
    }
  }

  lemma UnwrittenFails(text: string)
    ensures !UnsignedDecimal(text) ==> Amount(text) == Err(AmountFormatUnsupported)
  {
    hide UnsignedDecimal;
  }

  lemma PlainAdds(text: string, whole: string)
    requires Writes(text, whole, "")
    ensures Amount(text).Ok? <==> |whole| <= 12 && ThreeDigits("")
    ensures Amount(text).Ok? ==> Says(text, whole, "", Amount(text).value)
    ensures Amount(text) != Err(AmountFormatUnsupported)
  {
    hide Point, MinorUnits;
    SplitOfWhole(whole);
    UnitsAre(text, 3);
    assert Pow10(3) == 1000 && Pow10(0) == 1;
  }

  lemma PointAdds(text: string, whole: string, fraction: string)
    requires Writes(text, whole, fraction) && fraction != ""
    ensures Amount(text).Ok? <==> |whole| <= 12 && ThreeDigits(fraction)
    ensures Amount(text).Ok? ==> Says(text, whole, fraction, Amount(text).value)
    ensures Amount(text) != Err(AmountFormatUnsupported)
  {
    hide Point, Rtrim, MinorUnits, ThreeDigits, UnsignedDecimal, Says, DecimalText, ParseInt, Pow10, Whole, Fraction;
    var kept := Rtrim(fraction, '0');
    NormalForm(whole, fraction);
    RtrimDigits(fraction);
    KeptFits(fraction);
    var normal := if kept == "" then whole else whole + "." + kept;
    assert Writes(normal, whole, kept);
    WrittenSplits(normal, whole, kept);
    if |kept| <= 3 && |whole| <= 12 {
      UnitsAre(normal, 3);
      PadRightParses(kept, |fraction|);
      KeptSays(ParseInt(whole), |kept|, ParseInt(kept), |fraction|);
      ThousandIs();
      assert Amount(text).value == ParseInt(whole) * 1000 + ParseInt(kept) * Pow10(3 - |kept|);
      SaysIs(text, whole, fraction, Amount(text).value);
    }
  }

  lemma SaysIs(text: string, whole: string, fraction: string, n: nat)
    requires Writes(text, whole, fraction)
    requires n * Pow10(|fraction|) == 1000 * (ParseInt(whole) * Pow10(|fraction|) + ParseInt(fraction))
    ensures Says(text, whole, fraction, n)
  {
  }

  lemma ThousandIs()
    ensures Pow10(3) == 1000
  {
  }

  /** The sum of amounts that can each be added. */
  function SumOf(amounts: seq<string>): nat
    requires forall i :: 0 <= i < |amounts| ==> Amount(amounts[i]).Ok?
  {
    if amounts == [] then 0
    else SumOf(amounts[..|amounts| - 1]) + Amount(amounts[|amounts| - 1]).value
  }

  /** The total is the sum, and it fails exactly on an amount that cannot be added or beyond the largest integer. */
  lemma {:induction false} TotalIff(amounts: seq<string>)
    ensures Total(amounts).Ok? <==>
              && (forall i :: 0 <= i < |amounts| ==> Amount(amounts[i]).Ok?)
              && SumOf(amounts) <= 9_223_372_036_854_775_807
    ensures Total(amounts).Ok? ==> Total(amounts).value == SumOf(amounts)
  {
    hide Amount;
    if amounts != [] { TotalIff(amounts[..|amounts| - 1]); }
  }
}
