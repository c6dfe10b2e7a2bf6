/** The currency table stripe-presentment-2026-09-05: how many fraction digits an amount carries. */
module Currency {
  import opened Wrappers

  const TWO_DIGITS: string :=
    "AED AFN ALL AMD ANG AOA ARS AUD AWG AZN BAM BBD BDT BGN BMD BND BOB BRL BSD BWP BYN BZD CAD CDF " +
    "CHF CNY COP CRC CVE CZK DKK DOP DZD EGP ETB EUR FJD FKP GBP GEL GIP GMD GTQ GYD HKD HNL HTG HUF " +
    "IDR ILS INR JMD KES KGS KHR KYD KZT LAK LBP LKR LRD LSL MAD MDL MGA MKD MMK MNT MOP MUR MVR MWK " +
    "MXN MYR MZN NAD NGN NIO NOK NPR NZD PAB PEN PGK PHP PKR PLN QAR RON RSD RUB SAR SBD SCR SEK SGD " +
    "SHP SLE SOS SRD STN SZL THB TJS TOP TRY TTD TWD TZS UAH USD UYU UZS WST XCD YER ZAR ZMW"
  const NO_DIGITS: string :=
    "BIF CLP DJF GNF " + "JPY KMF KRW PYG RWF VND VUV XAF XOF XPF ISK UGX"
  const THREE_DIGITS: string :=
    "BHD JOD KWD OMR TND"

  /** Whether `code` is one of the words, separated by single spaces, of `words`. */
  predicate Listed(code: string, words: string)
    decreases |words|
  {
    |words| >= 3 && (words[..3] == code || (|words| > 4 && Listed(code, words[4..])))
  }

  function Exponent(currency: string): (e: Option<nat>)
    ensures e.Some? ==> e.value in {0, 2, 3}
  {
    if Listed(currency, NO_DIGITS) then Some(0)
    else if Listed(currency, THREE_DIGITS) then Some(3)
    else if Listed(currency, TWO_DIGITS) then Some(2)
    else None
  }
}
