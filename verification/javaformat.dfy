/**
 * Java's fixed-width integer types and the two `String.formatted` conversions the
 * publisher uses: `%d` on an `int` and `%s` on a possibly-null `String`.
 */
module JavaFormat {
  import opened Wrappers

  /** Java `int` / `Integer`. */
  type Int32 = x: int | -0x8000_0000 <= x < 0x8000_0000

  /** Java `long` / `Long`. */
  type Int64 = x: int | -0x8000_0000_0000_0000 <= x < 0x8000_0000_0000_0000

  /** Java `byte` values of a payload, as unsigned octets. */
  type byte = x: int | 0 <= x < 256

  predicate IsDigit(c: char) {
    '0' <= c <= '9'
  }

  predicate AllDigits(s: string) {
    forall i :: 0 <= i < |s| ==> IsDigit(s[i])
  }

  function DigitChar(d: int): (c: char)
    requires 0 <= d < 10
    ensures IsDigit(c) && (c as int) - ('0' as int) == d
  {
    (('0' as int) + d) as char
  }

  /** Decimal digits of `n`, most significant first, with no leading zero. */
  function NatToDecimal(n: nat): (s: string)
    ensures 1 <= |s|
    ensures AllDigits(s)
    ensures s[0] == '0' ==> n == 0 && s == "0"
    decreases n
  {
    if n < 10 then [DigitChar(n)] else NatToDecimal(n / 10) + [DigitChar(n % 10)]
  }

  /** The number a string of decimal digits denotes: the reference reading of `NatToDecimal`. */
  function DecimalValue(s: string): nat
    requires AllDigits(s)
    decreases |s|
  {
    if |s| == 0 then 0
    else 10 * DecimalValue(s[..|s| - 1]) + ((s[|s| - 1] as int) - ('0' as int))
  }

  /** Reading the printed digits back gives the number that was printed. */
  lemma {:induction false} DecimalRoundTrip(n: nat)
    ensures DecimalValue(NatToDecimal(n)) == n
    decreases n
  {
    if n >= 10 {
      var s := NatToDecimal(n);
      var prefix := NatToDecimal(n / 10);
      assert s == prefix + [DigitChar(n % 10)];
      assert s[..|s| - 1] == prefix;
      DecimalRoundTrip(n / 10);
    }
  }

  /** `String.format("%d", i)`: an optional minus sign followed by the magnitude's digits. */
  function FormatInt(i: Int32): (s: string)
    ensures i < 0 <==> (|s| > 0 && s[0] == '-')
    ensures i >= 0 ==> AllDigits(s) && DecimalValue(s) == i
    ensures i < 0 ==> AllDigits(s[1..]) && DecimalValue(s[1..]) == -(i as int)
    ensures i >= 0 ==> 1 <= |s| && (s[0] == '0' ==> s == "0")
    ensures i < 0 ==> 2 <= |s| && s[1] != '0'
  {
    DecimalRoundTrip(if i < 0 then -(i as int) else i);
    if i < 0 then "-" + NatToDecimal(-(i as int)) else NatToDecimal(i)
  }

  /** `String.format("%s", s)`: a null reference prints as the four letters `null`. */
  function FormatString(s: Option<string>): (r: string)
    ensures s.Some? ==> r == s.value
    ensures s.None? ==> r == "null"
  {
    match s
    case Some(v) => v
    case None => "null"
  }
}
