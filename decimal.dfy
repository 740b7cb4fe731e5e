/**
 * The decimal counters kept as strings in the Workers KV store:
 * `String(count + 1)` when writing and `Number(value)` when reading.
 */
module Decimal {

  /** A JavaScript number as these counters can hold it: a non-negative
      integer, or NaN once a value that is not a numeral has been read. */
  datatype Number = Num(n: nat) | NaN

  predicate IsDigit(c: char) { '0' <= c <= '9' }

  predicate AllDigits(s: string) {
    forall k | 0 <= k < |s| :: IsDigit(s[k])
  }

  function DigitChar(d: nat): (c: char)
    requires d < 10
  {
    ('0' as int + d) as char
  }

  function DigitValue(c: char): nat
    requires IsDigit(c)
  {
    c as int - '0' as int
  }

  /** `String(n)` for a non-negative integer: its decimal numeral. */
  function DecimalString(n: nat): (s: string)
    ensures 1 <= |s| && AllDigits(s)
    ensures n == 0 <==> s == "0"
    decreases n
  {
    if n < 10 then [DigitChar(n)] else DecimalString(n / 10) + [DigitChar(n % 10)]
  }

  /** The value of a string of decimal digits (the empty string is 0). */
  function DigitsValue(s: string): nat
    requires AllDigits(s)
  {
    if s == [] then 0 else 10 * DigitsValue(s[..|s| - 1]) + DigitValue(s[|s| - 1])
  }

  /** `Number(s)` on the strings this code can find under a counter key:
      a string of decimal digits is read as its value (the empty string as
      0) and every other string as NaN. */
  function JsNumber(s: string): Number {
    if AllDigits(s) then Num(DigitsValue(s)) else NaN
  }

  /** `String(v)`. */
  function JsString(v: Number): string {
    match v
    case Num(n) => DecimalString(n)
    case NaN => "NaN"
  }

  /** `v + 1`; NaN stays NaN. */
  function Successor(v: Number): Number {
    match v
    case Num(n) => Num(n + 1)
    case NaN => NaN
  }

  /** Reading back a numeral written by `String(n)` gives `n`. */
  lemma {:induction false} DecimalRoundTrip(n: nat)
    ensures JsNumber(DecimalString(n)) == Num(n)
  {
    var s := DecimalString(n);
    if n < 10 {
      assert s[..|s| - 1] == [];
      assert DigitValue(s[0]) == n;
      assert DigitsValue(s) == n;
    } else {
      DecimalRoundTrip(n / 10);
      assert s[..|s| - 1] == DecimalString(n / 10);
      assert DigitValue(s[|s| - 1]) == n % 10;
    }
  }

  /** Every value a counter can hold survives `String` followed by `Number`. */
  lemma NumberRoundTrip(v: Number)
    ensures JsNumber(JsString(v)) == v
  {
    match v
    case Num(n) => DecimalRoundTrip(n);
    case NaN => assert !IsDigit("NaN"[0]);
  }
}
