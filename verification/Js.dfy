/** The fragment of JavaScript number semantics the handlers rely on. */
module Js {
  import opened Types

  /** A JavaScript number: an integer value or NaN. */
  datatype Num = Finite(value: int) | NaN

  predicate IsDigit(c: char) {
    '0' <= c <= '9'
  }

  predicate AllDigits(s: string) {
    forall i :: 0 <= i < |s| ==> IsDigit(s[i])
  }

  function DigitValue(c: char): (d: nat)
    requires IsDigit(c)
    ensures d <= 9
  {
    (c as int) - ('0' as int)
  }

  /** The value of a string of decimal digits, most significant first. */
  function DecimalValue(s: string): nat
    requires AllDigits(s)
  {
    if |s| == 0 then 0 else 10 * DecimalValue(s[..|s| - 1]) + DigitValue(s[|s| - 1])
  }

  /** `Number(s)` (and unary `+s`) on the strings the application produces:
      the empty string converts to 0, a digit string to its value, anything else to NaN. */
  function ToNumber(s: string): (r: Num)
    ensures s == "" ==> r == Finite(0)
    ensures |s| == 1 && IsDigit(s[0]) ==> r == Finite(DigitValue(s[0]))
    ensures r.Finite? ==> r.value >= 0
  {
    if AllDigits(s) then
      assert |s| == 1 ==> DecimalValue(s[..0]) == 0;
      Finite(DecimalValue(s))
    else NaN
  }

  /** `Number(v)` of a query value that may be `undefined`. */
  function ToNumberOrUndefined(v: Option<string>): Num {
    match v
    case None => NaN
    case Some(s) => ToNumber(s)
  }

  function Mul(a: Num, b: Num): Num {
    if a.Finite? && b.Finite? then Finite(a.value * b.value) else NaN
  }

  function Sub(a: Num, b: Num): Num {
    if a.Finite? && b.Finite? then Finite(a.value - b.value) else NaN
  }

  function DigitChar(d: nat): (c: char)
    requires d <= 9
    ensures IsDigit(c) && DigitValue(c) == d
  {
    (('0' as int) + d) as char
  }

  /** `String(n)` of a natural number. */
  function NatText(n: nat): (s: string)
    ensures |s| > 0 && AllDigits(s)
    ensures n < 10 <==> |s| == 1
    decreases n
  {
    if n < 10 then [DigitChar(n)] else NatText(n / 10) + [DigitChar(n % 10)]
  }

  /** `Number(String(n)) === n`: the value of an `<option>` rendered from an id
      converts back to that id. */
  lemma {:induction false} NatTextRoundTrip(n: nat)
    ensures ToNumber(NatText(n)) == Finite(n)
    decreases n
  {
    if n >= 10 {
      var t := NatText(n / 10);
      var s := NatText(n);
      NatTextRoundTrip(n / 10);
      assert s[..|s| - 1] == t;
      assert DecimalValue(s) == 10 * DecimalValue(t) + n % 10;
    }
  }
}
