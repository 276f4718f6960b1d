/** Small models of JavaScript values used by both components. */
module Js {

  /** `undefined`/`null` versus a present value. */
  datatype Option<+T> = None | Some(value: T)

  /** A JavaScript number, as far as the tick timer needs one: a finite value,
      `NaN`, or one of the two infinities. */
  datatype Number = Finite(value: real) | NaN | Infinity(positive: bool)

  /** `!n` holds in JavaScript exactly for the falsy numbers, 0 and NaN:
      both infinities are truthy, and a finite number is falsy iff it is 0. */
  function Falsy(n: Number): (b: bool)
    ensures n.Infinity? ==> !b
    ensures n.NaN? ==> b
    ensures n.Finite? ==> (b <==> n.value == 0.0)
  {
    n == Finite(0.0) || n.NaN?
  }

  predicate IsDigit(c: char)
  {
    '0' <= c <= '9'
  }

  function DigitChar(d: nat): (c: char)
    requires d < 10
    ensures IsDigit(c) && c as int - '0' as int == d
  {
    ('0' as int + d) as char
  }

  /** The number a string of decimal digits denotes, most significant digit
      first. */
  function DigitsValue(s: string): nat
    requires forall i :: 0 <= i < |s| ==> IsDigit(s[i])
    decreases |s|
  {
    if s == [] then 0
    else
      assert IsDigit(s[|s| - 1]);
      DigitsValue(s[..|s| - 1]) * 10 + (s[|s| - 1] as int - '0' as int)
  }

  /** The string JavaScript prints for a non-negative integer
      (template literals, `+` with a string): its decimal digits, with no
      leading zero, denoting exactly `n`. */
  function Decimal(n: nat): (s: string)
    ensures |s| >= 1
    ensures forall i :: 0 <= i < |s| ==> IsDigit(s[i])
    ensures s[0] == '0' <==> n == 0
    ensures DigitsValue(s) == n
    decreases n
  {
    if n < 10 then [DigitChar(n)]
    else
      var prefix := Decimal(n / 10);
      var s := prefix + [DigitChar(n % 10)];
      assert s[..|s| - 1] == prefix;
      s
  }

  predicate StartsWith(s: string, prefix: string)
  {
    |prefix| <= |s| && s[..|prefix|] == prefix
  }
}
