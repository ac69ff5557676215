/** Value types and string helpers shared by the whole model of the Emby plugin. */
module Common {

  /** A value that may be absent (JavaScript `null` / `undefined`). */
  datatype Option<T> = None | Some(value: T) {
    function GetOr(default: T): T {
      if Some? then value else default
    }
  }

  /** The outcome of an operation that may throw. */
  datatype Result<T, E> = Ok(value: T) | Err(error: E)

  function Min(a: int, b: int): int { if a <= b then a else b }

  function Abs(x: int): int { if x < 0 then -x else x }

  // ---------------------------------------------------------------------------
  // Characters and strings

  /** `toLowerCase` restricted to ASCII letters. */
  function LowerChar(c: char): char {
    if 'A' <= c <= 'Z' then (c as int + 32) as char else c
  }

  function Lower(s: string): string {
    seq(|s|, i requires 0 <= i < |s| => LowerChar(s[i]))
  }

  predicate IsDigit(c: char) { '0' <= c <= '9' }

  predicate AllDigits(s: string) {
    forall i :: 0 <= i < |s| ==> IsDigit(s[i])
  }

  predicate StartsWith(s: string, prefix: string) {
    |prefix| <= |s| && s[..|prefix|] == prefix
  }

  /** `Array.prototype.join(sep)` over strings. */
  function Join(xs: seq<string>, sep: string): string
    decreases |xs|
  {
    if |xs| == 0 then ""
    else if |xs| == 1 then xs[0]
    else xs[0] + sep + Join(xs[1..], sep)
  }

  /** Joining with a separator one character longer adds one character per gap. */
  lemma {:induction false} JoinLengthGrows(xs: seq<string>, short: string, long: string)
    requires |long| == |short| + 1
    ensures |xs| > 0 ==> |Join(xs, long)| == |Join(xs, short)| + |xs| - 1
    decreases |xs|
  {
    if |xs| > 1 {
      JoinLengthGrows(xs[1..], short, long);
    }
  }

  // ---------------------------------------------------------------------------
  // Decimal numbers (`String(n)` on a non-negative integer)

  function DigitChar(d: nat): char
    requires d < 10
  {
    ('0' as int + d) as char
  }

  function DigitValue(c: char): nat
    requires IsDigit(c)
  {
    c as int - '0' as int
  }

  /** The value of a string of decimal digits. */
  function DecimalValue(s: string): nat
    requires AllDigits(s)
    decreases |s|
  {
    if s == [] then 0 else 10 * DecimalValue(s[..|s| - 1]) + DigitValue(s[|s| - 1])
  }

  /** `String(n)`: the shortest decimal spelling of `n`. */
  function NatToString(n: nat): (r: string)
    ensures |r| > 0 && AllDigits(r)
    ensures |r| > 1 ==> r[0] != '0'
    decreases n
  {
    if n < 10 then [DigitChar(n)] else NatToString(n / 10) + [DigitChar(n % 10)]
  }

  /** Reading back the decimal spelling gives the number. */
  lemma {:induction false} NatToStringRoundTrip(n: nat)
    ensures DecimalValue(NatToString(n)) == n
    decreases n
  {
    if n >= 10 {
      var s := NatToString(n / 10);
      NatToStringRoundTrip(n / 10);
      assert NatToString(n)[..|NatToString(n)| - 1] == s;
    }
  }

  // ---------------------------------------------------------------------------
  // Rounding (`Math.round(x / d)` for x >= 0)

  /** `r` is `x / d` rounded to the nearest integer, halves rounded up. */
  predicate RoundsToNearest(x: nat, d: nat, r: nat)
    requires d > 0
  {
    2 * r * d <= 2 * x + d < 2 * r * d + 2 * d
  }

  function RoundDiv(x: nat, d: nat): (r: nat)
    requires d > 0
    ensures RoundsToNearest(x, d, r)
  {
    var q := (2 * x + d) / (2 * d);
    assert q * (2 * d) <= 2 * x + d < q * (2 * d) + 2 * d by {
      DivBounds(2 * x + d, 2 * d);
    }
    q
  }

  lemma DivBounds(a: nat, b: nat)
    requires b > 0
    ensures (a / b) * b <= a < (a / b) * b + b
  {
  }
}
