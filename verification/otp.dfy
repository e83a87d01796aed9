/**
 * Decimal rendering of naturals (`Number.prototype.toString()` on a
 * non-negative integer) and the four-digit one-time code
 * `Math.floor(1000 + Math.random() * 9000).toString()` that both the sign-in
 * page and the booking page generate. `Math.random()` is an input in [0, 1).
 */
module Otp {

  predicate IsDigit(c: char) {
    '0' <= c <= '9'
  }

  predicate AllDigits(s: string) {
    forall i :: 0 <= i < |s| ==> IsDigit(s[i])
  }

  function DigitChar(d: nat): (c: char)
    requires d < 10
    ensures IsDigit(c) && c as int - '0' as int == d
  {
    (d + '0' as int) as char
  }

  /** The shortest decimal rendering of `n`. */
  function ToDecimal(n: nat): (s: string)
    ensures |s| >= 1 && AllDigits(s)
    ensures n > 0 ==> s[0] != '0'
    decreases n
  {
    if n < 10 then [DigitChar(n)] else ToDecimal(n / 10) + [DigitChar(n % 10)]
  }

  /** The number a string of decimal digits denotes. */
  function ValueOf(s: string): nat
    requires AllDigits(s)
    decreases |s|
  {
    if s == [] then 0
    else ValueOf(s[..|s| - 1]) * 10 + (s[|s| - 1] as int - '0' as int)
  }

  lemma {:induction false} DecimalRoundTrip(n: nat)
    ensures ValueOf(ToDecimal(n)) == n
    decreases n
  {
    if n >= 10 {
      DecimalRoundTrip(n / 10);
      var s := ToDecimal(n);
      assert s[..|s| - 1] == ToDecimal(n / 10);
    }
  }

  /** Every natural from 10^(k-1) up to 10^k - 1 renders with exactly k digits; here k = 4. */
  lemma {:induction false} DecimalLength(n: nat)
    ensures n < 10 ==> |ToDecimal(n)| == 1
    ensures 10 <= n < 100 ==> |ToDecimal(n)| == 2
    ensures 100 <= n < 1000 ==> |ToDecimal(n)| == 3
    ensures 1000 <= n < 10000 ==> |ToDecimal(n)| == 4
    decreases n
  {
    if n >= 10 {
      DecimalLength(n / 10);
    }
  }

  /** `Math.floor(1000 + random * 9000)` for `random` in [0, 1). */
  function Draw(random: real): (n: nat)
    requires 0.0 <= random < 1.0
    ensures 1000 <= n <= 9999
  {
    (1000.0 + random * 9000.0).Floor
  }

  /** A fresh one-time code: four decimal digits, no leading zero. */
  function Generate(random: real): (code: string)
    requires 0.0 <= random < 1.0
    ensures |code| == 4 && AllDigits(code) && code[0] != '0'
    ensures 1000 <= ValueOf(code) <= 9999
  {
    var n := Draw(random);
    DecimalLength(n);
    DecimalRoundTrip(n);
    ToDecimal(n)
  }

  /** No generated code is the all-zero string that the sign-in page treats specially. */
  lemma GeneratedIsNeverZeros(random: real)
    requires 0.0 <= random < 1.0
    ensures Generate(random) != "0000"
  {
    var code := Generate(random);
    assert code[0] != '0';
  }

  /** Every four-digit code with no leading zero can be generated: the range is covered exactly. */
  lemma {:induction false} EveryCodeIsReachable(n: nat)
    requires 1000 <= n <= 9999
    ensures Generate((n - 1000) as real / 9000.0) == ToDecimal(n)
  {
    var r := (n - 1000) as real / 9000.0;
    assert r * 9000.0 == (n - 1000) as real;
    assert Draw(r) == n;
  }
}
