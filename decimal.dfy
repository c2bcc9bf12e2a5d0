/**
 * The `%d` conversion of PHP's `sprintf`, used for the tenant id in a tenant
 * directory name, and its inverse.
 */
module Decimal {

  predicate IsDigit(c: char) {
    '0' <= c <= '9'
  }

  function DigitChar(d: nat): (c: char)
    requires d < 10
    ensures IsDigit(c) && c as int - '0' as int == d
  {
    ('0' as int + d) as char
  }

  function DigitValue(c: char): nat
    requires IsDigit(c)
  {
    c as int - '0' as int
  }

  /** True iff `s` is a non-empty run of decimal digits. */
  predicate IsDigits(s: string) {
    |s| > 0 && forall i :: 0 <= i < |s| ==> IsDigit(s[i])
  }

  /** What `%d` prints: an optional minus sign followed by digits. */
  predicate IsDecimal(s: string) {
    if |s| > 0 && s[0] == '-' then IsDigits(s[1..]) else IsDigits(s)
  }

  /** The digits of `n`, most significant first. */
  function NatDigits(n: nat): (r: string)
    ensures IsDigits(r)
    ensures r[0] == '0' ==> n == 0
    decreases n
  {
    if n < 10 then [DigitChar(n)] else NatDigits(n / 10) + [DigitChar(n % 10)]
  }

  /** `sprintf("%d", n)`. */
  function Dec(n: int): (r: string)
    ensures IsDecimal(r)
    ensures r[0] == '-' <==> n < 0
    ensures var digits := if n < 0 then r[1..] else r; digits[0] == '0' ==> n == 0
  {
    if n < 0 then
      var r := "-" + NatDigits(-n);
      assert r[1..] == NatDigits(-n);
      r
    else
      NatDigits(n)
  }

  /** The number a run of digits denotes (0 for the empty run). */
  function DigitsValue(s: string): nat
    requires forall i :: 0 <= i < |s| ==> IsDigit(s[i])
  {
    if s == [] then 0 else DigitsValue(s[..|s| - 1]) * 10 + DigitValue(s[|s| - 1])
  }

  /** Reads back what `%d` printed. */
  function ParseDec(s: string): int
    requires IsDecimal(s)
  {
    if s[0] == '-' then -(DigitsValue(s[1..]) as int) else DigitsValue(s)
  }

  lemma {:induction false} NatDigitsRoundTrip(n: nat)
    ensures DigitsValue(NatDigits(n)) == n
    decreases n
  {
    if n >= 10 {
      var s := NatDigits(n);
      assert s[..|s| - 1] == NatDigits(n / 10);
      NatDigitsRoundTrip(n / 10);
    }
  }

  /** `%d` loses nothing: the id can be read back from its decimal form. */
  lemma DecRoundTrip(n: int)
    ensures ParseDec(Dec(n)) == n
  {
    if n < 0 {
      assert Dec(n)[1..] == NatDigits(-n);
      NatDigitsRoundTrip(-n);
    } else {
      NatDigitsRoundTrip(n);
    }
  }

  lemma DecInjective(a: int, b: int)
    requires Dec(a) == Dec(b)
    ensures a == b
  {
    DecRoundTrip(a);
    DecRoundTrip(b);
  }

  /** The index of the first non-digit of `s` at or after `i`. */
  function DigitRun(s: string, i: nat): (j: nat)
    requires i <= |s|
    ensures i <= j <= |s|
    decreases |s| - i
  {
    if i < |s| && IsDigit(s[i]) then DigitRun(s, i + 1) else i
  }

  lemma {:induction false} DigitRunStopsAtDash(s: string, i: nat, j: nat)
    requires i <= j < |s| && s[j] == '-'
    requires forall k :: i <= k < j ==> IsDigit(s[k])
    ensures DigitRun(s, i) == j
    decreases j - i
  {
    if i < j {
      DigitRunStopsAtDash(s, i + 1, j);
    }
  }

  /** In `s == Dec(a) + "-" + x`, the digits of `a` end exactly where the separating dash is. */
  lemma DecEndsAtDash(a: int, x: string)
    ensures var s := Dec(a) + "-" + x;
            DigitRun(s, if s[0] == '-' then 1 else 0) == |Dec(a)|
  {
    var d := Dec(a);
    var s := d + "-" + x;
    var start := if s[0] == '-' then 1 else 0;
    if a < 0 {
      assert s[0] == d[0] == '-';
      forall k | 1 <= k < |d| ensures IsDigit(s[k]) {
        assert s[k] == d[1..][k - 1];
      }
    } else {
      assert s[0] == d[0];
    }
    DigitRunStopsAtDash(s, start, |d|);
  }

  /** `"%d-%s"` can be split back into the id and the string after the dash. */
  lemma DashSeparatedInjective(a: int, x: string, b: int, y: string)
    requires Dec(a) + "-" + x == Dec(b) + "-" + y
    ensures a == b && x == y
  {
    var s := Dec(a) + "-" + x;
    DecEndsAtDash(a, x);
    DecEndsAtDash(b, y);
    assert Dec(a) == s[..|Dec(a)|];
    assert Dec(b) == s[..|Dec(b)|];
    DecInjective(a, b);
    assert x == s[|Dec(a)| + 1..];
    assert y == s[|Dec(b)| + 1..];
  }
}
