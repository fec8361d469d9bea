/**
 * Decimal rendering of integers, as Python's `str(int)` (and an f-string
 * placeholder holding an `int`) produces it: an optional minus sign followed
 * by the digits, without leading zeros.
 */
module Decimal {

  predicate IsDigit(c: char) {
    '0' <= c <= '9'
  }

  predicate AllDigits(s: string) {
    forall i :: 0 <= i < |s| ==> IsDigit(s[i])
  }

  function DigitChar(d: nat): (c: char)
    requires d < 10
    ensures IsDigit(c) && c as int - '0' as int == d
  {
    ('0' as int + d) as char
  }

  /** The digits of `n`, most significant first. */
  function NatString(n: nat): string
    decreases n
  {
    if n < 10 then [DigitChar(n)] else NatString(n / 10) + [DigitChar(n % 10)]
  }

  /** NatString yields digits only, with no leading zero unless `n` is zero. */
  lemma {:induction false} NatStringDigits(n: nat)
    ensures var r := NatString(n);
      |r| > 0 && AllDigits(r) && (r[0] == '0' <==> n == 0)
    decreases n
  {
    if n >= 10 {
      NatStringDigits(n / 10);
      var front := NatString(n / 10);
      var r := front + [DigitChar(n % 10)];
      assert r[0] == front[0];
      forall i | 0 <= i < |r| ensures IsDigit(r[i]) {
        if i < |front| {
          assert r[i] == front[i];
        }
      }
    }
  }

  /** `str(n)` for any Python integer. */
  function IntString(n: int): (r: string)
    ensures |r| > 0 && (r[0] == '-' <==> n < 0)
  {
    if n < 0 then NatStringDigits(-n); "-" + NatString(-n)
    else NatStringDigits(n); NatString(n)
  }

  /** A minus sign exactly for negative numbers, digits everywhere else. */
  lemma IntStringDigits(n: int)
    ensures var r := IntString(n);
      && |r| > 0
      && (n < 0 <==> r[0] == '-')
      && (n >= 0 ==> AllDigits(r))
      && (n < 0 ==> |r| > 1 && AllDigits(r[1..]))
  {
    if n < 0 {
      NatStringDigits(-n);
      assert IntString(n)[1..] == NatString(-n);
    } else {
      NatStringDigits(n);
    }
  }

  /** Reads back a string of digits; the inverse of NatString. */
  function ParseNat(s: string): nat
    requires AllDigits(s)
  {
    if s == [] then 0
    else ParseNat(s[..|s| - 1]) * 10 + (s[|s| - 1] as int - '0' as int)
  }

  /** An optional minus sign, then digits. */
  predicate Signed(s: string) {
    |s| > 0 && (if s[0] == '-' then AllDigits(s[1..]) else AllDigits(s))
  }

  /** Reads back what IntString renders. */
  function ParseInt(s: string): int
    requires Signed(s)
  {
    if s[0] == '-' then -(ParseNat(s[1..]) as int) else ParseNat(s)
  }

  lemma {:induction false} NatStringRoundTrip(n: nat)
    ensures AllDigits(NatString(n)) && ParseNat(NatString(n)) == n
    decreases n
  {
    var r := NatString(n);
    NatStringDigits(n);
    if n >= 10 {
      NatStringDigits(n / 10);
      NatStringRoundTrip(n / 10);
      assert r[..|r| - 1] == NatString(n / 10);
    }
  }

  /** The rendering loses nothing: distinct integers render differently. */
  lemma IntStringRoundTrip(n: int)
    ensures Signed(IntString(n)) && ParseInt(IntString(n)) == n
  {
    IntStringDigits(n);
    if n < 0 {
      NatStringRoundTrip(-n);
      assert IntString(n)[1..] == NatString(-n);
    } else {
      NatStringRoundTrip(n);
    }
  }

  lemma IntStringInjective(m: int, n: int)
    requires IntString(m) == IntString(n)
    ensures m == n
  {
    IntStringRoundTrip(m);
    IntStringRoundTrip(n);
  }
}
