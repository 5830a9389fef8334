/** Decimal digits in ASCII: reading, printing, fixed-width printing. */
module Numerals {

  predicate IsDigit(c: char) {
    '0' <= c <= '9'
  }

  predicate AllDigits(s: string) {
    forall k :: 0 <= k < |s| ==> IsDigit(s[k])
  }

  function Digit(n: nat): (c: char)
    requires n < 10
    ensures IsDigit(c)
  {
    ('0' as int + n) as char
  }

  /** The value of a string of digits; 0 when there are none. */
  function Number(s: string): nat
    requires AllDigits(s)
  {
    if s == "" then 0 else Number(s[..|s| - 1]) * 10 + (s[|s| - 1] as int - '0' as int)
  }

  /** str(n) */
  function Show(n: nat): (s: string)
    ensures AllDigits(s) && s != ""
  {
    if n < 10 then [Digit(n)] else Show(n / 10) + [Digit(n % 10)]
  }

  /** The last `width` digits of n, with leading zeros. */
  function Pad(n: nat, width: nat): (s: string)
    ensures AllDigits(s) && |s| == width
  {
    if width == 0 then "" else Pad(n / 10, width - 1) + [Digit(n % 10)]
  }

  function Power(k: nat): (p: nat)
    ensures p > 0
  {
    if k == 0 then 1 else 10 * Power(k - 1)
  }

  lemma {:induction false} ShowNumber(n: nat)
    ensures Number(Show(n)) == n
  {
    if n >= 10 {
      ShowNumber(n / 10);
      assert Show(n)[..|Show(n)| - 1] == Show(n / 10);
    }
  }

  lemma {:induction false} PadNumber(n: nat, width: nat)
    requires n < Power(width)
    ensures Number(Pad(n, width)) == n
  {
    if width > 0 {
      PadNumber(n / 10, width - 1);
      assert Pad(n, width)[..width - 1] == Pad(n / 10, width - 1);
    }
  }

  lemma {:induction false} NumberBound(s: string)
    requires AllDigits(s)
    ensures Number(s) < Power(|s|)
  {
    if s != "" {
      NumberBound(s[..|s| - 1]);
    }
  }

  /** A number below 10^k needs at most k digits. */
  lemma {:induction false} ShowLength(n: nat, k: nat)
    requires n < Power(k) && k > 0
    ensures |Show(n)| <= k
  {
    if n >= 10 {
      ShowLength(n / 10, k - 1);
    }
  }

  lemma {:induction false} ShowAtLeast(n: nat, k: nat)
    requires Power(k) <= n
    ensures k < |Show(n)|
  {
    if n >= 10 && k > 0 {
      ShowAtLeast(n / 10, k - 1);
    }
  }

  /** How many leading characters are digits. */
  function DigitRun(s: string): (n: nat)
    ensures n <= |s| && AllDigits(s[..n]) && (n < |s| ==> !IsDigit(s[n]))
  {
    if s == "" || !IsDigit(s[0]) then 0 else 1 + DigitRun(s[1..])
  }

  lemma RunStops(digits: string, rest: string)
    requires AllDigits(digits) && (rest != "" ==> !IsDigit(rest[0]))
    ensures DigitRun(digits + rest) == |digits|
  {
    var s, n := digits + rest, DigitRun(digits + rest);
    assert forall k :: 0 <= k < |digits| ==> IsDigit(s[k]);
    assert rest != "" ==> !IsDigit(s[|digits|]);
    assert forall k :: 0 <= k < n ==> IsDigit(s[..n][k]) && s[..n][k] == s[k];
  }
}
