/**
 * Decimal text of non-negative integers, as JavaScript's `n + ""` writes an integer
 * below 10^21, and `String.prototype.slice` with a negative start.
 */
module Decimal {
  import opened Common

  predicate IsDigit(c: char)
  {
    '0' <= c <= '9'
  }

  predicate IsDigits(s: string)
  {
    forall i :: 0 <= i < |s| ==> IsDigit(s[i])
  }

  function DigitValue(c: char): nat
    requires IsDigit(c)
  {
    c as int - '0' as int
  }

  function DigitChar(d: nat): (c: char)
    requires d < 10
    ensures IsDigit(c) && DigitValue(c) == d
  {
    ('0' as int + d) as char
  }

  function Pow10(k: nat): (p: nat)
    ensures p >= 1
  {
    if k == 0 then 1 else 10 * Pow10(k - 1)
  }

  /** The decimal text of `n`. */
  function DecimalString(n: nat): string
  {
    if n < 10 then [DigitChar(n)] else DecimalString(n / 10) + [DigitChar(n % 10)]
  }

  /** The decimal text is made of digits, has no leading zero, and is one digit long exactly below 10. */
  lemma {:induction false} DecimalShape(n: nat)
    ensures var s := DecimalString(n);
      |s| >= 1 && IsDigits(s) && (|s| > 1 ==> s[0] != '0') && (n < 10 <==> |s| == 1)
  {
    if n >= 10 {
      DecimalShape(n / 10);
      var s, p := DecimalString(n), DecimalString(n / 10);
      assert s == p + [DigitChar(n % 10)];
      assert s[0] == p[0];
    }
  }

  /** The number a digit string denotes (most significant digit first). */
  function DigitsValue(s: string): nat
    requires IsDigits(s)
  {
    if s == [] then 0 else DigitsValue(s[..|s| - 1]) * 10 + DigitValue(s[|s| - 1])
  }

  /** Reading back the decimal text of `n` gives `n`. */
  lemma {:induction false} DecimalRoundTrip(n: nat)
    ensures IsDigits(DecimalString(n)) && DigitsValue(DecimalString(n)) == n
  {
    DecimalShape(n);
    var s := DecimalString(n);
    if n >= 10 {
      DecimalRoundTrip(n / 10);
      assert s[..|s| - 1] == DecimalString(n / 10);
    }
  }

  /** The decimal text is injective: different numbers print differently. */
  lemma DecimalInjective(m: nat, n: nat)
    requires DecimalString(m) == DecimalString(n)
    ensures m == n
  {
    DecimalRoundTrip(m);
    DecimalRoundTrip(n);
  }

  /** A string of `k` digits denotes a number below 10^k. */
  lemma {:induction false} DigitsValueBound(s: string)
    requires IsDigits(s)
    ensures DigitsValue(s) < Pow10(|s|)
  {
    if s != [] {
      DigitsValueBound(s[..|s| - 1]);
    }
  }

  /** The value of a concatenation: the prefix is shifted left by the length of the suffix. */
  lemma {:induction false} DigitsValueConcat(p: string, q: string)
    requires IsDigits(p) && IsDigits(q)
    ensures IsDigits(p + q)
    ensures DigitsValue(p + q) == DigitsValue(p) * Pow10(|q|) + DigitsValue(q)
  {
    if q != [] {
      var q' := q[..|q| - 1];
      assert (p + q)[..|p + q| - 1] == p + q';
      assert (p + q)[|p + q| - 1] == q[|q| - 1];
      DigitsValueConcat(p, q');
      ShiftStep(DigitsValue(p), Pow10(|q'|), DigitsValue(q'), DigitValue(q[|q| - 1]));
    } else {
      assert p + q == p;
    }
  }

  lemma ShiftStep(a: int, w: int, b: int, d: int)
    ensures (a * w + b) * 10 + d == a * (10 * w) + (b * 10 + d)
  {
  }

  /** `s.slice(-k)` for k >= 1: the last `k` characters, or all of `s` when it is shorter. */
  function SliceLast(s: string, k: nat): (r: string)
    requires k > 0
    ensures |r| == Min(k, |s|)
  {
    if |s| <= k then s else s[|s| - k..]
  }

  /** The slice is a suffix: `s` is what precedes it followed by the slice. */
  lemma SliceLastSuffix(s: string, k: nat)
    requires k > 0
    ensures var r := SliceLast(s, k); s == s[..|s| - |r|] + r
  {
  }
}
