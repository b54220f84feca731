/**
 * Decimal text: what std::to_string prints and std::atol reads back, and the zero-padded text of a checksum or of
 * six decimals.
 */
module Decimal {

  predicate IsDigit(c: char) { '0' <= c <= '9' }

  /** `is_digits`: non-empty and digits only. */
  predicate IsDigits(s: string) {
    s != "" && forall i :: 0 <= i < |s| ==> IsDigit(s[i])
  }

  function Digit(d: nat): (c: char)
    requires d < 10
    ensures IsDigit(c) && c as int - '0' as int == d
  {
    ('0' as int + d) as char
  }

  /** The shortest decimal text of `n`. */
  function Dec(n: nat): (s: string)
    ensures IsDigits(s)
  {
    if n < 10 then [Digit(n)] else Dec(n / 10) + [Digit(n % 10)]
  }

  /** The number a run of digits denotes. */
  function Val(s: string): nat
    requires forall i :: 0 <= i < |s| ==> IsDigit(s[i])
  {
    if s == "" then 0 else
      var d := s[|s| - 1];
      assert IsDigit(d);
      10 * Val(s[..|s| - 1]) + (d as int - '0' as int)
  }

  lemma {:induction false} ValDec(n: nat)
    ensures Val(Dec(n)) == n
  {
    if n >= 10 {
      var s := Dec(n);
      assert s[..|s| - 1] == Dec(n / 10);
      ValDec(n / 10);
    }
  }

  /** Distinct numbers have distinct texts. */
  lemma {:induction false} DecInjective(m: nat, n: nat)
    ensures Dec(m) == Dec(n) <==> m == n
  {
    ValDec(m);
    ValDec(n);
  }

  /** "%0wu": exactly `width` digits, the last ones of `n`. */
  function Padded(n: nat, width: nat): (s: string)
    ensures |s| == width && forall i :: 0 <= i < |s| ==> IsDigit(s[i])
    decreases width
  {
    if width == 0 then "" else Padded(n / 10, width - 1) + [Digit(n % 10)]
  }

  function Pow10(k: nat): (p: nat)
    ensures p >= 1
  {
    if k == 0 then 1 else 10 * Pow10(k - 1)
  }

  lemma {:induction false} ValPadded(n: nat, width: nat)
    requires n < Pow10(width)
    ensures Val(Padded(n, width)) == n
    decreases width
  {
    if width > 0 {
      var s := Padded(n, width);
      assert s[..|s| - 1] == Padded(n / 10, width - 1);
      ValPadded(n / 10, width - 1);
    }
  }
}
