/** Fixed-width, zero-padded decimal fields such as the `YYYY`, `MM` and `HHMM`
    parts of an appointment's date and time-period text. */
module Digits {

  predicate IsDigit(c: char) {
    '0' <= c <= '9'
  }

  predicate AllDigits(s: string) {
    forall i :: 0 <= i < |s| ==> IsDigit(s[i])
  }

  function DigitValue(c: char): (v: nat)
    requires IsDigit(c)
    ensures v < 10
  {
    (c as int) - ('0' as int)
  }

  function DigitChar(v: nat): (c: char)
    requires v < 10
    ensures IsDigit(c) && DigitValue(c) == v
  {
    (('0' as int) + v) as char
  }

  function Pow10(k: nat): (p: nat)
    ensures p >= 1
  {
    if k == 0 then 1 else 10 * Pow10(k - 1)
  }

  /** The number a run of decimal digits denotes, most significant digit first. */
  function Value(s: string): (v: nat)
    requires AllDigits(s)
    ensures v < Pow10(|s|)
  {
    if |s| == 0 then 0 else Value(s[..|s| - 1]) * 10 + DigitValue(s[|s| - 1])
  }

  /** `n` written with exactly `width` digits, zero-padded on the left
      (only the lowest `width` digits are kept). */
  function Render(n: nat, width: nat): (s: string)
    ensures |s| == width && AllDigits(s)
  {
    if width == 0 then [] else Render(n / 10, width - 1) + [DigitChar(n % 10)]
  }

  /** Reading back a rendered number gives the number, when it fits the width. */
  lemma {:induction false} ValueOfRender(n: nat, width: nat)
    requires n < Pow10(width)
    ensures Value(Render(n, width)) == n
  {
    if width > 0 {
      ValueOfRender(n / 10, width - 1);
      var s := Render(n, width);
      assert s[..|s| - 1] == Render(n / 10, width - 1);
    }
  }

  /** Rendering a digit run's value with the run's own width gives the run back:
      a fixed-width field is determined by its value. */
  lemma {:induction false} RenderOfValue(s: string)
    requires AllDigits(s)
    ensures Render(Value(s), |s|) == s
  {
    if |s| > 0 {
      var init := s[..|s| - 1];
      RenderOfValue(init);
      var v := Value(s);
      assert v / 10 == Value(init) && v % 10 == DigitValue(s[|s| - 1]);
      assert s == init + [s[|s| - 1]];
    }
  }
}
