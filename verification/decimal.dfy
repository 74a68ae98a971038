/**
  Unsigned decimal rendering as printf's `%u`/`PRIu8`/`PRIu16` conversions
  produce it (no sign, no padding, no leading zeros), together with the
  parser that inverts it.
 */
module Decimal {
  import opened Wrappers

  predicate IsDigit(c: char) {
    '0' <= c <= '9'
  }

  predicate AllDigits(s: string) {
    forall i | 0 <= i < |s| :: IsDigit(s[i])
  }

  /** A numeral as printf writes it: at least one digit, no leading zero
      unless the numeral is "0" itself. */
  predicate Canonical(s: string) {
    |s| >= 1 && AllDigits(s) && (s[0] == '0' ==> |s| == 1)
  }

  function DigitChar(d: nat): (c: char)
    requires d < 10
    ensures IsDigit(c)
    ensures DigitValue(c) == d
  {
    ('0' as int + d) as char
  }

  function DigitValue(c: char): nat
    requires IsDigit(c)
  {
    c as int - '0' as int
  }

  function Pow10(k: nat): (p: nat)
    ensures p >= 1
  {
    if k == 0 then 1 else 10 * Pow10(k - 1)
  }

  /** The decimal numeral of `n`. */
  function Render(n: nat): (s: string)
    ensures Canonical(s)
    ensures s[0] == '0' <==> n == 0
    decreases n
  {
    if n < 10 then [DigitChar(n)]
    else Render(n / 10) + [DigitChar(n % 10)]
  }

  /** The number a string of digits denotes, most significant digit first. */
  function Value(s: string): nat
    requires AllDigits(s)
  {
    if |s| == 0 then 0
    else Value(s[..|s| - 1]) * 10 + DigitValue(s[|s| - 1])
  }

  /** Reads back a numeral in the form printf writes; anything else (empty,
      a non-digit, a leading zero) is refused. What it accepts is exactly the
      rendering of the number it returns. */
  function Parse(s: string): (r: Option<nat>)
    ensures r.Some? <==> Canonical(s)
    ensures r.Some? ==> Render(r.value) == s
  {
    if Canonical(s) then
      RenderValue(s);
      Some(Value(s))
    else None
  }

  /** Parsing a rendered numeral gives the number back. */
  lemma {:induction false} ParseRender(n: nat)
    ensures Parse(Render(n)) == Some(n)
  {
    ValueRender(n);
  }

  lemma {:induction false} ValueRender(n: nat)
    ensures Value(Render(n)) == n
    decreases n
  {
    var s := Render(n);
    if n >= 10 {
      ValueRender(n / 10);
      assert s[..|s| - 1] == Render(n / 10);
    }
  }

  lemma {:induction false} ValuePositive(s: string)
    requires |s| >= 1 && AllDigits(s) && s[0] != '0'
    ensures Value(s) >= 1
    decreases |s|
  {
    if |s| > 1 {
      ValuePositive(s[..|s| - 1]);
    }
  }

  /** Every canonical numeral is the rendering of the number it denotes:
      `Render` is onto the canonical numerals, so with `ParseRender` the two
      are inverse bijections. */
  lemma {:induction false} RenderValue(s: string)
    requires Canonical(s)
    ensures Render(Value(s)) == s
    decreases |s|
  {
    if |s| > 1 {
      var p := s[..|s| - 1];
      ValuePositive(p);
      RenderValue(p);
      var v := Value(s);
      assert v / 10 == Value(p) && v % 10 == DigitValue(s[|s| - 1]);
      assert DigitChar(v % 10) == s[|s| - 1];
      assert s == p + [s[|s| - 1]];
    }
  }

  /** A number below 10^k needs at most k digits. */
  lemma {:induction false} RenderLength(n: nat, k: nat)
    requires k >= 1 && n < Pow10(k)
    ensures |Render(n)| <= k
    decreases n
  {
    if n >= 10 {
      assert k >= 2;
      RenderLength(n / 10, k - 1);
    }
  }

  /** An octet renders in at most three digits, a 16-bit value in at most five. */
  lemma RenderWidths(n: nat)
    ensures n < 256 ==> |Render(n)| <= 3
    ensures n < 0x1_0000 ==> |Render(n)| <= 5
  {
    if n < 256 {
      RenderLength(n, 3);
    }
    if n < 0x1_0000 {
      RenderLength(n, 5);
    }
  }

  /** A rendered numeral contains no character other than a digit. */
  lemma RenderAvoids(n: nat, c: char)
    requires !IsDigit(c)
    ensures c !in Render(n)
  {
  }
}
