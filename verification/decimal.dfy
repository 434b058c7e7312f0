/**
  Decimal rendering of natural numbers, as Go's `fmt.Sprintf("%d", n)` does
  for a non-negative `int`: the shortest digit string, no sign, no leading zero.
  The parser `DecimalValue` is the partner used to prove the rendering injective.
 */
module Decimal {

  predicate IsDigit(c: char) {
    '0' <= c <= '9'
  }

  predicate IsDigitString(s: string) {
    forall i :: 0 <= i < |s| ==> IsDigit(s[i])
  }

  /** The form `%d` produces: non-empty, digits only, and no leading zero unless the number is 0. */
  predicate IsCanonical(s: string) {
    |s| > 0 && IsDigitString(s) && (s[0] != '0' || |s| == 1)
  }

  function DigitChar(d: nat): (c: char)
    requires d < 10
    ensures IsDigit(c)
  {
    ('0' as int + d) as char
  }

  function DigitValue(c: char): int {
    c as int - '0' as int
  }

  /** `%d` of a natural number. */
  function NatToDecimal(n: nat): (s: string)
    ensures IsCanonical(s)
    ensures n > 0 ==> s[0] != '0'
    decreases n
  {
    if n < 10 then [DigitChar(n)] else NatToDecimal(n / 10) + [DigitChar(n % 10)]
  }

  /** Value of a digit string, read most significant digit first. */
  function DecimalValue(s: string): int
    decreases |s|
  {
    if |s| == 0 then 0 else DecimalValue(s[..|s| - 1]) * 10 + DigitValue(s[|s| - 1])
  }

  /** Parsing the rendering of `n` gives `n` back. */
  lemma {:induction false} ParseOfRender(n: nat)
    ensures DecimalValue(NatToDecimal(n)) == n
    decreases n
  {
    if n >= 10 {
      var s := NatToDecimal(n);
      var p := NatToDecimal(n / 10);
      assert s == p + [DigitChar(n % 10)];
      assert s[..|s| - 1] == p;
      ParseOfRender(n / 10);
    }
  }

  /** A canonical digit string with a non-zero leading digit has a positive value. */
  lemma {:induction false} LeadingNonZeroIsPositive(s: string)
    requires |s| > 0 && IsDigitString(s) && s[0] != '0'
    ensures DecimalValue(s) > 0
    decreases |s|
  {
    if |s| > 1 {
      var p := s[..|s| - 1];
      assert p[0] == s[0];
      LeadingNonZeroIsPositive(p);
    }
  }

  /** Rendering the value of a canonical string gives the string back. */
  lemma {:induction false} RenderOfParse(s: string)
    requires IsCanonical(s)
    ensures DecimalValue(s) >= 0
    ensures NatToDecimal(DecimalValue(s)) == s
    decreases |s|
  {
    if |s| == 1 {
      assert s == [DigitChar(DigitValue(s[0]))];
    } else {
      var p := s[..|s| - 1];
      assert p[0] == s[0];
      LeadingNonZeroIsPositive(p);
      RenderOfParse(p);
      var v := DecimalValue(p);
      var d := DigitValue(s[|s| - 1]);
      var n := v * 10 + d;
      assert n / 10 == v && n % 10 == d;
      assert s == p + [DigitChar(d)];
    }
  }

  /** Distinct numbers have distinct renderings. */
  lemma RenderInjective(a: nat, b: nat)
    ensures NatToDecimal(a) == NatToDecimal(b) <==> a == b
  {
    ParseOfRender(a);
    ParseOfRender(b);
  }
}
