/**
 * Numeric atoms. The interpreter asks Python's float() whether a token is a
 * number and, if so, converts it. This module models float() on plain decimal
 * literals: an optional sign, then digits with at most one decimal point and
 * at least one digit. Numbers are exact reals.
 */
module Numbers {

  predicate IsDigit(c: char) { '0' <= c <= '9' }

  predicate AllDigits(s: string) { forall i :: 0 <= i < |s| ==> IsDigit(s[i]) }

  predicate HasSign(s: string) { |s| > 0 && (s[0] == '+' || s[0] == '-') }

  function Unsigned(s: string): string { if HasSign(s) then s[1..] else s }

  /** Index of the first '.' in s, or |s| when there is none. */
  function DotIndex(s: string): (k: nat)
    ensures k <= |s|
    ensures k < |s| ==> s[k] == '.'
    ensures forall i :: 0 <= i < k ==> s[i] != '.'
  {
    if s == [] then 0 else if s[0] == '.' then 0 else 1 + DotIndex(s[1..])
  }

  function IntPart(s: string): string { var u := Unsigned(s); u[..DotIndex(u)] }

  function FracPart(s: string): string
  {
    var u := Unsigned(s);
    var k := DotIndex(u);
    if k < |u| then u[k + 1..] else ""
  }

  /** isnumber (evaluator.py:106-111), restricted to decimal literals. */
  predicate IsNumber(s: string)
  {
    AllDigits(IntPart(s)) && AllDigits(FracPart(s)) && |IntPart(s)| + |FracPart(s)| > 0
  }

  /** The value of a digit string read left to right. */
  function DigitsValue(s: string): nat
    requires AllDigits(s)
  {
    if s == [] then 0 else 10 * DigitsValue(s[..|s| - 1]) + (s[|s| - 1] as int - '0' as int)
  }

  function Pow10(n: nat): (p: nat)
    ensures p > 0
  {
    if n == 0 then 1 else 10 * Pow10(n - 1)
  }

  /** float(s) for a decimal literal. */
  function ToNum(s: string): real
    requires IsNumber(s)
  {
    var magnitude := DigitsValue(IntPart(s)) as real
      + DigitsValue(FracPart(s)) as real / Pow10(|FracPart(s)|) as real;
    if HasSign(s) && s[0] == '-' then -magnitude else magnitude
  }

  /** The decimal spelling of a natural number. */
  function NatString(n: nat): (s: string)
    ensures |s| > 0 && AllDigits(s)
  {
    if n < 10 then [('0' as int + n) as char]
    else NatString(n / 10) + [('0' as int + n % 10) as char]
  }

  /** Reading back the spelling of n gives n. */
  lemma {:induction false} DigitsOfNatString(n: nat)
    ensures DigitsValue(NatString(n)) == n
  {
    var s := NatString(n);
    if n >= 10 {
      DigitsOfNatString(n / 10);
      assert s[..|s| - 1] == NatString(n / 10);
    }
  }

  /** A sign followed by the spelling of n is a number whose value is +n or -n. */
  lemma SignedNatIsNumber(n: nat, negative: bool)
    ensures var s := (if negative then "-" else "+") + NatString(n);
            IsNumber(s) && ToNum(s) == if negative then -(n as real) else n as real
  {
    var s := (if negative then "-" else "+") + NatString(n);
    var u := NatString(n);
    assert Unsigned(s) == u;
    NoDotInDigits(u);
    assert IntPart(s) == u;
    DigitsOfNatString(n);
  }

  lemma NoDotInDigits(s: string)
    requires AllDigits(s)
    ensures DotIndex(s) == |s|
  {
  }

  /** The spelling of n without sign is a number with value n. */
  lemma NatStringIsNumber(n: nat)
    ensures IsNumber(NatString(n)) && ToNum(NatString(n)) == n as real
  {
    var u := NatString(n);
    assert !HasSign(u) by { assert IsDigit(u[0]); }
    NoDotInDigits(u);
    assert IntPart(u) == u;
    DigitsOfNatString(n);
  }

  /** A numeric literal is never empty and never holds a space, bracket or quote. */
  lemma NumberCharacters(s: string)
    requires IsNumber(s)
    ensures |s| > 0
    ensures forall i :: 0 <= i < |s| ==> IsDigit(s[i]) || s[i] == '.' || s[i] == '+' || s[i] == '-'
  {
    var u := Unsigned(s);
    var k := DotIndex(u);
    assert u == IntPart(s) + (if k < |u| then "." + FracPart(s) else "");
    forall i | 0 <= i < |s|
      ensures IsDigit(s[i]) || s[i] == '.' || s[i] == '+' || s[i] == '-'
    {
      if HasSign(s) {
        if i > 0 { assert s[i] == u[i - 1]; }
      } else {
        assert s[i] == u[i];
      }
    }
  }
}
