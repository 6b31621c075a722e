/** The few Python built-ins the core relies on: `abs` on floats, `str.upper` (ASCII letters only)
    and the decimal rendering of an `int` inside an f-string. */
module Builtins {

  /** Python's `abs` on a float. */
  function Abs(x: real): (r: real)
    ensures r >= 0.0
    ensures r == x || r == -x
  {
    if x < 0.0 then -x else x
  }

  // ---------------------------------------------------------------- str.upper

  /** Upper-cases an ASCII letter; every other character is kept. */
  function UpperChar(c: char): (u: char)
    ensures 'a' <= c <= 'z' ==> u as int == c as int - 32
    ensures !('a' <= c <= 'z') ==> u == c
    ensures !('a' <= u <= 'z')
  {
    if 'a' <= c <= 'z' then (c as int - 32) as char else c
  }

  /** `s.upper()`, character by character. */
  function Upper(s: string): (u: string)
    ensures |u| == |s|
    ensures forall i :: 0 <= i < |s| ==> u[i] == UpperChar(s[i])
  {
    if s == [] then [] else [UpperChar(s[0])] + Upper(s[1..])
  }

  /** Upper-casing twice is upper-casing once. */
  lemma UpperIdempotent(s: string)
    ensures Upper(Upper(s)) == Upper(s)
  {
    var u := Upper(s);
    var uu := Upper(u);
    assert |uu| == |u|;
    forall i | 0 <= i < |u|
      ensures uu[i] == u[i]
    {
      assert uu[i] == UpperChar(u[i]);
    }
  }

  /** The only strings that upper-case to a one-letter upper-case string L are L and its lower-case form. */
  lemma UpperIsLetter(v: string, letter: char)
    requires 'A' <= letter <= 'Z'
    ensures Upper(v) == [letter] <==> (v == [letter] || v == [(letter as int + 32) as char])
  {
    if |v| == 1 {
      assert v == [v[0]];
      assert Upper(v)[0] == UpperChar(v[0]);
      assert Upper(v) == [Upper(v)[0]];
    } else {
      assert |Upper(v)| != 1;
    }
  }

  // ---------------------------------------------------------------- str(int)

  predicate IsDigits(s: string)
  {
    forall i :: 0 <= i < |s| ==> '0' <= s[i] <= '9'
  }

  function DigitChar(d: nat): (c: char)
    requires d < 10
    ensures '0' <= c <= '9'
    ensures c as int - '0' as int == d
  {
    ('0' as int + d) as char
  }

  /** Decimal digits of `n`, most significant first, without leading zeros. */
  function NatToDecimal(n: nat): (s: string)
    ensures |s| >= 1 && IsDigits(s)
    ensures s[0] == '0' ==> n == 0
    decreases n
  {
    if n < 10 then [DigitChar(n)] else NatToDecimal(n / 10) + [DigitChar(n % 10)]
  }

  /** How an `int` is written in an f-string: a minus sign for negatives, then its digits. */
  function IntToDecimal(i: int): string
  {
    if i < 0 then "-" + NatToDecimal(-i) else NatToDecimal(i)
  }

  /** A rendering starts with a minus sign exactly when the number is negative. */
  lemma IntToDecimalSign(i: int)
    ensures |IntToDecimal(i)| >= 1
    ensures IntToDecimal(i)[0] == '-' <==> i < 0
  {
  }

  /** The number a string of decimal digits denotes. */
  function DecimalValue(s: string): nat
    requires IsDigits(s)
    decreases |s|
  {
    if s == [] then 0 else DecimalValue(s[..|s| - 1]) * 10 + (s[|s| - 1] as int - '0' as int)
  }

  /** Reading back the digits of `n` gives `n`. */
  lemma {:induction false} DecimalRoundTrip(n: nat)
    ensures DecimalValue(NatToDecimal(n)) == n
    decreases n
  {
    if n >= 10 {
      var s := NatToDecimal(n);
      assert s[..|s| - 1] == NatToDecimal(n / 10);
      DecimalRoundTrip(n / 10);
    }
  }

  lemma NatToDecimalInjective(m: nat, n: nat)
    requires NatToDecimal(m) == NatToDecimal(n)
    ensures m == n
  {
    DecimalRoundTrip(m);
    DecimalRoundTrip(n);
  }

  /** Different integers are rendered as different texts. */
  lemma IntToDecimalInjective(i: int, j: int)
    requires IntToDecimal(i) == IntToDecimal(j)
    ensures i == j
  {
    IntToDecimalSign(i);
    IntToDecimalSign(j);
    if i < 0 && j < 0 {
      assert NatToDecimal(-i) == IntToDecimal(i)[1..] == NatToDecimal(-j);
      NatToDecimalInjective(-i, -j);
    } else if i >= 0 && j >= 0 {
      NatToDecimalInjective(i, j);
    }
  }

  /** A rendering holds only a minus sign and digits, never a space. */
  lemma IntToDecimalHasNoSpace(i: int)
    ensures forall k :: 0 <= k < |IntToDecimal(i)| ==> IntToDecimal(i)[k] != ' '
  {
    if i < 0 {
      var d := NatToDecimal(-i);
      assert forall k :: 1 <= k < |IntToDecimal(i)| ==> IntToDecimal(i)[k] == d[k - 1];
    }
  }

  /** Two renderings followed by texts that start with a space can only be equal when the renderings
      are: the first space marks where each rendering ends. */
  lemma RenderingsBeforeSpace(i: int, j: int, t1: string, t2: string)
    requires |t1| > 0 && t1[0] == ' ' && |t2| > 0 && t2[0] == ' '
    requires IntToDecimal(i) + t1 == IntToDecimal(j) + t2
    ensures i == j
  {
    var a, b := IntToDecimal(i), IntToDecimal(j);
    IntToDecimalHasNoSpace(i);
    IntToDecimalHasNoSpace(j);
    assert (a + t1)[|a|] == ' ' && (b + t2)[|b|] == ' ';
    assert |a| < |b| ==> ' ' in b;
    assert |b| < |a| ==> ' ' in a;
    assert a == (a + t1)[..|a|] == (b + t2)[..|b|] == b;
    IntToDecimalInjective(i, j);
  }

  /** A few renderings, as an f-string shows them. */
  lemma DecimalExamples()
    ensures IntToDecimal(0) == "0"
    ensures IntToDecimal(1494) == "1494"
    ensures IntToDecimal(-42) == "-42"
  {
    assert NatToDecimal(14) == "14" by { assert NatToDecimal(1) == "1"; }
    assert NatToDecimal(149) == "149";
    assert NatToDecimal(42) == "42" by { assert NatToDecimal(4) == "4"; }
  }
}
