/**
 * The parts of Kotlin's standard string library that the core relies on:
 * `String.toInt()` (as its null-returning form `toIntOrNull()`), `Int.toString()`
 * for non-negative values, `String.take(n)` and `String.isBlank()`.
 */
module KotlinText {
  import opened Util

  const MaxInt: int := 0x7fff_ffff
  const MinInt: int := -0x8000_0000

  predicate IsDigit(c: char) { '0' <= c <= '9' }

  function DigitValue(c: char): (d: nat)
    requires IsDigit(c)
    ensures d < 10
  {
    (c as int) - ('0' as int)
  }

  function DigitChar(d: nat): (c: char)
    requires d < 10
    ensures IsDigit(c) && DigitValue(c) == d
  {
    (('0' as int) + d) as char
  }

  predicate AllDigits(s: string) {
    forall i :: 0 <= i < |s| ==> IsDigit(s[i])
  }

  /** The value of a string of decimal digits, most significant first. */
  function DigitsValue(s: string): nat
    requires AllDigits(s)
  {
    if s == [] then 0 else 10 * DigitsValue(s[..|s| - 1]) + DigitValue(s[|s| - 1])
  }

  function Pow10(n: nat): (p: nat)
    ensures p >= 1
  {
    if n == 0 then 1 else 10 * Pow10(n - 1)
  }

  /** Powers of ten grow with the exponent. */
  lemma {:induction false} Pow10Monotone(i: nat, j: nat)
    requires i <= j
    ensures Pow10(i) <= Pow10(j)
  {
    if i < j {
      Pow10Monotone(i, j - 1);
    }
  }

  /** n digits never spell a number of n+1 digits. */
  lemma {:induction false} DigitsValueBound(s: string)
    requires AllDigits(s)
    ensures DigitsValue(s) < Pow10(|s|)
  {
    if s != [] {
      DigitsValueBound(s[..|s| - 1]);
    }
  }

  /**
   * `toIntOrNull()` in radix 10: an optional leading '-' or '+', then at least
   * one digit, and the value must fit a 32-bit Int; otherwise null, which is
   * where `toInt()` throws NumberFormatException.
   */
  function ParseInt(s: string): (r: Option<int>)
    ensures r.Some? ==> MinInt <= r.value <= MaxInt
    ensures s == [] ==> r.None?
    ensures r.Some? && s[0] == '-' ==> r.value <= 0
    ensures r.Some? && s[0] != '-' ==> r.value >= 0
  {
    if s == [] then None
    else if s[0] == '-' || s[0] == '+' then
      if |s| == 1 || !AllDigits(s[1..]) then None
      else
        var v: int := if s[0] == '-' then -(DigitsValue(s[1..]) as int) else DigitsValue(s[1..]);
        if MinInt <= v <= MaxInt then Some(v) else None
    else if AllDigits(s) && DigitsValue(s) <= MaxInt then Some(DigitsValue(s))
    else None
  }

  /** Unsigned digits read as their value, and as null exactly when that value is beyond Int. */
  lemma ParseDigits(d: string)
    requires d != [] && AllDigits(d)
    ensures DigitsValue(d) <= MaxInt ==> ParseInt(d) == Some(DigitsValue(d))
    ensures DigitsValue(d) > MaxInt ==> ParseInt(d) == None
  {
    assert IsDigit(d[0]);
  }

  /**
   * A sign and digits read as the signed value, down to -2^31 and up to
   * 2^31-1, and as null beyond those.
   */
  lemma ParseSigned(sign: char, d: string)
    requires sign == '-' || sign == '+'
    requires d != [] && AllDigits(d)
    ensures sign == '-' && DigitsValue(d) <= -MinInt ==> ParseInt([sign] + d) == Some(-(DigitsValue(d) as int))
    ensures sign == '-' && DigitsValue(d) > -MinInt ==> ParseInt([sign] + d) == None
    ensures sign == '+' && DigitsValue(d) <= MaxInt ==> ParseInt([sign] + d) == Some(DigitsValue(d))
    ensures sign == '+' && DigitsValue(d) > MaxInt ==> ParseInt([sign] + d) == None
  {
    assert ([sign] + d)[1..] == d;
  }

  /** A sign alone, or any character other than a digit after the optional sign, reads as null. */
  lemma ParseRejectsNonDigit(s: string, i: nat)
    requires i < |s| && !IsDigit(s[i])
    requires i == 0 ==> (s[0] != '-' && s[0] != '+') || |s| == 1
    ensures ParseInt(s) == None
  {
    if i > 0 && (s[0] == '-' || s[0] == '+') {
      assert s[1..][i - 1] == s[i];
    }
  }

  /** `Int.toString()` for a non-negative value: no sign, no leading zeros. */
  function DecimalString(n: nat): (s: string)
    ensures |s| >= 1 && AllDigits(s)
    ensures DigitsValue(s) == n
    ensures s[0] != '0' || n == 0
  {
    if n < 10 then [DigitChar(n)]
    else
      var prefix := DecimalString(n / 10);
      var s := prefix + [DigitChar(n % 10)];
      assert s[..|s| - 1] == prefix;
      s
  }

  /** Reading back a rendered Int gives the Int. */
  lemma DecimalStringRoundTrip(n: nat)
    requires n <= MaxInt
    ensures ParseInt(DecimalString(n)) == Some(n)
  {
    var s := DecimalString(n);
    assert s[0] != '-' && s[0] != '+' by { assert IsDigit(s[0]); }
  }

  /** A value below 10^k renders in at most k characters. */
  lemma {:induction false} DecimalStringLength(n: nat, k: nat)
    requires 1 <= k && n < Pow10(k)
    ensures |DecimalString(n)| <= k
  {
    if n >= 10 {
      assert k >= 2;
      DecimalStringLength(n / 10, k - 1);
    }
  }

  function Min(a: int, b: int): int { if a <= b then a else b }

  /** `take(n)`: the first n characters, or the whole string when it is shorter. */
  function Take(s: string, n: nat): (r: string)
    ensures |r| == Min(|s|, n)
    ensures r == s[..|r|]
    ensures |s| <= n ==> r == s
  {
    if |s| <= n then s else s[..n]
  }

  /**
   * `Char.isWhitespace()` on the JVM: Java's `Character.isWhitespace` or
   * `Character.isSpaceChar`, i.e. the ASCII controls TAB, LF, VT, FF, CR and
   * FS..US, and every Unicode space, line and paragraph separator.
   */
  predicate IsWhitespace(c: char) {
    || c == '\t' || c == '\n' || c == '\U{000B}' || c == '\U{000C}' || c == '\r'
    || ('\U{001C}' <= c <= '\U{001F}')
    || c == ' ' || c == '\U{00A0}' || c == '\U{1680}'
    || ('\U{2000}' <= c <= '\U{200A}')
    || c == '\U{2028}' || c == '\U{2029}' || c == '\U{202F}' || c == '\U{205F}' || c == '\U{3000}'
  }

  /** `isBlank()`: empty, or whitespace only. */
  predicate IsBlank(s: string): (blank: bool)
    ensures s == [] ==> blank
    ensures blank <==> forall c :: c in s ==> IsWhitespace(c)
  {
    forall i :: 0 <= i < |s| ==> IsWhitespace(s[i])
  }
}
