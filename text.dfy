/**
 * Rendering numbers into text the way Python's f-strings and JavaScript's
 * template literals do for the values the services print: `str(int)`,
 * `${n}` for integers, and Python's `{x:.2f}`.
 */
module Text {
  import opened Numeric

  predicate IsDigit(c: char)
  {
    '0' <= c <= '9'
  }

  predicate AllDigits(s: string)
  {
    forall i :: 0 <= i < |s| ==> IsDigit(s[i])
  }

  function DigitChar(d: int): (c: char)
    requires 0 <= d < 10
    ensures IsDigit(c)
  {
    "0123456789"[d]
  }

  function DigitValue(c: char): (d: nat)
    requires IsDigit(c)
    ensures d < 10
  {
    c as int - '0' as int
  }

  /** Decimal notation of a natural number, without leading zeros. */
  function NatToString(n: nat): (s: string)
    ensures |s| >= 1 && AllDigits(s)
    ensures |s| > 1 ==> s[0] != '0'
  {
    if n < 10 then [DigitChar(n)] else NatToString(n / 10) + [DigitChar(n % 10)]
  }

  /** The value of a string of decimal digits. */
  function ParseNat(s: string): nat
    requires AllDigits(s)
  {
    if s == [] then 0 else 10 * ParseNat(s[..|s| - 1]) + DigitValue(s[|s| - 1])
  }

  /** Reading back what `NatToString` wrote gives the number again. */
  lemma {:induction false} ParseNatToString(n: nat)
    ensures ParseNat(NatToString(n)) == n
  {
    var s := NatToString(n);
    if n >= 10 {
      ParseNatToString(n / 10);
      assert s[..|s| - 1] == NatToString(n / 10);
    }
  }

  /** `str(n)` / `${n}` for an integer: a minus sign exactly for negative values, then the digits
      of the magnitude, without leading zeros, which read back as it. */
  function IntToString(i: int): (s: string)
    ensures |s| > 0 && (s[0] == '-' <==> i < 0)
    ensures var digits := if i < 0 then s[1..] else s;
      && AllDigits(digits) && ParseNat(digits) == (if i < 0 then -i else i)
      && (|digits| > 1 ==> digits[0] != '0')
  {
    var magnitude := if i < 0 then -i else i;
    ParseNatToString(magnitude);
    var digits := NatToString(magnitude);
    assert IsDigit(digits[0]);
    if i < 0 then
      assert ("-" + digits)[1..] == digits;
      "-" + digits
    else digits
  }

  /** The hundredths that `{x:.2f}` shows for `|x|`: rounded half to even. */
  function Hundredths(x: real): (n: nat)
    ensures -0.005 <= n as real / 100.0 - (if x < 0.0 then -x else x) <= 0.005
  {
    var a := if x < 0.0 then -x else x;
    var r := RoundHalfEven(a * 100.0);
    assert r >= 0 by { RoundHalfEvenMonotone(0.0, a * 100.0); RoundHalfEvenOfInt(0); }
    r
  }

  /** `n` hundredths written as the integer part, a point and two digits. */
  function HundredthsToString(n: nat): (s: string)
  {
    NatToString(n / 100) + "." + [DigitChar(n % 100 / 10), DigitChar(n % 10)]
  }

  /** Python's `{x:.2f}`: a minus sign for negative `x`, then `|x|` in hundredths. */
  function FixedTwo(x: real): (s: string)
  {
    var body := HundredthsToString(Hundredths(x));
    if x < 0.0 then "-" + body else body
  }

  lemma DigitRoundTrip(d: int)
    requires 0 <= d < 10
    ensures DigitValue(DigitChar(d)) == d
  {
  }

  /** The text for `n` hundredths ends in a point and two digits; the integer part has no
      leading zeros, and the digits before and after the point spell `n` back. */
  lemma {:induction false} HundredthsReadBack(n: nat)
    ensures var s := HundredthsToString(n); var k := |s| - 3;
      && 0 < k && s[k] == '.'
      && AllDigits(s[..k]) && AllDigits(s[k + 1..])
      && (k > 1 ==> s[0] != '0')
      && 100 * ParseNat(s[..k]) + ParseNat(s[k + 1..]) == n
  {
    var s := HundredthsToString(n);
    var k := |s| - 3;
    var hi, lo := n % 100 / 10, n % 10;
    assert s[..k] == NatToString(n / 100);
    assert s[k + 1..] == [DigitChar(hi), DigitChar(lo)];
    ParseNatToString(n / 100);
    DigitRoundTrip(hi);
    DigitRoundTrip(lo);
    assert [DigitChar(hi), DigitChar(lo)][..1] == [DigitChar(hi)];
    assert ParseNat([DigitChar(hi)]) == hi;
  }

  /** `{x:.2f}` starts with a minus sign exactly when `x` is negative; the rest is an integer
      part without leading zeros, a point and two digits, which read back as `|x|` rounded
      to hundredths. */
  lemma FixedTwoReadsBack(x: real)
    ensures var s := FixedTwo(x);
      var body := if x < 0.0 then s[1..] else s; var k := |body| - 3;
      && |s| > 0 && (s[0] == '-' <==> x < 0.0)
      && 0 < k && body[k] == '.'
      && AllDigits(body[..k]) && AllDigits(body[k + 1..])
      && (k > 1 ==> body[0] != '0')
      && 100 * ParseNat(body[..k]) + ParseNat(body[k + 1..]) == Hundredths(x)
  {
    var h := HundredthsToString(Hundredths(x));
    HundredthsReadBack(Hundredths(x));
    assert IsDigit(h[..|h| - 3][0]);
    if x < 0.0 {
      assert ("-" + h)[1..] == h;
    }
  }

  // Prefixes and suffixes.

  predicate StartsWith(s: string, prefix: string)
  {
    |prefix| <= |s| && s[..|prefix|] == prefix
  }

  predicate EndsWith(s: string, suffix: string)
  {
    |suffix| <= |s| && s[|s| - |suffix|..] == suffix
  }

  /** A string that starts with `prefix` agrees with it at every position of `prefix`. */
  lemma StartsWithAt(s: string, prefix: string, i: int)
    requires StartsWith(s, prefix) && 0 <= i < |prefix|
    ensures s[i] == prefix[i]
  {
    assert s[..|prefix|][i] == s[i];
  }

  /** Appending keeps a prefix. */
  lemma StartsWithAppend(s: string, t: string, prefix: string)
    requires StartsWith(s, prefix)
    ensures StartsWith(s + t, prefix)
  {
    assert (s + t)[..|prefix|] == s[..|prefix|];
  }

  /** A string that ends with `suffix` agrees with it at every position counted from the end. */
  lemma EndsWithAt(s: string, suffix: string, k: int)
    requires EndsWith(s, suffix) && 1 <= k <= |suffix|
    ensures s[|s| - k] == suffix[|suffix| - k]
  {
    assert s[|s| - |suffix|..][|suffix| - k] == s[|s| - k];
  }

  /** A string starts with what is written first. */
  lemma StartsWithConcat(s: string, t: string)
    ensures StartsWith(s + t, s)
  {
    assert (s + t)[..|s|] == s;
  }

  /** Prepending keeps a suffix. */
  lemma EndsWithPrepend(s: string, t: string, suffix: string)
    requires EndsWith(t, suffix)
    ensures EndsWith(s + t, suffix)
  {
    assert (s + t)[|s + t| - |suffix|..] == t[|t| - |suffix|..];
  }

  /** A string ends with what is written last. */
  lemma EndsWithConcat(s: string, t: string)
    ensures EndsWith(s + t, t)
  {
    assert (s + t)[|s + t| - |t|..] == t;
  }
}
