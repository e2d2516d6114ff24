/**
 * The two number conversions the credential gate relies on: `parseInt` on the
 * stored expiry strings, and `toString` on the expiry epochs written back after
 * a refresh.  Only decimal integers are modelled.
 */
module Numbers {
  import opened Types

  predicate IsDigit(c: char) {
    '0' <= c <= '9'
  }

  function DigitChar(d: nat): (c: char)
    requires d < 10
    ensures IsDigit(c)
  {
    "0123456789"[d]
  }

  function DigitValue(c: char): (d: nat)
    requires IsDigit(c)
    ensures d < 10 && DigitChar(d) == c
  {
    (c as int - '0' as int) as nat
  }

  /** The longest prefix of `s` made of decimal digits. */
  function DigitPrefix(s: string): (p: string)
    ensures |p| <= |s| && p == s[..|p|]
    ensures forall i :: 0 <= i < |p| ==> IsDigit(p[i])
    ensures |p| < |s| ==> !IsDigit(s[|p|])
  {
    if |s| == 0 || !IsDigit(s[0]) then "" else [s[0]] + DigitPrefix(s[1..])
  }

  /** The value of a string of decimal digits, most significant first. */
  function DigitsValue(ds: string): nat
    requires forall i :: 0 <= i < |ds| ==> IsDigit(ds[i])
  {
    if |ds| == 0 then 0 else DigitsValue(ds[..|ds| - 1]) * 10 + DigitValue(ds[|ds| - 1])
  }

  /** The text after an optional leading sign. */
  function Unsigned(s: string): string {
    if |s| > 0 && (s[0] == '-' || s[0] == '+') then s[1..] else s
  }

  /**
   * JavaScript's `parseInt` without a radix on a sign and a decimal digit run:
   * it reads the longest digit prefix after an optional sign and ignores the
   * rest; `None` stands for NaN, the result when no digit follows.
   */
  function ParseInt(s: string): Option<int> {
    var negative := |s| > 0 && s[0] == '-';
    var ds := DigitPrefix(Unsigned(s));
    var magnitude: int := DigitsValue(ds);
    if ds == "" then None
    else if negative then Some(-magnitude)
    else Some(magnitude)
  }

  /**
   * `parseInt` is NaN exactly when no digit follows the optional sign, and
   * otherwise the sign decides the sign of the number.
   */
  lemma ParseIntShape(s: string)
    ensures ParseInt(s).None? <==> |Unsigned(s)| == 0 || !IsDigit(Unsigned(s)[0])
    ensures ParseInt(s).Some? && |s| > 0 && s[0] == '-' ==> ParseInt(s).value <= 0
    ensures ParseInt(s).Some? && (|s| == 0 || s[0] != '-') ==> ParseInt(s).value >= 0
  {
  }

  /** `Number.prototype.toString` on a non-negative integer. */
  function NatToString(n: nat): (s: string)
    ensures |s| > 0 && forall i :: 0 <= i < |s| ==> IsDigit(s[i])
  {
    if n < 10 then [DigitChar(n)] else NatToString(n / 10) + [DigitChar(n % 10)]
  }

  /** `Number.prototype.toString` on an integer: a minus sign for a negative one, then its decimal digits. */
  function IntToString(n: int): (s: string)
    ensures |s| > 0
    ensures n >= 0 ==> forall i :: 0 <= i < |s| ==> IsDigit(s[i])
    ensures n < 0 ==> |s| > 1 && s[0] == '-' && forall i :: 1 <= i < |s| ==> IsDigit(s[i])
  {
    if n < 0 then "-" + NatToString(-n) else NatToString(n)
  }

  lemma {:induction false} NatToStringValue(n: nat)
    ensures DigitsValue(NatToString(n)) == n
  {
    var s := NatToString(n);
    if n >= 10 {
      NatToStringValue(n / 10);
      assert s[..|s| - 1] == NatToString(n / 10);
    }
  }

  lemma {:induction false} DigitPrefixOfDigits(s: string)
    requires forall i :: 0 <= i < |s| ==> IsDigit(s[i])
    ensures DigitPrefix(s) == s
  {
    if |s| > 0 {
      DigitPrefixOfDigits(s[1..]);
    }
  }

  /** A written expiry reads back as the same number: `parseInt(n.toString()) == n`. */
  lemma ParseIntOfToString(n: int)
    ensures ParseInt(IntToString(n)) == Some(n)
  {
    var digits := NatToString(if n < 0 then -n else n);
    DigitPrefixOfDigits(digits);
    NatToStringValue(if n < 0 then -n else n);
    if n < 0 {
      assert Unsigned(IntToString(n)) == digits;
    }
  }
}
