/** Decimal numerals: JavaScript's `String(n)` for a non-negative integer,
    the value of a digit string, and `padStart` with a single fill character. */
module Decimal {

  predicate IsDigit(c: char) {
    '0' <= c <= '9'
  }

  predicate AllDigits(s: string) {
    forall i :: 0 <= i < |s| ==> IsDigit(s[i])
  }

  function DigitValue(c: char): (d: nat)
    requires IsDigit(c)
    ensures d < 10
  {
    c as int - '0' as int
  }

  function DigitChar(d: nat): (c: char)
    requires d < 10
    ensures IsDigit(c) && DigitValue(c) == d
  {
    ('0' as int + d) as char
  }

  /** The number a string of decimal digits denotes (most significant first). */
  function Value(s: string): nat
    requires AllDigits(s)
    decreases |s|
  {
    if |s| == 0 then 0 else 10 * Value(s[..|s| - 1]) + DigitValue(s[|s| - 1])
  }

  /** `String(n)` for an integer `n >= 0`: the shortest decimal numeral of `n`. */
  function FromNat(n: nat): (s: string)
    ensures |s| >= 1 && AllDigits(s)
    ensures |s| > 1 ==> s[0] != '0'
    ensures Value(s) == n
    decreases n
  {
    if n < 10 then [DigitChar(n)]
    else
      var front := FromNat(n / 10);
      var s := front + [DigitChar(n % 10)];
      assert s[..|s| - 1] == front;
      s
  }

  /** `String(n)` for any integer `n`: a minus sign in front of the magnitude. */
  function FromInt(n: int): (s: string)
    ensures n >= 0 ==> AllDigits(s) && Value(s) == n
    ensures n < 0 ==> |s| >= 2 && s[0] == '-' && AllDigits(s[1..]) && Value(s[1..]) == -n
  {
    if n < 0 then "-" + FromNat(-n) else FromNat(n)
  }

  /** A number of 100 or more needs at least three digits. */
  lemma FromNatThreeDigits(n: nat)
    requires n >= 100
    ensures |FromNat(n)| >= 3
  {
    FromNatGrows(n);
    FromNatGrows(n / 10);
  }

  /** One digit exactly below ten, two exactly from ten to 99. */
  lemma FromNatShort(n: nat)
    ensures n < 10 <==> |FromNat(n)| == 1
    ensures 10 <= n < 100 ==> |FromNat(n)| == 2
  {
    if n >= 10 {
      FromNatGrows(n);
    }
  }

  lemma FromNatGrows(n: nat)
    requires n >= 10
    ensures |FromNat(n)| == |FromNat(n / 10)| + 1
  {
  }

  /** A leading `'0'` does not change the value of a numeral. */
  lemma {:induction false} LeadingZero(s: string)
    requires AllDigits(s)
    ensures AllDigits(['0'] + s) && Value(['0'] + s) == Value(s)
    decreases |s|
  {
    var t := ['0'] + s;
    if |s| > 0 {
      assert t[..|t| - 1] == ['0'] + s[..|s| - 1];
      LeadingZero(s[..|s| - 1]);
    }
  }

  /** Any run of leading zeros leaves the value unchanged. */
  lemma {:induction false} LeadingZeros(k: nat, s: string)
    requires AllDigits(s)
    ensures AllDigits(seq(k, _ => '0') + s)
    ensures Value(seq(k, _ => '0') + s) == Value(s)
    decreases k
  {
    if k > 0 {
      var rest := seq(k - 1, _ => '0') + s;
      LeadingZeros(k - 1, s);
      assert seq(k, _ => '0') + s == ['0'] + rest;
      LeadingZero(rest);
    } else {
      assert seq(k, _ => '0') + s == s;
    }
  }

  /** `s.padStart(width, fill)` for a one-character fill string: the fill is
      repeated in front of `s` until the result is `width` long; a string
      already that long is returned unchanged, never truncated. */
  function PadStart(s: string, width: nat, fill: char): (r: string)
    ensures |r| == if |s| >= width then |s| else width
    ensures r[|r| - |s|..] == s
    ensures forall i :: 0 <= i < |r| - |s| ==> r[i] == fill
  {
    if |s| >= width then s else seq(width - |s|, _ => fill) + s
  }

  /** Zero padding keeps a numeral a numeral of the same value. */
  lemma ZeroPadKeepsValue(s: string, width: nat)
    requires AllDigits(s)
    ensures AllDigits(PadStart(s, width, '0'))
    ensures Value(PadStart(s, width, '0')) == Value(s)
  {
    if |s| < width {
      LeadingZeros(width - |s|, s);
    }
  }
}
