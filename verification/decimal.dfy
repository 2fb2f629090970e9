/**
 Decimal rendering of integers, as Python's `str(int)` (and an f-string
 `{n}` field) produces it: an optional `-` followed by the digits of the
 magnitude, with no leading zeros.
 */
module Decimal {
  import opened Wrappers

  predicate IsDigit(ch: char) {
    '0' <= ch <= '9'
  }

  predicate AllDigits(s: string) {
    forall i :: 0 <= i < |s| ==> IsDigit(s[i])
  }

  function DigitChar(d: int): (ch: char)
    requires 0 <= d < 10
    ensures IsDigit(ch)
    ensures DigitValue(ch) == d
  {
    "0123456789"[d]
  }

  function DigitValue(ch: char): int
    requires IsDigit(ch)
  {
    ch as int - '0' as int
  }

  /** The digits of `n`, most significant first. */
  function NatText(n: nat): (s: string)
    ensures |s| >= 1
    ensures AllDigits(s)
    ensures s[0] == '0' ==> n == 0 && |s| == 1
    decreases n
  {
    if n < 10 then [DigitChar(n)] else NatText(n / 10) + [DigitChar(n % 10)]
  }

  /** The value of a string of decimal digits (0 for the empty string). */
  function ParseNat(s: string): nat
    requires AllDigits(s)
    decreases |s|
  {
    if s == [] then 0 else ParseNat(s[..|s| - 1]) * 10 + DigitValue(s[|s| - 1])
  }

  lemma {:induction false} ParseNatText(n: nat)
    ensures ParseNat(NatText(n)) == n
    decreases n
  {
    if n >= 10 {
      var s := NatText(n);
      ParseNatText(n / 10);
      assert s[..|s| - 1] == NatText(n / 10);
    }
  }

  /** Python's `str(i)` for an integer `i`. */
  function IntText(i: int): (s: string)
    ensures |s| >= 1
    ensures forall k :: 0 <= k < |s| ==> s[k] != ','
  {
    if i < 0 then "-" + NatText(-i) else NatText(i)
  }

  /** Reads back what `IntText` writes; anything else is rejected. */
  function ParseInt(s: string): Option<int> {
    if |s| >= 2 && s[0] == '-' && AllDigits(s[1..]) && s[1] != '0' then Some(-(ParseNat(s[1..]) as int))
    else if |s| >= 1 && AllDigits(s) && (s[0] != '0' || |s| == 1) then Some(ParseNat(s))
    else None
  }

  /** A minus sign before canonical digits reads as the negated value. */
  lemma ParseNegative(t: string)
    requires |t| >= 1 && AllDigits(t) && t[0] != '0'
    ensures ParseInt("-" + t) == Some(-(ParseNat(t) as int))
  {
    var s := "-" + t;
    assert s[0] == '-' && s[1..] == t;
  }

  /** Canonical digits read as their value. */
  lemma ParseNonNegative(t: string)
    requires |t| >= 1 && AllDigits(t) && (t[0] != '0' || |t| == 1)
    ensures ParseInt(t) == Some(ParseNat(t))
  {
    assert IsDigit(t[0]);
  }

  lemma ParseIntText(i: int)
    ensures ParseInt(IntText(i)) == Some(i)
  {
    if i < 0 {
      var n: nat := -i;
      var t := NatText(n);
      assert IntText(i) == "-" + t;
      assert t[0] != '0';
      ParseNatText(n);
      ParseNegative(t);
    } else {
      var t := NatText(i);
      assert IntText(i) == t;
      ParseNatText(i);
      ParseNonNegative(t);
    }
  }

  /** Different integers are written differently. */
  lemma IntTextInjective(i: int, j: int)
    ensures IntText(i) == IntText(j) ==> i == j
  {
    ParseIntText(i);
    ParseIntText(j);
  }
}
