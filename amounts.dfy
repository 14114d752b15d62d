/**
 * Amounts as the bot handles them: text typed by the requester, accepted by
 * the pattern `[0-9]+(\.[0-9]+)?` and read as an exact decimal number.
 */
module Amounts {
  import opened Wrappers
  import opened Strings

  /** The pattern as a grammar: digits, or digits, one dot and digits. */
  ghost predicate MatchesAmountPattern(s: string)
  {
    || (0 < |s| && AllDigits(s))
    || exists i :: 0 < i < |s| - 1 && s[i] == '.' && AllDigits(s[..i]) && AllDigits(s[i + 1..])
  }

  /** Position of the first '.', or |s| when there is none. */
  function DotIndex(s: string): (i: nat)
    ensures i <= |s|
    ensures i < |s| ==> s[i] == '.'
    ensures forall k :: 0 <= k < i ==> s[k] != '.'
  {
    if s == [] then 0
    else if s[0] == '.' then 0
    else 1 + DotIndex(s[1..])
  }

  /** The full-match test of the amount pattern, as one left-to-right scan. */
  predicate IsAmountText(s: string)
  {
    var i := DotIndex(s);
    0 < i && AllDigits(s[..i]) && (i == |s| || (i + 1 < |s| && AllDigits(s[i + 1..])))
  }

  /** The scan accepts exactly the strings the pattern matches. */
  lemma AmountTextMatchesPattern(s: string)
    ensures IsAmountText(s) <==> MatchesAmountPattern(s)
  {
    var i := DotIndex(s);
    if IsAmountText(s) {
      if i == |s| {
        assert s[..i] == s;
      } else {
        assert 0 < i < |s| - 1 && s[i] == '.' && AllDigits(s[..i]) && AllDigits(s[i + 1..]);
      }
    }
    if MatchesAmountPattern(s) {
      if 0 < |s| && AllDigits(s) {
        assert i == |s|;
        assert s[..i] == s;
      } else {
        var j :| 0 < j < |s| - 1 && s[j] == '.' && AllDigits(s[..j]) && AllDigits(s[j + 1..]);
        assert i == j;
      }
    }
  }

  function Pow10(n: nat): (p: nat)
    ensures 1 <= p
  {
    if n == 0 then 1 else 10 * Pow10(n - 1)
  }

  /** A numeral of n digits is below 10^n. */
  lemma {:induction false} NumeralBelowPow10(s: string)
    requires AllDigits(s)
    ensures NumeralValue(s) < Pow10(|s|)
  {
    if s != [] {
      NumeralBelowPow10(s[..|s| - 1]);
    }
  }

  /** Digits after the dot: their numeral over 10 to their count. */
  function Fraction(digits: string): real
    requires AllDigits(digits)
  {
    NumeralValue(digits) as real / Pow10(|digits|) as real
  }

  lemma FractionBelowOne(digits: string)
    requires AllDigits(digits)
    ensures 0.0 <= Fraction(digits) < 1.0
  {
    var f, p := NumeralValue(digits) as real, Pow10(|digits|) as real;
    NumeralBelowPow10(digits);
    QuotientBelowOne(f, p);
  }

  lemma QuotientBelowOne(f: real, p: real)
    requires 0.0 <= f < p
    ensures 0.0 <= f / p < 1.0
  {
    BelowOneFactor(f / p, p);
  }

  lemma BelowOneFactor(q: real, p: real)
    requires 0.0 < p && q * p < p
    ensures q < 1.0
  {
  }

  /** The digits before the dot are the whole part; the ones after it add less than one. */
  function AmountValue(s: string): (v: real)
    requires IsAmountText(s)
    ensures NumeralValue(s[..DotIndex(s)]) as real <= v < NumeralValue(s[..DotIndex(s)]) as real + 1.0
  {
    var i := DotIndex(s);
    var whole := NumeralValue(s[..i]) as real;
    if i == |s| then whole
    else
      FractionBelowOne(s[i + 1..]);
      whole + Fraction(s[i + 1..])
  }

  /** Digits, a dot and digits: the whole part plus the fraction over 10 to the fraction's length. */
  lemma DecimalAmount(whole: string, fraction: string)
    requires 0 < |whole| && AllDigits(whole) && 0 < |fraction| && AllDigits(fraction)
    ensures IsAmountText(whole + "." + fraction)
    ensures AmountValue(whole + "." + fraction)
         == NumeralValue(whole) as real + NumeralValue(fraction) as real / Pow10(|fraction|) as real
    ensures IsAmountText(whole) && AmountValue(whole) == NumeralValue(whole) as real
  {
    assert DotIndex(whole) == |whole| && whole[..|whole|] == whole;
    var s := whole + "." + fraction;
    DotIndexAt(s, |whole|);
    assert s[..|whole|] == whole && s[|whole| + 1..] == fraction;
  }

  /** The first '.' of a text is found where it stands. */
  lemma {:induction false} DotIndexAt(s: string, i: nat)
    requires i < |s| && s[i] == '.' && forall k :: 0 <= k < i ==> s[k] != '.'
    ensures DotIndex(s) == i
  {
    if i > 0 {
      DotIndexAt(s[1..], i - 1);
    }
  }

  /** Python's `float(s)` on amount texts; text the pattern refuses raises (None). */
  function PyFloat(s: string): (r: Option<real>)
    ensures r.Some? <==> IsAmountText(s)
  {
    if IsAmountText(s) then Some(AmountValue(s)) else None
  }

  /** A whole number written by `str(n)` is an amount text with value n. */
  lemma WholeAmount(n: nat)
    ensures IsAmountText(NatToString(n))
    ensures AmountValue(NatToString(n)) == n as real
  {
    var s := NatToString(n);
    assert DotIndex(s) == |s|;
    assert s[..|s|] == s;
    NatToStringValue(n);
  }
}
