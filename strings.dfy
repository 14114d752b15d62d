/**
 * The few pieces of Python's string and integer behaviour the bot relies on:
 * `str.split` with a one-character separator, `sep.join`, `str(n)`, `int(s)`
 * and slicing. Strings are sequences of characters.
 */
module Strings {
  import opened Wrappers

  predicate IsDigit(c: char) { '0' <= c <= '9' }

  predicate AllDigits(s: string) { forall i :: 0 <= i < |s| ==> IsDigit(s[i]) }

  function DigitValue(c: char): (d: nat)
    requires IsDigit(c)
    ensures d < 10
  {
    c as int - '0' as int
  }

  function DigitChar(d: nat): (c: char)
    requires d < 10
    ensures IsDigit(c) && DigitValue(c) == d
  {
    ('0' as int + d) as char
  }

  /** The value of a decimal numeral, most significant digit first. */
  function NumeralValue(s: string): nat
    requires AllDigits(s)
  {
    if s == [] then 0 else NumeralValue(s[..|s| - 1]) * 10 + DigitValue(s[|s| - 1])
  }

  /** Python's `str(n)` for a non-negative integer: no sign, no leading zeros. */
  function NatToString(n: nat): (r: string)
    ensures 1 <= |r| && AllDigits(r)
    ensures r[0] == '0' ==> n == 0
  {
    if n < 10 then [DigitChar(n)] else NatToString(n / 10) + [DigitChar(n % 10)]
  }

  lemma {:induction false} NatToStringValue(n: nat)
    ensures NumeralValue(NatToString(n)) == n
  {
    if n >= 10 {
      var s := NatToString(n / 10);
      var r := s + [DigitChar(n % 10)];
      assert r[..|r| - 1] == s;
      NatToStringValue(n / 10);
    }
  }

  /** Python's `str(i)` for any integer. */
  function IntToString(i: int): (r: string)
    ensures 1 <= |r|
    ensures forall k :: 0 <= k < |r| ==> IsDigit(r[k]) || (k == 0 && r[k] == '-')
  {
    if i < 0 then "-" + NatToString(-i) else NatToString(i)
  }

  /** Reads a non-empty run of decimal digits; leading zeros are accepted. */
  function ParseNat(s: string): (r: Option<nat>)
    ensures r.Some? <==> 0 < |s| && AllDigits(s)
  {
    if 0 < |s| && AllDigits(s) then Some(NumeralValue(s)) else None
  }

  lemma ParseNatToString(n: nat)
    ensures ParseNat(NatToString(n)) == Some(n)
  {
    NatToStringValue(n);
  }

  /** Python's `s.split(sep)` for a one-character separator. */
  function Split(s: string, sep: char): (r: seq<string>)
    ensures 1 <= |r|
    ensures forall k :: 0 <= k < |r| ==> sep !in r[k]
  {
    if s == [] then [""]
    else
      var rest := Split(s[1..], sep);
      if s[0] == sep then [""] + rest else [[s[0]] + rest[0]] + rest[1..]
  }

  /** Python's `sep.join(parts)` for a one-character separator. */
  function Join(parts: seq<string>, sep: char): string
  {
    if |parts| == 0 then ""
    else if |parts| == 1 then parts[0]
    else parts[0] + [sep] + Join(parts[1..], sep)
  }

  lemma {:induction false} JoinSplit(s: string, sep: char)
    ensures Join(Split(s, sep), sep) == s
  {
    if s != [] {
      var rest := Split(s[1..], sep);
      JoinSplit(s[1..], sep);
      if s[0] == sep {
        assert Join([""] + rest, sep) == "" + [sep] + Join(rest, sep);
        assert s == [s[0]] + s[1..];
      } else if |rest| == 1 {
        assert Split(s, sep) == [[s[0]] + rest[0]];
        assert s == [s[0]] + s[1..];
      } else {
        var r := [[s[0]] + rest[0]] + rest[1..];
        assert r[1..] == rest[1..];
        assert Join(rest, sep) == rest[0] + [sep] + Join(rest[1..], sep);
        assert s == [s[0]] + s[1..];
      }
    }
  }

  lemma {:induction false} SplitNoSeparator(a: string, sep: char)
    requires sep !in a
    ensures Split(a, sep) == [a]
  {
    if a != [] {
      SplitNoSeparator(a[1..], sep);
      assert a == [a[0]] + a[1..];
    }
  }

  lemma {:induction false} SplitAtSeparator(a: string, b: string, sep: char)
    requires sep !in a
    ensures Split(a + [sep] + b, sep) == [a] + Split(b, sep)
  {
    var s := a + [sep] + b;
    if a == [] {
      assert s[1..] == b;
    } else {
      assert s[1..] == a[1..] + [sep] + b;
      SplitAtSeparator(a[1..], b, sep);
      assert a == [a[0]] + a[1..];
    }
  }

  /** Splitting at a separator splits the two sides independently. */
  lemma {:induction false} SplitAppend(a: string, b: string, sep: char)
    ensures Split(a + [sep] + b, sep) == Split(a, sep) + Split(b, sep)
  {
    var s := a + [sep] + b;
    if a == [] {
      assert s[1..] == b;
    } else {
      assert s[1..] == a[1..] + [sep] + b;
      SplitAppend(a[1..], b, sep);
    }
  }

  /** Joining two non-empty lists one after the other puts one separator between their joins. */
  lemma {:induction false} JoinConcat(a: seq<string>, b: seq<string>, sep: char)
    requires 1 <= |a| && 1 <= |b|
    ensures Join(a + b, sep) == Join(a, sep) + [sep] + Join(b, sep)
  {
    if |a| > 1 {
      JoinConcat(a[1..], b, sep);
      assert (a + b)[1..] == a[1..] + b;
    }
  }

  /** Splitting a joined list gives the list back when no part holds the separator. */
  lemma {:induction false} SplitJoin(parts: seq<string>, sep: char)
    requires 1 <= |parts|
    requires forall k :: 0 <= k < |parts| ==> sep !in parts[k]
    ensures Split(Join(parts, sep), sep) == parts
  {
    if |parts| == 1 {
      SplitNoSeparator(parts[0], sep);
    } else {
      SplitJoin(parts[1..], sep);
      SplitAtSeparator(parts[0], Join(parts[1..], sep), sep);
      assert parts == [parts[0]] + parts[1..];
    }
  }

  /**
   * Python's `s.split(sep)[0]` for a separator of any non-empty length: the
   * text before the first occurrence of `sep`, or all of `s` when it has none.
   */
  function FirstField(s: string, sep: string): (r: string)
    requires 0 < |sep|
    ensures r <= s
    ensures r == s || sep <= s[|r|..]
    ensures forall i :: 0 <= i < |r| ==> !(sep <= s[i..])
  {
    if sep <= s || s == [] then ""
    else
      var rest := FirstField(s[1..], sep);
      assert forall i :: 1 <= i <= |s| ==> s[i..] == s[1..][i - 1..];
      [s[0]] + rest
  }

  /** Python's slice `s[i:j]` for non-negative bounds: out-of-range bounds are clamped. */
  function Slice(s: string, i: nat, j: nat): (r: string)
    ensures |r| == if i <= j && i <= |s| then (if j <= |s| then j else |s|) - i else 0
    ensures forall k :: 0 <= k < |r| ==> r[k] == s[i + k]
  {
    var hi := if j <= |s| then j else |s|;
    if i <= hi then s[i..hi] else ""
  }

  predicate IsSpace(c: char) { c == ' ' || c == '\t' || c == '\n' || c == '\r' || c == '\U{000B}' || c == '\U{000C}' }

  function TrimStart(s: string): (r: string)
    ensures r <= s || (|r| <= |s| && r == s[|s| - |r|..])
    ensures r == [] || !IsSpace(r[0])
  {
    if s != [] && IsSpace(s[0]) then TrimStart(s[1..]) else s
  }

  function TrimEnd(s: string): (r: string)
    ensures r <= s
    ensures r == [] || !IsSpace(r[|r| - 1])
  {
    if s != [] && IsSpace(s[|s| - 1]) then TrimEnd(s[..|s| - 1]) else s
  }

  /** Leading whitespace is what TrimStart drops. */
  lemma {:induction false} TrimStartPadding(pre: string, t: string)
    requires forall k :: 0 <= k < |pre| ==> IsSpace(pre[k])
    requires t == [] || !IsSpace(t[0])
    ensures TrimStart(pre + t) == t
  {
    if pre != [] {
      assert (pre + t)[1..] == pre[1..] + t;
      TrimStartPadding(pre[1..], t);
    } else {
      assert pre + t == t;
    }
  }

  /** Trailing whitespace is what TrimEnd drops. */
  lemma {:induction false} TrimEndPadding(t: string, post: string)
    requires forall k :: 0 <= k < |post| ==> IsSpace(post[k])
    requires t == [] || !IsSpace(t[|t| - 1])
    ensures TrimEnd(t + post) == t
  {
    if post != [] {
      var n := |post| - 1;
      assert (t + post)[..|t + post| - 1] == t + post[..n];
      TrimEndPadding(t, post[..n]);
    } else {
      assert t + post == t;
    }
  }

  /**
   * Python's `int(s)`: optional surrounding whitespace, an optional sign and a
   * non-empty run of decimal digits; anything else raises (`None` here).
   */
  function PyInt(s: string): (r: Option<int>)
    ensures 0 < |s| && AllDigits(s) ==> r == Some(NumeralValue(s))
  {
    SignedNumeral(TrimEnd(TrimStart(s)))
  }

  /** An optional sign followed by a non-empty run of digits, with nothing around it. */
  function SignedNumeral(t: string): (r: Option<int>)
    ensures 0 < |t| && AllDigits(t) ==> r == Some(NumeralValue(t))
  {
    if 0 < |t| && (t[0] == '+' || t[0] == '-') then
      var digits := t[1..];
      if 0 < |digits| && AllDigits(digits) then
        var v: int := if t[0] == '-' then 0 - NumeralValue(digits) as int else NumeralValue(digits);
        Some(v)
      else None
    else if 0 < |t| && AllDigits(t) then Some(NumeralValue(t))
    else None
  }

  /**
   * `int()` on a digit run with an optional sign and surrounding whitespace:
   * the whitespace is ignored and a minus negates.
   */
  lemma {:induction false} PyIntPadded(pre: string, sign: string, digits: string, post: string)
    requires forall k :: 0 <= k < |pre| ==> IsSpace(pre[k])
    requires forall k :: 0 <= k < |post| ==> IsSpace(post[k])
    requires sign == "" || sign == "+" || sign == "-"
    requires 0 < |digits| && AllDigits(digits)
    ensures PyInt(pre + sign + digits + post)
         == Some(if sign == "-" then 0 - NumeralValue(digits) as int else NumeralValue(digits) as int)
  {
    var t := sign + digits;
    assert pre + sign + digits + post == pre + t + post;
    SignedDigits(sign, digits);
    Padded(pre, t, post);
  }

  /** Whitespace around a text that neither starts nor ends with it is trimmed away. */
  lemma {:induction false} Padded(pre: string, t: string, post: string)
    requires forall k :: 0 <= k < |pre| ==> IsSpace(pre[k])
    requires forall k :: 0 <= k < |post| ==> IsSpace(post[k])
    requires 0 < |t| && !IsSpace(t[0]) && !IsSpace(t[|t| - 1])
    ensures TrimEnd(TrimStart(pre + t + post)) == t
  {
    assert pre + t + post == pre + (t + post);
    assert (t + post)[0] == t[0];
    TrimStartPadding(pre, t + post);
    TrimEndPadding(t, post);
  }

  lemma {:induction false} SignedDigits(sign: string, digits: string)
    requires sign == "" || sign == "+" || sign == "-"
    requires 0 < |digits| && AllDigits(digits)
    ensures var t := sign + digits;
      && !IsSpace(t[0]) && !IsSpace(t[|t| - 1])
      && SignedNumeral(t)
         == Some(if sign == "-" then 0 - NumeralValue(digits) as int else NumeralValue(digits) as int)
  {
    var t := sign + digits;
    assert t[|t| - 1] == digits[|digits| - 1];
    if sign != "" {
      assert t[1..] == digits;
    } else {
      assert t == digits;
    }
  }

  /** `int(str(i)) == i`. */
  lemma {:induction false} PyIntOfIntToString(i: int)
    ensures PyInt(IntToString(i)) == Some(i)
  {
    if i < 0 {
      var digits := NatToString(-i);
      NatToStringValue(-i);
      PyIntUnpadded("-", digits);
      assert PyInt("-" + digits) == Some(i);
    } else {
      var digits := NatToString(i);
      NatToStringValue(i);
      PyIntUnpadded("", digits);
      assert "" + digits == digits;
      assert PyInt(digits) == Some(i);
    }
  }

  lemma {:induction false} PyIntUnpadded(sign: string, digits: string)
    requires sign == "" || sign == "-"
    requires 0 < |digits| && AllDigits(digits)
    ensures PyInt(sign + digits)
         == Some(if sign == "-" then 0 - NumeralValue(digits) as int else NumeralValue(digits) as int)
  {
    assert "" + sign + digits + "" == sign + digits;
    PyIntPadded("", sign, digits, "");
  }
}
