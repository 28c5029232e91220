/**
 * The small part of Python's string behaviour the application relies on:
 * `str(n)` for integers, `int(s)` and (a subset of) `float(s)` on user input,
 * `s.strip()`, `s.replace(old, new)` and `sep.join(parts)`.
 */
module Text {
  import opened Wrappers

  predicate IsDigit(c: char) { '0' <= c <= '9' }

  predicate AllDigits(s: string) { forall i :: 0 <= i < |s| ==> IsDigit(s[i]) }

  /**
   * Characters `str.strip()` removes: those `str.isspace()` accepts, namely
   * tab to carriage return, the four separators \x1c-\x1f, space, NEL,
   * no-break space and the Unicode space and line/paragraph separators.
   */
  predicate IsSpace(c: char)
  {
    || '\t' <= c <= '\r'
    || '\U{1C}' <= c <= ' '
    || c == '\U{85}' || c == '\U{A0}' || c == '\U{1680}'
    || '\U{2000}' <= c <= '\U{200A}'
    || c == '\U{2028}' || c == '\U{2029}' || c == '\U{202F}' || c == '\U{205F}' || c == '\U{3000}'
  }

  function DigitChar(d: nat): (c: char)
    requires d < 10
    ensures IsDigit(c) && DigitValue(c) == d
  {
    (48 + d) as char
  }

  function DigitValue(c: char): (d: nat)
    requires IsDigit(c)
    ensures d < 10
  {
    (c as int) - 48
  }

  /** Decimal digits of a natural number, most significant first, no leading zeros. */
  function NatToString(n: nat): (s: string)
    ensures |s| > 0 && AllDigits(s)
    ensures |s| > 1 ==> s[0] != '0'
    decreases n
  {
    if n < 10 then [DigitChar(n)] else NatToString(n / 10) + [DigitChar(n % 10)]
  }

  /** Python's `str(n)` for an `int`. */
  function IntToString(n: int): (s: string)
    ensures |s| > 0
    ensures n < 0 <==> s[0] == '-'
    ensures n >= 0 ==> AllDigits(s)
  {
    if n < 0 then "-" + NatToString(-n) else NatToString(n)
  }

  /** The number a non-empty run of decimal digits denotes. */
  function DigitsToNat(s: string): nat
    requires AllDigits(s)
    decreases |s|
  {
    if s == [] then 0 else DigitsToNat(s[..|s| - 1]) * 10 + DigitValue(s[|s| - 1])
  }

  lemma {:induction false} DigitsOfNat(n: nat)
    ensures DigitsToNat(NatToString(n)) == n
    decreases n
  {
    var s := NatToString(n);
    if n >= 10 {
      DigitsOfNat(n / 10);
      assert s[..|s| - 1] == NatToString(n / 10);
    }
  }

  function StripLeft(s: string): string
    decreases |s|
  {
    if s != [] && IsSpace(s[0]) then StripLeft(s[1..]) else s
  }

  function StripRight(s: string): string
    decreases |s|
  {
    if s != [] && IsSpace(s[|s| - 1]) then StripRight(s[..|s| - 1]) else s
  }

  /** Python's `s.strip()`: leading and trailing whitespace removed. */
  function Strip(s: string): string
  {
    StripRight(StripLeft(s))
  }

  lemma {:induction false} StripLeftSpec(s: string)
    ensures var r := StripLeft(s); |r| <= |s| && r == s[|s| - |r|..] && (r == [] || !IsSpace(r[0]))
    ensures forall i :: 0 <= i < |s| - |StripLeft(s)| ==> IsSpace(s[i])
    decreases |s|
  {
    if s != [] && IsSpace(s[0]) {
      StripLeftSpec(s[1..]);
      assert forall i :: 1 <= i < |s| ==> s[1..][i - 1] == s[i];
    }
  }

  lemma {:induction false} StripRightSpec(s: string)
    ensures var r := StripRight(s); |r| <= |s| && r == s[..|r|] && (r == [] || !IsSpace(r[|r| - 1]))
    ensures forall i :: |StripRight(s)| <= i < |s| ==> IsSpace(s[i])
    decreases |s|
  {
    if s != [] && IsSpace(s[|s| - 1]) {
      StripRightSpec(s[..|s| - 1]);
    }
  }

  /**
   * `strip()` keeps a contiguous piece of its input that neither starts nor
   * ends with whitespace, and everything it drops is whitespace.
   */
  lemma StripSpec(s: string)
    ensures var r := Strip(s);
      && (r == [] || (!IsSpace(r[0]) && !IsSpace(r[|r| - 1])))
      && exists k :: 0 <= k <= |s| && r <= s[k..]
  {
    StripLeftSpec(s);
    var l := StripLeft(s);
    StripRightSpec(l);
    var r := StripRight(l);
    var k := |s| - |l|;
    assert l == s[k..];
    assert r <= s[k..];
    if r != [] {
      assert r[0] == l[0];
    }
  }

  /** Text that neither starts nor ends with whitespace is left as it is. */
  lemma StripOfTrimmed(s: string)
    requires |s| > 0 && !IsSpace(s[0]) && !IsSpace(s[|s| - 1])
    ensures Strip(s) == s
  {
    assert StripLeft(s) == s;
    assert StripRight(s) == s;
  }

  /**
   * Python's `int(s)` for a `str` argument: surrounding whitespace is
   * ignored, then an optional sign and one or more decimal digits;
   * anything else raises `ValueError`, modelled as `None`.
   */
  function ParseInt(s: string): Option<int>
  {
    var t := Strip(s);
    if |t| > 0 && (t[0] == '-' || t[0] == '+') then
      if |t| > 1 && AllDigits(t[1..]) then
        var v: int := DigitsToNat(t[1..]);
        Some(if t[0] == '-' then -v else v)
      else None
    else if |t| > 0 && AllDigits(t) then Some(DigitsToNat(t))
    else None
  }

  /** A run of digits, and a run of digits after a minus sign, are left alone by `strip()`. */
  lemma StripOfNumeral(d: string)
    requires |d| > 0 && AllDigits(d)
    ensures Strip(d) == d && Strip("-" + d) == "-" + d
  {
    assert IsDigit(d[0]) && IsDigit(d[|d| - 1]);
    StripOfTrimmed(d);
    var m := "-" + d;
    assert m[|m| - 1] == d[|d| - 1];
    StripOfTrimmed(m);
  }

  lemma ParseIntOfDigits(d: string)
    requires |d| > 0 && AllDigits(d) && Strip(d) == d
    ensures ParseInt(d) == Some(DigitsToNat(d) as int)
  {
    assert IsDigit(d[0]);
  }

  lemma ParseIntOfNegatedDigits(d: string)
    requires |d| > 0 && AllDigits(d) && Strip("-" + d) == "-" + d
    ensures ParseInt("-" + d) == Some(-(DigitsToNat(d) as int))
  {
    assert ("-" + d)[1..] == d;
  }

  /** `int(str(n)) == n`: the text a screen shows for a number reads back as that number. */
  lemma ParseIntOfIntToString(n: int)
    ensures ParseInt(IntToString(n)) == Some(n)
  {
    if n < 0 {
      var d := NatToString(-n);
      DigitsOfNat(-n);
      StripOfNumeral(d);
      ParseIntOfNegatedDigits(d);
    } else {
      var d := NatToString(n);
      DigitsOfNat(n);
      StripOfNumeral(d);
      ParseIntOfDigits(d);
    }
  }

  function Pow10(k: nat): (p: nat)
    ensures p >= 1
  {
    if k == 0 then 1 else 10 * Pow10(k - 1)
  }

  /** Unsigned decimal literal: digits, optionally a point and more digits, at least one digit in all. */
  function ParseUnsignedDecimal(t: string): Option<real>
  {
    if |t| > 0 && AllDigits(t) then Some(DigitsToNat(t) as real)
    else
      var k := DotIndex(t);
      if k < |t| && AllDigits(t[..k]) && AllDigits(t[k + 1..]) && |t| > 1 then
        Some(DigitsToNat(t[..k]) as real + DigitsToNat(t[k + 1..]) as real / Pow10(|t| - k - 1) as real)
      else None
  }

  /** Index of the first '.', or `|t|` when there is none. */
  function DotIndex(t: string): (k: nat)
    ensures k <= |t|
    ensures k < |t| ==> t[k] == '.'
    ensures forall i :: 0 <= i < k ==> t[i] != '.'
    decreases |t|
  {
    if t == [] then 0 else if t[0] == '.' then 0 else 1 + DotIndex(t[1..])
  }

  /**
   * Python's `float(s)` restricted to plain decimal notation: surrounding
   * whitespace, an optional sign, digits with at most one decimal point.
   */
  function ParseFloat(s: string): Option<real>
  {
    var t := Strip(s);
    if |t| > 0 && (t[0] == '-' || t[0] == '+') then
      match ParseUnsignedDecimal(t[1..])
      case Some(v) => Some(if t[0] == '-' then -v else v)
      case None => None
    else if |t| > 0 then ParseUnsignedDecimal(t)
    else None
  }

  /** A plain run of digits reads as the number it denotes. */
  lemma ParseUnsignedDecimalOfDigits(t: string)
    requires |t| > 0 && AllDigits(t)
    ensures ParseUnsignedDecimal(t) == Some(DigitsToNat(t) as real)
  {
  }

  lemma ParseFloatOfDigits(d: string)
    requires |d| > 0 && AllDigits(d) && Strip(d) == d
    ensures ParseFloat(d) == Some(DigitsToNat(d) as real)
  {
    assert IsDigit(d[0]);
    ParseUnsignedDecimalOfDigits(d);
  }

  lemma ParseFloatOfNegatedDigits(d: string)
    requires |d| > 0 && AllDigits(d) && Strip("-" + d) == "-" + d
    ensures ParseFloat("-" + d) == Some(-(DigitsToNat(d) as real))
  {
    var t := "-" + d;
    assert t[1..] == d;
    ParseUnsignedDecimalOfDigits(d);
    assert ParseUnsignedDecimal(t[1..]) == Some(DigitsToNat(d) as real);
  }

  /** Every string `int()` accepts, `float()` accepts with the same value. */
  lemma ParseFloatOfIntToString(n: int)
    ensures ParseFloat(IntToString(n)) == Some(n as real)
  {
    if n < 0 {
      var d := NatToString(-n);
      DigitsOfNat(-n);
      StripOfNumeral(d);
      ParseFloatOfNegatedDigits(d);
    } else {
      var d := NatToString(n);
      DigitsOfNat(n);
      StripOfNumeral(d);
      ParseFloatOfDigits(d);
    }
  }

  /** `pat` occurs in `s` at position `i`. */
  predicate OccursAt(s: string, pat: string, i: nat)
  {
    i + |pat| <= |s| && s[i..i + |pat|] == pat
  }

  /**
   * Python's `s.replace(pat, rep)` for a non-empty `pat`: occurrences are
   * replaced left to right, without overlap.
   */
  function ReplaceAll(s: string, pat: string, rep: string): string
    requires |pat| > 0
    decreases |s|
  {
    if |s| < |pat| then s
    else if s[..|pat|] == pat then rep + ReplaceAll(s[|pat|..], pat, rep)
    else [s[0]] + ReplaceAll(s[1..], pat, rep)
  }

  /** A string without the pattern is left as it is. */
  lemma {:induction false} ReplaceAllAbsent(s: string, pat: string, rep: string)
    requires |pat| > 0
    requires forall i: nat :: !OccursAt(s, pat, i)
    ensures ReplaceAll(s, pat, rep) == s
    decreases |s|
  {
    if |s| >= |pat| {
      assert !OccursAt(s, pat, 0);
      forall i: nat ensures !OccursAt(s[1..], pat, i) {
        assert !OccursAt(s, pat, i + 1);
        if i + |pat| <= |s| - 1 {
          assert s[1..][i..i + |pat|] == s[i + 1..i + 1 + |pat|];
        }
      }
      ReplaceAllAbsent(s[1..], pat, rep);
    }
  }

  /** Replacing the pattern by itself changes nothing. */
  lemma {:induction false} ReplaceAllBySelf(s: string, pat: string)
    requires |pat| > 0
    ensures ReplaceAll(s, pat, pat) == s
    decreases |s|
  {
    if |s| >= |pat| {
      if s[..|pat|] == pat {
        ReplaceAllBySelf(s[|pat|..], pat);
        assert s == s[..|pat|] + s[|pat|..];
      } else {
        ReplaceAllBySelf(s[1..], pat);
        assert s == [s[0]] + s[1..];
      }
    }
  }

  /** A prefix free of the pattern's first character passes through unchanged. */
  lemma {:induction false} ReplaceAllSkipsPrefix(a: string, b: string, pat: string, rep: string)
    requires |pat| > 0
    requires forall i :: 0 <= i < |a| ==> a[i] != pat[0]
    ensures ReplaceAll(a + b, pat, rep) == a + ReplaceAll(b, pat, rep)
    decreases |a|
  {
    if a != [] {
      var s := a + b;
      assert s[0] == a[0];
      if |s| >= |pat| {
        assert s[..|pat|] != pat by { assert s[..|pat|][0] == a[0]; }
        assert s[1..] == a[1..] + b;
        ReplaceAllSkipsPrefix(a[1..], b, pat, rep);
        assert ReplaceAll(s, pat, rep) == [s[0]] + ReplaceAll(s[1..], pat, rep);
        assert a == [a[0]] + a[1..];
        assert [s[0]] + (a[1..] + ReplaceAll(b, pat, rep)) == a + ReplaceAll(b, pat, rep);
      } else {
        assert ReplaceAll(s, pat, rep) == s && ReplaceAll(b, pat, rep) == b;
      }
    } else {
      assert a + b == b;
    }
  }

  /** Python's `sep.join(parts)`. */
  function Join(parts: seq<string>, sep: string): (r: string)
    ensures parts == [] ==> r == []
    ensures |parts| == 1 ==> r == parts[0]
    decreases |parts|
  {
    if parts == [] then [] else if |parts| == 1 then parts[0] else parts[0] + sep + Join(parts[1..], sep)
  }
}
