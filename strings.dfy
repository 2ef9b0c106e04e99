/** Python's `str.strip` and `float()` of a text, as far as the backend
    relies on them: stripping the stored scenario descriptions and converting
    scenario overrides given as JSON strings. */
module Strings {
  import opened Wrappers

  // ---------------------------------------------------------------------
  // str.strip
  // ---------------------------------------------------------------------

  /** The characters `str.strip` removes: those `str.isspace` accepts, the
      ASCII separators \x1c-\x1f included. */
  predicate IsSpace(c: char) {
    c == ' ' || ('\t' <= c <= '\r') || ('\U{001C}' <= c <= '\U{001F}') ||
    c == '\U{0085}' || c == '\U{00A0}' || c == '\U{1680}' || ('\U{2000}' <= c <= '\U{200A}') ||
    c == '\U{2028}' || c == '\U{2029}' || c == '\U{202F}' || c == '\U{205F}' || c == '\U{3000}'
  }

  /** The number of whitespace characters `s` starts with. */
  function LeadingSpaces(s: string): (k: nat)
    ensures k <= |s|
    ensures forall i :: 0 <= i < k ==> IsSpace(s[i])
    ensures k < |s| ==> !IsSpace(s[k])
    decreases |s|
  {
    if s != [] && IsSpace(s[0]) then
      var k := LeadingSpaces(s[1..]);
      assert forall i :: 1 <= i <= k ==> s[i] == s[1..][i - 1];
      1 + k
    else 0
  }

  /** The length of `s` less the whitespace it ends with. */
  function TrailingEnd(s: string): (k: nat)
    ensures k <= |s|
    ensures forall i :: k <= i < |s| ==> IsSpace(s[i])
    ensures 0 < k ==> !IsSpace(s[k - 1])
    decreases |s|
  {
    if s != [] && IsSpace(s[|s| - 1]) then
      var k := TrailingEnd(s[..|s| - 1]);
      assert forall i :: 0 <= i < |s| - 1 ==> s[i] == s[..|s| - 1][i];
      k
    else |s|
  }

  /** `str.lstrip`: the longest suffix that does not start with whitespace;
      everything removed is whitespace. */
  function StripLeft(s: string): (r: string)
    ensures |r| <= |s| && r == s[|s| - |r|..]
    ensures forall i :: 0 <= i < |s| - |r| ==> IsSpace(s[i])
    ensures r == [] || !IsSpace(r[0])
  {
    s[LeadingSpaces(s)..]
  }

  /** `str.rstrip`: the longest prefix that does not end with whitespace;
      everything removed is whitespace. */
  function StripRight(s: string): (r: string)
    ensures |r| <= |s| && r == s[..|r|]
    ensures forall i :: |r| <= i < |s| ==> IsSpace(s[i])
    ensures r == [] || !IsSpace(r[|r| - 1])
  {
    s[..TrailingEnd(s)]
  }

  /** `str.strip`: the slice `s[lo..lo + |r|]` with whitespace only before
      and after it, and no whitespace at its own ends. */
  function Strip(s: string): (r: string)
    ensures var lo := LeadingSpaces(s);
            && lo + |r| <= |s| && r == s[lo..lo + |r|]
            && (forall i :: 0 <= i < lo ==> IsSpace(s[i]))
            && (forall i :: lo + |r| <= i < |s| ==> IsSpace(s[i]))
    ensures r == [] || (!IsSpace(r[0]) && !IsSpace(r[|r| - 1]))
  {
    var lo := LeadingSpaces(s);
    var l := s[lo..];
    var r := l[..TrailingEnd(l)];
    assert r == s[lo..lo + |r|];
    assert forall i :: lo + |r| <= i < |s| ==> s[i] == l[i - lo];
    r
  }

  /** Text without whitespace at its ends is its own stripped form. */
  lemma StripTrimmed(s: string)
    requires s == [] || (!IsSpace(s[0]) && !IsSpace(s[|s| - 1]))
    ensures Strip(s) == s
  {
  }

  lemma StripIdempotent(s: string)
    ensures Strip(Strip(s)) == Strip(s)
  {
    StripTrimmed(Strip(s));
  }

  // ---------------------------------------------------------------------
  // float(str)
  // ---------------------------------------------------------------------

  predicate IsDigit(c: char) {
    '0' <= c <= '9'
  }

  predicate AllDigits(s: string) {
    forall i :: 0 <= i < |s| ==> IsDigit(s[i])
  }

  /** The value of a decimal digit string, most significant digit first. */
  function DigitsValue(s: string): nat
    requires AllDigits(s)
    decreases |s|
  {
    if s == [] then 0
    else DigitsValue(s[..|s| - 1]) * 10 + (s[|s| - 1] as int - '0' as int)
  }

  function Pow10(n: nat): (r: nat)
    ensures r >= 1
  {
    if n == 0 then 1 else 10 * Pow10(n - 1)
  }

  /** The position of the first `c` in `s`, or `|s|` when there is none. */
  function IndexOf(s: string, c: char): (i: nat)
    ensures i <= |s| && (i < |s| ==> s[i] == c)
    ensures forall j :: 0 <= j < i ==> s[j] != c
    decreases |s|
  {
    if s == [] || s[0] == c then 0 else 1 + IndexOf(s[1..], c)
  }

  /** An unsigned decimal: digits, optionally a point and more digits, with
      at least one digit in all ("5", "5.", ".5", "0.25"). */
  function ParseUnsigned(s: string): Option<real> {
    var d := IndexOf(s, '.');
    var whole := s[..d];
    var frac := if d < |s| then s[d + 1..] else [];
    if AllDigits(whole) && AllDigits(frac) && |whole| + |frac| > 0 then
      Some(DecimalValue(whole, frac))
    else None
  }

  /** The value of the digits `whole` "." `frac`. */
  function DecimalValue(whole: string, frac: string): real
    requires AllDigits(whole) && AllDigits(frac)
  {
    DigitsValue(whole) as real + DigitsValue(frac) as real / Pow10(|frac|) as real
  }

  /** float(s) for a text: surrounding whitespace is ignored and a leading
      sign is allowed; None stands for the ValueError of any other text. */
  function ParseFloat(s: string): Option<real> {
    ParseSigned(Strip(s))
  }

  /** An unsigned decimal with an optional leading sign. */
  function ParseSigned(t: string): Option<real> {
    if t != [] && t[0] == '-' then
      match ParseUnsigned(t[1..])
      case None => None
      case Some(x) => Some(-x)
    else if t != [] && t[0] == '+' then ParseUnsigned(t[1..])
    else ParseUnsigned(t)
  }

  function DigitChar(d: nat): (c: char)
    requires d < 10
    ensures IsDigit(c) && c as int - '0' as int == d
  {
    ('0' as int + d) as char
  }

  /** The decimal digits of a natural number, as str(n) writes them. */
  function NatDigits(n: nat): (r: string)
    ensures r != [] && AllDigits(r)
    decreases n
  {
    if n < 10 then [DigitChar(n)] else NatDigits(n / 10) + [DigitChar(n % 10)]
  }

  lemma {:induction false} NatDigitsValue(n: nat)
    ensures DigitsValue(NatDigits(n)) == n
    decreases n
  {
    if n >= 10 {
      var s := NatDigits(n);
      assert s[..|s| - 1] == NatDigits(n / 10);
      NatDigitsValue(n / 10);
    }
  }

  /** A digit string parses as its value. */
  lemma ParseUnsignedDigits(s: string)
    requires s != [] && AllDigits(s)
    ensures ParseUnsigned(s) == Some(DigitsValue(s) as real)
  {
    DigitsNoPoint(s);
    assert s[..|s|] == s;
    var none: string := [];
    assert DigitsValue(none) == 0 && Pow10(|none|) == 1;
    assert DecimalValue(s, none) == DigitsValue(s) as real + 0.0 / 1.0;
  }

  /** A digit string has no decimal point. */
  lemma {:induction false} DigitsNoPoint(s: string)
    requires AllDigits(s)
    ensures IndexOf(s, '.') == |s|
    decreases |s|
  {
    if s != [] {
      assert IsDigit(s[0]);
      DigitsNoPoint(s[1..]);
    }
  }

  /** A text without whitespace at its ends and without a sign parses unsigned. */
  lemma ParseFloatPlain(s: string)
    requires s != [] && !IsSpace(s[0]) && !IsSpace(s[|s| - 1]) && s[0] != '-' && s[0] != '+'
    ensures ParseFloat(s) == ParseUnsigned(s)
  {
    StripTrimmed(s);
    assert ParseSigned(s) == ParseUnsigned(s);
  }

  /** A minus sign negates what follows it. */
  lemma ParseFloatMinus(s: string)
    requires s != [] && !IsSpace(s[|s| - 1]) && ParseUnsigned(s).Some?
    ensures ParseFloat("-" + s) == Some(-ParseUnsigned(s).value)
  {
    var m := "-" + s;
    ParseSignedMinus(s);
    assert m[|m| - 1] == s[|s| - 1];
    StripTrimmed(m);
  }

  lemma ParseSignedMinus(s: string)
    requires ParseUnsigned(s).Some?
    ensures ParseSigned("-" + s) == Some(-ParseUnsigned(s).value)
  {
    var m := "-" + s;
    assert m[1..] == s && m[0] == '-';
  }

  /** A digit string has no whitespace at its ends. */
  lemma DigitsNotSpace(s: string)
    requires s != [] && AllDigits(s)
    ensures !IsSpace(s[0]) && !IsSpace(s[|s| - 1]) && s[0] != '-' && s[0] != '+'
  {
    assert IsDigit(s[0]) && IsDigit(s[|s| - 1]);
  }

  /** float(str(n)) == n. */
  lemma ParseFloatNat(n: nat)
    ensures ParseFloat(NatDigits(n)) == Some(n as real)
  {
    var s := NatDigits(n);
    NatDigitsValue(n);
    ParseUnsignedDigits(s);
    DigitsNotSpace(s);
    ParseFloatPlain(s);
  }

  /** float("-" + str(n)) == -n. */
  lemma ParseFloatNegativeNat(n: nat)
    ensures ParseFloat("-" + NatDigits(n)) == Some(-(n as real))
  {
    var s := NatDigits(n);
    NatDigitsValue(n);
    ParseUnsignedDigits(s);
    DigitsNotSpace(s);
    ParseFloatMinus(s);
  }

  /** The text "a.b" for digit strings `a` and `b` parses as a + b / 10^len(b). */
  lemma ParseUnsignedPoint(w: string, f: string)
    requires w != [] && f != [] && AllDigits(w) && AllDigits(f)
    ensures ParseUnsigned(w + "." + f) == Some(DecimalValue(w, f))
  {
    var s := w + "." + f;
    assert IndexOf(s, '.') == |w| by {
      assert s[|w|] == '.';
      assert forall j :: 0 <= j < |w| ==> s[j] == w[j];
    }
    assert s[..|w|] == w && s[|w| + 1..] == f;
  }

  /** float("a.b") for digit strings `a` and `b`. */
  lemma ParseFloatPoint(w: string, f: string)
    requires w != [] && f != [] && AllDigits(w) && AllDigits(f)
    ensures ParseFloat(w + "." + f) == Some(DecimalValue(w, f))
  {
    var s := w + "." + f;
    ParseUnsignedPoint(w, f);
    DigitsNotSpace(w);
    DigitsNotSpace(f);
    assert s[0] == w[0] && s[|s| - 1] == f[|f| - 1];
    ParseFloatPlain(s);
  }

  /** Empty or blank text is not a number: float("  ") raises. */
  lemma ParseFloatBlank(s: string)
    requires forall i :: 0 <= i < |s| ==> IsSpace(s[i])
    ensures ParseFloat(s) == None
  {
    assert StripLeft(s) == [];
    assert IndexOf([], '.') == 0;
  }

  // ---------------------------------------------------------------------
  // int(str)
  // ---------------------------------------------------------------------

  /** int(s) for a text: surrounding whitespace is ignored, a leading sign
      is allowed and at least one decimal digit must follow; None stands for
      the ValueError of any other text ("", "3.0", "x"). */
  function ParseInt(s: string): Option<int> {
    ParseSignedInt(Strip(s))
  }

  /** Decimal digits with an optional leading sign. */
  function ParseSignedInt(t: string): Option<int> {
    if t != [] && (t[0] == '-' || t[0] == '+') then
      var d := t[1..];
      if d != [] && AllDigits(d) then Some(if t[0] == '-' then -(DigitsValue(d) as int) else DigitsValue(d))
      else None
    else if t != [] && AllDigits(t) then Some(DigitsValue(t))
    else None
  }

  /** int(str(n)) == n. */
  lemma ParseIntNat(n: nat)
    ensures ParseInt(NatDigits(n)) == Some(n)
  {
    var s := NatDigits(n);
    NatDigitsValue(n);
    DigitsNotSpace(s);
    StripTrimmed(s);
  }

  /** int("-" + str(n)) == -n. */
  lemma ParseIntNegativeNat(n: nat)
    ensures ParseInt("-" + NatDigits(n)) == Some(-(n as int))
  {
    var s := NatDigits(n);
    var m := "-" + s;
    NatDigitsValue(n);
    DigitsNotSpace(s);
    assert m[|m| - 1] == s[|s| - 1];
    StripTrimmed(m);
    ParseSignedIntMinus(s);
  }

  lemma ParseSignedIntMinus(s: string)
    requires s != [] && AllDigits(s)
    ensures ParseSignedInt("-" + s) == Some(-(DigitsValue(s) as int))
  {
    var m := "-" + s;
    assert m[1..] == s && m[0] == '-';
  }

  /** Every text int() accepts, float() accepts with the same value. */
  lemma ParseIntAsFloat(s: string)
    requires ParseInt(s).Some?
    ensures ParseFloat(s) == Some(ParseInt(s).value as real)
  {
    var t := Strip(s);
    if t[0] == '-' || t[0] == '+' {
      ParseUnsignedDigits(t[1..]);
    } else {
      ParseUnsignedDigits(t);
    }
  }

  /** int() rejects a decimal point, which float() accepts: int("a.b") raises. */
  lemma ParseIntPoint(w: string, f: string)
    requires w != [] && AllDigits(w) && AllDigits(f)
    ensures ParseInt(w + "." + f) == None
  {
    var s := w + "." + f;
    DigitsNotSpace(w);
    assert s[0] == w[0] && s[|w|] == '.';
    if f == [] {
      assert s[|s| - 1] == '.';
    } else {
      DigitsNotSpace(f);
      assert s[|s| - 1] == f[|f| - 1];
    }
    StripTrimmed(s);
    assert !IsDigit(s[|w|]);
  }
}
