/**
 * The string operations the dashboard leans on: `split(sep)`, `join(sep)`,
 * `toUpperCase()`, rendering an integer in decimal and reading a decimal
 * numeral back (what `isNaN` accepts and `parseFloat` returns).
 */
module Text {
  import opened Base

  /** The part of `s` before the first `sep`, or all of `s` when there is none: `s.split(sep)[0]`. */
  function FirstSegment(s: string, sep: char): (r: string)
    ensures r <= s
    ensures sep !in r
    ensures |r| < |s| ==> s[|r|] == sep
  {
    if s == [] || s[0] == sep then [] else [s[0]] + FirstSegment(s[1..], sep)
  }

  /** The three facts in FirstSegment's contract pin its result down. */
  lemma FirstSegmentUnique(s: string, sep: char, p: string)
    requires p <= s && sep !in p
    requires |p| < |s| ==> s[|p|] == sep
    ensures FirstSegment(s, sep) == p
  {
  }

  lemma FirstSegmentOfJoined(p: string, sep: char, t: string)
    requires sep !in p
    ensures FirstSegment(p + [sep] + t, sep) == p
    ensures FirstSegment(p, sep) == p
  {
    FirstSegmentUnique(p + [sep] + t, sep, p);
    FirstSegmentUnique(p, sep, p);
  }

  /** `s.split(sep)`: the pieces between occurrences of `sep`; there is always at least one. */
  function Split(s: string, sep: char): (parts: seq<string>)
    ensures |parts| >= 1 && parts[0] <= s
    ensures forall i :: 0 <= i < |parts| ==> sep !in parts[i]
    decreases |s|
  {
    var f := FirstSegment(s, sep);
    if |f| == |s| then [s] else [f] + Split(s[|f| + 1..], sep)
  }

  /** Splitting peels off a leading piece that holds no separator. */
  lemma SplitCons(p: string, sep: char, t: string)
    requires sep !in p
    ensures Split(p + [sep] + t, sep) == [p] + Split(t, sep)
  {
    FirstSegmentOfJoined(p, sep, t);
    assert (p + [sep] + t)[|p| + 1..] == t;
  }

  /** `parts.join(sep)`: an empty list joins to the empty string. */
  function Join(parts: seq<string>, sep: char): (r: string)
    ensures |parts| >= 1 ==> parts[0] <= r
    ensures |parts| >= 2 ==> |r| > |parts[0]| && r[|parts[0]|] == sep
  {
    if |parts| == 0 then ""
    else if |parts| == 1 then parts[0]
    else parts[0] + [sep] + Join(parts[1..], sep)
  }

  /** Splitting a joined list gives the list back, as long as no piece holds the separator. */
  lemma {:induction false} SplitJoin(parts: seq<string>, sep: char)
    requires |parts| >= 1
    requires forall i :: 0 <= i < |parts| ==> sep !in parts[i]
    ensures Split(Join(parts, sep), sep) == parts
  {
    if |parts| == 1 {
      FirstSegmentOfJoined(parts[0], sep, "");
    } else {
      var rest := Join(parts[1..], sep);
      var s := parts[0] + [sep] + rest;
      FirstSegmentOfJoined(parts[0], sep, rest);
      assert s[|parts[0]| + 1..] == rest;
      SplitJoin(parts[1..], sep);
      assert parts == [parts[0]] + parts[1..];
    }
  }

  /** `toUpperCase` on one character; only the ASCII letters change. */
  function UpperChar(c: char): (u: char)
    ensures 'a' <= c <= 'z' ==> 'A' <= u <= 'Z' && u as int == c as int - 32
    ensures !('a' <= c <= 'z') ==> u == c
  {
    if 'a' <= c <= 'z' then (c as int - 32) as char else c
  }

  /** Upper-casing never creates or removes a character that is not a lower-case letter. */
  lemma UpperCharKeeps(c: char, x: char)
    requires !('a' <= x <= 'z') && !('A' <= x <= 'Z')
    ensures UpperChar(c) == x <==> c == x
  {
  }

  /** `toUpperCase()`, character by character. */
  function ToUpper(s: string): (u: string)
    ensures |u| == |s|
    ensures forall i :: 0 <= i < |s| ==> u[i] == UpperChar(s[i])
  {
    seq(|s|, i requires 0 <= i < |s| => UpperChar(s[i]))
  }

  predicate IsDigit(c: char) { '0' <= c <= '9' }

  predicate AllDigits(s: string) { forall i :: 0 <= i < |s| ==> IsDigit(s[i]) }

  function DigitChar(d: int): (c: char)
    requires 0 <= d < 10
    ensures IsDigit(c) && c as int - '0' as int == d
  {
    ('0' as int + d) as char
  }

  /** The value of a string of decimal digits, most significant first. */
  function DigitsValue(s: string): nat
    requires AllDigits(s)
  {
    if s == [] then 0 else DigitsValue(s[..|s| - 1]) * 10 + (s[|s| - 1] as int - '0' as int)
  }

  function Pow10(k: nat): (p: nat)
    ensures p >= 1
  {
    if k == 0 then 1 else 10 * Pow10(k - 1)
  }

  /** A natural number in decimal, without leading zeros. */
  function NatToString(n: nat): (s: string)
    ensures |s| >= 1 && AllDigits(s)
    ensures |s| > 1 ==> s[0] != '0'
    ensures n > 0 ==> s[0] != '0'
  {
    if n < 10 then [DigitChar(n)] else NatToString(n / 10) + [DigitChar(n % 10)]
  }

  /** How JavaScript renders an integral number: a minus sign, then the digits. */
  function IntToString(n: int): (s: string)
    ensures |s| >= 1
    ensures forall i :: 0 <= i < |s| ==> IsDigit(s[i]) || (i == 0 && s[i] == '-')
    ensures s[0] == '-' <==> n < 0
    ensures n < 0 ==> |s| >= 2 && s[1] != '0'
    ensures s[0] == '0' ==> s == "0"
  {
    if n < 0 then "-" + NatToString(-n) else NatToString(n)
  }

  lemma {:induction false} NatToStringValue(n: nat)
    ensures DigitsValue(NatToString(n)) == n
  {
    if n >= 10 {
      var s := NatToString(n);
      NatToStringValue(n / 10);
      assert s[..|s| - 1] == NatToString(n / 10);
    }
  }

  predicate IsNumeralChar(c: char) { IsDigit(c) || c == '.' || c == '-' || c == '+' }

  predicate SignOnlyInFront(s: string) { forall i :: 0 < i < |s| ==> s[i] != '-' && s[i] != '+' }

  predicate AtMostOnePoint(s: string) { forall i, j :: 0 <= i < j < |s| && s[i] == '.' ==> s[j] != '.' }

  predicate HasDigit(s: string) { exists i :: 0 <= i < |s| && IsDigit(s[i]) }

  /**
   * A decimal numeral without sign: digits, optionally a point and more
   * digits, with at least one digit on either side of the point.
   */
  function ParseUnsigned(s: string): (r: Option<real>)
    ensures r.Some? ==> s != [] && forall i :: 0 <= i < |s| ==> IsDigit(s[i]) || s[i] == '.'
    ensures r.Some? ==> r.value >= 0.0
    ensures r.Some? ==> AtMostOnePoint(s) && HasDigit(s)
  {
    var whole := FirstSegment(s, '.');
    if |whole| == |s| then
      if s != [] && AllDigits(s) then Some(DigitsValue(s) as real) else None
    else
      var frac := s[|whole| + 1..];
      if AllDigits(whole) && AllDigits(frac) && |whole| + |frac| > 0 then
        assert s == whole + ['.'] + frac;
        assert forall i :: 0 <= i < |whole| ==> s[i] == whole[i];
        assert forall i :: |whole| < i < |s| ==> s[i] == frac[i - |whole| - 1];
        assert IsDigit(if |whole| > 0 then s[0] else s[1]);
        assert AtMostOnePoint(s) && HasDigit(s);
        Some(NumeralValue(whole, frac))
      else None
  }

  /**
   * The value of a decimal numeral with an optional sign, or None when the
   * text is not one: the strings on which `isNaN` is false and for which
   * `parseFloat` returns that value.
   */
  function ParseDecimal(s: string): (r: Option<real>)
    ensures r.Some? ==> s != [] && forall i :: 0 <= i < |s| ==> IsNumeralChar(s[i])
    ensures r.Some? ==> SignOnlyInFront(s) && AtMostOnePoint(s) && HasDigit(s)
  {
    if |s| > 0 && (s[0] == '-' || s[0] == '+') then
      match ParseUnsigned(s[1..])
      case None => None
      case Some(v) =>
        assert forall i :: 0 < i < |s| ==> s[i] == s[1..][i - 1];
        Some(if s[0] == '-' then -v else v)
    else ParseUnsigned(s)
  }

  /** Reading back the decimal rendering of an integer gives that integer. */
  lemma DecimalRoundTrip(n: int)
    ensures ParseDecimal(IntToString(n)) == Some(n as real)
  {
    var m: nat := if n < 0 then -n else n;
    var digits := NatToString(m);
    NatRoundTrip(m);
    if n < 0 {
      ParseSigned("-", digits);
      assert IntToString(n) == "-" + digits;
    } else {
      ParseSigned("", digits);
      assert IntToString(n) == "" + digits;
    }
  }

  lemma NatRoundTrip(m: nat)
    ensures ParseUnsigned(NatToString(m)) == Some(m as real)
  {
    NatToStringValue(m);
    UnsignedWhole(NatToString(m));
  }

  /** The value a decimal numeral reads as: whole part plus the fraction over its power of ten. */
  function NumeralValue(whole: string, frac: string): (v: real)
    requires AllDigits(whole) && AllDigits(frac)
    ensures v >= DigitsValue(whole) as real
  {
    DigitsValue(whole) as real + DigitsValue(frac) as real / Pow10(|frac|) as real
  }

  /** A sign in front of an unsigned numeral negates it or leaves it as is. */
  lemma ParseSigned(sign: string, u: string)
    requires sign == "" || sign == "-" || sign == "+"
    requires ParseUnsigned(u).Some?
    ensures ParseDecimal(sign + u) ==
      Some(if sign == "-" then -ParseUnsigned(u).value else ParseUnsigned(u).value)
  {
    if sign == "" {
      assert sign + u == u;
    } else {
      assert (sign + u)[0] == sign[0] && (sign + u)[1..] == u;
    }
  }

  lemma DigitsHaveNoPoint(s: string)
    requires AllDigits(s)
    ensures '.' !in s
  {
    forall i | 0 <= i < |s| ensures s[i] != '.' { assert IsDigit(s[i]); }
  }

  lemma UnsignedFraction(whole: string, frac: string)
    requires AllDigits(whole) && AllDigits(frac) && |whole| + |frac| > 0
    ensures ParseUnsigned(whole + "." + frac) == Some(NumeralValue(whole, frac))
  {
    var body := whole + "." + frac;
    DigitsHaveNoPoint(whole);
    FirstSegmentOfJoined(whole, '.', frac);
    assert body[|whole| + 1..] == frac;
  }

  /**
   * A numeral with a point — an optional sign, digits, a point, digits, with
   * at least one digit — reads as its whole part plus its fraction, negated
   * under a minus sign.
   */
  lemma ParseFraction(sign: string, whole: string, frac: string)
    requires sign == "" || sign == "-" || sign == "+"
    requires AllDigits(whole) && AllDigits(frac) && |whole| + |frac| > 0
    ensures ParseDecimal(sign + whole + "." + frac) ==
      Some(if sign == "-" then -NumeralValue(whole, frac) else NumeralValue(whole, frac))
  {
    var u := whole + "." + frac;
    assert sign + whole + "." + frac == sign + u;
    SignedFraction(sign, whole, frac);
  }

  lemma SignedFraction(sign: string, whole: string, frac: string)
    requires sign == "" || sign == "-" || sign == "+"
    requires AllDigits(whole) && AllDigits(frac) && |whole| + |frac| > 0
    ensures ParseDecimal(sign + (whole + "." + frac)) ==
      Some(if sign == "-" then -NumeralValue(whole, frac) else NumeralValue(whole, frac))
  {
    UnsignedFraction(whole, frac);
    ParseSigned(sign, whole + "." + frac);
  }

  /** Digits alone, leading zeros allowed, read as their value. */
  lemma UnsignedWhole(whole: string)
    requires AllDigits(whole) && |whole| > 0
    ensures ParseUnsigned(whole) == Some(DigitsValue(whole) as real)
  {
    DigitsHaveNoPoint(whole);
    FirstSegmentUnique(whole, '.', whole);
  }

  /** A numeral without a point — an optional sign and digits, leading zeros allowed — reads as its digits, negated under a minus sign. */
  lemma ParseWhole(sign: string, whole: string)
    requires sign == "" || sign == "-" || sign == "+"
    requires AllDigits(whole) && |whole| > 0
    ensures ParseDecimal(sign + whole) ==
      Some(if sign == "-" then -NumeralValue(whole, "") else NumeralValue(whole, ""))
  {
    UnsignedWhole(whole);
    ParseSigned(sign, whole);
  }
}
