/**
  * The pieces of java.lang.String, Long and Double that the scrambling coordinator relies on:
  * case folding for method names, `String.valueOf(long)` for the block-size option the
  * constructor writes, and `Double.valueOf(text).longValue()` for the one it reads back.
  */
module Text {
  import opened Values

  // ---------------------------------------------------------------------------------------
  // Case folding (ASCII letters and the four non-ASCII characters whose case partner is an
  // ASCII letter; every other character folds to itself)
  // ---------------------------------------------------------------------------------------

  const DottedCapitalI: char := '\U{0130}'   // İ, lower case i
  const DotlessSmallI: char := '\U{0131}'    // ı, upper case I
  const LongS: char := '\U{017F}'            // ſ, upper case S
  const KelvinSign: char := '\U{212A}'       // K, lower case k
  const CombiningDotAbove: char := '\U{0307}'

  /** `Character.toLowerCase`. */
  function LowerChar(c: char): char
  {
    if 'A' <= c <= 'Z' then (c as int + 32) as char
    else if c == DottedCapitalI then 'i'
    else if c == KelvinSign then 'k'
    else c
  }

  /** `Character.toUpperCase`. */
  function UpperChar(c: char): char
  {
    if 'a' <= c <= 'z' then (c as int - 32) as char
    else if c == DotlessSmallI then 'I'
    else if c == LongS then 'S'
    else c
  }

  /** What `String.toLowerCase` makes of one character: İ becomes i and a combining dot above. */
  function LowerCased(c: char): string
  {
    if c == DottedCapitalI then ['i', CombiningDotAbove] else [LowerChar(c)]
  }

  /**
    * `String.toLowerCase`: each character lower-cased on its own. The text never shrinks, and
    * without an İ it keeps its length, character by character.
    */
  function ToLower(s: string): (r: string)
    ensures |r| >= |s|
    ensures (forall i :: 0 <= i < |s| ==> s[i] != DottedCapitalI) ==>
              |r| == |s| && forall i :: 0 <= i < |s| ==> r[i] == LowerChar(s[i])
  {
    if s == [] then [] else LowerCased(s[0]) + ToLower(s[1..])
  }

  /** The per-character test `String.equalsIgnoreCase` applies (through `regionMatches`). */
  predicate CharsEqualIgnoringCase(a: char, b: char)
  {
    a == b || UpperChar(a) == UpperChar(b) || LowerChar(UpperChar(a)) == LowerChar(UpperChar(b))
  }

  /** `String.equalsIgnoreCase`: same length and every position equal up to case. */
  predicate EqualsIgnoreCase(a: string, b: string)
    ensures a == b ==> EqualsIgnoreCase(a, b)
    ensures EqualsIgnoreCase(a, b) ==> |a| == |b|
  {
    |a| == |b| && forall i :: 0 <= i < |a| ==> CharsEqualIgnoringCase(a[i], b[i])
  }

  /** Two characters that lower-case alike are equal up to case (the converse fails for ı and i). */
  lemma SameLowerCharEqualIgnoringCase(a: char, b: char)
    requires LowerChar(a) == LowerChar(b)
    ensures CharsEqualIgnoringCase(a, b)
  {
  }

  /** The text holds no combining dot above, so it is not the lower case of an İ. */
  predicate NoCombiningDot(t: string)
  {
    forall i :: 0 <= i < |t| ==> t[i] != CombiningDotAbove
  }

  /**
    * A text that lower-cases to one without a combining dot has no İ, and each of its characters
    * lower-cases to the one in the same place.
    */
  lemma {:induction false} LowerCasedPointwise(s: string, t: string)
    requires ToLower(s) == t
    requires NoCombiningDot(t)
    ensures |s| == |t|
    ensures forall i :: 0 <= i < |s| ==> s[i] != DottedCapitalI && LowerChar(s[i]) == t[i]
  {
    if s != [] {
      var head := LowerCased(s[0]);
      assert t == head + ToLower(s[1..]);
      assert |t| > 1 ==> t[1] != CombiningDotAbove;
      assert s[0] != DottedCapitalI;
      assert t[1..] == ToLower(s[1..]);
      LowerCasedPointwise(s[1..], t[1..]);
      forall i | 0 <= i < |s|
        ensures s[i] != DottedCapitalI && LowerChar(s[i]) == t[i]
      {
        if i > 0 {
          assert s[i] == s[1..][i - 1];
        }
      }
    }
  }

  /**
    * Texts with the same lower case `t` (one without a combining dot) are equal up to case: the
    * coordinator's validation never lets through a name its dispatch would not match.
    */
  lemma SameLowerCaseEqualsIgnoringCase(a: string, b: string, t: string)
    requires ToLower(a) == t && ToLower(b) == t
    requires NoCombiningDot(t)
    ensures EqualsIgnoreCase(a, b)
  {
    LowerCasedPointwise(a, t);
    LowerCasedPointwise(b, t);
    forall i | 0 <= i < |a|
      ensures CharsEqualIgnoringCase(a[i], b[i])
    {
      SameLowerCharEqualIgnoringCase(a[i], b[i]);
    }
  }

  /** "unıform": "uniform" with a dotless i. */
  const DotlessUniform: string := "un" + [DotlessSmallI] + "form"

  /** The converse fails: "unıform" equals "uniform" up to case, yet is its own lower case. */
  lemma EqualIgnoringCaseYetLowerCasedApart()
    ensures EqualsIgnoreCase(DotlessUniform, "uniform")
    ensures ToLower(DotlessUniform) == DotlessUniform != "uniform"
  {
    assert DotlessUniform[2] != "uniform"[2];
    LowerCaseOf(DotlessUniform, DotlessUniform);
  }

  /** `s` has no İ and its characters lower-case one by one to those of `t`. */
  predicate FoldsTo(s: string, t: string)
  {
    |s| == |t| && forall i :: 0 <= i < |s| ==> s[i] != DottedCapitalI && LowerChar(s[i]) == t[i]
  }

  /** A text that folds character by character to `t` lower-cases to `t`. */
  lemma LowerCaseOf(s: string, t: string)
    requires FoldsTo(s, t)
    ensures ToLower(s) == t
  {
  }

  // ---------------------------------------------------------------------------------------
  // Decimal digits
  // ---------------------------------------------------------------------------------------

  predicate IsDigit(c: char)
  {
    '0' <= c <= '9'
  }

  predicate AllDigits(s: string)
  {
    forall i :: 0 <= i < |s| ==> IsDigit(s[i])
  }

  function DigitValue(c: char): (d: nat)
    requires IsDigit(c)
    ensures d < 10
  {
    c as int - '0' as int
  }

  function DigitChar(d: nat): (c: char)
    requires d < 10
    ensures IsDigit(c) && DigitValue(c) == d
  {
    ('0' as int + d) as char
  }

  function Pow10(k: nat): (r: nat)
    ensures r >= 1
  {
    if k == 0 then 1 else 10 * Pow10(k - 1)
  }

  /** The number a run of decimal digits denotes, most significant digit first. */
  function DigitsValue(s: string): nat
    requires AllDigits(s)
  {
    if s == [] then 0 else DigitsValue(s[..|s| - 1]) * 10 + DigitValue(s[|s| - 1])
  }

  /** The decimal digits of `n` without leading zeros. */
  function NatToDigits(n: nat): (r: string)
    ensures r != [] && AllDigits(r)
    ensures |r| > 1 ==> r[0] != '0'
  {
    if n < 10 then [DigitChar(n)] else NatToDigits(n / 10) + [DigitChar(n % 10)]
  }

  lemma {:induction false} DigitsRoundTrip(n: nat)
    ensures DigitsValue(NatToDigits(n)) == n
  {
    if n >= 10 {
      var s := NatToDigits(n);
      assert s[..|s| - 1] == NatToDigits(n / 10);
      DigitsRoundTrip(n / 10);
    }
  }

  lemma AllDigitsAppend(a: string, b: string)
    requires AllDigits(a) && AllDigits(b)
    ensures AllDigits(a + b)
  {
  }

  /** Appending digits shifts the value of the prefix left by their number. */
  lemma {:induction false} DigitsAppend(a: string, b: string)
    requires AllDigits(a) && AllDigits(b)
    ensures AllDigits(a + b)
    ensures DigitsValue(a + b) == DigitsValue(a) * Pow10(|b|) + DigitsValue(b)
  {
    AllDigitsAppend(a, b);
    if b == [] {
      assert a + b == a;
    } else {
      var b' := b[..|b| - 1];
      var last := DigitValue(b[|b| - 1]);
      assert (a + b)[..|a + b| - 1] == a + b';
      assert (a + b)[|a + b| - 1] == b[|b| - 1];
      DigitsAppend(a, b');
      assert DigitsValue(b) == DigitsValue(b') * 10 + last;
      ShiftStep(DigitsValue(a), Pow10(|b'|), DigitsValue(b'), last);
    }
  }

  lemma ShiftStep(va: nat, p: nat, vb: nat, last: nat)
    ensures (va * p + vb) * 10 + last == va * (10 * p) + (vb * 10 + last)
  {
  }

  lemma {:induction false} DigitsBound(s: string)
    requires AllDigits(s)
    ensures DigitsValue(s) < Pow10(|s|)
  {
    if s != [] {
      DigitsBound(s[..|s| - 1]);
    }
  }

  /** `String.valueOf(long)`: a minus sign exactly for negative numbers, then the digits. */
  function LongToString(n: long): (r: string)
    ensures r != []
    ensures r[0] == '-' <==> n < 0
    ensures AllDigits(if n < 0 then r[1..] else r)
  {
    if n < 0 then "-" + NatToDigits(-(n as int)) else NatToDigits(n)
  }

  // ---------------------------------------------------------------------------------------
  // Double.valueOf(text).longValue()
  // ---------------------------------------------------------------------------------------

  /** A decimal numeral: sign, whole digits, fraction digits and a decimal exponent. */
  datatype Numeral = Numeral(negative: bool, whole: string, fraction: string, exponent: int)

  /** The length of the run of digits that `s` starts with. */
  function LeadingDigits(s: string): (n: nat)
    ensures n <= |s|
    ensures forall i :: 0 <= i < n ==> IsDigit(s[i])
    ensures n < |s| ==> !IsDigit(s[n])
  {
    if s == [] || !IsDigit(s[0]) then 0 else 1 + LeadingDigits(s[1..])
  }

  lemma LeadingDigitsOfPrefix(p: string, rest: string)
    requires AllDigits(p)
    requires rest == [] || !IsDigit(rest[0])
    ensures LeadingDigits(p + rest) == |p|
  {
    if p != [] {
      assert (p + rest)[1..] == p[1..] + rest;
      LeadingDigitsOfPrefix(p[1..], rest);
    }
  }

  /** An optional leading sign, and whether it was a minus. */
  function SplitSign(s: string): (bool, string)
  {
    if s != [] && s[0] == '-' then (true, s[1..])
    else if s != [] && s[0] == '+' then (false, s[1..])
    else (false, s)
  }

  /** Splits `digits [. digits] tail` into its whole digits, its fraction digits and the tail. */
  function SplitMantissa(body: string): (r: (string, string, string))
    ensures AllDigits(r.0) && AllDigits(r.1)
  {
    var w := LeadingDigits(body);
    var rest := body[w..];
    if rest != [] && rest[0] == '.' then
      var f := LeadingDigits(rest[1..]);
      (body[..w], rest[1..][..f], rest[1..][f..])
    else (body[..w], [], rest)
  }

  /** The exponent part: nothing at all, or `(e|E) [+|-] digits`; None for anything else. */
  function ParseExponent(tail: string): Option<int>
  {
    if tail == [] then Some(0)
    else if tail[0] == 'e' || tail[0] == 'E' then
      var (negative, digits) := SplitSign(tail[1..]);
      if digits != [] && LeadingDigits(digits) == |digits| then
        var e := DigitsValue(digits);
        Some(if negative then -(e as int) else e)
      else None
    else None
  }

  /**
    * Reads `[+|-] digits [. digits] [(e|E) [+|-] digits]` with at least one mantissa digit;
    * None for any other text.
    */
  function ParseNumeral(s: string): (r: Option<Numeral>)
    ensures r.Some? ==> AllDigits(r.value.whole) && AllDigits(r.value.fraction)
    ensures r.Some? ==> r.value.whole + r.value.fraction != []
  {
    var (negative, body) := SplitSign(s);
    var (whole, fraction, tail) := SplitMantissa(body);
    if whole + fraction == [] then None
    else match ParseExponent(tail)
      case None => None
      case Some(e) => Some(Numeral(negative, whole, fraction, e))
  }

  /** The magnitude of a numeral with everything after the decimal point dropped. */
  function TruncatedMagnitude(n: Numeral): nat
    requires AllDigits(n.whole) && AllDigits(n.fraction)
  {
    AllDigitsAppend(n.whole, n.fraction);
    ScaleDigits(n.whole + n.fraction, n.exponent - |n.fraction|)
  }

  /**
    * The value of the digits `s` times ten to the `scale`, truncated toward zero: a positive
    * scale appends zeros, a negative one drops that many trailing digits.
    */
  function ScaleDigits(s: string, scale: int): nat
    requires AllDigits(s)
  {
    if scale >= 0 then Shifted(DigitsValue(s), scale)
    else if -scale >= |s| then 0
    else DigitsValue(s[..|s| + scale])
  }

  /** `digits` with `k` zeros appended. */
  function Shifted(digits: nat, k: nat): nat
  {
    digits * Pow10(k)
  }

  /** `Double.longValue` saturates at the ends of the `long` range. */
  function ClampToLong(x: int): long
  {
    if x < LongMin then LongMin else if x > LongMax then LongMax else x
  }

  /**
    * `Double.valueOf(text).longValue()`: the number truncated toward zero and saturated to
    * the `long` range; None where `Double.valueOf` throws NumberFormatException.
    */
  function ParseDoubleAsLong(text: string): (r: Option<long>)
    ensures r.None? <==> ParseNumeral(text).None?
    ensures r.Some? ==> (ParseNumeral(text).value.negative ==> r.value <= 0)
    ensures r.Some? ==> (!ParseNumeral(text).value.negative ==> r.value >= 0)
  {
    match ParseNumeral(text)
    case None => None
    case Some(n) =>
      var m := TruncatedMagnitude(n);
      Some(ClampToLong(if n.negative then -(m as int) else m))
  }

  /** A run of digits is all whole part: no fraction and an empty tail. */
  lemma SplitDigitsOnly(digits: string)
    requires AllDigits(digits)
    ensures SplitMantissa(digits) == (digits, [], [])
  {
    LeadingDigitsOfPrefix(digits, []);
    assert digits + [] == digits;
  }

  /** `whole.fraction` splits at the point, leaving an empty tail. */
  lemma SplitAtPoint(whole: string, fraction: string)
    requires AllDigits(whole) && AllDigits(fraction)
    ensures SplitMantissa(whole + "." + fraction) == (whole, fraction, [])
  {
    var body := whole + "." + fraction;
    assert body == whole + ("." + fraction);
    LeadingDigitsOfPrefix(whole, "." + fraction);
    assert body[|whole|..] == "." + fraction;
    assert body[..|whole|] == whole;
    assert ("." + fraction)[1..] == fraction;
    LeadingDigitsOfPrefix(fraction, []);
    assert fraction + [] == fraction;
  }

  /** A signed body whose mantissa splits cleanly and has no exponent part parses to that. */
  lemma ParseWithoutExponent(s: string, negative: bool, body: string, whole: string, fraction: string)
    requires AllDigits(whole) && AllDigits(fraction) && whole + fraction != []
    requires SplitSign(s) == (negative, body)
    requires SplitMantissa(body) == (whole, fraction, [])
    ensures ParseNumeral(s) == Some(Numeral(negative, whole, fraction, 0))
  {
  }

  /** What `String.valueOf(long)` writes, `Double.valueOf(..).longValue()` reads back unchanged. */
  lemma LongToStringRoundTrip(n: long)
    ensures ParseDoubleAsLong(LongToString(n)) == Some(n)
  {
    var s := LongToString(n);
    var magnitude: nat := if n < 0 then -(n as int) else n;
    var digits := NatToDigits(magnitude);
    assert SplitSign(s) == (n < 0, digits);
    SplitDigitsOnly(digits);
    assert digits + [] == digits;
    ParseWithoutExponent(s, n < 0, digits, digits, []);
    DigitsRoundTrip(magnitude);
    assert TruncatedMagnitude(Numeral(n < 0, digits, [], 0)) == magnitude;
  }

  lemma DivOfMulAdd(q: nat, r: nat, d: nat)
    requires r < d
    ensures (q * d + r) / d == q
  {
    var x := q * d + r;
    var k := x / d - q;
    assert k * d == r - x % d;
    assert k >= 1 ==> k * d >= d;
    assert k <= -1 ==> k * d <= -(d as int);
  }

  /** Dropping the digits after the point leaves the whole part's value. */
  lemma TruncatedFractionValue(whole: string, fraction: string, negative: bool)
    requires AllDigits(whole) && AllDigits(fraction)
    ensures TruncatedMagnitude(Numeral(negative, whole, fraction, 0)) == DigitsValue(whole)
  {
    AllDigitsAppend(whole, fraction);
    if fraction == [] {
      assert whole + fraction == whole;
    } else {
      assert (whole + fraction)[..|whole|] == whole;
    }
  }

  lemma Pow10Grows(j: nat, k: nat)
    requires j <= k
    ensures Pow10(j) <= Pow10(k)
  {
  }

  /** Dropping `k` trailing digits is dividing by ten to the `k`, rounding toward zero. */
  lemma ScaleDigitsTruncates(s: string, scale: int)
    requires AllDigits(s) && scale < 0
    ensures ScaleDigits(s, scale) == DigitsValue(s) / Pow10(-scale)
  {
    var k := -scale;
    if k >= |s| {
      DigitsBound(s);
      Pow10Grows(|s|, k);
      DivOfMulAdd(0, DigitsValue(s), Pow10(k));
    } else {
      var head, tail := s[..|s| - k], s[|s| - k..];
      assert head + tail == s;
      DigitsAppend(head, tail);
      DigitsBound(tail);
      DivOfMulAdd(DigitsValue(head), DigitsValue(tail), Pow10(k));
    }
  }

  /** The digits after a decimal point are dropped, never rounded, on either sign. */
  lemma FractionIsTruncated(whole: string, fraction: string)
    requires whole != [] && AllDigits(whole) && AllDigits(fraction)
    requires DigitsValue(whole) <= LongMax
    ensures ParseDoubleAsLong(whole + "." + fraction) == Some(DigitsValue(whole))
    ensures ParseDoubleAsLong("-" + whole + "." + fraction) == Some(-(DigitsValue(whole) as int) as long)
  {
    var body := whole + "." + fraction;
    SplitAtPoint(whole, fraction);
    assert SplitSign(body) == (false, body);
    assert "-" + whole + "." + fraction == "-" + body;
    assert SplitSign("-" + body) == (true, body);
    TruncatedFractionValue(whole, fraction, false);
    TruncatedFractionValue(whole, fraction, true);
    ParseWithoutExponent(body, false, body, whole, fraction);
    ParseWithoutExponent("-" + body, true, body, whole, fraction);
  }

  /** The built-in default "1e6" denotes one million rows. */
  lemma DefaultBlockSizeText()
    ensures ParseDoubleAsLong("1e6") == Some(1000000)
  {
    LeadingDigitsOfPrefix("1", "e6");
    assert "1" + "e6" == "1e6";
    LeadingDigitsOfPrefix("6", []);
    assert "6" + [] == "6";
    assert SplitMantissa("1e6") == ("1", [], "e6");
    assert DigitsValue("6") == 6;
    assert ParseExponent("e6") == Some(6);
    assert ParseNumeral("1e6") == Some(Numeral(false, "1", [], 6));
    assert "1" + [] == "1";
    assert DigitsValue("1") == 1;
    assert Pow10(6) == 1000000;
  }
}
