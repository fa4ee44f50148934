/** The decimal floating-point grammar that strconv.ParseFloat accepts,
    read into an exact decimal instead of a float64, and the fixed-point
    rendering that %.Nf produces. */
module Decimal {
  import opened Powers
  import opened Text
  import opened Wrappers

  /** The number (-1)^negative * mantissa * 10^exponent. */
  datatype Decimal = Decimal(negative: bool, mantissa: nat, exponent: int)

  /** Go's `f < 0` test: minus zero is not negative. */
  predicate IsNegative(d: Decimal) {
    d.negative && d.mantissa > 0
  }

  /** The magnitude of d is Numerator(d) / Denominator(d). */
  function Numerator(d: Decimal): nat {
    if d.exponent >= 0 then d.mantissa * Pow(10, d.exponent) else d.mantissa
  }

  function Denominator(d: Decimal): (r: nat)
    ensures r > 0
  {
    if d.exponent >= 0 then 1 else Pow(10, -d.exponent)
  }

  /** The characters a number accepted by ParseDecimal is made of. */
  predicate IsNumberChar(c: char) {
    IsDigit(c) || c == '.' || c == '+' || c == '-' || c == 'e' || c == 'E'
  }

  /** The exponent part [eE] [+-]? digits, which must run to the end of s. */
  function ParseExponent(s: string, c: nat): Option<int>
    requires c < |s|
  {
    if s[c] != 'e' && s[c] != 'E' then None else SignedDigits(s, c + 1)
  }

  /** [+-]? digits, running from i to the end of s. */
  function SignedDigits(s: string, i: nat): Option<int>
    requires i <= |s|
  {
    var negative := i < |s| && s[i] == '-';
    var j := if i < |s| && (s[i] == '+' || s[i] == '-') then i + 1 else i;
    var k := ScanDigits(s, j);
    if k == j || k < |s| then None
    else
      var e: int := DigitsValue(s[j..]);
      Some(if negative then -e else e)
  }

  lemma ParseExponentAccepts(s: string, c: nat)
    requires c < |s| && ParseExponent(s, c).Some?
    ensures forall k :: c <= k < |s| ==> IsNumberChar(s[k])
  {
  }

  /** Where the pieces of a mantissa [+-]? digits [. digits] lie in s:
      the integer digits are s[intStart..intEnd], the fraction digits
      s[fracStart..fracEnd]; fracStart == intEnd + 1 exactly when there is
      a decimal point. */
  datatype Mantissa = Mantissa(intStart: nat, intEnd: nat, fracStart: nat, fracEnd: nat)

  function ScanMantissa(s: string): (m: Mantissa)
    ensures m.intStart <= m.intEnd <= m.fracStart <= m.fracEnd <= |s|
    ensures m.intStart == if |s| > 0 && (s[0] == '+' || s[0] == '-') then 1 else 0
    ensures forall k :: m.intStart <= k < m.intEnd ==> IsDigit(s[k])
    ensures forall k :: m.fracStart <= k < m.fracEnd ==> IsDigit(s[k])
    ensures AllDigits(s[m.intStart..m.intEnd]) && AllDigits(s[m.fracStart..m.fracEnd])
    ensures m.fracStart == m.intEnd || (m.fracStart == m.intEnd + 1 && s[m.intEnd] == '.')
  {
    var i := if |s| > 0 && (s[0] == '+' || s[0] == '-') then 1 else 0;
    var a := ScanDigits(s, i);
    var b := if a < |s| && s[a] == '.' then a + 1 else a;
    Mantissa(i, a, b, ScanDigits(s, b))
  }

  /** The mantissa digits with the decimal point left out. */
  function MantissaDigits(s: string): (r: string)
    ensures AllDigits(r)
  {
    var m := ScanMantissa(s);
    s[m.intStart..m.intEnd] + s[m.fracStart..m.fracEnd]
  }

  /** strconv.ParseFloat on the decimal grammar
      [+-]? digits [. digits] ([eE] [+-]? digits)? with at least one mantissa
      digit, read exactly. The whole string must be consumed. */
  function ParseDecimal(s: string): Option<Decimal>
  {
    var m := ScanMantissa(s);
    if m.intEnd == m.intStart && m.fracEnd == m.fracStart then None
    else
      var d := Decimal(s[0] == '-', DigitsValue(MantissaDigits(s)), -(m.fracEnd - m.fracStart));
      if m.fracEnd == |s| then Some(d)
      else match ParseExponent(s, m.fracEnd)
        case None => None
        case Some(e) => Some(d.(exponent := d.exponent + e))
  }

  /** What ParseDecimal accepts is a non-empty string of number characters
      holding at least one digit, negative exactly when it starts with '-'. */
  lemma ParseDecimalAccepts(s: string)
    requires ParseDecimal(s).Some?
    ensures |s| > 0 && forall k :: 0 <= k < |s| ==> IsNumberChar(s[k])
    ensures ParseDecimal(s).value.negative <==> s[0] == '-'
    ensures exists k :: 0 <= k < |s| && IsDigit(s[k])
  {
    var m := ScanMantissa(s);
    MantissaChars(s);
    if m.fracEnd < |s| {
      ParseExponentAccepts(s, m.fracEnd);
    }
    if m.intEnd > m.intStart {
      assert IsDigit(s[m.intStart]);
    } else {
      assert IsDigit(s[m.fracStart]);
    }
  }

  lemma MantissaChars(s: string)
    ensures forall k :: 0 <= k < ScanMantissa(s).fracEnd ==> IsNumberChar(s[k])
  {
  }

  /** A string holding a character that no number contains is rejected. */
  lemma ParseDecimalRejects(s: string, k: nat)
    requires k < |s| && !IsNumberChar(s[k])
    ensures ParseDecimal(s) == None
  {
    if ParseDecimal(s).Some? {
      ParseDecimalAccepts(s);
    }
  }

  /** floor(|d| * mult): the truncating conversion uint64(f * mult). */
  function FloorScaled(d: Decimal, mult: nat): (r: nat)
    ensures r * Denominator(d) <= Numerator(d) * mult < (r + 1) * Denominator(d)
  {
    Numerator(d) * mult / Denominator(d)
  }

  /** units / 10^decimals printed with exactly `decimals` fractional digits,
      as %.Nf prints an already rounded value. */
  function FixedString(units: nat, decimals: nat): (r: string)
    ensures decimals == 0 ==> r == NatToString(units)
    ensures decimals > 0 ==> |r| > decimals + 1 && r[|r| - decimals - 1] == '.'
    ensures |r| > 0 && IsDigit(r[0]) && IsDigit(r[|r| - 1])
    ensures forall k :: 0 <= k < |r| ==> r[k] == '.' || IsDigit(r[k])
  {
    if decimals == 0 then NatToString(units)
    else
      var p := Pow(10, decimals);
      assert units % p < p;
      NatToString(units / p) + "." + FractionDigits(units % p, decimals)
  }

  /** The printed fixed-point number reads back as exactly the value printed. */
  lemma ParseFixedString(units: nat, decimals: nat)
    ensures ParseDecimal(FixedString(units, decimals)) == Some(Decimal(false, units, -(decimals as int)))
  {
    if decimals == 0 {
      ParseNatToString(units);
    } else {
      var p := Pow(10, decimals);
      assert units % p < p;
      var whole, frac := NatToString(units / p), FractionDigits(units % p, decimals);
      assert FixedString(units, decimals) == whole + "." + frac;
      FixedParts(units, p, whole, frac);
    }
  }

  /** The fraction digits of %.Nf: exactly `width` digits, zero-padded. */
  function FractionDigits(f: nat, width: nat): (r: string)
    requires width > 0 && f < Pow(10, width)
    ensures |r| == width && AllDigits(r) && DigitsValue(r) == f
  {
    NatToStringLength(f, width);
    ZeroPad(NatToString(f), width)
  }

  lemma FixedParts(units: nat, p: nat, whole: string, frac: string)
    requires p > 0 && |frac| > 0 && AllDigits(frac) && p == Pow(10, |frac|)
    requires whole == NatToString(units / p) && DigitsValue(frac) == units % p
    ensures ParseDecimal(whole + "." + frac) == Some(Decimal(false, units, -|frac|))
  {
    ParseFixed(whole, frac);
    DigitsValueAppend(whole, frac);
    DivMod(units, p);
  }

  /** Kept apart so that the nonlinear step is proved without the strings
      in FixedParts' context. */
  lemma DivMod(n: nat, p: nat)
    requires p > 0
    ensures n / p * p + n % p == n
  {
  }

  /** whole.frac reads as the digits of whole and frac together, scaled down
      by the number of fraction digits. */
  lemma ParseFixed(whole: string, frac: string)
    requires |whole| > 0 && AllDigits(whole) && |frac| > 0 && AllDigits(frac)
    ensures AllDigits(whole + frac)
    ensures ParseDecimal(whole + "." + frac) == Some(Decimal(false, DigitsValue(whole + frac), -|frac|))
  {
    var q := whole + ".";
    var s := q + frac;
    ConcatAt(q, frac, s);
    ConcatAt(whole, ".", q);
    forall k | 0 <= k < |whole|
      ensures s[k] == whole[k]
    {
      assert s[k] == q[k];
    }
    assert s[|whole|] == q[|whole|] == '.';
    FixedLayout(s, whole, frac);
  }

  /** A string laid out as whole, a point and frac parses as whole.frac. */
  lemma FixedLayout(s: string, whole: string, frac: string)
    requires |whole| > 0 && AllDigits(whole) && |frac| > 0 && AllDigits(frac)
    requires |s| == |whole| + 1 + |frac| && s[|whole|] == '.'
    requires forall k :: 0 <= k < |whole| ==> s[k] == whole[k]
    requires forall k :: 0 <= k < |frac| ==> s[|whole| + 1 + k] == frac[k]
    ensures AllDigits(whole + frac)
    ensures ParseDecimal(s) == Some(Decimal(false, DigitsValue(whole + frac), -|frac|))
  {
    var w := |whole|;
    SliceIs(s, 0, w, whole);
    SliceIs(s, w + 1, |s|, frac);
    forall k | w + 1 <= k < |s|
      ensures IsDigit(s[k])
    {
      assert s[w + 1 + (k - w - 1)] == frac[k - w - 1];
    }
    FixedToEnd(s, w);
    ParseWithoutExponent(s, Mantissa(0, w, w + 1, |s|), whole + frac);
  }

  /** Digits, a point and digits up to the end form a fixed-point mantissa. */
  lemma FixedToEnd(s: string, w: nat)
    requires 0 < w && w + 1 < |s| && s[w] == '.'
    requires forall k :: 0 <= k < w ==> IsDigit(s[k])
    requires forall k :: w + 1 <= k < |s| ==> IsDigit(s[k])
    ensures ScanMantissa(s) == Mantissa(0, w, w + 1, |s|)
  {
    ScanDigitsAt(s, 0, w);
    ScanDigitsAt(s, w + 1, |s|);
  }

  lemma ParseWithoutExponent(s: string, m: Mantissa, digits: string)
    requires ScanMantissa(s) == m && m.intEnd > m.intStart && m.fracEnd == |s|
    requires s[m.intStart..m.intEnd] + s[m.fracStart..m.fracEnd] == digits
    ensures AllDigits(digits)
    ensures ParseDecimal(s) == Some(Decimal(s[0] == '-', DigitsValue(digits), -(m.fracEnd - m.fracStart)))
  {
  }

  /** Parsing the decimal digits of n gives back exactly n. */
  lemma ParseNatToString(n: nat)
    ensures ParseDecimal(NatToString(n)) == Some(Decimal(false, n, 0))
  {
    ParseDigits(NatToString(n));
  }

  /** A run of digits, leading zeros allowed, reads as the number it denotes. */
  lemma ParseDigits(s: string)
    requires |s| > 0 && AllDigits(s)
    ensures ParseDecimal(s) == Some(Decimal(false, DigitsValue(s), 0))
  {
    ScanDigitsAt(s, 0, |s|);
    assert ScanMantissa(s) == Mantissa(0, |s|, |s|, |s|);
    assert s[0..|s|] == s && s[|s|..|s|] == [];
    assert MantissaDigits(s) == s;
  }

  /** A leading minus sign gives the negated number. */
  lemma ParseNegatedNat(n: nat)
    ensures ParseDecimal("-" + NatToString(n)) == Some(Decimal(true, n, 0))
  {
    var s := "-" + NatToString(n);
    ScanDigitsAt(s, 1, |s|);
    assert s[1..|s|] + s[|s|..|s|] == NatToString(n);
  }

  /** The optional sign of an exponent, written out. */
  predicate IsSign(sign: string) {
    sign == "" || sign == "+" || sign == "-"
  }

  /** The value of the exponent sign followed by digits worth x. */
  function Signed(sign: string, x: nat): (r: int)
    ensures sign == "-" ==> r == -(x as int)
    ensures sign != "-" ==> r == x
  {
    if sign == "-" then -(x as int) else x
  }

  /** Scientific notation m e [+-]x reads as m * 10^(+-x). */
  lemma ParseScientific(m: nat, sign: string, x: nat)
    requires IsSign(sign)
    ensures ParseDecimal(NatToString(m) + ("e" + sign + NatToString(x))) == Some(Decimal(false, m, Signed(sign, x)))
  {
    var ms, xs := NatToString(m), NatToString(x);
    ParseScientificDigits(ms, sign, xs, ms + ("e" + sign + xs), Signed(sign, x));
  }

  /** digits e [+-] digits: the mantissa digits scaled by the exponent. */
  lemma ParseScientificDigits(ms: string, sign: string, xs: string, s: string, e: int)
    requires IsSign(sign)
    requires |ms| > 0 && AllDigits(ms) && |xs| > 0 && AllDigits(xs)
    requires s == ms + ("e" + sign + xs)
    requires e == Signed(sign, DigitsValue(xs))
    ensures ParseDecimal(s) == Some(Decimal(false, DigitsValue(ms), e))
  {
    var t := "e" + sign + xs;
    ConcatAt(ms, t, s);
    ExponentPart(|ms|, sign, xs, t, s);
    IntegerMantissa(ms, s);
    ParseWithExponent(s, Mantissa(0, |ms|, |ms|, |ms|), ms, e);
  }

  /** whole.frac e [+-] digits: the digits of whole and frac together,
      scaled by the exponent less the number of fraction digits. */
  lemma ParseFixedScientific(whole: string, frac: string, sign: string, xs: string, s: string, e: int)
    requires IsSign(sign)
    requires |whole| > 0 && AllDigits(whole) && |frac| > 0 && AllDigits(frac)
    requires |xs| > 0 && AllDigits(xs)
    requires s == (whole + "." + frac) + ("e" + sign + xs)
    requires e == Signed(sign, DigitsValue(xs))
    ensures AllDigits(whole + frac)
    ensures ParseDecimal(s) == Some(Decimal(false, DigitsValue(whole + frac), e - |frac|))
  {
    var p, t := whole + "." + frac, "e" + sign + xs;
    FixedScientificParts(whole, frac, sign, xs, p, t, s);
    FixedWithExponent(s, |whole|, |p|, whole + frac, e, |frac|);
  }

  /** A fixed-point mantissa followed by an exponent worth e. */
  lemma FixedWithExponent(s: string, w: nat, f: nat, digits: string, e: int, n: nat)
    requires ScanMantissa(s) == Mantissa(0, w, w + 1, f) && MantissaDigits(s) == digits && w > 0
    requires f == w + 1 + n && f < |s| && ParseExponent(s, f) == Some(e) && s[0] != '-'
    ensures AllDigits(digits)
    ensures ParseDecimal(s) == Some(Decimal(false, DigitsValue(digits), e - n))
  {
    ParseWithExponent(s, Mantissa(0, w, w + 1, f), digits, e);
  }

  lemma FixedScientificParts(whole: string, frac: string, sign: string, xs: string, p: string, t: string, s: string)
    requires IsSign(sign) && |xs| > 0 && AllDigits(xs)
    requires |whole| > 0 && AllDigits(whole) && |frac| > 0 && AllDigits(frac)
    requires p == whole + "." + frac && t == "e" + sign + xs && s == p + t
    ensures ScanMantissa(s) == Mantissa(0, |whole|, |whole| + 1, |p|)
    ensures MantissaDigits(s) == whole + frac && s[0] != '-'
    ensures |p| < |s| && ParseExponent(s, |p|) == Some(Signed(sign, DigitsValue(xs)))
  {
    ConcatAt(p, t, s);
    ExponentPart(|p|, sign, xs, t, s);
    FixedPart(whole, frac, p, s);
  }

  lemma FixedPart(whole: string, frac: string, p: string, s: string)
    requires |whole| > 0 && AllDigits(whole) && |frac| > 0 && AllDigits(frac)
    requires p == whole + "." + frac && |p| < |s| && s[|p|] == 'e'
    requires forall k :: 0 <= k < |p| ==> s[k] == p[k]
    ensures ScanMantissa(s) == Mantissa(0, |whole|, |whole| + 1, |p|)
    ensures MantissaDigits(s) == whole + frac && s[0] != '-'
  {
    var w, f := |whole|, |p|;
    var q := whole + ".";
    ConcatAt(q, frac, p);
    ConcatAt(whole, ".", q);
    forall k | 0 <= k < w
      ensures s[k] == whole[k]
    {
      assert s[k] == p[k] == q[k];
    }
    forall k | 0 <= k < |frac|
      ensures s[w + 1 + k] == frac[k]
    {
      assert s[w + 1 + k] == p[|q| + k];
    }
    assert s[w] == p[w] == q[w] == '.';
    FixedMantissa(whole, frac, s);
  }

  lemma ExponentPart(c: nat, sign: string, xs: string, t: string, s: string)
    requires IsSign(sign) && |xs| > 0 && AllDigits(xs)
    requires t == "e" + sign + xs && |s| == c + |t|
    requires forall k :: 0 <= k < |t| ==> s[c + k] == t[k]
    ensures s[c] == 'e'
    ensures ParseExponent(s, c) == Some(Signed(sign, DigitsValue(xs)))
  {
    ConcatAt("e" + sign, xs, t);
    ConcatAt("e", sign, "e" + sign);
    assert s[c] == t[0] == 'e';
    assert sign != "" ==> s[c + 1] == t[1] == sign[0];
    assert forall k :: 0 <= k < |xs| ==> s[c + 1 + |sign| + k] == t[1 + |sign| + k] == xs[k];
    ScientificExponent(c, sign, xs, s);
  }


  lemma ParseWithExponent(s: string, m: Mantissa, digits: string, e: int)
    requires ScanMantissa(s) == m && MantissaDigits(s) == digits && m.intEnd > m.intStart
    requires m.fracEnd < |s| && ParseExponent(s, m.fracEnd) == Some(e)
    ensures AllDigits(digits)
    ensures ParseDecimal(s) == Some(Decimal(s[0] == '-', DigitsValue(digits), e - (m.fracEnd - m.fracStart)))
  {
  }

  lemma IntegerMantissa(ms: string, s: string)
    requires |ms| > 0 && AllDigits(ms) && |ms| < |s| && s[|ms|] == 'e'
    requires forall k :: 0 <= k < |ms| ==> s[k] == ms[k]
    ensures ScanMantissa(s) == Mantissa(0, |ms|, |ms|, |ms|)
    ensures MantissaDigits(s) == ms && s[0] != '-'
  {
    var w := |ms|;
    IntegerBeforeExponent(s, w);
    assert s[0..w] == ms;
  }

  /** A digit run followed by 'e' is a mantissa without a fraction. */
  lemma IntegerBeforeExponent(s: string, w: nat)
    requires 0 < w < |s| && s[w] == 'e'
    requires forall k :: 0 <= k < w ==> IsDigit(s[k])
    ensures ScanMantissa(s) == Mantissa(0, w, w, w)
  {
    ScanDigitsAt(s, 0, w);
    ScanDigitsAt(s, w, w);
  }

  lemma FixedMantissa(whole: string, frac: string, s: string)
    requires |whole| > 0 && AllDigits(whole) && |frac| > 0 && AllDigits(frac)
    requires |whole| + 1 + |frac| < |s| && s[|whole|] == '.' && s[|whole| + 1 + |frac|] == 'e'
    requires forall k :: 0 <= k < |whole| ==> s[k] == whole[k]
    requires forall k :: 0 <= k < |frac| ==> s[|whole| + 1 + k] == frac[k]
    ensures ScanMantissa(s) == Mantissa(0, |whole|, |whole| + 1, |whole| + 1 + |frac|)
    ensures MantissaDigits(s) == whole + frac && s[0] != '-'
  {
    var w, f := |whole|, |whole| + 1 + |frac|;
    SliceIs(s, 0, w, whole);
    SliceIs(s, w + 1, f, frac);
    forall k | w + 1 <= k < f
      ensures IsDigit(s[k])
    {
      assert s[w + 1 + (k - w - 1)] == frac[k - w - 1];
    }
    FixedBeforeExponent(s, w, f);
  }

  /** Digits, a point and digits followed by 'e' form a fixed-point mantissa. */
  lemma FixedBeforeExponent(s: string, w: nat, f: nat)
    requires 0 < w && w + 1 < f < |s| && s[w] == '.' && s[f] == 'e'
    requires forall k :: 0 <= k < w ==> IsDigit(s[k])
    requires forall k :: w + 1 <= k < f ==> IsDigit(s[k])
    ensures ScanMantissa(s) == Mantissa(0, w, w + 1, f)
  {
    ScanDigitsAt(s, 0, w);
    ScanDigitsAt(s, w + 1, f);
  }

  /** An exponent e [+-] xs that starts at c and runs to the end of s. */
  lemma ScientificExponent(c: nat, sign: string, xs: string, s: string)
    requires IsSign(sign)
    requires |xs| > 0 && AllDigits(xs) && |s| == c + 1 + |sign| + |xs| && s[c] == 'e'
    requires sign != "" ==> s[c + 1] == sign[0]
    requires forall k :: 0 <= k < |xs| ==> s[c + 1 + |sign| + k] == xs[k]
    ensures ParseExponent(s, c) == Some(Signed(sign, DigitsValue(xs)))
  {
    SignedDigitsAt(s, c + 1, sign, xs);
  }

  /** [+-]? digits read from i: the sign, then the digits xs up to the end. */
  lemma SignedDigitsAt(s: string, i: nat, sign: string, xs: string)
    requires IsSign(sign)
    requires |xs| > 0 && AllDigits(xs) && |s| == i + |sign| + |xs|
    requires sign != "" ==> s[i] == sign[0]
    requires forall k :: 0 <= k < |xs| ==> s[i + |sign| + k] == xs[k]
    ensures SignedDigits(s, i) == Some(Signed(sign, DigitsValue(xs)))
  {
    var j := i + |sign|;
    assert sign == "" ==> s[i] == xs[0];
    assert s[j..] == xs && ScanDigits(s, j) == |s| by {
      assert forall k :: j <= k < |s| ==> s[k] == xs[k - j];
      ScanDigitsAt(s, j, |s|);
    }
  }
}
