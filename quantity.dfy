/** parseQuantity (main.go:110-178): a Kubernetes-style quantity token to a
    byte count. Precedence: trim and reject empty; scientific notation when
    the first e/E is followed by a digit or a sign; the first matching entry
    of the ordered suffix table; otherwise a raw number. */
module Quantity {
  import opened Powers
  import opened Text
  import opened Wrappers
  import opened Decimal

  datatype ParseError =
    | EmptyInput                   // "empty string"
    | MalformedNumber(text: string)  // strconv.ParseFloat's syntax error, with the text it was given
    | NegativeValue                // "negative value"
    | OutOfRange                   // the value does not fit in a uint64 (see README)

  datatype Suffix = Suffix(text: string, multiplier: nat)

  /** The suffix table in the order it is searched: binary first, then decimal. */
  const Suffixes: seq<Suffix> := [
    Suffix("Ki", 1024),
    Suffix("Mi", 1048576),  // 1024^2
    Suffix("Gi", 1073741824),  // 1024^3
    Suffix("Ti", 1099511627776),  // 1024^4
    Suffix("Pi", 1125899906842624),  // 1024^5
    Suffix("Ei", 1152921504606846976),  // 1024^6
    Suffix("k", 1000),
    Suffix("K", 1000),
    Suffix("M", 1000000),  // 1000^2
    Suffix("G", 1000000000),  // 1000^3
    Suffix("T", 1000000000000),  // 1000^4
    Suffix("P", 1000000000000000),  // 1000^5
    Suffix("E", 1000000000000000000)  // 1000^6
  ]

  predicate IsExpChar(c: char) {
    c == 'e' || c == 'E'
  }

  /** strings.IndexAny(s, "eE") searching from i. */
  function IndexExpFrom(s: string, i: nat): (r: Option<nat>)
    requires i <= |s|
    ensures r.Some? ==> i <= r.value < |s| && IsExpChar(s[r.value])
    ensures r.Some? ==> forall k :: i <= k < r.value ==> !IsExpChar(s[k])
    ensures r.None? ==> forall k :: i <= k < |s| ==> !IsExpChar(s[k])
    decreases |s| - i
  {
    if i == |s| then None
    else if IsExpChar(s[i]) then Some(i)
    else IndexExpFrom(s, i + 1)
  }

  function IndexExp(s: string): Option<nat> {
    IndexExpFrom(s, 0)
  }

  /** The first e/E is followed by a digit or a sign (main.go:117-120). */
  predicate LooksScientific(s: string) {
    match IndexExp(s)
    case None => false
    case Some(i) => i + 1 < |s| && (s[i + 1] == '-' || s[i + 1] == '+' || IsDigit(s[i + 1]))
  }

  /** The first entry of the table at or after `from` that s ends with. */
  function FindSuffix(s: string, table: seq<Suffix>, from: nat): (r: Option<nat>)
    requires from <= |table|
    ensures r.Some? ==> from <= r.value < |table| && HasSuffix(s, table[r.value].text)
    ensures r.Some? ==> forall j :: from <= j < r.value ==> !HasSuffix(s, table[j].text)
    ensures r.None? ==> forall j :: from <= j < |table| ==> !HasSuffix(s, table[j].text)
    decreases |table| - from
  {
    if from == |table| then None
    else if HasSuffix(s, table[from].text) then Some(from)
    else FindSuffix(s, table, from + 1)
  }

  /** What each branch does with the result of ParseFloat: a syntax error
      carries the text, a negative number is refused before the conversion,
      and the conversion truncates value * multiplier toward zero. */
  function ToByteCount(parsed: Option<Decimal>, text: string, multiplier: nat): (r: Result<Uint64, ParseError>)
    ensures r.Err? ==> r.error in {MalformedNumber(text), NegativeValue, OutOfRange}
    ensures r == Err(MalformedNumber(text)) <==> parsed.None?
    ensures r == Err(NegativeValue) <==> parsed.Some? && IsNegative(parsed.value)
    ensures r.Ok? ==> parsed.Some? && !IsNegative(parsed.value)
    ensures r.Ok? ==> r.value * Denominator(parsed.value) <= Numerator(parsed.value) * multiplier
                      < (r.value + 1) * Denominator(parsed.value)
  {
    match parsed
    case None => Err(MalformedNumber(text))
    case Some(d) =>
      if IsNegative(d) then Err(NegativeValue)
      else
        var n := FloorScaled(d, multiplier);
        if n < Uint64Limit then Ok(n) else Err(OutOfRange)
  }

  function ParseQuantity(token: string): Result<Uint64, ParseError>
  {
    var s := TrimSpace(token);
    if s == [] then Err(EmptyInput)
    else if LooksScientific(s) then ToByteCount(ParseDecimal(s), s, 1)
    else ParseSuffixed(s)
  }

  /** The suffix search and the raw-number fallback (main.go:155-177). */
  function ParseSuffixed(s: string): (r: Result<Uint64, ParseError>)
    ensures r != Err(EmptyInput)
  {
    match FindSuffix(s, Suffixes, 0)
    case Some(i) =>
      var num := s[..|s| - |Suffixes[i].text|];
      ToByteCount(ParseDecimal(num), num, Suffixes[i].multiplier)
    case None => ToByteCount(ParseDecimal(s), s, 1)
  }

  predicate NoExpChar(s: string) {
    forall k :: 0 <= k < |s| ==> !IsExpChar(s[k])
  }

  lemma {:induction false} IndexExpFromAt(s: string, i: nat, k: nat)
    requires i <= k < |s| && IsExpChar(s[k])
    requires forall j :: i <= j < k ==> !IsExpChar(s[j])
    ensures IndexExpFrom(s, i) == Some(k)
    decreases k - i
  {
    if i < k {
      IndexExpFromAt(s, i + 1, k);
    }
  }

  predicate IsLetter(c: char) {
    ('a' <= c <= 'z') || ('A' <= c <= 'Z')
  }

  /** Every entry is one letter, or a letter followed by 'i'. */
  predicate SuffixShape(t: string) {
    1 <= |t| <= 2 && IsLetter(t[0]) && t[0] != 'i' && (|t| == 2 ==> t[1] == 'i')
  }

  lemma SuffixTableShape(i: nat)
    requires i < |Suffixes|
    ensures SuffixShape(Suffixes[i].text)
  {
  }

  /** A table entry that s ends with agrees with s in its last character
      and, for a two-letter entry, in the one before. */
  lemma SuffixChars(s: string, t: string)
    requires HasSuffix(s, t) && |t| > 0
    ensures s[|s| - 1] == t[|t| - 1]
    ensures |t| == 2 ==> s[|s| - 2] == t[0]
  {
    assert s[|s| - |t|..][|t| - 1] == t[|t| - 1];
    if |t| == 2 {
      assert s[|s| - 2..][0] == t[0];
    }
  }

  /** No string ends with two different entries of the table, so the order
      in which the table is searched never changes the result. */
  lemma SuffixTableUnambiguous(s: string, i: nat, j: nat)
    requires i < |Suffixes| && j < |Suffixes|
    requires HasSuffix(s, Suffixes[i].text) && HasSuffix(s, Suffixes[j].text)
    ensures i == j
  {
    var a, b := Suffixes[i].text, Suffixes[j].text;
    SuffixTableShape(i);
    SuffixTableShape(j);
    SuffixChars(s, a);
    SuffixChars(s, b);
    assert |a| == |b|;
    assert a == b by {
      assert a == s[|s| - |a|..] == b;
    }
    SuffixTableDistinct(i, j);
  }

  lemma SuffixTableDistinct(i: nat, j: nat)
    requires i < |Suffixes| && j < |Suffixes| && Suffixes[i].text == Suffixes[j].text
    ensures i == j
  {
  }

  lemma FindSuffixExact(s: string, i: nat)
    requires i < |Suffixes| && HasSuffix(s, Suffixes[i].text)
    ensures FindSuffix(s, Suffixes, 0) == Some(i)
  {
    var r := FindSuffix(s, Suffixes, 0);
    if r.Some? {
      SuffixTableUnambiguous(s, i, r.value);
    }
  }

  /** "empty string" exactly when the token is nothing but white space. */
  lemma EmptyInputIffBlank(token: string)
    ensures ParseQuantity(token) == Err(EmptyInput) <==> forall k :: 0 <= k < |token| ==> IsSpace(token[k])
  {
    TrimSpaceSpec(token);
  }

  /** A number followed by a table entry: the number, cut off at the suffix,
      goes to ParseFloat and the result is scaled by that entry's multiplier,
      whatever the number looks like, as long as it holds no e/E. */
  lemma SuffixedToken(num: string, i: nat)
    requires i < |Suffixes| && NoExpChar(num) && (num == [] || !IsSpace(num[0]))
    ensures ParseQuantity(num + Suffixes[i].text) == ToByteCount(ParseDecimal(num), num, Suffixes[i].multiplier)
  {
    var t := Suffixes[i].text;
    var s := num + t;
    SuffixTableShape(i);
    SuffixedShape(num, t, s);
    TrimSpaceNoop(s);
    FindSuffixExact(s, i);
    NotScientific(s);
    SuffixFound(num, i, s);
  }

  lemma NotScientific(s: string)
    requires TrimSpace(s) == s && s != [] && !LooksScientific(s)
    ensures ParseQuantity(s) == ParseSuffixed(s)
  {
  }

  lemma NoSuffixFound(s: string)
    requires FindSuffix(s, Suffixes, 0) == None
    ensures ParseSuffixed(s) == ToByteCount(ParseDecimal(s), s, 1)
  {
  }

  lemma SuffixFound(num: string, i: nat, s: string)
    requires i < |Suffixes| && s == num + Suffixes[i].text && FindSuffix(s, Suffixes, 0) == Some(i)
    ensures ParseSuffixed(s) == ToByteCount(ParseDecimal(num), num, Suffixes[i].multiplier)
  {
    assert s[..|s| - |Suffixes[i].text|] == num;
  }

  /** The token shape behind SuffixedToken, character by character. */
  lemma SuffixedShape(num: string, t: string, s: string)
    requires SuffixShape(t) && NoExpChar(num) && (num == [] || !IsSpace(num[0])) && s == num + t
    ensures s != [] && !IsSpace(s[0]) && !IsSpace(s[|s| - 1]) && HasSuffix(s, t)
    ensures s[..|s| - |t|] == num && !LooksScientific(s)
  {
    assert s[|s| - |t|..] == t;
    assert s[..|s| - |t|] == num;
    assert s[|s| - 1] == t[|t| - 1];
    assert s[0] == if num == [] then t[0] else num[0];
    if IsExpChar(t[0]) {
      IndexExpFromAt(s, 0, |num|);
    }
  }

  /** A number ending in a digit or a dot matches no suffix and is parsed
      as a raw byte count. */
  lemma UnsuffixedToken(s: string)
    requires s != [] && !IsSpace(s[0]) && (IsDigit(s[|s| - 1]) || s[|s| - 1] == '.') && NoExpChar(s)
    ensures ParseQuantity(s) == ToByteCount(ParseDecimal(s), s, 1)
  {
    TrimSpaceNoop(s);
    NoSuffixMatches(s);
    NoSuffixFound(s);
    assert IndexExp(s) == None;
    NotScientific(s);
  }

  /** The last letters of the table entries. */
  predicate IsSuffixEnd(c: char) {
    c in {'i', 'k', 'K', 'M', 'G', 'T', 'P', 'E'}
  }

  lemma SuffixTableEnds(i: nat)
    requires i < |Suffixes|
    ensures IsSuffixEnd(Suffixes[i].text[|Suffixes[i].text| - 1])
  {
  }

  /** A string whose last character ends no entry matches no suffix. */
  lemma NoSuffixMatches(s: string)
    requires s != [] && !IsSuffixEnd(s[|s| - 1])
    ensures FindSuffix(s, Suffixes, 0) == None
  {
    var r := FindSuffix(s, Suffixes, 0);
    if r.Some? {
      SuffixTableShape(r.value);
      SuffixTableEnds(r.value);
      SuffixChars(s, Suffixes[r.value].text);
    }
  }

  /** A token with no e/E and no suffix that is not a number is reported
      with its own text. */
  lemma UnsuffixedMalformed(s: string, k: nat)
    requires s != [] && !IsSpace(s[0]) && !IsSpace(s[|s| - 1]) && !IsSuffixEnd(s[|s| - 1]) && NoExpChar(s)
    requires k < |s| && !IsNumberChar(s[k])
    ensures ParseQuantity(s) == Err(MalformedNumber(s))
  {
    TrimSpaceNoop(s);
    NoSuffixMatches(s);
    NoSuffixFound(s);
    assert IndexExp(s) == None;
    NotScientific(s);
    ParseDecimalRejects(s, k);
  }

  /** A bare suffix has an empty number part: strconv.ParseFloat("") fails. */
  lemma BareSuffixRejected(i: nat)
    requires i < |Suffixes|
    ensures ParseQuantity(Suffixes[i].text) == Err(MalformedNumber(""))
  {
    SuffixedToken("", i);
    assert "" + Suffixes[i].text == Suffixes[i].text;
  }

  /** The conversion of a non-negative fixed-point value: units * multiplier
      / 10^decimals, truncated, when it fits in a uint64. */
  lemma FixedPointByteCount(units: nat, decimals: nat, text: string, multiplier: nat)
    ensures var v := units * multiplier / Pow(10, decimals);
      ToByteCount(Some(Decimal(false, units, -(decimals as int))), text, multiplier)
        == if v < Uint64Limit then Ok(v) else Err(OutOfRange)
  {
    var d := Decimal(false, units, -(decimals as int));
    assert Numerator(d) == units;
    assert Denominator(d) == Pow(10, decimals);
  }

  /** A fixed-point number with `decimals` fraction digits, with a suffix:
      its exact value times the multiplier, truncated. */
  lemma SuffixedFixedPoint(units: nat, decimals: nat, i: nat)
    requires i < |Suffixes|
    ensures var v := units * Suffixes[i].multiplier / Pow(10, decimals);
      ParseQuantity(FixedString(units, decimals) + Suffixes[i].text) == if v < Uint64Limit then Ok(v) else Err(OutOfRange)
  {
    var num := FixedString(units, decimals);
    var m := Suffixes[i].multiplier;
    SuffixedToken(num, i);
    ParseFixedString(units, decimals);
    FixedPointByteCount(units, decimals, num, m);
  }

  /** A fixed-point number without a suffix: truncated toward zero. */
  lemma FixedPointTruncates(units: nat, decimals: nat)
    ensures var v := units / Pow(10, decimals);
      ParseQuantity(FixedString(units, decimals)) == if v < Uint64Limit then Ok(v) else Err(OutOfRange)
  {
    var s := FixedString(units, decimals);
    UnsuffixedToken(s);
    ParseFixedString(units, decimals);
    FixedPointByteCount(units, decimals, s, 1);
  }

  /** A run of digits is a raw byte count. */
  lemma IntegerToken(ds: string)
    requires |ds| > 0 && AllDigits(ds)
    ensures var v := DigitsValue(ds);
      ParseQuantity(ds) == if v < Uint64Limit then Ok(v) else Err(OutOfRange)
  {
    NoExpDigits(ds);
    UnsuffixedToken(ds);
    ParseDigits(ds);
    FixedPointByteCount(DigitsValue(ds), 0, ds, 1);
  }

  /** A run of digits with a suffix is that number times the multiplier. */
  lemma SuffixedInteger(ds: string, i: nat)
    requires |ds| > 0 && AllDigits(ds) && i < |Suffixes|
    ensures var v := DigitsValue(ds) * Suffixes[i].multiplier;
      ParseQuantity(ds + Suffixes[i].text) == if v < Uint64Limit then Ok(v) else Err(OutOfRange)
  {
    NoExpDigits(ds);
    SuffixedToken(ds, i);
    ParseDigits(ds);
    FixedPointByteCount(DigitsValue(ds), 0, ds, Suffixes[i].multiplier);
  }

  /** Every uint64 written in decimal reads back as itself. */
  lemma IntegerRoundTrip(n: Uint64)
    ensures ParseQuantity(NatToString(n)) == Ok(n)
  {
    IntegerToken(NatToString(n));
  }

  lemma NoExpDigits(ds: string)
    requires AllDigits(ds)
    ensures NoExpChar(ds) && (ds == [] || !IsSpace(ds[0]))
  {
  }

  /** A minus sign is refused before any conversion, unless the number is
      zero: -0 is not below zero. */
  lemma NegativeRejected(n: nat)
    ensures ParseQuantity("-" + NatToString(n)) == if n == 0 then Ok(0) else Err(NegativeValue)
  {
    var num := "-" + NatToString(n);
    ParseNegatedNat(n);
    NegatedShape(n, num);
    NegativeToken(num, n);
  }

  lemma NegativeToken(num: string, n: nat)
    requires ParseDecimal(num) == Some(Decimal(true, n, 0))
    requires num != [] && num[0] == '-' && IsDigit(num[|num| - 1]) && NoExpChar(num)
    ensures ParseQuantity(num) == if n == 0 then Ok(0) else Err(NegativeValue)
  {
    UnsuffixedToken(num);
    NegativeByteCount(n, num, 1);
  }

  lemma NegatedShape(n: nat, num: string)
    requires num == "-" + NatToString(n)
    ensures num != [] && num[0] == '-' && IsDigit(num[|num| - 1]) && NoExpChar(num)
  {
    assert forall k :: 1 <= k < |num| ==> num[k] == NatToString(n)[k - 1];
  }

  /** The same with a suffix: the sign is refused before the multiplier
      is applied. */
  lemma NegativeSuffixedRejected(n: nat, i: nat)
    requires i < |Suffixes|
    ensures ParseQuantity("-" + NatToString(n) + Suffixes[i].text) == if n == 0 then Ok(0) else Err(NegativeValue)
  {
    var num := "-" + NatToString(n);
    ParseNegatedNat(n);
    NegatedShape(n, num);
    NegativeSuffixedToken(num, n, i);
  }

  lemma NegativeSuffixedToken(num: string, n: nat, i: nat)
    requires i < |Suffixes| && ParseDecimal(num) == Some(Decimal(true, n, 0))
    requires num != [] && num[0] == '-' && NoExpChar(num)
    ensures ParseQuantity(num + Suffixes[i].text) == if n == 0 then Ok(0) else Err(NegativeValue)
  {
    SuffixedToken(num, i);
    NegativeByteCount(n, num, Suffixes[i].multiplier);
  }

  lemma NegativeByteCount(n: nat, text: string, multiplier: nat)
    ensures ToByteCount(Some(Decimal(true, n, 0)), text, multiplier) == if n == 0 then Ok(0) else Err(NegativeValue)
  {
    assert Numerator(Decimal(true, 0, 0)) == 0;
  }

  /** Scientific notation goes to ParseFloat whole, with no suffix search. */
  lemma ScientificToken(s: string)
    requires s != [] && !IsSpace(s[0]) && !IsSpace(s[|s| - 1]) && LooksScientific(s)
    ensures ParseQuantity(s) == ToByteCount(ParseDecimal(s), s, 1)
  {
    TrimSpaceNoop(s);
  }

  /** A non-negative number with a non-negative exponent converts to
      mantissa * 10^exponent * multiplier, when that fits in a uint64. */
  lemma ScaledByteCount(mantissa: nat, exponent: nat, text: string, multiplier: nat)
    ensures var v := mantissa * Pow(10, exponent) * multiplier;
      ToByteCount(Some(Decimal(false, mantissa, exponent)), text, multiplier)
        == if v < Uint64Limit then Ok(v) else Err(OutOfRange)
  {
    var d := Decimal(false, mantissa, exponent);
    assert Numerator(d) == mantissa * Pow(10, exponent);
    assert Denominator(d) == 1;
  }

  /** A mantissa made of digits and points, then e [+-] digits: the first
      e/E is followed by a sign or a digit, so the token is scientific. */
  lemma ScientificShape(p: string, sign: string, xs: string, s: string)
    requires IsSign(sign) && |xs| > 0 && AllDigits(xs)
    requires |p| > 0 && IsDigit(p[0]) && forall k :: 0 <= k < |p| ==> p[k] == '.' || IsDigit(p[k])
    requires s == p + ("e" + sign + xs)
    ensures s != [] && !IsSpace(s[0]) && !IsSpace(s[|s| - 1]) && LooksScientific(s)
  {
    var t := "e" + sign + xs;
    ConcatAt(p, t, s);
    ConcatAt("e" + sign, xs, t);
    ConcatAt("e", sign, "e" + sign);
    assert s[|p|] == t[0] == 'e';
    assert s[|s| - 1] == t[|t| - 1] == xs[|xs| - 1];
    assert s[|p| + 1] == t[1];
    IndexExpFromAt(s, 0, |p|);
  }

  /** digits e [+-] digits goes to ParseFloat whole. */
  lemma ScientificInteger(ms: string, sign: string, xs: string, s: string)
    requires IsSign(sign) && |ms| > 0 && AllDigits(ms) && |xs| > 0 && AllDigits(xs)
    requires s == ms + ("e" + sign + xs)
    ensures ParseQuantity(s) == ToByteCount(Some(Decimal(false, DigitsValue(ms), Signed(sign, DigitsValue(xs)))), s, 1)
  {
    ScientificShape(ms, sign, xs, s);
    ScientificToken(s);
    ParseScientificDigits(ms, sign, xs, s, Signed(sign, DigitsValue(xs)));
  }

  /** A mantissa of digits and points followed by e [+-] digits goes to
      ParseFloat whole, whatever the mantissa's value. */
  lemma ScientificNotation(p: string, sign: string, xs: string, s: string)
    requires IsSign(sign) && |xs| > 0 && AllDigits(xs)
    requires |p| > 0 && IsDigit(p[0]) && forall k :: 0 <= k < |p| ==> p[k] == '.' || IsDigit(p[k])
    requires s == p + ("e" + sign + xs)
    ensures ParseQuantity(s) == ToByteCount(ParseDecimal(s), s, 1)
  {
    ScientificShape(p, sign, xs, s);
    ScientificToken(s);
  }

  /** A scientific token with a character no number contains (a suffix
      after the exponent, say) is a syntax error: no suffix is looked for. */
  lemma ScientificMalformed(s: string, k: nat)
    requires s != [] && !IsSpace(s[0]) && !IsSpace(s[|s| - 1]) && LooksScientific(s)
    requires k < |s| && !IsNumberChar(s[k])
    ensures ParseQuantity(s) == Err(MalformedNumber(s))
  {
    ScientificToken(s);
    ParseDecimalRejects(s, k);
  }

  /** Leading and trailing white space is ignored. */
  lemma PaddedToken(pre: string, s: string, post: string, t: string)
    requires forall k :: 0 <= k < |pre| ==> IsSpace(pre[k])
    requires forall k :: 0 <= k < |post| ==> IsSpace(post[k])
    requires s != [] && !IsSpace(s[0]) && !IsSpace(s[|s| - 1])
    requires t == pre + (s + post)
    ensures ParseQuantity(t) == ParseQuantity(s)
  {
    TrimSpacePadded(pre, s, post, t);
    TrimSpaceNoop(s);
  }
}
