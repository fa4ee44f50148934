/** Edge cases of parseQuantity beyond its test table: scientific notation,
    signs, fractions, the largest suffixes, surrounding white space, and
    where the exact reading of a number agrees with Go's float64 arithmetic
    and where it does not. */
module QuantityEdges {
  import opened Powers
  import opened Text
  import opened Wrappers
  import opened Decimal
  import opened Quantity
  import opened QuantityExamples
  import opened IecUnits

  /** 1.5e9 is scientific: ParseFloat reads the whole token. */
  lemma Scientific1Point5e9(s: string)
    requires s == "1.5e9"
    ensures ParseQuantity(s) == Ok(1500000000)
  {
    assert s == "1.5" + ("e" + "" + "9");
    ScientificNotation("1.5", "", "9", s);
    Decimal1Point5e9(s);
    assert Pow(10, 8) == 100000000;
    assert 15 * Pow(10, 8) * 1 == 1500000000;
    ScaledByteCount(15, 8, s, 1);
  }

  lemma Decimal1Point5e9(s: string)
    requires s == "1.5e9"
    ensures ParseDecimal(s) == Some(Decimal(false, 15, 8))
  {
    assert s == ("1" + "." + "5") + ("e" + "" + "9");
    assert DigitsValue("9") == 9 by {
      assert "9"[..0] == "";
    }
    ParseFixedScientific("1", "5", "", "9", s, 9);
    Fifteen();
  }

  lemma Fifteen()
    ensures DigitsValue("1" + "5") == 15
  {
    assert "1" + "5" == "15";
    assert "15"[..1] == "1";
    assert "1"[..0] == "";
  }

  lemma Decimal1Point5(s: string)
    requires s == "1.5"
    ensures ParseDecimal(s) == Some(Decimal(false, 15, -1))
  {
    assert s == "1" + "." + "5";
    ParseFixed("1", "5");
    Fifteen();
  }

  /** 1e-3 is a thousandth, truncated to zero bytes. */
  lemma ScientificNegativeExponent(s: string)
    requires s == "1e-3"
    ensures ParseQuantity(s) == Ok(0)
  {
    assert s == "1" + ("e" + "-" + "3");
    assert DigitsValue("1") == 1 by {
      assert "1"[..0] == "";
    }
    assert DigitsValue("3") == 3 by {
      assert "3"[..0] == "";
    }
    ScientificInteger("1", "-", "3", s);
    var d := Decimal(false, 1, -3);
    assert Decimal(false, DigitsValue("1"), Signed("-", DigitsValue("3"))) == d;
    assert Pow(10, 3) == 1000;
    assert 1 * 1 / Pow(10, 3) == 0;
    FixedPointByteCount(1, 3, s, 1);
  }

  /** An explicit plus sign in the exponent: 2e+3 is 2000. */
  lemma ScientificPlusExponent(s: string)
    requires s == "2e+3"
    ensures ParseQuantity(s) == Ok(2000)
  {
    assert s == "2" + ("e" + "+" + "3");
    assert DigitsValue("2") == 2 by {
      assert "2"[..0] == "";
    }
    assert DigitsValue("3") == 3 by {
      assert "3"[..0] == "";
    }
    ScientificInteger("2", "+", "3", s);
    assert Pow(10, 3) == 1000;
    assert 2 * Pow(10, 3) * 1 == 2000;
    ScaledByteCount(2, 3, s, 1);
  }

  /** A suffix after scientific notation is not looked for: the whole
      token goes to ParseFloat, which rejects it. */
  lemma ScientificWithSuffix(s: string)
    requires s == "1.5e9Ki"
    ensures ParseQuantity(s) == Err(MalformedNumber("1.5e9Ki"))
  {
    IndexExpFromAt(s, 0, 3);
    assert s[4] == '9';
    ScientificMalformed(s, 5);
  }

  /** 'E' followed by 'i' is not an exponent: 1Ei is 2^60 bytes. */
  lemma ExbibyteNotScientific(s: string)
    requires s == "1Ei"
    ensures ParseQuantity(s) == Ok(1152921504606846976)
  {
    assert s == "1" + "Ei";
    assert Suffixes[5] == Suffix("Ei", 1152921504606846976);
    assert DigitsValue("1") == 1 by {
      assert "1"[..0] == "";
    }
    SuffixedInteger("1", 5);
  }

  /** A trailing 'E' has nothing after it, so it is the exa suffix. */
  lemma ExabyteSuffix(s: string)
    requires s == "1E"
    ensures ParseQuantity(s) == Ok(1000000000000000000)
  {
    assert s == "1" + "E";
    assert Suffixes[12] == Suffix("E", 1000000000000000000);
    assert DigitsValue("1") == 1 by {
      assert "1"[..0] == "";
    }
    SuffixedInteger("1", 12);
  }

  /** 16Ei is 2^64 bytes, one more than a uint64 holds. */
  lemma SixteenExbibytes(s: string)
    requires s == "16Ei"
    ensures ParseQuantity(s) == Err(OutOfRange)
  {
    assert s == "16" + "Ei";
    assert Suffixes[5] == Suffix("Ei", 1152921504606846976);
    assert DigitsValue("16") == 16 by {
      assert "16"[..1] == "1";
      assert "1"[..0] == "";
    }
    SuffixedInteger("16", 5);
  }

  /** Minus zero is not below zero. */
  lemma MinusZero(s: string)
    requires s == "-0"
    ensures ParseQuantity(s) == Ok(0)
  {
    assert NatToString(0) == "0";
    assert s == "-" + NatToString(0);
    NegativeRejected(0);
  }

  /** A negative number is refused. */
  lemma MinusOne(s: string)
    requires s == "-1"
    ensures ParseQuantity(s) == Err(NegativeValue)
  {
    assert NatToString(1) == "1";
    assert s == "-" + NatToString(1);
    NegativeRejected(1);
  }

  /** The sign is refused before the multiplier is applied. */
  lemma MinusOneKibibyte(s: string)
    requires s == "-1Ki"
    ensures ParseQuantity(s) == Err(NegativeValue)
  {
    assert NatToString(1) == "1";
    assert s == "-" + NatToString(1) + Suffixes[0].text;
    NegativeSuffixedRejected(1, 0);
  }

  /** A fraction of a byte is truncated: 1.5 is one byte. */
  lemma OneAndAHalf(s: string)
    requires s == "1.5"
    ensures ParseQuantity(s) == Ok(1)
  {
    assert s[0] == '1' && s[|s| - 1] == '5' && NoExpChar(s);
    UnsuffixedToken(s);
    Decimal1Point5(s);
    assert Pow(10, 1) == 10;
    assert 15 * 1 / Pow(10, 1) == 1;
    FixedPointByteCount(15, 1, s, 1);
  }

  /** A fractional number with a suffix: 1.5Gi is 1610612736 bytes. */
  lemma OneAndAHalfGibibytes(s: string)
    requires s == "1.5Gi"
    ensures ParseQuantity(s) == Ok(1610612736)
  {
    var num := "1.5";
    assert s == num + "Gi";
    assert Suffixes[2] == Suffix("Gi", 1073741824);
    assert num[0] == '1' && NoExpChar(num);
    SuffixedToken(num, 2);
    Decimal1Point5(num);
    assert Pow(10, 1) == 10;
    assert 15 * 1073741824 / Pow(10, 1) == 1610612736;
    FixedPointByteCount(15, 1, num, 1073741824);
  }

  /** White space around the token is trimmed before parsing. */
  lemma PaddedKibibyte(s: string)
    requires s == " 1Ki\n"
    ensures ParseQuantity(s) == Ok(1024)
  {
    assert s == " " + ("1Ki" + "\n");
    PaddedToken(" ", "1Ki", "\n", s);
    Binary1Ki("1Ki");
  }

  // ---- Where the exact reading agrees with float64, and where it does not ----

  /** Below 2^53 every count is a float64: ParseFloat returns it unrounded
      and the conversion to uint64 gives it back, as the model does. */
  lemma RawCountExactInFloat64(ds: string)
    requires |ds| > 0 && AllDigits(ds) && DigitsValue(ds) < Float64Exact
    ensures ParseQuantity(ds) == Ok(ToFloat64(DigitsValue(ds)))
  {
    IntegerToken(ds);
  }

  /** With a suffix: while the product stays below 2^53, float64(n),
      float64(multiplier) and float64(n * multiplier) are all exact, so
      Go's f * multiplier is the model's count. */
  lemma SuffixedCountExactInFloat64(ds: string, i: nat)
    requires |ds| > 0 && AllDigits(ds) && i < |Suffixes|
    requires DigitsValue(ds) * Suffixes[i].multiplier < Float64Exact
    ensures var n, m := DigitsValue(ds), Suffixes[i].multiplier;
      ParseQuantity(ds + Suffixes[i].text) == Ok(n * m)
      && ToFloat64(n) == n && ToFloat64(n * m) == n * m && (n > 0 ==> ToFloat64(m) == m)
  {
    SuffixedInteger(ds, i);
    MultiplierPositive(i);
    ExactSteps(DigitsValue(ds), Suffixes[i].multiplier, DigitsValue(ds) * Suffixes[i].multiplier);
  }

  lemma MultiplierPositive(i: nat)
    requires i < |Suffixes|
    ensures Suffixes[i].multiplier >= 1000
  {
  }

  /** Each float64 step of n * m is exact when the product is below 2^53. */
  lemma ExactSteps(n: nat, m: nat, p: nat)
    requires p == n * m && p < Float64Exact
    ensures ToFloat64(p) == p
    ensures m > 0 ==> ToFloat64(n) == n
    ensures n > 0 ==> ToFloat64(m) == m
  {
    FactorsBelow(n, m, p);
  }

  /** A factor of a product below 2^53 is below 2^53 unless the other is 0. */
  lemma FactorsBelow(n: nat, m: nat, p: nat)
    requires p == n * m
    ensures n > 0 ==> m <= p
    ensures m > 0 ==> n <= p
    ensures m == 0 ==> p == 0
  {
  }

  /** Past 2^53 the two part: float64 has no 2^53 + 1, so ParseFloat rounds
      it to 2^53 (a tie, to the even neighbour) and Go returns
      9007199254740992, while the exact reading returns the count itself. */
  lemma RawCountBeyondFloat64(s: string)
    requires s == "9007199254740993"
    ensures ParseQuantity(s) == Ok(9007199254740993)
    ensures ToFloat64(9007199254740993) == 9007199254740993 - 1
  {
    DigitsOf9007199254740993();
    IntegerToken(s);
    Float64Of9007199254740993();
  }

  lemma DigitsOf9007199254740993()
    ensures DigitsValue("9007199254740993") == 9007199254740993
  {
    DigitsOf90071992();
    DigitsOf54740993();
    DigitsValueAppend("90071992", "54740993");
    assert "90071992" + "54740993" == "9007199254740993";
    assert |"54740993"| == 8;
    assert Pow(10, 2) == 100;
    assert Pow(10, 4) == 10000 by {
      assert Pow(10, 3) == 1000;
    }
    assert Pow(10, 6) == 1000000 by {
      assert Pow(10, 5) == 100000;
    }
    assert Pow(10, 8) == 100000000 by {
      assert Pow(10, 7) == 10000000;
    }
  }

  lemma DigitsOf90071992()
    ensures DigitsValue("90071992") == 90071992
  {
    assert "90071992"[..7] == "9007199";
    assert "9007199"[..6] == "900719";
    assert "900719"[..5] == "90071";
    assert "90071"[..4] == "9007";
    assert "9007"[..3] == "900";
    assert "900"[..2] == "90";
    assert "90"[..1] == "9";
    assert "9"[..0] == "";
  }

  lemma DigitsOf54740993()
    ensures DigitsValue("54740993") == 54740993
  {
    assert "54740993"[..7] == "5474099";
    assert "5474099"[..6] == "547409";
    assert "547409"[..5] == "54740";
    assert "54740"[..4] == "5474";
    assert "5474"[..3] == "547";
    assert "547"[..2] == "54";
    assert "54"[..1] == "5";
    assert "5"[..0] == "";
  }

  lemma Float64Of9007199254740993()
    ensures ToFloat64(9007199254740993) == 9007199254740993 - 1
  {
    assert Ulp(4503599627370496) == 1;
    assert Ulp(9007199254740993) == 2;
    assert RoundedRatio(9007199254740993, 2) == 4503599627370496;
  }

  /** The product rounds too: 123456789012345 * 1000 lies halfway between
      two float64s 16 apart, and the tie goes to 123456789012344992, which is
      what Go returns for 123456789012345K; the exact reading keeps
      123456789012345000. */
  lemma ProductBeyondFloat64(s: string)
    requires s == "123456789012345K"
    ensures ParseQuantity(s) == Ok(123456789012345000)
    ensures ToFloat64(123456789012345) == 123456789012345 && ToFloat64(1000) == 1000
    ensures ToFloat64(123456789012345 * 1000) == 123456789012344992
  {
    var ds := "123456789012345";
    assert s == ds + Suffixes[7].text;
    assert Suffixes[7].multiplier == 1000;
    DigitsOf123456789012345();
    SuffixedInteger(ds, 7);
    assert 123456789012345 < Float64Exact;
    Float64Of123456789012345000();
  }

  lemma DigitsOf123456789012345()
    ensures DigitsValue("123456789012345") == 123456789012345
  {
    DigitsOf1234567();
    DigitsOf89012345();
    DigitsValueAppend("1234567", "89012345");
    assert "1234567" + "89012345" == "123456789012345";
    assert |"89012345"| == 8;
    assert Pow(10, 2) == 100;
    assert Pow(10, 4) == 10000 by {
      assert Pow(10, 3) == 1000;
    }
    assert Pow(10, 6) == 1000000 by {
      assert Pow(10, 5) == 100000;
    }
    assert Pow(10, 8) == 100000000 by {
      assert Pow(10, 7) == 10000000;
    }
  }

  lemma DigitsOf1234567()
    ensures DigitsValue("1234567") == 1234567
  {
    assert "1234567"[..6] == "123456";
    assert "123456"[..5] == "12345";
    assert "12345"[..4] == "1234";
    assert "1234"[..3] == "123";
    assert "123"[..2] == "12";
    assert "12"[..1] == "1";
    assert "1"[..0] == "";
  }

  lemma DigitsOf89012345()
    ensures DigitsValue("89012345") == 89012345
  {
    assert "89012345"[..7] == "8901234";
    assert "8901234"[..6] == "890123";
    assert "890123"[..5] == "89012";
    assert "89012"[..4] == "8901";
    assert "8901"[..3] == "890";
    assert "890"[..2] == "89";
    assert "89"[..1] == "8";
    assert "8"[..0] == "";
  }

  lemma Float64Of123456789012345000()
    ensures ToFloat64(123456789012345000) == 123456789012344992
  {
    assert Ulp(7716049313271562) == 1;
    assert Ulp(15432098626543125) == 2;
    assert Ulp(30864197253086250) == 4;
    assert Ulp(61728394506172500) == 8;
    assert Ulp(123456789012345000) == 16;
    assert RoundedRatio(123456789012345000, 16) == 7716049313271562;
  }
}
