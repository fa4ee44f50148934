/** The parseQuantity test table, vector by vector. Each lemma takes its
    token as a parameter equal to the literal, which keeps the solver from
    evaluating the parser on the literal itself. */
module QuantityExamples {
  import opened Text
  import opened Wrappers
  import opened Decimal
  import opened Quantity

  /** main_test.go:46 */
  lemma Raw178255984(s: string)
    requires s == "178255984"
    ensures ParseQuantity(s) == Ok(178255984)
  {
    DigitsOf178255984();
    IntegerToken(s);
  }

  /** main_test.go:47 */
  lemma Raw0(s: string)
    requires s == "0"
    ensures ParseQuantity(s) == Ok(0)
  {
    assert DigitsValue("0") == 0 by {
      assert "0"[..0] == "";
    }
    IntegerToken(s);
  }

  /** main_test.go:48 */
  lemma Raw1024(s: string)
    requires s == "1024"
    ensures ParseQuantity(s) == Ok(1024)
  {
    assert DigitsValue("1024") == 1024 by {
      assert "1024"[..3] == "102";
      assert "102"[..2] == "10";
      assert "10"[..1] == "1";
      assert "1"[..0] == "";
    }
    IntegerToken(s);
  }

  /** main_test.go:51 */
  lemma Binary1Ki(s: string)
    requires s == "1Ki"
    ensures ParseQuantity(s) == Ok(1024)
  {
    assert s == "1" + "Ki";
    assert Suffixes[0] == Suffix("Ki", 1024);
    assert DigitsValue("1") == 1 by {
      assert "1"[..0] == "";
    }
    SuffixedInteger("1", 0);
  }

  /** main_test.go:52 */
  lemma Binary1Mi(s: string)
    requires s == "1Mi"
    ensures ParseQuantity(s) == Ok(1048576)
  {
    assert s == "1" + "Mi";
    assert Suffixes[1] == Suffix("Mi", 1048576);
    assert DigitsValue("1") == 1 by {
      assert "1"[..0] == "";
    }
    SuffixedInteger("1", 1);
  }

  /** main_test.go:53 */
  lemma Binary1Gi(s: string)
    requires s == "1Gi"
    ensures ParseQuantity(s) == Ok(1073741824)
  {
    assert s == "1" + "Gi";
    assert Suffixes[2] == Suffix("Gi", 1073741824);
    assert DigitsValue("1") == 1 by {
      assert "1"[..0] == "";
    }
    SuffixedInteger("1", 2);
  }

  /** main_test.go:54 */
  lemma Binary1Ti(s: string)
    requires s == "1Ti"
    ensures ParseQuantity(s) == Ok(1099511627776)
  {
    assert s == "1" + "Ti";
    assert Suffixes[3] == Suffix("Ti", 1099511627776);
    assert DigitsValue("1") == 1 by {
      assert "1"[..0] == "";
    }
    SuffixedInteger("1", 3);
  }

  /** main_test.go:55 */
  lemma Binary12075408Ki(s: string)
    requires s == "12075408Ki"
    ensures ParseQuantity(s) == Ok(12365217792)
  {
    assert s == "12075408" + "Ki";
    assert Suffixes[0] == Suffix("Ki", 1024);
    DigitsOf12075408();
    SuffixedInteger("12075408", 0);
  }

  /** The "12Gi" of the processJSON table (main_test.go:187). */
  lemma Binary12Gi(s: string)
    requires s == "12Gi"
    ensures ParseQuantity(s) == Ok(12884901888)
  {
    assert s == "12" + "Gi";
    assert Suffixes[2] == Suffix("Gi", 1073741824);
    assert DigitsValue("12") == 12 by {
      assert "12"[..1] == "1";
      assert "1"[..0] == "";
    }
    SuffixedInteger("12", 2);
  }

  /** main_test.go:56 */
  lemma Binary100Mi(s: string)
    requires s == "100Mi"
    ensures ParseQuantity(s) == Ok(104857600)
  {
    assert s == "100" + "Mi";
    assert Suffixes[1] == Suffix("Mi", 1048576);
    assert DigitsValue("100") == 100 by {
      assert "100"[..2] == "10";
      assert "10"[..1] == "1";
      assert "1"[..0] == "";
    }
    SuffixedInteger("100", 1);
  }

  /** main_test.go:59 */
  lemma Decimal1UpperK(s: string)
    requires s == "1K"
    ensures ParseQuantity(s) == Ok(1000)
  {
    assert s == "1" + "K";
    assert Suffixes[7] == Suffix("K", 1000);
    assert DigitsValue("1") == 1 by {
      assert "1"[..0] == "";
    }
    SuffixedInteger("1", 7);
  }

  /** main_test.go:60 */
  lemma Decimal1LowerK(s: string)
    requires s == "1k"
    ensures ParseQuantity(s) == Ok(1000)
  {
    assert s == "1" + "k";
    assert Suffixes[6] == Suffix("k", 1000);
    assert DigitsValue("1") == 1 by {
      assert "1"[..0] == "";
    }
    SuffixedInteger("1", 6);
  }

  /** main_test.go:61 */
  lemma Decimal1M(s: string)
    requires s == "1M"
    ensures ParseQuantity(s) == Ok(1000000)
  {
    assert s == "1" + "M";
    assert Suffixes[8] == Suffix("M", 1000000);
    assert DigitsValue("1") == 1 by {
      assert "1"[..0] == "";
    }
    SuffixedInteger("1", 8);
  }

  /** main_test.go:62 */
  lemma Decimal1G(s: string)
    requires s == "1G"
    ensures ParseQuantity(s) == Ok(1000000000)
  {
    assert s == "1" + "G";
    assert Suffixes[9] == Suffix("G", 1000000000);
    assert DigitsValue("1") == 1 by {
      assert "1"[..0] == "";
    }
    SuffixedInteger("1", 9);
  }

  /** main_test.go:63 */
  lemma Decimal500M(s: string)
    requires s == "500M"
    ensures ParseQuantity(s) == Ok(500000000)
  {
    assert s == "500" + "M";
    assert Suffixes[8] == Suffix("M", 1000000);
    assert DigitsValue("500") == 500 by {
      assert "500"[..2] == "50";
      assert "50"[..1] == "5";
      assert "5"[..0] == "";
    }
    SuffixedInteger("500", 8);
  }

  lemma DigitsOf178255984()
    ensures DigitsValue("178255984") == 178255984
  {
    assert "178255984"[..8] == "17825598";
    assert "17825598"[..7] == "1782559";
    assert "1782559"[..6] == "178255";
    assert "178255"[..5] == "17825";
    assert "17825"[..4] == "1782";
    assert "1782"[..3] == "178";
    assert "178"[..2] == "17";
    assert "17"[..1] == "1";
    assert "1"[..0] == "";
  }

  lemma DigitsOf12075408()
    ensures DigitsValue("12075408") == 12075408
  {
    assert "12075408"[..7] == "1207540";
    assert "1207540"[..6] == "120754";
    assert "120754"[..5] == "12075";
    assert "12075"[..4] == "1207";
    assert "1207"[..3] == "120";
    assert "120"[..2] == "12";
    assert "12"[..1] == "1";
    assert "1"[..0] == "";
  }

  /** main_test.go:66 */
  lemma EmptyToken()
    ensures ParseQuantity("") == Err(EmptyInput)
  {
    EmptyInputIffBlank("");
  }

  /** main_test.go:67 */
  lemma InvalidToken(s: string)
    requires s == "invalid"
    ensures ParseQuantity(s) == Err(MalformedNumber("invalid"))
  {
    assert s[0] == 'i' && s[|s| - 1] == 'd' && NoExpChar(s);
    UnsuffixedMalformed(s, 0);
  }

  /** main_test.go:68 */
  lemma BareKi(s: string)
    requires s == "Ki"
    ensures ParseQuantity(s) == Err(MalformedNumber(""))
  {
    BareSuffixRejected(0);
  }
}
