/** The formatValue test table of main_test.go:92-107, vector by vector:
    each chains a parseQuantity fact with a humanizeIEC fact. */
module FormatExamples {
  import opened Powers
  import opened Text
  import opened Wrappers
  import opened Quantity
  import opened Format
  import QuantityExamples
  import HumanizeExamples

  /** main_test.go:92 */
  lemma UsedBytes(s: string)
    requires s == "178255984"
    ensures FormatValue(s) == Ok("170MiB")
  {
    QuantityExamples.Raw178255984(s);
    HumanizeExamples.UsedBytes(178255984);
  }

  /** main_test.go:93 */
  lemma GrowthRate(s: string)
    requires s == "293007"
    ensures FormatValue(s) == Ok("286KiB")
  {
    DigitsOf293007();
    IntegerToken(s);
    HumanizeExamples.GrowthRate(293007);
  }

  /** main_test.go:94 */
  lemma RawGibibyte(s: string)
    requires s == "1073741824"
    ensures FormatValue(s) == Ok("1.00GiB")
  {
    DigitsOf1073741824();
    IntegerToken(s);
    HumanizeExamples.Gibibyte(1073741824);
  }

  /** main_test.go:97 */
  lemma SpaceAvailable(s: string)
    requires s == "12075408Ki"
    ensures FormatValue(s) == Ok("11.5GiB")
  {
    QuantityExamples.Binary12075408Ki(s);
    HumanizeExamples.ElevenAndAHalfGibibytes(12365217792);
  }

  /** main_test.go:98 */
  lemma HundredMebibytes(s: string)
    requires s == "100Mi"
    ensures FormatValue(s) == Ok("100MiB")
  {
    QuantityExamples.Binary100Mi(s);
    HumanizeExamples.HundredMebibytes(104857600);
  }

  /** main_test.go:99 */
  lemma SuffixedGibibyte(s: string)
    requires s == "1Gi"
    ensures FormatValue(s) == Ok("1.00GiB")
  {
    QuantityExamples.Binary1Gi(s);
    HumanizeExamples.Gibibyte(1073741824);
  }

  /** The "12Gi" of the processJSON table (main_test.go:187). */
  lemma TwelveGibibytes(s: string)
    requires s == "12Gi"
    ensures FormatValue(s) == Ok("12.0GiB")
  {
    QuantityExamples.Binary12Gi(s);
    HumanizeExamples.TwelveGibibytes(12884901888);
  }

  /** main_test.go:102 */
  lemma Gigabyte(s: string)
    requires s == "1G"
    ensures FormatValue(s) == Ok("954MiB")
  {
    QuantityExamples.Decimal1G(s);
    HumanizeExamples.Gigabyte(1000000000);
  }

  /** main_test.go:103 */
  lemma FiveHundredMegabytes(s: string)
    requires s == "500M"
    ensures FormatValue(s) == Ok("477MiB")
  {
    QuantityExamples.Decimal500M(s);
    HumanizeExamples.FiveHundredMegabytes(500000000);
  }

  /** main_test.go:106 */
  lemma Invalid(s: string)
    requires s == "invalid"
    ensures FormatValue(s) == Err(MalformedNumber("invalid"))
  {
    QuantityExamples.InvalidToken(s);
  }

  /** main_test.go:107 */
  lemma Empty()
    ensures FormatValue("") == Err(EmptyInput)
  {
    QuantityExamples.EmptyToken();
  }

  lemma DigitsOf293007()
    ensures DigitsValue("293007") == 293007
  {
    assert "293007"[..5] == "29300";
    assert "29300"[..4] == "2930";
    assert "2930"[..3] == "293";
    assert "293"[..2] == "29";
    assert "29"[..1] == "2";
    assert "2"[..0] == "";
  }

  lemma DigitsOf1073741824()
    ensures DigitsValue("1073741824") == 1073741824
  {
    assert "1073741824"[..9] == "107374182";
    assert "107374182"[..8] == "10737418";
    assert "10737418"[..7] == "1073741";
    assert "1073741"[..6] == "107374";
    assert "107374"[..5] == "10737";
    assert "10737"[..4] == "1073";
    assert "1073"[..3] == "107";
    assert "107"[..2] == "10";
    assert "10"[..1] == "1";
    assert "1"[..0] == "";
  }
}
