/** The humanizeIEC vectors of main_test.go:12-26, and the edges of the
    rounding rule: a tie rounds to the even last digit, and a value just
    below the next unit rounds up to 1024 of the current one. */
module HumanizeExamples {
  import opened Powers
  import opened Text
  import opened Decimal
  import opened IecUnits

  lemma Zero()
    ensures Humanize(0) == "0B"
  {
  }

  lemma One()
    ensures Humanize(1) == "1B"
  {
  }

  lemma HalfKibibyte()
    ensures Humanize(512) == "512B"
  {
  }

  lemma Largest()
    ensures Humanize(1023) == "1023B"
  {
  }

  lemma Kibibyte(b: Uint64)
    requires b == 1024
    ensures Humanize(b) == "1.00KiB"
  {
    assert Pow(Unit, 1) == 1024;
    assert ToFloat64(b) == 1024;
    HumanizeAt(b, 1024, 1, 2);
    KibibyteUnits();
    Fixed100_2();
  }

  lemma KibibyteUnits()
    ensures Rounded(Scaled(1024, 1), 2) == 100
  {
    assert Scaled(1024, 1) == 1024.0 / 1024.0;
    assert ScaleUp(1024.0 / 1024.0, 2) == 1024.0 / 1024.0 * 100.0;
    RoundUnique(1024.0 / 1024.0 * 100.0, 100);
  }

  lemma OneAndAHalfKibibytes(b: Uint64)
    requires b == 1536
    ensures Humanize(b) == "1.50KiB"
  {
    assert Pow(Unit, 1) == 1024;
    assert Pow(10, 2) == 100;
    HumanizeAt(b, b, 1, 2);
    OneAndAHalfKibibytesUnits();
    Fixed150_2();
  }

  lemma OneAndAHalfKibibytesUnits()
    ensures Rounded(Scaled(1536, 1), 2) == 150
  {
    assert Scaled(1536, 1) == 1536.0 / 1024.0;
    assert ScaleUp(1536.0 / 1024.0, 2) == 1536.0 / 1024.0 * 100.0;
    RoundUnique(1536.0 / 1024.0 * 100.0, 150);
  }

  lemma TenKibibytes(b: Uint64)
    requires b == 10240
    ensures Humanize(b) == "10.0KiB"
  {
    assert Pow(Unit, 1) == 1024;
    assert Pow(10, 1) == 10;
    HumanizeAt(b, b, 1, 1);
    TenKibibytesUnits();
    Fixed100_1();
  }

  lemma TenKibibytesUnits()
    ensures Rounded(Scaled(10240, 1), 1) == 100
  {
    assert Scaled(10240, 1) == 10240.0 / 1024.0;
    assert ScaleUp(10240.0 / 1024.0, 1) == 10240.0 / 1024.0 * 10.0;
    RoundUnique(10240.0 / 1024.0 * 10.0, 100);
  }

  lemma HundredKibibytes(b: Uint64)
    requires b == 102400
    ensures Humanize(b) == "100KiB"
  {
    assert Pow(Unit, 1) == 1024;
    HumanizeAt(b, b, 1, 0);
    HundredKibibytesUnits();
    Fixed100_0();
  }

  lemma HundredKibibytesUnits()
    ensures Rounded(Scaled(102400, 1), 0) == 100
  {
    assert Scaled(102400, 1) == 102400.0 / 1024.0;
    assert ScaleUp(102400.0 / 1024.0, 0) == 102400.0 / 1024.0;
    RoundUnique(102400.0 / 1024.0, 100);
  }

  lemma Mebibyte(b: Uint64)
    requires b == 1048576
    ensures Humanize(b) == "1.00MiB"
  {
    assert Pow(Unit, 2) == 1048576;
    assert Pow(10, 2) == 100;
    HumanizeAt(b, b, 2, 2);
    MebibyteUnits();
    Fixed100_2();
  }

  lemma MebibyteUnits()
    ensures Rounded(Scaled(1048576, 2), 2) == 100
  {
    assert Scaled(1048576, 2) == 1048576.0 / 1048576.0;
    assert ScaleUp(1048576.0 / 1048576.0, 2) == 1048576.0 / 1048576.0 * 100.0;
    RoundUnique(1048576.0 / 1048576.0 * 100.0, 100);
  }

  lemma UsedBytes(b: Uint64)
    requires b == 178255984
    ensures Humanize(b) == "170MiB"
  {
    assert Pow(Unit, 2) == 1048576;
    HumanizeAt(b, b, 2, 0);
    UsedBytesUnits();
    Fixed170_0();
  }

  lemma UsedBytesUnits()
    ensures Rounded(Scaled(178255984, 2), 0) == 170
  {
    assert Scaled(178255984, 2) == 178255984.0 / 1048576.0;
    assert ScaleUp(178255984.0 / 1048576.0, 0) == 178255984.0 / 1048576.0;
    RoundUnique(178255984.0 / 1048576.0, 170);
  }

  lemma GrowthRate(b: Uint64)
    requires b == 293007
    ensures Humanize(b) == "286KiB"
  {
    assert Pow(Unit, 1) == 1024;
    HumanizeAt(b, b, 1, 0);
    GrowthRateUnits();
    Fixed286_0();
  }

  lemma GrowthRateUnits()
    ensures Rounded(Scaled(293007, 1), 0) == 286
  {
    assert Scaled(293007, 1) == 293007.0 / 1024.0;
    assert ScaleUp(293007.0 / 1024.0, 0) == 293007.0 / 1024.0;
    RoundUnique(293007.0 / 1024.0, 286);
  }

  lemma Count128849018(b: Uint64)
    requires b == 128849018
    ensures Humanize(b) == "123MiB"
  {
    assert Pow(Unit, 2) == 1048576;
    HumanizeAt(b, b, 2, 0);
    Count128849018Units();
    Fixed123_0();
  }

  lemma Count128849018Units()
    ensures Rounded(Scaled(128849018, 2), 0) == 123
  {
    assert Scaled(128849018, 2) == 128849018.0 / 1048576.0;
    assert ScaleUp(128849018.0 / 1048576.0, 0) == 128849018.0 / 1048576.0;
    RoundUnique(128849018.0 / 1048576.0, 123);
  }

  lemma Gibibyte(b: Uint64)
    requires b == 1073741824
    ensures Humanize(b) == "1.00GiB"
  {
    assert Pow(Unit, 3) == 1073741824;
    assert Pow(10, 2) == 100;
    HumanizeAt(b, b, 3, 2);
    GibibyteUnits();
    Fixed100_2();
  }

  lemma GibibyteUnits()
    ensures Rounded(Scaled(1073741824, 3), 2) == 100
  {
    assert Scaled(1073741824, 3) == 1073741824.0 / 1073741824.0;
    assert ScaleUp(1073741824.0 / 1073741824.0, 2) == 1073741824.0 / 1073741824.0 * 100.0;
    RoundUnique(1073741824.0 / 1073741824.0 * 100.0, 100);
  }

  lemma TenGibibytes(b: Uint64)
    requires b == 10737418240
    ensures Humanize(b) == "10.0GiB"
  {
    assert Pow(Unit, 3) == 1073741824;
    assert Pow(10, 1) == 10;
    HumanizeAt(b, b, 3, 1);
    TenGibibytesUnits();
    Fixed100_1();
  }

  lemma TenGibibytesUnits()
    ensures Rounded(Scaled(10737418240, 3), 1) == 100
  {
    assert Scaled(10737418240, 3) == 10737418240.0 / 1073741824.0;
    assert ScaleUp(10737418240.0 / 1073741824.0, 1) == 10737418240.0 / 1073741824.0 * 10.0;
    RoundUnique(10737418240.0 / 1073741824.0 * 10.0, 100);
  }

  lemma Tebibyte(b: Uint64)
    requires b == 1099511627776
    ensures Humanize(b) == "1.00TiB"
  {
    assert Pow(Unit, 4) == 1099511627776;
    assert Pow(10, 2) == 100;
    HumanizeAt(b, b, 4, 2);
    TebibyteUnits();
    Fixed100_2();
  }

  lemma TebibyteUnits()
    ensures Rounded(Scaled(1099511627776, 4), 2) == 100
  {
    assert Scaled(1099511627776, 4) == 1099511627776.0 / 1099511627776.0;
    assert ScaleUp(1099511627776.0 / 1099511627776.0, 2) == 1099511627776.0 / 1099511627776.0 * 100.0;
    RoundUnique(1099511627776.0 / 1099511627776.0 * 100.0, 100);
  }

  lemma TieToEven(b: Uint64)
    requires b == 1152
    ensures Humanize(b) == "1.12KiB"
  {
    assert Pow(Unit, 1) == 1024;
    assert Pow(10, 2) == 100;
    HumanizeAt(b, b, 1, 2);
    TieToEvenUnits();
    Fixed112_2();
  }

  lemma TieToEvenUnits()
    ensures Rounded(Scaled(1152, 1), 2) == 112
  {
    assert Scaled(1152, 1) == 1152.0 / 1024.0;
    assert ScaleUp(1152.0 / 1024.0, 2) == 1152.0 / 1024.0 * 100.0;
    RoundUnique(1152.0 / 1024.0 * 100.0, 112);
  }

  lemma RoundsUpToNextThousand(b: Uint64)
    requires b == 1048575
    ensures Humanize(b) == "1024KiB"
  {
    assert Pow(Unit, 1) == 1024;
    HumanizeAt(b, b, 1, 0);
    RoundsUpToNextThousandUnits();
    Fixed1024_0();
  }

  lemma RoundsUpToNextThousandUnits()
    ensures Rounded(Scaled(1048575, 1), 0) == 1024
  {
    assert Scaled(1048575, 1) == 1048575.0 / 1024.0;
    assert ScaleUp(1048575.0 / 1024.0, 0) == 1048575.0 / 1024.0;
    RoundUnique(1048575.0 / 1024.0, 1024);
  }

  lemma Fixed100_0()
    ensures FixedString(100, 0) == "100"
  {
    assert NatToString(100) == "100";
  }

  lemma Fixed100_1()
    ensures FixedString(100, 1) == "10.0"
  {
    assert Pow(10, 1) == 10;
    assert NatToString(0) == "0" && NatToString(1) == "1";
    assert NatToString(10) == NatToString(1) + "0";
    assert FractionDigits(0, 1) == "0";
  }

  lemma Fixed100_2()
    ensures FixedString(100, 2) == "1.00"
  {
    assert Pow(10, 2) == 100;
    assert NatToString(1) == "1";
    assert FractionDigits(0, 2) == "00";
  }

  lemma Fixed112_2()
    ensures FixedString(112, 2) == "1.12"
  {
    assert Pow(10, 2) == 100;
    assert NatToString(1) == "1";
    assert FractionDigits(12, 2) == "12";
  }

  lemma Fixed123_0()
    ensures FixedString(123, 0) == "123"
  {
    assert NatToString(123) == "123";
  }

  lemma Fixed150_2()
    ensures FixedString(150, 2) == "1.50"
  {
    assert Pow(10, 2) == 100;
    assert NatToString(1) == "1";
    assert FractionDigits(50, 2) == "50";
  }

  lemma Fixed170_0()
    ensures FixedString(170, 0) == "170"
  {
    assert NatToString(170) == "170";
  }

  lemma Fixed286_0()
    ensures FixedString(286, 0) == "286"
  {
    assert NatToString(286) == "286";
  }

  lemma Fixed1024_0()
    ensures FixedString(1024, 0) == "1024"
  {
    assert NatToString(1024) == "1024";
  }

  /** The largest count: float64 rounds it up to 2^64, which is 16 EiB. */
  lemma LargestCount(b: Uint64)
    requires b == 0xFFFF_FFFF_FFFF_FFFF
    ensures Humanize(b) == "16.0EiB"
  {
    var f := 0x1_0000_0000_0000_0000;
    LargestFloat(b);
    assert Pow(Unit, 6) == 0x1000_0000_0000_0000;
    assert Pow(10, 1) == 10;
    HumanizeAt(b, f, 6, 1);
    LargestCountUnits();
    Fixed160_1();
  }

  lemma LargestFloat(b: Uint64)
    requires b == 0xFFFF_FFFF_FFFF_FFFF
    ensures ToFloat64(b) == 0x1_0000_0000_0000_0000
  {
    assert Ulp(0x1fffffffffffff) == 1;
    assert Ulp(0x3fffffffffffff) == 2;
    assert Ulp(0x7fffffffffffff) == 4;
    assert Ulp(0xffffffffffffff) == 8;
    assert Ulp(0x1ffffffffffffff) == 16;
    assert Ulp(0x3ffffffffffffff) == 32;
    assert Ulp(0x7ffffffffffffff) == 64;
    assert Ulp(0xfffffffffffffff) == 128;
    assert Ulp(0x1fffffffffffffff) == 256;
    assert Ulp(0x3fffffffffffffff) == 512;
    assert Ulp(0x7fffffffffffffff) == 1024;
    assert Ulp(0xffffffffffffffff) == 2048;
    assert RoundedRatio(b, 2048) == 0x20_0000_0000_0000;
  }

  lemma LargestCountUnits()
    ensures Rounded(Scaled(0x1_0000_0000_0000_0000, 6), 1) == 160
  {
    assert Scaled(0x1_0000_0000_0000_0000, 6) == 16.0;
    assert ScaleUp(16.0, 1) == 160.0;
    RoundUnique(160.0, 160);
  }

  lemma Fixed160_1()
    ensures FixedString(160, 1) == "16.0"
  {
    assert Pow(10, 1) == 10;
    assert NatToString(0) == "0" && NatToString(1) == "1";
    assert NatToString(16) == NatToString(1) + "6";
    assert FractionDigits(0, 1) == "0";
  }

  // The values behind the formatValue vectors of main_test.go:92-103.

  lemma ElevenAndAHalfGibibytes(b: Uint64)
    requires b == 12365217792
    ensures Humanize(b) == "11.5GiB"
  {
    assert Pow(Unit, 3) == 1073741824;
    assert Pow(10, 1) == 10;
    HumanizeAt(b, b, 3, 1);
    ElevenAndAHalfGibibytesUnits();
    Fixed115_1();
  }

  lemma ElevenAndAHalfGibibytesUnits()
    ensures Rounded(Scaled(12365217792, 3), 1) == 115
  {
    assert Scaled(12365217792, 3) == 12365217792.0 / 1073741824.0;
    assert ScaleUp(12365217792.0 / 1073741824.0, 1) == 12365217792.0 / 1073741824.0 * 10.0;
    RoundUnique(12365217792.0 / 1073741824.0 * 10.0, 115);
  }

  /** The "12Gi" of the processJSON table (main_test.go:187-189). */
  lemma TwelveGibibytes(b: Uint64)
    requires b == 12884901888
    ensures Humanize(b) == "12.0GiB"
  {
    assert Pow(Unit, 3) == 1073741824;
    assert Pow(10, 1) == 10;
    HumanizeAt(b, b, 3, 1);
    TwelveGibibytesUnits();
    Fixed120_1();
  }

  lemma TwelveGibibytesUnits()
    ensures Rounded(Scaled(12884901888, 3), 1) == 120
  {
    assert Scaled(12884901888, 3) == 12884901888.0 / 1073741824.0;
    assert ScaleUp(12884901888.0 / 1073741824.0, 1) == 12884901888.0 / 1073741824.0 * 10.0;
    RoundUnique(12884901888.0 / 1073741824.0 * 10.0, 120);
  }

  lemma HundredMebibytes(b: Uint64)
    requires b == 104857600
    ensures Humanize(b) == "100MiB"
  {
    assert Pow(Unit, 2) == 1048576;
    HumanizeAt(b, b, 2, 0);
    HundredMebibytesUnits();
    Fixed100_0();
  }

  lemma HundredMebibytesUnits()
    ensures Rounded(Scaled(104857600, 2), 0) == 100
  {
    assert Scaled(104857600, 2) == 104857600.0 / 1048576.0;
    assert ScaleUp(104857600.0 / 1048576.0, 0) == 104857600.0 / 1048576.0;
    RoundUnique(104857600.0 / 1048576.0, 100);
  }

  lemma Gigabyte(b: Uint64)
    requires b == 1000000000
    ensures Humanize(b) == "954MiB"
  {
    assert Pow(Unit, 2) == 1048576;
    HumanizeAt(b, b, 2, 0);
    GigabyteUnits();
    Fixed954_0();
  }

  lemma GigabyteUnits()
    ensures Rounded(Scaled(1000000000, 2), 0) == 954
  {
    assert Scaled(1000000000, 2) == 1000000000.0 / 1048576.0;
    assert ScaleUp(1000000000.0 / 1048576.0, 0) == 1000000000.0 / 1048576.0;
    RoundUnique(1000000000.0 / 1048576.0, 954);
  }

  lemma FiveHundredMegabytes(b: Uint64)
    requires b == 500000000
    ensures Humanize(b) == "477MiB"
  {
    assert Pow(Unit, 2) == 1048576;
    HumanizeAt(b, b, 2, 0);
    FiveHundredMegabytesUnits();
    Fixed477_0();
  }

  lemma FiveHundredMegabytesUnits()
    ensures Rounded(Scaled(500000000, 2), 0) == 477
  {
    assert Scaled(500000000, 2) == 500000000.0 / 1048576.0;
    assert ScaleUp(500000000.0 / 1048576.0, 0) == 500000000.0 / 1048576.0;
    RoundUnique(500000000.0 / 1048576.0, 477);
  }

  lemma Fixed115_1()
    ensures FixedString(115, 1) == "11.5"
  {
    assert Pow(10, 1) == 10;
    assert NatToString(1) == "1";
    assert NatToString(11) == NatToString(1) + "1";
    assert FractionDigits(5, 1) == "5";
  }

  lemma Fixed120_1()
    ensures FixedString(120, 1) == "12.0"
  {
    assert Pow(10, 1) == 10;
    assert NatToString(1) == "1";
    assert NatToString(12) == NatToString(1) + "2";
    assert FractionDigits(0, 1) == "0";
  }

  lemma Fixed477_0()
    ensures FixedString(477, 0) == "477"
  {
    assert NatToString(477) == "477";
  }

  lemma Fixed954_0()
    ensures FixedString(954, 0) == "954"
  {
    assert NatToString(954) == "954";
  }
}
