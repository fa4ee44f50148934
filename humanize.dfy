/** humanizeIEC: a byte count rendered with a binary unit. The float64
    arithmetic of the source is modelled exactly: float64(bytes) rounds to
    the nearest value with a 53-bit significand, and the divisions by 1024
    that follow are exact, so the reduced value is a real number. */
module IecUnits {
  import opened Powers
  import opened Text
  import opened Wrappers
  import opened Decimal

  const Unit: nat := 1024

  const Units: seq<string> := ["B", "KiB", "MiB", "GiB", "TiB", "PiB", "EiB"]

  /** The index of the largest unit, EiB. */
  const MaxUnit: nat := 6

  /** 2^53: a float64 significand holds every natural below it. */
  const Float64Exact: nat := 0x20_0000_0000_0000

  /** The spacing of the float64 values next to n: 1 below 2^53, and
      doubling with every further binary digit. */
  function Ulp(n: nat): (r: nat)
    ensures r > 0 && (n > 0 ==> r <= n)
    ensures n < Float64Exact ==> r == 1
    ensures n < Float64Exact * r
    ensures n >= Float64Exact ==> Float64Exact * r <= 2 * n
    decreases n
  {
    if n < Float64Exact then 1 else 2 * Ulp(n / 2)
  }

  /** float64(n): the multiple of Ulp(n) nearest to n, ties to the even
      multiple (IEEE 754 round to nearest, ties to even). */
  function ToFloat64(n: nat): (r: nat)
    ensures r % Ulp(n) == 0
    ensures 2 * r <= 2 * n + Ulp(n) && 2 * n <= 2 * r + Ulp(n)
    ensures 2 * r == 2 * n + Ulp(n) || 2 * n == 2 * r + Ulp(n) ==> r / Ulp(n) % 2 == 0
    ensures n < Float64Exact ==> r == n
  {
    var u := Ulp(n);
    var k := RoundedRatio(n, u);
    MultipleDivMod(k, u);
    k * u
  }

  /** a / q rounded to the nearest natural, ties to the even one. */
  function RoundedRatio(a: nat, q: nat): (r: nat)
    requires q > 0
    ensures 2 * (r * q) <= 2 * a + q && 2 * a <= 2 * (r * q) + q
    ensures 2 * (r * q) == 2 * a + q || 2 * a == 2 * (r * q) + q ==> r % 2 == 0
  {
    var k, m := a / q, a % q;
    assert a == k * q + m && m < q;
    var r := if 2 * m > q || (2 * m == q && k % 2 == 1) then k + 1 else k;
    NearestMultiple(a, q, k, m, r);
    r
  }

  /** k * u is the multiple of u nearest to n = q * u + rem, ties to even k. */
  lemma NearestMultiple(n: nat, u: nat, q: nat, rem: nat, k: nat)
    requires u > 0 && n == q * u + rem && rem < u
    requires k == if 2 * rem > u || (2 * rem == u && q % 2 == 1) then q + 1 else q
    ensures 2 * (k * u) <= 2 * n + u && 2 * n <= 2 * (k * u) + u
    ensures 2 * (k * u) == 2 * n + u || 2 * n == 2 * (k * u) + u ==> k % 2 == 0
  {
    var m := q * u;
    assert (q + 1) * u == m + u;
  }

  lemma MultipleDivMod(k: nat, u: nat)
    requires u > 0
    ensures (k * u) % u == 0 && (k * u) / u == k
  {
    var a := k * u;
    var d, m := a / u, a % u;
    assert a == d * u + m;
    assert (k - d) * u == m;
    ProductBelow(k - d, u, m);
  }

  /** Kept apart: proved on its own, this nonlinear step is cheap. */
  lemma ProductBelow(x: int, u: nat, m: nat)
    requires u > 0 && x * u == m && m < u
    ensures x == 0
  {
  }

  /** The position of the largest unit at most e that f reaches, or 0. */
  function UnitIndexBelow(f: nat, e: nat): (r: nat)
    ensures r <= e
    ensures r == 0 || Pow(Unit, r) <= f
    ensures forall j :: r < j <= e ==> f < Pow(Unit, j)
  {
    if e == 0 || Pow(Unit, e) <= f then e else UnitIndexBelow(f, e - 1)
  }

  /** The unit f is shown in: the largest power of 1024 it reaches, up to EiB. */
  function UnitIndex(f: nat): (r: nat)
    ensures r <= MaxUnit
    ensures r == 0 || Pow(Unit, r) <= f
    ensures forall j :: r < j <= MaxUnit ==> f < Pow(Unit, j)
  {
    UnitIndexBelow(f, MaxUnit)
  }

  /** f / 1024^e, exactly: the value after e divisions by 1024. */
  function Scaled(f: nat, e: nat): (r: real)
    ensures r >= 0.0
  {
    if e == 0 then f as real else Scaled(f, e - 1) / Unit as real
  }

  /** The number of decimals: chosen on the value before rounding. */
  function Decimals(v: real): nat {
    if v >= 100.0 then 0 else if v >= 10.0 then 1 else 2
  }

  /** x * 10^d, by d multiplications by 10. */
  function ScaleUp(x: real, d: nat): (r: real)
    ensures x >= 0.0 ==> r >= x
  {
    if d == 0 then x else ScaleUp(x, d - 1) * 10.0
  }

  /** The integer nearest to x, ties to the even one. */
  function RoundHalfEven(x: real): (r: int)
    ensures x - 0.5 <= r as real <= x + 0.5
    ensures x >= 0.0 ==> r >= 0
    ensures r as real == x - 0.5 || r as real == x + 0.5 ==> r % 2 == 0
  {
    var n := x.Floor;
    var frac := x - n as real;
    if frac > 0.5 || (frac == 0.5 && n % 2 == 1) then n + 1 else n
  }

  /** u is the rounding of x when x is within half of u, or exactly half
      away and u is even. */
  lemma RoundUnique(x: real, u: int)
    requires u as real - 0.5 < x < u as real + 0.5
      || (u % 2 == 0 && (x == u as real - 0.5 || x == u as real + 0.5))
    ensures RoundHalfEven(x) == u
  {
    var r := RoundHalfEven(x);
    if u as real - 0.5 < x < u as real + 0.5 {
      assert (r - u) as real < 1.0 && (u - r) as real < 1.0;
    } else if x == u as real - 0.5 {
      assert r == u - 1 || r == u;
      assert r % 2 == 0 && (u - 1) % 2 == 1;
    } else {
      assert r == u || r == u + 1;
      assert r % 2 == 0 && (u + 1) % 2 == 1;
    }
  }

  /** x in units of its last printed decimal: x * 10^decimals rounded to the
      nearest integer, ties to even. */
  function Rounded(x: real, decimals: nat): (r: nat)
    requires x >= 0.0
  {
    RoundHalfEven(ScaleUp(x, decimals))
  }

  /** fmt's %.Nf on a non-negative value: rounded to `decimals` places,
      ties to even, then printed. */
  function FormatFixed(x: real, decimals: nat): string
    requires x >= 0.0
  {
    FixedString(Rounded(x, decimals), decimals)
  }

  /** What humanizeIEC returns. */
  function Humanize(bytes: Uint64): string {
    if bytes < Unit then NatToString(bytes) + "B"
    else
      var f := ToFloat64(bytes);
      var e := UnitIndex(f);
      var v := Scaled(f, e);
      FormatFixed(v, Decimals(v)) + Units[e]
  }

  /** humanizeIEC (main.go:188-210): divides by 1024 while the value
      reaches 1024 and a larger unit is left. */
  method HumanizeIEC(bytes: Uint64) returns (s: string)
    ensures s == Humanize(bytes)
  {
    if bytes < Unit {
      return NatToString(bytes) + "B";
    }
    var f := ToFloat64(bytes);
    FloatReachesUnit(bytes);
    var exp := 0;
    var val: real := f as real;
    assert Pow(Unit, 0) == 1;
    while val >= Unit as real && exp < |Units| - 1
      invariant exp <= MaxUnit
      invariant val == Scaled(f, exp)
      invariant Pow(Unit, exp) <= f
      decreases MaxUnit - exp
    {
      ScaledReaches(f, exp, Unit);
      val := val / Unit as real;
      exp := exp + 1;
    }
    ScaledReaches(f, exp, Unit);
    UnitIndexExact(f, exp);
    HumanizeLarge(bytes, f, exp);
    // The three Sprintf calls differ only in the precision.
    var decimals := if val >= 100.0 then 0 else if val >= 10.0 then 1 else 2;
    assert decimals == Decimals(val);
    s := FormatFixed(val, decimals) + Units[exp];
  }

  lemma HumanizeLarge(bytes: Uint64, f: nat, e: nat)
    requires bytes >= Unit && f == ToFloat64(bytes) && e == UnitIndex(f)
    ensures Humanize(bytes) == FormatFixed(Scaled(f, e), Decimals(Scaled(f, e))) + Units[e]
  {
  }

  /** A count of at least 1024 stays at least 1024 as a float64. */
  lemma FloatReachesUnit(n: nat)
    requires n >= Unit
    ensures ToFloat64(n) >= Unit
  {
  }

  /** Comparing the scaled value with c is comparing f with c * 1024^e. */
  lemma {:induction false} ScaledReaches(f: nat, e: nat, c: nat)
    ensures Scaled(f, e) >= c as real <==> f >= c * Pow(Unit, e)
    decreases e
  {
    if e > 0 {
      ScaledReaches(f, e - 1, c * Unit);
      assert c * Unit * Pow(Unit, e - 1) == c * Pow(Unit, e);
    }
  }

  /** The unit index is the only e that f reaches with the next unit out of
      reach or absent. */
  lemma UnitIndexExact(f: nat, e: nat)
    requires e <= MaxUnit && Pow(Unit, e) <= f
    requires e == MaxUnit || f < Unit * Pow(Unit, e)
    ensures UnitIndex(f) == e
  {
    var r := UnitIndex(f);
    if r > e {
      PowMonotone(Unit, e + 1, r);
    }
  }

  /** Below 1024 the count is printed as its decimal digits, without leading
      zeros, followed by "B". */
  lemma HumanizeSmall(bytes: Uint64)
    requires bytes < Unit
    ensures var s := Humanize(bytes);
      |s| >= 2 && s[|s| - 1] == 'B' && AllDigits(s[..|s| - 1])
      && DigitsValue(s[..|s| - 1]) == bytes
      && ParseDecimal(s[..|s| - 1]) == Some(Decimal(false, bytes, 0))
      && (|s| > 2 ==> s[0] != '0')
  {
    var d := NatToString(bytes);
    assert (d + "B")[..|d|] == d;
    ParseNatToString(bytes);
  }

  /** From 1024 on, the unit is KiB to EiB, the value shown in it lies in
      [1, 1024), and every smaller unit would leave a value of at least 1024:
      the unit is where the loop stops. Below 2^53 the count converts exactly. */
  lemma HumanizeUnit(bytes: Uint64)
    requires bytes >= Unit
    ensures var f := ToFloat64(bytes); var e := UnitIndex(f);
      1 <= e <= MaxUnit && 1.0 <= Scaled(f, e) < Unit as real
      && (forall j :: 0 <= j < e ==> Scaled(f, j) >= Unit as real)
      && (bytes < Float64Exact ==> f == bytes)
  {
    FloatReachesUnit(bytes);
    FloatBelow(bytes);
    UnitBounds(ToFloat64(bytes));
  }

  lemma UnitBounds(f: nat)
    requires Unit <= f < Unit * Pow(Unit, MaxUnit)
    ensures var e := UnitIndex(f);
      1 <= e <= MaxUnit && 1.0 <= Scaled(f, e) < Unit as real
      && forall j :: 0 <= j < e ==> Scaled(f, j) >= Unit as real
  {
    var e := UnitIndex(f);
    assert Pow(Unit, 1) == Unit;
    ScaledReaches(f, e, 1);
    ScaledReaches(f, e, Unit);
    forall j | 0 <= j < e
      ensures Scaled(f, j) >= Unit as real
    {
      ScaledReaches(f, j, Unit);
      PowMonotone(Unit, j + 1, e);
    }
  }

  /** Every float64 of a 64-bit count stays below 1024^7. */
  lemma FloatBelow(n: Uint64)
    ensures ToFloat64(n) < Unit * Pow(Unit, MaxUnit)
  {
    assert Pow(Unit, MaxUnit) == 0x1000_0000_0000_0000;
  }

  /** From 1024 on, the number printed is the value rounded to the tier's
      number of decimals d, ties to even: its units are within half of
      v * 10^d. Read back it is a decimal with d fraction digits, and it has
      three or four significant digits. */
  lemma HumanizeRounded(bytes: Uint64)
    requires bytes >= Unit
    ensures var f := ToFloat64(bytes); var e := UnitIndex(f); var v := Scaled(f, e);
      var d := Decimals(v); var units := Rounded(v, d);
      Humanize(bytes) == FixedString(units, d) + Units[e]
      && ParseDecimal(FixedString(units, d)) == Some(Decimal(false, units, -(d as int)))
      && units as real - 0.5 <= ScaleUp(v, d) <= units as real + 0.5
      && 100 <= units <= 1024
  {
    var f := ToFloat64(bytes);
    var e := UnitIndex(f);
    var v := Scaled(f, e);
    var d := Decimals(v);
    HumanizeUnit(bytes);
    HumanizeLarge(bytes, f, e);
    ParseFixedString(Rounded(v, d), d);
    SignificantDigits(v);
  }

  /** The tiers on integers: no decimals from 100 units on, one from 10,
      two below. */
  lemma HumanizeTiers(bytes: Uint64)
    requires bytes >= Unit
    ensures var f := ToFloat64(bytes); var e := UnitIndex(f); var d := Decimals(Scaled(f, e));
      (d == 0 <==> f >= 100 * Pow(Unit, e))
      && (d == 1 <==> 10 * Pow(Unit, e) <= f < 100 * Pow(Unit, e))
      && (d == 2 <==> f < 10 * Pow(Unit, e))
  {
    var f := ToFloat64(bytes);
    var e := UnitIndex(f);
    ScaledReaches(f, e, 100);
    ScaledReaches(f, e, 10);
  }

  /** A value in [1, 1024) rounded in its tier has 100 to 1024 units. */
  lemma SignificantDigits(v: real)
    requires 1.0 <= v < Unit as real
    ensures 100 <= Rounded(v, Decimals(v)) <= 1024
  {
    assert ScaleUp(v, 1) == v * 10.0;
    assert ScaleUp(v, 2) == v * 100.0;
  }

  /** Humanize for a count whose unit e and precision d are given: the
      premises are the loop's stop and the tier, on integers. */
  lemma HumanizeAt(bytes: Uint64, f: nat, e: nat, d: nat)
    requires bytes >= Unit && f == ToFloat64(bytes)
    requires e <= MaxUnit && Pow(Unit, e) <= f && (e == MaxUnit || f < Unit * Pow(Unit, e))
    requires d == if f >= 100 * Pow(Unit, e) then 0 else if f >= 10 * Pow(Unit, e) then 1 else 2
    ensures Humanize(bytes) == FixedString(Rounded(Scaled(f, e), d), d) + Units[e]
  {
    UnitIndexExact(f, e);
    HumanizeLarge(bytes, f, e);
    ScaledReaches(f, e, 100);
    ScaledReaches(f, e, 10);
  }
}
