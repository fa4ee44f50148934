/** formatValue (main.go:180-186): a quantity token to its humanized form,
    or the parser's error. */
module Format {
  import opened Powers
  import opened Text
  import opened Wrappers
  import opened Decimal
  import opened Quantity
  import opened IecUnits

  function FormatValue(s: string): (r: Result<string, ParseError>)
    ensures r.Err? <==> ParseQuantity(s).Err?
    ensures r.Err? ==> r.error == ParseQuantity(s).error
    ensures r.Ok? ==> r.value == Humanize(ParseQuantity(s).value)
  {
    match ParseQuantity(s)
    case Err(e) => Err(e)
    case Ok(bytes) => Ok(Humanize(bytes))
  }

  /** What formatValue prints is not itself a quantity: formatting an
      already formatted value fails with a syntax error on that text, so
      the rewrite leaves it alone. */
  lemma FormatValueNotReapplied(s: string)
    requires FormatValue(s).Ok?
    ensures var t := FormatValue(s).value; FormatValue(t) == Err(MalformedNumber(t))
  {
    HumanizedRejected(ParseQuantity(s).value);
  }

  /** Every output of humanizeIEC is refused by parseQuantity. */
  lemma HumanizedRejected(bytes: Uint64)
    ensures ParseQuantity(Humanize(bytes)) == Err(MalformedNumber(Humanize(bytes)))
  {
    if bytes < Unit {
      var p := NatToString(bytes);
      assert Units[0] == "B";
      UnitTextRejected(p, 0, Humanize(bytes));
    } else {
      HumanizeRounded(bytes);
      var f := ToFloat64(bytes);
      var e := UnitIndex(f);
      var v := Scaled(f, e);
      var d := Decimals(v);
      UnitTextRejected(FixedString(Rounded(v, d), d), e, Humanize(bytes));
    }
  }

  /** A number followed by a unit name: the trailing B matches no suffix and
      is no part of a number, and the E of EiB is followed by a letter, so
      this is no scientific notation. */
  lemma UnitTextRejected(p: string, e: nat, s: string)
    requires |p| > 0 && IsDigit(p[0]) && (forall k :: 0 <= k < |p| ==> p[k] == '.' || IsDigit(p[k]))
    requires e <= MaxUnit && s == p + Units[e]
    ensures ParseQuantity(s) == Err(MalformedNumber(s))
  {
    UnitTextShape(p, e, s);
    EndsInB(s);
  }

  /** A token ending in B that is no scientific notation is malformed. */
  lemma EndsInB(s: string)
    requires s != [] && !IsSpace(s[0]) && s[|s| - 1] == 'B' && !LooksScientific(s)
    ensures ParseQuantity(s) == Err(MalformedNumber(s))
  {
    TrimSpaceNoop(s);
    NotScientific(s);
    NoSuffixMatches(s);
    NoSuffixFound(s);
    ParseDecimalRejects(s, |s| - 1);
  }

  lemma UnitTextShape(p: string, e: nat, s: string)
    requires |p| > 0 && IsDigit(p[0]) && (forall k :: 0 <= k < |p| ==> p[k] == '.' || IsDigit(p[k]))
    requires e <= MaxUnit && s == p + Units[e]
    ensures s != [] && !IsSpace(s[0]) && s[|s| - 1] == 'B' && !LooksScientific(s)
  {
    var u := Units[e];
    ConcatAt(p, u, s);
    assert u[|u| - 1] == 'B' && (u[0] == 'E' ==> u[1] == 'i');
    assert forall k :: 0 <= k < |u| && IsExpChar(u[k]) ==> k == 0 && e == MaxUnit;
    if e == MaxUnit {
      assert IsExpChar(s[|p|]);
      IndexExpFromAt(s, 0, |p|);
      assert s[|p| + 1] == 'i';
    } else {
      assert NoExpChar(s);
    }
  }
}
