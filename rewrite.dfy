/** processJSON (main.go:66-102): for each field in turn, two regexp
    replacement passes over the whole text. The first rewrites
    "field" : "value" when formatValue accepts the value; the second rewrites
    "field" : number followed by a delimiter, keeping the delimiter. Values
    formatValue refuses are left as they were. */
module Rewrite {
  import opened Text
  import opened Wrappers
  import opened Quantity
  import opened Format

  /** \s in Go's regexp syntax: [\t\n\f\r ]. */
  predicate IsRegexSpace(c: char) {
    c == '\t' || c == '\n' || c == '\U{000C}' || c == '\r' || c == ' '
  }

  /** [,\s\n\r\}]: what must follow an unquoted number. */
  predicate IsDelimiter(c: char) {
    c == ',' || IsRegexSpace(c) || c == '}'
  }

  predicate IsSign(c: char) {
    c == '+' || c == '-'
  }

  /** The two patterns of the loop body, in the order they run. */
  datatype Pattern = Quoted | Unquoted

  /** A match starting at a known position: where it ends, the first capture
      group (the value) and the text the replacement keeps after the value
      (the delimiter of an unquoted number, nothing for a quoted value). */
  datatype Match = Match(end: nat, value: string, delimiter: string)

  /** The text w occurs in s at position i. */
  predicate TextAt(s: string, i: nat, w: string) {
    i + |w| <= |s| && forall k :: 0 <= k < |w| ==> s[i + k] == w[k]
  }

  /** The literal "field" at i (regexp.QuoteMeta makes the field match as text). */
  predicate KeyText(s: string, i: nat, field: string) {
    i + |field| + 2 <= |s| && s[i] == '"' && TextAt(s, i + 1, field) && s[i + 1 + |field|] == '"'
  }

  function SkipSpaces(s: string, i: nat): (r: nat)
    requires i <= |s|
    ensures i <= r <= |s| && (r == |s| || !IsRegexSpace(s[r]))
    ensures forall k :: i <= k < r ==> IsRegexSpace(s[k])
    decreases |s| - i
  {
    if i < |s| && IsRegexSpace(s[i]) then SkipSpaces(s, i + 1) else i
  }

  /** The first '"' at or after i, or the end of s. */
  function QuoteEnd(s: string, i: nat): (r: nat)
    requires i <= |s|
    ensures i <= r <= |s| && (r == |s| || s[r] == '"')
    ensures forall k :: i <= k < r ==> s[k] != '"'
    decreases |s| - i
  {
    if i == |s| || s[i] == '"' then i else QuoteEnd(s, i + 1)
  }

  /** "field"\s*:\s* at i: the position after the second run of spaces. */
  function KeyAt(s: string, i: nat, field: string): (r: Option<nat>)
    ensures r.Some? ==> i + |field| + 3 <= r.value <= |s|
  {
    if !KeyText(s, i, field) then None
    else
      var c := SkipSpaces(s, i + |field| + 2);
      if c < |s| && s[c] == ':' then Some(SkipSpaces(s, c + 1)) else None
  }

  /** "([^"]+)" at j. */
  function QuotedValueAt(s: string, j: nat): (r: Option<Match>)
    requires j <= |s|
    ensures r.Some? ==> j + 3 <= r.value.end <= |s|
  {
    if j < |s| && s[j] == '"' then
      var e := QuoteEnd(s, j + 1);
      if j + 1 < e < |s| then Some(Match(e + 1, s[j + 1..e], "")) else None
    else None
  }

  /** The end of (?:[eE][+-]?\d+)? at b: after it when it is there, b when not. */
  function ExponentEnd(s: string, b: nat): (r: nat)
    requires b <= |s|
    ensures b <= r <= |s|
    ensures r == b || ExponentShape(s, b, r)
  {
    if b < |s| && IsExpChar(s[b]) then
      var t := if b + 1 < |s| && IsSign(s[b + 1]) then b + 2 else b + 1;
      var x := ScanDigits(s, t);
      if x > t then x else b
    else b
  }

  /** (\d+\.?\d*(?:[eE][+-]?\d+)?)([,\s\n\r\}]) at j. */
  function NumberAt(s: string, j: nat): (r: Option<Match>)
    requires j <= |s|
    ensures r.Some? ==> j + 2 <= r.value.end <= |s|
  {
    var a := ScanDigits(s, j);
    if a == j then None
    else
      var b := if a < |s| && s[a] == '.' then ScanDigits(s, a + 1) else a;
      var x := ExponentEnd(s, b);
      if x < |s| && IsDelimiter(s[x]) then Some(Match(x + 1, s[j..x], [s[x]])) else None
  }

  /** The match of pattern p that starts at i, if any. */
  function MatchAt(p: Pattern, field: string, s: string, i: nat): (r: Option<Match>)
    ensures r.Some? ==> i < r.value.end <= |s|
  {
    match KeyAt(s, i, field)
    case None => None
    case Some(j) => if p == Quoted then QuotedValueAt(s, j) else NumberAt(s, j)
  }

  /** A compiled pattern, as ReplaceAllStringFunc uses it: the match that
      starts at a position, if any; a match is never empty and never runs
      past the end of the text. */
  ghost predicate Advances(find: (string, nat) -> Option<Match>) {
    forall s: string, i: nat :: find(s, i).Some? ==> i < find(s, i).value.end <= |s|
  }

  type Matcher = find: (string, nat) -> Option<Match> | Advances(find)
    witness (s: string, i: nat) => None

  /** The regexp of either pass, compiled for one field. */
  function Find(p: Pattern, field: string): Matcher {
    (s: string, i: nat) => MatchAt(p, field, s, i)
  }

  /** What the callback formats a value with: formatValue in processJSON. */
  type Formatter = string -> Result<string, ParseError>

  /** The callback: `"field": "formatted"`, followed by the delimiter for an
      unquoted number, or the matched text unchanged when formatting fails. */
  function Replacement(field: string, s: string, i: nat, m: Match, format: Formatter): string
    requires i <= m.end <= |s|
  {
    match format(m.value)
    case Ok(t) => "\"" + field + "\": \"" + t + "\"" + m.delimiter
    case Err(_) => s[i..m.end]
  }

  /** ReplaceAllStringFunc from position i: the leftmost match is replaced
      and the search resumes after it, so matches never overlap. */
  function ReplaceAllFrom(find: Matcher, field: string, s: string, i: nat, format: Formatter): string
    requires i <= |s|
    decreases |s| - i
  {
    if i == |s| then []
    else
      match find(s, i)
      case Some(m) => Replacement(field, s, i, m, format) + ReplaceAllFrom(find, field, s, m.end, format)
      case None => [s[i]] + ReplaceAllFrom(find, field, s, i + 1, format)
  }

  function ReplaceAll(find: Matcher, field: string, s: string, format: Formatter): string {
    ReplaceAllFrom(find, field, s, 0, format)
  }

  /** One iteration of the loop: the quoted pass, then the unquoted pass. */
  function RewriteField(s: string, field: string): string {
    ReplaceAll(Find(Unquoted, field), field, ReplaceAll(Find(Quoted, field), field, s, FormatValue), FormatValue)
  }

  /** The text after the loop has run over the given fields. */
  function RewriteFields(s: string, fields: seq<string>): string
    decreases |fields|
  {
    if |fields| == 0 then s
    else RewriteField(RewriteFields(s, fields[..|fields| - 1]), fields[|fields| - 1])
  }

  /** processJSON (main.go:66-102). */
  method ProcessJSON(input: string, fields: seq<string>) returns (result: string)
    ensures result == RewriteFields(input, fields)
  {
    result := input;
    for i := 0 to |fields|
      invariant result == RewriteFields(input, fields[..i])
    {
      var field := fields[i];
      assert fields[..i + 1][..i] == fields[..i];
      result := ReplaceAll(Find(Quoted, field), field, result, FormatValue);
      result := ReplaceAll(Find(Unquoted, field), field, result, FormatValue);
    }
    assert fields[..|fields|] == fields;
  }

  // ---- The patterns, declaratively ----

  /** Every character of s[a..b] is a regexp space. */
  predicate SpacesIn(s: string, a: nat, b: nat)
    requires a <= b <= |s|
  {
    forall k :: a <= k < b ==> IsRegexSpace(s[k])
  }

  /** "field"\s*:\s* occupies s[i..j], with its colon at c. */
  predicate KeyShape(s: string, i: nat, field: string, c: nat, j: nat) {
    KeyText(s, i, field) && i + |field| + 2 <= c < j <= |s|
    && SpacesIn(s, i + |field| + 2, c) && s[c] == ':' && SpacesIn(s, c + 1, j)
  }

  /** "([^"]+)" occupies s[j..e + 1]. */
  predicate QuotedShape(s: string, j: nat, e: nat) {
    j + 1 < e < |s| && s[j] == '"' && s[e] == '"' && forall k :: j < k < e ==> s[k] != '"'
  }

  /** Every character of s[lo..hi] is a decimal digit. */
  predicate DigitsIn(s: string, lo: nat, hi: nat)
    requires lo <= hi <= |s|
  {
    forall k :: lo <= k < hi ==> IsDigit(s[k])
  }

  /** [eE][+-]?\d+ occupies s[b..x]. */
  predicate ExponentShape(s: string, b: nat, x: nat)
    requires b <= x <= |s|
  {
    b + 2 <= x && IsExpChar(s[b])
    && var d := if IsSign(s[b + 1]) then b + 2 else b + 1;
    d < x && DigitsIn(s, d, x)
  }

  /** \d+\.?\d*(?:[eE][+-]?\d+)? occupies s[j..x]: the integer digits in
      s[j..a], the point and the fraction digits in s[a..b], the exponent,
      if any, in s[b..x]. */
  predicate NumberShape(s: string, j: nat, a: nat, b: nat, x: nat) {
    j < a <= b <= x <= |s| && DigitsIn(s, j, a)
    && (b == a || (s[a] == '.' && DigitsIn(s, a + 1, b)))
    && (b == x || ExponentShape(s, b, x))
  }

  /** t is in the language of \d+\.?\d*(?:[eE][+-]?\d+)?. */
  predicate NumberText(t: string) {
    exists a: nat, b: nat | a <= b <= |t| :: NumberShape(t, 0, a, b, |t|)
  }

  // ---- The scanners find exactly these shapes ----

  lemma {:induction false} SkipSpacesAt(s: string, i: nat, c: nat)
    requires i <= c <= |s| && SpacesIn(s, i, c)
    requires c == |s| || !IsRegexSpace(s[c])
    ensures SkipSpaces(s, i) == c
    decreases c - i
  {
    if i < c {
      SkipSpacesAt(s, i + 1, c);
    }
  }

  lemma {:induction false} QuoteEndAt(s: string, i: nat, e: nat)
    requires i <= e < |s| && s[e] == '"'
    requires forall k :: i <= k < e ==> s[k] != '"'
    ensures QuoteEnd(s, i) == e
    decreases e - i
  {
    if i < e {
      QuoteEndAt(s, i + 1, e);
    }
  }

  /** KeyAt finds "field"\s*:\s* exactly when it is there, and both runs of
      spaces are taken whole. */
  lemma KeyAtExact(s: string, i: nat, field: string, j: nat)
    requires j < |s| && !IsRegexSpace(s[j])
    ensures KeyAt(s, i, field) == Some(j) <==> exists c: nat | c < j :: KeyShape(s, i, field, c, j)
  {
    if KeyAt(s, i, field) == Some(j) {
      var c := SkipSpaces(s, i + |field| + 2);
      assert KeyShape(s, i, field, c, j);
    }
    if c: nat :| c < j && KeyShape(s, i, field, c, j) {
      SkipSpacesAt(s, i + |field| + 2, c);
      SkipSpacesAt(s, c + 1, j);
    }
  }

  /** QuotedValueAt finds "([^"]+)" exactly when it is there. */
  lemma QuotedValueExact(s: string, j: nat, e: nat)
    requires j < e < |s|
    ensures QuotedValueAt(s, j) == Some(Match(e + 1, s[j + 1..e], "")) <==> QuotedShape(s, j, e)
  {
    if QuotedShape(s, j, e) {
      QuoteEndAt(s, j + 1, e);
    }
  }

  lemma ExponentEndAt(s: string, b: nat, x: nat)
    requires b <= x < |s| && IsDelimiter(s[x])
    requires x == b || ExponentShape(s, b, x)
    ensures ExponentEnd(s, b) == x
  {
    if x > b {
      ScanDigitsAt(s, if IsSign(s[b + 1]) then b + 2 else b + 1, x);
    }
  }

  lemma NumberAtComplete(s: string, j: nat, a: nat, b: nat, x: nat)
    requires x < |s| && NumberShape(s, j, a, b, x) && IsDelimiter(s[x])
    ensures NumberAt(s, j) == Some(Match(x + 1, s[j..x], [s[x]]))
  {
    assert b == x || IsExpChar(s[b]);
    assert !IsDigit(s[a]) && (s[a] == '.' <==> b > a) by {
      if a < b {
        assert s[a] == '.';
      }
    }
    ScanDigitsAt(s, j, a);
    if b > a {
      ScanDigitsAt(s, a + 1, b);
    }
    ExponentEndAt(s, b, x);
    NumberAtParts(s, j, a, b, x);
  }

  /** NumberAt from where its three scans stop. */
  lemma NumberAtParts(s: string, j: nat, a: nat, b: nat, x: nat)
    requires j < a <= b <= x < |s| && ScanDigits(s, j) == a
    requires b == if s[a] == '.' then ScanDigits(s, a + 1) else a
    requires ExponentEnd(s, b) == x && IsDelimiter(s[x])
    ensures NumberAt(s, j) == Some(Match(x + 1, s[j..x], [s[x]]))
  {
  }

  /** The digits of t in t[lo..hi] are those of s in s[j + lo..j + hi]
      when t is s[j..j + |t|]. */
  lemma DigitsShift(s: string, t: string, j: nat, lo: nat, hi: nat)
    requires lo <= hi <= |t| && j + |t| <= |s|
    requires forall k :: 0 <= k < |t| ==> t[k] == s[j + k]
    ensures DigitsIn(t, lo, hi) <==> DigitsIn(s, j + lo, j + hi)
  {
    if DigitsIn(t, lo, hi) {
      forall k | j + lo <= k < j + hi
        ensures IsDigit(s[k])
      {
        assert t[k - j] == s[j + (k - j)];
      }
    }
  }

  /** A number shape in t is the same shape in s, shifted by j. */
  lemma ShapeShift(s: string, t: string, j: nat, a: nat, b: nat)
    requires a <= b <= |t| && j + |t| <= |s|
    requires forall k :: 0 <= k < |t| ==> t[k] == s[j + k]
    ensures NumberShape(t, 0, a, b, |t|) <==> NumberShape(s, j, j + a, j + b, j + |t|)
  {
    DigitsShift(s, t, j, 0, a);
    if a < b {
      assert t[a] == s[j + a];
      DigitsShift(s, t, j, a + 1, b);
    }
    if b < |t| {
      assert t[b] == s[j + b];
      if b + 1 < |t| {
        assert t[b + 1] == s[j + (b + 1)];
        DigitsShift(s, t, j, b + 1, |t|);
        DigitsShift(s, t, j, b + 2, |t|);
      }
    }
  }

  /** NumberText on a slice is NumberShape on the whole text. */
  lemma NumberTextAt(s: string, j: nat, x: nat)
    requires j <= x <= |s|
    ensures NumberText(s[j..x]) <==> exists a: nat, b: nat | j <= a <= b <= x :: NumberShape(s, j, a, b, x)
  {
    var t := s[j..x];
    assert forall k :: 0 <= k < |t| ==> t[k] == s[j + k];
    if NumberText(t) {
      var a: nat, b: nat :| a <= b <= |t| && NumberShape(t, 0, a, b, |t|);
      ShapeShift(s, t, j, a, b);
    }
    if a: nat, b: nat :| j <= a <= b <= x && NumberShape(s, j, a, b, x) {
      ShapeShift(s, t, j, a - j, b - j);
    }
  }

  /** NumberAt finds the number and its delimiter exactly when they are there:
      the number is the longest run the pattern allows, and no shorter one
      could be followed by a delimiter. */
  lemma NumberAtExact(s: string, j: nat, x: nat)
    requires j < x < |s|
    ensures NumberAt(s, j) == Some(Match(x + 1, s[j..x], [s[x]]))
        <==> (exists a: nat, b: nat | j <= a <= b <= x :: NumberShape(s, j, a, b, x)) && IsDelimiter(s[x])
  {
    if NumberAt(s, j) == Some(Match(x + 1, s[j..x], [s[x]])) {
      var a := ScanDigits(s, j);
      var b := if a < |s| && s[a] == '.' then ScanDigits(s, a + 1) else a;
      assert NumberShape(s, j, a, b, x);
    }
    if a: nat, b: nat :| j <= a <= b <= x && NumberShape(s, j, a, b, x) && IsDelimiter(s[x]) {
      NumberAtComplete(s, j, a, b, x);
    }
  }

  /** The value the unquoted pattern captures is a number. */
  lemma NumberAtText(s: string, j: nat)
    requires j <= |s| && NumberAt(s, j).Some?
    ensures NumberText(NumberAt(s, j).value.value)
  {
    var x := NumberAt(s, j).value.end - 1;
    NumberAtExact(s, j, x);
    NumberTextAt(s, j, x);
  }

  /** At any position at most one of the two patterns matches: the quoted one
      needs a '"' where the unquoted one needs a digit. */
  lemma PatternsExclusive(field: string, s: string, i: nat)
    ensures MatchAt(Quoted, field, s, i).None? || MatchAt(Unquoted, field, s, i).None?
  {
    if KeyAt(s, i, field).Some? {
      var j := KeyAt(s, i, field).value;
      if j < |s| && s[j] == '"' {
        assert ScanDigits(s, j) == j;
      }
    }
  }

  // ---- The replacement passes ----

  /** No match starts at i: the character is copied. */
  lemma Copied(find: Matcher, field: string, s: string, i: nat, format: Formatter)
    requires i < |s| && find(s, i).None?
    ensures ReplaceAllFrom(find, field, s, i, format) == [s[i]] + ReplaceAllFrom(find, field, s, i + 1, format)
  {
  }

  /** No match starts in s[i..k]: that stretch is copied as it is. */
  lemma {:induction false} CopiedUntil(find: Matcher, field: string, s: string, i: nat, k: nat, format: Formatter)
    requires i <= k <= |s|
    requires forall n :: i <= n < k ==> find(s, n).None?
    ensures ReplaceAllFrom(find, field, s, i, format) == s[i..k] + ReplaceAllFrom(find, field, s, k, format)
    decreases k - i
  {
    if i < k {
      var rest := ReplaceAllFrom(find, field, s, k, format);
      CopiedUntil(find, field, s, i + 1, k, format);
      Copied(find, field, s, i, format);
      PrependSlice(s, i, k, rest);
    }
  }

  lemma PrependSlice(s: string, i: nat, k: nat, rest: string)
    requires i < k <= |s|
    ensures [s[i]] + (s[i + 1..k] + rest) == s[i..k] + rest
  {
    assert s[i..k] == [s[i]] + s[i + 1..k];
  }

  /** The leftmost match from i on is m, at k, and the formatter turns its
      value into t: it is replaced by `"field": "t"` and its delimiter, and
      the search resumes after it. */
  lemma Reformatted(find: Matcher, field: string, s: string, i: nat, k: nat, m: Match, t: string, format: Formatter)
    requires i <= k < |s|
    requires forall n :: i <= n < k ==> find(s, n).None?
    requires find(s, k) == Some(m) && format(m.value) == Ok(t)
    ensures m.end <= |s|
    ensures ReplaceAllFrom(find, field, s, i, format)
      == s[i..k] + ("\"" + field + "\": \"" + t + "\"" + m.delimiter) + ReplaceAllFrom(find, field, s, m.end, format)
  {
    CopiedUntil(find, field, s, i, k, format);
  }

  /** The leftmost match from i on is m, at k, and the formatter refuses its
      value: the matched text stays, and the search resumes after it. */
  lemma Kept(find: Matcher, field: string, s: string, i: nat, k: nat, m: Match, format: Formatter)
    requires i <= k < |s|
    requires forall n :: i <= n < k ==> find(s, n).None?
    requires find(s, k) == Some(m) && format(m.value).Err?
    ensures m.end <= |s|
    ensures ReplaceAllFrom(find, field, s, i, format) == s[i..m.end] + ReplaceAllFrom(find, field, s, m.end, format)
  {
    CopiedUntil(find, field, s, i, k, format);
    KeptAt(find, field, s, k, m, format);
    JoinSlices(s, i, k, m.end, ReplaceAllFrom(find, field, s, m.end, format));
  }

  /** The match at k is kept as it is, and the search resumes after it. */
  lemma KeptAt(find: Matcher, field: string, s: string, k: nat, m: Match, format: Formatter)
    requires k < |s| && find(s, k) == Some(m) && format(m.value).Err?
    ensures m.end <= |s|
    ensures ReplaceAllFrom(find, field, s, k, format) == s[k..m.end] + ReplaceAllFrom(find, field, s, m.end, format)
  {
  }

  lemma JoinSlices(s: string, i: nat, k: nat, e: nat, rest: string)
    requires i <= k <= e <= |s|
    ensures s[i..k] + (s[k..e] + rest) == s[i..e] + rest
  {
    assert s[i..k] + s[k..e] == s[i..e];
  }

  /** From i on, every match has a value the formatter refuses. */
  predicate NothingReformatted(find: Matcher, field: string, s: string, i: nat, format: Formatter)
    requires i <= |s|
  {
    forall k :: i <= k < |s| && find(s, k).Some? ==> format(find(s, k).value.value).Err?
  }

  /** A pass in which the formatter refuses every match leaves the text as it was. */
  lemma {:induction false} PassUnchanged(find: Matcher, field: string, s: string, i: nat, format: Formatter)
    requires i <= |s| && NothingReformatted(find, field, s, i, format)
    ensures ReplaceAllFrom(find, field, s, i, format) == s[i..]
    decreases |s| - i
  {
    if i < |s| {
      match find(s, i)
      case None =>
        PassUnchanged(find, field, s, i + 1, format);
        assert s[i..] == [s[i]] + s[i + 1..];
      case Some(m) =>
        PassUnchanged(find, field, s, m.end, format);
        assert s[i..] == s[i..m.end] + s[m.end..];
    }
  }

  /** The key "field" occurs nowhere in s. */
  predicate Absent(s: string, field: string) {
    forall k: nat :: k < |s| ==> !KeyText(s, k, field)
  }

  /** A loop iteration for a field whose values formatValue all refuses, in
      either pattern, changes nothing. */
  lemma RejectedUnchanged(s: string, field: string)
    requires NothingReformatted(Find(Quoted, field), field, s, 0, FormatValue)
    requires NothingReformatted(Find(Unquoted, field), field, s, 0, FormatValue)
    ensures RewriteField(s, field) == s
  {
    PassUnchanged(Find(Quoted, field), field, s, 0, FormatValue);
    PassUnchanged(Find(Unquoted, field), field, s, 0, FormatValue);
  }

  /** A loop iteration for a field that does not occur changes nothing. */
  lemma AbsentUnchanged(s: string, field: string)
    requires Absent(s, field)
    ensures RewriteField(s, field) == s
  {
    forall k: nat | k < |s|
      ensures KeyAt(s, k, field).None?
    {
      assert !KeyText(s, k, field);
    }
    RejectedUnchanged(s, field);
  }

  /** processJSON over fields none of which occurs returns its input; in
      particular so does an empty field list. */
  lemma {:induction false} AbsentFieldsUnchanged(s: string, fields: seq<string>)
    requires forall f :: f in fields ==> Absent(s, f)
    ensures RewriteFields(s, fields) == s
    decreases |fields|
  {
    if |fields| > 0 {
      AbsentFieldsUnchanged(s, fields[..|fields| - 1]);
      AbsentUnchanged(s, fields[|fields| - 1]);
    }
  }

  // ---- The two patterns at one position ----

  /** The quoted pattern matches "field" : "v" wherever the text has that
      shape, capturing v whole. */
  lemma QuotedMatchComplete(field: string, s: string, i: nat, c: nat, j: nat, e: nat)
    requires KeyShape(s, i, field, c, j) && QuotedShape(s, j, e)
    ensures Find(Quoted, field)(s, i) == Some(Match(e + 1, s[j + 1..e], ""))
  {
    KeyAtExact(s, i, field, j);
    QuotedValueExact(s, j, e);
  }

  /** ... and only there. */
  lemma QuotedMatchSound(field: string, s: string, i: nat)
    requires MatchAt(Quoted, field, s, i).Some?
    ensures exists c: nat, j: nat, e: nat ::
              KeyShape(s, i, field, c, j) && QuotedShape(s, j, e)
              && MatchAt(Quoted, field, s, i) == Some(Match(e + 1, s[j + 1..e], ""))
  {
    var j := KeyAt(s, i, field).value;
    var e := MatchAt(Quoted, field, s, i).value.end - 1;
    KeyAtExact(s, i, field, j);
    QuotedValueExact(s, j, e);
    var c: nat :| c < j && KeyShape(s, i, field, c, j);
  }

  /** The unquoted pattern matches "field" : n wherever the text has that
      shape with a delimiter after the number, capturing n and the delimiter. */
  lemma NumberMatchComplete(field: string, s: string, i: nat, c: nat, j: nat, a: nat, b: nat, x: nat)
    requires KeyShape(s, i, field, c, j) && NumberShape(s, j, a, b, x) && x < |s| && IsDelimiter(s[x])
    ensures Find(Unquoted, field)(s, i) == Some(Match(x + 1, s[j..x], [s[x]]))
  {
    KeyAtExact(s, i, field, j);
    NumberAtComplete(s, j, a, b, x);
  }

  /** ... and only there. */
  lemma NumberMatchSound(field: string, s: string, i: nat)
    requires MatchAt(Unquoted, field, s, i).Some?
    ensures exists c: nat, j: nat, a: nat, b: nat, x: nat ::
              KeyShape(s, i, field, c, j) && NumberShape(s, j, a, b, x) && x < |s| && IsDelimiter(s[x])
              && MatchAt(Unquoted, field, s, i) == Some(Match(x + 1, s[j..x], [s[x]]))
  {
    var j := KeyAt(s, i, field).value;
    var x := MatchAt(Unquoted, field, s, i).value.end - 1;
    NumberAtExact(s, j, x);
    var a: nat, b: nat :| j <= a <= b <= x && NumberShape(s, j, a, b, x);
    KeyAtExact(s, i, field, j);
    var c: nat :| c < j && KeyShape(s, i, field, c, j);
  }

  /** Every match starts with the key "field": nothing matches where the
      text has no '"' or the key is not there. */
  lemma NoMatchIn(p: Pattern, field: string, s: string, a: nat, b: nat)
    requires forall n :: a <= n < b && n < |s| ==> s[n] != '"' || !KeyText(s, n, field)
    ensures forall n :: a <= n < b ==> Find(p, field)(s, n).None?
  {
  }

  /** The key is there but the value that follows is not the pattern's:
      a '"' where the unquoted pattern needs a digit, or anything else where
      the quoted pattern needs a '"'. */
  lemma NoValueAfterKey(p: Pattern, field: string, s: string, i: nat, c: nat, j: nat)
    requires KeyShape(s, i, field, c, j) && j < |s| && !IsRegexSpace(s[j])
    requires if p == Quoted then s[j] != '"' else !IsDigit(s[j])
    ensures Find(p, field)(s, i).None?
  {
    KeyAtExact(s, i, field, j);
  }
}
