/** Character classes and the decimal-digit helpers shared by the parser,
    the humanizer and the field rewriter. Strings are sequences of characters;
    the Go program works on UTF-8 bytes, which coincide with characters for
    the ASCII text this model is about. */
module Text {
  import opened Powers

  predicate IsDigit(c: char) {
    '0' <= c <= '9'
  }

  predicate AllDigits(s: string) {
    forall k :: 0 <= k < |s| ==> IsDigit(s[k])
  }

  function DigitValue(c: char): (d: nat)
    requires IsDigit(c)
    ensures d < 10
  {
    c as int - '0' as int
  }

  function DigitChar(d: nat): (c: char)
    requires d < 10
    ensures IsDigit(c) && DigitValue(c) == d
  {
    ('0' as int + d) as char
  }

  /** The number a run of decimal digits denotes (leading zeros allowed). */
  function DigitsValue(s: string): nat
    requires AllDigits(s)
  {
    if |s| == 0 then 0 else DigitsValue(s[..|s| - 1]) * 10 + DigitValue(s[|s| - 1])
  }

  lemma {:induction false} DigitsValueAppend(a: string, b: string)
    requires AllDigits(a) && AllDigits(b)
    ensures AllDigits(a + b)
    ensures DigitsValue(a + b) == DigitsValue(a) * Pow(10, |b|) + DigitsValue(b)
  {
    if |b| > 0 {
      var b' := b[..|b| - 1];
      assert (a + b)[..|a + b| - 1] == a + b';
      DigitsValueAppend(a, b');
      assert AllDigits(a + b);
      assert (a + b)[|a + b| - 1] == b[|b| - 1];
      assert b[..|b| - 1] == b';
      var x, y, p, d := DigitsValue(a), DigitsValue(b'), Pow(10, |b'|), DigitValue(b[|b| - 1]);
      assert Pow(10, |b|) == 10 * p;
      assert DigitsValue(b) == y * 10 + d;
      assert DigitsValue(a + b) == DigitsValue(a + b') * 10 + d;
      assert DigitsValue(a + b') == x * p + y;
      assert (x * p + y) * 10 + d == x * (10 * p) + (y * 10 + d) by { Distribute(x, p, y, d); }
    } else {
      assert a + b == a;
    }
  }

  /** Kept apart so that the nonlinear step is proved without the rest of
      DigitsValueAppend's context. */
  lemma Distribute(x: int, p: int, y: int, d: int)
    ensures (x * p + y) * 10 + d == x * (10 * p) + (y * 10 + d)
  {
  }

  /** A run of zeros denotes zero. */
  function Zeros(n: nat): (r: string)
    ensures |r| == n && AllDigits(r) && DigitsValue(r) == 0
    ensures forall k :: 0 <= k < n ==> r[k] == '0'
  {
    if n == 0 then [] else
      var z := Zeros(n - 1) + ['0'];
      assert z[..|z| - 1] == Zeros(n - 1);
      z
  }

  /** The decimal representation of a natural number, as %d prints it:
      no sign, no leading zeros, "0" for zero. */
  function NatToString(n: nat): (r: string)
    ensures |r| > 0 && AllDigits(r) && DigitsValue(r) == n
    ensures |r| > 1 ==> r[0] != '0'
  {
    if n < 10 then [DigitChar(n)]
    else
      var r := NatToString(n / 10) + [DigitChar(n % 10)];
      assert r[..|r| - 1] == NatToString(n / 10);
      r
  }

  /** Left-pads a digit string with zeros up to the given width, as the
      fractional digits of %.Nf are printed. */
  function ZeroPad(s: string, width: nat): (r: string)
    requires AllDigits(s)
    ensures |r| == if |s| < width then width else |s|
    ensures AllDigits(r) && DigitsValue(r) == DigitsValue(s)
  {
    var z := Zeros(if |s| < width then width - |s| else 0);
    DigitsValueAppend(z, s);
    z + s
  }

  /** unicode.IsSpace, the predicate strings.TrimSpace trims. */
  predicate IsSpace(c: char) {
    c == '\t' || c == '\n' || c == '\U{000B}' || c == '\U{000C}' || c == '\r' || c == ' '
    || c == '\U{0085}' || c == '\U{00A0}' || c == '\U{1680}'
    || ('\U{2000}' <= c <= '\U{200A}')
    || c == '\U{2028}' || c == '\U{2029}' || c == '\U{202F}' || c == '\U{205F}' || c == '\U{3000}'
  }

  function TrimLeft(s: string): (r: string)
    ensures |r| <= |s| && r == s[|s| - |r|..]
    ensures forall k :: 0 <= k < |s| - |r| ==> IsSpace(s[k])
    ensures r == [] || !IsSpace(r[0])
  {
    if s != [] && IsSpace(s[0]) then TrimLeft(s[1..]) else s
  }

  function TrimRight(s: string): (r: string)
    ensures |r| <= |s| && r == s[..|r|]
    ensures forall k :: |r| <= k < |s| ==> IsSpace(s[k])
    ensures r == [] || !IsSpace(r[|r| - 1])
  {
    if s != [] && IsSpace(s[|s| - 1]) then TrimRight(s[..|s| - 1]) else s
  }

  /** strings.TrimSpace: drops leading and trailing white space. */
  function TrimSpace(s: string): (r: string)
  {
    TrimRight(TrimLeft(s))
  }

  /** TrimSpace is empty exactly when the input is all white space, and
      otherwise starts and ends with a non-space character. */
  lemma TrimSpaceSpec(s: string)
    ensures TrimSpace(s) == [] <==> forall k :: 0 <= k < |s| ==> IsSpace(s[k])
    ensures TrimSpace(s) != [] ==> !IsSpace(TrimSpace(s)[0]) && !IsSpace(TrimSpace(s)[|TrimSpace(s)| - 1])
  {
  }

  /** A string that starts and ends with a non-space character is left alone. */
  lemma TrimSpaceNoop(s: string)
    requires s != [] && !IsSpace(s[0]) && !IsSpace(s[|s| - 1])
    ensures TrimSpace(s) == s
  {
  }

  /** White space around a string with non-space ends is exactly what
      TrimSpace removes. */
  lemma TrimSpacePadded(pre: string, s: string, post: string, t: string)
    requires forall k :: 0 <= k < |pre| ==> IsSpace(pre[k])
    requires forall k :: 0 <= k < |post| ==> IsSpace(post[k])
    requires s != [] && !IsSpace(s[0]) && !IsSpace(s[|s| - 1])
    requires t == pre + (s + post)
    ensures TrimSpace(t) == s
  {
    var l := s + post;
    ConcatAt(pre, l, t);
    ConcatAt(s, post, l);
    TrimLeftAt(t, |pre|);
    assert t[|pre|..] == l;
    TrimRightAt(l, |s|);
    assert l[..|s|] == s;
  }

  /** TrimLeft stops at the first non-space character. */
  lemma TrimLeftAt(t: string, p: nat)
    requires p < |t| && !IsSpace(t[p])
    requires forall k :: 0 <= k < p ==> IsSpace(t[k])
    ensures TrimLeft(t) == t[p..]
  {
    var l := TrimLeft(t);
    assert |t| - |l| <= p;
    assert l[0] == t[|t| - |l|];
  }

  /** TrimRight stops at the last non-space character. */
  lemma TrimRightAt(l: string, q: nat)
    requires 0 < q <= |l| && !IsSpace(l[q - 1])
    requires forall k :: q <= k < |l| ==> IsSpace(l[k])
    ensures TrimRight(l) == l[..q]
  {
    var r := TrimRight(l);
    assert |r| >= q;
    assert r[|r| - 1] == l[|r| - 1];
  }

  /** The characters of a + b, position by position. */
  lemma ConcatAt(a: string, b: string, s: string)
    requires s == a + b
    ensures |s| == |a| + |b|
    ensures forall k :: 0 <= k < |a| ==> s[k] == a[k]
    ensures forall k :: 0 <= k < |b| ==> s[|a| + k] == b[k]
  {
  }

  /** A window of s that agrees with w character by character is w. */
  lemma SliceIs(s: string, a: nat, b: nat, w: string)
    requires a <= b <= |s| && b - a == |w|
    requires forall k :: 0 <= k < |w| ==> s[a + k] == w[k]
    ensures s[a..b] == w
  {
    forall k | 0 <= k < |w|
      ensures s[a..b][k] == w[k]
    {
      assert s[a..b][k] == s[a + k];
    }
  }

  predicate HasSuffix(s: string, t: string) {
    |t| <= |s| && s[|s| - |t|..] == t
  }

  /** The end of the maximal run of digits starting at i. */
  function ScanDigits(s: string, i: nat): (j: nat)
    requires i <= |s|
    ensures i <= j <= |s|
    ensures forall k :: i <= k < j ==> IsDigit(s[k])
    ensures j == |s| || !IsDigit(s[j])
    decreases |s| - i
  {
    if i < |s| && IsDigit(s[i]) then ScanDigits(s, i + 1) else i
  }

  /** The run ScanDigits finds is the only maximal one: a digit run that
      ends at the end of the string or before a non-digit is what it returns. */
  lemma ScanDigitsAt(s: string, i: nat, j: nat)
    requires i <= j <= |s|
    requires forall k :: i <= k < j ==> IsDigit(s[k])
    requires j == |s| || !IsDigit(s[j])
    ensures ScanDigits(s, i) == j
    decreases j - i
  {
    if i < j {
      ScanDigitsAt(s, i + 1, j);
    }
  }

  /** A number below 10^p has at most p digits. */
  lemma {:induction false} NatToStringLength(n: nat, p: nat)
    requires p >= 1 && n < Pow(10, p)
    ensures |NatToString(n)| <= p
  {
    if n >= 10 {
      assert Pow(10, p) == 10 * Pow(10, p - 1);
      NatToStringLength(n / 10, p - 1);
    }
  }
}
