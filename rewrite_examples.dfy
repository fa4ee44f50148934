/** The processJSON test table of main_test.go:124-196, case by case.
    Each text is written as the concatenation of its JSON tokens, so
    the scanners can be followed token by token: the window lemmas
    below carry what holds of a token to the whole text. Each pass is
    split in a scan (where the pattern matches), a trace (what a pass
    makes of a text on which the matcher answers so) and the pass
    itself; the formatter is a parameter that the cases instantiate
    with formatValue and its results. */
module RewriteExamples {
  import opened Wrappers
  import opened Format
  import opened Rewrite
  import FormatExamples

  // Window lemmas: what the scanners see of a text at a position depends
  // only on the characters there.

  lemma TextAtSelf(w: string)
    ensures TextAt(w, 0, w)
  {
  }

  lemma TextAtEnd(u: string, w: string)
    ensures TextAt(u + w, |u|, w)
  {
  }

  lemma TextAtGrow(s: string, i: nat, w: string, v: string)
    requires TextAt(s, i, w)
    ensures TextAt(s + v, i, w)
  {
  }

  lemma CharAt(s: string, i: nat, w: string, n: nat)
    requires TextAt(s, i, w) && i <= n < i + |w|
    ensures s[n] == w[n - i]
  {
    assert s[i + (n - i)] == w[n - i];
  }

  lemma SliceAt(s: string, i: nat, j: nat, w: string)
    requires TextAt(s, i, w) && j == i + |w|
    ensures s[i..j] == w
  {
    forall k | i <= k < j
      ensures s[k] == w[k - i]
    {
      CharAt(s, i, w, k);
    }
  }

  lemma KeyShapeIn(s: string, i: nat, w: string, field: string, c: nat, j: nat)
    requires TextAt(s, i, w) && KeyShape(w, 0, field, c, j)
    ensures KeyShape(s, i, field, i + c, i + j)
  {
    forall k | i <= k < i + j
      ensures s[k] == w[k - i]
    {
      CharAt(s, i, w, k);
    }
    assert TextAt(s, i + 1, field) by {
      forall k | 0 <= k < |field|
        ensures s[i + 1 + k] == field[k]
      {
        CharAt(s, i, w, i + 1 + k);
      }
    }
  }

  lemma QuotedShapeIn(s: string, i: nat, w: string, e: nat)
    requires TextAt(s, i, w) && QuotedShape(w, 0, e)
    ensures QuotedShape(s, i, i + e) && s[i + 1..i + e] == w[1..e]
  {
    forall k | i <= k <= i + e
      ensures s[k] == w[k - i]
    {
      CharAt(s, i, w, k);
    }
  }

  lemma NumberShapeIn(s: string, i: nat, w: string, a: nat, b: nat)
    requires TextAt(s, i, w) && NumberShape(w, 0, a, b, |w|)
    ensures NumberShape(s, i, i + a, i + b, i + |w|) && s[i..i + |w|] == w
  {
    forall k | i <= k < i + |w|
      ensures s[k] == w[k - i]
    {
      CharAt(s, i, w, k);
    }
  }

  /** No quote of w from lo on can open the key of field: the character
      after it, in w or in the token next that follows w, is not the
      field's first character. */
  predicate NoKeyStart(w: string, lo: nat, next: string, field: string) {
    0 < |field|
    && forall d :: lo <= d < |w| && w[d] == '"' ==>
      if d + 1 < |w| then w[d + 1] != field[0] else 0 < |next| && next[0] != field[0]
  }

  lemma NoKeyIn(s: string, i: nat, w: string, lo: nat, next: string, field: string)
    requires TextAt(s, i, w) && TextAt(s, i + |w|, next) && NoKeyStart(w, lo, next, field)
    ensures forall n :: i + lo <= n < i + |w| && n < |s| ==> s[n] != '"' || !KeyText(s, n, field)
  {
    forall n | i + lo <= n < i + |w| && n < |s| && s[n] == '"'
      ensures !KeyText(s, n, field)
    {
      CharAt(s, i, w, n);
      var d := n - i;
      assert lo <= d < |w| && w[d] == '"';
      assert if d + 1 < |w| then w[d + 1] != field[0] else 0 < |next| && next[0] != field[0];
    }
  }

  lemma Assoc(a: string, b: string, c: string)
    ensures a + (b + c) == a + b + c
  {
  }

  lemma CatEmpty(a: string)
    ensures a + [] == a
  {
  }

  lemma FieldsOne(s: string, field: string, t: string)
    requires RewriteField(s, field) == t
    ensures RewriteFields(s, [field]) == t
  {
  }

  lemma FieldsSnoc(s: string, fields: seq<string>, field: string, t: string, u: string)
    requires RewriteFields(s, fields) == t && RewriteField(t, field) == u
    ensures RewriteFields(s, fields + [field]) == u
  {
    assert (fields + [field])[..|fields|] == fields;
  }

  lemma NoKeyToken1(w: string, lo: nat, next: string, field: string)
    requires w == "{" && lo == 0 && next == "" && field == "usedBytes"
    ensures NoKeyStart(w, lo, next, field)
  {
  }

  lemma KeyToken1(w: string, field: string)
    requires w == "\"usedBytes\": " && field == "usedBytes"
    ensures KeyShape(w, 0, field, 11, 13)
  {
  }

  lemma QuotedToken1(w: string)
    requires w == "\"178255984\""
    ensures QuotedShape(w, 0, 10) && w[1..10] == "178255984"
  {
  }

  lemma NoKeyToken2(w: string, lo: nat, next: string, field: string)
    requires w == "}" && lo == 0 && next == "" && field == "usedBytes"
    ensures NoKeyStart(w, lo, next, field)
  {
  }

  lemma NoKeyToken3(w: string, lo: nat, next: string, field: string)
    requires w == "\"usedBytes\": " && lo == 1 && next == "" && field == "usedBytes"
    ensures NoKeyStart(w, lo, next, field)
  {
  }

  lemma NoKeyToken4(w: string, lo: nat, next: string, field: string)
    requires w == "\"170MiB\"" && lo == 0 && next == "}" && field == "usedBytes"
    ensures NoKeyStart(w, lo, next, field)
  {
  }

  lemma Peel1()
    ensures "{\"usedBytes\": " == "{" + "\"usedBytes\": "
  {
  }

  lemma Peel2()
    ensures "{\"usedBytes\": \"178255984\"" == "{\"usedBytes\": " + "\"178255984\""
  {
  }

  lemma Peel3()
    ensures "{\"usedBytes\": \"178255984\"}" == "{\"usedBytes\": \"178255984\"" + "}"
  {
  }

  lemma Peel4()
    ensures "{\"usedBytes\": \"170MiB\"" == "{\"usedBytes\": " + "\"170MiB\""
  {
  }

  lemma Peel5()
    ensures "{\"usedBytes\": \"170MiB\"}" == "{\"usedBytes\": \"170MiB\"" + "}"
  {
  }

  lemma NoKeyToken5(w: string, lo: nat, next: string, field: string)
    requires w == "," && lo == 0 && next == "" && field == "usedBytes"
    ensures NoKeyStart(w, lo, next, field)
  {
  }

  lemma NoKeyToken6(w: string, lo: nat, next: string, field: string)
    requires w == " " && lo == 0 && next == "" && field == "usedBytes"
    ensures NoKeyStart(w, lo, next, field)
  {
  }

  lemma NoKeyToken7(w: string, lo: nat, next: string, field: string)
    requires w == "\"growthRate\": " && lo == 0 && next == "" && field == "usedBytes"
    ensures NoKeyStart(w, lo, next, field)
  {
  }

  lemma NoKeyToken8(w: string, lo: nat, next: string, field: string)
    requires w == "\"293007\"" && lo == 0 && next == "}" && field == "usedBytes"
    ensures NoKeyStart(w, lo, next, field)
  {
  }

  lemma NoKeyToken9(w: string, lo: nat, next: string, field: string)
    requires w == "\"170MiB\"" && lo == 0 && next == "," && field == "usedBytes"
    ensures NoKeyStart(w, lo, next, field)
  {
  }

  lemma NoKeyToken10(w: string, lo: nat, next: string, field: string)
    requires w == "{" && lo == 0 && next == "" && field == "growthRate"
    ensures NoKeyStart(w, lo, next, field)
  {
  }

  lemma NoKeyToken11(w: string, lo: nat, next: string, field: string)
    requires w == "\"usedBytes\": " && lo == 0 && next == "" && field == "growthRate"
    ensures NoKeyStart(w, lo, next, field)
  {
  }

  lemma NoKeyToken12(w: string, lo: nat, next: string, field: string)
    requires w == "\"170MiB\"" && lo == 0 && next == "," && field == "growthRate"
    ensures NoKeyStart(w, lo, next, field)
  {
  }

  lemma NoKeyToken13(w: string, lo: nat, next: string, field: string)
    requires w == "," && lo == 0 && next == "" && field == "growthRate"
    ensures NoKeyStart(w, lo, next, field)
  {
  }

  lemma NoKeyToken14(w: string, lo: nat, next: string, field: string)
    requires w == " " && lo == 0 && next == "" && field == "growthRate"
    ensures NoKeyStart(w, lo, next, field)
  {
  }

  lemma KeyToken2(w: string, field: string)
    requires w == "\"growthRate\": " && field == "growthRate"
    ensures KeyShape(w, 0, field, 12, 14)
  {
  }

  lemma QuotedToken2(w: string)
    requires w == "\"293007\""
    ensures QuotedShape(w, 0, 7) && w[1..7] == "293007"
  {
  }

  lemma NoKeyToken15(w: string, lo: nat, next: string, field: string)
    requires w == "}" && lo == 0 && next == "" && field == "growthRate"
    ensures NoKeyStart(w, lo, next, field)
  {
  }

  lemma NoKeyToken16(w: string, lo: nat, next: string, field: string)
    requires w == "\"growthRate\": " && lo == 1 && next == "" && field == "growthRate"
    ensures NoKeyStart(w, lo, next, field)
  {
  }

  lemma NoKeyToken17(w: string, lo: nat, next: string, field: string)
    requires w == "\"286KiB\"" && lo == 0 && next == "}" && field == "growthRate"
    ensures NoKeyStart(w, lo, next, field)
  {
  }

  lemma Peel6()
    ensures "{\"usedBytes\": \"178255984\"," == "{\"usedBytes\": \"178255984\"" + ","
  {
  }

  lemma Peel7()
    ensures "{\"usedBytes\": \"178255984\", " == "{\"usedBytes\": \"178255984\"," + " "
  {
  }

  lemma Peel8()
    ensures "{\"usedBytes\": \"178255984\", \"growthRate\": " == "{\"usedBytes\": \"178255984\", " + "\"growthRate\": "
  {
  }

  lemma Peel9()
    ensures "{\"usedBytes\": \"178255984\", \"growthRate\": \"293007\"" == "{\"usedBytes\": \"178255984\", \"growthRate\": " + "\"293007\""
  {
  }

  lemma Peel10()
    ensures "{\"usedBytes\": \"178255984\", \"growthRate\": \"293007\"}" == "{\"usedBytes\": \"178255984\", \"growthRate\": \"293007\"" + "}"
  {
  }

  lemma Peel11()
    ensures "{\"usedBytes\": \"170MiB\"," == "{\"usedBytes\": \"170MiB\"" + ","
  {
  }

  lemma Peel12()
    ensures "{\"usedBytes\": \"170MiB\", " == "{\"usedBytes\": \"170MiB\"," + " "
  {
  }

  lemma Peel13()
    ensures "{\"usedBytes\": \"170MiB\", \"growthRate\": " == "{\"usedBytes\": \"170MiB\", " + "\"growthRate\": "
  {
  }

  lemma Peel14()
    ensures "{\"usedBytes\": \"170MiB\", \"growthRate\": \"286KiB\"" == "{\"usedBytes\": \"170MiB\", \"growthRate\": " + "\"286KiB\""
  {
  }

  lemma Peel15()
    ensures "{\"usedBytes\": \"170MiB\", \"growthRate\": \"286KiB\"}" == "{\"usedBytes\": \"170MiB\", \"growthRate\": \"286KiB\"" + "}"
  {
  }

  lemma NoKeyToken18(w: string, lo: nat, next: string, field: string)
    requires w == "\"data\": " && lo == 0 && next == "" && field == "usedBytes"
    ensures NoKeyStart(w, lo, next, field)
  {
  }

  lemma Peel16()
    ensures "{\"data\": " == "{" + "\"data\": "
  {
  }

  lemma Peel17()
    ensures "{\"data\": {" == "{\"data\": " + "{"
  {
  }

  lemma Peel18()
    ensures "{\"data\": {\"usedBytes\": " == "{\"data\": {" + "\"usedBytes\": "
  {
  }

  lemma Peel19()
    ensures "{\"data\": {\"usedBytes\": \"178255984\"" == "{\"data\": {\"usedBytes\": " + "\"178255984\""
  {
  }

  lemma Peel20()
    ensures "{\"data\": {\"usedBytes\": \"178255984\"}" == "{\"data\": {\"usedBytes\": \"178255984\"" + "}"
  {
  }

  lemma Peel21()
    ensures "{\"data\": {\"usedBytes\": \"178255984\"}}" == "{\"data\": {\"usedBytes\": \"178255984\"}" + "}"
  {
  }

  lemma Peel22()
    ensures "{\"data\": {\"usedBytes\": \"170MiB\"" == "{\"data\": {\"usedBytes\": " + "\"170MiB\""
  {
  }

  lemma Peel23()
    ensures "{\"data\": {\"usedBytes\": \"170MiB\"}" == "{\"data\": {\"usedBytes\": \"170MiB\"" + "}"
  {
  }

  lemma Peel24()
    ensures "{\"data\": {\"usedBytes\": \"170MiB\"}}" == "{\"data\": {\"usedBytes\": \"170MiB\"}" + "}"
  {
  }

  lemma NoKeyToken19(w: string, lo: nat, next: string, field: string)
    requires w == "178255984" && lo == 0 && next == "" && field == "usedBytes"
    ensures NoKeyStart(w, lo, next, field)
  {
  }

  lemma NumberToken1(w: string)
    requires w == "178255984"
    ensures NumberShape(w, 0, 9, 9, 9)
  {
  }

  lemma Peel25()
    ensures "{\"usedBytes\": 178255984" == "{\"usedBytes\": " + "178255984"
  {
  }

  lemma Peel26()
    ensures "{\"usedBytes\": 178255984}" == "{\"usedBytes\": 178255984" + "}"
  {
  }

  lemma NoKeyToken20(w: string, lo: nat, next: string, field: string)
    requires w == "\"otherField\": " && lo == 0 && next == "" && field == "usedBytes"
    ensures NoKeyStart(w, lo, next, field)
  {
  }

  lemma NoKeyToken21(w: string, lo: nat, next: string, field: string)
    requires w == "\"178255984\"" && lo == 0 && next == "}" && field == "usedBytes"
    ensures NoKeyStart(w, lo, next, field)
  {
  }

  lemma Peel27()
    ensures "{\"otherField\": " == "{" + "\"otherField\": "
  {
  }

  lemma Peel28()
    ensures "{\"otherField\": \"178255984\"" == "{\"otherField\": " + "\"178255984\""
  {
  }

  lemma Peel29()
    ensures "{\"otherField\": \"178255984\"}" == "{\"otherField\": \"178255984\"" + "}"
  {
  }

  lemma NoKeyToken22(w: string, lo: nat, next: string, field: string)
    requires w == "\"name\": " && lo == 0 && next == "" && field == "usedBytes"
    ensures NoKeyStart(w, lo, next, field)
  {
  }

  lemma NoKeyToken23(w: string, lo: nat, next: string, field: string)
    requires w == "\"test\"" && lo == 0 && next == "," && field == "usedBytes"
    ensures NoKeyStart(w, lo, next, field)
  {
  }

  lemma NoKeyToken24(w: string, lo: nat, next: string, field: string)
    requires w == "\"count\": " && lo == 0 && next == "" && field == "usedBytes"
    ensures NoKeyStart(w, lo, next, field)
  {
  }

  lemma NoKeyToken25(w: string, lo: nat, next: string, field: string)
    requires w == "42" && lo == 0 && next == "" && field == "usedBytes"
    ensures NoKeyStart(w, lo, next, field)
  {
  }

  lemma Peel30()
    ensures "{\"usedBytes\": \"178255984\", \"name\": " == "{\"usedBytes\": \"178255984\", " + "\"name\": "
  {
  }

  lemma Peel31()
    ensures "{\"usedBytes\": \"178255984\", \"name\": \"test\"" == "{\"usedBytes\": \"178255984\", \"name\": " + "\"test\""
  {
  }

  lemma Peel32()
    ensures "{\"usedBytes\": \"178255984\", \"name\": \"test\"," == "{\"usedBytes\": \"178255984\", \"name\": \"test\"" + ","
  {
  }

  lemma Peel33()
    ensures "{\"usedBytes\": \"178255984\", \"name\": \"test\", " == "{\"usedBytes\": \"178255984\", \"name\": \"test\"," + " "
  {
  }

  lemma Peel34()
    ensures "{\"usedBytes\": \"178255984\", \"name\": \"test\", \"count\": " == "{\"usedBytes\": \"178255984\", \"name\": \"test\", " + "\"count\": "
  {
  }

  lemma Peel35()
    ensures "{\"usedBytes\": \"178255984\", \"name\": \"test\", \"count\": 42" == "{\"usedBytes\": \"178255984\", \"name\": \"test\", \"count\": " + "42"
  {
  }

  lemma Peel36()
    ensures "{\"usedBytes\": \"178255984\", \"name\": \"test\", \"count\": 42}" == "{\"usedBytes\": \"178255984\", \"name\": \"test\", \"count\": 42" + "}"
  {
  }

  lemma Peel37()
    ensures "{\"usedBytes\": \"170MiB\", \"name\": " == "{\"usedBytes\": \"170MiB\", " + "\"name\": "
  {
  }

  lemma Peel38()
    ensures "{\"usedBytes\": \"170MiB\", \"name\": \"test\"" == "{\"usedBytes\": \"170MiB\", \"name\": " + "\"test\""
  {
  }

  lemma Peel39()
    ensures "{\"usedBytes\": \"170MiB\", \"name\": \"test\"," == "{\"usedBytes\": \"170MiB\", \"name\": \"test\"" + ","
  {
  }

  lemma Peel40()
    ensures "{\"usedBytes\": \"170MiB\", \"name\": \"test\", " == "{\"usedBytes\": \"170MiB\", \"name\": \"test\"," + " "
  {
  }

  lemma Peel41()
    ensures "{\"usedBytes\": \"170MiB\", \"name\": \"test\", \"count\": " == "{\"usedBytes\": \"170MiB\", \"name\": \"test\", " + "\"count\": "
  {
  }

  lemma Peel42()
    ensures "{\"usedBytes\": \"170MiB\", \"name\": \"test\", \"count\": 42" == "{\"usedBytes\": \"170MiB\", \"name\": \"test\", \"count\": " + "42"
  {
  }

  lemma Peel43()
    ensures "{\"usedBytes\": \"170MiB\", \"name\": \"test\", \"count\": 42}" == "{\"usedBytes\": \"170MiB\", \"name\": \"test\", \"count\": 42" + "}"
  {
  }

  lemma NoKeyToken26(w: string, lo: nat, next: string, field: string)
    requires w == "{" && lo == 0 && next == "" && field == "spaceAvailable"
    ensures NoKeyStart(w, lo, next, field)
  {
  }

  lemma KeyToken3(w: string, field: string)
    requires w == "\"spaceAvailable\": " && field == "spaceAvailable"
    ensures KeyShape(w, 0, field, 16, 18)
  {
  }

  lemma QuotedToken3(w: string)
    requires w == "\"12075408Ki\""
    ensures QuotedShape(w, 0, 11) && w[1..11] == "12075408Ki"
  {
  }

  lemma NoKeyToken27(w: string, lo: nat, next: string, field: string)
    requires w == "}" && lo == 0 && next == "" && field == "spaceAvailable"
    ensures NoKeyStart(w, lo, next, field)
  {
  }

  lemma NoKeyToken28(w: string, lo: nat, next: string, field: string)
    requires w == "\"spaceAvailable\": " && lo == 1 && next == "" && field == "spaceAvailable"
    ensures NoKeyStart(w, lo, next, field)
  {
  }

  lemma NoKeyToken29(w: string, lo: nat, next: string, field: string)
    requires w == "\"11.5GiB\"" && lo == 0 && next == "}" && field == "spaceAvailable"
    ensures NoKeyStart(w, lo, next, field)
  {
  }

  lemma Peel44()
    ensures "{\"spaceAvailable\": " == "{" + "\"spaceAvailable\": "
  {
  }

  lemma Peel45()
    ensures "{\"spaceAvailable\": \"12075408Ki\"" == "{\"spaceAvailable\": " + "\"12075408Ki\""
  {
  }

  lemma Peel46()
    ensures "{\"spaceAvailable\": \"12075408Ki\"}" == "{\"spaceAvailable\": \"12075408Ki\"" + "}"
  {
  }

  lemma Peel47()
    ensures "{\"spaceAvailable\": \"11.5GiB\"" == "{\"spaceAvailable\": " + "\"11.5GiB\""
  {
  }

  lemma Peel48()
    ensures "{\"spaceAvailable\": \"11.5GiB\"}" == "{\"spaceAvailable\": \"11.5GiB\"" + "}"
  {
  }

  lemma NoKeyToken30(w: string, lo: nat, next: string, field: string)
    requires w == "{" && lo == 0 && next == "" && field == "capacity"
    ensures NoKeyStart(w, lo, next, field)
  {
  }

  lemma KeyToken4(w: string, field: string)
    requires w == "\"capacity\": " && field == "capacity"
    ensures KeyShape(w, 0, field, 10, 12)
  {
  }

  lemma QuotedToken4(w: string)
    requires w == "\"100Mi\""
    ensures QuotedShape(w, 0, 6) && w[1..6] == "100Mi"
  {
  }

  lemma NoKeyToken31(w: string, lo: nat, next: string, field: string)
    requires w == "}" && lo == 0 && next == "" && field == "capacity"
    ensures NoKeyStart(w, lo, next, field)
  {
  }

  lemma NoKeyToken32(w: string, lo: nat, next: string, field: string)
    requires w == "\"capacity\": " && lo == 1 && next == "" && field == "capacity"
    ensures NoKeyStart(w, lo, next, field)
  {
  }

  lemma NoKeyToken33(w: string, lo: nat, next: string, field: string)
    requires w == "\"100MiB\"" && lo == 0 && next == "}" && field == "capacity"
    ensures NoKeyStart(w, lo, next, field)
  {
  }

  lemma Peel49()
    ensures "{\"capacity\": " == "{" + "\"capacity\": "
  {
  }

  lemma Peel50()
    ensures "{\"capacity\": \"100Mi\"" == "{\"capacity\": " + "\"100Mi\""
  {
  }

  lemma Peel51()
    ensures "{\"capacity\": \"100Mi\"}" == "{\"capacity\": \"100Mi\"" + "}"
  {
  }

  lemma Peel52()
    ensures "{\"capacity\": \"100MiB\"" == "{\"capacity\": " + "\"100MiB\""
  {
  }

  lemma Peel53()
    ensures "{\"capacity\": \"100MiB\"}" == "{\"capacity\": \"100MiB\"" + "}"
  {
  }

  lemma NoKeyToken34(w: string, lo: nat, next: string, field: string)
    requires w == "{" && lo == 0 && next == "" && field == "size"
    ensures NoKeyStart(w, lo, next, field)
  {
  }

  lemma KeyToken5(w: string, field: string)
    requires w == "\"size\": " && field == "size"
    ensures KeyShape(w, 0, field, 6, 8)
  {
  }

  lemma QuotedToken5(w: string)
    requires w == "\"12Gi\""
    ensures QuotedShape(w, 0, 5) && w[1..5] == "12Gi"
  {
  }

  lemma NoKeyToken35(w: string, lo: nat, next: string, field: string)
    requires w == "}" && lo == 0 && next == "" && field == "size"
    ensures NoKeyStart(w, lo, next, field)
  {
  }

  lemma NoKeyToken36(w: string, lo: nat, next: string, field: string)
    requires w == "\"size\": " && lo == 1 && next == "" && field == "size"
    ensures NoKeyStart(w, lo, next, field)
  {
  }

  lemma NoKeyToken37(w: string, lo: nat, next: string, field: string)
    requires w == "\"12.0GiB\"" && lo == 0 && next == "}" && field == "size"
    ensures NoKeyStart(w, lo, next, field)
  {
  }

  lemma Peel54()
    ensures "{\"size\": " == "{" + "\"size\": "
  {
  }

  lemma Peel55()
    ensures "{\"size\": \"12Gi\"" == "{\"size\": " + "\"12Gi\""
  {
  }

  lemma Peel56()
    ensures "{\"size\": \"12Gi\"}" == "{\"size\": \"12Gi\"" + "}"
  {
  }

  lemma Peel57()
    ensures "{\"size\": \"12.0GiB\"" == "{\"size\": " + "\"12.0GiB\""
  {
  }

  lemma Peel58()
    ensures "{\"size\": \"12.0GiB\"}" == "{\"size\": \"12.0GiB\"" + "}"
  {
  }

  lemma NoKeyToken38(w: string, lo: nat, next: string, field: string)
    requires w == "\"spaceAvailable\": " && lo == 0 && next == "" && field == "usedBytes"
    ensures NoKeyStart(w, lo, next, field)
  {
  }

  lemma NoKeyToken39(w: string, lo: nat, next: string, field: string)
    requires w == "\"12075408Ki\"" && lo == 0 && next == "}" && field == "usedBytes"
    ensures NoKeyStart(w, lo, next, field)
  {
  }

  lemma NoKeyToken40(w: string, lo: nat, next: string, field: string)
    requires w == "\"usedBytes\": " && lo == 0 && next == "" && field == "spaceAvailable"
    ensures NoKeyStart(w, lo, next, field)
  {
  }

  lemma NoKeyToken41(w: string, lo: nat, next: string, field: string)
    requires w == "\"170MiB\"" && lo == 0 && next == "," && field == "spaceAvailable"
    ensures NoKeyStart(w, lo, next, field)
  {
  }

  lemma NoKeyToken42(w: string, lo: nat, next: string, field: string)
    requires w == "," && lo == 0 && next == "" && field == "spaceAvailable"
    ensures NoKeyStart(w, lo, next, field)
  {
  }

  lemma NoKeyToken43(w: string, lo: nat, next: string, field: string)
    requires w == " " && lo == 0 && next == "" && field == "spaceAvailable"
    ensures NoKeyStart(w, lo, next, field)
  {
  }

  lemma Peel59()
    ensures "{\"usedBytes\": \"178255984\", \"spaceAvailable\": " == "{\"usedBytes\": \"178255984\", " + "\"spaceAvailable\": "
  {
  }

  lemma Peel60()
    ensures "{\"usedBytes\": \"178255984\", \"spaceAvailable\": \"12075408Ki\"" == "{\"usedBytes\": \"178255984\", \"spaceAvailable\": " + "\"12075408Ki\""
  {
  }

  lemma Peel61()
    ensures "{\"usedBytes\": \"178255984\", \"spaceAvailable\": \"12075408Ki\"}" == "{\"usedBytes\": \"178255984\", \"spaceAvailable\": \"12075408Ki\"" + "}"
  {
  }

  lemma Peel62()
    ensures "{\"usedBytes\": \"170MiB\", \"spaceAvailable\": " == "{\"usedBytes\": \"170MiB\", " + "\"spaceAvailable\": "
  {
  }

  lemma Peel63()
    ensures "{\"usedBytes\": \"170MiB\", \"spaceAvailable\": \"11.5GiB\"" == "{\"usedBytes\": \"170MiB\", \"spaceAvailable\": " + "\"11.5GiB\""
  {
  }

  lemma Peel64()
    ensures "{\"usedBytes\": \"170MiB\", \"spaceAvailable\": \"11.5GiB\"}" == "{\"usedBytes\": \"170MiB\", \"spaceAvailable\": \"11.5GiB\"" + "}"
  {
  }

  /** Where each token of the text lies. */
  lemma SingleFieldQuotedText0(s: string)
    requires s == "{" + "\"usedBytes\": " + "\"178255984\"" + "}"
    ensures TextAt(s, 0, "{")
    ensures TextAt(s, 1, "\"usedBytes\": ")
    ensures TextAt(s, 14, "\"178255984\"")
    ensures TextAt(s, 25, "}")
  {
    TextAtSelf("{");
    TextAtGrow("{", 0, "{", "\"usedBytes\": ");
    TextAtGrow("{" + "\"usedBytes\": ", 0, "{", "\"178255984\"");
    TextAtGrow("{" + "\"usedBytes\": " + "\"178255984\"", 0, "{", "}");
    TextAtEnd("{", "\"usedBytes\": ");
    TextAtGrow("{" + "\"usedBytes\": ", 1, "\"usedBytes\": ", "\"178255984\"");
    TextAtGrow("{" + "\"usedBytes\": " + "\"178255984\"", 1, "\"usedBytes\": ", "}");
    TextAtEnd("{" + "\"usedBytes\": ", "\"178255984\"");
    TextAtGrow("{" + "\"usedBytes\": " + "\"178255984\"", 14, "\"178255984\"", "}");
    TextAtEnd("{" + "\"usedBytes\": " + "\"178255984\"", "}");
  }

  /** Where the quoted pattern for "usedBytes" matches in a text with these tokens. */
  lemma SingleFieldQuotedPass1Scan(s: string, field: string)
    requires |s| == 26 && field == "usedBytes"
    requires TextAt(s, 0, "{")
    requires TextAt(s, 1, "\"usedBytes\": ")
    requires TextAt(s, 14, "\"178255984\"")
    requires TextAt(s, 25, "}")
    ensures var find := Find(Quoted, field);
      (forall n :: 0 <= n < 1 ==> find(s, n).None?) &&
      (find(s, 1) == Some(Match(25, "178255984", ""))) &&
      (forall n :: 25 <= n < 26 ==> find(s, n).None?)
  {
    NoKeyToken1("{", 0, "", field);
    NoKeyIn(s, 0, "{", 0, "", field);
    NoMatchIn(Quoted, field, s, 0, 1);
    KeyToken1("\"usedBytes\": ", field);
    KeyShapeIn(s, 1, "\"usedBytes\": ", field, 11, 13);
    QuotedToken1("\"178255984\"");
    QuotedShapeIn(s, 14, "\"178255984\"", 10);
    QuotedMatchComplete(field, s, 1, 12, 14, 24);
    NoKeyToken2("}", 0, "", field);
    NoKeyIn(s, 25, "}", 0, "", field);
    NoMatchIn(Quoted, field, s, 25, 26);
  }

  /** A pass of a matcher that answers as the scan above. */
  lemma SingleFieldQuotedPass1Trace(find: Matcher, s: string, field: string, format: Formatter)
    requires |s| == 26
    requires forall n :: 0 <= n < 1 ==> find(s, n).None?
    requires find(s, 1) == Some(Match(25, "178255984", ""))
    requires forall n :: 25 <= n < 26 ==> find(s, n).None?
    requires format("178255984") == Ok("170MiB")
    ensures ReplaceAll(find, field, s, format) == s[0..1] + ("\"" + field + "\": \"" + "170MiB" + "\"" + "") + s[25..26]
  {
    Reformatted(find, field, s, 0, 1, Match(25, "178255984", ""), "170MiB", format);
    CopiedUntil(find, field, s, 25, 26, format);
    Assoc(s[0..1] + ("\"" + field + "\": \"" + "170MiB" + "\"" + ""), s[25..26], ReplaceAllFrom(find, field, s, 26, format));
    CatEmpty(s[0..1] + ("\"" + field + "\": \"" + "170MiB" + "\"" + "") + s[25..26]);
  }

  lemma SingleFieldQuotedPass1Split1(field: string)
    requires field == "usedBytes"
    ensures ("\"" + field + "\": \"" + "170MiB" + "\"" + "") == "\"usedBytes\": " + "\"170MiB\""
  {
  }

  /** The quoted pass for "usedBytes". */
  lemma SingleFieldQuotedPass1(s: string, field: string, format: Formatter)
    requires s == "{" + "\"usedBytes\": " + "\"178255984\"" + "}"
    requires field == "usedBytes"
    requires format("178255984") == Ok("170MiB")
    ensures ReplaceAll(Find(Quoted, field), field, s, format) == "{" + "\"usedBytes\": " + "\"170MiB\"" + "}"
  {
    SingleFieldQuotedText0(s);
    SingleFieldQuotedPass1Scan(s, field);
    SingleFieldQuotedPass1Trace(Find(Quoted, field), s, field, format);
    SliceAt(s, 0, 1, "{");
    SliceAt(s, 25, 26, "}");
    SingleFieldQuotedPass1Split1(field);
    Assoc("{", "\"usedBytes\": ", "\"170MiB\"");
  }

  /** Where each token of the text lies. */
  lemma SingleFieldQuotedText1(s: string)
    requires s == "{" + "\"usedBytes\": " + "\"170MiB\"" + "}"
    ensures TextAt(s, 0, "{")
    ensures TextAt(s, 1, "\"usedBytes\": ")
    ensures TextAt(s, 14, "\"170MiB\"")
    ensures TextAt(s, 22, "}")
  {
    TextAtSelf("{");
    TextAtGrow("{", 0, "{", "\"usedBytes\": ");
    TextAtGrow("{" + "\"usedBytes\": ", 0, "{", "\"170MiB\"");
    TextAtGrow("{" + "\"usedBytes\": " + "\"170MiB\"", 0, "{", "}");
    TextAtEnd("{", "\"usedBytes\": ");
    TextAtGrow("{" + "\"usedBytes\": ", 1, "\"usedBytes\": ", "\"170MiB\"");
    TextAtGrow("{" + "\"usedBytes\": " + "\"170MiB\"", 1, "\"usedBytes\": ", "}");
    TextAtEnd("{" + "\"usedBytes\": ", "\"170MiB\"");
    TextAtGrow("{" + "\"usedBytes\": " + "\"170MiB\"", 14, "\"170MiB\"", "}");
    TextAtEnd("{" + "\"usedBytes\": " + "\"170MiB\"", "}");
  }

  /** Where the unquoted pattern for "usedBytes" matches in a text with these tokens. */
  lemma SingleFieldQuotedPass2Scan(s: string, field: string)
    requires |s| == 23 && field == "usedBytes"
    requires TextAt(s, 0, "{")
    requires TextAt(s, 1, "\"usedBytes\": ")
    requires TextAt(s, 14, "\"170MiB\"")
    requires TextAt(s, 22, "}")
    ensures var find := Find(Unquoted, field);
      (forall n :: 0 <= n < 1 ==> find(s, n).None?) &&
      (find(s, 1).None?) &&
      (forall n :: 2 <= n < 14 ==> find(s, n).None?) &&
      (forall n :: 14 <= n < 22 ==> find(s, n).None?) &&
      (forall n :: 22 <= n < 23 ==> find(s, n).None?)
  {
    NoKeyToken1("{", 0, "", field);
    NoKeyIn(s, 0, "{", 0, "", field);
    NoMatchIn(Unquoted, field, s, 0, 1);
    KeyToken1("\"usedBytes\": ", field);
    KeyShapeIn(s, 1, "\"usedBytes\": ", field, 11, 13);
    CharAt(s, 14, "\"170MiB\"", 14);
    NoValueAfterKey(Unquoted, field, s, 1, 12, 14);
    NoKeyToken3("\"usedBytes\": ", 1, "", field);
    NoKeyIn(s, 1, "\"usedBytes\": ", 1, "", field);
    NoMatchIn(Unquoted, field, s, 2, 14);
    NoKeyToken4("\"170MiB\"", 0, "}", field);
    NoKeyIn(s, 14, "\"170MiB\"", 0, "}", field);
    NoMatchIn(Unquoted, field, s, 14, 22);
    NoKeyToken2("}", 0, "", field);
    NoKeyIn(s, 22, "}", 0, "", field);
    NoMatchIn(Unquoted, field, s, 22, 23);
  }

  /** A pass of a matcher that answers as the scan above. */
  lemma SingleFieldQuotedPass2Trace(find: Matcher, s: string, field: string, format: Formatter)
    requires |s| == 23
    requires forall n :: 0 <= n < 1 ==> find(s, n).None?
    requires find(s, 1).None?
    requires forall n :: 2 <= n < 14 ==> find(s, n).None?
    requires forall n :: 14 <= n < 22 ==> find(s, n).None?
    requires forall n :: 22 <= n < 23 ==> find(s, n).None?
    ensures ReplaceAll(find, field, s, format) == s[0..1] + s[1..14] + s[14..22] + s[22..23]
  {
    CopiedUntil(find, field, s, 0, 1, format);
    CopiedUntil(find, field, s, 1, 14, format);
    Assoc(s[0..1], s[1..14], ReplaceAllFrom(find, field, s, 14, format));
    CopiedUntil(find, field, s, 14, 22, format);
    Assoc(s[0..1] + s[1..14], s[14..22], ReplaceAllFrom(find, field, s, 22, format));
    CopiedUntil(find, field, s, 22, 23, format);
    Assoc(s[0..1] + s[1..14] + s[14..22], s[22..23], ReplaceAllFrom(find, field, s, 23, format));
    CatEmpty(s[0..1] + s[1..14] + s[14..22] + s[22..23]);
  }

  /** The unquoted pass for "usedBytes". */
  lemma SingleFieldQuotedPass2(s: string, field: string, format: Formatter)
    requires s == "{" + "\"usedBytes\": " + "\"170MiB\"" + "}"
    requires field == "usedBytes"
    ensures ReplaceAll(Find(Unquoted, field), field, s, format) == "{" + "\"usedBytes\": " + "\"170MiB\"" + "}"
  {
    SingleFieldQuotedText1(s);
    SingleFieldQuotedPass2Scan(s, field);
    SingleFieldQuotedPass2Trace(Find(Unquoted, field), s, field, format);
    SliceAt(s, 0, 1, "{");
    SliceAt(s, 1, 14, "\"usedBytes\": ");
    SliceAt(s, 14, 22, "\"170MiB\"");
    SliceAt(s, 22, 23, "}");
  }

  predicate SingleFieldQuotedStage0(s: string) {
    s == "{" + "\"usedBytes\": " + "\"178255984\"" + "}"
  }

  predicate SingleFieldQuotedStage1(s: string) {
    s == "{" + "\"usedBytes\": " + "\"170MiB\"" + "}"
  }

  lemma SingleFieldQuotedField1(s: string) returns (t: string)
    requires SingleFieldQuotedStage0(s)
    ensures RewriteField(s, "usedBytes") == t && SingleFieldQuotedStage1(t)
  {
    FormatExamples.UsedBytes("178255984");
    SingleFieldQuotedPass1(s, "usedBytes", FormatValue);
    SingleFieldQuotedPass2("{" + "\"usedBytes\": " + "\"170MiB\"" + "}", "usedBytes", FormatValue);
    t := "{" + "\"usedBytes\": " + "\"170MiB\"" + "}";
  }

  lemma SingleFieldQuotedInput(s: string)
    requires s == "{\"usedBytes\": \"178255984\"}"
    ensures SingleFieldQuotedStage0(s)
  {
    Peel3();
    Peel2();
    Peel1();
  }

  lemma SingleFieldQuotedOutput(s: string)
    requires SingleFieldQuotedStage1(s)
    ensures s == "{\"usedBytes\": \"170MiB\"}"
  {
    Peel5();
    Peel4();
    Peel1();
  }

  /** main_test.go:131-136: a quoted value is rewritten. */
  lemma SingleFieldQuoted(s: string, fields: seq<string>)
    requires s == "{\"usedBytes\": \"178255984\"}"
    requires fields == ["usedBytes"]
    ensures RewriteFields(s, fields) == "{\"usedBytes\": \"170MiB\"}"
  {
    SingleFieldQuotedInput(s);
    var m1 := SingleFieldQuotedField1(s);
    FieldsOne(s, "usedBytes", m1);
    SingleFieldQuotedOutput(m1);
  }

  /** Where each token of the text lies. */
  lemma MultipleFieldsText0(s: string)
    requires s == "{" + "\"usedBytes\": " + "\"178255984\"" + "," + " " + "\"growthRate\": " + "\"293007\"" + "}"
    ensures TextAt(s, 0, "{")
    ensures TextAt(s, 1, "\"usedBytes\": ")
    ensures TextAt(s, 14, "\"178255984\"")
    ensures TextAt(s, 25, ",")
    ensures TextAt(s, 26, " ")
    ensures TextAt(s, 27, "\"growthRate\": ")
    ensures TextAt(s, 41, "\"293007\"")
    ensures TextAt(s, 49, "}")
  {
    TextAtSelf("{");
    TextAtGrow("{", 0, "{", "\"usedBytes\": ");
    TextAtGrow("{" + "\"usedBytes\": ", 0, "{", "\"178255984\"");
    TextAtGrow("{" + "\"usedBytes\": " + "\"178255984\"", 0, "{", ",");
    TextAtGrow("{" + "\"usedBytes\": " + "\"178255984\"" + ",", 0, "{", " ");
    TextAtGrow("{" + "\"usedBytes\": " + "\"178255984\"" + "," + " ", 0, "{", "\"growthRate\": ");
    TextAtGrow("{" + "\"usedBytes\": " + "\"178255984\"" + "," + " " + "\"growthRate\": ", 0, "{", "\"293007\"");
    TextAtGrow("{" + "\"usedBytes\": " + "\"178255984\"" + "," + " " + "\"growthRate\": " + "\"293007\"", 0, "{", "}");
    TextAtEnd("{", "\"usedBytes\": ");
    TextAtGrow("{" + "\"usedBytes\": ", 1, "\"usedBytes\": ", "\"178255984\"");
    TextAtGrow("{" + "\"usedBytes\": " + "\"178255984\"", 1, "\"usedBytes\": ", ",");
    TextAtGrow("{" + "\"usedBytes\": " + "\"178255984\"" + ",", 1, "\"usedBytes\": ", " ");
    TextAtGrow("{" + "\"usedBytes\": " + "\"178255984\"" + "," + " ", 1, "\"usedBytes\": ", "\"growthRate\": ");
    TextAtGrow("{" + "\"usedBytes\": " + "\"178255984\"" + "," + " " + "\"growthRate\": ", 1, "\"usedBytes\": ", "\"293007\"");
    TextAtGrow("{" + "\"usedBytes\": " + "\"178255984\"" + "," + " " + "\"growthRate\": " + "\"293007\"", 1, "\"usedBytes\": ", "}");
    TextAtEnd("{" + "\"usedBytes\": ", "\"178255984\"");
    TextAtGrow("{" + "\"usedBytes\": " + "\"178255984\"", 14, "\"178255984\"", ",");
    TextAtGrow("{" + "\"usedBytes\": " + "\"178255984\"" + ",", 14, "\"178255984\"", " ");
    TextAtGrow("{" + "\"usedBytes\": " + "\"178255984\"" + "," + " ", 14, "\"178255984\"", "\"growthRate\": ");
    TextAtGrow("{" + "\"usedBytes\": " + "\"178255984\"" + "," + " " + "\"growthRate\": ", 14, "\"178255984\"", "\"293007\"");
    TextAtGrow("{" + "\"usedBytes\": " + "\"178255984\"" + "," + " " + "\"growthRate\": " + "\"293007\"", 14, "\"178255984\"", "}");
    TextAtEnd("{" + "\"usedBytes\": " + "\"178255984\"", ",");
    TextAtGrow("{" + "\"usedBytes\": " + "\"178255984\"" + ",", 25, ",", " ");
    TextAtGrow("{" + "\"usedBytes\": " + "\"178255984\"" + "," + " ", 25, ",", "\"growthRate\": ");
    TextAtGrow("{" + "\"usedBytes\": " + "\"178255984\"" + "," + " " + "\"growthRate\": ", 25, ",", "\"293007\"");
    TextAtGrow("{" + "\"usedBytes\": " + "\"178255984\"" + "," + " " + "\"growthRate\": " + "\"293007\"", 25, ",", "}");
    TextAtEnd("{" + "\"usedBytes\": " + "\"178255984\"" + ",", " ");
    TextAtGrow("{" + "\"usedBytes\": " + "\"178255984\"" + "," + " ", 26, " ", "\"growthRate\": ");
    TextAtGrow("{" + "\"usedBytes\": " + "\"178255984\"" + "," + " " + "\"growthRate\": ", 26, " ", "\"293007\"");
    TextAtGrow("{" + "\"usedBytes\": " + "\"178255984\"" + "," + " " + "\"growthRate\": " + "\"293007\"", 26, " ", "}");
    TextAtEnd("{" + "\"usedBytes\": " + "\"178255984\"" + "," + " ", "\"growthRate\": ");
    TextAtGrow("{" + "\"usedBytes\": " + "\"178255984\"" + "," + " " + "\"growthRate\": ", 27, "\"growthRate\": ", "\"293007\"");
    TextAtGrow("{" + "\"usedBytes\": " + "\"178255984\"" + "," + " " + "\"growthRate\": " + "\"293007\"", 27, "\"growthRate\": ", "}");
    TextAtEnd("{" + "\"usedBytes\": " + "\"178255984\"" + "," + " " + "\"growthRate\": ", "\"293007\"");
    TextAtGrow("{" + "\"usedBytes\": " + "\"178255984\"" + "," + " " + "\"growthRate\": " + "\"293007\"", 41, "\"293007\"", "}");
    TextAtEnd("{" + "\"usedBytes\": " + "\"178255984\"" + "," + " " + "\"growthRate\": " + "\"293007\"", "}");
  }

  /** The scan below, from offset 0 on. */
  lemma MultipleFieldsPass1Scan1(s: string, field: string)
    requires |s| == 50 && field == "usedBytes"
    requires TextAt(s, 0, "{")
    requires TextAt(s, 1, "\"usedBytes\": ")
    requires TextAt(s, 14, "\"178255984\"")
    requires TextAt(s, 25, ",")
    requires TextAt(s, 26, " ")
    requires TextAt(s, 27, "\"growthRate\": ")
    requires TextAt(s, 41, "\"293007\"")
    requires TextAt(s, 49, "}")
    ensures var find := Find(Quoted, field);
      (forall n :: 0 <= n < 1 ==> find(s, n).None?) &&
      (find(s, 1) == Some(Match(25, "178255984", ""))) &&
      (forall n :: 25 <= n < 26 ==> find(s, n).None?) &&
      (forall n :: 26 <= n < 27 ==> find(s, n).None?) &&
      (forall n :: 27 <= n < 41 ==> find(s, n).None?)
  {
    NoKeyToken1("{", 0, "", field);
    NoKeyIn(s, 0, "{", 0, "", field);
    NoMatchIn(Quoted, field, s, 0, 1);
    KeyToken1("\"usedBytes\": ", field);
    KeyShapeIn(s, 1, "\"usedBytes\": ", field, 11, 13);
    QuotedToken1("\"178255984\"");
    QuotedShapeIn(s, 14, "\"178255984\"", 10);
    QuotedMatchComplete(field, s, 1, 12, 14, 24);
    NoKeyToken5(",", 0, "", field);
    NoKeyIn(s, 25, ",", 0, "", field);
    NoMatchIn(Quoted, field, s, 25, 26);
    NoKeyToken6(" ", 0, "", field);
    NoKeyIn(s, 26, " ", 0, "", field);
    NoMatchIn(Quoted, field, s, 26, 27);
    NoKeyToken7("\"growthRate\": ", 0, "", field);
    NoKeyIn(s, 27, "\"growthRate\": ", 0, "", field);
    NoMatchIn(Quoted, field, s, 27, 41);
  }

  /** The scan below, from offset 41 on. */
  lemma MultipleFieldsPass1Scan2(s: string, field: string)
    requires |s| == 50 && field == "usedBytes"
    requires TextAt(s, 41, "\"293007\"")
    requires TextAt(s, 49, "}")
    ensures var find := Find(Quoted, field);
      (forall n :: 41 <= n < 49 ==> find(s, n).None?) &&
      (forall n :: 49 <= n < 50 ==> find(s, n).None?)
  {
    NoKeyToken8("\"293007\"", 0, "}", field);
    NoKeyIn(s, 41, "\"293007\"", 0, "}", field);
    NoMatchIn(Quoted, field, s, 41, 49);
    NoKeyToken2("}", 0, "", field);
    NoKeyIn(s, 49, "}", 0, "", field);
    NoMatchIn(Quoted, field, s, 49, 50);
  }

  /** Where the quoted pattern for "usedBytes" matches in a text with these tokens. */
  lemma MultipleFieldsPass1Scan(s: string, field: string)
    requires |s| == 50 && field == "usedBytes"
    requires TextAt(s, 0, "{")
    requires TextAt(s, 1, "\"usedBytes\": ")
    requires TextAt(s, 14, "\"178255984\"")
    requires TextAt(s, 25, ",")
    requires TextAt(s, 26, " ")
    requires TextAt(s, 27, "\"growthRate\": ")
    requires TextAt(s, 41, "\"293007\"")
    requires TextAt(s, 49, "}")
    ensures var find := Find(Quoted, field);
      (forall n :: 0 <= n < 1 ==> find(s, n).None?) &&
      (find(s, 1) == Some(Match(25, "178255984", ""))) &&
      (forall n :: 25 <= n < 26 ==> find(s, n).None?) &&
      (forall n :: 26 <= n < 27 ==> find(s, n).None?) &&
      (forall n :: 27 <= n < 41 ==> find(s, n).None?) &&
      (forall n :: 41 <= n < 49 ==> find(s, n).None?) &&
      (forall n :: 49 <= n < 50 ==> find(s, n).None?)
  {
    MultipleFieldsPass1Scan1(s, field);
    MultipleFieldsPass1Scan2(s, field);
  }

  /** A pass of a matcher that answers as the scan above. */
  lemma MultipleFieldsPass1Trace(find: Matcher, s: string, field: string, format: Formatter)
    requires |s| == 50
    requires forall n :: 0 <= n < 1 ==> find(s, n).None?
    requires find(s, 1) == Some(Match(25, "178255984", ""))
    requires forall n :: 25 <= n < 26 ==> find(s, n).None?
    requires forall n :: 26 <= n < 27 ==> find(s, n).None?
    requires forall n :: 27 <= n < 41 ==> find(s, n).None?
    requires forall n :: 41 <= n < 49 ==> find(s, n).None?
    requires forall n :: 49 <= n < 50 ==> find(s, n).None?
    requires format("178255984") == Ok("170MiB")
    ensures ReplaceAll(find, field, s, format) == s[0..1] + ("\"" + field + "\": \"" + "170MiB" + "\"" + "") + s[25..26] + s[26..27] + s[27..41] + s[41..49] + s[49..50]
  {
    Reformatted(find, field, s, 0, 1, Match(25, "178255984", ""), "170MiB", format);
    CopiedUntil(find, field, s, 25, 26, format);
    Assoc(s[0..1] + ("\"" + field + "\": \"" + "170MiB" + "\"" + ""), s[25..26], ReplaceAllFrom(find, field, s, 26, format));
    CopiedUntil(find, field, s, 26, 27, format);
    Assoc(s[0..1] + ("\"" + field + "\": \"" + "170MiB" + "\"" + "") + s[25..26], s[26..27], ReplaceAllFrom(find, field, s, 27, format));
    CopiedUntil(find, field, s, 27, 41, format);
    Assoc(s[0..1] + ("\"" + field + "\": \"" + "170MiB" + "\"" + "") + s[25..26] + s[26..27], s[27..41], ReplaceAllFrom(find, field, s, 41, format));
    CopiedUntil(find, field, s, 41, 49, format);
    Assoc(s[0..1] + ("\"" + field + "\": \"" + "170MiB" + "\"" + "") + s[25..26] + s[26..27] + s[27..41], s[41..49], ReplaceAllFrom(find, field, s, 49, format));
    CopiedUntil(find, field, s, 49, 50, format);
    Assoc(s[0..1] + ("\"" + field + "\": \"" + "170MiB" + "\"" + "") + s[25..26] + s[26..27] + s[27..41] + s[41..49], s[49..50], ReplaceAllFrom(find, field, s, 50, format));
    CatEmpty(s[0..1] + ("\"" + field + "\": \"" + "170MiB" + "\"" + "") + s[25..26] + s[26..27] + s[27..41] + s[41..49] + s[49..50]);
  }

  lemma MultipleFieldsPass1Split1(field: string)
    requires field == "usedBytes"
    ensures ("\"" + field + "\": \"" + "170MiB" + "\"" + "") == "\"usedBytes\": " + "\"170MiB\""
  {
  }

  /** The quoted pass for "usedBytes". */
  lemma MultipleFieldsPass1(s: string, field: string, format: Formatter)
    requires s == "{" + "\"usedBytes\": " + "\"178255984\"" + "," + " " + "\"growthRate\": " + "\"293007\"" + "}"
    requires field == "usedBytes"
    requires format("178255984") == Ok("170MiB")
    ensures ReplaceAll(Find(Quoted, field), field, s, format) == "{" + "\"usedBytes\": " + "\"170MiB\"" + "," + " " + "\"growthRate\": " + "\"293007\"" + "}"
  {
    MultipleFieldsText0(s);
    MultipleFieldsPass1Scan(s, field);
    MultipleFieldsPass1Trace(Find(Quoted, field), s, field, format);
    SliceAt(s, 0, 1, "{");
    SliceAt(s, 25, 26, ",");
    SliceAt(s, 26, 27, " ");
    SliceAt(s, 27, 41, "\"growthRate\": ");
    SliceAt(s, 41, 49, "\"293007\"");
    SliceAt(s, 49, 50, "}");
    MultipleFieldsPass1Split1(field);
    Assoc("{", "\"usedBytes\": ", "\"170MiB\"");
  }

  /** Where each token of the text lies. */
  lemma MultipleFieldsText1(s: string)
    requires s == "{" + "\"usedBytes\": " + "\"170MiB\"" + "," + " " + "\"growthRate\": " + "\"293007\"" + "}"
    ensures TextAt(s, 0, "{")
    ensures TextAt(s, 1, "\"usedBytes\": ")
    ensures TextAt(s, 14, "\"170MiB\"")
    ensures TextAt(s, 22, ",")
    ensures TextAt(s, 23, " ")
    ensures TextAt(s, 24, "\"growthRate\": ")
    ensures TextAt(s, 38, "\"293007\"")
    ensures TextAt(s, 46, "}")
  {
    TextAtSelf("{");
    TextAtGrow("{", 0, "{", "\"usedBytes\": ");
    TextAtGrow("{" + "\"usedBytes\": ", 0, "{", "\"170MiB\"");
    TextAtGrow("{" + "\"usedBytes\": " + "\"170MiB\"", 0, "{", ",");
    TextAtGrow("{" + "\"usedBytes\": " + "\"170MiB\"" + ",", 0, "{", " ");
    TextAtGrow("{" + "\"usedBytes\": " + "\"170MiB\"" + "," + " ", 0, "{", "\"growthRate\": ");
    TextAtGrow("{" + "\"usedBytes\": " + "\"170MiB\"" + "," + " " + "\"growthRate\": ", 0, "{", "\"293007\"");
    TextAtGrow("{" + "\"usedBytes\": " + "\"170MiB\"" + "," + " " + "\"growthRate\": " + "\"293007\"", 0, "{", "}");
    TextAtEnd("{", "\"usedBytes\": ");
    TextAtGrow("{" + "\"usedBytes\": ", 1, "\"usedBytes\": ", "\"170MiB\"");
    TextAtGrow("{" + "\"usedBytes\": " + "\"170MiB\"", 1, "\"usedBytes\": ", ",");
    TextAtGrow("{" + "\"usedBytes\": " + "\"170MiB\"" + ",", 1, "\"usedBytes\": ", " ");
    TextAtGrow("{" + "\"usedBytes\": " + "\"170MiB\"" + "," + " ", 1, "\"usedBytes\": ", "\"growthRate\": ");
    TextAtGrow("{" + "\"usedBytes\": " + "\"170MiB\"" + "," + " " + "\"growthRate\": ", 1, "\"usedBytes\": ", "\"293007\"");
    TextAtGrow("{" + "\"usedBytes\": " + "\"170MiB\"" + "," + " " + "\"growthRate\": " + "\"293007\"", 1, "\"usedBytes\": ", "}");
    TextAtEnd("{" + "\"usedBytes\": ", "\"170MiB\"");
    TextAtGrow("{" + "\"usedBytes\": " + "\"170MiB\"", 14, "\"170MiB\"", ",");
    TextAtGrow("{" + "\"usedBytes\": " + "\"170MiB\"" + ",", 14, "\"170MiB\"", " ");
    TextAtGrow("{" + "\"usedBytes\": " + "\"170MiB\"" + "," + " ", 14, "\"170MiB\"", "\"growthRate\": ");
    TextAtGrow("{" + "\"usedBytes\": " + "\"170MiB\"" + "," + " " + "\"growthRate\": ", 14, "\"170MiB\"", "\"293007\"");
    TextAtGrow("{" + "\"usedBytes\": " + "\"170MiB\"" + "," + " " + "\"growthRate\": " + "\"293007\"", 14, "\"170MiB\"", "}");
    TextAtEnd("{" + "\"usedBytes\": " + "\"170MiB\"", ",");
    TextAtGrow("{" + "\"usedBytes\": " + "\"170MiB\"" + ",", 22, ",", " ");
    TextAtGrow("{" + "\"usedBytes\": " + "\"170MiB\"" + "," + " ", 22, ",", "\"growthRate\": ");
    TextAtGrow("{" + "\"usedBytes\": " + "\"170MiB\"" + "," + " " + "\"growthRate\": ", 22, ",", "\"293007\"");
    TextAtGrow("{" + "\"usedBytes\": " + "\"170MiB\"" + "," + " " + "\"growthRate\": " + "\"293007\"", 22, ",", "}");
    TextAtEnd("{" + "\"usedBytes\": " + "\"170MiB\"" + ",", " ");
    TextAtGrow("{" + "\"usedBytes\": " + "\"170MiB\"" + "," + " ", 23, " ", "\"growthRate\": ");
    TextAtGrow("{" + "\"usedBytes\": " + "\"170MiB\"" + "," + " " + "\"growthRate\": ", 23, " ", "\"293007\"");
    TextAtGrow("{" + "\"usedBytes\": " + "\"170MiB\"" + "," + " " + "\"growthRate\": " + "\"293007\"", 23, " ", "}");
    TextAtEnd("{" + "\"usedBytes\": " + "\"170MiB\"" + "," + " ", "\"growthRate\": ");
    TextAtGrow("{" + "\"usedBytes\": " + "\"170MiB\"" + "," + " " + "\"growthRate\": ", 24, "\"growthRate\": ", "\"293007\"");
    TextAtGrow("{" + "\"usedBytes\": " + "\"170MiB\"" + "," + " " + "\"growthRate\": " + "\"293007\"", 24, "\"growthRate\": ", "}");
    TextAtEnd("{" + "\"usedBytes\": " + "\"170MiB\"" + "," + " " + "\"growthRate\": ", "\"293007\"");
    TextAtGrow("{" + "\"usedBytes\": " + "\"170MiB\"" + "," + " " + "\"growthRate\": " + "\"293007\"", 38, "\"293007\"", "}");
    TextAtEnd("{" + "\"usedBytes\": " + "\"170MiB\"" + "," + " " + "\"growthRate\": " + "\"293007\"", "}");
  }

  /** The scan below, from offset 0 on. */
  lemma MultipleFieldsPass2Scan1(s: string, field: string)
    requires |s| == 47 && field == "usedBytes"
    requires TextAt(s, 0, "{")
    requires TextAt(s, 1, "\"usedBytes\": ")
    requires TextAt(s, 14, "\"170MiB\"")
    requires TextAt(s, 22, ",")
    requires TextAt(s, 23, " ")
    requires TextAt(s, 24, "\"growthRate\": ")
    requires TextAt(s, 38, "\"293007\"")
    ensures var find := Find(Unquoted, field);
      (forall n :: 0 <= n < 1 ==> find(s, n).None?) &&
      (find(s, 1).None?) &&
      (forall n :: 2 <= n < 14 ==> find(s, n).None?) &&
      (forall n :: 14 <= n < 22 ==> find(s, n).None?) &&
      (forall n :: 22 <= n < 23 ==> find(s, n).None?) &&
      (forall n :: 23 <= n < 24 ==> find(s, n).None?)
  {
    NoKeyToken1("{", 0, "", field);
    NoKeyIn(s, 0, "{", 0, "", field);
    NoMatchIn(Unquoted, field, s, 0, 1);
    KeyToken1("\"usedBytes\": ", field);
    KeyShapeIn(s, 1, "\"usedBytes\": ", field, 11, 13);
    CharAt(s, 14, "\"170MiB\"", 14);
    NoValueAfterKey(Unquoted, field, s, 1, 12, 14);
    NoKeyToken3("\"usedBytes\": ", 1, "", field);
    NoKeyIn(s, 1, "\"usedBytes\": ", 1, "", field);
    NoMatchIn(Unquoted, field, s, 2, 14);
    NoKeyToken9("\"170MiB\"", 0, ",", field);
    NoKeyIn(s, 14, "\"170MiB\"", 0, ",", field);
    NoMatchIn(Unquoted, field, s, 14, 22);
    NoKeyToken5(",", 0, "", field);
    NoKeyIn(s, 22, ",", 0, "", field);
    NoMatchIn(Unquoted, field, s, 22, 23);
    NoKeyToken6(" ", 0, "", field);
    NoKeyIn(s, 23, " ", 0, "", field);
    NoMatchIn(Unquoted, field, s, 23, 24);
  }

  /** The scan below, from offset 24 on. */
  lemma MultipleFieldsPass2Scan2(s: string, field: string)
    requires |s| == 47 && field == "usedBytes"
    requires TextAt(s, 24, "\"growthRate\": ")
    requires TextAt(s, 38, "\"293007\"")
    requires TextAt(s, 46, "}")
    ensures var find := Find(Unquoted, field);
      (forall n :: 24 <= n < 38 ==> find(s, n).None?) &&
      (forall n :: 38 <= n < 46 ==> find(s, n).None?) &&
      (forall n :: 46 <= n < 47 ==> find(s, n).None?)
  {
    NoKeyToken7("\"growthRate\": ", 0, "", field);
    NoKeyIn(s, 24, "\"growthRate\": ", 0, "", field);
    NoMatchIn(Unquoted, field, s, 24, 38);
    NoKeyToken8("\"293007\"", 0, "}", field);
    NoKeyIn(s, 38, "\"293007\"", 0, "}", field);
    NoMatchIn(Unquoted, field, s, 38, 46);
    NoKeyToken2("}", 0, "", field);
    NoKeyIn(s, 46, "}", 0, "", field);
    NoMatchIn(Unquoted, field, s, 46, 47);
  }

  /** Where the unquoted pattern for "usedBytes" matches in a text with these tokens. */
  lemma MultipleFieldsPass2Scan(s: string, field: string)
    requires |s| == 47 && field == "usedBytes"
    requires TextAt(s, 0, "{")
    requires TextAt(s, 1, "\"usedBytes\": ")
    requires TextAt(s, 14, "\"170MiB\"")
    requires TextAt(s, 22, ",")
    requires TextAt(s, 23, " ")
    requires TextAt(s, 24, "\"growthRate\": ")
    requires TextAt(s, 38, "\"293007\"")
    requires TextAt(s, 46, "}")
    ensures var find := Find(Unquoted, field);
      (forall n :: 0 <= n < 1 ==> find(s, n).None?) &&
      (find(s, 1).None?) &&
      (forall n :: 2 <= n < 14 ==> find(s, n).None?) &&
      (forall n :: 14 <= n < 22 ==> find(s, n).None?) &&
      (forall n :: 22 <= n < 23 ==> find(s, n).None?) &&
      (forall n :: 23 <= n < 24 ==> find(s, n).None?) &&
      (forall n :: 24 <= n < 38 ==> find(s, n).None?) &&
      (forall n :: 38 <= n < 46 ==> find(s, n).None?) &&
      (forall n :: 46 <= n < 47 ==> find(s, n).None?)
  {
    MultipleFieldsPass2Scan1(s, field);
    MultipleFieldsPass2Scan2(s, field);
  }

  /** A pass of a matcher that answers as the scan above. */
  lemma MultipleFieldsPass2Trace(find: Matcher, s: string, field: string, format: Formatter)
    requires |s| == 47
    requires forall n :: 0 <= n < 1 ==> find(s, n).None?
    requires find(s, 1).None?
    requires forall n :: 2 <= n < 14 ==> find(s, n).None?
    requires forall n :: 14 <= n < 22 ==> find(s, n).None?
    requires forall n :: 22 <= n < 23 ==> find(s, n).None?
    requires forall n :: 23 <= n < 24 ==> find(s, n).None?
    requires forall n :: 24 <= n < 38 ==> find(s, n).None?
    requires forall n :: 38 <= n < 46 ==> find(s, n).None?
    requires forall n :: 46 <= n < 47 ==> find(s, n).None?
    ensures ReplaceAll(find, field, s, format) == s[0..1] + s[1..14] + s[14..22] + s[22..23] + s[23..24] + s[24..38] + s[38..46] + s[46..47]
  {
    CopiedUntil(find, field, s, 0, 1, format);
    CopiedUntil(find, field, s, 1, 14, format);
    Assoc(s[0..1], s[1..14], ReplaceAllFrom(find, field, s, 14, format));
    CopiedUntil(find, field, s, 14, 22, format);
    Assoc(s[0..1] + s[1..14], s[14..22], ReplaceAllFrom(find, field, s, 22, format));
    CopiedUntil(find, field, s, 22, 23, format);
    Assoc(s[0..1] + s[1..14] + s[14..22], s[22..23], ReplaceAllFrom(find, field, s, 23, format));
    CopiedUntil(find, field, s, 23, 24, format);
    Assoc(s[0..1] + s[1..14] + s[14..22] + s[22..23], s[23..24], ReplaceAllFrom(find, field, s, 24, format));
    CopiedUntil(find, field, s, 24, 38, format);
    Assoc(s[0..1] + s[1..14] + s[14..22] + s[22..23] + s[23..24], s[24..38], ReplaceAllFrom(find, field, s, 38, format));
    CopiedUntil(find, field, s, 38, 46, format);
    Assoc(s[0..1] + s[1..14] + s[14..22] + s[22..23] + s[23..24] + s[24..38], s[38..46], ReplaceAllFrom(find, field, s, 46, format));
    CopiedUntil(find, field, s, 46, 47, format);
    Assoc(s[0..1] + s[1..14] + s[14..22] + s[22..23] + s[23..24] + s[24..38] + s[38..46], s[46..47], ReplaceAllFrom(find, field, s, 47, format));
    CatEmpty(s[0..1] + s[1..14] + s[14..22] + s[22..23] + s[23..24] + s[24..38] + s[38..46] + s[46..47]);
  }

  /** The unquoted pass for "usedBytes". */
  lemma MultipleFieldsPass2(s: string, field: string, format: Formatter)
    requires s == "{" + "\"usedBytes\": " + "\"170MiB\"" + "," + " " + "\"growthRate\": " + "\"293007\"" + "}"
    requires field == "usedBytes"
    ensures ReplaceAll(Find(Unquoted, field), field, s, format) == "{" + "\"usedBytes\": " + "\"170MiB\"" + "," + " " + "\"growthRate\": " + "\"293007\"" + "}"
  {
    MultipleFieldsText1(s);
    MultipleFieldsPass2Scan(s, field);
    MultipleFieldsPass2Trace(Find(Unquoted, field), s, field, format);
    SliceAt(s, 0, 1, "{");
    SliceAt(s, 1, 14, "\"usedBytes\": ");
    SliceAt(s, 14, 22, "\"170MiB\"");
    SliceAt(s, 22, 23, ",");
    SliceAt(s, 23, 24, " ");
    SliceAt(s, 24, 38, "\"growthRate\": ");
    SliceAt(s, 38, 46, "\"293007\"");
    SliceAt(s, 46, 47, "}");
  }

  /** The scan below, from offset 0 on. */
  lemma MultipleFieldsPass3Scan1(s: string, field: string)
    requires |s| == 47 && field == "growthRate"
    requires TextAt(s, 0, "{")
    requires TextAt(s, 1, "\"usedBytes\": ")
    requires TextAt(s, 14, "\"170MiB\"")
    requires TextAt(s, 22, ",")
    requires TextAt(s, 23, " ")
    requires TextAt(s, 24, "\"growthRate\": ")
    requires TextAt(s, 38, "\"293007\"")
    ensures var find := Find(Quoted, field);
      (forall n :: 0 <= n < 1 ==> find(s, n).None?) &&
      (forall n :: 1 <= n < 14 ==> find(s, n).None?) &&
      (forall n :: 14 <= n < 22 ==> find(s, n).None?) &&
      (forall n :: 22 <= n < 23 ==> find(s, n).None?) &&
      (forall n :: 23 <= n < 24 ==> find(s, n).None?)
  {
    NoKeyToken10("{", 0, "", field);
    NoKeyIn(s, 0, "{", 0, "", field);
    NoMatchIn(Quoted, field, s, 0, 1);
    NoKeyToken11("\"usedBytes\": ", 0, "", field);
    NoKeyIn(s, 1, "\"usedBytes\": ", 0, "", field);
    NoMatchIn(Quoted, field, s, 1, 14);
    NoKeyToken12("\"170MiB\"", 0, ",", field);
    NoKeyIn(s, 14, "\"170MiB\"", 0, ",", field);
    NoMatchIn(Quoted, field, s, 14, 22);
    NoKeyToken13(",", 0, "", field);
    NoKeyIn(s, 22, ",", 0, "", field);
    NoMatchIn(Quoted, field, s, 22, 23);
    NoKeyToken14(" ", 0, "", field);
    NoKeyIn(s, 23, " ", 0, "", field);
    NoMatchIn(Quoted, field, s, 23, 24);
  }

  /** The scan below, from offset 24 on. */
  lemma MultipleFieldsPass3Scan2(s: string, field: string)
    requires |s| == 47 && field == "growthRate"
    requires TextAt(s, 24, "\"growthRate\": ")
    requires TextAt(s, 38, "\"293007\"")
    requires TextAt(s, 46, "}")
    ensures var find := Find(Quoted, field);
      (find(s, 24) == Some(Match(46, "293007", ""))) &&
      (forall n :: 46 <= n < 47 ==> find(s, n).None?)
  {
    KeyToken2("\"growthRate\": ", field);
    KeyShapeIn(s, 24, "\"growthRate\": ", field, 12, 14);
    QuotedToken2("\"293007\"");
    QuotedShapeIn(s, 38, "\"293007\"", 7);
    QuotedMatchComplete(field, s, 24, 36, 38, 45);
    NoKeyToken15("}", 0, "", field);
    NoKeyIn(s, 46, "}", 0, "", field);
    NoMatchIn(Quoted, field, s, 46, 47);
  }

  /** Where the quoted pattern for "growthRate" matches in a text with these tokens. */
  lemma MultipleFieldsPass3Scan(s: string, field: string)
    requires |s| == 47 && field == "growthRate"
    requires TextAt(s, 0, "{")
    requires TextAt(s, 1, "\"usedBytes\": ")
    requires TextAt(s, 14, "\"170MiB\"")
    requires TextAt(s, 22, ",")
    requires TextAt(s, 23, " ")
    requires TextAt(s, 24, "\"growthRate\": ")
    requires TextAt(s, 38, "\"293007\"")
    requires TextAt(s, 46, "}")
    ensures var find := Find(Quoted, field);
      (forall n :: 0 <= n < 1 ==> find(s, n).None?) &&
      (forall n :: 1 <= n < 14 ==> find(s, n).None?) &&
      (forall n :: 14 <= n < 22 ==> find(s, n).None?) &&
      (forall n :: 22 <= n < 23 ==> find(s, n).None?) &&
      (forall n :: 23 <= n < 24 ==> find(s, n).None?) &&
      (find(s, 24) == Some(Match(46, "293007", ""))) &&
      (forall n :: 46 <= n < 47 ==> find(s, n).None?)
  {
    MultipleFieldsPass3Scan1(s, field);
    MultipleFieldsPass3Scan2(s, field);
  }

  /** A pass of a matcher that answers as the scan above. */
  lemma MultipleFieldsPass3Trace(find: Matcher, s: string, field: string, format: Formatter)
    requires |s| == 47
    requires forall n :: 0 <= n < 1 ==> find(s, n).None?
    requires forall n :: 1 <= n < 14 ==> find(s, n).None?
    requires forall n :: 14 <= n < 22 ==> find(s, n).None?
    requires forall n :: 22 <= n < 23 ==> find(s, n).None?
    requires forall n :: 23 <= n < 24 ==> find(s, n).None?
    requires find(s, 24) == Some(Match(46, "293007", ""))
    requires forall n :: 46 <= n < 47 ==> find(s, n).None?
    requires format("293007") == Ok("286KiB")
    ensures ReplaceAll(find, field, s, format) == s[0..1] + s[1..14] + s[14..22] + s[22..23] + s[23..24] + ("\"" + field + "\": \"" + "286KiB" + "\"" + "") + s[46..47]
  {
    CopiedUntil(find, field, s, 0, 1, format);
    CopiedUntil(find, field, s, 1, 14, format);
    Assoc(s[0..1], s[1..14], ReplaceAllFrom(find, field, s, 14, format));
    CopiedUntil(find, field, s, 14, 22, format);
    Assoc(s[0..1] + s[1..14], s[14..22], ReplaceAllFrom(find, field, s, 22, format));
    CopiedUntil(find, field, s, 22, 23, format);
    Assoc(s[0..1] + s[1..14] + s[14..22], s[22..23], ReplaceAllFrom(find, field, s, 23, format));
    Reformatted(find, field, s, 23, 24, Match(46, "293007", ""), "286KiB", format);
    Assoc(s[0..1] + s[1..14] + s[14..22] + s[22..23], s[23..24] + ("\"" + field + "\": \"" + "286KiB" + "\"" + ""), ReplaceAllFrom(find, field, s, 46, format));
    Assoc(s[0..1] + s[1..14] + s[14..22] + s[22..23], s[23..24], ("\"" + field + "\": \"" + "286KiB" + "\"" + ""));
    CopiedUntil(find, field, s, 46, 47, format);
    Assoc(s[0..1] + s[1..14] + s[14..22] + s[22..23] + s[23..24] + ("\"" + field + "\": \"" + "286KiB" + "\"" + ""), s[46..47], ReplaceAllFrom(find, field, s, 47, format));
    CatEmpty(s[0..1] + s[1..14] + s[14..22] + s[22..23] + s[23..24] + ("\"" + field + "\": \"" + "286KiB" + "\"" + "") + s[46..47]);
  }

  lemma MultipleFieldsPass3Split1(field: string)
    requires field == "growthRate"
    ensures ("\"" + field + "\": \"" + "286KiB" + "\"" + "") == "\"growthRate\": " + "\"286KiB\""
  {
  }

  /** The quoted pass for "growthRate". */
  lemma MultipleFieldsPass3(s: string, field: string, format: Formatter)
    requires s == "{" + "\"usedBytes\": " + "\"170MiB\"" + "," + " " + "\"growthRate\": " + "\"293007\"" + "}"
    requires field == "growthRate"
    requires format("293007") == Ok("286KiB")
    ensures ReplaceAll(Find(Quoted, field), field, s, format) == "{" + "\"usedBytes\": " + "\"170MiB\"" + "," + " " + "\"growthRate\": " + "\"286KiB\"" + "}"
  {
    MultipleFieldsText1(s);
    MultipleFieldsPass3Scan(s, field);
    MultipleFieldsPass3Trace(Find(Quoted, field), s, field, format);
    SliceAt(s, 0, 1, "{");
    SliceAt(s, 1, 14, "\"usedBytes\": ");
    SliceAt(s, 14, 22, "\"170MiB\"");
    SliceAt(s, 22, 23, ",");
    SliceAt(s, 23, 24, " ");
    SliceAt(s, 46, 47, "}");
    MultipleFieldsPass3Split1(field);
    Assoc("{" + "\"usedBytes\": " + "\"170MiB\"" + "," + " ", "\"growthRate\": ", "\"286KiB\"");
  }

  /** Where each token of the text lies. */
  lemma MultipleFieldsText2(s: string)
    requires s == "{" + "\"usedBytes\": " + "\"170MiB\"" + "," + " " + "\"growthRate\": " + "\"286KiB\"" + "}"
    ensures TextAt(s, 0, "{")
    ensures TextAt(s, 1, "\"usedBytes\": ")
    ensures TextAt(s, 14, "\"170MiB\"")
    ensures TextAt(s, 22, ",")
    ensures TextAt(s, 23, " ")
    ensures TextAt(s, 24, "\"growthRate\": ")
    ensures TextAt(s, 38, "\"286KiB\"")
    ensures TextAt(s, 46, "}")
  {
    TextAtSelf("{");
    TextAtGrow("{", 0, "{", "\"usedBytes\": ");
    TextAtGrow("{" + "\"usedBytes\": ", 0, "{", "\"170MiB\"");
    TextAtGrow("{" + "\"usedBytes\": " + "\"170MiB\"", 0, "{", ",");
    TextAtGrow("{" + "\"usedBytes\": " + "\"170MiB\"" + ",", 0, "{", " ");
    TextAtGrow("{" + "\"usedBytes\": " + "\"170MiB\"" + "," + " ", 0, "{", "\"growthRate\": ");
    TextAtGrow("{" + "\"usedBytes\": " + "\"170MiB\"" + "," + " " + "\"growthRate\": ", 0, "{", "\"286KiB\"");
    TextAtGrow("{" + "\"usedBytes\": " + "\"170MiB\"" + "," + " " + "\"growthRate\": " + "\"286KiB\"", 0, "{", "}");
    TextAtEnd("{", "\"usedBytes\": ");
    TextAtGrow("{" + "\"usedBytes\": ", 1, "\"usedBytes\": ", "\"170MiB\"");
    TextAtGrow("{" + "\"usedBytes\": " + "\"170MiB\"", 1, "\"usedBytes\": ", ",");
    TextAtGrow("{" + "\"usedBytes\": " + "\"170MiB\"" + ",", 1, "\"usedBytes\": ", " ");
    TextAtGrow("{" + "\"usedBytes\": " + "\"170MiB\"" + "," + " ", 1, "\"usedBytes\": ", "\"growthRate\": ");
    TextAtGrow("{" + "\"usedBytes\": " + "\"170MiB\"" + "," + " " + "\"growthRate\": ", 1, "\"usedBytes\": ", "\"286KiB\"");
    TextAtGrow("{" + "\"usedBytes\": " + "\"170MiB\"" + "," + " " + "\"growthRate\": " + "\"286KiB\"", 1, "\"usedBytes\": ", "}");
    TextAtEnd("{" + "\"usedBytes\": ", "\"170MiB\"");
    TextAtGrow("{" + "\"usedBytes\": " + "\"170MiB\"", 14, "\"170MiB\"", ",");
    TextAtGrow("{" + "\"usedBytes\": " + "\"170MiB\"" + ",", 14, "\"170MiB\"", " ");
    TextAtGrow("{" + "\"usedBytes\": " + "\"170MiB\"" + "," + " ", 14, "\"170MiB\"", "\"growthRate\": ");
    TextAtGrow("{" + "\"usedBytes\": " + "\"170MiB\"" + "," + " " + "\"growthRate\": ", 14, "\"170MiB\"", "\"286KiB\"");
    TextAtGrow("{" + "\"usedBytes\": " + "\"170MiB\"" + "," + " " + "\"growthRate\": " + "\"286KiB\"", 14, "\"170MiB\"", "}");
    TextAtEnd("{" + "\"usedBytes\": " + "\"170MiB\"", ",");
    TextAtGrow("{" + "\"usedBytes\": " + "\"170MiB\"" + ",", 22, ",", " ");
    TextAtGrow("{" + "\"usedBytes\": " + "\"170MiB\"" + "," + " ", 22, ",", "\"growthRate\": ");
    TextAtGrow("{" + "\"usedBytes\": " + "\"170MiB\"" + "," + " " + "\"growthRate\": ", 22, ",", "\"286KiB\"");
    TextAtGrow("{" + "\"usedBytes\": " + "\"170MiB\"" + "," + " " + "\"growthRate\": " + "\"286KiB\"", 22, ",", "}");
    TextAtEnd("{" + "\"usedBytes\": " + "\"170MiB\"" + ",", " ");
    TextAtGrow("{" + "\"usedBytes\": " + "\"170MiB\"" + "," + " ", 23, " ", "\"growthRate\": ");
    TextAtGrow("{" + "\"usedBytes\": " + "\"170MiB\"" + "," + " " + "\"growthRate\": ", 23, " ", "\"286KiB\"");
    TextAtGrow("{" + "\"usedBytes\": " + "\"170MiB\"" + "," + " " + "\"growthRate\": " + "\"286KiB\"", 23, " ", "}");
    TextAtEnd("{" + "\"usedBytes\": " + "\"170MiB\"" + "," + " ", "\"growthRate\": ");
    TextAtGrow("{" + "\"usedBytes\": " + "\"170MiB\"" + "," + " " + "\"growthRate\": ", 24, "\"growthRate\": ", "\"286KiB\"");
    TextAtGrow("{" + "\"usedBytes\": " + "\"170MiB\"" + "," + " " + "\"growthRate\": " + "\"286KiB\"", 24, "\"growthRate\": ", "}");
    TextAtEnd("{" + "\"usedBytes\": " + "\"170MiB\"" + "," + " " + "\"growthRate\": ", "\"286KiB\"");
    TextAtGrow("{" + "\"usedBytes\": " + "\"170MiB\"" + "," + " " + "\"growthRate\": " + "\"286KiB\"", 38, "\"286KiB\"", "}");
    TextAtEnd("{" + "\"usedBytes\": " + "\"170MiB\"" + "," + " " + "\"growthRate\": " + "\"286KiB\"", "}");
  }

  /** The scan below, from offset 0 on. */
  lemma MultipleFieldsPass4Scan1(s: string, field: string)
    requires |s| == 47 && field == "growthRate"
    requires TextAt(s, 0, "{")
    requires TextAt(s, 1, "\"usedBytes\": ")
    requires TextAt(s, 14, "\"170MiB\"")
    requires TextAt(s, 22, ",")
    requires TextAt(s, 23, " ")
    requires TextAt(s, 24, "\"growthRate\": ")
    requires TextAt(s, 38, "\"286KiB\"")
    ensures var find := Find(Unquoted, field);
      (forall n :: 0 <= n < 1 ==> find(s, n).None?) &&
      (forall n :: 1 <= n < 14 ==> find(s, n).None?) &&
      (forall n :: 14 <= n < 22 ==> find(s, n).None?) &&
      (forall n :: 22 <= n < 23 ==> find(s, n).None?) &&
      (forall n :: 23 <= n < 24 ==> find(s, n).None?)
  {
    NoKeyToken10("{", 0, "", field);
    NoKeyIn(s, 0, "{", 0, "", field);
    NoMatchIn(Unquoted, field, s, 0, 1);
    NoKeyToken11("\"usedBytes\": ", 0, "", field);
    NoKeyIn(s, 1, "\"usedBytes\": ", 0, "", field);
    NoMatchIn(Unquoted, field, s, 1, 14);
    NoKeyToken12("\"170MiB\"", 0, ",", field);
    NoKeyIn(s, 14, "\"170MiB\"", 0, ",", field);
    NoMatchIn(Unquoted, field, s, 14, 22);
    NoKeyToken13(",", 0, "", field);
    NoKeyIn(s, 22, ",", 0, "", field);
    NoMatchIn(Unquoted, field, s, 22, 23);
    NoKeyToken14(" ", 0, "", field);
    NoKeyIn(s, 23, " ", 0, "", field);
    NoMatchIn(Unquoted, field, s, 23, 24);
  }

  /** The scan below, from offset 24 on. */
  lemma MultipleFieldsPass4Scan2(s: string, field: string)
    requires |s| == 47 && field == "growthRate"
    requires TextAt(s, 24, "\"growthRate\": ")
    requires TextAt(s, 38, "\"286KiB\"")
    requires TextAt(s, 46, "}")
    ensures var find := Find(Unquoted, field);
      (find(s, 24).None?) &&
      (forall n :: 25 <= n < 38 ==> find(s, n).None?) &&
      (forall n :: 38 <= n < 46 ==> find(s, n).None?) &&
      (forall n :: 46 <= n < 47 ==> find(s, n).None?)
  {
    KeyToken2("\"growthRate\": ", field);
    KeyShapeIn(s, 24, "\"growthRate\": ", field, 12, 14);
    CharAt(s, 38, "\"286KiB\"", 38);
    NoValueAfterKey(Unquoted, field, s, 24, 36, 38);
    NoKeyToken16("\"growthRate\": ", 1, "", field);
    NoKeyIn(s, 24, "\"growthRate\": ", 1, "", field);
    NoMatchIn(Unquoted, field, s, 25, 38);
    NoKeyToken17("\"286KiB\"", 0, "}", field);
    NoKeyIn(s, 38, "\"286KiB\"", 0, "}", field);
    NoMatchIn(Unquoted, field, s, 38, 46);
    NoKeyToken15("}", 0, "", field);
    NoKeyIn(s, 46, "}", 0, "", field);
    NoMatchIn(Unquoted, field, s, 46, 47);
  }

  /** Where the unquoted pattern for "growthRate" matches in a text with these tokens. */
  lemma MultipleFieldsPass4Scan(s: string, field: string)
    requires |s| == 47 && field == "growthRate"
    requires TextAt(s, 0, "{")
    requires TextAt(s, 1, "\"usedBytes\": ")
    requires TextAt(s, 14, "\"170MiB\"")
    requires TextAt(s, 22, ",")
    requires TextAt(s, 23, " ")
    requires TextAt(s, 24, "\"growthRate\": ")
    requires TextAt(s, 38, "\"286KiB\"")
    requires TextAt(s, 46, "}")
    ensures var find := Find(Unquoted, field);
      (forall n :: 0 <= n < 1 ==> find(s, n).None?) &&
      (forall n :: 1 <= n < 14 ==> find(s, n).None?) &&
      (forall n :: 14 <= n < 22 ==> find(s, n).None?) &&
      (forall n :: 22 <= n < 23 ==> find(s, n).None?) &&
      (forall n :: 23 <= n < 24 ==> find(s, n).None?) &&
      (find(s, 24).None?) &&
      (forall n :: 25 <= n < 38 ==> find(s, n).None?) &&
      (forall n :: 38 <= n < 46 ==> find(s, n).None?) &&
      (forall n :: 46 <= n < 47 ==> find(s, n).None?)
  {
    MultipleFieldsPass4Scan1(s, field);
    MultipleFieldsPass4Scan2(s, field);
  }

  /** A pass of a matcher that answers as the scan above. */
  lemma MultipleFieldsPass4Trace(find: Matcher, s: string, field: string, format: Formatter)
    requires |s| == 47
    requires forall n :: 0 <= n < 1 ==> find(s, n).None?
    requires forall n :: 1 <= n < 14 ==> find(s, n).None?
    requires forall n :: 14 <= n < 22 ==> find(s, n).None?
    requires forall n :: 22 <= n < 23 ==> find(s, n).None?
    requires forall n :: 23 <= n < 24 ==> find(s, n).None?
    requires find(s, 24).None?
    requires forall n :: 25 <= n < 38 ==> find(s, n).None?
    requires forall n :: 38 <= n < 46 ==> find(s, n).None?
    requires forall n :: 46 <= n < 47 ==> find(s, n).None?
    ensures ReplaceAll(find, field, s, format) == s[0..1] + s[1..14] + s[14..22] + s[22..23] + s[23..24] + s[24..38] + s[38..46] + s[46..47]
  {
    CopiedUntil(find, field, s, 0, 1, format);
    CopiedUntil(find, field, s, 1, 14, format);
    Assoc(s[0..1], s[1..14], ReplaceAllFrom(find, field, s, 14, format));
    CopiedUntil(find, field, s, 14, 22, format);
    Assoc(s[0..1] + s[1..14], s[14..22], ReplaceAllFrom(find, field, s, 22, format));
    CopiedUntil(find, field, s, 22, 23, format);
    Assoc(s[0..1] + s[1..14] + s[14..22], s[22..23], ReplaceAllFrom(find, field, s, 23, format));
    CopiedUntil(find, field, s, 23, 24, format);
    Assoc(s[0..1] + s[1..14] + s[14..22] + s[22..23], s[23..24], ReplaceAllFrom(find, field, s, 24, format));
    CopiedUntil(find, field, s, 24, 38, format);
    Assoc(s[0..1] + s[1..14] + s[14..22] + s[22..23] + s[23..24], s[24..38], ReplaceAllFrom(find, field, s, 38, format));
    CopiedUntil(find, field, s, 38, 46, format);
    Assoc(s[0..1] + s[1..14] + s[14..22] + s[22..23] + s[23..24] + s[24..38], s[38..46], ReplaceAllFrom(find, field, s, 46, format));
    CopiedUntil(find, field, s, 46, 47, format);
    Assoc(s[0..1] + s[1..14] + s[14..22] + s[22..23] + s[23..24] + s[24..38] + s[38..46], s[46..47], ReplaceAllFrom(find, field, s, 47, format));
    CatEmpty(s[0..1] + s[1..14] + s[14..22] + s[22..23] + s[23..24] + s[24..38] + s[38..46] + s[46..47]);
  }

  /** The unquoted pass for "growthRate". */
  lemma MultipleFieldsPass4(s: string, field: string, format: Formatter)
    requires s == "{" + "\"usedBytes\": " + "\"170MiB\"" + "," + " " + "\"growthRate\": " + "\"286KiB\"" + "}"
    requires field == "growthRate"
    ensures ReplaceAll(Find(Unquoted, field), field, s, format) == "{" + "\"usedBytes\": " + "\"170MiB\"" + "," + " " + "\"growthRate\": " + "\"286KiB\"" + "}"
  {
    MultipleFieldsText2(s);
    MultipleFieldsPass4Scan(s, field);
    MultipleFieldsPass4Trace(Find(Unquoted, field), s, field, format);
    SliceAt(s, 0, 1, "{");
    SliceAt(s, 1, 14, "\"usedBytes\": ");
    SliceAt(s, 14, 22, "\"170MiB\"");
    SliceAt(s, 22, 23, ",");
    SliceAt(s, 23, 24, " ");
    SliceAt(s, 24, 38, "\"growthRate\": ");
    SliceAt(s, 38, 46, "\"286KiB\"");
    SliceAt(s, 46, 47, "}");
  }

  predicate MultipleFieldsStage0(s: string) {
    s == "{" + "\"usedBytes\": " + "\"178255984\"" + "," + " " + "\"growthRate\": " + "\"293007\"" + "}"
  }

  predicate MultipleFieldsStage1(s: string) {
    s == "{" + "\"usedBytes\": " + "\"170MiB\"" + "," + " " + "\"growthRate\": " + "\"293007\"" + "}"
  }

  predicate MultipleFieldsStage2(s: string) {
    s == "{" + "\"usedBytes\": " + "\"170MiB\"" + "," + " " + "\"growthRate\": " + "\"286KiB\"" + "}"
  }

  lemma MultipleFieldsField1(s: string) returns (t: string)
    requires MultipleFieldsStage0(s)
    ensures RewriteField(s, "usedBytes") == t && MultipleFieldsStage1(t)
  {
    FormatExamples.UsedBytes("178255984");
    MultipleFieldsPass1(s, "usedBytes", FormatValue);
    MultipleFieldsPass2("{" + "\"usedBytes\": " + "\"170MiB\"" + "," + " " + "\"growthRate\": " + "\"293007\"" + "}", "usedBytes", FormatValue);
    t := "{" + "\"usedBytes\": " + "\"170MiB\"" + "," + " " + "\"growthRate\": " + "\"293007\"" + "}";
  }

  lemma MultipleFieldsField2(s: string) returns (t: string)
    requires MultipleFieldsStage1(s)
    ensures RewriteField(s, "growthRate") == t && MultipleFieldsStage2(t)
  {
    FormatExamples.GrowthRate("293007");
    MultipleFieldsPass3(s, "growthRate", FormatValue);
    MultipleFieldsPass4("{" + "\"usedBytes\": " + "\"170MiB\"" + "," + " " + "\"growthRate\": " + "\"286KiB\"" + "}", "growthRate", FormatValue);
    t := "{" + "\"usedBytes\": " + "\"170MiB\"" + "," + " " + "\"growthRate\": " + "\"286KiB\"" + "}";
  }

  lemma MultipleFieldsInput(s: string)
    requires s == "{\"usedBytes\": \"178255984\", \"growthRate\": \"293007\"}"
    ensures MultipleFieldsStage0(s)
  {
    Peel10();
    Peel9();
    Peel8();
    Peel7();
    Peel6();
    Peel2();
    Peel1();
  }

  lemma MultipleFieldsOutput(s: string)
    requires MultipleFieldsStage2(s)
    ensures s == "{\"usedBytes\": \"170MiB\", \"growthRate\": \"286KiB\"}"
  {
    Peel15();
    Peel14();
    Peel13();
    Peel12();
    Peel11();
    Peel4();
    Peel1();
  }

  /** main_test.go:137-142: two listed fields are both rewritten. */
  lemma MultipleFields(s: string, fields: seq<string>)
    requires s == "{\"usedBytes\": \"178255984\", \"growthRate\": \"293007\"}"
    requires fields == ["usedBytes", "growthRate"]
    ensures RewriteFields(s, fields) == "{\"usedBytes\": \"170MiB\", \"growthRate\": \"286KiB\"}"
  {
    MultipleFieldsInput(s);
    var m1 := MultipleFieldsField1(s);
    FieldsOne(s, "usedBytes", m1);
    var m2 := MultipleFieldsField2(m1);
    FieldsSnoc(s, ["usedBytes"], "growthRate", m1, m2);
    assert fields == ["usedBytes"] + ["growthRate"];
    MultipleFieldsOutput(m2);
  }

  /** Where each token of the text lies. */
  lemma NestedObjectText0(s: string)
    requires s == "{" + "\"data\": " + "{" + "\"usedBytes\": " + "\"178255984\"" + "}" + "}"
    ensures TextAt(s, 0, "{")
    ensures TextAt(s, 1, "\"data\": ")
    ensures TextAt(s, 9, "{")
    ensures TextAt(s, 10, "\"usedBytes\": ")
    ensures TextAt(s, 23, "\"178255984\"")
    ensures TextAt(s, 34, "}")
    ensures TextAt(s, 35, "}")
  {
    TextAtSelf("{");
    TextAtGrow("{", 0, "{", "\"data\": ");
    TextAtGrow("{" + "\"data\": ", 0, "{", "{");
    TextAtGrow("{" + "\"data\": " + "{", 0, "{", "\"usedBytes\": ");
    TextAtGrow("{" + "\"data\": " + "{" + "\"usedBytes\": ", 0, "{", "\"178255984\"");
    TextAtGrow("{" + "\"data\": " + "{" + "\"usedBytes\": " + "\"178255984\"", 0, "{", "}");
    TextAtGrow("{" + "\"data\": " + "{" + "\"usedBytes\": " + "\"178255984\"" + "}", 0, "{", "}");
    TextAtEnd("{", "\"data\": ");
    TextAtGrow("{" + "\"data\": ", 1, "\"data\": ", "{");
    TextAtGrow("{" + "\"data\": " + "{", 1, "\"data\": ", "\"usedBytes\": ");
    TextAtGrow("{" + "\"data\": " + "{" + "\"usedBytes\": ", 1, "\"data\": ", "\"178255984\"");
    TextAtGrow("{" + "\"data\": " + "{" + "\"usedBytes\": " + "\"178255984\"", 1, "\"data\": ", "}");
    TextAtGrow("{" + "\"data\": " + "{" + "\"usedBytes\": " + "\"178255984\"" + "}", 1, "\"data\": ", "}");
    TextAtEnd("{" + "\"data\": ", "{");
    TextAtGrow("{" + "\"data\": " + "{", 9, "{", "\"usedBytes\": ");
    TextAtGrow("{" + "\"data\": " + "{" + "\"usedBytes\": ", 9, "{", "\"178255984\"");
    TextAtGrow("{" + "\"data\": " + "{" + "\"usedBytes\": " + "\"178255984\"", 9, "{", "}");
    TextAtGrow("{" + "\"data\": " + "{" + "\"usedBytes\": " + "\"178255984\"" + "}", 9, "{", "}");
    TextAtEnd("{" + "\"data\": " + "{", "\"usedBytes\": ");
    TextAtGrow("{" + "\"data\": " + "{" + "\"usedBytes\": ", 10, "\"usedBytes\": ", "\"178255984\"");
    TextAtGrow("{" + "\"data\": " + "{" + "\"usedBytes\": " + "\"178255984\"", 10, "\"usedBytes\": ", "}");
    TextAtGrow("{" + "\"data\": " + "{" + "\"usedBytes\": " + "\"178255984\"" + "}", 10, "\"usedBytes\": ", "}");
    TextAtEnd("{" + "\"data\": " + "{" + "\"usedBytes\": ", "\"178255984\"");
    TextAtGrow("{" + "\"data\": " + "{" + "\"usedBytes\": " + "\"178255984\"", 23, "\"178255984\"", "}");
    TextAtGrow("{" + "\"data\": " + "{" + "\"usedBytes\": " + "\"178255984\"" + "}", 23, "\"178255984\"", "}");
    TextAtEnd("{" + "\"data\": " + "{" + "\"usedBytes\": " + "\"178255984\"", "}");
    TextAtGrow("{" + "\"data\": " + "{" + "\"usedBytes\": " + "\"178255984\"" + "}", 34, "}", "}");
    TextAtEnd("{" + "\"data\": " + "{" + "\"usedBytes\": " + "\"178255984\"" + "}", "}");
  }

  /** The scan below, from offset 0 on. */
  lemma NestedObjectPass1Scan1(s: string, field: string)
    requires |s| == 36 && field == "usedBytes"
    requires TextAt(s, 0, "{")
    requires TextAt(s, 1, "\"data\": ")
    requires TextAt(s, 9, "{")
    requires TextAt(s, 10, "\"usedBytes\": ")
    requires TextAt(s, 23, "\"178255984\"")
    requires TextAt(s, 34, "}")
    requires TextAt(s, 35, "}")
    ensures var find := Find(Quoted, field);
      (forall n :: 0 <= n < 1 ==> find(s, n).None?) &&
      (forall n :: 1 <= n < 9 ==> find(s, n).None?) &&
      (forall n :: 9 <= n < 10 ==> find(s, n).None?) &&
      (find(s, 10) == Some(Match(34, "178255984", ""))) &&
      (forall n :: 34 <= n < 35 ==> find(s, n).None?)
  {
    NoKeyToken1("{", 0, "", field);
    NoKeyIn(s, 0, "{", 0, "", field);
    NoMatchIn(Quoted, field, s, 0, 1);
    NoKeyToken18("\"data\": ", 0, "", field);
    NoKeyIn(s, 1, "\"data\": ", 0, "", field);
    NoMatchIn(Quoted, field, s, 1, 9);
    NoKeyToken1("{", 0, "", field);
    NoKeyIn(s, 9, "{", 0, "", field);
    NoMatchIn(Quoted, field, s, 9, 10);
    KeyToken1("\"usedBytes\": ", field);
    KeyShapeIn(s, 10, "\"usedBytes\": ", field, 11, 13);
    QuotedToken1("\"178255984\"");
    QuotedShapeIn(s, 23, "\"178255984\"", 10);
    QuotedMatchComplete(field, s, 10, 21, 23, 33);
    NoKeyToken2("}", 0, "", field);
    NoKeyIn(s, 34, "}", 0, "", field);
    NoMatchIn(Quoted, field, s, 34, 35);
  }

  /** The scan below, from offset 35 on. */
  lemma NestedObjectPass1Scan2(s: string, field: string)
    requires |s| == 36 && field == "usedBytes"
    requires TextAt(s, 35, "}")
    ensures var find := Find(Quoted, field);
      (forall n :: 35 <= n < 36 ==> find(s, n).None?)
  {
    NoKeyToken2("}", 0, "", field);
    NoKeyIn(s, 35, "}", 0, "", field);
    NoMatchIn(Quoted, field, s, 35, 36);
  }

  /** Where the quoted pattern for "usedBytes" matches in a text with these tokens. */
  lemma NestedObjectPass1Scan(s: string, field: string)
    requires |s| == 36 && field == "usedBytes"
    requires TextAt(s, 0, "{")
    requires TextAt(s, 1, "\"data\": ")
    requires TextAt(s, 9, "{")
    requires TextAt(s, 10, "\"usedBytes\": ")
    requires TextAt(s, 23, "\"178255984\"")
    requires TextAt(s, 34, "}")
    requires TextAt(s, 35, "}")
    ensures var find := Find(Quoted, field);
      (forall n :: 0 <= n < 1 ==> find(s, n).None?) &&
      (forall n :: 1 <= n < 9 ==> find(s, n).None?) &&
      (forall n :: 9 <= n < 10 ==> find(s, n).None?) &&
      (find(s, 10) == Some(Match(34, "178255984", ""))) &&
      (forall n :: 34 <= n < 35 ==> find(s, n).None?) &&
      (forall n :: 35 <= n < 36 ==> find(s, n).None?)
  {
    NestedObjectPass1Scan1(s, field);
    NestedObjectPass1Scan2(s, field);
  }

  /** A pass of a matcher that answers as the scan above. */
  lemma NestedObjectPass1Trace(find: Matcher, s: string, field: string, format: Formatter)
    requires |s| == 36
    requires forall n :: 0 <= n < 1 ==> find(s, n).None?
    requires forall n :: 1 <= n < 9 ==> find(s, n).None?
    requires forall n :: 9 <= n < 10 ==> find(s, n).None?
    requires find(s, 10) == Some(Match(34, "178255984", ""))
    requires forall n :: 34 <= n < 35 ==> find(s, n).None?
    requires forall n :: 35 <= n < 36 ==> find(s, n).None?
    requires format("178255984") == Ok("170MiB")
    ensures ReplaceAll(find, field, s, format) == s[0..1] + s[1..9] + s[9..10] + ("\"" + field + "\": \"" + "170MiB" + "\"" + "") + s[34..35] + s[35..36]
  {
    CopiedUntil(find, field, s, 0, 1, format);
    CopiedUntil(find, field, s, 1, 9, format);
    Assoc(s[0..1], s[1..9], ReplaceAllFrom(find, field, s, 9, format));
    Reformatted(find, field, s, 9, 10, Match(34, "178255984", ""), "170MiB", format);
    Assoc(s[0..1] + s[1..9], s[9..10] + ("\"" + field + "\": \"" + "170MiB" + "\"" + ""), ReplaceAllFrom(find, field, s, 34, format));
    Assoc(s[0..1] + s[1..9], s[9..10], ("\"" + field + "\": \"" + "170MiB" + "\"" + ""));
    CopiedUntil(find, field, s, 34, 35, format);
    Assoc(s[0..1] + s[1..9] + s[9..10] + ("\"" + field + "\": \"" + "170MiB" + "\"" + ""), s[34..35], ReplaceAllFrom(find, field, s, 35, format));
    CopiedUntil(find, field, s, 35, 36, format);
    Assoc(s[0..1] + s[1..9] + s[9..10] + ("\"" + field + "\": \"" + "170MiB" + "\"" + "") + s[34..35], s[35..36], ReplaceAllFrom(find, field, s, 36, format));
    CatEmpty(s[0..1] + s[1..9] + s[9..10] + ("\"" + field + "\": \"" + "170MiB" + "\"" + "") + s[34..35] + s[35..36]);
  }

  lemma NestedObjectPass1Split1(field: string)
    requires field == "usedBytes"
    ensures ("\"" + field + "\": \"" + "170MiB" + "\"" + "") == "\"usedBytes\": " + "\"170MiB\""
  {
  }

  /** The quoted pass for "usedBytes". */
  lemma NestedObjectPass1(s: string, field: string, format: Formatter)
    requires s == "{" + "\"data\": " + "{" + "\"usedBytes\": " + "\"178255984\"" + "}" + "}"
    requires field == "usedBytes"
    requires format("178255984") == Ok("170MiB")
    ensures ReplaceAll(Find(Quoted, field), field, s, format) == "{" + "\"data\": " + "{" + "\"usedBytes\": " + "\"170MiB\"" + "}" + "}"
  {
    NestedObjectText0(s);
    NestedObjectPass1Scan(s, field);
    NestedObjectPass1Trace(Find(Quoted, field), s, field, format);
    SliceAt(s, 0, 1, "{");
    SliceAt(s, 1, 9, "\"data\": ");
    SliceAt(s, 9, 10, "{");
    SliceAt(s, 34, 35, "}");
    SliceAt(s, 35, 36, "}");
    NestedObjectPass1Split1(field);
    Assoc("{" + "\"data\": " + "{", "\"usedBytes\": ", "\"170MiB\"");
  }

  /** Where each token of the text lies. */
  lemma NestedObjectText1(s: string)
    requires s == "{" + "\"data\": " + "{" + "\"usedBytes\": " + "\"170MiB\"" + "}" + "}"
    ensures TextAt(s, 0, "{")
    ensures TextAt(s, 1, "\"data\": ")
    ensures TextAt(s, 9, "{")
    ensures TextAt(s, 10, "\"usedBytes\": ")
    ensures TextAt(s, 23, "\"170MiB\"")
    ensures TextAt(s, 31, "}")
    ensures TextAt(s, 32, "}")
  {
    TextAtSelf("{");
    TextAtGrow("{", 0, "{", "\"data\": ");
    TextAtGrow("{" + "\"data\": ", 0, "{", "{");
    TextAtGrow("{" + "\"data\": " + "{", 0, "{", "\"usedBytes\": ");
    TextAtGrow("{" + "\"data\": " + "{" + "\"usedBytes\": ", 0, "{", "\"170MiB\"");
    TextAtGrow("{" + "\"data\": " + "{" + "\"usedBytes\": " + "\"170MiB\"", 0, "{", "}");
    TextAtGrow("{" + "\"data\": " + "{" + "\"usedBytes\": " + "\"170MiB\"" + "}", 0, "{", "}");
    TextAtEnd("{", "\"data\": ");
    TextAtGrow("{" + "\"data\": ", 1, "\"data\": ", "{");
    TextAtGrow("{" + "\"data\": " + "{", 1, "\"data\": ", "\"usedBytes\": ");
    TextAtGrow("{" + "\"data\": " + "{" + "\"usedBytes\": ", 1, "\"data\": ", "\"170MiB\"");
    TextAtGrow("{" + "\"data\": " + "{" + "\"usedBytes\": " + "\"170MiB\"", 1, "\"data\": ", "}");
    TextAtGrow("{" + "\"data\": " + "{" + "\"usedBytes\": " + "\"170MiB\"" + "}", 1, "\"data\": ", "}");
    TextAtEnd("{" + "\"data\": ", "{");
    TextAtGrow("{" + "\"data\": " + "{", 9, "{", "\"usedBytes\": ");
    TextAtGrow("{" + "\"data\": " + "{" + "\"usedBytes\": ", 9, "{", "\"170MiB\"");
    TextAtGrow("{" + "\"data\": " + "{" + "\"usedBytes\": " + "\"170MiB\"", 9, "{", "}");
    TextAtGrow("{" + "\"data\": " + "{" + "\"usedBytes\": " + "\"170MiB\"" + "}", 9, "{", "}");
    TextAtEnd("{" + "\"data\": " + "{", "\"usedBytes\": ");
    TextAtGrow("{" + "\"data\": " + "{" + "\"usedBytes\": ", 10, "\"usedBytes\": ", "\"170MiB\"");
    TextAtGrow("{" + "\"data\": " + "{" + "\"usedBytes\": " + "\"170MiB\"", 10, "\"usedBytes\": ", "}");
    TextAtGrow("{" + "\"data\": " + "{" + "\"usedBytes\": " + "\"170MiB\"" + "}", 10, "\"usedBytes\": ", "}");
    TextAtEnd("{" + "\"data\": " + "{" + "\"usedBytes\": ", "\"170MiB\"");
    TextAtGrow("{" + "\"data\": " + "{" + "\"usedBytes\": " + "\"170MiB\"", 23, "\"170MiB\"", "}");
    TextAtGrow("{" + "\"data\": " + "{" + "\"usedBytes\": " + "\"170MiB\"" + "}", 23, "\"170MiB\"", "}");
    TextAtEnd("{" + "\"data\": " + "{" + "\"usedBytes\": " + "\"170MiB\"", "}");
    TextAtGrow("{" + "\"data\": " + "{" + "\"usedBytes\": " + "\"170MiB\"" + "}", 31, "}", "}");
    TextAtEnd("{" + "\"data\": " + "{" + "\"usedBytes\": " + "\"170MiB\"" + "}", "}");
  }

  /** The scan below, from offset 0 on. */
  lemma NestedObjectPass2Scan1(s: string, field: string)
    requires |s| == 33 && field == "usedBytes"
    requires TextAt(s, 0, "{")
    requires TextAt(s, 1, "\"data\": ")
    requires TextAt(s, 9, "{")
    requires TextAt(s, 10, "\"usedBytes\": ")
    requires TextAt(s, 23, "\"170MiB\"")
    requires TextAt(s, 31, "}")
    requires TextAt(s, 32, "}")
    ensures var find := Find(Unquoted, field);
      (forall n :: 0 <= n < 1 ==> find(s, n).None?) &&
      (forall n :: 1 <= n < 9 ==> find(s, n).None?) &&
      (forall n :: 9 <= n < 10 ==> find(s, n).None?) &&
      (find(s, 10).None?) &&
      (forall n :: 11 <= n < 23 ==> find(s, n).None?) &&
      (forall n :: 23 <= n < 31 ==> find(s, n).None?)
  {
    NoKeyToken1("{", 0, "", field);
    NoKeyIn(s, 0, "{", 0, "", field);
    NoMatchIn(Unquoted, field, s, 0, 1);
    NoKeyToken18("\"data\": ", 0, "", field);
    NoKeyIn(s, 1, "\"data\": ", 0, "", field);
    NoMatchIn(Unquoted, field, s, 1, 9);
    NoKeyToken1("{", 0, "", field);
    NoKeyIn(s, 9, "{", 0, "", field);
    NoMatchIn(Unquoted, field, s, 9, 10);
    KeyToken1("\"usedBytes\": ", field);
    KeyShapeIn(s, 10, "\"usedBytes\": ", field, 11, 13);
    CharAt(s, 23, "\"170MiB\"", 23);
    NoValueAfterKey(Unquoted, field, s, 10, 21, 23);
    NoKeyToken3("\"usedBytes\": ", 1, "", field);
    NoKeyIn(s, 10, "\"usedBytes\": ", 1, "", field);
    NoMatchIn(Unquoted, field, s, 11, 23);
    NoKeyToken4("\"170MiB\"", 0, "}", field);
    NoKeyIn(s, 23, "\"170MiB\"", 0, "}", field);
    NoMatchIn(Unquoted, field, s, 23, 31);
  }

  /** The scan below, from offset 31 on. */
  lemma NestedObjectPass2Scan2(s: string, field: string)
    requires |s| == 33 && field == "usedBytes"
    requires TextAt(s, 31, "}")
    requires TextAt(s, 32, "}")
    ensures var find := Find(Unquoted, field);
      (forall n :: 31 <= n < 32 ==> find(s, n).None?) &&
      (forall n :: 32 <= n < 33 ==> find(s, n).None?)
  {
    NoKeyToken2("}", 0, "", field);
    NoKeyIn(s, 31, "}", 0, "", field);
    NoMatchIn(Unquoted, field, s, 31, 32);
    NoKeyToken2("}", 0, "", field);
    NoKeyIn(s, 32, "}", 0, "", field);
    NoMatchIn(Unquoted, field, s, 32, 33);
  }

  /** Where the unquoted pattern for "usedBytes" matches in a text with these tokens. */
  lemma NestedObjectPass2Scan(s: string, field: string)
    requires |s| == 33 && field == "usedBytes"
    requires TextAt(s, 0, "{")
    requires TextAt(s, 1, "\"data\": ")
    requires TextAt(s, 9, "{")
    requires TextAt(s, 10, "\"usedBytes\": ")
    requires TextAt(s, 23, "\"170MiB\"")
    requires TextAt(s, 31, "}")
    requires TextAt(s, 32, "}")
    ensures var find := Find(Unquoted, field);
      (forall n :: 0 <= n < 1 ==> find(s, n).None?) &&
      (forall n :: 1 <= n < 9 ==> find(s, n).None?) &&
      (forall n :: 9 <= n < 10 ==> find(s, n).None?) &&
      (find(s, 10).None?) &&
      (forall n :: 11 <= n < 23 ==> find(s, n).None?) &&
      (forall n :: 23 <= n < 31 ==> find(s, n).None?) &&
      (forall n :: 31 <= n < 32 ==> find(s, n).None?) &&
      (forall n :: 32 <= n < 33 ==> find(s, n).None?)
  {
    NestedObjectPass2Scan1(s, field);
    NestedObjectPass2Scan2(s, field);
  }

  /** A pass of a matcher that answers as the scan above. */
  lemma NestedObjectPass2Trace(find: Matcher, s: string, field: string, format: Formatter)
    requires |s| == 33
    requires forall n :: 0 <= n < 1 ==> find(s, n).None?
    requires forall n :: 1 <= n < 9 ==> find(s, n).None?
    requires forall n :: 9 <= n < 10 ==> find(s, n).None?
    requires find(s, 10).None?
    requires forall n :: 11 <= n < 23 ==> find(s, n).None?
    requires forall n :: 23 <= n < 31 ==> find(s, n).None?
    requires forall n :: 31 <= n < 32 ==> find(s, n).None?
    requires forall n :: 32 <= n < 33 ==> find(s, n).None?
    ensures ReplaceAll(find, field, s, format) == s[0..1] + s[1..9] + s[9..10] + s[10..23] + s[23..31] + s[31..32] + s[32..33]
  {
    CopiedUntil(find, field, s, 0, 1, format);
    CopiedUntil(find, field, s, 1, 9, format);
    Assoc(s[0..1], s[1..9], ReplaceAllFrom(find, field, s, 9, format));
    CopiedUntil(find, field, s, 9, 10, format);
    Assoc(s[0..1] + s[1..9], s[9..10], ReplaceAllFrom(find, field, s, 10, format));
    CopiedUntil(find, field, s, 10, 23, format);
    Assoc(s[0..1] + s[1..9] + s[9..10], s[10..23], ReplaceAllFrom(find, field, s, 23, format));
    CopiedUntil(find, field, s, 23, 31, format);
    Assoc(s[0..1] + s[1..9] + s[9..10] + s[10..23], s[23..31], ReplaceAllFrom(find, field, s, 31, format));
    CopiedUntil(find, field, s, 31, 32, format);
    Assoc(s[0..1] + s[1..9] + s[9..10] + s[10..23] + s[23..31], s[31..32], ReplaceAllFrom(find, field, s, 32, format));
    CopiedUntil(find, field, s, 32, 33, format);
    Assoc(s[0..1] + s[1..9] + s[9..10] + s[10..23] + s[23..31] + s[31..32], s[32..33], ReplaceAllFrom(find, field, s, 33, format));
    CatEmpty(s[0..1] + s[1..9] + s[9..10] + s[10..23] + s[23..31] + s[31..32] + s[32..33]);
  }

  /** The unquoted pass for "usedBytes". */
  lemma NestedObjectPass2(s: string, field: string, format: Formatter)
    requires s == "{" + "\"data\": " + "{" + "\"usedBytes\": " + "\"170MiB\"" + "}" + "}"
    requires field == "usedBytes"
    ensures ReplaceAll(Find(Unquoted, field), field, s, format) == "{" + "\"data\": " + "{" + "\"usedBytes\": " + "\"170MiB\"" + "}" + "}"
  {
    NestedObjectText1(s);
    NestedObjectPass2Scan(s, field);
    NestedObjectPass2Trace(Find(Unquoted, field), s, field, format);
    SliceAt(s, 0, 1, "{");
    SliceAt(s, 1, 9, "\"data\": ");
    SliceAt(s, 9, 10, "{");
    SliceAt(s, 10, 23, "\"usedBytes\": ");
    SliceAt(s, 23, 31, "\"170MiB\"");
    SliceAt(s, 31, 32, "}");
    SliceAt(s, 32, 33, "}");
  }

  predicate NestedObjectStage0(s: string) {
    s == "{" + "\"data\": " + "{" + "\"usedBytes\": " + "\"178255984\"" + "}" + "}"
  }

  predicate NestedObjectStage1(s: string) {
    s == "{" + "\"data\": " + "{" + "\"usedBytes\": " + "\"170MiB\"" + "}" + "}"
  }

  lemma NestedObjectField1(s: string) returns (t: string)
    requires NestedObjectStage0(s)
    ensures RewriteField(s, "usedBytes") == t && NestedObjectStage1(t)
  {
    FormatExamples.UsedBytes("178255984");
    NestedObjectPass1(s, "usedBytes", FormatValue);
    NestedObjectPass2("{" + "\"data\": " + "{" + "\"usedBytes\": " + "\"170MiB\"" + "}" + "}", "usedBytes", FormatValue);
    t := "{" + "\"data\": " + "{" + "\"usedBytes\": " + "\"170MiB\"" + "}" + "}";
  }

  lemma NestedObjectInput(s: string)
    requires s == "{\"data\": {\"usedBytes\": \"178255984\"}}"
    ensures NestedObjectStage0(s)
  {
    Peel21();
    Peel20();
    Peel19();
    Peel18();
    Peel17();
    Peel16();
  }

  lemma NestedObjectOutput(s: string)
    requires NestedObjectStage1(s)
    ensures s == "{\"data\": {\"usedBytes\": \"170MiB\"}}"
  {
    Peel24();
    Peel23();
    Peel22();
    Peel18();
    Peel17();
    Peel16();
  }

  /** main_test.go:143-148: a field inside a nested object is rewritten. */
  lemma NestedObject(s: string, fields: seq<string>)
    requires s == "{\"data\": {\"usedBytes\": \"178255984\"}}"
    requires fields == ["usedBytes"]
    ensures RewriteFields(s, fields) == "{\"data\": {\"usedBytes\": \"170MiB\"}}"
  {
    NestedObjectInput(s);
    var m1 := NestedObjectField1(s);
    FieldsOne(s, "usedBytes", m1);
    NestedObjectOutput(m1);
  }

  /** Where each token of the text lies. */
  lemma UnquotedNumberText0(s: string)
    requires s == "{" + "\"usedBytes\": " + "178255984" + "}"
    ensures TextAt(s, 0, "{")
    ensures TextAt(s, 1, "\"usedBytes\": ")
    ensures TextAt(s, 14, "178255984")
    ensures TextAt(s, 23, "}")
  {
    TextAtSelf("{");
    TextAtGrow("{", 0, "{", "\"usedBytes\": ");
    TextAtGrow("{" + "\"usedBytes\": ", 0, "{", "178255984");
    TextAtGrow("{" + "\"usedBytes\": " + "178255984", 0, "{", "}");
    TextAtEnd("{", "\"usedBytes\": ");
    TextAtGrow("{" + "\"usedBytes\": ", 1, "\"usedBytes\": ", "178255984");
    TextAtGrow("{" + "\"usedBytes\": " + "178255984", 1, "\"usedBytes\": ", "}");
    TextAtEnd("{" + "\"usedBytes\": ", "178255984");
    TextAtGrow("{" + "\"usedBytes\": " + "178255984", 14, "178255984", "}");
    TextAtEnd("{" + "\"usedBytes\": " + "178255984", "}");
  }

  /** Where the quoted pattern for "usedBytes" matches in a text with these tokens. */
  lemma UnquotedNumberPass1Scan(s: string, field: string)
    requires |s| == 24 && field == "usedBytes"
    requires TextAt(s, 0, "{")
    requires TextAt(s, 1, "\"usedBytes\": ")
    requires TextAt(s, 14, "178255984")
    requires TextAt(s, 23, "}")
    ensures var find := Find(Quoted, field);
      (forall n :: 0 <= n < 1 ==> find(s, n).None?) &&
      (find(s, 1).None?) &&
      (forall n :: 2 <= n < 14 ==> find(s, n).None?) &&
      (forall n :: 14 <= n < 23 ==> find(s, n).None?) &&
      (forall n :: 23 <= n < 24 ==> find(s, n).None?)
  {
    NoKeyToken1("{", 0, "", field);
    NoKeyIn(s, 0, "{", 0, "", field);
    NoMatchIn(Quoted, field, s, 0, 1);
    KeyToken1("\"usedBytes\": ", field);
    KeyShapeIn(s, 1, "\"usedBytes\": ", field, 11, 13);
    CharAt(s, 14, "178255984", 14);
    NoValueAfterKey(Quoted, field, s, 1, 12, 14);
    NoKeyToken3("\"usedBytes\": ", 1, "", field);
    NoKeyIn(s, 1, "\"usedBytes\": ", 1, "", field);
    NoMatchIn(Quoted, field, s, 2, 14);
    NoKeyToken19("178255984", 0, "", field);
    NoKeyIn(s, 14, "178255984", 0, "", field);
    NoMatchIn(Quoted, field, s, 14, 23);
    NoKeyToken2("}", 0, "", field);
    NoKeyIn(s, 23, "}", 0, "", field);
    NoMatchIn(Quoted, field, s, 23, 24);
  }

  /** A pass of a matcher that answers as the scan above. */
  lemma UnquotedNumberPass1Trace(find: Matcher, s: string, field: string, format: Formatter)
    requires |s| == 24
    requires forall n :: 0 <= n < 1 ==> find(s, n).None?
    requires find(s, 1).None?
    requires forall n :: 2 <= n < 14 ==> find(s, n).None?
    requires forall n :: 14 <= n < 23 ==> find(s, n).None?
    requires forall n :: 23 <= n < 24 ==> find(s, n).None?
    ensures ReplaceAll(find, field, s, format) == s[0..1] + s[1..14] + s[14..23] + s[23..24]
  {
    CopiedUntil(find, field, s, 0, 1, format);
    CopiedUntil(find, field, s, 1, 14, format);
    Assoc(s[0..1], s[1..14], ReplaceAllFrom(find, field, s, 14, format));
    CopiedUntil(find, field, s, 14, 23, format);
    Assoc(s[0..1] + s[1..14], s[14..23], ReplaceAllFrom(find, field, s, 23, format));
    CopiedUntil(find, field, s, 23, 24, format);
    Assoc(s[0..1] + s[1..14] + s[14..23], s[23..24], ReplaceAllFrom(find, field, s, 24, format));
    CatEmpty(s[0..1] + s[1..14] + s[14..23] + s[23..24]);
  }

  /** The quoted pass for "usedBytes". */
  lemma UnquotedNumberPass1(s: string, field: string, format: Formatter)
    requires s == "{" + "\"usedBytes\": " + "178255984" + "}"
    requires field == "usedBytes"
    ensures ReplaceAll(Find(Quoted, field), field, s, format) == "{" + "\"usedBytes\": " + "178255984" + "}"
  {
    UnquotedNumberText0(s);
    UnquotedNumberPass1Scan(s, field);
    UnquotedNumberPass1Trace(Find(Quoted, field), s, field, format);
    SliceAt(s, 0, 1, "{");
    SliceAt(s, 1, 14, "\"usedBytes\": ");
    SliceAt(s, 14, 23, "178255984");
    SliceAt(s, 23, 24, "}");
  }

  /** Where the unquoted pattern for "usedBytes" matches in a text with these tokens. */
  lemma UnquotedNumberPass2Scan(s: string, field: string)
    requires |s| == 24 && field == "usedBytes"
    requires TextAt(s, 0, "{")
    requires TextAt(s, 1, "\"usedBytes\": ")
    requires TextAt(s, 14, "178255984")
    requires TextAt(s, 23, "}")
    ensures var find := Find(Unquoted, field);
      (forall n :: 0 <= n < 1 ==> find(s, n).None?) &&
      (find(s, 1) == Some(Match(24, "178255984", "}")))
  {
    NoKeyToken1("{", 0, "", field);
    NoKeyIn(s, 0, "{", 0, "", field);
    NoMatchIn(Unquoted, field, s, 0, 1);
    KeyToken1("\"usedBytes\": ", field);
    KeyShapeIn(s, 1, "\"usedBytes\": ", field, 11, 13);
    NumberToken1("178255984");
    NumberShapeIn(s, 14, "178255984", 9, 9);
    CharAt(s, 23, "}", 23);
    NumberMatchComplete(field, s, 1, 12, 14, 23, 23, 23);
  }

  /** A pass of a matcher that answers as the scan above. */
  lemma UnquotedNumberPass2Trace(find: Matcher, s: string, field: string, format: Formatter)
    requires |s| == 24
    requires forall n :: 0 <= n < 1 ==> find(s, n).None?
    requires find(s, 1) == Some(Match(24, "178255984", "}"))
    requires format("178255984") == Ok("170MiB")
    ensures ReplaceAll(find, field, s, format) == s[0..1] + ("\"" + field + "\": \"" + "170MiB" + "\"" + "}")
  {
    Reformatted(find, field, s, 0, 1, Match(24, "178255984", "}"), "170MiB", format);
    CatEmpty(s[0..1] + ("\"" + field + "\": \"" + "170MiB" + "\"" + "}"));
  }

  lemma UnquotedNumberPass2Split1(field: string)
    requires field == "usedBytes"
    ensures ("\"" + field + "\": \"" + "170MiB" + "\"" + "}") == "\"usedBytes\": " + "\"170MiB\"" + "}"
  {
  }

  /** The unquoted pass for "usedBytes". */
  lemma UnquotedNumberPass2(s: string, field: string, format: Formatter)
    requires s == "{" + "\"usedBytes\": " + "178255984" + "}"
    requires field == "usedBytes"
    requires format("178255984") == Ok("170MiB")
    ensures ReplaceAll(Find(Unquoted, field), field, s, format) == "{" + "\"usedBytes\": " + "\"170MiB\"" + "}"
  {
    UnquotedNumberText0(s);
    UnquotedNumberPass2Scan(s, field);
    UnquotedNumberPass2Trace(Find(Unquoted, field), s, field, format);
    SliceAt(s, 0, 1, "{");
    UnquotedNumberPass2Split1(field);
    Assoc("{", "\"usedBytes\": " + "\"170MiB\"", "}");
    Assoc("{", "\"usedBytes\": ", "\"170MiB\"");
  }

  /** Where each token of the text lies. */
  lemma UnquotedNumberText1(s: string)
    requires s == "{" + "\"usedBytes\": " + "\"170MiB\"" + "}"
    ensures TextAt(s, 0, "{")
    ensures TextAt(s, 1, "\"usedBytes\": ")
    ensures TextAt(s, 14, "\"170MiB\"")
    ensures TextAt(s, 22, "}")
  {
    TextAtSelf("{");
    TextAtGrow("{", 0, "{", "\"usedBytes\": ");
    TextAtGrow("{" + "\"usedBytes\": ", 0, "{", "\"170MiB\"");
    TextAtGrow("{" + "\"usedBytes\": " + "\"170MiB\"", 0, "{", "}");
    TextAtEnd("{", "\"usedBytes\": ");
    TextAtGrow("{" + "\"usedBytes\": ", 1, "\"usedBytes\": ", "\"170MiB\"");
    TextAtGrow("{" + "\"usedBytes\": " + "\"170MiB\"", 1, "\"usedBytes\": ", "}");
    TextAtEnd("{" + "\"usedBytes\": ", "\"170MiB\"");
    TextAtGrow("{" + "\"usedBytes\": " + "\"170MiB\"", 14, "\"170MiB\"", "}");
    TextAtEnd("{" + "\"usedBytes\": " + "\"170MiB\"", "}");
  }

  predicate UnquotedNumberStage0(s: string) {
    s == "{" + "\"usedBytes\": " + "178255984" + "}"
  }

  predicate UnquotedNumberStage1(s: string) {
    s == "{" + "\"usedBytes\": " + "\"170MiB\"" + "}"
  }

  lemma UnquotedNumberField1(s: string) returns (t: string)
    requires UnquotedNumberStage0(s)
    ensures RewriteField(s, "usedBytes") == t && UnquotedNumberStage1(t)
  {
    FormatExamples.UsedBytes("178255984");
    UnquotedNumberPass1(s, "usedBytes", FormatValue);
    UnquotedNumberPass2("{" + "\"usedBytes\": " + "178255984" + "}", "usedBytes", FormatValue);
    t := "{" + "\"usedBytes\": " + "\"170MiB\"" + "}";
  }

  lemma UnquotedNumberInput(s: string)
    requires s == "{\"usedBytes\": 178255984}"
    ensures UnquotedNumberStage0(s)
  {
    Peel26();
    Peel25();
    Peel1();
  }

  lemma UnquotedNumberOutput(s: string)
    requires UnquotedNumberStage1(s)
    ensures s == "{\"usedBytes\": \"170MiB\"}"
  {
    Peel5();
    Peel4();
    Peel1();
  }

  /** main_test.go:149-154: an unquoted number is rewritten to a quoted string. */
  lemma UnquotedNumber(s: string, fields: seq<string>)
    requires s == "{\"usedBytes\": 178255984}"
    requires fields == ["usedBytes"]
    ensures RewriteFields(s, fields) == "{\"usedBytes\": \"170MiB\"}"
  {
    UnquotedNumberInput(s);
    var m1 := UnquotedNumberField1(s);
    FieldsOne(s, "usedBytes", m1);
    UnquotedNumberOutput(m1);
  }

  /** Where each token of the text lies. */
  lemma FieldNotInListText0(s: string)
    requires s == "{" + "\"otherField\": " + "\"178255984\"" + "}"
    ensures TextAt(s, 0, "{")
    ensures TextAt(s, 1, "\"otherField\": ")
    ensures TextAt(s, 15, "\"178255984\"")
    ensures TextAt(s, 26, "}")
  {
    TextAtSelf("{");
    TextAtGrow("{", 0, "{", "\"otherField\": ");
    TextAtGrow("{" + "\"otherField\": ", 0, "{", "\"178255984\"");
    TextAtGrow("{" + "\"otherField\": " + "\"178255984\"", 0, "{", "}");
    TextAtEnd("{", "\"otherField\": ");
    TextAtGrow("{" + "\"otherField\": ", 1, "\"otherField\": ", "\"178255984\"");
    TextAtGrow("{" + "\"otherField\": " + "\"178255984\"", 1, "\"otherField\": ", "}");
    TextAtEnd("{" + "\"otherField\": ", "\"178255984\"");
    TextAtGrow("{" + "\"otherField\": " + "\"178255984\"", 15, "\"178255984\"", "}");
    TextAtEnd("{" + "\"otherField\": " + "\"178255984\"", "}");
  }

  /** Where the quoted pattern for "usedBytes" matches in a text with these tokens. */
  lemma FieldNotInListPass1Scan(s: string, field: string)
    requires |s| == 27 && field == "usedBytes"
    requires TextAt(s, 0, "{")
    requires TextAt(s, 1, "\"otherField\": ")
    requires TextAt(s, 15, "\"178255984\"")
    requires TextAt(s, 26, "}")
    ensures var find := Find(Quoted, field);
      (forall n :: 0 <= n < 1 ==> find(s, n).None?) &&
      (forall n :: 1 <= n < 15 ==> find(s, n).None?) &&
      (forall n :: 15 <= n < 26 ==> find(s, n).None?) &&
      (forall n :: 26 <= n < 27 ==> find(s, n).None?)
  {
    NoKeyToken1("{", 0, "", field);
    NoKeyIn(s, 0, "{", 0, "", field);
    NoMatchIn(Quoted, field, s, 0, 1);
    NoKeyToken20("\"otherField\": ", 0, "", field);
    NoKeyIn(s, 1, "\"otherField\": ", 0, "", field);
    NoMatchIn(Quoted, field, s, 1, 15);
    NoKeyToken21("\"178255984\"", 0, "}", field);
    NoKeyIn(s, 15, "\"178255984\"", 0, "}", field);
    NoMatchIn(Quoted, field, s, 15, 26);
    NoKeyToken2("}", 0, "", field);
    NoKeyIn(s, 26, "}", 0, "", field);
    NoMatchIn(Quoted, field, s, 26, 27);
  }

  /** A pass of a matcher that answers as the scan above. */
  lemma FieldNotInListTrace(find: Matcher, s: string, field: string, format: Formatter)
    requires |s| == 27
    requires forall n :: 0 <= n < 1 ==> find(s, n).None?
    requires forall n :: 1 <= n < 15 ==> find(s, n).None?
    requires forall n :: 15 <= n < 26 ==> find(s, n).None?
    requires forall n :: 26 <= n < 27 ==> find(s, n).None?
    ensures ReplaceAll(find, field, s, format) == s[0..1] + s[1..15] + s[15..26] + s[26..27]
  {
    CopiedUntil(find, field, s, 0, 1, format);
    CopiedUntil(find, field, s, 1, 15, format);
    Assoc(s[0..1], s[1..15], ReplaceAllFrom(find, field, s, 15, format));
    CopiedUntil(find, field, s, 15, 26, format);
    Assoc(s[0..1] + s[1..15], s[15..26], ReplaceAllFrom(find, field, s, 26, format));
    CopiedUntil(find, field, s, 26, 27, format);
    Assoc(s[0..1] + s[1..15] + s[15..26], s[26..27], ReplaceAllFrom(find, field, s, 27, format));
    CatEmpty(s[0..1] + s[1..15] + s[15..26] + s[26..27]);
  }

  /** The quoted pass for "usedBytes". */
  lemma FieldNotInListPass1(s: string, field: string, format: Formatter)
    requires s == "{" + "\"otherField\": " + "\"178255984\"" + "}"
    requires field == "usedBytes"
    ensures ReplaceAll(Find(Quoted, field), field, s, format) == "{" + "\"otherField\": " + "\"178255984\"" + "}"
  {
    FieldNotInListText0(s);
    FieldNotInListPass1Scan(s, field);
    FieldNotInListTrace(Find(Quoted, field), s, field, format);
    SliceAt(s, 0, 1, "{");
    SliceAt(s, 1, 15, "\"otherField\": ");
    SliceAt(s, 15, 26, "\"178255984\"");
    SliceAt(s, 26, 27, "}");
  }

  /** Where the unquoted pattern for "usedBytes" matches in a text with these tokens. */
  lemma FieldNotInListPass2Scan(s: string, field: string)
    requires |s| == 27 && field == "usedBytes"
    requires TextAt(s, 0, "{")
    requires TextAt(s, 1, "\"otherField\": ")
    requires TextAt(s, 15, "\"178255984\"")
    requires TextAt(s, 26, "}")
    ensures var find := Find(Unquoted, field);
      (forall n :: 0 <= n < 1 ==> find(s, n).None?) &&
      (forall n :: 1 <= n < 15 ==> find(s, n).None?) &&
      (forall n :: 15 <= n < 26 ==> find(s, n).None?) &&
      (forall n :: 26 <= n < 27 ==> find(s, n).None?)
  {
    NoKeyToken1("{", 0, "", field);
    NoKeyIn(s, 0, "{", 0, "", field);
    NoMatchIn(Unquoted, field, s, 0, 1);
    NoKeyToken20("\"otherField\": ", 0, "", field);
    NoKeyIn(s, 1, "\"otherField\": ", 0, "", field);
    NoMatchIn(Unquoted, field, s, 1, 15);
    NoKeyToken21("\"178255984\"", 0, "}", field);
    NoKeyIn(s, 15, "\"178255984\"", 0, "}", field);
    NoMatchIn(Unquoted, field, s, 15, 26);
    NoKeyToken2("}", 0, "", field);
    NoKeyIn(s, 26, "}", 0, "", field);
    NoMatchIn(Unquoted, field, s, 26, 27);
  }

  /** The unquoted pass for "usedBytes". */
  lemma FieldNotInListPass2(s: string, field: string, format: Formatter)
    requires s == "{" + "\"otherField\": " + "\"178255984\"" + "}"
    requires field == "usedBytes"
    ensures ReplaceAll(Find(Unquoted, field), field, s, format) == "{" + "\"otherField\": " + "\"178255984\"" + "}"
  {
    FieldNotInListText0(s);
    FieldNotInListPass2Scan(s, field);
    FieldNotInListTrace(Find(Unquoted, field), s, field, format);
    SliceAt(s, 0, 1, "{");
    SliceAt(s, 1, 15, "\"otherField\": ");
    SliceAt(s, 15, 26, "\"178255984\"");
    SliceAt(s, 26, 27, "}");
  }

  predicate FieldNotInListStage(s: string) {
    s == "{" + "\"otherField\": " + "\"178255984\"" + "}"
  }

  lemma FieldNotInListField1(s: string) returns (t: string)
    requires FieldNotInListStage(s)
    ensures RewriteField(s, "usedBytes") == t && FieldNotInListStage(t)
  {
    FieldNotInListPass1(s, "usedBytes", FormatValue);
    FieldNotInListPass2("{" + "\"otherField\": " + "\"178255984\"" + "}", "usedBytes", FormatValue);
    t := "{" + "\"otherField\": " + "\"178255984\"" + "}";
  }

  lemma FieldNotInListInput(s: string)
    requires s == "{\"otherField\": \"178255984\"}"
    ensures FieldNotInListStage(s)
  {
    Peel29();
    Peel28();
    Peel27();
  }

  lemma FieldNotInListOutput(s: string)
    requires FieldNotInListStage(s)
    ensures s == "{\"otherField\": \"178255984\"}"
  {
    Peel29();
    Peel28();
    Peel27();
  }

  /** main_test.go:155-160: a field that is not listed is left alone. */
  lemma FieldNotInList(s: string, fields: seq<string>)
    requires s == "{\"otherField\": \"178255984\"}"
    requires fields == ["usedBytes"]
    ensures RewriteFields(s, fields) == "{\"otherField\": \"178255984\"}"
  {
    FieldNotInListInput(s);
    var m1 := FieldNotInListField1(s);
    FieldsOne(s, "usedBytes", m1);
    FieldNotInListOutput(m1);
  }

  /** Where each token of the text lies. */
  lemma PreservesOtherFieldsText0(s: string)
    requires s == "{" + "\"usedBytes\": " + "\"178255984\"" + "," + " " + "\"name\": " + "\"test\"" + "," + " " + "\"count\": " + "42" + "}"
    ensures TextAt(s, 0, "{")
    ensures TextAt(s, 1, "\"usedBytes\": ")
    ensures TextAt(s, 14, "\"178255984\"")
    ensures TextAt(s, 25, ",")
    ensures TextAt(s, 26, " ")
    ensures TextAt(s, 27, "\"name\": ")
    ensures TextAt(s, 35, "\"test\"")
    ensures TextAt(s, 41, ",")
    ensures TextAt(s, 42, " ")
    ensures TextAt(s, 43, "\"count\": ")
    ensures TextAt(s, 52, "42")
    ensures TextAt(s, 54, "}")
  {
    TextAtSelf("{");
    TextAtGrow("{", 0, "{", "\"usedBytes\": ");
    TextAtGrow("{" + "\"usedBytes\": ", 0, "{", "\"178255984\"");
    TextAtGrow("{" + "\"usedBytes\": " + "\"178255984\"", 0, "{", ",");
    TextAtGrow("{" + "\"usedBytes\": " + "\"178255984\"" + ",", 0, "{", " ");
    TextAtGrow("{" + "\"usedBytes\": " + "\"178255984\"" + "," + " ", 0, "{", "\"name\": ");
    TextAtGrow("{" + "\"usedBytes\": " + "\"178255984\"" + "," + " " + "\"name\": ", 0, "{", "\"test\"");
    TextAtGrow("{" + "\"usedBytes\": " + "\"178255984\"" + "," + " " + "\"name\": " + "\"test\"", 0, "{", ",");
    TextAtGrow("{" + "\"usedBytes\": " + "\"178255984\"" + "," + " " + "\"name\": " + "\"test\"" + ",", 0, "{", " ");
    TextAtGrow("{" + "\"usedBytes\": " + "\"178255984\"" + "," + " " + "\"name\": " + "\"test\"" + "," + " ", 0, "{", "\"count\": ");
    TextAtGrow("{" + "\"usedBytes\": " + "\"178255984\"" + "," + " " + "\"name\": " + "\"test\"" + "," + " " + "\"count\": ", 0, "{", "42");
    TextAtGrow("{" + "\"usedBytes\": " + "\"178255984\"" + "," + " " + "\"name\": " + "\"test\"" + "," + " " + "\"count\": " + "42", 0, "{", "}");
    TextAtEnd("{", "\"usedBytes\": ");
    TextAtGrow("{" + "\"usedBytes\": ", 1, "\"usedBytes\": ", "\"178255984\"");
    TextAtGrow("{" + "\"usedBytes\": " + "\"178255984\"", 1, "\"usedBytes\": ", ",");
    TextAtGrow("{" + "\"usedBytes\": " + "\"178255984\"" + ",", 1, "\"usedBytes\": ", " ");
    TextAtGrow("{" + "\"usedBytes\": " + "\"178255984\"" + "," + " ", 1, "\"usedBytes\": ", "\"name\": ");
    TextAtGrow("{" + "\"usedBytes\": " + "\"178255984\"" + "," + " " + "\"name\": ", 1, "\"usedBytes\": ", "\"test\"");
    TextAtGrow("{" + "\"usedBytes\": " + "\"178255984\"" + "," + " " + "\"name\": " + "\"test\"", 1, "\"usedBytes\": ", ",");
    TextAtGrow("{" + "\"usedBytes\": " + "\"178255984\"" + "," + " " + "\"name\": " + "\"test\"" + ",", 1, "\"usedBytes\": ", " ");
    TextAtGrow("{" + "\"usedBytes\": " + "\"178255984\"" + "," + " " + "\"name\": " + "\"test\"" + "," + " ", 1, "\"usedBytes\": ", "\"count\": ");
    TextAtGrow("{" + "\"usedBytes\": " + "\"178255984\"" + "," + " " + "\"name\": " + "\"test\"" + "," + " " + "\"count\": ", 1, "\"usedBytes\": ", "42");
    TextAtGrow("{" + "\"usedBytes\": " + "\"178255984\"" + "," + " " + "\"name\": " + "\"test\"" + "," + " " + "\"count\": " + "42", 1, "\"usedBytes\": ", "}");
    TextAtEnd("{" + "\"usedBytes\": ", "\"178255984\"");
    TextAtGrow("{" + "\"usedBytes\": " + "\"178255984\"", 14, "\"178255984\"", ",");
    TextAtGrow("{" + "\"usedBytes\": " + "\"178255984\"" + ",", 14, "\"178255984\"", " ");
    TextAtGrow("{" + "\"usedBytes\": " + "\"178255984\"" + "," + " ", 14, "\"178255984\"", "\"name\": ");
    TextAtGrow("{" + "\"usedBytes\": " + "\"178255984\"" + "," + " " + "\"name\": ", 14, "\"178255984\"", "\"test\"");
    TextAtGrow("{" + "\"usedBytes\": " + "\"178255984\"" + "," + " " + "\"name\": " + "\"test\"", 14, "\"178255984\"", ",");
    TextAtGrow("{" + "\"usedBytes\": " + "\"178255984\"" + "," + " " + "\"name\": " + "\"test\"" + ",", 14, "\"178255984\"", " ");
    TextAtGrow("{" + "\"usedBytes\": " + "\"178255984\"" + "," + " " + "\"name\": " + "\"test\"" + "," + " ", 14, "\"178255984\"", "\"count\": ");
    TextAtGrow("{" + "\"usedBytes\": " + "\"178255984\"" + "," + " " + "\"name\": " + "\"test\"" + "," + " " + "\"count\": ", 14, "\"178255984\"", "42");
    TextAtGrow("{" + "\"usedBytes\": " + "\"178255984\"" + "," + " " + "\"name\": " + "\"test\"" + "," + " " + "\"count\": " + "42", 14, "\"178255984\"", "}");
    TextAtEnd("{" + "\"usedBytes\": " + "\"178255984\"", ",");
    TextAtGrow("{" + "\"usedBytes\": " + "\"178255984\"" + ",", 25, ",", " ");
    TextAtGrow("{" + "\"usedBytes\": " + "\"178255984\"" + "," + " ", 25, ",", "\"name\": ");
    TextAtGrow("{" + "\"usedBytes\": " + "\"178255984\"" + "," + " " + "\"name\": ", 25, ",", "\"test\"");
    TextAtGrow("{" + "\"usedBytes\": " + "\"178255984\"" + "," + " " + "\"name\": " + "\"test\"", 25, ",", ",");
    TextAtGrow("{" + "\"usedBytes\": " + "\"178255984\"" + "," + " " + "\"name\": " + "\"test\"" + ",", 25, ",", " ");
    TextAtGrow("{" + "\"usedBytes\": " + "\"178255984\"" + "," + " " + "\"name\": " + "\"test\"" + "," + " ", 25, ",", "\"count\": ");
    TextAtGrow("{" + "\"usedBytes\": " + "\"178255984\"" + "," + " " + "\"name\": " + "\"test\"" + "," + " " + "\"count\": ", 25, ",", "42");
    TextAtGrow("{" + "\"usedBytes\": " + "\"178255984\"" + "," + " " + "\"name\": " + "\"test\"" + "," + " " + "\"count\": " + "42", 25, ",", "}");
    TextAtEnd("{" + "\"usedBytes\": " + "\"178255984\"" + ",", " ");
    TextAtGrow("{" + "\"usedBytes\": " + "\"178255984\"" + "," + " ", 26, " ", "\"name\": ");
    TextAtGrow("{" + "\"usedBytes\": " + "\"178255984\"" + "," + " " + "\"name\": ", 26, " ", "\"test\"");
    TextAtGrow("{" + "\"usedBytes\": " + "\"178255984\"" + "," + " " + "\"name\": " + "\"test\"", 26, " ", ",");
    TextAtGrow("{" + "\"usedBytes\": " + "\"178255984\"" + "," + " " + "\"name\": " + "\"test\"" + ",", 26, " ", " ");
    TextAtGrow("{" + "\"usedBytes\": " + "\"178255984\"" + "," + " " + "\"name\": " + "\"test\"" + "," + " ", 26, " ", "\"count\": ");
    TextAtGrow("{" + "\"usedBytes\": " + "\"178255984\"" + "," + " " + "\"name\": " + "\"test\"" + "," + " " + "\"count\": ", 26, " ", "42");
    TextAtGrow("{" + "\"usedBytes\": " + "\"178255984\"" + "," + " " + "\"name\": " + "\"test\"" + "," + " " + "\"count\": " + "42", 26, " ", "}");
    TextAtEnd("{" + "\"usedBytes\": " + "\"178255984\"" + "," + " ", "\"name\": ");
    TextAtGrow("{" + "\"usedBytes\": " + "\"178255984\"" + "," + " " + "\"name\": ", 27, "\"name\": ", "\"test\"");
    TextAtGrow("{" + "\"usedBytes\": " + "\"178255984\"" + "," + " " + "\"name\": " + "\"test\"", 27, "\"name\": ", ",");
    TextAtGrow("{" + "\"usedBytes\": " + "\"178255984\"" + "," + " " + "\"name\": " + "\"test\"" + ",", 27, "\"name\": ", " ");
    TextAtGrow("{" + "\"usedBytes\": " + "\"178255984\"" + "," + " " + "\"name\": " + "\"test\"" + "," + " ", 27, "\"name\": ", "\"count\": ");
    TextAtGrow("{" + "\"usedBytes\": " + "\"178255984\"" + "," + " " + "\"name\": " + "\"test\"" + "," + " " + "\"count\": ", 27, "\"name\": ", "42");
    TextAtGrow("{" + "\"usedBytes\": " + "\"178255984\"" + "," + " " + "\"name\": " + "\"test\"" + "," + " " + "\"count\": " + "42", 27, "\"name\": ", "}");
    TextAtEnd("{" + "\"usedBytes\": " + "\"178255984\"" + "," + " " + "\"name\": ", "\"test\"");
    TextAtGrow("{" + "\"usedBytes\": " + "\"178255984\"" + "," + " " + "\"name\": " + "\"test\"", 35, "\"test\"", ",");
    TextAtGrow("{" + "\"usedBytes\": " + "\"178255984\"" + "," + " " + "\"name\": " + "\"test\"" + ",", 35, "\"test\"", " ");
    TextAtGrow("{" + "\"usedBytes\": " + "\"178255984\"" + "," + " " + "\"name\": " + "\"test\"" + "," + " ", 35, "\"test\"", "\"count\": ");
    TextAtGrow("{" + "\"usedBytes\": " + "\"178255984\"" + "," + " " + "\"name\": " + "\"test\"" + "," + " " + "\"count\": ", 35, "\"test\"", "42");
    TextAtGrow("{" + "\"usedBytes\": " + "\"178255984\"" + "," + " " + "\"name\": " + "\"test\"" + "," + " " + "\"count\": " + "42", 35, "\"test\"", "}");
    TextAtEnd("{" + "\"usedBytes\": " + "\"178255984\"" + "," + " " + "\"name\": " + "\"test\"", ",");
    TextAtGrow("{" + "\"usedBytes\": " + "\"178255984\"" + "," + " " + "\"name\": " + "\"test\"" + ",", 41, ",", " ");
    TextAtGrow("{" + "\"usedBytes\": " + "\"178255984\"" + "," + " " + "\"name\": " + "\"test\"" + "," + " ", 41, ",", "\"count\": ");
    TextAtGrow("{" + "\"usedBytes\": " + "\"178255984\"" + "," + " " + "\"name\": " + "\"test\"" + "," + " " + "\"count\": ", 41, ",", "42");
    TextAtGrow("{" + "\"usedBytes\": " + "\"178255984\"" + "," + " " + "\"name\": " + "\"test\"" + "," + " " + "\"count\": " + "42", 41, ",", "}");
    TextAtEnd("{" + "\"usedBytes\": " + "\"178255984\"" + "," + " " + "\"name\": " + "\"test\"" + ",", " ");
    TextAtGrow("{" + "\"usedBytes\": " + "\"178255984\"" + "," + " " + "\"name\": " + "\"test\"" + "," + " ", 42, " ", "\"count\": ");
    TextAtGrow("{" + "\"usedBytes\": " + "\"178255984\"" + "," + " " + "\"name\": " + "\"test\"" + "," + " " + "\"count\": ", 42, " ", "42");
    TextAtGrow("{" + "\"usedBytes\": " + "\"178255984\"" + "," + " " + "\"name\": " + "\"test\"" + "," + " " + "\"count\": " + "42", 42, " ", "}");
    TextAtEnd("{" + "\"usedBytes\": " + "\"178255984\"" + "," + " " + "\"name\": " + "\"test\"" + "," + " ", "\"count\": ");
    TextAtGrow("{" + "\"usedBytes\": " + "\"178255984\"" + "," + " " + "\"name\": " + "\"test\"" + "," + " " + "\"count\": ", 43, "\"count\": ", "42");
    TextAtGrow("{" + "\"usedBytes\": " + "\"178255984\"" + "," + " " + "\"name\": " + "\"test\"" + "," + " " + "\"count\": " + "42", 43, "\"count\": ", "}");
    TextAtEnd("{" + "\"usedBytes\": " + "\"178255984\"" + "," + " " + "\"name\": " + "\"test\"" + "," + " " + "\"count\": ", "42");
    TextAtGrow("{" + "\"usedBytes\": " + "\"178255984\"" + "," + " " + "\"name\": " + "\"test\"" + "," + " " + "\"count\": " + "42", 52, "42", "}");
    TextAtEnd("{" + "\"usedBytes\": " + "\"178255984\"" + "," + " " + "\"name\": " + "\"test\"" + "," + " " + "\"count\": " + "42", "}");
  }

  /** The scan below, from offset 0 on. */
  lemma PreservesOtherFieldsPass1Scan1(s: string, field: string)
    requires |s| == 55 && field == "usedBytes"
    requires TextAt(s, 0, "{")
    requires TextAt(s, 1, "\"usedBytes\": ")
    requires TextAt(s, 14, "\"178255984\"")
    requires TextAt(s, 25, ",")
    requires TextAt(s, 26, " ")
    requires TextAt(s, 27, "\"name\": ")
    requires TextAt(s, 35, "\"test\"")
    requires TextAt(s, 41, ",")
    ensures var find := Find(Quoted, field);
      (forall n :: 0 <= n < 1 ==> find(s, n).None?) &&
      (find(s, 1) == Some(Match(25, "178255984", ""))) &&
      (forall n :: 25 <= n < 26 ==> find(s, n).None?) &&
      (forall n :: 26 <= n < 27 ==> find(s, n).None?) &&
      (forall n :: 27 <= n < 35 ==> find(s, n).None?)
  {
    NoKeyToken1("{", 0, "", field);
    NoKeyIn(s, 0, "{", 0, "", field);
    NoMatchIn(Quoted, field, s, 0, 1);
    KeyToken1("\"usedBytes\": ", field);
    KeyShapeIn(s, 1, "\"usedBytes\": ", field, 11, 13);
    QuotedToken1("\"178255984\"");
    QuotedShapeIn(s, 14, "\"178255984\"", 10);
    QuotedMatchComplete(field, s, 1, 12, 14, 24);
    NoKeyToken5(",", 0, "", field);
    NoKeyIn(s, 25, ",", 0, "", field);
    NoMatchIn(Quoted, field, s, 25, 26);
    NoKeyToken6(" ", 0, "", field);
    NoKeyIn(s, 26, " ", 0, "", field);
    NoMatchIn(Quoted, field, s, 26, 27);
    NoKeyToken22("\"name\": ", 0, "", field);
    NoKeyIn(s, 27, "\"name\": ", 0, "", field);
    NoMatchIn(Quoted, field, s, 27, 35);
  }

  /** The scan below, from offset 35 on. */
  lemma PreservesOtherFieldsPass1Scan2(s: string, field: string)
    requires |s| == 55 && field == "usedBytes"
    requires TextAt(s, 35, "\"test\"")
    requires TextAt(s, 41, ",")
    requires TextAt(s, 42, " ")
    requires TextAt(s, 43, "\"count\": ")
    requires TextAt(s, 52, "42")
    requires TextAt(s, 54, "}")
    ensures var find := Find(Quoted, field);
      (forall n :: 35 <= n < 41 ==> find(s, n).None?) &&
      (forall n :: 41 <= n < 42 ==> find(s, n).None?) &&
      (forall n :: 42 <= n < 43 ==> find(s, n).None?) &&
      (forall n :: 43 <= n < 52 ==> find(s, n).None?) &&
      (forall n :: 52 <= n < 54 ==> find(s, n).None?)
  {
    NoKeyToken23("\"test\"", 0, ",", field);
    NoKeyIn(s, 35, "\"test\"", 0, ",", field);
    NoMatchIn(Quoted, field, s, 35, 41);
    NoKeyToken5(",", 0, "", field);
    NoKeyIn(s, 41, ",", 0, "", field);
    NoMatchIn(Quoted, field, s, 41, 42);
    NoKeyToken6(" ", 0, "", field);
    NoKeyIn(s, 42, " ", 0, "", field);
    NoMatchIn(Quoted, field, s, 42, 43);
    NoKeyToken24("\"count\": ", 0, "", field);
    NoKeyIn(s, 43, "\"count\": ", 0, "", field);
    NoMatchIn(Quoted, field, s, 43, 52);
    NoKeyToken25("42", 0, "", field);
    NoKeyIn(s, 52, "42", 0, "", field);
    NoMatchIn(Quoted, field, s, 52, 54);
  }

  /** The scan below, from offset 54 on. */
  lemma PreservesOtherFieldsPass1Scan3(s: string, field: string)
    requires |s| == 55 && field == "usedBytes"
    requires TextAt(s, 54, "}")
    ensures var find := Find(Quoted, field);
      (forall n :: 54 <= n < 55 ==> find(s, n).None?)
  {
    NoKeyToken2("}", 0, "", field);
    NoKeyIn(s, 54, "}", 0, "", field);
    NoMatchIn(Quoted, field, s, 54, 55);
  }

  /** Where the quoted pattern for "usedBytes" matches in a text with these tokens. */
  lemma PreservesOtherFieldsPass1Scan(s: string, field: string)
    requires |s| == 55 && field == "usedBytes"
    requires TextAt(s, 0, "{")
    requires TextAt(s, 1, "\"usedBytes\": ")
    requires TextAt(s, 14, "\"178255984\"")
    requires TextAt(s, 25, ",")
    requires TextAt(s, 26, " ")
    requires TextAt(s, 27, "\"name\": ")
    requires TextAt(s, 35, "\"test\"")
    requires TextAt(s, 41, ",")
    requires TextAt(s, 42, " ")
    requires TextAt(s, 43, "\"count\": ")
    requires TextAt(s, 52, "42")
    requires TextAt(s, 54, "}")
    ensures var find := Find(Quoted, field);
      (forall n :: 0 <= n < 1 ==> find(s, n).None?) &&
      (find(s, 1) == Some(Match(25, "178255984", ""))) &&
      (forall n :: 25 <= n < 26 ==> find(s, n).None?) &&
      (forall n :: 26 <= n < 27 ==> find(s, n).None?) &&
      (forall n :: 27 <= n < 35 ==> find(s, n).None?) &&
      (forall n :: 35 <= n < 41 ==> find(s, n).None?) &&
      (forall n :: 41 <= n < 42 ==> find(s, n).None?) &&
      (forall n :: 42 <= n < 43 ==> find(s, n).None?) &&
      (forall n :: 43 <= n < 52 ==> find(s, n).None?) &&
      (forall n :: 52 <= n < 54 ==> find(s, n).None?) &&
      (forall n :: 54 <= n < 55 ==> find(s, n).None?)
  {
    PreservesOtherFieldsPass1Scan1(s, field);
    PreservesOtherFieldsPass1Scan2(s, field);
    PreservesOtherFieldsPass1Scan3(s, field);
  }

  /** A pass of a matcher that answers as the scan above. */
  lemma PreservesOtherFieldsPass1Trace(find: Matcher, s: string, field: string, format: Formatter)
    requires |s| == 55
    requires forall n :: 0 <= n < 1 ==> find(s, n).None?
    requires find(s, 1) == Some(Match(25, "178255984", ""))
    requires forall n :: 25 <= n < 26 ==> find(s, n).None?
    requires forall n :: 26 <= n < 27 ==> find(s, n).None?
    requires forall n :: 27 <= n < 35 ==> find(s, n).None?
    requires forall n :: 35 <= n < 41 ==> find(s, n).None?
    requires forall n :: 41 <= n < 42 ==> find(s, n).None?
    requires forall n :: 42 <= n < 43 ==> find(s, n).None?
    requires forall n :: 43 <= n < 52 ==> find(s, n).None?
    requires forall n :: 52 <= n < 54 ==> find(s, n).None?
    requires forall n :: 54 <= n < 55 ==> find(s, n).None?
    requires format("178255984") == Ok("170MiB")
    ensures ReplaceAll(find, field, s, format) == s[0..1] + ("\"" + field + "\": \"" + "170MiB" + "\"" + "") + s[25..26] + s[26..27] + s[27..35] + s[35..41] + s[41..42] + s[42..43] + s[43..52] + s[52..54] + s[54..55]
  {
    Reformatted(find, field, s, 0, 1, Match(25, "178255984", ""), "170MiB", format);
    CopiedUntil(find, field, s, 25, 26, format);
    Assoc(s[0..1] + ("\"" + field + "\": \"" + "170MiB" + "\"" + ""), s[25..26], ReplaceAllFrom(find, field, s, 26, format));
    CopiedUntil(find, field, s, 26, 27, format);
    Assoc(s[0..1] + ("\"" + field + "\": \"" + "170MiB" + "\"" + "") + s[25..26], s[26..27], ReplaceAllFrom(find, field, s, 27, format));
    CopiedUntil(find, field, s, 27, 35, format);
    Assoc(s[0..1] + ("\"" + field + "\": \"" + "170MiB" + "\"" + "") + s[25..26] + s[26..27], s[27..35], ReplaceAllFrom(find, field, s, 35, format));
    CopiedUntil(find, field, s, 35, 41, format);
    Assoc(s[0..1] + ("\"" + field + "\": \"" + "170MiB" + "\"" + "") + s[25..26] + s[26..27] + s[27..35], s[35..41], ReplaceAllFrom(find, field, s, 41, format));
    CopiedUntil(find, field, s, 41, 42, format);
    Assoc(s[0..1] + ("\"" + field + "\": \"" + "170MiB" + "\"" + "") + s[25..26] + s[26..27] + s[27..35] + s[35..41], s[41..42], ReplaceAllFrom(find, field, s, 42, format));
    CopiedUntil(find, field, s, 42, 43, format);
    Assoc(s[0..1] + ("\"" + field + "\": \"" + "170MiB" + "\"" + "") + s[25..26] + s[26..27] + s[27..35] + s[35..41] + s[41..42], s[42..43], ReplaceAllFrom(find, field, s, 43, format));
    CopiedUntil(find, field, s, 43, 52, format);
    Assoc(s[0..1] + ("\"" + field + "\": \"" + "170MiB" + "\"" + "") + s[25..26] + s[26..27] + s[27..35] + s[35..41] + s[41..42] + s[42..43], s[43..52], ReplaceAllFrom(find, field, s, 52, format));
    CopiedUntil(find, field, s, 52, 54, format);
    Assoc(s[0..1] + ("\"" + field + "\": \"" + "170MiB" + "\"" + "") + s[25..26] + s[26..27] + s[27..35] + s[35..41] + s[41..42] + s[42..43] + s[43..52], s[52..54], ReplaceAllFrom(find, field, s, 54, format));
    CopiedUntil(find, field, s, 54, 55, format);
    Assoc(s[0..1] + ("\"" + field + "\": \"" + "170MiB" + "\"" + "") + s[25..26] + s[26..27] + s[27..35] + s[35..41] + s[41..42] + s[42..43] + s[43..52] + s[52..54], s[54..55], ReplaceAllFrom(find, field, s, 55, format));
    CatEmpty(s[0..1] + ("\"" + field + "\": \"" + "170MiB" + "\"" + "") + s[25..26] + s[26..27] + s[27..35] + s[35..41] + s[41..42] + s[42..43] + s[43..52] + s[52..54] + s[54..55]);
  }

  lemma PreservesOtherFieldsPass1Split1(field: string)
    requires field == "usedBytes"
    ensures ("\"" + field + "\": \"" + "170MiB" + "\"" + "") == "\"usedBytes\": " + "\"170MiB\""
  {
  }

  /** The quoted pass for "usedBytes". */
  lemma PreservesOtherFieldsPass1(s: string, field: string, format: Formatter)
    requires s == "{" + "\"usedBytes\": " + "\"178255984\"" + "," + " " + "\"name\": " + "\"test\"" + "," + " " + "\"count\": " + "42" + "}"
    requires field == "usedBytes"
    requires format("178255984") == Ok("170MiB")
    ensures ReplaceAll(Find(Quoted, field), field, s, format) == "{" + "\"usedBytes\": " + "\"170MiB\"" + "," + " " + "\"name\": " + "\"test\"" + "," + " " + "\"count\": " + "42" + "}"
  {
    PreservesOtherFieldsText0(s);
    PreservesOtherFieldsPass1Scan(s, field);
    PreservesOtherFieldsPass1Trace(Find(Quoted, field), s, field, format);
    SliceAt(s, 0, 1, "{");
    SliceAt(s, 25, 26, ",");
    SliceAt(s, 26, 27, " ");
    SliceAt(s, 27, 35, "\"name\": ");
    SliceAt(s, 35, 41, "\"test\"");
    SliceAt(s, 41, 42, ",");
    SliceAt(s, 42, 43, " ");
    SliceAt(s, 43, 52, "\"count\": ");
    SliceAt(s, 52, 54, "42");
    SliceAt(s, 54, 55, "}");
    PreservesOtherFieldsPass1Split1(field);
    Assoc("{", "\"usedBytes\": ", "\"170MiB\"");
  }

  /** Where each token of the text lies. */
  lemma PreservesOtherFieldsText1(s: string)
    requires s == "{" + "\"usedBytes\": " + "\"170MiB\"" + "," + " " + "\"name\": " + "\"test\"" + "," + " " + "\"count\": " + "42" + "}"
    ensures TextAt(s, 0, "{")
    ensures TextAt(s, 1, "\"usedBytes\": ")
    ensures TextAt(s, 14, "\"170MiB\"")
    ensures TextAt(s, 22, ",")
    ensures TextAt(s, 23, " ")
    ensures TextAt(s, 24, "\"name\": ")
    ensures TextAt(s, 32, "\"test\"")
    ensures TextAt(s, 38, ",")
    ensures TextAt(s, 39, " ")
    ensures TextAt(s, 40, "\"count\": ")
    ensures TextAt(s, 49, "42")
    ensures TextAt(s, 51, "}")
  {
    TextAtSelf("{");
    TextAtGrow("{", 0, "{", "\"usedBytes\": ");
    TextAtGrow("{" + "\"usedBytes\": ", 0, "{", "\"170MiB\"");
    TextAtGrow("{" + "\"usedBytes\": " + "\"170MiB\"", 0, "{", ",");
    TextAtGrow("{" + "\"usedBytes\": " + "\"170MiB\"" + ",", 0, "{", " ");
    TextAtGrow("{" + "\"usedBytes\": " + "\"170MiB\"" + "," + " ", 0, "{", "\"name\": ");
    TextAtGrow("{" + "\"usedBytes\": " + "\"170MiB\"" + "," + " " + "\"name\": ", 0, "{", "\"test\"");
    TextAtGrow("{" + "\"usedBytes\": " + "\"170MiB\"" + "," + " " + "\"name\": " + "\"test\"", 0, "{", ",");
    TextAtGrow("{" + "\"usedBytes\": " + "\"170MiB\"" + "," + " " + "\"name\": " + "\"test\"" + ",", 0, "{", " ");
    TextAtGrow("{" + "\"usedBytes\": " + "\"170MiB\"" + "," + " " + "\"name\": " + "\"test\"" + "," + " ", 0, "{", "\"count\": ");
    TextAtGrow("{" + "\"usedBytes\": " + "\"170MiB\"" + "," + " " + "\"name\": " + "\"test\"" + "," + " " + "\"count\": ", 0, "{", "42");
    TextAtGrow("{" + "\"usedBytes\": " + "\"170MiB\"" + "," + " " + "\"name\": " + "\"test\"" + "," + " " + "\"count\": " + "42", 0, "{", "}");
    TextAtEnd("{", "\"usedBytes\": ");
    TextAtGrow("{" + "\"usedBytes\": ", 1, "\"usedBytes\": ", "\"170MiB\"");
    TextAtGrow("{" + "\"usedBytes\": " + "\"170MiB\"", 1, "\"usedBytes\": ", ",");
    TextAtGrow("{" + "\"usedBytes\": " + "\"170MiB\"" + ",", 1, "\"usedBytes\": ", " ");
    TextAtGrow("{" + "\"usedBytes\": " + "\"170MiB\"" + "," + " ", 1, "\"usedBytes\": ", "\"name\": ");
    TextAtGrow("{" + "\"usedBytes\": " + "\"170MiB\"" + "," + " " + "\"name\": ", 1, "\"usedBytes\": ", "\"test\"");
    TextAtGrow("{" + "\"usedBytes\": " + "\"170MiB\"" + "," + " " + "\"name\": " + "\"test\"", 1, "\"usedBytes\": ", ",");
    TextAtGrow("{" + "\"usedBytes\": " + "\"170MiB\"" + "," + " " + "\"name\": " + "\"test\"" + ",", 1, "\"usedBytes\": ", " ");
    TextAtGrow("{" + "\"usedBytes\": " + "\"170MiB\"" + "," + " " + "\"name\": " + "\"test\"" + "," + " ", 1, "\"usedBytes\": ", "\"count\": ");
    TextAtGrow("{" + "\"usedBytes\": " + "\"170MiB\"" + "," + " " + "\"name\": " + "\"test\"" + "," + " " + "\"count\": ", 1, "\"usedBytes\": ", "42");
    TextAtGrow("{" + "\"usedBytes\": " + "\"170MiB\"" + "," + " " + "\"name\": " + "\"test\"" + "," + " " + "\"count\": " + "42", 1, "\"usedBytes\": ", "}");
    TextAtEnd("{" + "\"usedBytes\": ", "\"170MiB\"");
    TextAtGrow("{" + "\"usedBytes\": " + "\"170MiB\"", 14, "\"170MiB\"", ",");
    TextAtGrow("{" + "\"usedBytes\": " + "\"170MiB\"" + ",", 14, "\"170MiB\"", " ");
    TextAtGrow("{" + "\"usedBytes\": " + "\"170MiB\"" + "," + " ", 14, "\"170MiB\"", "\"name\": ");
    TextAtGrow("{" + "\"usedBytes\": " + "\"170MiB\"" + "," + " " + "\"name\": ", 14, "\"170MiB\"", "\"test\"");
    TextAtGrow("{" + "\"usedBytes\": " + "\"170MiB\"" + "," + " " + "\"name\": " + "\"test\"", 14, "\"170MiB\"", ",");
    TextAtGrow("{" + "\"usedBytes\": " + "\"170MiB\"" + "," + " " + "\"name\": " + "\"test\"" + ",", 14, "\"170MiB\"", " ");
    TextAtGrow("{" + "\"usedBytes\": " + "\"170MiB\"" + "," + " " + "\"name\": " + "\"test\"" + "," + " ", 14, "\"170MiB\"", "\"count\": ");
    TextAtGrow("{" + "\"usedBytes\": " + "\"170MiB\"" + "," + " " + "\"name\": " + "\"test\"" + "," + " " + "\"count\": ", 14, "\"170MiB\"", "42");
    TextAtGrow("{" + "\"usedBytes\": " + "\"170MiB\"" + "," + " " + "\"name\": " + "\"test\"" + "," + " " + "\"count\": " + "42", 14, "\"170MiB\"", "}");
    TextAtEnd("{" + "\"usedBytes\": " + "\"170MiB\"", ",");
    TextAtGrow("{" + "\"usedBytes\": " + "\"170MiB\"" + ",", 22, ",", " ");
    TextAtGrow("{" + "\"usedBytes\": " + "\"170MiB\"" + "," + " ", 22, ",", "\"name\": ");
    TextAtGrow("{" + "\"usedBytes\": " + "\"170MiB\"" + "," + " " + "\"name\": ", 22, ",", "\"test\"");
    TextAtGrow("{" + "\"usedBytes\": " + "\"170MiB\"" + "," + " " + "\"name\": " + "\"test\"", 22, ",", ",");
    TextAtGrow("{" + "\"usedBytes\": " + "\"170MiB\"" + "," + " " + "\"name\": " + "\"test\"" + ",", 22, ",", " ");
    TextAtGrow("{" + "\"usedBytes\": " + "\"170MiB\"" + "," + " " + "\"name\": " + "\"test\"" + "," + " ", 22, ",", "\"count\": ");
    TextAtGrow("{" + "\"usedBytes\": " + "\"170MiB\"" + "," + " " + "\"name\": " + "\"test\"" + "," + " " + "\"count\": ", 22, ",", "42");
    TextAtGrow("{" + "\"usedBytes\": " + "\"170MiB\"" + "," + " " + "\"name\": " + "\"test\"" + "," + " " + "\"count\": " + "42", 22, ",", "}");
    TextAtEnd("{" + "\"usedBytes\": " + "\"170MiB\"" + ",", " ");
    TextAtGrow("{" + "\"usedBytes\": " + "\"170MiB\"" + "," + " ", 23, " ", "\"name\": ");
    TextAtGrow("{" + "\"usedBytes\": " + "\"170MiB\"" + "," + " " + "\"name\": ", 23, " ", "\"test\"");
    TextAtGrow("{" + "\"usedBytes\": " + "\"170MiB\"" + "," + " " + "\"name\": " + "\"test\"", 23, " ", ",");
    TextAtGrow("{" + "\"usedBytes\": " + "\"170MiB\"" + "," + " " + "\"name\": " + "\"test\"" + ",", 23, " ", " ");
    TextAtGrow("{" + "\"usedBytes\": " + "\"170MiB\"" + "," + " " + "\"name\": " + "\"test\"" + "," + " ", 23, " ", "\"count\": ");
    TextAtGrow("{" + "\"usedBytes\": " + "\"170MiB\"" + "," + " " + "\"name\": " + "\"test\"" + "," + " " + "\"count\": ", 23, " ", "42");
    TextAtGrow("{" + "\"usedBytes\": " + "\"170MiB\"" + "," + " " + "\"name\": " + "\"test\"" + "," + " " + "\"count\": " + "42", 23, " ", "}");
    TextAtEnd("{" + "\"usedBytes\": " + "\"170MiB\"" + "," + " ", "\"name\": ");
    TextAtGrow("{" + "\"usedBytes\": " + "\"170MiB\"" + "," + " " + "\"name\": ", 24, "\"name\": ", "\"test\"");
    TextAtGrow("{" + "\"usedBytes\": " + "\"170MiB\"" + "," + " " + "\"name\": " + "\"test\"", 24, "\"name\": ", ",");
    TextAtGrow("{" + "\"usedBytes\": " + "\"170MiB\"" + "," + " " + "\"name\": " + "\"test\"" + ",", 24, "\"name\": ", " ");
    TextAtGrow("{" + "\"usedBytes\": " + "\"170MiB\"" + "," + " " + "\"name\": " + "\"test\"" + "," + " ", 24, "\"name\": ", "\"count\": ");
    TextAtGrow("{" + "\"usedBytes\": " + "\"170MiB\"" + "," + " " + "\"name\": " + "\"test\"" + "," + " " + "\"count\": ", 24, "\"name\": ", "42");
    TextAtGrow("{" + "\"usedBytes\": " + "\"170MiB\"" + "," + " " + "\"name\": " + "\"test\"" + "," + " " + "\"count\": " + "42", 24, "\"name\": ", "}");
    TextAtEnd("{" + "\"usedBytes\": " + "\"170MiB\"" + "," + " " + "\"name\": ", "\"test\"");
    TextAtGrow("{" + "\"usedBytes\": " + "\"170MiB\"" + "," + " " + "\"name\": " + "\"test\"", 32, "\"test\"", ",");
    TextAtGrow("{" + "\"usedBytes\": " + "\"170MiB\"" + "," + " " + "\"name\": " + "\"test\"" + ",", 32, "\"test\"", " ");
    TextAtGrow("{" + "\"usedBytes\": " + "\"170MiB\"" + "," + " " + "\"name\": " + "\"test\"" + "," + " ", 32, "\"test\"", "\"count\": ");
    TextAtGrow("{" + "\"usedBytes\": " + "\"170MiB\"" + "," + " " + "\"name\": " + "\"test\"" + "," + " " + "\"count\": ", 32, "\"test\"", "42");
    TextAtGrow("{" + "\"usedBytes\": " + "\"170MiB\"" + "," + " " + "\"name\": " + "\"test\"" + "," + " " + "\"count\": " + "42", 32, "\"test\"", "}");
    TextAtEnd("{" + "\"usedBytes\": " + "\"170MiB\"" + "," + " " + "\"name\": " + "\"test\"", ",");
    TextAtGrow("{" + "\"usedBytes\": " + "\"170MiB\"" + "," + " " + "\"name\": " + "\"test\"" + ",", 38, ",", " ");
    TextAtGrow("{" + "\"usedBytes\": " + "\"170MiB\"" + "," + " " + "\"name\": " + "\"test\"" + "," + " ", 38, ",", "\"count\": ");
    TextAtGrow("{" + "\"usedBytes\": " + "\"170MiB\"" + "," + " " + "\"name\": " + "\"test\"" + "," + " " + "\"count\": ", 38, ",", "42");
    TextAtGrow("{" + "\"usedBytes\": " + "\"170MiB\"" + "," + " " + "\"name\": " + "\"test\"" + "," + " " + "\"count\": " + "42", 38, ",", "}");
    TextAtEnd("{" + "\"usedBytes\": " + "\"170MiB\"" + "," + " " + "\"name\": " + "\"test\"" + ",", " ");
    TextAtGrow("{" + "\"usedBytes\": " + "\"170MiB\"" + "," + " " + "\"name\": " + "\"test\"" + "," + " ", 39, " ", "\"count\": ");
    TextAtGrow("{" + "\"usedBytes\": " + "\"170MiB\"" + "," + " " + "\"name\": " + "\"test\"" + "," + " " + "\"count\": ", 39, " ", "42");
    TextAtGrow("{" + "\"usedBytes\": " + "\"170MiB\"" + "," + " " + "\"name\": " + "\"test\"" + "," + " " + "\"count\": " + "42", 39, " ", "}");
    TextAtEnd("{" + "\"usedBytes\": " + "\"170MiB\"" + "," + " " + "\"name\": " + "\"test\"" + "," + " ", "\"count\": ");
    TextAtGrow("{" + "\"usedBytes\": " + "\"170MiB\"" + "," + " " + "\"name\": " + "\"test\"" + "," + " " + "\"count\": ", 40, "\"count\": ", "42");
    TextAtGrow("{" + "\"usedBytes\": " + "\"170MiB\"" + "," + " " + "\"name\": " + "\"test\"" + "," + " " + "\"count\": " + "42", 40, "\"count\": ", "}");
    TextAtEnd("{" + "\"usedBytes\": " + "\"170MiB\"" + "," + " " + "\"name\": " + "\"test\"" + "," + " " + "\"count\": ", "42");
    TextAtGrow("{" + "\"usedBytes\": " + "\"170MiB\"" + "," + " " + "\"name\": " + "\"test\"" + "," + " " + "\"count\": " + "42", 49, "42", "}");
    TextAtEnd("{" + "\"usedBytes\": " + "\"170MiB\"" + "," + " " + "\"name\": " + "\"test\"" + "," + " " + "\"count\": " + "42", "}");
  }

  /** The scan below, from offset 0 on. */
  lemma PreservesOtherFieldsPass2Scan1(s: string, field: string)
    requires |s| == 52 && field == "usedBytes"
    requires TextAt(s, 0, "{")
    requires TextAt(s, 1, "\"usedBytes\": ")
    requires TextAt(s, 14, "\"170MiB\"")
    requires TextAt(s, 22, ",")
    requires TextAt(s, 23, " ")
    requires TextAt(s, 24, "\"name\": ")
    requires TextAt(s, 32, "\"test\"")
    ensures var find := Find(Unquoted, field);
      (forall n :: 0 <= n < 1 ==> find(s, n).None?) &&
      (find(s, 1).None?) &&
      (forall n :: 2 <= n < 14 ==> find(s, n).None?) &&
      (forall n :: 14 <= n < 22 ==> find(s, n).None?) &&
      (forall n :: 22 <= n < 23 ==> find(s, n).None?) &&
      (forall n :: 23 <= n < 24 ==> find(s, n).None?)
  {
    NoKeyToken1("{", 0, "", field);
    NoKeyIn(s, 0, "{", 0, "", field);
    NoMatchIn(Unquoted, field, s, 0, 1);
    KeyToken1("\"usedBytes\": ", field);
    KeyShapeIn(s, 1, "\"usedBytes\": ", field, 11, 13);
    CharAt(s, 14, "\"170MiB\"", 14);
    NoValueAfterKey(Unquoted, field, s, 1, 12, 14);
    NoKeyToken3("\"usedBytes\": ", 1, "", field);
    NoKeyIn(s, 1, "\"usedBytes\": ", 1, "", field);
    NoMatchIn(Unquoted, field, s, 2, 14);
    NoKeyToken9("\"170MiB\"", 0, ",", field);
    NoKeyIn(s, 14, "\"170MiB\"", 0, ",", field);
    NoMatchIn(Unquoted, field, s, 14, 22);
    NoKeyToken5(",", 0, "", field);
    NoKeyIn(s, 22, ",", 0, "", field);
    NoMatchIn(Unquoted, field, s, 22, 23);
    NoKeyToken6(" ", 0, "", field);
    NoKeyIn(s, 23, " ", 0, "", field);
    NoMatchIn(Unquoted, field, s, 23, 24);
  }

  /** The scan below, from offset 24 on. */
  lemma PreservesOtherFieldsPass2Scan2(s: string, field: string)
    requires |s| == 52 && field == "usedBytes"
    requires TextAt(s, 24, "\"name\": ")
    requires TextAt(s, 32, "\"test\"")
    requires TextAt(s, 38, ",")
    requires TextAt(s, 39, " ")
    requires TextAt(s, 40, "\"count\": ")
    requires TextAt(s, 49, "42")
    requires TextAt(s, 51, "}")
    ensures var find := Find(Unquoted, field);
      (forall n :: 24 <= n < 32 ==> find(s, n).None?) &&
      (forall n :: 32 <= n < 38 ==> find(s, n).None?) &&
      (forall n :: 38 <= n < 39 ==> find(s, n).None?) &&
      (forall n :: 39 <= n < 40 ==> find(s, n).None?) &&
      (forall n :: 40 <= n < 49 ==> find(s, n).None?)
  {
    NoKeyToken22("\"name\": ", 0, "", field);
    NoKeyIn(s, 24, "\"name\": ", 0, "", field);
    NoMatchIn(Unquoted, field, s, 24, 32);
    NoKeyToken23("\"test\"", 0, ",", field);
    NoKeyIn(s, 32, "\"test\"", 0, ",", field);
    NoMatchIn(Unquoted, field, s, 32, 38);
    NoKeyToken5(",", 0, "", field);
    NoKeyIn(s, 38, ",", 0, "", field);
    NoMatchIn(Unquoted, field, s, 38, 39);
    NoKeyToken6(" ", 0, "", field);
    NoKeyIn(s, 39, " ", 0, "", field);
    NoMatchIn(Unquoted, field, s, 39, 40);
    NoKeyToken24("\"count\": ", 0, "", field);
    NoKeyIn(s, 40, "\"count\": ", 0, "", field);
    NoMatchIn(Unquoted, field, s, 40, 49);
  }

  /** The scan below, from offset 49 on. */
  lemma PreservesOtherFieldsPass2Scan3(s: string, field: string)
    requires |s| == 52 && field == "usedBytes"
    requires TextAt(s, 49, "42")
    requires TextAt(s, 51, "}")
    ensures var find := Find(Unquoted, field);
      (forall n :: 49 <= n < 51 ==> find(s, n).None?) &&
      (forall n :: 51 <= n < 52 ==> find(s, n).None?)
  {
    NoKeyToken25("42", 0, "", field);
    NoKeyIn(s, 49, "42", 0, "", field);
    NoMatchIn(Unquoted, field, s, 49, 51);
    NoKeyToken2("}", 0, "", field);
    NoKeyIn(s, 51, "}", 0, "", field);
    NoMatchIn(Unquoted, field, s, 51, 52);
  }

  /** Where the unquoted pattern for "usedBytes" matches in a text with these tokens. */
  lemma PreservesOtherFieldsPass2Scan(s: string, field: string)
    requires |s| == 52 && field == "usedBytes"
    requires TextAt(s, 0, "{")
    requires TextAt(s, 1, "\"usedBytes\": ")
    requires TextAt(s, 14, "\"170MiB\"")
    requires TextAt(s, 22, ",")
    requires TextAt(s, 23, " ")
    requires TextAt(s, 24, "\"name\": ")
    requires TextAt(s, 32, "\"test\"")
    requires TextAt(s, 38, ",")
    requires TextAt(s, 39, " ")
    requires TextAt(s, 40, "\"count\": ")
    requires TextAt(s, 49, "42")
    requires TextAt(s, 51, "}")
    ensures var find := Find(Unquoted, field);
      (forall n :: 0 <= n < 1 ==> find(s, n).None?) &&
      (find(s, 1).None?) &&
      (forall n :: 2 <= n < 14 ==> find(s, n).None?) &&
      (forall n :: 14 <= n < 22 ==> find(s, n).None?) &&
      (forall n :: 22 <= n < 23 ==> find(s, n).None?) &&
      (forall n :: 23 <= n < 24 ==> find(s, n).None?) &&
      (forall n :: 24 <= n < 32 ==> find(s, n).None?) &&
      (forall n :: 32 <= n < 38 ==> find(s, n).None?) &&
      (forall n :: 38 <= n < 39 ==> find(s, n).None?) &&
      (forall n :: 39 <= n < 40 ==> find(s, n).None?) &&
      (forall n :: 40 <= n < 49 ==> find(s, n).None?) &&
      (forall n :: 49 <= n < 51 ==> find(s, n).None?) &&
      (forall n :: 51 <= n < 52 ==> find(s, n).None?)
  {
    PreservesOtherFieldsPass2Scan1(s, field);
    PreservesOtherFieldsPass2Scan2(s, field);
    PreservesOtherFieldsPass2Scan3(s, field);
  }

  /** A pass of a matcher that answers as the scan above. */
  lemma PreservesOtherFieldsPass2Trace(find: Matcher, s: string, field: string, format: Formatter)
    requires |s| == 52
    requires forall n :: 0 <= n < 1 ==> find(s, n).None?
    requires find(s, 1).None?
    requires forall n :: 2 <= n < 14 ==> find(s, n).None?
    requires forall n :: 14 <= n < 22 ==> find(s, n).None?
    requires forall n :: 22 <= n < 23 ==> find(s, n).None?
    requires forall n :: 23 <= n < 24 ==> find(s, n).None?
    requires forall n :: 24 <= n < 32 ==> find(s, n).None?
    requires forall n :: 32 <= n < 38 ==> find(s, n).None?
    requires forall n :: 38 <= n < 39 ==> find(s, n).None?
    requires forall n :: 39 <= n < 40 ==> find(s, n).None?
    requires forall n :: 40 <= n < 49 ==> find(s, n).None?
    requires forall n :: 49 <= n < 51 ==> find(s, n).None?
    requires forall n :: 51 <= n < 52 ==> find(s, n).None?
    ensures ReplaceAll(find, field, s, format) == s[0..1] + s[1..14] + s[14..22] + s[22..23] + s[23..24] + s[24..32] + s[32..38] + s[38..39] + s[39..40] + s[40..49] + s[49..51] + s[51..52]
  {
    CopiedUntil(find, field, s, 0, 1, format);
    CopiedUntil(find, field, s, 1, 14, format);
    Assoc(s[0..1], s[1..14], ReplaceAllFrom(find, field, s, 14, format));
    CopiedUntil(find, field, s, 14, 22, format);
    Assoc(s[0..1] + s[1..14], s[14..22], ReplaceAllFrom(find, field, s, 22, format));
    CopiedUntil(find, field, s, 22, 23, format);
    Assoc(s[0..1] + s[1..14] + s[14..22], s[22..23], ReplaceAllFrom(find, field, s, 23, format));
    CopiedUntil(find, field, s, 23, 24, format);
    Assoc(s[0..1] + s[1..14] + s[14..22] + s[22..23], s[23..24], ReplaceAllFrom(find, field, s, 24, format));
    CopiedUntil(find, field, s, 24, 32, format);
    Assoc(s[0..1] + s[1..14] + s[14..22] + s[22..23] + s[23..24], s[24..32], ReplaceAllFrom(find, field, s, 32, format));
    CopiedUntil(find, field, s, 32, 38, format);
    Assoc(s[0..1] + s[1..14] + s[14..22] + s[22..23] + s[23..24] + s[24..32], s[32..38], ReplaceAllFrom(find, field, s, 38, format));
    CopiedUntil(find, field, s, 38, 39, format);
    Assoc(s[0..1] + s[1..14] + s[14..22] + s[22..23] + s[23..24] + s[24..32] + s[32..38], s[38..39], ReplaceAllFrom(find, field, s, 39, format));
    CopiedUntil(find, field, s, 39, 40, format);
    Assoc(s[0..1] + s[1..14] + s[14..22] + s[22..23] + s[23..24] + s[24..32] + s[32..38] + s[38..39], s[39..40], ReplaceAllFrom(find, field, s, 40, format));
    CopiedUntil(find, field, s, 40, 49, format);
    Assoc(s[0..1] + s[1..14] + s[14..22] + s[22..23] + s[23..24] + s[24..32] + s[32..38] + s[38..39] + s[39..40], s[40..49], ReplaceAllFrom(find, field, s, 49, format));
    CopiedUntil(find, field, s, 49, 51, format);
    Assoc(s[0..1] + s[1..14] + s[14..22] + s[22..23] + s[23..24] + s[24..32] + s[32..38] + s[38..39] + s[39..40] + s[40..49], s[49..51], ReplaceAllFrom(find, field, s, 51, format));
    CopiedUntil(find, field, s, 51, 52, format);
    Assoc(s[0..1] + s[1..14] + s[14..22] + s[22..23] + s[23..24] + s[24..32] + s[32..38] + s[38..39] + s[39..40] + s[40..49] + s[49..51], s[51..52], ReplaceAllFrom(find, field, s, 52, format));
    CatEmpty(s[0..1] + s[1..14] + s[14..22] + s[22..23] + s[23..24] + s[24..32] + s[32..38] + s[38..39] + s[39..40] + s[40..49] + s[49..51] + s[51..52]);
  }

  /** The unquoted pass for "usedBytes". */
  lemma PreservesOtherFieldsPass2(s: string, field: string, format: Formatter)
    requires s == "{" + "\"usedBytes\": " + "\"170MiB\"" + "," + " " + "\"name\": " + "\"test\"" + "," + " " + "\"count\": " + "42" + "}"
    requires field == "usedBytes"
    ensures ReplaceAll(Find(Unquoted, field), field, s, format) == "{" + "\"usedBytes\": " + "\"170MiB\"" + "," + " " + "\"name\": " + "\"test\"" + "," + " " + "\"count\": " + "42" + "}"
  {
    PreservesOtherFieldsText1(s);
    PreservesOtherFieldsPass2Scan(s, field);
    PreservesOtherFieldsPass2Trace(Find(Unquoted, field), s, field, format);
    SliceAt(s, 0, 1, "{");
    SliceAt(s, 1, 14, "\"usedBytes\": ");
    SliceAt(s, 14, 22, "\"170MiB\"");
    SliceAt(s, 22, 23, ",");
    SliceAt(s, 23, 24, " ");
    SliceAt(s, 24, 32, "\"name\": ");
    SliceAt(s, 32, 38, "\"test\"");
    SliceAt(s, 38, 39, ",");
    SliceAt(s, 39, 40, " ");
    SliceAt(s, 40, 49, "\"count\": ");
    SliceAt(s, 49, 51, "42");
    SliceAt(s, 51, 52, "}");
  }

  predicate PreservesOtherFieldsStage0(s: string) {
    s == "{" + "\"usedBytes\": " + "\"178255984\"" + "," + " " + "\"name\": " + "\"test\"" + "," + " " + "\"count\": " + "42" + "}"
  }

  predicate PreservesOtherFieldsStage1(s: string) {
    s == "{" + "\"usedBytes\": " + "\"170MiB\"" + "," + " " + "\"name\": " + "\"test\"" + "," + " " + "\"count\": " + "42" + "}"
  }

  lemma PreservesOtherFieldsField1(s: string) returns (t: string)
    requires PreservesOtherFieldsStage0(s)
    ensures RewriteField(s, "usedBytes") == t && PreservesOtherFieldsStage1(t)
  {
    FormatExamples.UsedBytes("178255984");
    PreservesOtherFieldsPass1(s, "usedBytes", FormatValue);
    PreservesOtherFieldsPass2("{" + "\"usedBytes\": " + "\"170MiB\"" + "," + " " + "\"name\": " + "\"test\"" + "," + " " + "\"count\": " + "42" + "}", "usedBytes", FormatValue);
    t := "{" + "\"usedBytes\": " + "\"170MiB\"" + "," + " " + "\"name\": " + "\"test\"" + "," + " " + "\"count\": " + "42" + "}";
  }

  lemma PreservesOtherFieldsInput(s: string)
    requires s == "{\"usedBytes\": \"178255984\", \"name\": \"test\", \"count\": 42}"
    ensures PreservesOtherFieldsStage0(s)
  {
    Peel36();
    Peel35();
    Peel34();
    Peel33();
    Peel32();
    Peel31();
    Peel30();
    Peel7();
    Peel6();
    Peel2();
    Peel1();
  }

  lemma PreservesOtherFieldsOutput(s: string)
    requires PreservesOtherFieldsStage1(s)
    ensures s == "{\"usedBytes\": \"170MiB\", \"name\": \"test\", \"count\": 42}"
  {
    Peel43();
    Peel42();
    Peel41();
    Peel40();
    Peel39();
    Peel38();
    Peel37();
    Peel12();
    Peel11();
    Peel4();
    Peel1();
  }

  /** main_test.go:161-166: the other fields are copied unchanged. */
  lemma PreservesOtherFields(s: string, fields: seq<string>)
    requires s == "{\"usedBytes\": \"178255984\", \"name\": \"test\", \"count\": 42}"
    requires fields == ["usedBytes"]
    ensures RewriteFields(s, fields) == "{\"usedBytes\": \"170MiB\", \"name\": \"test\", \"count\": 42}"
  {
    PreservesOtherFieldsInput(s);
    var m1 := PreservesOtherFieldsField1(s);
    FieldsOne(s, "usedBytes", m1);
    PreservesOtherFieldsOutput(m1);
  }

  /** Where each token of the text lies. */
  lemma QuantityKiSuffixText0(s: string)
    requires s == "{" + "\"spaceAvailable\": " + "\"12075408Ki\"" + "}"
    ensures TextAt(s, 0, "{")
    ensures TextAt(s, 1, "\"spaceAvailable\": ")
    ensures TextAt(s, 19, "\"12075408Ki\"")
    ensures TextAt(s, 31, "}")
  {
    TextAtSelf("{");
    TextAtGrow("{", 0, "{", "\"spaceAvailable\": ");
    TextAtGrow("{" + "\"spaceAvailable\": ", 0, "{", "\"12075408Ki\"");
    TextAtGrow("{" + "\"spaceAvailable\": " + "\"12075408Ki\"", 0, "{", "}");
    TextAtEnd("{", "\"spaceAvailable\": ");
    TextAtGrow("{" + "\"spaceAvailable\": ", 1, "\"spaceAvailable\": ", "\"12075408Ki\"");
    TextAtGrow("{" + "\"spaceAvailable\": " + "\"12075408Ki\"", 1, "\"spaceAvailable\": ", "}");
    TextAtEnd("{" + "\"spaceAvailable\": ", "\"12075408Ki\"");
    TextAtGrow("{" + "\"spaceAvailable\": " + "\"12075408Ki\"", 19, "\"12075408Ki\"", "}");
    TextAtEnd("{" + "\"spaceAvailable\": " + "\"12075408Ki\"", "}");
  }

  /** Where the quoted pattern for "spaceAvailable" matches in a text with these tokens. */
  lemma QuantityKiSuffixPass1Scan(s: string, field: string)
    requires |s| == 32 && field == "spaceAvailable"
    requires TextAt(s, 0, "{")
    requires TextAt(s, 1, "\"spaceAvailable\": ")
    requires TextAt(s, 19, "\"12075408Ki\"")
    requires TextAt(s, 31, "}")
    ensures var find := Find(Quoted, field);
      (forall n :: 0 <= n < 1 ==> find(s, n).None?) &&
      (find(s, 1) == Some(Match(31, "12075408Ki", ""))) &&
      (forall n :: 31 <= n < 32 ==> find(s, n).None?)
  {
    NoKeyToken26("{", 0, "", field);
    NoKeyIn(s, 0, "{", 0, "", field);
    NoMatchIn(Quoted, field, s, 0, 1);
    KeyToken3("\"spaceAvailable\": ", field);
    KeyShapeIn(s, 1, "\"spaceAvailable\": ", field, 16, 18);
    QuotedToken3("\"12075408Ki\"");
    QuotedShapeIn(s, 19, "\"12075408Ki\"", 11);
    QuotedMatchComplete(field, s, 1, 17, 19, 30);
    NoKeyToken27("}", 0, "", field);
    NoKeyIn(s, 31, "}", 0, "", field);
    NoMatchIn(Quoted, field, s, 31, 32);
  }

  /** A pass of a matcher that answers as the scan above. */
  lemma QuantityKiSuffixPass1Trace(find: Matcher, s: string, field: string, format: Formatter)
    requires |s| == 32
    requires forall n :: 0 <= n < 1 ==> find(s, n).None?
    requires find(s, 1) == Some(Match(31, "12075408Ki", ""))
    requires forall n :: 31 <= n < 32 ==> find(s, n).None?
    requires format("12075408Ki") == Ok("11.5GiB")
    ensures ReplaceAll(find, field, s, format) == s[0..1] + ("\"" + field + "\": \"" + "11.5GiB" + "\"" + "") + s[31..32]
  {
    Reformatted(find, field, s, 0, 1, Match(31, "12075408Ki", ""), "11.5GiB", format);
    CopiedUntil(find, field, s, 31, 32, format);
    Assoc(s[0..1] + ("\"" + field + "\": \"" + "11.5GiB" + "\"" + ""), s[31..32], ReplaceAllFrom(find, field, s, 32, format));
    CatEmpty(s[0..1] + ("\"" + field + "\": \"" + "11.5GiB" + "\"" + "") + s[31..32]);
  }

  lemma QuantityKiSuffixPass1Split1(field: string)
    requires field == "spaceAvailable"
    ensures ("\"" + field + "\": \"" + "11.5GiB" + "\"" + "") == "\"spaceAvailable\": " + "\"11.5GiB\""
  {
  }

  /** The quoted pass for "spaceAvailable". */
  lemma QuantityKiSuffixPass1(s: string, field: string, format: Formatter)
    requires s == "{" + "\"spaceAvailable\": " + "\"12075408Ki\"" + "}"
    requires field == "spaceAvailable"
    requires format("12075408Ki") == Ok("11.5GiB")
    ensures ReplaceAll(Find(Quoted, field), field, s, format) == "{" + "\"spaceAvailable\": " + "\"11.5GiB\"" + "}"
  {
    QuantityKiSuffixText0(s);
    QuantityKiSuffixPass1Scan(s, field);
    QuantityKiSuffixPass1Trace(Find(Quoted, field), s, field, format);
    SliceAt(s, 0, 1, "{");
    SliceAt(s, 31, 32, "}");
    QuantityKiSuffixPass1Split1(field);
    Assoc("{", "\"spaceAvailable\": ", "\"11.5GiB\"");
  }

  /** Where each token of the text lies. */
  lemma QuantityKiSuffixText1(s: string)
    requires s == "{" + "\"spaceAvailable\": " + "\"11.5GiB\"" + "}"
    ensures TextAt(s, 0, "{")
    ensures TextAt(s, 1, "\"spaceAvailable\": ")
    ensures TextAt(s, 19, "\"11.5GiB\"")
    ensures TextAt(s, 28, "}")
  {
    TextAtSelf("{");
    TextAtGrow("{", 0, "{", "\"spaceAvailable\": ");
    TextAtGrow("{" + "\"spaceAvailable\": ", 0, "{", "\"11.5GiB\"");
    TextAtGrow("{" + "\"spaceAvailable\": " + "\"11.5GiB\"", 0, "{", "}");
    TextAtEnd("{", "\"spaceAvailable\": ");
    TextAtGrow("{" + "\"spaceAvailable\": ", 1, "\"spaceAvailable\": ", "\"11.5GiB\"");
    TextAtGrow("{" + "\"spaceAvailable\": " + "\"11.5GiB\"", 1, "\"spaceAvailable\": ", "}");
    TextAtEnd("{" + "\"spaceAvailable\": ", "\"11.5GiB\"");
    TextAtGrow("{" + "\"spaceAvailable\": " + "\"11.5GiB\"", 19, "\"11.5GiB\"", "}");
    TextAtEnd("{" + "\"spaceAvailable\": " + "\"11.5GiB\"", "}");
  }

  /** Where the unquoted pattern for "spaceAvailable" matches in a text with these tokens. */
  lemma QuantityKiSuffixPass2Scan(s: string, field: string)
    requires |s| == 29 && field == "spaceAvailable"
    requires TextAt(s, 0, "{")
    requires TextAt(s, 1, "\"spaceAvailable\": ")
    requires TextAt(s, 19, "\"11.5GiB\"")
    requires TextAt(s, 28, "}")
    ensures var find := Find(Unquoted, field);
      (forall n :: 0 <= n < 1 ==> find(s, n).None?) &&
      (find(s, 1).None?) &&
      (forall n :: 2 <= n < 19 ==> find(s, n).None?) &&
      (forall n :: 19 <= n < 28 ==> find(s, n).None?) &&
      (forall n :: 28 <= n < 29 ==> find(s, n).None?)
  {
    NoKeyToken26("{", 0, "", field);
    NoKeyIn(s, 0, "{", 0, "", field);
    NoMatchIn(Unquoted, field, s, 0, 1);
    KeyToken3("\"spaceAvailable\": ", field);
    KeyShapeIn(s, 1, "\"spaceAvailable\": ", field, 16, 18);
    CharAt(s, 19, "\"11.5GiB\"", 19);
    NoValueAfterKey(Unquoted, field, s, 1, 17, 19);
    NoKeyToken28("\"spaceAvailable\": ", 1, "", field);
    NoKeyIn(s, 1, "\"spaceAvailable\": ", 1, "", field);
    NoMatchIn(Unquoted, field, s, 2, 19);
    NoKeyToken29("\"11.5GiB\"", 0, "}", field);
    NoKeyIn(s, 19, "\"11.5GiB\"", 0, "}", field);
    NoMatchIn(Unquoted, field, s, 19, 28);
    NoKeyToken27("}", 0, "", field);
    NoKeyIn(s, 28, "}", 0, "", field);
    NoMatchIn(Unquoted, field, s, 28, 29);
  }

  /** A pass of a matcher that answers as the scan above. */
  lemma QuantityKiSuffixPass2Trace(find: Matcher, s: string, field: string, format: Formatter)
    requires |s| == 29
    requires forall n :: 0 <= n < 1 ==> find(s, n).None?
    requires find(s, 1).None?
    requires forall n :: 2 <= n < 19 ==> find(s, n).None?
    requires forall n :: 19 <= n < 28 ==> find(s, n).None?
    requires forall n :: 28 <= n < 29 ==> find(s, n).None?
    ensures ReplaceAll(find, field, s, format) == s[0..1] + s[1..19] + s[19..28] + s[28..29]
  {
    CopiedUntil(find, field, s, 0, 1, format);
    CopiedUntil(find, field, s, 1, 19, format);
    Assoc(s[0..1], s[1..19], ReplaceAllFrom(find, field, s, 19, format));
    CopiedUntil(find, field, s, 19, 28, format);
    Assoc(s[0..1] + s[1..19], s[19..28], ReplaceAllFrom(find, field, s, 28, format));
    CopiedUntil(find, field, s, 28, 29, format);
    Assoc(s[0..1] + s[1..19] + s[19..28], s[28..29], ReplaceAllFrom(find, field, s, 29, format));
    CatEmpty(s[0..1] + s[1..19] + s[19..28] + s[28..29]);
  }

  /** The unquoted pass for "spaceAvailable". */
  lemma QuantityKiSuffixPass2(s: string, field: string, format: Formatter)
    requires s == "{" + "\"spaceAvailable\": " + "\"11.5GiB\"" + "}"
    requires field == "spaceAvailable"
    ensures ReplaceAll(Find(Unquoted, field), field, s, format) == "{" + "\"spaceAvailable\": " + "\"11.5GiB\"" + "}"
  {
    QuantityKiSuffixText1(s);
    QuantityKiSuffixPass2Scan(s, field);
    QuantityKiSuffixPass2Trace(Find(Unquoted, field), s, field, format);
    SliceAt(s, 0, 1, "{");
    SliceAt(s, 1, 19, "\"spaceAvailable\": ");
    SliceAt(s, 19, 28, "\"11.5GiB\"");
    SliceAt(s, 28, 29, "}");
  }

  predicate QuantityKiSuffixStage0(s: string) {
    s == "{" + "\"spaceAvailable\": " + "\"12075408Ki\"" + "}"
  }

  predicate QuantityKiSuffixStage1(s: string) {
    s == "{" + "\"spaceAvailable\": " + "\"11.5GiB\"" + "}"
  }

  lemma QuantityKiSuffixField1(s: string) returns (t: string)
    requires QuantityKiSuffixStage0(s)
    ensures RewriteField(s, "spaceAvailable") == t && QuantityKiSuffixStage1(t)
  {
    FormatExamples.SpaceAvailable("12075408Ki");
    QuantityKiSuffixPass1(s, "spaceAvailable", FormatValue);
    QuantityKiSuffixPass2("{" + "\"spaceAvailable\": " + "\"11.5GiB\"" + "}", "spaceAvailable", FormatValue);
    t := "{" + "\"spaceAvailable\": " + "\"11.5GiB\"" + "}";
  }

  lemma QuantityKiSuffixInput(s: string)
    requires s == "{\"spaceAvailable\": \"12075408Ki\"}"
    ensures QuantityKiSuffixStage0(s)
  {
    Peel46();
    Peel45();
    Peel44();
  }

  lemma QuantityKiSuffixOutput(s: string)
    requires QuantityKiSuffixStage1(s)
    ensures s == "{\"spaceAvailable\": \"11.5GiB\"}"
  {
    Peel48();
    Peel47();
    Peel44();
  }

  /** main_test.go:173-178: a Ki quantity is rewritten. */
  lemma QuantityKiSuffix(s: string, fields: seq<string>)
    requires s == "{\"spaceAvailable\": \"12075408Ki\"}"
    requires fields == ["spaceAvailable"]
    ensures RewriteFields(s, fields) == "{\"spaceAvailable\": \"11.5GiB\"}"
  {
    QuantityKiSuffixInput(s);
    var m1 := QuantityKiSuffixField1(s);
    FieldsOne(s, "spaceAvailable", m1);
    QuantityKiSuffixOutput(m1);
  }

  /** Where each token of the text lies. */
  lemma QuantityMiSuffixText0(s: string)
    requires s == "{" + "\"capacity\": " + "\"100Mi\"" + "}"
    ensures TextAt(s, 0, "{")
    ensures TextAt(s, 1, "\"capacity\": ")
    ensures TextAt(s, 13, "\"100Mi\"")
    ensures TextAt(s, 20, "}")
  {
    TextAtSelf("{");
    TextAtGrow("{", 0, "{", "\"capacity\": ");
    TextAtGrow("{" + "\"capacity\": ", 0, "{", "\"100Mi\"");
    TextAtGrow("{" + "\"capacity\": " + "\"100Mi\"", 0, "{", "}");
    TextAtEnd("{", "\"capacity\": ");
    TextAtGrow("{" + "\"capacity\": ", 1, "\"capacity\": ", "\"100Mi\"");
    TextAtGrow("{" + "\"capacity\": " + "\"100Mi\"", 1, "\"capacity\": ", "}");
    TextAtEnd("{" + "\"capacity\": ", "\"100Mi\"");
    TextAtGrow("{" + "\"capacity\": " + "\"100Mi\"", 13, "\"100Mi\"", "}");
    TextAtEnd("{" + "\"capacity\": " + "\"100Mi\"", "}");
  }

  /** Where the quoted pattern for "capacity" matches in a text with these tokens. */
  lemma QuantityMiSuffixPass1Scan(s: string, field: string)
    requires |s| == 21 && field == "capacity"
    requires TextAt(s, 0, "{")
    requires TextAt(s, 1, "\"capacity\": ")
    requires TextAt(s, 13, "\"100Mi\"")
    requires TextAt(s, 20, "}")
    ensures var find := Find(Quoted, field);
      (forall n :: 0 <= n < 1 ==> find(s, n).None?) &&
      (find(s, 1) == Some(Match(20, "100Mi", ""))) &&
      (forall n :: 20 <= n < 21 ==> find(s, n).None?)
  {
    NoKeyToken30("{", 0, "", field);
    NoKeyIn(s, 0, "{", 0, "", field);
    NoMatchIn(Quoted, field, s, 0, 1);
    KeyToken4("\"capacity\": ", field);
    KeyShapeIn(s, 1, "\"capacity\": ", field, 10, 12);
    QuotedToken4("\"100Mi\"");
    QuotedShapeIn(s, 13, "\"100Mi\"", 6);
    QuotedMatchComplete(field, s, 1, 11, 13, 19);
    NoKeyToken31("}", 0, "", field);
    NoKeyIn(s, 20, "}", 0, "", field);
    NoMatchIn(Quoted, field, s, 20, 21);
  }

  /** A pass of a matcher that answers as the scan above. */
  lemma QuantityMiSuffixPass1Trace(find: Matcher, s: string, field: string, format: Formatter)
    requires |s| == 21
    requires forall n :: 0 <= n < 1 ==> find(s, n).None?
    requires find(s, 1) == Some(Match(20, "100Mi", ""))
    requires forall n :: 20 <= n < 21 ==> find(s, n).None?
    requires format("100Mi") == Ok("100MiB")
    ensures ReplaceAll(find, field, s, format) == s[0..1] + ("\"" + field + "\": \"" + "100MiB" + "\"" + "") + s[20..21]
  {
    Reformatted(find, field, s, 0, 1, Match(20, "100Mi", ""), "100MiB", format);
    CopiedUntil(find, field, s, 20, 21, format);
    Assoc(s[0..1] + ("\"" + field + "\": \"" + "100MiB" + "\"" + ""), s[20..21], ReplaceAllFrom(find, field, s, 21, format));
    CatEmpty(s[0..1] + ("\"" + field + "\": \"" + "100MiB" + "\"" + "") + s[20..21]);
  }

  lemma QuantityMiSuffixPass1Split1(field: string)
    requires field == "capacity"
    ensures ("\"" + field + "\": \"" + "100MiB" + "\"" + "") == "\"capacity\": " + "\"100MiB\""
  {
  }

  /** The quoted pass for "capacity". */
  lemma QuantityMiSuffixPass1(s: string, field: string, format: Formatter)
    requires s == "{" + "\"capacity\": " + "\"100Mi\"" + "}"
    requires field == "capacity"
    requires format("100Mi") == Ok("100MiB")
    ensures ReplaceAll(Find(Quoted, field), field, s, format) == "{" + "\"capacity\": " + "\"100MiB\"" + "}"
  {
    QuantityMiSuffixText0(s);
    QuantityMiSuffixPass1Scan(s, field);
    QuantityMiSuffixPass1Trace(Find(Quoted, field), s, field, format);
    SliceAt(s, 0, 1, "{");
    SliceAt(s, 20, 21, "}");
    QuantityMiSuffixPass1Split1(field);
    Assoc("{", "\"capacity\": ", "\"100MiB\"");
  }

  /** Where each token of the text lies. */
  lemma QuantityMiSuffixText1(s: string)
    requires s == "{" + "\"capacity\": " + "\"100MiB\"" + "}"
    ensures TextAt(s, 0, "{")
    ensures TextAt(s, 1, "\"capacity\": ")
    ensures TextAt(s, 13, "\"100MiB\"")
    ensures TextAt(s, 21, "}")
  {
    TextAtSelf("{");
    TextAtGrow("{", 0, "{", "\"capacity\": ");
    TextAtGrow("{" + "\"capacity\": ", 0, "{", "\"100MiB\"");
    TextAtGrow("{" + "\"capacity\": " + "\"100MiB\"", 0, "{", "}");
    TextAtEnd("{", "\"capacity\": ");
    TextAtGrow("{" + "\"capacity\": ", 1, "\"capacity\": ", "\"100MiB\"");
    TextAtGrow("{" + "\"capacity\": " + "\"100MiB\"", 1, "\"capacity\": ", "}");
    TextAtEnd("{" + "\"capacity\": ", "\"100MiB\"");
    TextAtGrow("{" + "\"capacity\": " + "\"100MiB\"", 13, "\"100MiB\"", "}");
    TextAtEnd("{" + "\"capacity\": " + "\"100MiB\"", "}");
  }

  /** Where the unquoted pattern for "capacity" matches in a text with these tokens. */
  lemma QuantityMiSuffixPass2Scan(s: string, field: string)
    requires |s| == 22 && field == "capacity"
    requires TextAt(s, 0, "{")
    requires TextAt(s, 1, "\"capacity\": ")
    requires TextAt(s, 13, "\"100MiB\"")
    requires TextAt(s, 21, "}")
    ensures var find := Find(Unquoted, field);
      (forall n :: 0 <= n < 1 ==> find(s, n).None?) &&
      (find(s, 1).None?) &&
      (forall n :: 2 <= n < 13 ==> find(s, n).None?) &&
      (forall n :: 13 <= n < 21 ==> find(s, n).None?) &&
      (forall n :: 21 <= n < 22 ==> find(s, n).None?)
  {
    NoKeyToken30("{", 0, "", field);
    NoKeyIn(s, 0, "{", 0, "", field);
    NoMatchIn(Unquoted, field, s, 0, 1);
    KeyToken4("\"capacity\": ", field);
    KeyShapeIn(s, 1, "\"capacity\": ", field, 10, 12);
    CharAt(s, 13, "\"100MiB\"", 13);
    NoValueAfterKey(Unquoted, field, s, 1, 11, 13);
    NoKeyToken32("\"capacity\": ", 1, "", field);
    NoKeyIn(s, 1, "\"capacity\": ", 1, "", field);
    NoMatchIn(Unquoted, field, s, 2, 13);
    NoKeyToken33("\"100MiB\"", 0, "}", field);
    NoKeyIn(s, 13, "\"100MiB\"", 0, "}", field);
    NoMatchIn(Unquoted, field, s, 13, 21);
    NoKeyToken31("}", 0, "", field);
    NoKeyIn(s, 21, "}", 0, "", field);
    NoMatchIn(Unquoted, field, s, 21, 22);
  }

  /** A pass of a matcher that answers as the scan above. */
  lemma QuantityMiSuffixPass2Trace(find: Matcher, s: string, field: string, format: Formatter)
    requires |s| == 22
    requires forall n :: 0 <= n < 1 ==> find(s, n).None?
    requires find(s, 1).None?
    requires forall n :: 2 <= n < 13 ==> find(s, n).None?
    requires forall n :: 13 <= n < 21 ==> find(s, n).None?
    requires forall n :: 21 <= n < 22 ==> find(s, n).None?
    ensures ReplaceAll(find, field, s, format) == s[0..1] + s[1..13] + s[13..21] + s[21..22]
  {
    CopiedUntil(find, field, s, 0, 1, format);
    CopiedUntil(find, field, s, 1, 13, format);
    Assoc(s[0..1], s[1..13], ReplaceAllFrom(find, field, s, 13, format));
    CopiedUntil(find, field, s, 13, 21, format);
    Assoc(s[0..1] + s[1..13], s[13..21], ReplaceAllFrom(find, field, s, 21, format));
    CopiedUntil(find, field, s, 21, 22, format);
    Assoc(s[0..1] + s[1..13] + s[13..21], s[21..22], ReplaceAllFrom(find, field, s, 22, format));
    CatEmpty(s[0..1] + s[1..13] + s[13..21] + s[21..22]);
  }

  /** The unquoted pass for "capacity". */
  lemma QuantityMiSuffixPass2(s: string, field: string, format: Formatter)
    requires s == "{" + "\"capacity\": " + "\"100MiB\"" + "}"
    requires field == "capacity"
    ensures ReplaceAll(Find(Unquoted, field), field, s, format) == "{" + "\"capacity\": " + "\"100MiB\"" + "}"
  {
    QuantityMiSuffixText1(s);
    QuantityMiSuffixPass2Scan(s, field);
    QuantityMiSuffixPass2Trace(Find(Unquoted, field), s, field, format);
    SliceAt(s, 0, 1, "{");
    SliceAt(s, 1, 13, "\"capacity\": ");
    SliceAt(s, 13, 21, "\"100MiB\"");
    SliceAt(s, 21, 22, "}");
  }

  predicate QuantityMiSuffixStage0(s: string) {
    s == "{" + "\"capacity\": " + "\"100Mi\"" + "}"
  }

  predicate QuantityMiSuffixStage1(s: string) {
    s == "{" + "\"capacity\": " + "\"100MiB\"" + "}"
  }

  lemma QuantityMiSuffixField1(s: string) returns (t: string)
    requires QuantityMiSuffixStage0(s)
    ensures RewriteField(s, "capacity") == t && QuantityMiSuffixStage1(t)
  {
    FormatExamples.HundredMebibytes("100Mi");
    QuantityMiSuffixPass1(s, "capacity", FormatValue);
    QuantityMiSuffixPass2("{" + "\"capacity\": " + "\"100MiB\"" + "}", "capacity", FormatValue);
    t := "{" + "\"capacity\": " + "\"100MiB\"" + "}";
  }

  lemma QuantityMiSuffixInput(s: string)
    requires s == "{\"capacity\": \"100Mi\"}"
    ensures QuantityMiSuffixStage0(s)
  {
    Peel51();
    Peel50();
    Peel49();
  }

  lemma QuantityMiSuffixOutput(s: string)
    requires QuantityMiSuffixStage1(s)
    ensures s == "{\"capacity\": \"100MiB\"}"
  {
    Peel53();
    Peel52();
    Peel49();
  }

  /** main_test.go:179-184: a Mi quantity is rewritten. */
  lemma QuantityMiSuffix(s: string, fields: seq<string>)
    requires s == "{\"capacity\": \"100Mi\"}"
    requires fields == ["capacity"]
    ensures RewriteFields(s, fields) == "{\"capacity\": \"100MiB\"}"
  {
    QuantityMiSuffixInput(s);
    var m1 := QuantityMiSuffixField1(s);
    FieldsOne(s, "capacity", m1);
    QuantityMiSuffixOutput(m1);
  }

  /** Where each token of the text lies. */
  lemma QuantityGiSuffixText0(s: string)
    requires s == "{" + "\"size\": " + "\"12Gi\"" + "}"
    ensures TextAt(s, 0, "{")
    ensures TextAt(s, 1, "\"size\": ")
    ensures TextAt(s, 9, "\"12Gi\"")
    ensures TextAt(s, 15, "}")
  {
    TextAtSelf("{");
    TextAtGrow("{", 0, "{", "\"size\": ");
    TextAtGrow("{" + "\"size\": ", 0, "{", "\"12Gi\"");
    TextAtGrow("{" + "\"size\": " + "\"12Gi\"", 0, "{", "}");
    TextAtEnd("{", "\"size\": ");
    TextAtGrow("{" + "\"size\": ", 1, "\"size\": ", "\"12Gi\"");
    TextAtGrow("{" + "\"size\": " + "\"12Gi\"", 1, "\"size\": ", "}");
    TextAtEnd("{" + "\"size\": ", "\"12Gi\"");
    TextAtGrow("{" + "\"size\": " + "\"12Gi\"", 9, "\"12Gi\"", "}");
    TextAtEnd("{" + "\"size\": " + "\"12Gi\"", "}");
  }

  /** Where the quoted pattern for "size" matches in a text with these tokens. */
  lemma QuantityGiSuffixPass1Scan(s: string, field: string)
    requires |s| == 16 && field == "size"
    requires TextAt(s, 0, "{")
    requires TextAt(s, 1, "\"size\": ")
    requires TextAt(s, 9, "\"12Gi\"")
    requires TextAt(s, 15, "}")
    ensures var find := Find(Quoted, field);
      (forall n :: 0 <= n < 1 ==> find(s, n).None?) &&
      (find(s, 1) == Some(Match(15, "12Gi", ""))) &&
      (forall n :: 15 <= n < 16 ==> find(s, n).None?)
  {
    NoKeyToken34("{", 0, "", field);
    NoKeyIn(s, 0, "{", 0, "", field);
    NoMatchIn(Quoted, field, s, 0, 1);
    KeyToken5("\"size\": ", field);
    KeyShapeIn(s, 1, "\"size\": ", field, 6, 8);
    QuotedToken5("\"12Gi\"");
    QuotedShapeIn(s, 9, "\"12Gi\"", 5);
    QuotedMatchComplete(field, s, 1, 7, 9, 14);
    NoKeyToken35("}", 0, "", field);
    NoKeyIn(s, 15, "}", 0, "", field);
    NoMatchIn(Quoted, field, s, 15, 16);
  }

  /** A pass of a matcher that answers as the scan above. */
  lemma QuantityGiSuffixPass1Trace(find: Matcher, s: string, field: string, format: Formatter)
    requires |s| == 16
    requires forall n :: 0 <= n < 1 ==> find(s, n).None?
    requires find(s, 1) == Some(Match(15, "12Gi", ""))
    requires forall n :: 15 <= n < 16 ==> find(s, n).None?
    requires format("12Gi") == Ok("12.0GiB")
    ensures ReplaceAll(find, field, s, format) == s[0..1] + ("\"" + field + "\": \"" + "12.0GiB" + "\"" + "") + s[15..16]
  {
    Reformatted(find, field, s, 0, 1, Match(15, "12Gi", ""), "12.0GiB", format);
    CopiedUntil(find, field, s, 15, 16, format);
    Assoc(s[0..1] + ("\"" + field + "\": \"" + "12.0GiB" + "\"" + ""), s[15..16], ReplaceAllFrom(find, field, s, 16, format));
    CatEmpty(s[0..1] + ("\"" + field + "\": \"" + "12.0GiB" + "\"" + "") + s[15..16]);
  }

  lemma QuantityGiSuffixPass1Split1(field: string)
    requires field == "size"
    ensures ("\"" + field + "\": \"" + "12.0GiB" + "\"" + "") == "\"size\": " + "\"12.0GiB\""
  {
  }

  /** The quoted pass for "size". */
  lemma QuantityGiSuffixPass1(s: string, field: string, format: Formatter)
    requires s == "{" + "\"size\": " + "\"12Gi\"" + "}"
    requires field == "size"
    requires format("12Gi") == Ok("12.0GiB")
    ensures ReplaceAll(Find(Quoted, field), field, s, format) == "{" + "\"size\": " + "\"12.0GiB\"" + "}"
  {
    QuantityGiSuffixText0(s);
    QuantityGiSuffixPass1Scan(s, field);
    QuantityGiSuffixPass1Trace(Find(Quoted, field), s, field, format);
    SliceAt(s, 0, 1, "{");
    SliceAt(s, 15, 16, "}");
    QuantityGiSuffixPass1Split1(field);
    Assoc("{", "\"size\": ", "\"12.0GiB\"");
  }

  /** Where each token of the text lies. */
  lemma QuantityGiSuffixText1(s: string)
    requires s == "{" + "\"size\": " + "\"12.0GiB\"" + "}"
    ensures TextAt(s, 0, "{")
    ensures TextAt(s, 1, "\"size\": ")
    ensures TextAt(s, 9, "\"12.0GiB\"")
    ensures TextAt(s, 18, "}")
  {
    TextAtSelf("{");
    TextAtGrow("{", 0, "{", "\"size\": ");
    TextAtGrow("{" + "\"size\": ", 0, "{", "\"12.0GiB\"");
    TextAtGrow("{" + "\"size\": " + "\"12.0GiB\"", 0, "{", "}");
    TextAtEnd("{", "\"size\": ");
    TextAtGrow("{" + "\"size\": ", 1, "\"size\": ", "\"12.0GiB\"");
    TextAtGrow("{" + "\"size\": " + "\"12.0GiB\"", 1, "\"size\": ", "}");
    TextAtEnd("{" + "\"size\": ", "\"12.0GiB\"");
    TextAtGrow("{" + "\"size\": " + "\"12.0GiB\"", 9, "\"12.0GiB\"", "}");
    TextAtEnd("{" + "\"size\": " + "\"12.0GiB\"", "}");
  }

  /** Where the unquoted pattern for "size" matches in a text with these tokens. */
  lemma QuantityGiSuffixPass2Scan(s: string, field: string)
    requires |s| == 19 && field == "size"
    requires TextAt(s, 0, "{")
    requires TextAt(s, 1, "\"size\": ")
    requires TextAt(s, 9, "\"12.0GiB\"")
    requires TextAt(s, 18, "}")
    ensures var find := Find(Unquoted, field);
      (forall n :: 0 <= n < 1 ==> find(s, n).None?) &&
      (find(s, 1).None?) &&
      (forall n :: 2 <= n < 9 ==> find(s, n).None?) &&
      (forall n :: 9 <= n < 18 ==> find(s, n).None?) &&
      (forall n :: 18 <= n < 19 ==> find(s, n).None?)
  {
    NoKeyToken34("{", 0, "", field);
    NoKeyIn(s, 0, "{", 0, "", field);
    NoMatchIn(Unquoted, field, s, 0, 1);
    KeyToken5("\"size\": ", field);
    KeyShapeIn(s, 1, "\"size\": ", field, 6, 8);
    CharAt(s, 9, "\"12.0GiB\"", 9);
    NoValueAfterKey(Unquoted, field, s, 1, 7, 9);
    NoKeyToken36("\"size\": ", 1, "", field);
    NoKeyIn(s, 1, "\"size\": ", 1, "", field);
    NoMatchIn(Unquoted, field, s, 2, 9);
    NoKeyToken37("\"12.0GiB\"", 0, "}", field);
    NoKeyIn(s, 9, "\"12.0GiB\"", 0, "}", field);
    NoMatchIn(Unquoted, field, s, 9, 18);
    NoKeyToken35("}", 0, "", field);
    NoKeyIn(s, 18, "}", 0, "", field);
    NoMatchIn(Unquoted, field, s, 18, 19);
  }

  /** A pass of a matcher that answers as the scan above. */
  lemma QuantityGiSuffixPass2Trace(find: Matcher, s: string, field: string, format: Formatter)
    requires |s| == 19
    requires forall n :: 0 <= n < 1 ==> find(s, n).None?
    requires find(s, 1).None?
    requires forall n :: 2 <= n < 9 ==> find(s, n).None?
    requires forall n :: 9 <= n < 18 ==> find(s, n).None?
    requires forall n :: 18 <= n < 19 ==> find(s, n).None?
    ensures ReplaceAll(find, field, s, format) == s[0..1] + s[1..9] + s[9..18] + s[18..19]
  {
    CopiedUntil(find, field, s, 0, 1, format);
    CopiedUntil(find, field, s, 1, 9, format);
    Assoc(s[0..1], s[1..9], ReplaceAllFrom(find, field, s, 9, format));
    CopiedUntil(find, field, s, 9, 18, format);
    Assoc(s[0..1] + s[1..9], s[9..18], ReplaceAllFrom(find, field, s, 18, format));
    CopiedUntil(find, field, s, 18, 19, format);
    Assoc(s[0..1] + s[1..9] + s[9..18], s[18..19], ReplaceAllFrom(find, field, s, 19, format));
    CatEmpty(s[0..1] + s[1..9] + s[9..18] + s[18..19]);
  }

  /** The unquoted pass for "size". */
  lemma QuantityGiSuffixPass2(s: string, field: string, format: Formatter)
    requires s == "{" + "\"size\": " + "\"12.0GiB\"" + "}"
    requires field == "size"
    ensures ReplaceAll(Find(Unquoted, field), field, s, format) == "{" + "\"size\": " + "\"12.0GiB\"" + "}"
  {
    QuantityGiSuffixText1(s);
    QuantityGiSuffixPass2Scan(s, field);
    QuantityGiSuffixPass2Trace(Find(Unquoted, field), s, field, format);
    SliceAt(s, 0, 1, "{");
    SliceAt(s, 1, 9, "\"size\": ");
    SliceAt(s, 9, 18, "\"12.0GiB\"");
    SliceAt(s, 18, 19, "}");
  }

  predicate QuantityGiSuffixStage0(s: string) {
    s == "{" + "\"size\": " + "\"12Gi\"" + "}"
  }

  predicate QuantityGiSuffixStage1(s: string) {
    s == "{" + "\"size\": " + "\"12.0GiB\"" + "}"
  }

  lemma QuantityGiSuffixField1(s: string) returns (t: string)
    requires QuantityGiSuffixStage0(s)
    ensures RewriteField(s, "size") == t && QuantityGiSuffixStage1(t)
  {
    FormatExamples.TwelveGibibytes("12Gi");
    QuantityGiSuffixPass1(s, "size", FormatValue);
    QuantityGiSuffixPass2("{" + "\"size\": " + "\"12.0GiB\"" + "}", "size", FormatValue);
    t := "{" + "\"size\": " + "\"12.0GiB\"" + "}";
  }

  lemma QuantityGiSuffixInput(s: string)
    requires s == "{\"size\": \"12Gi\"}"
    ensures QuantityGiSuffixStage0(s)
  {
    Peel56();
    Peel55();
    Peel54();
  }

  lemma QuantityGiSuffixOutput(s: string)
    requires QuantityGiSuffixStage1(s)
    ensures s == "{\"size\": \"12.0GiB\"}"
  {
    Peel58();
    Peel57();
    Peel54();
  }

  /** main_test.go:185-190: a Gi quantity is rewritten. */
  lemma QuantityGiSuffix(s: string, fields: seq<string>)
    requires s == "{\"size\": \"12Gi\"}"
    requires fields == ["size"]
    ensures RewriteFields(s, fields) == "{\"size\": \"12.0GiB\"}"
  {
    QuantityGiSuffixInput(s);
    var m1 := QuantityGiSuffixField1(s);
    FieldsOne(s, "size", m1);
    QuantityGiSuffixOutput(m1);
  }

  /** Where each token of the text lies. */
  lemma MixedRawAndSuffixedText0(s: string)
    requires s == "{" + "\"usedBytes\": " + "\"178255984\"" + "," + " " + "\"spaceAvailable\": " + "\"12075408Ki\"" + "}"
    ensures TextAt(s, 0, "{")
    ensures TextAt(s, 1, "\"usedBytes\": ")
    ensures TextAt(s, 14, "\"178255984\"")
    ensures TextAt(s, 25, ",")
    ensures TextAt(s, 26, " ")
    ensures TextAt(s, 27, "\"spaceAvailable\": ")
    ensures TextAt(s, 45, "\"12075408Ki\"")
    ensures TextAt(s, 57, "}")
  {
    TextAtSelf("{");
    TextAtGrow("{", 0, "{", "\"usedBytes\": ");
    TextAtGrow("{" + "\"usedBytes\": ", 0, "{", "\"178255984\"");
    TextAtGrow("{" + "\"usedBytes\": " + "\"178255984\"", 0, "{", ",");
    TextAtGrow("{" + "\"usedBytes\": " + "\"178255984\"" + ",", 0, "{", " ");
    TextAtGrow("{" + "\"usedBytes\": " + "\"178255984\"" + "," + " ", 0, "{", "\"spaceAvailable\": ");
    TextAtGrow("{" + "\"usedBytes\": " + "\"178255984\"" + "," + " " + "\"spaceAvailable\": ", 0, "{", "\"12075408Ki\"");
    TextAtGrow("{" + "\"usedBytes\": " + "\"178255984\"" + "," + " " + "\"spaceAvailable\": " + "\"12075408Ki\"", 0, "{", "}");
    TextAtEnd("{", "\"usedBytes\": ");
    TextAtGrow("{" + "\"usedBytes\": ", 1, "\"usedBytes\": ", "\"178255984\"");
    TextAtGrow("{" + "\"usedBytes\": " + "\"178255984\"", 1, "\"usedBytes\": ", ",");
    TextAtGrow("{" + "\"usedBytes\": " + "\"178255984\"" + ",", 1, "\"usedBytes\": ", " ");
    TextAtGrow("{" + "\"usedBytes\": " + "\"178255984\"" + "," + " ", 1, "\"usedBytes\": ", "\"spaceAvailable\": ");
    TextAtGrow("{" + "\"usedBytes\": " + "\"178255984\"" + "," + " " + "\"spaceAvailable\": ", 1, "\"usedBytes\": ", "\"12075408Ki\"");
    TextAtGrow("{" + "\"usedBytes\": " + "\"178255984\"" + "," + " " + "\"spaceAvailable\": " + "\"12075408Ki\"", 1, "\"usedBytes\": ", "}");
    TextAtEnd("{" + "\"usedBytes\": ", "\"178255984\"");
    TextAtGrow("{" + "\"usedBytes\": " + "\"178255984\"", 14, "\"178255984\"", ",");
    TextAtGrow("{" + "\"usedBytes\": " + "\"178255984\"" + ",", 14, "\"178255984\"", " ");
    TextAtGrow("{" + "\"usedBytes\": " + "\"178255984\"" + "," + " ", 14, "\"178255984\"", "\"spaceAvailable\": ");
    TextAtGrow("{" + "\"usedBytes\": " + "\"178255984\"" + "," + " " + "\"spaceAvailable\": ", 14, "\"178255984\"", "\"12075408Ki\"");
    TextAtGrow("{" + "\"usedBytes\": " + "\"178255984\"" + "," + " " + "\"spaceAvailable\": " + "\"12075408Ki\"", 14, "\"178255984\"", "}");
    TextAtEnd("{" + "\"usedBytes\": " + "\"178255984\"", ",");
    TextAtGrow("{" + "\"usedBytes\": " + "\"178255984\"" + ",", 25, ",", " ");
    TextAtGrow("{" + "\"usedBytes\": " + "\"178255984\"" + "," + " ", 25, ",", "\"spaceAvailable\": ");
    TextAtGrow("{" + "\"usedBytes\": " + "\"178255984\"" + "," + " " + "\"spaceAvailable\": ", 25, ",", "\"12075408Ki\"");
    TextAtGrow("{" + "\"usedBytes\": " + "\"178255984\"" + "," + " " + "\"spaceAvailable\": " + "\"12075408Ki\"", 25, ",", "}");
    TextAtEnd("{" + "\"usedBytes\": " + "\"178255984\"" + ",", " ");
    TextAtGrow("{" + "\"usedBytes\": " + "\"178255984\"" + "," + " ", 26, " ", "\"spaceAvailable\": ");
    TextAtGrow("{" + "\"usedBytes\": " + "\"178255984\"" + "," + " " + "\"spaceAvailable\": ", 26, " ", "\"12075408Ki\"");
    TextAtGrow("{" + "\"usedBytes\": " + "\"178255984\"" + "," + " " + "\"spaceAvailable\": " + "\"12075408Ki\"", 26, " ", "}");
    TextAtEnd("{" + "\"usedBytes\": " + "\"178255984\"" + "," + " ", "\"spaceAvailable\": ");
    TextAtGrow("{" + "\"usedBytes\": " + "\"178255984\"" + "," + " " + "\"spaceAvailable\": ", 27, "\"spaceAvailable\": ", "\"12075408Ki\"");
    TextAtGrow("{" + "\"usedBytes\": " + "\"178255984\"" + "," + " " + "\"spaceAvailable\": " + "\"12075408Ki\"", 27, "\"spaceAvailable\": ", "}");
    TextAtEnd("{" + "\"usedBytes\": " + "\"178255984\"" + "," + " " + "\"spaceAvailable\": ", "\"12075408Ki\"");
    TextAtGrow("{" + "\"usedBytes\": " + "\"178255984\"" + "," + " " + "\"spaceAvailable\": " + "\"12075408Ki\"", 45, "\"12075408Ki\"", "}");
    TextAtEnd("{" + "\"usedBytes\": " + "\"178255984\"" + "," + " " + "\"spaceAvailable\": " + "\"12075408Ki\"", "}");
  }

  /** The scan below, from offset 0 on. */
  lemma MixedRawAndSuffixedPass1Scan1(s: string, field: string)
    requires |s| == 58 && field == "usedBytes"
    requires TextAt(s, 0, "{")
    requires TextAt(s, 1, "\"usedBytes\": ")
    requires TextAt(s, 14, "\"178255984\"")
    requires TextAt(s, 25, ",")
    requires TextAt(s, 26, " ")
    requires TextAt(s, 27, "\"spaceAvailable\": ")
    requires TextAt(s, 45, "\"12075408Ki\"")
    requires TextAt(s, 57, "}")
    ensures var find := Find(Quoted, field);
      (forall n :: 0 <= n < 1 ==> find(s, n).None?) &&
      (find(s, 1) == Some(Match(25, "178255984", ""))) &&
      (forall n :: 25 <= n < 26 ==> find(s, n).None?) &&
      (forall n :: 26 <= n < 27 ==> find(s, n).None?) &&
      (forall n :: 27 <= n < 45 ==> find(s, n).None?)
  {
    NoKeyToken1("{", 0, "", field);
    NoKeyIn(s, 0, "{", 0, "", field);
    NoMatchIn(Quoted, field, s, 0, 1);
    KeyToken1("\"usedBytes\": ", field);
    KeyShapeIn(s, 1, "\"usedBytes\": ", field, 11, 13);
    QuotedToken1("\"178255984\"");
    QuotedShapeIn(s, 14, "\"178255984\"", 10);
    QuotedMatchComplete(field, s, 1, 12, 14, 24);
    NoKeyToken5(",", 0, "", field);
    NoKeyIn(s, 25, ",", 0, "", field);
    NoMatchIn(Quoted, field, s, 25, 26);
    NoKeyToken6(" ", 0, "", field);
    NoKeyIn(s, 26, " ", 0, "", field);
    NoMatchIn(Quoted, field, s, 26, 27);
    NoKeyToken38("\"spaceAvailable\": ", 0, "", field);
    NoKeyIn(s, 27, "\"spaceAvailable\": ", 0, "", field);
    NoMatchIn(Quoted, field, s, 27, 45);
  }

  /** The scan below, from offset 45 on. */
  lemma MixedRawAndSuffixedPass1Scan2(s: string, field: string)
    requires |s| == 58 && field == "usedBytes"
    requires TextAt(s, 45, "\"12075408Ki\"")
    requires TextAt(s, 57, "}")
    ensures var find := Find(Quoted, field);
      (forall n :: 45 <= n < 57 ==> find(s, n).None?) &&
      (forall n :: 57 <= n < 58 ==> find(s, n).None?)
  {
    NoKeyToken39("\"12075408Ki\"", 0, "}", field);
    NoKeyIn(s, 45, "\"12075408Ki\"", 0, "}", field);
    NoMatchIn(Quoted, field, s, 45, 57);
    NoKeyToken2("}", 0, "", field);
    NoKeyIn(s, 57, "}", 0, "", field);
    NoMatchIn(Quoted, field, s, 57, 58);
  }

  /** Where the quoted pattern for "usedBytes" matches in a text with these tokens. */
  lemma MixedRawAndSuffixedPass1Scan(s: string, field: string)
    requires |s| == 58 && field == "usedBytes"
    requires TextAt(s, 0, "{")
    requires TextAt(s, 1, "\"usedBytes\": ")
    requires TextAt(s, 14, "\"178255984\"")
    requires TextAt(s, 25, ",")
    requires TextAt(s, 26, " ")
    requires TextAt(s, 27, "\"spaceAvailable\": ")
    requires TextAt(s, 45, "\"12075408Ki\"")
    requires TextAt(s, 57, "}")
    ensures var find := Find(Quoted, field);
      (forall n :: 0 <= n < 1 ==> find(s, n).None?) &&
      (find(s, 1) == Some(Match(25, "178255984", ""))) &&
      (forall n :: 25 <= n < 26 ==> find(s, n).None?) &&
      (forall n :: 26 <= n < 27 ==> find(s, n).None?) &&
      (forall n :: 27 <= n < 45 ==> find(s, n).None?) &&
      (forall n :: 45 <= n < 57 ==> find(s, n).None?) &&
      (forall n :: 57 <= n < 58 ==> find(s, n).None?)
  {
    MixedRawAndSuffixedPass1Scan1(s, field);
    MixedRawAndSuffixedPass1Scan2(s, field);
  }

  /** A pass of a matcher that answers as the scan above. */
  lemma MixedRawAndSuffixedPass1Trace(find: Matcher, s: string, field: string, format: Formatter)
    requires |s| == 58
    requires forall n :: 0 <= n < 1 ==> find(s, n).None?
    requires find(s, 1) == Some(Match(25, "178255984", ""))
    requires forall n :: 25 <= n < 26 ==> find(s, n).None?
    requires forall n :: 26 <= n < 27 ==> find(s, n).None?
    requires forall n :: 27 <= n < 45 ==> find(s, n).None?
    requires forall n :: 45 <= n < 57 ==> find(s, n).None?
    requires forall n :: 57 <= n < 58 ==> find(s, n).None?
    requires format("178255984") == Ok("170MiB")
    ensures ReplaceAll(find, field, s, format) == s[0..1] + ("\"" + field + "\": \"" + "170MiB" + "\"" + "") + s[25..26] + s[26..27] + s[27..45] + s[45..57] + s[57..58]
  {
    Reformatted(find, field, s, 0, 1, Match(25, "178255984", ""), "170MiB", format);
    CopiedUntil(find, field, s, 25, 26, format);
    Assoc(s[0..1] + ("\"" + field + "\": \"" + "170MiB" + "\"" + ""), s[25..26], ReplaceAllFrom(find, field, s, 26, format));
    CopiedUntil(find, field, s, 26, 27, format);
    Assoc(s[0..1] + ("\"" + field + "\": \"" + "170MiB" + "\"" + "") + s[25..26], s[26..27], ReplaceAllFrom(find, field, s, 27, format));
    CopiedUntil(find, field, s, 27, 45, format);
    Assoc(s[0..1] + ("\"" + field + "\": \"" + "170MiB" + "\"" + "") + s[25..26] + s[26..27], s[27..45], ReplaceAllFrom(find, field, s, 45, format));
    CopiedUntil(find, field, s, 45, 57, format);
    Assoc(s[0..1] + ("\"" + field + "\": \"" + "170MiB" + "\"" + "") + s[25..26] + s[26..27] + s[27..45], s[45..57], ReplaceAllFrom(find, field, s, 57, format));
    CopiedUntil(find, field, s, 57, 58, format);
    Assoc(s[0..1] + ("\"" + field + "\": \"" + "170MiB" + "\"" + "") + s[25..26] + s[26..27] + s[27..45] + s[45..57], s[57..58], ReplaceAllFrom(find, field, s, 58, format));
    CatEmpty(s[0..1] + ("\"" + field + "\": \"" + "170MiB" + "\"" + "") + s[25..26] + s[26..27] + s[27..45] + s[45..57] + s[57..58]);
  }

  lemma MixedRawAndSuffixedPass1Split1(field: string)
    requires field == "usedBytes"
    ensures ("\"" + field + "\": \"" + "170MiB" + "\"" + "") == "\"usedBytes\": " + "\"170MiB\""
  {
  }

  /** The quoted pass for "usedBytes". */
  lemma MixedRawAndSuffixedPass1(s: string, field: string, format: Formatter)
    requires s == "{" + "\"usedBytes\": " + "\"178255984\"" + "," + " " + "\"spaceAvailable\": " + "\"12075408Ki\"" + "}"
    requires field == "usedBytes"
    requires format("178255984") == Ok("170MiB")
    ensures ReplaceAll(Find(Quoted, field), field, s, format) == "{" + "\"usedBytes\": " + "\"170MiB\"" + "," + " " + "\"spaceAvailable\": " + "\"12075408Ki\"" + "}"
  {
    MixedRawAndSuffixedText0(s);
    MixedRawAndSuffixedPass1Scan(s, field);
    MixedRawAndSuffixedPass1Trace(Find(Quoted, field), s, field, format);
    SliceAt(s, 0, 1, "{");
    SliceAt(s, 25, 26, ",");
    SliceAt(s, 26, 27, " ");
    SliceAt(s, 27, 45, "\"spaceAvailable\": ");
    SliceAt(s, 45, 57, "\"12075408Ki\"");
    SliceAt(s, 57, 58, "}");
    MixedRawAndSuffixedPass1Split1(field);
    Assoc("{", "\"usedBytes\": ", "\"170MiB\"");
  }

  /** Where each token of the text lies. */
  lemma MixedRawAndSuffixedText1(s: string)
    requires s == "{" + "\"usedBytes\": " + "\"170MiB\"" + "," + " " + "\"spaceAvailable\": " + "\"12075408Ki\"" + "}"
    ensures TextAt(s, 0, "{")
    ensures TextAt(s, 1, "\"usedBytes\": ")
    ensures TextAt(s, 14, "\"170MiB\"")
    ensures TextAt(s, 22, ",")
    ensures TextAt(s, 23, " ")
    ensures TextAt(s, 24, "\"spaceAvailable\": ")
    ensures TextAt(s, 42, "\"12075408Ki\"")
    ensures TextAt(s, 54, "}")
  {
    TextAtSelf("{");
    TextAtGrow("{", 0, "{", "\"usedBytes\": ");
    TextAtGrow("{" + "\"usedBytes\": ", 0, "{", "\"170MiB\"");
    TextAtGrow("{" + "\"usedBytes\": " + "\"170MiB\"", 0, "{", ",");
    TextAtGrow("{" + "\"usedBytes\": " + "\"170MiB\"" + ",", 0, "{", " ");
    TextAtGrow("{" + "\"usedBytes\": " + "\"170MiB\"" + "," + " ", 0, "{", "\"spaceAvailable\": ");
    TextAtGrow("{" + "\"usedBytes\": " + "\"170MiB\"" + "," + " " + "\"spaceAvailable\": ", 0, "{", "\"12075408Ki\"");
    TextAtGrow("{" + "\"usedBytes\": " + "\"170MiB\"" + "," + " " + "\"spaceAvailable\": " + "\"12075408Ki\"", 0, "{", "}");
    TextAtEnd("{", "\"usedBytes\": ");
    TextAtGrow("{" + "\"usedBytes\": ", 1, "\"usedBytes\": ", "\"170MiB\"");
    TextAtGrow("{" + "\"usedBytes\": " + "\"170MiB\"", 1, "\"usedBytes\": ", ",");
    TextAtGrow("{" + "\"usedBytes\": " + "\"170MiB\"" + ",", 1, "\"usedBytes\": ", " ");
    TextAtGrow("{" + "\"usedBytes\": " + "\"170MiB\"" + "," + " ", 1, "\"usedBytes\": ", "\"spaceAvailable\": ");
    TextAtGrow("{" + "\"usedBytes\": " + "\"170MiB\"" + "," + " " + "\"spaceAvailable\": ", 1, "\"usedBytes\": ", "\"12075408Ki\"");
    TextAtGrow("{" + "\"usedBytes\": " + "\"170MiB\"" + "," + " " + "\"spaceAvailable\": " + "\"12075408Ki\"", 1, "\"usedBytes\": ", "}");
    TextAtEnd("{" + "\"usedBytes\": ", "\"170MiB\"");
    TextAtGrow("{" + "\"usedBytes\": " + "\"170MiB\"", 14, "\"170MiB\"", ",");
    TextAtGrow("{" + "\"usedBytes\": " + "\"170MiB\"" + ",", 14, "\"170MiB\"", " ");
    TextAtGrow("{" + "\"usedBytes\": " + "\"170MiB\"" + "," + " ", 14, "\"170MiB\"", "\"spaceAvailable\": ");
    TextAtGrow("{" + "\"usedBytes\": " + "\"170MiB\"" + "," + " " + "\"spaceAvailable\": ", 14, "\"170MiB\"", "\"12075408Ki\"");
    TextAtGrow("{" + "\"usedBytes\": " + "\"170MiB\"" + "," + " " + "\"spaceAvailable\": " + "\"12075408Ki\"", 14, "\"170MiB\"", "}");
    TextAtEnd("{" + "\"usedBytes\": " + "\"170MiB\"", ",");
    TextAtGrow("{" + "\"usedBytes\": " + "\"170MiB\"" + ",", 22, ",", " ");
    TextAtGrow("{" + "\"usedBytes\": " + "\"170MiB\"" + "," + " ", 22, ",", "\"spaceAvailable\": ");
    TextAtGrow("{" + "\"usedBytes\": " + "\"170MiB\"" + "," + " " + "\"spaceAvailable\": ", 22, ",", "\"12075408Ki\"");
    TextAtGrow("{" + "\"usedBytes\": " + "\"170MiB\"" + "," + " " + "\"spaceAvailable\": " + "\"12075408Ki\"", 22, ",", "}");
    TextAtEnd("{" + "\"usedBytes\": " + "\"170MiB\"" + ",", " ");
    TextAtGrow("{" + "\"usedBytes\": " + "\"170MiB\"" + "," + " ", 23, " ", "\"spaceAvailable\": ");
    TextAtGrow("{" + "\"usedBytes\": " + "\"170MiB\"" + "," + " " + "\"spaceAvailable\": ", 23, " ", "\"12075408Ki\"");
    TextAtGrow("{" + "\"usedBytes\": " + "\"170MiB\"" + "," + " " + "\"spaceAvailable\": " + "\"12075408Ki\"", 23, " ", "}");
    TextAtEnd("{" + "\"usedBytes\": " + "\"170MiB\"" + "," + " ", "\"spaceAvailable\": ");
    TextAtGrow("{" + "\"usedBytes\": " + "\"170MiB\"" + "," + " " + "\"spaceAvailable\": ", 24, "\"spaceAvailable\": ", "\"12075408Ki\"");
    TextAtGrow("{" + "\"usedBytes\": " + "\"170MiB\"" + "," + " " + "\"spaceAvailable\": " + "\"12075408Ki\"", 24, "\"spaceAvailable\": ", "}");
    TextAtEnd("{" + "\"usedBytes\": " + "\"170MiB\"" + "," + " " + "\"spaceAvailable\": ", "\"12075408Ki\"");
    TextAtGrow("{" + "\"usedBytes\": " + "\"170MiB\"" + "," + " " + "\"spaceAvailable\": " + "\"12075408Ki\"", 42, "\"12075408Ki\"", "}");
    TextAtEnd("{" + "\"usedBytes\": " + "\"170MiB\"" + "," + " " + "\"spaceAvailable\": " + "\"12075408Ki\"", "}");
  }

  /** The scan below, from offset 0 on. */
  lemma MixedRawAndSuffixedPass2Scan1(s: string, field: string)
    requires |s| == 55 && field == "usedBytes"
    requires TextAt(s, 0, "{")
    requires TextAt(s, 1, "\"usedBytes\": ")
    requires TextAt(s, 14, "\"170MiB\"")
    requires TextAt(s, 22, ",")
    requires TextAt(s, 23, " ")
    requires TextAt(s, 24, "\"spaceAvailable\": ")
    requires TextAt(s, 42, "\"12075408Ki\"")
    ensures var find := Find(Unquoted, field);
      (forall n :: 0 <= n < 1 ==> find(s, n).None?) &&
      (find(s, 1).None?) &&
      (forall n :: 2 <= n < 14 ==> find(s, n).None?) &&
      (forall n :: 14 <= n < 22 ==> find(s, n).None?) &&
      (forall n :: 22 <= n < 23 ==> find(s, n).None?) &&
      (forall n :: 23 <= n < 24 ==> find(s, n).None?)
  {
    NoKeyToken1("{", 0, "", field);
    NoKeyIn(s, 0, "{", 0, "", field);
    NoMatchIn(Unquoted, field, s, 0, 1);
    KeyToken1("\"usedBytes\": ", field);
    KeyShapeIn(s, 1, "\"usedBytes\": ", field, 11, 13);
    CharAt(s, 14, "\"170MiB\"", 14);
    NoValueAfterKey(Unquoted, field, s, 1, 12, 14);
    NoKeyToken3("\"usedBytes\": ", 1, "", field);
    NoKeyIn(s, 1, "\"usedBytes\": ", 1, "", field);
    NoMatchIn(Unquoted, field, s, 2, 14);
    NoKeyToken9("\"170MiB\"", 0, ",", field);
    NoKeyIn(s, 14, "\"170MiB\"", 0, ",", field);
    NoMatchIn(Unquoted, field, s, 14, 22);
    NoKeyToken5(",", 0, "", field);
    NoKeyIn(s, 22, ",", 0, "", field);
    NoMatchIn(Unquoted, field, s, 22, 23);
    NoKeyToken6(" ", 0, "", field);
    NoKeyIn(s, 23, " ", 0, "", field);
    NoMatchIn(Unquoted, field, s, 23, 24);
  }

  /** The scan below, from offset 24 on. */
  lemma MixedRawAndSuffixedPass2Scan2(s: string, field: string)
    requires |s| == 55 && field == "usedBytes"
    requires TextAt(s, 24, "\"spaceAvailable\": ")
    requires TextAt(s, 42, "\"12075408Ki\"")
    requires TextAt(s, 54, "}")
    ensures var find := Find(Unquoted, field);
      (forall n :: 24 <= n < 42 ==> find(s, n).None?) &&
      (forall n :: 42 <= n < 54 ==> find(s, n).None?) &&
      (forall n :: 54 <= n < 55 ==> find(s, n).None?)
  {
    NoKeyToken38("\"spaceAvailable\": ", 0, "", field);
    NoKeyIn(s, 24, "\"spaceAvailable\": ", 0, "", field);
    NoMatchIn(Unquoted, field, s, 24, 42);
    NoKeyToken39("\"12075408Ki\"", 0, "}", field);
    NoKeyIn(s, 42, "\"12075408Ki\"", 0, "}", field);
    NoMatchIn(Unquoted, field, s, 42, 54);
    NoKeyToken2("}", 0, "", field);
    NoKeyIn(s, 54, "}", 0, "", field);
    NoMatchIn(Unquoted, field, s, 54, 55);
  }

  /** Where the unquoted pattern for "usedBytes" matches in a text with these tokens. */
  lemma MixedRawAndSuffixedPass2Scan(s: string, field: string)
    requires |s| == 55 && field == "usedBytes"
    requires TextAt(s, 0, "{")
    requires TextAt(s, 1, "\"usedBytes\": ")
    requires TextAt(s, 14, "\"170MiB\"")
    requires TextAt(s, 22, ",")
    requires TextAt(s, 23, " ")
    requires TextAt(s, 24, "\"spaceAvailable\": ")
    requires TextAt(s, 42, "\"12075408Ki\"")
    requires TextAt(s, 54, "}")
    ensures var find := Find(Unquoted, field);
      (forall n :: 0 <= n < 1 ==> find(s, n).None?) &&
      (find(s, 1).None?) &&
      (forall n :: 2 <= n < 14 ==> find(s, n).None?) &&
      (forall n :: 14 <= n < 22 ==> find(s, n).None?) &&
      (forall n :: 22 <= n < 23 ==> find(s, n).None?) &&
      (forall n :: 23 <= n < 24 ==> find(s, n).None?) &&
      (forall n :: 24 <= n < 42 ==> find(s, n).None?) &&
      (forall n :: 42 <= n < 54 ==> find(s, n).None?) &&
      (forall n :: 54 <= n < 55 ==> find(s, n).None?)
  {
    MixedRawAndSuffixedPass2Scan1(s, field);
    MixedRawAndSuffixedPass2Scan2(s, field);
  }

  /** A pass of a matcher that answers as the scan above. */
  lemma MixedRawAndSuffixedPass2Trace(find: Matcher, s: string, field: string, format: Formatter)
    requires |s| == 55
    requires forall n :: 0 <= n < 1 ==> find(s, n).None?
    requires find(s, 1).None?
    requires forall n :: 2 <= n < 14 ==> find(s, n).None?
    requires forall n :: 14 <= n < 22 ==> find(s, n).None?
    requires forall n :: 22 <= n < 23 ==> find(s, n).None?
    requires forall n :: 23 <= n < 24 ==> find(s, n).None?
    requires forall n :: 24 <= n < 42 ==> find(s, n).None?
    requires forall n :: 42 <= n < 54 ==> find(s, n).None?
    requires forall n :: 54 <= n < 55 ==> find(s, n).None?
    ensures ReplaceAll(find, field, s, format) == s[0..1] + s[1..14] + s[14..22] + s[22..23] + s[23..24] + s[24..42] + s[42..54] + s[54..55]
  {
    CopiedUntil(find, field, s, 0, 1, format);
    CopiedUntil(find, field, s, 1, 14, format);
    Assoc(s[0..1], s[1..14], ReplaceAllFrom(find, field, s, 14, format));
    CopiedUntil(find, field, s, 14, 22, format);
    Assoc(s[0..1] + s[1..14], s[14..22], ReplaceAllFrom(find, field, s, 22, format));
    CopiedUntil(find, field, s, 22, 23, format);
    Assoc(s[0..1] + s[1..14] + s[14..22], s[22..23], ReplaceAllFrom(find, field, s, 23, format));
    CopiedUntil(find, field, s, 23, 24, format);
    Assoc(s[0..1] + s[1..14] + s[14..22] + s[22..23], s[23..24], ReplaceAllFrom(find, field, s, 24, format));
    CopiedUntil(find, field, s, 24, 42, format);
    Assoc(s[0..1] + s[1..14] + s[14..22] + s[22..23] + s[23..24], s[24..42], ReplaceAllFrom(find, field, s, 42, format));
    CopiedUntil(find, field, s, 42, 54, format);
    Assoc(s[0..1] + s[1..14] + s[14..22] + s[22..23] + s[23..24] + s[24..42], s[42..54], ReplaceAllFrom(find, field, s, 54, format));
    CopiedUntil(find, field, s, 54, 55, format);
    Assoc(s[0..1] + s[1..14] + s[14..22] + s[22..23] + s[23..24] + s[24..42] + s[42..54], s[54..55], ReplaceAllFrom(find, field, s, 55, format));
    CatEmpty(s[0..1] + s[1..14] + s[14..22] + s[22..23] + s[23..24] + s[24..42] + s[42..54] + s[54..55]);
  }

  /** The unquoted pass for "usedBytes". */
  lemma MixedRawAndSuffixedPass2(s: string, field: string, format: Formatter)
    requires s == "{" + "\"usedBytes\": " + "\"170MiB\"" + "," + " " + "\"spaceAvailable\": " + "\"12075408Ki\"" + "}"
    requires field == "usedBytes"
    ensures ReplaceAll(Find(Unquoted, field), field, s, format) == "{" + "\"usedBytes\": " + "\"170MiB\"" + "," + " " + "\"spaceAvailable\": " + "\"12075408Ki\"" + "}"
  {
    MixedRawAndSuffixedText1(s);
    MixedRawAndSuffixedPass2Scan(s, field);
    MixedRawAndSuffixedPass2Trace(Find(Unquoted, field), s, field, format);
    SliceAt(s, 0, 1, "{");
    SliceAt(s, 1, 14, "\"usedBytes\": ");
    SliceAt(s, 14, 22, "\"170MiB\"");
    SliceAt(s, 22, 23, ",");
    SliceAt(s, 23, 24, " ");
    SliceAt(s, 24, 42, "\"spaceAvailable\": ");
    SliceAt(s, 42, 54, "\"12075408Ki\"");
    SliceAt(s, 54, 55, "}");
  }

  /** The scan below, from offset 0 on. */
  lemma MixedRawAndSuffixedPass3Scan1(s: string, field: string)
    requires |s| == 55 && field == "spaceAvailable"
    requires TextAt(s, 0, "{")
    requires TextAt(s, 1, "\"usedBytes\": ")
    requires TextAt(s, 14, "\"170MiB\"")
    requires TextAt(s, 22, ",")
    requires TextAt(s, 23, " ")
    requires TextAt(s, 24, "\"spaceAvailable\": ")
    requires TextAt(s, 42, "\"12075408Ki\"")
    ensures var find := Find(Quoted, field);
      (forall n :: 0 <= n < 1 ==> find(s, n).None?) &&
      (forall n :: 1 <= n < 14 ==> find(s, n).None?) &&
      (forall n :: 14 <= n < 22 ==> find(s, n).None?) &&
      (forall n :: 22 <= n < 23 ==> find(s, n).None?) &&
      (forall n :: 23 <= n < 24 ==> find(s, n).None?)
  {
    NoKeyToken26("{", 0, "", field);
    NoKeyIn(s, 0, "{", 0, "", field);
    NoMatchIn(Quoted, field, s, 0, 1);
    NoKeyToken40("\"usedBytes\": ", 0, "", field);
    NoKeyIn(s, 1, "\"usedBytes\": ", 0, "", field);
    NoMatchIn(Quoted, field, s, 1, 14);
    NoKeyToken41("\"170MiB\"", 0, ",", field);
    NoKeyIn(s, 14, "\"170MiB\"", 0, ",", field);
    NoMatchIn(Quoted, field, s, 14, 22);
    NoKeyToken42(",", 0, "", field);
    NoKeyIn(s, 22, ",", 0, "", field);
    NoMatchIn(Quoted, field, s, 22, 23);
    NoKeyToken43(" ", 0, "", field);
    NoKeyIn(s, 23, " ", 0, "", field);
    NoMatchIn(Quoted, field, s, 23, 24);
  }

  /** The scan below, from offset 24 on. */
  lemma MixedRawAndSuffixedPass3Scan2(s: string, field: string)
    requires |s| == 55 && field == "spaceAvailable"
    requires TextAt(s, 24, "\"spaceAvailable\": ")
    requires TextAt(s, 42, "\"12075408Ki\"")
    requires TextAt(s, 54, "}")
    ensures var find := Find(Quoted, field);
      (find(s, 24) == Some(Match(54, "12075408Ki", ""))) &&
      (forall n :: 54 <= n < 55 ==> find(s, n).None?)
  {
    KeyToken3("\"spaceAvailable\": ", field);
    KeyShapeIn(s, 24, "\"spaceAvailable\": ", field, 16, 18);
    QuotedToken3("\"12075408Ki\"");
    QuotedShapeIn(s, 42, "\"12075408Ki\"", 11);
    QuotedMatchComplete(field, s, 24, 40, 42, 53);
    NoKeyToken27("}", 0, "", field);
    NoKeyIn(s, 54, "}", 0, "", field);
    NoMatchIn(Quoted, field, s, 54, 55);
  }

  /** Where the quoted pattern for "spaceAvailable" matches in a text with these tokens. */
  lemma MixedRawAndSuffixedPass3Scan(s: string, field: string)
    requires |s| == 55 && field == "spaceAvailable"
    requires TextAt(s, 0, "{")
    requires TextAt(s, 1, "\"usedBytes\": ")
    requires TextAt(s, 14, "\"170MiB\"")
    requires TextAt(s, 22, ",")
    requires TextAt(s, 23, " ")
    requires TextAt(s, 24, "\"spaceAvailable\": ")
    requires TextAt(s, 42, "\"12075408Ki\"")
    requires TextAt(s, 54, "}")
    ensures var find := Find(Quoted, field);
      (forall n :: 0 <= n < 1 ==> find(s, n).None?) &&
      (forall n :: 1 <= n < 14 ==> find(s, n).None?) &&
      (forall n :: 14 <= n < 22 ==> find(s, n).None?) &&
      (forall n :: 22 <= n < 23 ==> find(s, n).None?) &&
      (forall n :: 23 <= n < 24 ==> find(s, n).None?) &&
      (find(s, 24) == Some(Match(54, "12075408Ki", ""))) &&
      (forall n :: 54 <= n < 55 ==> find(s, n).None?)
  {
    MixedRawAndSuffixedPass3Scan1(s, field);
    MixedRawAndSuffixedPass3Scan2(s, field);
  }

  /** A pass of a matcher that answers as the scan above. */
  lemma MixedRawAndSuffixedPass3Trace(find: Matcher, s: string, field: string, format: Formatter)
    requires |s| == 55
    requires forall n :: 0 <= n < 1 ==> find(s, n).None?
    requires forall n :: 1 <= n < 14 ==> find(s, n).None?
    requires forall n :: 14 <= n < 22 ==> find(s, n).None?
    requires forall n :: 22 <= n < 23 ==> find(s, n).None?
    requires forall n :: 23 <= n < 24 ==> find(s, n).None?
    requires find(s, 24) == Some(Match(54, "12075408Ki", ""))
    requires forall n :: 54 <= n < 55 ==> find(s, n).None?
    requires format("12075408Ki") == Ok("11.5GiB")
    ensures ReplaceAll(find, field, s, format) == s[0..1] + s[1..14] + s[14..22] + s[22..23] + s[23..24] + ("\"" + field + "\": \"" + "11.5GiB" + "\"" + "") + s[54..55]
  {
    CopiedUntil(find, field, s, 0, 1, format);
    CopiedUntil(find, field, s, 1, 14, format);
    Assoc(s[0..1], s[1..14], ReplaceAllFrom(find, field, s, 14, format));
    CopiedUntil(find, field, s, 14, 22, format);
    Assoc(s[0..1] + s[1..14], s[14..22], ReplaceAllFrom(find, field, s, 22, format));
    CopiedUntil(find, field, s, 22, 23, format);
    Assoc(s[0..1] + s[1..14] + s[14..22], s[22..23], ReplaceAllFrom(find, field, s, 23, format));
    Reformatted(find, field, s, 23, 24, Match(54, "12075408Ki", ""), "11.5GiB", format);
    Assoc(s[0..1] + s[1..14] + s[14..22] + s[22..23], s[23..24] + ("\"" + field + "\": \"" + "11.5GiB" + "\"" + ""), ReplaceAllFrom(find, field, s, 54, format));
    Assoc(s[0..1] + s[1..14] + s[14..22] + s[22..23], s[23..24], ("\"" + field + "\": \"" + "11.5GiB" + "\"" + ""));
    CopiedUntil(find, field, s, 54, 55, format);
    Assoc(s[0..1] + s[1..14] + s[14..22] + s[22..23] + s[23..24] + ("\"" + field + "\": \"" + "11.5GiB" + "\"" + ""), s[54..55], ReplaceAllFrom(find, field, s, 55, format));
    CatEmpty(s[0..1] + s[1..14] + s[14..22] + s[22..23] + s[23..24] + ("\"" + field + "\": \"" + "11.5GiB" + "\"" + "") + s[54..55]);
  }

  lemma MixedRawAndSuffixedPass3Split1(field: string)
    requires field == "spaceAvailable"
    ensures ("\"" + field + "\": \"" + "11.5GiB" + "\"" + "") == "\"spaceAvailable\": " + "\"11.5GiB\""
  {
  }

  /** The quoted pass for "spaceAvailable". */
  lemma MixedRawAndSuffixedPass3(s: string, field: string, format: Formatter)
    requires s == "{" + "\"usedBytes\": " + "\"170MiB\"" + "," + " " + "\"spaceAvailable\": " + "\"12075408Ki\"" + "}"
    requires field == "spaceAvailable"
    requires format("12075408Ki") == Ok("11.5GiB")
    ensures ReplaceAll(Find(Quoted, field), field, s, format) == "{" + "\"usedBytes\": " + "\"170MiB\"" + "," + " " + "\"spaceAvailable\": " + "\"11.5GiB\"" + "}"
  {
    MixedRawAndSuffixedText1(s);
    MixedRawAndSuffixedPass3Scan(s, field);
    MixedRawAndSuffixedPass3Trace(Find(Quoted, field), s, field, format);
    SliceAt(s, 0, 1, "{");
    SliceAt(s, 1, 14, "\"usedBytes\": ");
    SliceAt(s, 14, 22, "\"170MiB\"");
    SliceAt(s, 22, 23, ",");
    SliceAt(s, 23, 24, " ");
    SliceAt(s, 54, 55, "}");
    MixedRawAndSuffixedPass3Split1(field);
    Assoc("{" + "\"usedBytes\": " + "\"170MiB\"" + "," + " ", "\"spaceAvailable\": ", "\"11.5GiB\"");
  }

  /** Where each token of the text lies. */
  lemma MixedRawAndSuffixedText2(s: string)
    requires s == "{" + "\"usedBytes\": " + "\"170MiB\"" + "," + " " + "\"spaceAvailable\": " + "\"11.5GiB\"" + "}"
    ensures TextAt(s, 0, "{")
    ensures TextAt(s, 1, "\"usedBytes\": ")
    ensures TextAt(s, 14, "\"170MiB\"")
    ensures TextAt(s, 22, ",")
    ensures TextAt(s, 23, " ")
    ensures TextAt(s, 24, "\"spaceAvailable\": ")
    ensures TextAt(s, 42, "\"11.5GiB\"")
    ensures TextAt(s, 51, "}")
  {
    TextAtSelf("{");
    TextAtGrow("{", 0, "{", "\"usedBytes\": ");
    TextAtGrow("{" + "\"usedBytes\": ", 0, "{", "\"170MiB\"");
    TextAtGrow("{" + "\"usedBytes\": " + "\"170MiB\"", 0, "{", ",");
    TextAtGrow("{" + "\"usedBytes\": " + "\"170MiB\"" + ",", 0, "{", " ");
    TextAtGrow("{" + "\"usedBytes\": " + "\"170MiB\"" + "," + " ", 0, "{", "\"spaceAvailable\": ");
    TextAtGrow("{" + "\"usedBytes\": " + "\"170MiB\"" + "," + " " + "\"spaceAvailable\": ", 0, "{", "\"11.5GiB\"");
    TextAtGrow("{" + "\"usedBytes\": " + "\"170MiB\"" + "," + " " + "\"spaceAvailable\": " + "\"11.5GiB\"", 0, "{", "}");
    TextAtEnd("{", "\"usedBytes\": ");
    TextAtGrow("{" + "\"usedBytes\": ", 1, "\"usedBytes\": ", "\"170MiB\"");
    TextAtGrow("{" + "\"usedBytes\": " + "\"170MiB\"", 1, "\"usedBytes\": ", ",");
    TextAtGrow("{" + "\"usedBytes\": " + "\"170MiB\"" + ",", 1, "\"usedBytes\": ", " ");
    TextAtGrow("{" + "\"usedBytes\": " + "\"170MiB\"" + "," + " ", 1, "\"usedBytes\": ", "\"spaceAvailable\": ");
    TextAtGrow("{" + "\"usedBytes\": " + "\"170MiB\"" + "," + " " + "\"spaceAvailable\": ", 1, "\"usedBytes\": ", "\"11.5GiB\"");
    TextAtGrow("{" + "\"usedBytes\": " + "\"170MiB\"" + "," + " " + "\"spaceAvailable\": " + "\"11.5GiB\"", 1, "\"usedBytes\": ", "}");
    TextAtEnd("{" + "\"usedBytes\": ", "\"170MiB\"");
    TextAtGrow("{" + "\"usedBytes\": " + "\"170MiB\"", 14, "\"170MiB\"", ",");
    TextAtGrow("{" + "\"usedBytes\": " + "\"170MiB\"" + ",", 14, "\"170MiB\"", " ");
    TextAtGrow("{" + "\"usedBytes\": " + "\"170MiB\"" + "," + " ", 14, "\"170MiB\"", "\"spaceAvailable\": ");
    TextAtGrow("{" + "\"usedBytes\": " + "\"170MiB\"" + "," + " " + "\"spaceAvailable\": ", 14, "\"170MiB\"", "\"11.5GiB\"");
    TextAtGrow("{" + "\"usedBytes\": " + "\"170MiB\"" + "," + " " + "\"spaceAvailable\": " + "\"11.5GiB\"", 14, "\"170MiB\"", "}");
    TextAtEnd("{" + "\"usedBytes\": " + "\"170MiB\"", ",");
    TextAtGrow("{" + "\"usedBytes\": " + "\"170MiB\"" + ",", 22, ",", " ");
    TextAtGrow("{" + "\"usedBytes\": " + "\"170MiB\"" + "," + " ", 22, ",", "\"spaceAvailable\": ");
    TextAtGrow("{" + "\"usedBytes\": " + "\"170MiB\"" + "," + " " + "\"spaceAvailable\": ", 22, ",", "\"11.5GiB\"");
    TextAtGrow("{" + "\"usedBytes\": " + "\"170MiB\"" + "," + " " + "\"spaceAvailable\": " + "\"11.5GiB\"", 22, ",", "}");
    TextAtEnd("{" + "\"usedBytes\": " + "\"170MiB\"" + ",", " ");
    TextAtGrow("{" + "\"usedBytes\": " + "\"170MiB\"" + "," + " ", 23, " ", "\"spaceAvailable\": ");
    TextAtGrow("{" + "\"usedBytes\": " + "\"170MiB\"" + "," + " " + "\"spaceAvailable\": ", 23, " ", "\"11.5GiB\"");
    TextAtGrow("{" + "\"usedBytes\": " + "\"170MiB\"" + "," + " " + "\"spaceAvailable\": " + "\"11.5GiB\"", 23, " ", "}");
    TextAtEnd("{" + "\"usedBytes\": " + "\"170MiB\"" + "," + " ", "\"spaceAvailable\": ");
    TextAtGrow("{" + "\"usedBytes\": " + "\"170MiB\"" + "," + " " + "\"spaceAvailable\": ", 24, "\"spaceAvailable\": ", "\"11.5GiB\"");
    TextAtGrow("{" + "\"usedBytes\": " + "\"170MiB\"" + "," + " " + "\"spaceAvailable\": " + "\"11.5GiB\"", 24, "\"spaceAvailable\": ", "}");
    TextAtEnd("{" + "\"usedBytes\": " + "\"170MiB\"" + "," + " " + "\"spaceAvailable\": ", "\"11.5GiB\"");
    TextAtGrow("{" + "\"usedBytes\": " + "\"170MiB\"" + "," + " " + "\"spaceAvailable\": " + "\"11.5GiB\"", 42, "\"11.5GiB\"", "}");
    TextAtEnd("{" + "\"usedBytes\": " + "\"170MiB\"" + "," + " " + "\"spaceAvailable\": " + "\"11.5GiB\"", "}");
  }

  /** The scan below, from offset 0 on. */
  lemma MixedRawAndSuffixedPass4Scan1(s: string, field: string)
    requires |s| == 52 && field == "spaceAvailable"
    requires TextAt(s, 0, "{")
    requires TextAt(s, 1, "\"usedBytes\": ")
    requires TextAt(s, 14, "\"170MiB\"")
    requires TextAt(s, 22, ",")
    requires TextAt(s, 23, " ")
    requires TextAt(s, 24, "\"spaceAvailable\": ")
    requires TextAt(s, 42, "\"11.5GiB\"")
    ensures var find := Find(Unquoted, field);
      (forall n :: 0 <= n < 1 ==> find(s, n).None?) &&
      (forall n :: 1 <= n < 14 ==> find(s, n).None?) &&
      (forall n :: 14 <= n < 22 ==> find(s, n).None?) &&
      (forall n :: 22 <= n < 23 ==> find(s, n).None?) &&
      (forall n :: 23 <= n < 24 ==> find(s, n).None?)
  {
    NoKeyToken26("{", 0, "", field);
    NoKeyIn(s, 0, "{", 0, "", field);
    NoMatchIn(Unquoted, field, s, 0, 1);
    NoKeyToken40("\"usedBytes\": ", 0, "", field);
    NoKeyIn(s, 1, "\"usedBytes\": ", 0, "", field);
    NoMatchIn(Unquoted, field, s, 1, 14);
    NoKeyToken41("\"170MiB\"", 0, ",", field);
    NoKeyIn(s, 14, "\"170MiB\"", 0, ",", field);
    NoMatchIn(Unquoted, field, s, 14, 22);
    NoKeyToken42(",", 0, "", field);
    NoKeyIn(s, 22, ",", 0, "", field);
    NoMatchIn(Unquoted, field, s, 22, 23);
    NoKeyToken43(" ", 0, "", field);
    NoKeyIn(s, 23, " ", 0, "", field);
    NoMatchIn(Unquoted, field, s, 23, 24);
  }

  /** The scan below, from offset 24 on. */
  lemma MixedRawAndSuffixedPass4Scan2(s: string, field: string)
    requires |s| == 52 && field == "spaceAvailable"
    requires TextAt(s, 24, "\"spaceAvailable\": ")
    requires TextAt(s, 42, "\"11.5GiB\"")
    requires TextAt(s, 51, "}")
    ensures var find := Find(Unquoted, field);
      (find(s, 24).None?) &&
      (forall n :: 25 <= n < 42 ==> find(s, n).None?) &&
      (forall n :: 42 <= n < 51 ==> find(s, n).None?) &&
      (forall n :: 51 <= n < 52 ==> find(s, n).None?)
  {
    KeyToken3("\"spaceAvailable\": ", field);
    KeyShapeIn(s, 24, "\"spaceAvailable\": ", field, 16, 18);
    CharAt(s, 42, "\"11.5GiB\"", 42);
    NoValueAfterKey(Unquoted, field, s, 24, 40, 42);
    NoKeyToken28("\"spaceAvailable\": ", 1, "", field);
    NoKeyIn(s, 24, "\"spaceAvailable\": ", 1, "", field);
    NoMatchIn(Unquoted, field, s, 25, 42);
    NoKeyToken29("\"11.5GiB\"", 0, "}", field);
    NoKeyIn(s, 42, "\"11.5GiB\"", 0, "}", field);
    NoMatchIn(Unquoted, field, s, 42, 51);
    NoKeyToken27("}", 0, "", field);
    NoKeyIn(s, 51, "}", 0, "", field);
    NoMatchIn(Unquoted, field, s, 51, 52);
  }

  /** Where the unquoted pattern for "spaceAvailable" matches in a text with these tokens. */
  lemma MixedRawAndSuffixedPass4Scan(s: string, field: string)
    requires |s| == 52 && field == "spaceAvailable"
    requires TextAt(s, 0, "{")
    requires TextAt(s, 1, "\"usedBytes\": ")
    requires TextAt(s, 14, "\"170MiB\"")
    requires TextAt(s, 22, ",")
    requires TextAt(s, 23, " ")
    requires TextAt(s, 24, "\"spaceAvailable\": ")
    requires TextAt(s, 42, "\"11.5GiB\"")
    requires TextAt(s, 51, "}")
    ensures var find := Find(Unquoted, field);
      (forall n :: 0 <= n < 1 ==> find(s, n).None?) &&
      (forall n :: 1 <= n < 14 ==> find(s, n).None?) &&
      (forall n :: 14 <= n < 22 ==> find(s, n).None?) &&
      (forall n :: 22 <= n < 23 ==> find(s, n).None?) &&
      (forall n :: 23 <= n < 24 ==> find(s, n).None?) &&
      (find(s, 24).None?) &&
      (forall n :: 25 <= n < 42 ==> find(s, n).None?) &&
      (forall n :: 42 <= n < 51 ==> find(s, n).None?) &&
      (forall n :: 51 <= n < 52 ==> find(s, n).None?)
  {
    MixedRawAndSuffixedPass4Scan1(s, field);
    MixedRawAndSuffixedPass4Scan2(s, field);
  }

  /** A pass of a matcher that answers as the scan above. */
  lemma MixedRawAndSuffixedPass4Trace(find: Matcher, s: string, field: string, format: Formatter)
    requires |s| == 52
    requires forall n :: 0 <= n < 1 ==> find(s, n).None?
    requires forall n :: 1 <= n < 14 ==> find(s, n).None?
    requires forall n :: 14 <= n < 22 ==> find(s, n).None?
    requires forall n :: 22 <= n < 23 ==> find(s, n).None?
    requires forall n :: 23 <= n < 24 ==> find(s, n).None?
    requires find(s, 24).None?
    requires forall n :: 25 <= n < 42 ==> find(s, n).None?
    requires forall n :: 42 <= n < 51 ==> find(s, n).None?
    requires forall n :: 51 <= n < 52 ==> find(s, n).None?
    ensures ReplaceAll(find, field, s, format) == s[0..1] + s[1..14] + s[14..22] + s[22..23] + s[23..24] + s[24..42] + s[42..51] + s[51..52]
  {
    CopiedUntil(find, field, s, 0, 1, format);
    CopiedUntil(find, field, s, 1, 14, format);
    Assoc(s[0..1], s[1..14], ReplaceAllFrom(find, field, s, 14, format));
    CopiedUntil(find, field, s, 14, 22, format);
    Assoc(s[0..1] + s[1..14], s[14..22], ReplaceAllFrom(find, field, s, 22, format));
    CopiedUntil(find, field, s, 22, 23, format);
    Assoc(s[0..1] + s[1..14] + s[14..22], s[22..23], ReplaceAllFrom(find, field, s, 23, format));
    CopiedUntil(find, field, s, 23, 24, format);
    Assoc(s[0..1] + s[1..14] + s[14..22] + s[22..23], s[23..24], ReplaceAllFrom(find, field, s, 24, format));
    CopiedUntil(find, field, s, 24, 42, format);
    Assoc(s[0..1] + s[1..14] + s[14..22] + s[22..23] + s[23..24], s[24..42], ReplaceAllFrom(find, field, s, 42, format));
    CopiedUntil(find, field, s, 42, 51, format);
    Assoc(s[0..1] + s[1..14] + s[14..22] + s[22..23] + s[23..24] + s[24..42], s[42..51], ReplaceAllFrom(find, field, s, 51, format));
    CopiedUntil(find, field, s, 51, 52, format);
    Assoc(s[0..1] + s[1..14] + s[14..22] + s[22..23] + s[23..24] + s[24..42] + s[42..51], s[51..52], ReplaceAllFrom(find, field, s, 52, format));
    CatEmpty(s[0..1] + s[1..14] + s[14..22] + s[22..23] + s[23..24] + s[24..42] + s[42..51] + s[51..52]);
  }

  /** The unquoted pass for "spaceAvailable". */
  lemma MixedRawAndSuffixedPass4(s: string, field: string, format: Formatter)
    requires s == "{" + "\"usedBytes\": " + "\"170MiB\"" + "," + " " + "\"spaceAvailable\": " + "\"11.5GiB\"" + "}"
    requires field == "spaceAvailable"
    ensures ReplaceAll(Find(Unquoted, field), field, s, format) == "{" + "\"usedBytes\": " + "\"170MiB\"" + "," + " " + "\"spaceAvailable\": " + "\"11.5GiB\"" + "}"
  {
    MixedRawAndSuffixedText2(s);
    MixedRawAndSuffixedPass4Scan(s, field);
    MixedRawAndSuffixedPass4Trace(Find(Unquoted, field), s, field, format);
    SliceAt(s, 0, 1, "{");
    SliceAt(s, 1, 14, "\"usedBytes\": ");
    SliceAt(s, 14, 22, "\"170MiB\"");
    SliceAt(s, 22, 23, ",");
    SliceAt(s, 23, 24, " ");
    SliceAt(s, 24, 42, "\"spaceAvailable\": ");
    SliceAt(s, 42, 51, "\"11.5GiB\"");
    SliceAt(s, 51, 52, "}");
  }

  predicate MixedRawAndSuffixedStage0(s: string) {
    s == "{" + "\"usedBytes\": " + "\"178255984\"" + "," + " " + "\"spaceAvailable\": " + "\"12075408Ki\"" + "}"
  }

  predicate MixedRawAndSuffixedStage1(s: string) {
    s == "{" + "\"usedBytes\": " + "\"170MiB\"" + "," + " " + "\"spaceAvailable\": " + "\"12075408Ki\"" + "}"
  }

  predicate MixedRawAndSuffixedStage2(s: string) {
    s == "{" + "\"usedBytes\": " + "\"170MiB\"" + "," + " " + "\"spaceAvailable\": " + "\"11.5GiB\"" + "}"
  }

  lemma MixedRawAndSuffixedField1(s: string) returns (t: string)
    requires MixedRawAndSuffixedStage0(s)
    ensures RewriteField(s, "usedBytes") == t && MixedRawAndSuffixedStage1(t)
  {
    FormatExamples.UsedBytes("178255984");
    MixedRawAndSuffixedPass1(s, "usedBytes", FormatValue);
    MixedRawAndSuffixedPass2("{" + "\"usedBytes\": " + "\"170MiB\"" + "," + " " + "\"spaceAvailable\": " + "\"12075408Ki\"" + "}", "usedBytes", FormatValue);
    t := "{" + "\"usedBytes\": " + "\"170MiB\"" + "," + " " + "\"spaceAvailable\": " + "\"12075408Ki\"" + "}";
  }

  lemma MixedRawAndSuffixedField2(s: string) returns (t: string)
    requires MixedRawAndSuffixedStage1(s)
    ensures RewriteField(s, "spaceAvailable") == t && MixedRawAndSuffixedStage2(t)
  {
    FormatExamples.SpaceAvailable("12075408Ki");
    MixedRawAndSuffixedPass3(s, "spaceAvailable", FormatValue);
    MixedRawAndSuffixedPass4("{" + "\"usedBytes\": " + "\"170MiB\"" + "," + " " + "\"spaceAvailable\": " + "\"11.5GiB\"" + "}", "spaceAvailable", FormatValue);
    t := "{" + "\"usedBytes\": " + "\"170MiB\"" + "," + " " + "\"spaceAvailable\": " + "\"11.5GiB\"" + "}";
  }

  lemma MixedRawAndSuffixedInput(s: string)
    requires s == "{\"usedBytes\": \"178255984\", \"spaceAvailable\": \"12075408Ki\"}"
    ensures MixedRawAndSuffixedStage0(s)
  {
    Peel61();
    Peel60();
    Peel59();
    Peel7();
    Peel6();
    Peel2();
    Peel1();
  }

  lemma MixedRawAndSuffixedOutput(s: string)
    requires MixedRawAndSuffixedStage2(s)
    ensures s == "{\"usedBytes\": \"170MiB\", \"spaceAvailable\": \"11.5GiB\"}"
  {
    Peel64();
    Peel63();
    Peel62();
    Peel12();
    Peel11();
    Peel4();
    Peel1();
  }

  /** main_test.go:191-196: a raw byte count and a suffixed quantity side by side. */
  lemma MixedRawAndSuffixed(s: string, fields: seq<string>)
    requires s == "{\"usedBytes\": \"178255984\", \"spaceAvailable\": \"12075408Ki\"}"
    requires fields == ["usedBytes", "spaceAvailable"]
    ensures RewriteFields(s, fields) == "{\"usedBytes\": \"170MiB\", \"spaceAvailable\": \"11.5GiB\"}"
  {
    MixedRawAndSuffixedInput(s);
    var m1 := MixedRawAndSuffixedField1(s);
    FieldsOne(s, "usedBytes", m1);
    var m2 := MixedRawAndSuffixedField2(m1);
    FieldsSnoc(s, ["usedBytes"], "spaceAvailable", m1, m2);
    assert fields == ["usedBytes"] + ["spaceAvailable"];
    MixedRawAndSuffixedOutput(m2);
  }

  /** main_test.go:167-172: an empty field list leaves the text as it is. */
  lemma EmptyFieldsList(s: string, fields: seq<string>)
    requires s == "{\"usedBytes\": \"178255984\"}" && fields == []
    ensures RewriteFields(s, fields) == s
  {
  }
}
