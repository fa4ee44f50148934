# kfmt, modelled in Dafny

kfmt is a small command-line filter. It turns Kubernetes quantities such as
`12075408Ki` or raw byte counts such as `178255984` into binary-unit text
such as `11.5GiB` or `170MiB`. It works either on its arguments or on
chosen fields of a JSON text. This project models its four core functions
in `main.go` and proves properties of them:

- `parseQuantity` is modelled in module `Quantity`. It does the following,
  in this order:
  - trims white space;
  - rejects an empty token;
  - sends scientific notation to `strconv.ParseFloat` whole;
  - otherwise cuts off the first matching entry of an ordered suffix table
    and scales by its multiplier;
  - otherwise parses a raw number;
  - refuses negative values and truncates toward zero.

  `strconv.ParseFloat` is modelled over its decimal grammar (module
  `Decimal`). A parsed number is read as the exact value
  (-1)^negative * mantissa * 10^exponent, not rounded to a float64. The
  byte count is the floor of that value times the multiplier. This is Go's
  result wherever the parsed value and the product are float64 values
  (integers and products below 2^53, for example); elsewhere the two can
  differ, as "## Left out" says and module `QuantityEdges` proves on two
  inputs.
- `humanizeIEC` is modelled in module `IecUnits`, as the function `Humanize`
  and as the method `HumanizeIEC`. The method keeps the source's division
  loop and is proved equal to the function. `float64(bytes)` is modelled
  exactly: it rounds to the nearest value with a 53-bit significand, ties to
  even. The divisions by 1024 are exact. `%.Nf` rounds half to even on the
  exact value. So the model is faithful for every uint64, including counts
  above 2^53. A count just below a unit boundary can print as `1024KiB`,
  because the unit is chosen before rounding. Module `HumanizeExamples`
  proves this (`RoundsUpToNextThousand`).
- `formatValue` is modelled in module `Format`. It chains the parser and the
  humanizer and passes the parser's error through.
- `processJSON` is modelled in module `Rewrite`, as the method `ProcessJSON`.
  For each field it runs two `regexp` replacement passes over the whole
  text:
  - the first pass handles `"field": "value"`;
  - the second handles `"field": number` followed by a delimiter, and keeps
    the delimiter.

  Each pattern is modelled two ways:
  - a deterministic scanner (`KeyAt`, `QuotedValueAt`, `NumberAt`);
  - a declaration of the text shape it matches (`KeyShape`, `QuotedShape`,
    `NumberShape`).

  Lemmas prove that the scanner finds the shape, and only the shape.
  `ReplaceAllStringFunc` is `ReplaceAllFrom`. It replaces the leftmost match
  and resumes after it. The callback's formatter is a parameter. Values that
  the formatter refuses are left as they were.

The test tables of `main_test.go` are proved vector by vector in
`QuantityExamples`, `HumanizeExamples`, `FormatExamples` and
`RewriteExamples`. Further edge cases of the parser are in `QuantityEdges`.

## Model

| member | source | states |
|---|---|---|
| Text.TrimSpace | main.go:111 | `strings.TrimSpace`; what it returns is stated by Text.TrimSpaceSpec (empty exactly when the token is all white space, otherwise no white space at either end) and Text.TrimSpacePadded (exactly the surrounding white space is removed) |
| Text.TrimSpaceSpec | main.go:111 | the trimmed token is empty exactly when the token is all white space, and otherwise neither starts nor ends with white space |
| Text.TrimSpacePadded | main.go:111 | white space around a token with non-space ends is exactly what is trimmed |
| Text.NatToString | main.go:191 | `%d` output: non-empty decimal digits that denote the number, with no leading zero |
| Decimal.ParseDecimal | main.go:158 | `strconv.ParseFloat`, read exactly: what it accepts is stated by Decimal.ParseDecimalAccepts and Decimal.ParseDecimalRejects, the value it reads by Decimal.ParseDigits, Decimal.ParseFixed, Decimal.ParseScientificDigits and Decimal.ParseFixedScientific |
| Decimal.ParseDecimalAccepts | main.go:158 | what ParseFloat accepts here is a non-empty string of number characters holding a digit; it is negative exactly when it starts with '-' |
| Decimal.ParseDecimalRejects | main.go:170-173 | a string with a character that no number contains is a syntax error |
| Decimal.ParseDigits | main.go:170 | a run of digits, leading zeros allowed, reads as the number it denotes |
| Decimal.ParseNatToString | main.go:170 | the decimal digits of n read back as exactly n |
| Decimal.ParseNegatedNat | main.go:170 | a leading minus sign gives the negated number |
| Decimal.ParseFixed | main.go:158 | whole.frac reads as the digits of both parts, scaled down by the number of fraction digits |
| Decimal.ParseScientificDigits | main.go:121 | digits e [+-] digits reads as the mantissa digits scaled by the signed exponent |
| Decimal.ParseFixedScientific | main.go:121 | whole.frac e [+-] digits reads as both digit runs, scaled by the exponent less the number of fraction digits |
| Decimal.FloorScaled | main.go:165 | `uint64(f * multiplier)`: the result r satisfies r <= value * multiplier < r + 1 |
| Decimal.FixedString | main.go:205-209 | `%.Nf` text: digits with the point exactly N places from the end, or `%d` when N is 0 |
| Decimal.ParseFixedString | main.go:205-209 | the printed fixed-point number reads back as exactly the value printed |
| Decimal.FractionDigits | main.go:207-209 | the fractional digits are exactly N zero-padded digits that denote the fraction |
| Quantity.ParseQuantity | main.go:110-178 | parseQuantity; its branches are stated by Quantity.EmptyInputIffBlank (empty string), Quantity.ScientificToken (e/E followed by a sign or digit), Quantity.SuffixedToken and Quantity.UnsuffixedToken (suffix search and raw fallback) and Quantity.PaddedToken (trimming) |
| Quantity.LooksScientific | main.go:117-120 | the scientific-notation test; stated by Quantity.ScientificShape (digits e [+-] digits passes it), Quantity.ScientificToken (passing it sends the whole token to ParseFloat), QuantityEdges.ExbibyteNotScientific and QuantityEdges.ExabyteSuffix (an E followed by i or by nothing does not) |
| Quantity.Suffixes | main.go:137-153 | the suffix table, binary entries first, with multipliers 1024^1..6 and 1000^1..6; Quantity.SuffixTableUnambiguous states that its order never decides a result, Quantity.FindSuffixExact that each entry is found |
| Quantity.IndexExpFrom | main.go:117 | `strings.IndexAny(s, "eE")`: the first e/E at or after i, and none before it; None when there is none |
| Quantity.FindSuffix | main.go:155-156 | the first entry of the suffix table that the token ends with, and none before it; None when no entry matches |
| Quantity.ToByteCount | main.go:121-128 | a syntax error carries the text exactly when ParseFloat fails; negative exactly when the value is below zero; otherwise the truncated product r, with r <= value * multiplier < r + 1 |
| Quantity.ParseSuffixed | main.go:155-177 | never reports an empty token; its value is stated by Quantity.SuffixedToken (suffix found) and Quantity.UnsuffixedToken (raw fallback) |
| Quantity.SuffixTableUnambiguous | main.go:137-156 | no token ends with two different table entries, so the table's order never changes the result |
| Quantity.FindSuffixExact | main.go:155-156 | a token ending with entry i is parsed with entry i |
| Quantity.EmptyInputIffBlank | main.go:111-114 | "empty string" exactly when the token is all white space |
| Quantity.SuffixedToken | main.go:155-166 | number + suffix (no e/E): the number is cut off at the suffix, parsed, and scaled by that suffix's multiplier |
| Quantity.UnsuffixedToken | main.go:169-177 | a token ending in a digit or '.' matches no suffix and is parsed as raw bytes |
| Quantity.NoSuffixMatches | main.go:155-156 | a token whose last character ends no entry matches no suffix |
| Quantity.UnsuffixedMalformed | main.go:170-173 | a token without e/E and without a suffix that holds a non-number character is refused with its own text |
| Quantity.BareSuffixRejected | main.go:157-161 | a bare suffix leaves an empty number, which ParseFloat refuses |
| Quantity.FixedPointByteCount | main.go:165 | a non-negative fixed-point value converts to units * multiplier / 10^decimals, truncated, or out of range |
| Quantity.SuffixedFixedPoint | main.go:155-166 | a fixed-point number with a suffix gives its exact value times the multiplier, truncated |
| Quantity.FixedPointTruncates | main.go:169-177 | a fixed-point number without a suffix is truncated toward zero |
| Quantity.IntegerToken | main.go:169-177 | a run of digits is that many bytes, when it fits in a uint64 |
| Quantity.SuffixedInteger | main.go:155-166 | a run of digits with a suffix is that number times the multiplier |
| Quantity.IntegerRoundTrip | main.go:169-177 | every uint64 written in decimal parses back to itself |
| Quantity.NegativeRejected | main.go:174-176 | "-n" is refused as negative unless n is 0 (minus zero is not below zero) |
| Quantity.NegativeSuffixedRejected | main.go:162-164 | "-n" with a suffix is refused before the multiplier is applied, unless n is 0 |
| Quantity.ScaledByteCount | main.go:128 | a non-negative number with a non-negative exponent converts to mantissa * 10^exponent * multiplier |
| Quantity.ScientificToken | main.go:117-129 | when the first e/E is followed by a sign or digit, ParseFloat gets the whole token, with no suffix search |
| Quantity.ScientificShape | main.go:117-120 | a mantissa of digits and points followed by e [+-] digits is recognised as scientific notation |
| Quantity.ScientificInteger | main.go:117-129 | digits e [+-] digits converts to its exact value |
| Quantity.ScientificNotation | main.go:117-129 | a mantissa with an exponent goes to ParseFloat whole, whatever the mantissa's value |
| Quantity.ScientificMalformed | main.go:121-124 | a scientific token holding a non-number character (a suffix after the exponent) is a syntax error |
| Quantity.PaddedToken | main.go:111 | white space around a token does not change the result |
| QuantityExamples.Raw178255984 | main_test.go:46 | "178255984" is 178255984 bytes |
| QuantityExamples.Raw0 | main_test.go:47 | "0" is 0 bytes |
| QuantityExamples.Raw1024 | main_test.go:48 | "1024" is 1024 bytes |
| QuantityExamples.Binary1Ki | main_test.go:51 | "1Ki" is 1024 bytes |
| QuantityExamples.Binary1Mi | main_test.go:52 | "1Mi" is 1048576 bytes |
| QuantityExamples.Binary1Gi | main_test.go:53 | "1Gi" is 1073741824 bytes |
| QuantityExamples.Binary1Ti | main_test.go:54 | "1Ti" is 1099511627776 bytes |
| QuantityExamples.Binary12075408Ki | main_test.go:55 | "12075408Ki" is 12365217792 bytes |
| QuantityExamples.Binary100Mi | main_test.go:56 | "100Mi" is 104857600 bytes |
| QuantityExamples.Binary12Gi | main_test.go:187 | "12Gi" is 12884901888 bytes |
| QuantityExamples.Decimal1UpperK | main_test.go:59 | "1K" is 1000 bytes |
| QuantityExamples.Decimal1LowerK | main_test.go:60 | "1k" is 1000 bytes |
| QuantityExamples.Decimal1M | main_test.go:61 | "1M" is 1000000 bytes |
| QuantityExamples.Decimal1G | main_test.go:62 | "1G" is 1000000000 bytes |
| QuantityExamples.Decimal500M | main_test.go:63 | "500M" is 500000000 bytes |
| QuantityExamples.EmptyToken | main_test.go:66 | "" is refused as an empty string |
| QuantityExamples.InvalidToken | main_test.go:67 | "invalid" is a syntax error |
| QuantityExamples.BareKi | main_test.go:68 | "Ki" is a syntax error on the empty number |
| QuantityEdges.Scientific1Point5e9 | main.go:117-129 | "1.5e9" is 1500000000 bytes |
| QuantityEdges.ScientificNegativeExponent | main.go:117-129 | "1e-3" truncates to 0 bytes |
| QuantityEdges.ScientificPlusExponent | main.go:117-129 | "2e+3" is 2000 bytes |
| QuantityEdges.ScientificWithSuffix | main.go:117-124 | "1.5e9Ki" is a syntax error: no suffix is looked for after an exponent |
| QuantityEdges.ExbibyteNotScientific | main.go:117-120 | "1Ei" is not scientific (the E is followed by i) and is 2^60 bytes |
| QuantityEdges.ExabyteSuffix | main.go:117-120 | "1E" has nothing after its E, so it is the exa suffix: 10^18 bytes |
| QuantityEdges.SixteenExbibytes | main.go:165 | "16Ei" is 2^64 bytes, which is out of range for a uint64 |
| QuantityEdges.MinusZero | main.go:174-176 | "-0" is 0 bytes |
| QuantityEdges.MinusOne | main.go:174-176 | "-1" is refused as negative |
| QuantityEdges.MinusOneKibibyte | main.go:162-164 | "-1Ki" is refused as negative |
| QuantityEdges.OneAndAHalf | main.go:177 | "1.5" truncates to 1 byte |
| QuantityEdges.OneAndAHalfGibibytes | main.go:165 | "1.5Gi" is 1610612736 bytes |
| QuantityEdges.PaddedKibibyte | main.go:111 | " 1Ki\n" is trimmed to 1Ki, which is 1024 bytes |
| QuantityEdges.RawCountExactInFloat64 | main.go:169-177 | a raw count below 2^53 is its own float64, so the exact reading gives what `uint64(f)` gives |
| QuantityEdges.SuffixedCountExactInFloat64 | main.go:155-166 | while n * multiplier is below 2^53, float64(n), float64(multiplier) and their product are exact, so the exact reading gives what `uint64(f * multiplier)` gives |
| QuantityEdges.RawCountBeyondFloat64 | main.go:169-177 | float64(2^53 + 1) is 2^53 (a tie, to even), so Go returns 9007199254740992 for "9007199254740993" where the exact reading returns 9007199254740993 |
| QuantityEdges.ProductBeyondFloat64 | main.go:155-166 | both factors of 123456789012345K are float64s, but their product rounds (a tie, to even) to 123456789012344992, which Go returns where the exact reading returns 123456789012345000 |
| IecUnits.Ulp | main.go:196 | the float64 spacing near n: 1 below 2^53; n stays below 2^53 spacings |
| IecUnits.ToFloat64 | main.go:196 | `float64(n)`: the nearest multiple of the spacing, ties to even; exact below 2^53 |
| IecUnits.RoundedRatio | main.go:196 | a / q rounded to the nearest natural, ties to the even one |
| IecUnits.UnitIndex | main.go:194-201 | the largest power of 1024 the value reaches, up to EiB |
| IecUnits.RoundHalfEven | main.go:205-209 | the integer nearest to x, ties to the even one |
| IecUnits.RoundUnique | main.go:205-209 | the rounding is the unique integer within half of x, or the even one at a tie |
| IecUnits.Humanize | main.go:188-210 | humanizeIEC's result; IecUnits.HumanizeIEC's loop computes it, IecUnits.HumanizeSmall, IecUnits.HumanizeUnit and IecUnits.HumanizeRounded state what it prints |
| IecUnits.Decimals | main.go:204-209 | the precision tier chosen on the value before rounding; stated by IecUnits.HumanizeTiers and IecUnits.SignificantDigits |
| IecUnits.FormatFixed | main.go:205-209 | `%.Nf` on a non-negative value; IecUnits.HumanizeRounded states that it prints the value rounded to N decimals, ties to even, and Decimal.ParseFixedString that the text reads back as that rounding |
| IecUnits.HumanizeIEC | main.go:188-210 | the division loop and the precision choice compute exactly `Humanize(bytes)` |
| IecUnits.ScaledReaches | main.go:198 | the loop test `val >= c` after e divisions is f >= c * 1024^e |
| IecUnits.UnitIndexExact | main.go:198-201 | the loop stops exactly where the next unit is out of reach or is absent |
| IecUnits.FloatReachesUnit | main.go:190-198 | a count of at least 1024 is still at least 1024 as a float64 |
| IecUnits.HumanizeSmall | main.go:190-192 | below 1024: the decimal digits of the count with no leading zero, then "B", and they read back as the count |
| IecUnits.HumanizeUnit | main.go:194-201 | from 1024 on: the unit is KiB to EiB, the shown value is in [1, 1024), every smaller unit leaves at least 1024, and the conversion is exact below 2^53 |
| IecUnits.FloatBelow | main.go:194-201 | the float64 of every uint64 is below 1024^7, so EiB is always enough |
| IecUnits.HumanizeRounded | main.go:203-209 | the number printed is the value rounded to the tier's decimals, ties to even; it reads back as that value and has 100 to 1024 units |
| IecUnits.HumanizeTiers | main.go:204-209 | no decimals from 100 on, one from 10 on, two below 10, stated on integers |
| IecUnits.SignificantDigits | main.go:203-209 | a value in [1, 1024) rounded in its tier has 100 to 1024 units |
| IecUnits.HumanizeAt | main.go:194-209 | Humanize for a known stopping unit and precision |
| HumanizeExamples.Zero | main_test.go:12 | 0 is "0B" |
| HumanizeExamples.One | main_test.go:13 | 1 is "1B" |
| HumanizeExamples.HalfKibibyte | main_test.go:14 | 512 is "512B" |
| HumanizeExamples.Largest | main_test.go:15 | 1023 is "1023B" |
| HumanizeExamples.Kibibyte | main_test.go:16 | 1024 is "1.00KiB" |
| HumanizeExamples.OneAndAHalfKibibytes | main_test.go:17 | 1536 is "1.50KiB" |
| HumanizeExamples.TenKibibytes | main_test.go:18 | 10240 is "10.0KiB" |
| HumanizeExamples.HundredKibibytes | main_test.go:19 | 102400 is "100KiB" |
| HumanizeExamples.Mebibyte | main_test.go:20 | 1048576 is "1.00MiB" |
| HumanizeExamples.UsedBytes | main_test.go:21 | 178255984 is "170MiB" |
| HumanizeExamples.GrowthRate | main_test.go:22 | 293007 is "286KiB" |
| HumanizeExamples.Count128849018 | main_test.go:23 | 128849018 is "123MiB" |
| HumanizeExamples.Gibibyte | main_test.go:24 | 1073741824 is "1.00GiB" |
| HumanizeExamples.TenGibibytes | main_test.go:25 | 10737418240 is "10.0GiB" |
| HumanizeExamples.Tebibyte | main_test.go:26 | 1099511627776 is "1.00TiB" |
| HumanizeExamples.TieToEven | main.go:209 | 1152 is 1.125 KiB, which ties and rounds to the even digit: "1.12KiB" |
| HumanizeExamples.RoundsUpToNextThousand | main.go:198-205 | 1048575 stays in KiB (1023.999...) and rounds to "1024KiB" |
| HumanizeExamples.LargestFloat | main.go:196 | float64 rounds 2^64 - 1 up to 2^64 |
| HumanizeExamples.LargestCount | main.go:188-210 | 2^64 - 1 is "16.0EiB" |
| HumanizeExamples.ElevenAndAHalfGibibytes | main_test.go:97 | 12365217792 is "11.5GiB" |
| HumanizeExamples.TwelveGibibytes | main_test.go:189 | 12884901888 is "12.0GiB" |
| HumanizeExamples.HundredMebibytes | main_test.go:98 | 104857600 is "100MiB" |
| HumanizeExamples.Gigabyte | main_test.go:102 | 10^9 is "954MiB" |
| HumanizeExamples.FiveHundredMegabytes | main_test.go:103 | 5 * 10^8 is "477MiB" |
| Format.FormatValue | main.go:180-186 | fails exactly when parseQuantity fails, with its error; otherwise humanizeIEC of the byte count |
| Format.FormatValueNotReapplied | main.go:180-186 | formatting an already formatted value is a syntax error on that text, so a rewritten field is never rewritten again |
| Format.HumanizedRejected | main.go:188-210 | parseQuantity refuses every output of humanizeIEC |
| Format.UnitTextRejected | main.go:117-177 | a number followed by a unit name is no quantity: the B ends no suffix, and the E of EiB is followed by a letter |
| FormatExamples.UsedBytes | main_test.go:92 | "178255984" formats as "170MiB" |
| FormatExamples.GrowthRate | main_test.go:93 | "293007" formats as "286KiB" |
| FormatExamples.RawGibibyte | main_test.go:94 | "1073741824" formats as "1.00GiB" |
| FormatExamples.SpaceAvailable | main_test.go:97 | "12075408Ki" formats as "11.5GiB" |
| FormatExamples.HundredMebibytes | main_test.go:98 | "100Mi" formats as "100MiB" |
| FormatExamples.SuffixedGibibyte | main_test.go:99 | "1Gi" formats as "1.00GiB" |
| FormatExamples.TwelveGibibytes | main_test.go:187-189 | "12Gi" formats as "12.0GiB" |
| FormatExamples.Gigabyte | main_test.go:102 | "1G" formats as "954MiB" |
| FormatExamples.FiveHundredMegabytes | main_test.go:103 | "500M" formats as "477MiB" |
| FormatExamples.Invalid | main_test.go:106 | "invalid" is an error |
| FormatExamples.Empty | main_test.go:107 | "" is an error |
| Rewrite.SkipSpaces | main.go:72 | `\s*`: the longest run of regexp spaces from i |
| Rewrite.QuoteEnd | main.go:72 | `[^"]*`: the first '"' at or after i, or the end |
| Rewrite.KeyAt | main.go:72 | `"field"\s*:\s*` at i: where the value starts |
| Rewrite.ExponentEnd | main.go:87 | `(?:[eE][+-]?\d+)?`: the end of the exponent when there is one |
| Rewrite.QuotedValueAt | main.go:72 | `"([^"]+)"`: a match ends at least three characters on and within the text; Rewrite.QuotedValueExact states exactly when it matches and what it captures |
| Rewrite.NumberAt | main.go:87 | the number and its delimiter: a match ends at least two characters on and within the text; Rewrite.NumberAtExact, Rewrite.NumberAtComplete and Rewrite.NumberAtText state when it matches and what it captures |
| Rewrite.MatchAt | main.go:72-88 | a match of either pattern at i ends after i and within the text |
| Rewrite.Replacement | main.go:79-98 | the two callbacks; stated by Rewrite.Reformatted (a formatted value becomes `"field": "t"` plus the delimiter) and Rewrite.Kept (a refused value leaves the match as it was) |
| Rewrite.ReplaceAllFrom | main.go:74 | `ReplaceAllStringFunc`; stated by Rewrite.CopiedUntil, Rewrite.Reformatted, Rewrite.Kept and Rewrite.PassUnchanged |
| Rewrite.RewriteField | main.go:68-100 | one loop iteration, the quoted pass then the unquoted pass; stated by Rewrite.RejectedUnchanged and Rewrite.AbsentUnchanged |
| Rewrite.RewriteFields | main.go:66-102 | the loop over the fields in order; Rewrite.ProcessJSON computes it and Rewrite.AbsentFieldsUnchanged states it |
| Rewrite.ProcessJSON | main.go:66-102 | the loop computes `RewriteFields(input, fields)`: both passes for each field, in order |
| Rewrite.KeyAtExact | main.go:72 | KeyAt finds `"field"\s*:\s*` exactly when the text has that shape, with both runs of spaces taken whole |
| Rewrite.QuotedValueExact | main.go:72 | QuotedValueAt finds `"([^"]+)"` exactly when it is there, capturing the value |
| Rewrite.NumberAtComplete | main.go:87 | a number of the pattern's shape followed by a delimiter is found, with the delimiter kept apart |
| Rewrite.NumberTextAt | main.go:87 | the number grammar on a slice is the shape on the whole text |
| Rewrite.NumberAtExact | main.go:87 | NumberAt finds the number and its delimiter exactly when they are there |
| Rewrite.NumberAtText | main.go:87 | the captured unquoted value is in the number grammar |
| Rewrite.PatternsExclusive | main.go:72-88 | at any position at most one of the two patterns matches |
| Rewrite.CopiedUntil | main.go:74 | a stretch where no match starts is copied as it is |
| Rewrite.Reformatted | main.go:79-83 | a leftmost match whose value formats to t becomes `"field": "t"` plus its delimiter, and the search resumes after it |
| Rewrite.Kept | main.go:79-81 | a leftmost match whose value is refused stays as it was, and the search resumes after it |
| Rewrite.PassUnchanged | main.go:79-81 | a pass in which every match is refused leaves the text unchanged |
| Rewrite.RejectedUnchanged | main.go:74-99 | a field whose values formatValue all refuses, in both patterns, is left unchanged |
| Rewrite.AbsentUnchanged | main.go:68-99 | a field that does not occur changes nothing |
| Rewrite.AbsentFieldsUnchanged | main.go:66-102 | a field list none of which occurs, in particular an empty one, returns the input |
| Rewrite.QuotedMatchComplete | main.go:72-83 | the quoted pattern matches wherever the text has the shape `"field" : "v"`, capturing v whole |
| Rewrite.QuotedMatchSound | main.go:72-83 | and it matches only there |
| Rewrite.NumberMatchComplete | main.go:87-98 | the unquoted pattern matches `"field" : n` followed by a delimiter, capturing n and the delimiter |
| Rewrite.NumberMatchSound | main.go:87-98 | and it matches only there |
| Rewrite.NoMatchIn | main.go:72-87 | every match starts with the key: nothing matches where no `"field"` starts |
| Rewrite.NoValueAfterKey | main.go:72-88 | the key followed by a value of the other kind gives no match |
| RewriteExamples.SingleFieldQuoted | main_test.go:131-136 | a quoted value is rewritten |
| RewriteExamples.MultipleFields | main_test.go:137-142 | two listed fields are both rewritten |
| RewriteExamples.NestedObject | main_test.go:143-148 | a field inside a nested object is rewritten |
| RewriteExamples.UnquotedNumber | main_test.go:149-154 | an unquoted number becomes a quoted string |
| RewriteExamples.FieldNotInList | main_test.go:155-160 | a field that is not listed is left alone |
| RewriteExamples.PreservesOtherFields | main_test.go:161-166 | the other fields are copied unchanged |
| RewriteExamples.EmptyFieldsList | main_test.go:167-172 | an empty field list leaves the text as it is |
| RewriteExamples.QuantityKiSuffix | main_test.go:173-178 | a Ki quantity is rewritten to "11.5GiB" |
| RewriteExamples.QuantityMiSuffix | main_test.go:179-184 | a Mi quantity is rewritten to "100MiB" |
| RewriteExamples.QuantityGiSuffix | main_test.go:185-190 | a Gi quantity is rewritten to "12.0GiB" |
| RewriteExamples.MixedRawAndSuffixed | main_test.go:191-196 | a raw count and a suffixed quantity side by side are both rewritten |

## Left out

- `main` (main.go:14-64) is not modelled. That covers flag parsing, splitting
  and trimming the field list, reading stdin, the usage text and the exit
  codes. They are I/O.
- Decimal.ParseDecimal: models only the decimal grammar of
  `strconv.ParseFloat`. Inputs that ParseFloat also accepts are syntax errors
  in the model: `inf`, `nan`, hexadecimal floats, and underscores between
  digits (Go's literal syntax, which ParseFloat takes for decimal numbers as
  well). So `1_000Ki`, which Go reads as 1024000, is `MalformedNumber("1_000")`
  in the model.
- Decimal.ParseDecimal: the number is read exactly, not rounded to a
  float64. `ErrRange` for a huge exponent is therefore not reported; the
  model reports such a value as out of range instead. A negative number too
  small for float64 (`-1e-400`) underflows in Go to minus zero, which is not
  below zero, so Go returns 0; the model keeps it negative and returns
  `NegativeValue`.
- Decimal.FloorScaled: the value and the product `f * multiplier`
  (main.go:165) are exact in the model. Go rounds ParseFloat's result and then
  the product to float64, and truncates that. The results differ in either
  direction, and by more than one: Go gives 9007199254740992 for
  `9007199254740993`, 123456789012344992 for `123456789012345K`,
  1100000000000000128 for `1.1E` and 1 for `0.99999999999999999`, where the
  model gives 9007199254740993, 123456789012345000, 1100000000000000000 and 0.
  The first two are proved as `QuantityEdges.RawCountBeyondFloat64` and
  `QuantityEdges.ProductBeyondFloat64`; agreement below 2^53 is proved for
  integers as `QuantityEdges.RawCountExactInFloat64` and
  `QuantityEdges.SuffixedCountExactInFloat64`.
- Quantity.IntegerToken: states the exact reading; it is Go's result only
  when the count is a float64 (below 2^53, say).
- Quantity.IntegerRoundTrip: holds for every uint64 in the model; in Go only
  for counts that are float64 values (below 2^53, say).
- Quantity.SuffixedInteger: states the exact product; it is Go's result
  only when the product is a float64 (below 2^53, say).
- Quantity.SuffixedFixedPoint: states the exact value times the
  multiplier; it is Go's result only when the fixed-point value has an exact
  binary expansion (1.5, 0.25) and the product is a float64.
- Quantity.FixedPointTruncates: states the truncation of the exact value; Go
  truncates ParseFloat's rounded value, which differs when rounding crosses
  an integer (`0.99999999999999999` is 1 in Go).
- Quantity.ScaledByteCount: states mantissa * 10^exponent * multiplier
  exactly; it is Go's result only when that value and the product are
  float64 values.
- Quantity.ToByteCount: `uint64(f)` for f of 2^64 or more is
  implementation-defined in Go. The model reports `OutOfRange`, an error the
  source does not have. For the same reason, a raw count just below 2^64,
  which Go would round up to 2^64, is returned exactly.
- Quantity.ParseError: error messages are modelled as the cases of a
  datatype, not as text.
- Go strings are UTF-8 bytes. The model works on characters, and so agrees
  with Go on ASCII text. `strings.TrimSpace` is modelled with the Unicode
  white-space set it uses. `\s` in the patterns is `[\t\n\f\r ]`.
- IecUnits.HumanizeIEC: the three `Sprintf` calls are modelled as one
  formatting call, with the precision chosen by the same tests. `%.Nf` is
  modelled only for the non-negative values it is given here.
- Rewrite.ProcessJSON: the RE2 engine is not modelled. Each pattern is a
  deterministic scanner, proved to match exactly the text shape the pattern
  describes.
- Rewrite.ProcessJSON: the callback re-runs `FindStringSubmatch` on its own
  match, and its guards `len(submatch) < 2` and `len(submatch) < 3` cannot
  fail (main.go:75-78, 90-93). The model uses the captures of the match
  directly.
- Rewrite.ReplaceAllFrom: the formatter is a parameter. `ProcessJSON` passes
  `FormatValue`, as the source's callback does.
