# Receipt processor: a verified model of the scoring engine, the validator and the score store

The receipt processor is a small web service. A client submits a receipt. It holds:
- a retailer name;
- a purchase date and time;
- a list of items, each with a short description and a price;
- a total.

The service validates the receipt, scores it with reward points, and keeps the score in memory under a generated id. A second endpoint returns the points stored under an id.

This project models the three pieces that make up the service's logic, and proves what they do:

- **The scoring engine** (models/points.go). `CalculatePoints` adds up seven independent rules:
  - one point per ASCII letter or digit of the retailer name;
  - 50 for a whole-number total;
  - 25 for a total that is a multiple of 0.25;
  - 5 per pair of items;
  - the price times 0.2, rounded up, for each item whose trimmed description length is a multiple of 3;
  - 6 for an odd purchase day;
  - 10 for a purchase time from 14:00 up to 16:00.

  The model has a pure specification, `Models.Points`, one function per rule. It also has the Go routine's own accumulator loops as methods, `Models.CalculatePoints` and `Models.SumItemPoints`, which are proved equal to that specification.
- **The receipt validator** (handlers/process.go). A receipt is accepted when six checks all pass:
  - the retailer name is not empty;
  - the item list is not empty;
  - the date matches the layout `2006-01-02`;
  - the time matches the layout `15:04`;
  - the total parses as a number;
  - every item has a non-empty description and a price that parses.

  The item check is the loop `Handlers.AllItemsValid`.
- **The score store** (handlers/process.go and handlers/get_points.go). This is the class `Handlers.ReceiptStore`, which holds the service's map from receipt id to points.
  - `ProcessReceipt` validates, scores and inserts. A rejected receipt leaves the map as it was.
  - `GetPoints` looks an id up and changes nothing.

Go's library routines that the core calls are modelled explicitly, each with its own round-trip or characterisation lemmas:
- `strconv.ParseFloat` on decimal text: module `Decimals`. Amounts are exact decimals `mantissa / 10^scale`.
- `time.Parse` with the two layouts: module `TimeLayouts`.
- `strings.TrimSpace` and `len` in bytes: module `Strings`.

The receipts of the service's test file are worked through in module `Scenarios`. The one-item receipt is valid and scores 14. The five-item receipt is valid and scores 28. The submission without date, time, total and price is rejected.

Files:
- `arith.dfy`: powers of ten, Euclidean division, rounding up a quotient.
- `numerals.dfy`: digit runs and their values.
- `wrappers.dfy`: `Option`.
- `sequences.dfy`: removing one element from a sequence.
- `strings.dfy`: white-space trimming and UTF-8 length.
- `decimals.dfy`: the decimal parser, the syntax it accepts and its round trip.
- `time_layouts.dfy`: the date and time layouts.
- `models.dfy`: the receipt and its score.
- `points_properties.dfy`: what each rule rewards.
- `handlers.dfy`: validation and the store.
- `scenarios.dfy`: the test receipts.

## Model

| member | source | states |
|---|---|---|
| Models.CalculatePoints | models/points.go:11-50 | the accumulator the routine builds rule by rule, through both loops and the conditional additions, ends equal to `Points(receipt)`, the sum of the seven rules |
| Models.SumItemPoints | models/points.go:31-37 | the loop over the items adds, for each item whose trimmed byte length is a multiple of 3, its price times 0.2 rounded up; the sum equals `ItemsPoints(items)` |
| Models.ItemsPointsStep | models/points.go:31-37 | the item term over the first n items is the term over the first n-1 plus the points of item n-1 |
| Models.ItemPairPoints | models/points.go:29 | the pair term is a multiple of 5 and 5 points per complete pair: 2n <= 5·count < 2n + 10, so one item gives 0 and five give 10 |
| Models.AlphanumericCount | models/points.go:14-18 | the retailer term never exceeds the length of the name |
| PointsProperties.AlphanumericCountAppend | models/points.go:14-18 | the retailer count over a concatenation is the sum of the counts of the parts |
| PointsProperties.AlphanumericCountExtremes | models/points.go:14-18 | the count equals the length exactly when every character is a letter or digit, and is 0 exactly when none is |
| PointsProperties.OnlyAsciiAlphanumericsCount | models/points.go:53-55 | a single character earns a point exactly when it is in a-z, A-Z or 0-9, and every such character is ASCII |
| PointsProperties.WholeIffIntegral | models/points.go:20-23 | the 50-point rule fires exactly when the total's exact value is a whole number |
| PointsProperties.QuarterIffIntegral | models/points.go:25-27 | the 25-point rule fires exactly when four times the total's value is a whole number, i.e. the total is a multiple of 0.25 |
| PointsProperties.WholeTotalEarnsBoth | models/points.go:20-27 | a whole-number total is also a multiple of 0.25 and earns 75 points from the two total rules |
| PointsProperties.CentsRules | models/points.go:20-35 | for an amount in cents: whole iff cents % 100 == 0, multiple of 0.25 iff cents % 25 == 0, and price times 0.2 rounded up is ceil(cents / 500) |
| PointsProperties.CeilFifthIsCeilDiv | models/points.go:35 | the item bonus is the price's mantissa divided by 5·10^scale, rounded up |
| PointsProperties.CeilFifthIsCeiling | models/points.go:35 | the item bonus is the least whole number not below a fifth of the price's value: c - 1 < value/5 <= c |
| PointsProperties.AmountRulesDependOnValue | models/points.go:20-35 | two spellings of the same value (6.5 and 6.50) fare the same under all three amount rules |
| PointsProperties.CeilFifthNonNegative | models/points.go:35 | a price of zero or more never earns a negative bonus |
| PointsProperties.ItemsPointsAppend | models/points.go:31-37 | the item term over a concatenation of item lists is the sum of the terms |
| PointsProperties.ItemsPointsWithout | models/points.go:31-37 | removing one item removes exactly that item's points |
| PointsProperties.ItemsPointsSingle | models/points.go:31-37 | a list of one item scores that item's points |
| PointsProperties.ItemsPointsPermutation | models/points.go:31-37 | item lists that are permutations of each other score the same: items are scored independently of order |
| PointsProperties.ItemPointsIgnoresPadding | models/points.go:32-35 | white space added around a description never changes what the item earns |
| PointsProperties.BlankDescriptionEarnsBonus | models/points.go:32-35 | a description of white space alone trims to length 0 and so always earns the price bonus |
| PointsProperties.ItemsPointsNonNegative | models/points.go:31-37 | with no negative price the item term is at least 0 |
| PointsProperties.PointsNonNegative | models/points.go:11-50 | with no negative price a receipt never scores below 0 |
| PointsProperties.OddDayByLastDigit | models/points.go:39-42 | for a date that parses, the 6-point rule fires exactly when the last digit of the date text is odd |
| PointsProperties.AfternoonWindow | models/points.go:44-47 | on a clock time the 10-point rule fires exactly from 14:00 up to but not including 16:00; the minute test never excludes anything |
| PointsProperties.ParseFailureDefaults | models/points.go:20-47 | text that does not parse scores as Go's zero values: a total of 0 earns 50 + 25, a price of 0 earns nothing, January 1 is an odd day, midnight is outside the window |
| Strings.TrimSpaceIsCore | models/points.go:32 | the trimmed text is a slice of the description that neither starts nor ends with white space, with only white space cut on either side |
| Strings.TrimSpaceIgnoresPadding | models/points.go:32 | white space added on either side of a text never changes its trim |
| Strings.TrimSpaceOfBlank | models/points.go:32 | text of white space alone trims to the empty string |
| Strings.TrimSpaceOfTrimmed | models/points.go:32 | text with no white space at either end is its own trim |
| Strings.LeadingSpaceEndIsFirst | models/points.go:32 | the scan from the left passes only white space and stops at the first character that is not |
| Strings.TrailingSpaceStartIsLast | models/points.go:32 | the scan from the right passes only white space and stops after the last character that is not |
| Strings.LeadingSpaceEndUnique | models/points.go:32 | any position with only white space before it and none at it is where the scan from the left stops |
| Strings.TrailingSpaceStartUnique | models/points.go:32 | any position with only white space after it and none just before it is where the scan from the right stops |
| Strings.Utf8Length | models/points.go:32 | the byte length of a text is between its character count and four times it |
| Strings.Utf8LengthOfAscii | models/points.go:32 | the byte length equals the character count exactly when the text is ASCII |
| Decimals.ParseDecimal | handlers/process.go:28-31 | only non-empty text parses as a number |
| Decimals.FormatThenParse | handlers/process.go:28-31 | every amount's canonical spelling parses back to exactly that amount |
| Decimals.ParseSpelledDecimal | handlers/process.go:28-31 | any text made of an optional '+' or '-', a digit run and an optional '.' with a second digit run, with at least one digit in all ("7.", ".5" and "+5" included), parses to the number the digits spell, negated after '-', with as many decimal places as digits after the '.' |
| Decimals.ParsedIsSpelled | handlers/process.go:28-31 | conversely, every text that parses is such a spelling: its sign, the digits before the first '.', and the digits after it |
| Decimals.DecimalSyntaxAccepts | handlers/process.go:28-31 | a text parses as a number exactly when it is such a spelling |
| Decimals.StrayCharacterRejected | handlers/process.go:28-31 | a character that is not a digit, not a '.' and not a leading sign makes the text fail, so letters and exponents ("1e5") are rejected |
| Decimals.SecondDotRejected | handlers/process.go:28-31 | a text with two '.' characters fails |
| Decimals.MalformedRejected | handlers/process.go:28-31 | "", "-", ".", "1.2.3", "abc" and "1e5" fail to parse |
| Decimals.DigitsExceptAll | handlers/process.go:28-31 | the parser's digit check passes exactly when every character after the sign other than the '.' is a digit |
| Decimals.IndexOfDotFromIsFirst | handlers/process.go:28-31 | the parser's search for the decimal point stops at the first '.' |
| TimeLayouts.ParseDate | handlers/process.go:16-19 | a date that parses is a real calendar date: a year below 10000, month 1 to 12, a day within the month's length, leap years included |
| TimeLayouts.DaysIn | handlers/process.go:16-19 | every month has 28 to 31 days, and February has 29 exactly in leap years |
| TimeLayouts.DateLayoutAccepts | handlers/process.go:16-19 | the date layout accepts exactly the "YYYY-MM-DD" spellings of calendar dates |
| TimeLayouts.FormatThenParseDate | handlers/process.go:16-19 | every calendar date, spelled in the layout, parses back to itself |
| TimeLayouts.ParseThenFormatDate | handlers/process.go:16-19 | a date text that parses is exactly the layout's spelling of the parsed date |
| TimeLayouts.ParseTime | handlers/process.go:22-25 | a time that parses is a clock time: hour below 24, minute below 60 |
| TimeLayouts.TimeLayoutAccepts | handlers/process.go:22-25 | the time layout accepts exactly "HH:MM" and, for hours below 10, "H:MM" spellings of clock times |
| TimeLayouts.FormatThenParseTime | handlers/process.go:22-25 | every clock time parses back from both of its spellings |
| TimeLayouts.ParseThenFormatTime | handlers/process.go:22-25 | a time text that parses is one of the two spellings of the parsed time |
| Handlers.AllItemsValid | handlers/process.go:34-41 | the loop with early exit returns true exactly when every item has a non-empty description and a price that parses; an empty list passes |
| Handlers.RejectionCauses | handlers/process.go:47-53 | an empty retailer, an empty item list, or a date, time or total that does not parse each make a receipt invalid |
| Handlers.MissingFieldsInvalid | handlers/process.go:16-31 | the empty text a missing field arrives as is neither a date, a time nor a number, and an item without a price is invalid |
| Handlers.ValidReceiptUsesParsedFields | handlers/process.go:47-58 | on an accepted receipt the score uses the parsed date, time, total and prices, never the zero-value fallbacks |
| Handlers.BlankDescriptionAccepted | handlers/process.go:36 | the description check does not trim: a description of white space alone passes and then earns the price bonus |
| Handlers.ReceiptStore.constructor | handlers/process.go:13 | the store starts empty |
| Handlers.ReceiptStore.ProcessReceipt | handlers/process.go:43-64 | a receipt passing all six checks is accepted under its id, and the map gains exactly `id ↦ Points(receipt)` with every other entry unchanged (one more entry when the id is new); any other receipt is rejected and the map is unchanged |
| Handlers.ReceiptStore.GetPoints | handlers/get_points.go:9-19 | the lookup finds an id exactly when it is in the map, returns its stored points, and changes nothing |
| Handlers.SubmitThenLookUp | handlers/get_points.go:12-18 | after acceptance the map is the old one with `id ↦ Points(receipt)` and the lookup gives `Found(Points(receipt))`; after a rejection the map is unchanged and the lookup gives the points stored under the id before, or NotFound |
| Scenarios.OneItemReceiptScores14 | tests/handlers_test.go:27-35 | the one-item Target receipt of the tests passes validation and scores 14 |
| Scenarios.ValidInputAccepted | tests/handlers_test.go:24-45 | submitting the one-item receipt is accepted under the id it is given |
| Scenarios.IncompleteReceiptInvalid | tests/handlers_test.go:52-57 | the submission with only a retailer and an item without a price fails validation |
| Scenarios.InvalidInputRejected | tests/handlers_test.go:49-67 | that submission is rejected and nothing is stored under the id |
| Scenarios.LookUpStoredAndUnknownIds | tests/handlers_test.go:71-98 | with "test-id" stored at 50 the lookup returns 50, and "non-existent-id" is not found |
| Scenarios.UnpaddedItemsEarnNothing | tests/handlers_test.go:110-113 | the three items whose descriptions are 17 and 20 characters long are valid and earn nothing |
| Scenarios.CheesePizzaItemPoints | tests/handlers_test.go:111 | "Emils Cheese Pizza" (18 characters) at 12.25 is valid and earns 3 |
| Scenarios.PaddedItemPoints | tests/handlers_test.go:114 | the padded "Klarbrunn 12-PK 12 FL OZ" item (24 characters once trimmed) at 12.00 is valid and earns 3 |
| Scenarios.FiveItemReceiptScores28 | tests/handlers_test.go:105-117 | the five-item Target receipt passes validation and scores 28: 6 + 10 + 3 + 3 + 6 |
| Scenarios.ProcessAndGetPoints | tests/handlers_test.go:102-144 | submitting the five-item receipt and looking up the id it was accepted under gives 28 points |

## Left out

- HTTP and framework glue is not modelled. This covers gin routing and the JSON binding of the request, the `c.Param` lookup, response bodies and status codes, and `main.go`. Their outcomes appear as `Accepted(id)`/`Rejected` and `Found(points)`/`NotFound`. A request body that fails JSON binding is a rejection the model does not represent.
- `utils.GenerateID` is not part of this model. The id is a parameter of `ProcessReceipt`, and a fresh id is not required. Go's map write replaces an entry under the same id, and the contract covers both the new-id and the existing-id case.
- Concurrency is not modelled. The Go map is shared between requests without a lock; the model is sequential.
- Models.CalculatePoints: amounts are exact decimals, not float64. The rules use `float64(int(total))`, `math.Mod(total, 0.25)` and `math.Ceil(price * 0.2)`. The model decides "whole", "multiple of 0.25" and "a fifth, rounded up" exactly on the decimal value. It therefore does not capture float rounding, nor the `int` overflow of very large amounts.
- Decimals.ParseDecimal: only the plain decimal syntax of `strconv.ParseFloat` is accepted: an optional sign, digits, and an optional '.' with at least one digit in all. The following are not modelled:
  - exponents ("1e5");
  - hexadecimal mantissas;
  - "Inf", "Infinity" and "NaN";
  - digit-separating underscores;
  - the range error for magnitudes beyond float64.

  Such inputs are rejected, or in the last case accepted, where Go does the opposite.
- TimeLayouts.ParseDate and TimeLayouts.ParseTime are explicit parsers for the two layouts. They are not Go's `time.Parse`. The year is exactly four digits, month and day exactly two, the hour one or two digits, the minute two. Nothing may follow.
- Go iterates the retailer name by runes decoded from UTF-8 bytes, and `len` counts bytes. The model's text is a sequence of Unicode code points. Ill-formed UTF-8, which Go decodes as U+FFFD, has no counterpart.
- The white-space set of `strings.TrimSpace` is written out as Unicode's White_Space property, the set `unicode.IsSpace` reports; it is not derived from Unicode tables.
- Handlers.ReceiptStore.ProcessReceipt: the six checks are one conjunction, with the item loop run only when the first five pass. Go's order of evaluation among the first five is not modelled, because the checks have no side effects.
