# Receipt text parser

A Dafny model of the receipt-text parser of the expense tracker
(`client/src/lib/ocr.ts`). The client runs OCR on a photographed receipt.
`parseReceiptText` then turns the recognised text into a best-guess
`OCRResult`: vendor, date, time, total and up to ten line items. The user
reviews that result before it is stored.

The parser works line by line:

- The text is split at `'\n'`; blank lines are dropped.
- `findVendor` takes the first of the first five lines that, trimmed, is
  longer than 3 characters, does not start with a digit and has no `$`.
- `findDateTime` takes the first date match and the first time match, in any
  lines. The date becomes `YYYY-MM-DD` and the time becomes 24-hour `HH:MM`.
- `findTotal` takes the first line labelled `total`, `amount` or `sum`.
  Without one, it takes the largest first `$` amount of any line.
- `findItems` collects one item per matching line and keeps the first ten.

Modules, one file each:

| module | file | contents |
|---|---|---|
| `Options` | options.dfy | `Option` |
| `Scan` | scan.dfy | `First`: the first index in a range where a probe yields a value (the leftmost match, the first line) |
| `Seqs` | seqs.dfy | mapping, filtering and collecting the values of a sequence |
| `JsString` | js_string.dfy | the JavaScript string built-ins the parser uses: `trim`, `split`, `includes`, `toLowerCase`, `padStart`, integer text |
| `JsNumber` | js_number.dfy | the numeral token `\d+\.?\d*`, `parseFloat` of it, and `toFixed(2)` |
| `OcrPatterns` | ocr_patterns.dfy | the five regular expressions, each written as a scan |
| `Ocr` | ocr.dfy | the result records, the parser as specification functions, the parser's loops as methods, and the properties |
| `OcrExamples` | ocr_examples.dfy | worked receipts |

Each regular expression has a ghost predicate (`DateShape`, `TimeShape`,
`TotalShape`, `TailShape`, `ItemShape`). The predicate describes every way a
backtracking engine could match at one position. The executable matcher is
proved to return the match the JavaScript engine picks:

- the leftmost position;
- for greedy groups, the longest run;
- for the lazy item name `(.+?)`, the shortest name that lets the rest match.

Every loop of the source is a method with the same loop. Each method is
proved equal to a specification function: `FindVendor`/`VendorOf`,
`FindDateTime`/`DateTimeOf`, `FindTotal`/`TotalOf`,
`FindMaxAmount`/`MaxAmount`, `FindItems`/`ItemsOf` and
`ParseReceiptText`/`Receipt`. The lemmas state the source's promises about
those functions.

Behaviour of the source that the model keeps as written:

- An item name can be empty after trimming: in a line that starts with two
  spaces and then "2 $3.00", the name group is the first space alone.
- A PM hour of 88 or more, such as "95:10 PM", gives a three-digit hour
  ("107:10"): the pattern accepts any two digits, and only 12 is exempt from
  adding 12.
- The date groups are not range-checked: "13/45/99" gives "2099-13-45".
- Case-insensitive matching (`/i` without the `u` flag) folds only ASCII
  letters here, since no non-ASCII character folds to an ASCII one.

## Model

| member | source | states |
|---|---|---|
| Ocr.NonBlankSound | client/src/lib/ocr.ts:28 | the filtered lines are no more than the input lines; each one is non-blank and is a line of the input |
| Ocr.NonBlankAppend | client/src/lib/ocr.ts:28 | filtering distributes over concatenation, so the lines keep their order |
| Ocr.NonBlankKeepsAll | client/src/lib/ocr.ts:28 | when no line is blank, the filter keeps every line unchanged |
| Ocr.LinesSpec | client/src/lib/ocr.ts:28 | every line the parser works on is non-blank and contains no newline |
| Ocr.LinesOfJoined | client/src/lib/ocr.ts:28 | non-blank, newline-free lines joined with newlines split back into exactly those lines |
| Ocr.VendorOfIsCandidate | client/src/lib/ocr.ts:51-60 | the vendor is never empty; it is "Unknown Vendor" or the trimmed text of one of the first five lines that qualifies (longer than 3, no leading digit, no `$`) |
| Ocr.VendorIsFirstCandidate | client/src/lib/ocr.ts:53-57 | when line k is among the first five, qualifies, and no earlier line qualifies, the vendor is line k trimmed |
| Ocr.VendorFallback | client/src/lib/ocr.ts:53-59 | when none of the first five lines qualifies, the vendor is "Unknown Vendor" |
| Ocr.FindVendor | client/src/lib/ocr.ts:51-60 | the loop over the first min(5, n) lines returns `VendorOf(lines)` |
| Ocr.FullYearValue | client/src/lib/ocr.ts:73 | a two-digit year becomes four digits worth 2000 plus its value; any other year is kept |
| Ocr.NormalizeDateParts | client/src/lib/ocr.ts:74 | the date is the full year, '-', the month padded to two, '-', the day padded to two, at those positions |
| Ocr.NormalizeDateValues | client/src/lib/ocr.ts:74 | padding month and day keeps them all digits and keeps their values |
| Ocr.Hour24 | client/src/lib/ocr.ts:80-84 | without AM/PM the hour is kept; an hour 1-12 with AM maps into 0-11, and with PM into 12-23, keeping its value modulo 12 |
| Ocr.HourTextValue | client/src/lib/ocr.ts:79-84 | the rewritten hour text is all digits and its value is `Hour24` of the matched hour and meridiem |
| Ocr.FormatTimeMeaning | client/src/lib/ocr.ts:85 | the time is a hour field of at least two digits worth the 24-hour value, then ':', then the matched minutes |
| Ocr.DateIsFirstMatch | client/src/lib/ocr.ts:69-75 | the date comes from the first line that matches the date pattern |
| Ocr.DateOfEmpty | client/src/lib/ocr.ts:66-75 | no date is found exactly when no line matches the date pattern |
| Ocr.TimeIsFirstMatch | client/src/lib/ocr.ts:77-86 | the time comes from the first line that matches the time pattern |
| Ocr.TimeOfEmpty | client/src/lib/ocr.ts:67-86 | no time is found exactly when no line matches the time pattern |
| Ocr.FindDateTime | client/src/lib/ocr.ts:62-93 | the loop over all lines returns `DateTimeOf(lines, today)`: first date or today, first time or "12:00" |
| Ocr.MaxOf | client/src/lib/ocr.ts:108 | the running maximum starts at 0 and is never negative |
| Ocr.MaxAmount | client/src/lib/ocr.ts:108-117 | the largest first `$` amount, or 0, is never negative |
| Ocr.MaxAmountIsMax | client/src/lib/ocr.ts:108-117 | no line's first `$` amount exceeds the maximum, and a non-zero maximum is the amount of some line |
| Ocr.MaxOfIsMax | client/src/lib/ocr.ts:113-115 | the running maximum bounds every value present, and a non-zero maximum is one of them |
| Ocr.TotalIsFixed2 | client/src/lib/ocr.ts:95-120 | the total is always a numeral with exactly two decimals |
| Ocr.LabelledTotalWins | client/src/lib/ocr.ts:100-105 | the first labelled line gives the total, its number rounded to two decimals, whatever the `$` amounts of other lines |
| Ocr.UnlabelledTotal | client/src/lib/ocr.ts:107-119 | without a labelled line the total is the largest amount to two decimals, or "0.00" when that is 0 |
| Ocr.FindTotal | client/src/lib/ocr.ts:95-120 | the two loops return `TotalOf(lines)` |
| Ocr.FindMaxAmount | client/src/lib/ocr.ts:108-117 | the second loop computes `MaxAmount(lines)` |
| Ocr.PatternItem | client/src/lib/ocr.ts:128-135 | a line the item pattern matches gives the trimmed name, the quantity as written, and the price to two decimals; the quantity is a numeral and the price has two decimals |
| Ocr.PriceOnlyItem | client/src/lib/ocr.ts:136-149 | a line the item pattern misses gives an item exactly when it has a `$` amount, is longer than 10, has no "total" in any case, and leaves a name longer than 2 once the first `$` amount is removed; the item then has quantity "1" |
| Ocr.TotalLineNotPriceItem | client/src/lib/ocr.ts:139 | a line with "total" in any case gives no item unless the item pattern matches it |
| Ocr.LineItemWellFormed | client/src/lib/ocr.ts:131-147 | every item a line gives has a two-decimal price and a numeral quantity |
| Ocr.CollectSound | client/src/lib/ocr.ts:127-151 | there are at most as many items as lines, and each item is the item of some line |
| Ocr.CollectAppend | client/src/lib/ocr.ts:127-151 | collecting distributes over concatenation, so items keep line order |
| Ocr.CollectWellFormed | client/src/lib/ocr.ts:127-151 | every collected item has a two-decimal price and a numeral quantity |
| Ocr.ItemsOfBounded | client/src/lib/ocr.ts:153 | the result is the first min(10, n) collected items: a prefix, at most ten |
| Ocr.FindItems | client/src/lib/ocr.ts:122-154 | the loop and the slice return `ItemsOf(lines)` |
| Ocr.ReceiptWellFormed | client/src/lib/ocr.ts:27-49 | every field is filled: vendor, date and time non-empty, a two-decimal total, 1 to 10 items each with a two-decimal price |
| Ocr.ReceiptFallbackItem | client/src/lib/ocr.ts:47 | when no line gives an item, the single item is "Item 1", quantity "1", priced at the total |
| Ocr.ReceiptDefaults | client/src/lib/ocr.ts:44-45 | with no date match the date is today; with no time match the time is "12:00" |
| Ocr.ParseReceiptText | client/src/lib/ocr.ts:27-49 | returns `Receipt(text, today)` |
| OcrPatterns.MatchDate | client/src/lib/ocr.ts:63 | the groups are 1-2, 1-2 and 2-4 digits, and they are the month, day and year text of the line at the match, one separator apart |
| OcrPatterns.DateAtSound | client/src/lib/ocr.ts:63 | a span found at a position is a match of the date pattern there |
| OcrPatterns.DateAtIsEngineMatch | client/src/lib/ocr.ts:63 | wherever the pattern can match at a position, the scan finds a match there with the same month and day groups and a year group at least as long |
| OcrPatterns.MatchDateNone | client/src/lib/ocr.ts:63 | no match is returned exactly when the pattern matches nowhere |
| OcrPatterns.MatchDateIsLeftmost | client/src/lib/ocr.ts:63-70 | the match returned is a match, and the pattern matches at no earlier position |
| OcrPatterns.MatchDateIsGreedy | client/src/lib/ocr.ts:63 | at the match position every match has the same month and day groups, and none has a longer year group |
| OcrPatterns.NoDateWithoutSeparator | client/src/lib/ocr.ts:63 | a line with no '/' and no '-' has no date |
| OcrPatterns.MatchTime | client/src/lib/ocr.ts:64 | the hour group is 1-2 digits and the minute group exactly 2 |
| OcrPatterns.TimeAtSound | client/src/lib/ocr.ts:64 | an hour length found at a position is a match of the time pattern there |
| OcrPatterns.TimeAtIsEngineMatch | client/src/lib/ocr.ts:64 | wherever the pattern can match, the scan finds the greedy hour length |
| OcrPatterns.MatchTimeNone | client/src/lib/ocr.ts:64 | no match is returned exactly when the pattern matches nowhere |
| OcrPatterns.MatchTimeIsLeftmost | client/src/lib/ocr.ts:64-79 | the hour and minute groups are the text at the match, and the pattern matches at no earlier position |
| OcrPatterns.NoTimeBeforeColon | client/src/lib/ocr.ts:64 | no time match starts more than two characters before the first ':' |
| OcrPatterns.LabelInitial | client/src/lib/ocr.ts:96 | a label word matches case-insensitively from its first letter |
| OcrPatterns.MatchTotal | client/src/lib/ocr.ts:96 | the captured amount is a numeral |
| OcrPatterns.TotalAtSound | client/src/lib/ocr.ts:96 | a span found at a position is a match of the total pattern there |
| OcrPatterns.TotalAtIsEngineMatch | client/src/lib/ocr.ts:96 | wherever the pattern can match, the scan finds exactly that (greedy) match |
| OcrPatterns.MatchTotalNone | client/src/lib/ocr.ts:96 | no match is returned exactly when the pattern matches nowhere |
| OcrPatterns.MatchTotalIsLeftmost | client/src/lib/ocr.ts:96-103 | the number returned is the whole numeral after the label, separators and `$` of a match, and the pattern matches at no earlier position |
| OcrPatterns.NoTotalWithoutLabel | client/src/lib/ocr.ts:96 | a line with none of the letters t, a, s in either case has no total |
| OcrPatterns.MatchPrice | client/src/lib/ocr.ts:97 | the match is a `$` followed by a numeral taken from the line at that position |
| OcrPatterns.MatchPriceIsLeftmost | client/src/lib/ocr.ts:97-112 | the `$` returned is the first `$` that is followed by a digit, and the number is the whole greedy `\d+\.?\d*` run after it |
| OcrPatterns.MatchPriceNone | client/src/lib/ocr.ts:97 | no match is returned exactly when no `$` is followed by a digit |
| OcrPatterns.TailAtSound | client/src/lib/ocr.ts:124 | a tail found after a name is a match of spaces, quantity, spaces, `$` and digit |
| OcrPatterns.TailAtIsEngineMatch | client/src/lib/ocr.ts:124 | wherever the tail can match, the scan finds exactly the greedy one |
| OcrPatterns.NoTailWithoutSpace | client/src/lib/ocr.ts:124 | no tail starts at a character that is not a space |
| OcrPatterns.LazyItemAtSound | client/src/lib/ocr.ts:124 | a name length tried by the lazy scan gives a match of the whole pattern |
| OcrPatterns.LazyItemAtShortest | client/src/lib/ocr.ts:124 | the lazy scan returns the shortest name that lets the rest match |
| OcrPatterns.ItemAtSound | client/src/lib/ocr.ts:124 | a match found at a position is a match of the item pattern there |
| OcrPatterns.ItemAtIsShortest | client/src/lib/ocr.ts:124 | wherever the pattern can match, the scan finds a match whose name is no longer |
| OcrPatterns.MatchItem | client/src/lib/ocr.ts:124 | the captured price is a numeral |
| OcrPatterns.MatchItemIs | client/src/lib/ocr.ts:124-130 | the leftmost position and shortest name determine the three groups |
| OcrPatterns.MatchItemGroups | client/src/lib/ocr.ts:124-130 | the name is non-empty and has no line terminator, and the quantity is a numeral |
| OcrPatterns.MatchItemNone | client/src/lib/ocr.ts:124 | no match is returned exactly when the pattern matches nowhere |
| OcrPatterns.MatchItemIsLeftmost | client/src/lib/ocr.ts:124-128 | the match is a match, its name is the shortest at its position, and the pattern matches at no earlier position |
| JsNumber.NumeralEndIsNumeral | client/src/lib/ocr.ts:96-97 | the greedy scan of `\d+\.?\d*` from a digit yields a numeral |
| JsNumber.NumeralEndAt | client/src/lib/ocr.ts:96-97 | a numeral not followed by a digit or '.' is exactly what the greedy scan takes |
| JsNumber.ParseFloat | client/src/lib/ocr.ts:112 | the value of a numeral is never negative |
| JsNumber.ToFixed2 | client/src/lib/ocr.ts:103 | the text has two decimals, is within half a cent of the value and has no leading zero |
| JsNumber.FormatCentsSound | client/src/lib/ocr.ts:103 | formatting a cent count gives two-decimal text worth those cents, without a leading zero |
| JsNumber.ParseFixed2 | client/src/lib/ocr.ts:134 | two-decimal text parses to its cents divided by 100 |
| JsNumber.ToFixed2RoundTrip | client/src/lib/ocr.ts:134 | formatting, parsing and formatting again gives the same text |
| JsNumber.CanonicalFixed2 | client/src/lib/ocr.ts:103 | two-decimal text without a leading zero survives parsing and formatting unchanged |
| JsString.Trim | client/src/lib/ocr.ts:28 | trimming never lengthens |
| JsString.TrimEmpty | client/src/lib/ocr.ts:28 | a line trims to empty exactly when it is all white space |
| JsString.TrimSlice | client/src/lib/ocr.ts:54 | the trimmed text is the slice between the leading and trailing white space, and does not start or end with white space |
| JsString.TrimKeeps | client/src/lib/ocr.ts:132 | text that starts and ends with non-space is unchanged by trimming |
| JsString.Split | client/src/lib/ocr.ts:28 | the pieces contain no separator and join back into the text |
| JsString.SplitJoin | client/src/lib/ocr.ts:28 | pieces with no separator, joined, split back into the same pieces |
| JsString.ToLower | client/src/lib/ocr.ts:139 | lower-casing keeps the length and maps each character |
| JsString.Includes | client/src/lib/ocr.ts:139 | true exactly when the pattern occurs at some position |
| JsString.NatToString | client/src/lib/ocr.ts:81 | a number's decimal text is digits worth the number, with no leading zero |
| JsString.DigitsRoundTrip | client/src/lib/ocr.ts:80-81 | digits without a leading zero survive parsing and printing unchanged |
| JsString.PadStart | client/src/lib/ocr.ts:74 | the text is padded on the left with '0' to the width and ends with the original |
| JsString.PadStartValue | client/src/lib/ocr.ts:74 | padding digits with zeros keeps their value |
| Scan.First | client/src/lib/ocr.ts:69-70 | the index found yields a value and no earlier index in the range does; no index is found only when none yields |
| Seqs.MapAppend | client/src/lib/ocr.ts:109-117 | mapping distributes over concatenation |
| Seqs.ValuesSound | client/src/lib/ocr.ts:127-151 | there are no more values than options, and each value is present at some position |
| Seqs.ValuesAppend | client/src/lib/ocr.ts:127-151 | collecting values distributes over concatenation |
| Seqs.FilterSound | client/src/lib/ocr.ts:28 | filtered elements satisfy the predicate and come from the input |
| Seqs.FilterAppend | client/src/lib/ocr.ts:28 | filtering distributes over concatenation |
| Seqs.FilterKeepsAll | client/src/lib/ocr.ts:28 | filtering keeps every element when all satisfy the predicate |
| OcrExamples.TotalLine | client/src/lib/ocr.ts:96 | "Total: $23.45" matches with the amount "23.45" |
| OcrExamples.LabelledBeatsLarger | client/src/lib/ocr.ts:100-105 | a labelled total of 23.45 wins over a larger `$99.00` line |
| OcrExamples.DateLine | client/src/lib/ocr.ts:63 | "3/5/24 12:30 PM" gives month "3", day "5", year "24" |
| OcrExamples.DateLineNormalized | client/src/lib/ocr.ts:73-74 | month 3, day 5, year 24 normalize to "2024-03-05" |
| OcrExamples.TimeLine | client/src/lib/ocr.ts:64 | "3/5/24 12:30 PM" gives hour "12", minutes "30", PM at index 7 |
| OcrExamples.NoonFormatted | client/src/lib/ocr.ts:80-85 | 12:30 PM stays "12:30" |
| OcrExamples.DateAndTime | client/src/lib/ocr.ts:62-93 | that line gives the date "2024-03-05" and time "12:30" |
| OcrExamples.MidnightLine | client/src/lib/ocr.ts:64 | "12:15 AM" matches with the AM marker |
| OcrExamples.MidnightFormatted | client/src/lib/ocr.ts:82-85 | 12:15 AM becomes "00:15" |
| OcrExamples.Midnight | client/src/lib/ocr.ts:62-93 | a receipt with only "12:15 AM" gives today's date and "00:15" |
| OcrExamples.PriceLine | client/src/lib/ocr.ts:97 | a line that is `$` and a two-decimal amount has that amount |
| OcrExamples.LargestAmount | client/src/lib/ocr.ts:107-119 | the unlabelled lines "$4.50" and "$12.00" give the total "12.00" |
| OcrExamples.BananasMatch | client/src/lib/ocr.ts:124 | "Bananas 2 $3.00" matches with name "Bananas", quantity "2", price "3.00" |
| OcrExamples.Bananas | client/src/lib/ocr.ts:122-154 | that line gives the single item Bananas, 2, 3.00 |
| OcrExamples.NoVendor | client/src/lib/ocr.ts:51-60 | a receipt whose lines start with a digit, contain `$` or are too short has vendor "Unknown Vendor" |

## Left out

- `extractTextFromImage` (client/src/lib/ocr.ts:15-25) is not modelled. It calls the Tesseract OCR engine and writes to the console; the parser takes the text it returns as input.
- The clock is not modelled. `new Date().toISOString().split('T')[0]` (lines 44 and 90) is the parameter `today`, the caller's UTC date as `YYYY-MM-DD`. The fallback at line 44 can never take effect, since `findDateTime` already returns a non-empty date.
- Numbers are exact reals, not IEEE doubles. `parseFloat` of a numeral is its exact decimal value. `toFixed(2)` rounds half up on that exact value. So the model differs from JavaScript where binary rounding decides a half cent, where an amount has more than about 15 significant digits, and from 1e21 upwards where `toFixed` switches to exponent notation.
- JsString.ToLower: ASCII letters only. Non-ASCII characters are kept, which matches the source for the word "total" it is compared with, but not for other text.
- String lengths count characters, not UTF-16 code units. Lines with characters outside the Basic Multilingual Plane have different lengths in JavaScript (the `> 3`, `> 10` and `> 2` tests).
- Ocr.FindTotal: the second loop of `findTotal` is the separate method `FindMaxAmount`, with the same loop and body.
- The logger, the UI, the server, storage and export are not part of this model.
