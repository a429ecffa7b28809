# Google Sheets helper: column letters, A1 ranges and request checks

This project models the part of the PHP Google Sheets helper (`reandimo\GoogleSheetsApi\Helper`) that computes something before it hands off to the Google API client. That part has four pieces:

- **Column letters.** `getColumnLettersIndex` turns a column label such as `"AZ"` into a column number.
  - A single letter is looked up in the `LETTERS` table.
  - Longer labels go through a loop. A position holding the label's last letter adds that letter's value. Every other position adds 26 times the first letter's value.
  - So `"AZ"` = 52 and `"CZ"` = 104, as the helper's test suite asserts. But `"AA"` = 2, the same number as column `"B"`.
  - `ColumnLetters.ColumnIndex` is the closed form of that loop. `Bijective` is the usual spreadsheet numbering, kept as an independent reference.
  - The lemmas prove that the helper's number never exceeds the bijective one. The two agree exactly for labels of at most one letter and for two different letters.
- **A1 ranges.** `colorRange` splits an A1 range such as `"B5:D10"` at `:`. It strips digits to get the columns and keeps only digits to get the rows. From these it builds a zero-based, end-exclusive GridRange (Google Sheets API v4).
  - `A1Notation.GridRangeOf` models this.
  - The lemmas rebuild the result from the column letters and row numbers. They show it is non-empty when the start row is at most the end row and ColumnIndex(start letters) ≤ ColumnIndex(end letters).
  - Because column numbers do not follow label order, what colorRange sends can differ from the range named. `"A1:AA10"` covers only columns A and B. `"Z1:AA1"` gets an inverted column span: it starts at 25 and ends at 2.
- **Single-cell range.** `updateSingleCell` writes to `"<worksheet>!<cell>:<first character of cell>"`. Example: `"Sheet1!B5:B"`.
- **Configuration state.** `Helper` is a class with four nullable string fields, set by setters and read by getters. `valueInputOption` starts as `"RAW"`. The `get`, `update`, `create`, `updateSingleCell`, `getSpreadsheetWorksheets` and `colorRange` operations check these fields or their arguments before any API call.
  - Each of these operations is modelled as the request it would send, or the exception it throws first.

The model follows PHP's own tests for emptiness:
- `empty()` treats `null`, `""` and `"0"` as empty.
- `$x == null` holds for `null` and `""` only.
- A `null` field interpolates as `""`.

Bijective base-26 numbering with an inverse (index to label) is a common description of this converter. The code does not compute it, and it has no inverse. The model follows the code. Bijective numbering appears only as the reference the agreement lemmas compare against.

Files:
- `Wrappers.dfy`: Option and Result.
- `PhpStrings.dfy`: the PHP string built-ins used here.
- `ColumnLetters.dfy`: the column-letter arithmetic.
- `A1Notation.dfy`: A1 ranges to grid ranges.
- `Helper.dfy`: the `Helper` class and the request checks.

## Model

| member | source | states |
|---|---|---|
| ColumnLetters.LetterValue | src/Helper.php:375-376 | a single letter's value (its table position plus one) lies in 1..26 |
| ColumnLetters.LetterValueIsTablePlace | src/Helper.php:23-25 | a letter's value is the 1-based place of its only entry in `LETTERS` (A→1 … Z→26) |
| ColumnLetters.ColumnIndex | src/Helper.php:374-387 | the empty label yields 0 (the loop runs zero times); a single letter yields its table value; every non-empty label yields at least 1 |
| GoogleSheetsApi.Helper.GetColumnLettersIndex | src/Helper.php:372-389 | the loop, with its recursive single-letter calls, accumulates exactly the closed form: k·value(last) + (n−k)·26·value(first), where k counts occurrences of the last letter |
| ColumnLetters.TwoLetterIndex | src/Helper.php:380-386 | two different letters give 26·value(first) + value(second); a doubled letter gives only twice its value |
| ColumnLetters.TestedIndexes | tests/PHPUnit/SheetsTests.php:108-109 | "AZ" is 52 and "CZ" is 104 |
| ColumnLetters.DoubledA | src/Helper.php:380-386 | "AA" yields 2, the same as "B", where bijective numbering gives 27 |
| ColumnLetters.ColumnIndexBound | src/Helper.php:380-386 | for two or more letters, each position adds at most 26·value(first), so the result is at most n·26·value(first) |
| ColumnLetters.LongLabelsFallShort | src/Helper.php:378-387 | from three letters on, the helper's number is strictly below the bijective one |
| ColumnLetters.AgreesWithBijective | src/Helper.php:372-389 | the helper's number is never above bijective numbering; the two are equal exactly when the label has at most one letter or two different letters |
| PhpStrings.Explode | src/Helper.php:409 | splitting on the separator and joining again gives back the range string; no part contains the separator; there is always at least one part |
| PhpStrings.ExplodeJoin | src/Helper.php:409 | exploding parts that were joined by the separator, none containing it, gives back those parts |
| PhpStrings.StripDigits | src/Helper.php:410-411 | removing digits leaves a digit-free string no longer than the input |
| PhpStrings.KeepDigits | src/Helper.php:412-413 | keeping only digits leaves a digit string no longer than the input |
| PhpStrings.StripDigitsAppend | src/Helper.php:410-411 | removing digits from a concatenation gives the digit-free pieces concatenated, so every non-digit is kept in order |
| PhpStrings.StripDigitsOfNonDigits | src/Helper.php:410-411 | a string without digits is returned unchanged |
| PhpStrings.KeepDigitsAppend | src/Helper.php:412-413 | keeping digits of a concatenation gives the pieces' digits concatenated, so every digit is kept in order |
| PhpStrings.KeepDigitsOfDigits | src/Helper.php:412-413 | a digit string is returned unchanged |
| PhpStrings.FiltersSplit | src/Helper.php:410-412 | on letters followed by digits, the two filters give back exactly the letters and exactly the digits |
| PhpStrings.NumericValueOfDecimal | src/Helper.php:416-417 | a row number written in decimal reads back as that number |
| A1Notation.CellRefSplits | src/Helper.php:410-412 | on a cell reference, the filters yield its leading letters (a column label) and its trailing digits |
| A1Notation.CellPairToGridRange | src/Helper.php:409-420 | two cell references joined by ':' form a valid range, and its grid range is built from their rows and column numbers (start minus one, end as is) |
| A1Notation.CellsToGridRange | src/Helper.php:409-420 | "C1R1:C2R2" gives startRowIndex R1−1, endRowIndex R2, startColumnIndex ColumnIndex(C1)−1 and endColumnIndex ColumnIndex(C2) |
| A1Notation.OpenEndToGridRange | src/Helper.php:413 | with nothing after the ':', the end row falls back to the start row and the end column index is 0 |
| A1Notation.OrderedRangeIsNonEmpty | src/Helper.php:414-420 | when R1 ≤ R2 and the start column number is at most the end one, start < end on both axes, covering exactly R2−R1+1 rows and the corresponding number of columns |
| A1Notation.DoubledLetterEndColumn | src/Helper.php:418-419 | "A1:AA10" becomes columns 0..2, i.e. only A and B, because "AA" is numbered 2 |
| A1Notation.InvertedColumnSpan | src/Helper.php:418-419 | "Z1:AA1" gets startColumnIndex 25 and endColumnIndex 2, an inverted column span |
| A1Notation.ColourTestRange | tests/PHPUnit/SheetsTests.php:98-99 | "A1:Z10" becomes rows 0..10 and columns 0..26 |
| A1Notation.ExampleRange | src/Helper.php:409-420 | "B5:D10" becomes rows 4..10 and columns 1..4 |
| GoogleSheetsApi.SingleCellRangeSplits | src/Helper.php:354 | the single-cell range splits back, at '!' and then ':', into worksheet name, cell and the cell's first character |
| GoogleSheetsApi.SingleCellTestRange | tests/PHPUnit/SheetsTests.php:119 | cell "B5" on worksheet "Sheet1" is written to "Sheet1!B5:B" |
| GoogleSheetsApi.Helper.constructor | src/Helper.php:55 | a new helper has no ID, worksheet or range, and valueInputOption "RAW" |
| GoogleSheetsApi.Helper.SetSpreadsheetId | src/Helper.php:101-109 | the getter then returns the value set; the other three fields are unchanged |
| GoogleSheetsApi.Helper.SetSpreadsheetRange | src/Helper.php:116-124 | the getter then returns the value set; the other three fields are unchanged |
| GoogleSheetsApi.Helper.SetWorksheetName | src/Helper.php:126-134 | the getter then returns the value set; the other three fields are unchanged |
| GoogleSheetsApi.Helper.SetValueInputOption | src/Helper.php:136-144 | the getter then returns the value set; the other three fields are unchanged |
| GoogleSheetsApi.Helper.CreateRequest | src/Helper.php:227-236 | fails exactly when the title is empty in PHP's sense; otherwise sends the title |
| GoogleSheetsApi.Helper.GetRequest | src/Helper.php:249-260 | fails with "no ID" when the spreadsheet ID is empty, else with "no range" when the range is empty; succeeds exactly when both are set, and then sends both |
| GoogleSheetsApi.Helper.UpdateRequest | src/Helper.php:313-330 | makes the same two checks as get; on success sends the ID, the range, the given values and the configured input option |
| GoogleSheetsApi.Helper.UpdateSingleCellRequest | src/Helper.php:343-362 | fails when the value, then the cell, is null or ""; otherwise writes the one value to the single-cell range of the configured worksheet, with the spreadsheet ID unchecked |
| GoogleSheetsApi.Helper.WorksheetsRequest | src/Helper.php:459-464 | fails exactly when the spreadsheet ID is empty; otherwise sends it |
| GoogleSheetsApi.Helper.ColorRange | src/Helper.php:397-420 | fewer than three colour components are refused before anything else; otherwise the result is the grid range of the configured A1 range |
| GoogleSheetsApi.ConfiguredGet | src/Helper.php:249-260 | after a fresh helper is configured through its setters (as at tests/PHPUnit/SheetsTests.php:52-60), get succeeds exactly when the ID and range are non-empty, and sends exactly those |
| GoogleSheetsApi.ConfiguredUpdate | tests/PHPUnit/SheetsTests.php:124-132 | after configuration through the setters, update succeeds exactly when ID and range are set, and writes with the default "RAW" input option |

## Left out

- Authentication: the constructor's environment-variable and file checks, `getClient`, `firstAuth`, `getService`, the credential and token paths, and the application name. These are file I/O, console input and calls into `Google_Client`. The model's constructor sets only the four configuration fields.
- The Sheets client calls in `create`, `get`, `append`, `appendSingleRow`, `update`, `updateSingleCell`, `colorRange` (its `spreadsheets->get` and `batchUpdate`) and `getSpreadsheetWorksheets`. These are foreign calls. Only the checks and arguments computed before them are modelled, as a Result.
  - `append` and `appendSingleRow` are not modelled: they make no check and pass the configured fields through unchanged.
  - The worksheet list that `getSpreadsheetWorksheets` assembles from the response is not modelled.
- The worksheet id in `colorRange` comes from an API response. It is a parameter (`sheetId`).
- The colour arithmetic in `colorRange` is not modelled: division by 255, the alpha value (which reads an undefined `$config['rgb'][3]`) and the request's format block. The colour list matters only through its length.
- GoogleSheetsApi.Helper.GetColumnLettersIndex: requires an upper-case A–Z label. The PHP turns any other single character into 1, through `array_search` returning false. A `null` argument behaves like the empty label.
- GoogleSheetsApi.Helper.ColorRange: when at least three colours are given, it requires the range to be a cell reference (letters then digits), a ':', and then either nothing or another cell reference. For anything else, such as "A1:A", a range without ':' or a null range, the PHP relies on undefined-index and non-numeric-string coercions.
- A1Notation.GridRangeOf: `endRowIndex` is the row's digit string in PHP. It is modelled as the number that string denotes.
- `count($rgb)` on a `null` colour list (a PHP TypeError) is not modelled. The colour list is a sequence.
- `src/apiclient/Helper.php` (an older variant: interactive authentication and `colorLine`, which is colour arithmetic around one `batchUpdate`) is not part of this model.
- No index-to-label conversion is modelled, because the helper has none.
- PHP integers are 64-bit. A row string past PHP_INT_MAX turns `$rowStart - 1` (src/Helper.php:416) into a float. The column accumulator (src/Helper.php:380-386) can overflow the same way. The model uses unbounded integers, so these overflows are not captured.
- GoogleSheetsApi.SingleCellRange: `$cell[0]` (src/Helper.php:354) is the first byte of the cell string. The model takes the first character instead. The two differ when a cell starts with a multi-byte character, and the model does not capture that.
