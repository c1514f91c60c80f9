# ActionChain: spreadsheet range notation and the batch-update queue

`google_cloud/actions.py` defines `ActionChain`, which queues mutation requests for a
Google Sheets spreadsheet. This project models it in three parts.

- **ColumnCodec** (`column_codec.dfy`) models the two column-letter helpers.
  - `str2count` reads letters as base 26: `'A'` is 1 and the rightmost letter is the units digit.
  - `count2str` writes a number back as letters. A first `while` loop finds the width; then a
    `for` loop over the higher positions runs an inner `while` loop per position that picks the
    digit. It is modelled as a method with those loops, proved equal to the function `Encode`
    (a width, then a greedy digit choice per position).
  - The project proves which round trips hold and which do not. It also gives the bijective
    base-26 encoding that `count2str` was evidently meant to be.
- **NameBox** (`name_box.dfy`) models `index_name_box`. It turns a name box such as
  `"A1:C10"`, `"3:5"`, `"B:D"` or `"B7"` into a half-open, 0-based grid range.
  - The guard runs the anchored regular expressions `re.search` applies. `$` also matches
    before a final newline, as in Python.
  - The guard is followed by `split(":")`, the letter prefix (`re.search(r"^[A-Z]+", …)`),
    its removal (`re.sub`), and `int()` of what is left, whitespace stripping included.
  - Pure lemmas give the range each shape of name box resolves to, which name boxes each
    format refuses, and the one way an accepted name box can still fail.
- **Actions** (`action_chain.dfy`) models the request queue.
  - Each builder is split into a pure function, which gives the request it builds or the
    exception it raises first, and a method of the class `ActionChain`, which appends that
    request to `requests` or leaves the queue unchanged.
  - `perform` hands the queue to an `execute` function, which the caller supplies.
  - Lemmas relate the builders to each other and to the name-box algebra.

Errors are values (`Errors.Error`). `KeyError` for an unknown sheet is `UnknownSheet`. The
`ValueError` of the guard is `InvalidNameBox`, and the `ValueError` of `int()` is
`InvalidLiteral`. The resize `AssertionError` is `PixelSizeOutOfRange`, and the `ValueError`
of `chr()` is `ChrArgumentOutOfRange`.

## Model

| member | source | states |
|---|---|---|
| ColumnCodec.Chr | google_cloud/actions.py:212-213 | `chr(v + 64)` is the character whose `ord - 64` is `v`, for every code below the surrogate range, which covers the codes count2str passes it (-64..26) |
| ColumnCodec.Str2Count | google_cloud/actions.py:194-196 | the sum of 26^i·(ord(c) − 64) over the characters, i counted from the right; any character is weighted, '@' as 0, and "" gives 0 |
| ColumnCodec.Str2CountAppend | google_cloud/actions.py:194-196 | appending a letter multiplies the value of the prefix by 26 and adds `ord(ch) - 64`: the rightmost character is the units digit |
| ColumnCodec.Str2CountRange | google_cloud/actions.py:194-196 | a string of k upper-case letters has a value from 26^0+…+26^(k-1) to just below 26^0+…+26^k (1 ≤ value < 27 for one letter) |
| ColumnCodec.Str2CountExamples | google_cloud/actions.py:194-196 | "" is 0, "A" is 1, "Z" is 26, "AA" is 27, "AZ" is 52, "BA" is 53, "ZZ" is 702, "AAA" is 703; "@" is weighted 0, so "B@Z" and "AZZ" are both 1378 |
| ColumnCodec.LargestDigit | google_cloud/actions.py:204-210 | the digit the inner loop picks is the largest j ≤ 26 with 26^k·j < c, or 0 |
| ColumnCodec.DigitUnique | google_cloud/actions.py:204-210 | any j with exactly those bounds is that digit |
| ColumnCodec.Width | google_cloud/actions.py:200-202 | the first loop stops at the least i with 26^0+…+26^(i+1) > c |
| ColumnCodec.WidthUnique | google_cloud/actions.py:200-202 | any i meeting the loop's exit condition and none before it is that width |
| ColumnCodec.CountWidth | google_cloud/actions.py:200-202 | the first `while` loop computes the width |
| ColumnCodec.DigitBelow | google_cloud/actions.py:204-210 | the inner `while` loop, including its `break`, computes the digit j and x = 26^k·j |
| ColumnCodec.EmitDigits | google_cloud/actions.py:203-212 | the `for` loop emits the greedy digits of the higher positions and leaves a remainder in -64..26, the code of the last character (26 for 702, which ends in 'Z') |
| ColumnCodec.Greedy | google_cloud/actions.py:203-213 | the characters the digit loop and the final `chr` emit for positions k down to 0 from remainder c: exactly k + 1 of them |
| ColumnCodec.Encode | google_cloud/actions.py:198-213 | `count2str(n)` raises exactly when n < -64 (`chr` of a negative code); otherwise it has width + 1 characters |
| ColumnCodec.Count2Str | google_cloud/actions.py:198-213 | the loops of `count2str` compute `Encode` |
| ColumnCodec.GreedyValue | google_cloud/actions.py:198-213 | the characters the greedy loop emits read back, under `str2count`, as the number they were built from |
| ColumnCodec.Count2StrNumericRoundTrip | google_cloud/actions.py:194-213 | for every n ≥ -64, `str2count(count2str(n)) == n` |
| ColumnCodec.Count2StrAlphabet | google_cloud/actions.py:198-213 | for n ≥ 1 every character is in '@'..'Z', the first and last are letters, and the length k is the one whose band 26^0+…+26^(k-1) ≤ n < 26^0+…+26^k holds n |
| ColumnCodec.Count2StrLength | google_cloud/actions.py:198-213 | for n ≥ 1 `count2str(n)` has exactly as many characters as the bijective name of n, whether or not it contains '@' |
| ColumnCodec.BijectiveEncode | google_cloud/actions.py:198-213 | the intended column name of n ≥ 1: upper-case letters only |
| ColumnCodec.BijectiveDecodeEncode | google_cloud/actions.py:194-196 | `str2count` inverts the bijective name: `str2count(BijectiveEncode(n)) == n` |
| ColumnCodec.BijectiveEncodeDecode | google_cloud/actions.py:194-196 | and the other way round: every upper-case string s has a value ≥ 1 whose bijective name is s |
| ColumnCodec.Count2StrCorrectIffNoZeroDigit | google_cloud/actions.py:198-213 | for n ≥ 1 `count2str(n)` is the bijective name exactly when it contains no '@' |
| ColumnCodec.Count2StrAgreesUpTo702 | google_cloud/actions.py:198-213 | for 1 ≤ n ≤ 702 (one and two letters) `count2str(n)` is the bijective name |
| ColumnCodec.Count2StrInvertsShortNames | google_cloud/actions.py:194-213 | `count2str(str2count(s)) == s` for upper-case s of one or two letters |
| ColumnCodec.Count2StrTwoLetterExamples | google_cloud/actions.py:198-213 | 1 gives "A", 26 gives "Z", 27 gives "AA", 52 gives "AZ", 53 gives "BA", 702 gives "ZZ" |
| ColumnCodec.Count2StrThirdLetterExamples | google_cloud/actions.py:198-213 | 703 gives "AAA" and 0 gives "@" |
| ColumnCodec.Count2StrLosesLongNames | google_cloud/actions.py:198-213 | 1378 is "AZZ", but `count2str(1378)` is "B@Z", so `count2str(str2count("AZZ")) != "AZZ"` |
| NameBox.IntOf | google_cloud/actions.py:233 | `int()` raises `ValueError` naming its argument, and gives a non-negative value when it succeeds |
| NameBox.IntOfDigits | google_cloud/actions.py:233 | `int()` of ASCII digits, with or without a final newline, is their decimal value |
| NameBox.IntOfNewline | google_cloud/actions.py:252 | `int("\n")` raises |
| NameBox.Split | google_cloud/actions.py:229 | `str.split(":")`: at least one piece, and no piece contains the separator |
| NameBox.JoinSplit | google_cloud/actions.py:229 | `split` loses nothing: its pieces joined with the separator are the string |
| NameBox.SplitNone | google_cloud/actions.py:229 | a string without the separator splits into itself alone |
| NameBox.SplitOnce | google_cloud/actions.py:229 | `a + ":" + b` with no ":" in a or b splits into [a, b] |
| NameBox.UpperPrefixLen | google_cloud/actions.py:230 | `re.search(r"^[A-Z]+", …)` spans the whole run of upper-case letters at the start, and no more |
| NameBox.UpperPrefixOf | google_cloud/actions.py:242 | letters followed by a non-letter give exactly those letters as the match |
| NameBox.RemoveAll | google_cloud/actions.py:236-248 | `re.sub(letters, "", piece)`: every occurrence of the letters, found left to right without overlap, is deleted; the result is never longer |
| NameBox.RemoveAllAbsent | google_cloud/actions.py:236 | `re.sub` of a letter pattern leaves a string without upper-case letters unchanged |
| NameBox.RemoveAllPrefix | google_cloud/actions.py:236 | removing the letters of a piece leaves its digits |
| NameBox.FullMatch | google_cloud/actions.py:221-227 | the four patterns `\d+:\d+`, `[A-Z]+:[A-Z]+`, `[A-Z]+\d+:[A-Z]+\d+` and `[A-Z]+\d+` matched against the whole string |
| NameBox.Search | google_cloud/actions.py:221-227 | `re.search(r"^P$", s)`: P matches all of s, or all of s but a final newline |
| NameBox.Accepted | google_cloud/actions.py:220-228 | ROWS tries only the row-range pattern, COLUMNS only the column-range pattern, any other format all four |
| NameBox.FormatOf | google_cloud/actions.py:215-220 | "ROWS" and "COLUMNS" select their formats; any other string selects the normal format |
| NameBox.ParseEndpoint | google_cloud/actions.py:230-252 | one piece can only fail in `int()`; it has a column exactly when it starts with a letter |
| NameBox.ParsePieces | google_cloud/actions.py:229-261 | past the guard, only `int()` can raise |
| NameBox.StartRow | google_cloud/actions.py:231-240 | `start_row_index`: the row read by `int()` less one, 0 when the piece has letters and nothing after them |
| NameBox.StartColumn | google_cloud/actions.py:231-235 | `start_col_index`: str2count of the letters less one, 0 when there are none |
| NameBox.EndRow | google_cloud/actions.py:241-252 | `end_row_index`: the row read by `int()`, `row_count` when the piece has letters and nothing after them |
| NameBox.EndColumn | google_cloud/actions.py:241-247 | `end_col_index`: str2count of the letters, `column_count` when there are none |
| NameBox.IndexNameBox | google_cloud/actions.py:218-261 | the guard exception is raised exactly when the name box fails its format's pattern; any other failure comes from `int()` |
| NameBox.IndexFromPieces | google_cloud/actions.py:229-261 | an accepted name box resolves as its colon-separated pieces do |
| NameBox.TwoCellsBox | google_cloud/actions.py:229-252 | two pieces, each with letters and a row, give their rows and columns as start and end |
| NameBox.TwoRowsBox | google_cloud/actions.py:229-252 | two pieces with rows only span every column |
| NameBox.TwoColumnsBox | google_cloud/actions.py:229-252 | two pieces with letters only span every row |
| NameBox.OneCellBox | google_cloud/actions.py:253-255 | a single piece gives a range one row high and one column wide |
| NameBox.ColumnThenErrorBox | google_cloud/actions.py:241-252 | an exception raised while reading the second piece is the result |
| NameBox.AcceptCellRange | google_cloud/actions.py:226-228 | the normal format accepts "Xa:Yb", also with a final newline |
| NameBox.AcceptCell | google_cloud/actions.py:226-228 | the normal format accepts "Xa", also with a final newline |
| NameBox.AcceptRowRange | google_cloud/actions.py:220-228 | the ROWS and normal formats accept "a:b", also with a final newline |
| NameBox.AcceptColumnRange | google_cloud/actions.py:223-228 | the COLUMNS and normal formats accept "X:Y", also with a final newline |
| NameBox.CellRangeBox | google_cloud/actions.py:229-261 | "Xa:Yb" resolves to rows a-1 to b and columns str2count(X)-1 to str2count(Y), whatever the sheet's size |
| NameBox.CellRangeBoxNewline | google_cloud/actions.py:220-261 | and so does "Xa:Yb\n" |
| NameBox.CellBox | google_cloud/actions.py:229-261 | "Xa" resolves to the single cell: rows a-1 to a, columns str2count(X)-1 to str2count(X) |
| NameBox.CellBoxNewline | google_cloud/actions.py:220-261 | and so does "Xa\n" |
| NameBox.RowRangeBox | google_cloud/actions.py:229-261 | "a:b" resolves to rows a-1 to b across every column, with no check on the order or sign of the bounds |
| NameBox.RowRangeBoxNewline | google_cloud/actions.py:220-261 | and so does "a:b\n" |
| NameBox.ColumnRangeBox | google_cloud/actions.py:229-261 | "X:Y" resolves to columns str2count(X)-1 to str2count(Y) down every row |
| NameBox.ColumnRangeBoxNewline | google_cloud/actions.py:220-252 | "X:Y\n" passes the guard but fails in `int("\n")` |
| NameBox.CellRangeOk | google_cloud/actions.py:220-261 | every cell range the normal pattern accepts resolves, with or without a final newline |
| NameBox.CellOk | google_cloud/actions.py:220-261 | every single cell the normal pattern accepts resolves, with or without a final newline |
| NameBox.RowRangeOk | google_cloud/actions.py:220-261 | every row range the ROWS or normal pattern accepts resolves, with or without a final newline |
| NameBox.ColumnRangeOk | google_cloud/actions.py:220-261 | every column range resolves, and fails in `int()` once a newline follows it |
| NameBox.PastGuard | google_cloud/actions.py:218-261 | an accepted name box resolves exactly when it is not a column range followed by a newline, which fails in `int("\n")` |
| NameBox.RowsRefuseLetters | google_cloud/actions.py:220-222 | under ROWS a name box starting with a letter fails the guard |
| NameBox.ColumnsRefuseDigits | google_cloud/actions.py:223-225 | under COLUMNS a name box starting with a digit fails the guard |
| NameBox.EmptyRefused | google_cloud/actions.py:220-228 | every format refuses the empty name box |
| NameBox.CellExample | google_cloud/actions.py:218-261 | "B7" is row index 6 to 7, column index 1 to 2 |
| NameBox.CellRangeExample | google_cloud/actions.py:218-261 | "A1:C10" is row index 0 to 10, column index 0 to 3 |
| NameBox.RowRangeExample | google_cloud/actions.py:218-261 | "3:5" is row index 2 to 5 across the column count, under ROWS and the normal format |
| NameBox.RowZeroStartsBelowZero | google_cloud/actions.py:233 | a row range whose first row reads as 0 (such as "0:3") starts at row index -1 |
| NameBox.RowReversedExample | google_cloud/actions.py:229-261 | "5:3" resolves to a range that starts at 4 and ends at 3 |
| NameBox.RowRangeRefusedExample | google_cloud/actions.py:223-225 | COLUMNS refuses "3:5" |
| NameBox.ColumnRangeExample | google_cloud/actions.py:218-261 | "B:D" is column index 1 to 4 down the row count, under COLUMNS and the normal format |
| NameBox.ColumnRangeNewlineExample | google_cloud/actions.py:218-252 | "B:D\n" is accepted and then fails in `int("\n")` |
| NameBox.ColumnRangeRefusedExample | google_cloud/actions.py:220-222 | ROWS refuses "B:D" |
| Actions.SheetOf | google_cloud/actions.py:16 | `sheets[sheet]` raises `KeyError` exactly when no sheet has that title, and otherwise gives its entry |
| Actions.Span | google_cloud/actions.py:63-114 | a ROWS request takes `startRowIndex` and `endRowIndex` of the resolved range, a COLUMNS request its column indices, on the given sheet |
| Actions.CutPasteRequest | google_cloud/actions.py:15-32 | the request is built exactly when the sheet exists and both name boxes resolve. The errors come in the source's order: sheet, then cut box, then paste box. The source is the whole cut range; the destination is the paste range's top-left cell; the paste type is passed through |
| Actions.CopyPasteRequest | google_cloud/actions.py:34-48 | the same conditions and error order as cut_paste, with both whole ranges in the request |
| Actions.PixelSizeAllowed | google_cloud/actions.py:75 | the assert's bounds: 2 ≤ size ≤ 2000, both ends included |
| Actions.ResizeRequest | google_cloud/actions.py:58-114 | the sheet, then the name box under ROWS or COLUMNS, then the size must pass. AUTO gives `autoResizeDimensions`; any size in 2..2000 gives `updateDimensionProperties`; anything else raises |
| Actions.AppendRequest | google_cloud/actions.py:116-132 | fails only on an unknown sheet, and carries the axis and the count given |
| Actions.DeleteRequest | google_cloud/actions.py:134-162 | fails on an unknown sheet, on a name box refused under ROWS or COLUMNS, or on the `int()` failure of an accepted `"X:Y\n"` under COLUMNS, with the error of that step; otherwise the span of the resolved range on that axis |
| Actions.InsertRowRequest | google_cloud/actions.py:164-174 | fails only on an unknown sheet; otherwise a ROWS insert on that sheet |
| Actions.InsertColumnRequest | google_cloud/actions.py:176-187 | fails only on an unknown sheet; otherwise a COLUMNS insert on that sheet |
| Actions.CutPasteIsCopyPasteCorner | google_cloud/actions.py:15-48 | cut_paste and copy_paste on the same boxes fail together with the same exception, share the source, and the cut destination is the top-left cell of the copy destination |
| Actions.ResizeIgnoresPixelSize | google_cloud/actions.py:74-85 | two allowed sizes give the same request: the size is never stored |
| Actions.ResizeCoversDeletedRange | google_cloud/actions.py:58-162 | a resize with AUTO or an allowed size, and a delete of the same name box, fail together and cover the same rows or columns |
| Actions.ResizeRejectsPixelSize | google_cloud/actions.py:75 | on a good sheet and name box, a size other than AUTO outside 2..2000 raises |
| Actions.InsertRowSpan | google_cloud/actions.py:164-174 | insert_row starts at start_row - 1 and spans number + 1 rows |
| Actions.InsertColumnIsInsertRowAt | google_cloud/actions.py:164-187 | insert_column is insert_row's arithmetic at str2count(start_column), with the axis changed |
| Actions.InsertColumnNamedByCount2Str | google_cloud/actions.py:176-213 | inserting at the column `count2str(n)` names starts at index n - 1, '@' or not |
| Actions.InsertColumnAtName | google_cloud/actions.py:176-196 | inserting at the column named by the bijective name of n ≥ 1 (the corrected `count2str`) starts at index n - 1 and ends at n + number |
| Actions.DeleteRowRange | google_cloud/actions.py:134-147 | delete_row on "a:b" deletes row indices a-1 up to b |
| Actions.DeleteColumnRange | google_cloud/actions.py:149-162 | delete_column on "X:Y" deletes column indices str2count(X)-1 up to str2count(Y) |
| Actions.WrongAxisRefused | google_cloud/actions.py:134-162 | delete_row refuses a name box starting with a letter, and delete_column one starting with a digit |
| Actions.CutPasteToCell | google_cloud/actions.py:15-32 | pasting at the cell "Xa" puts the destination at row a-1, column str2count(X)-1 |
| Actions.Built | google_cloud/actions.py:15-187 | a run of builder calls leaves at most one request per call, and none when every call raised |
| Actions.RunAppendsBuilt | google_cloud/actions.py:15-187 | after any run of builder calls the queue is the earlier queue plus the requests of the calls that raised nothing, in call order |
| Actions.ActionChain.constructor | google_cloud/actions.py:8-10 | a new chain starts with an empty queue over the spreadsheet's sheets |
| Actions.ActionChain.Push | google_cloud/actions.py:22 | appends the request when building it raised nothing, and keeps the queue otherwise |
| Actions.ActionChain.CutPaste | google_cloud/actions.py:15-32 | appends `CutPasteRequest` at the end of the queue, or raises its exception with the queue unchanged |
| Actions.ActionChain.CopyPaste | google_cloud/actions.py:34-48 | the same for `CopyPasteRequest` |
| Actions.ActionChain.ResizeRow | google_cloud/actions.py:58-85 | the same for `ResizeRequest` on rows |
| Actions.ActionChain.ResizeColumn | google_cloud/actions.py:87-114 | the same for `ResizeRequest` on columns |
| Actions.ActionChain.AppendRow | google_cloud/actions.py:116-123 | the same for `AppendRequest` on rows |
| Actions.ActionChain.AppendColumn | google_cloud/actions.py:125-132 | the same for `AppendRequest` on columns |
| Actions.ActionChain.DeleteRow | google_cloud/actions.py:134-147 | the same for `DeleteRequest` on rows |
| Actions.ActionChain.DeleteColumn | google_cloud/actions.py:149-162 | the same for `DeleteRequest` on columns |
| Actions.ActionChain.InsertRow | google_cloud/actions.py:164-174 | the same for `InsertRowRequest` |
| Actions.ActionChain.InsertColumn | google_cloud/actions.py:176-187 | the same for `InsertColumnRequest` |
| Actions.ActionChain.Perform | google_cloud/actions.py:189-192 | `execute` gets the queue in order and its response is returned; the queue is emptied once `execute` returns and kept when it raises |

Every `ActionChain` method also keeps `Valid()`: each queued request names the id of a sheet of
the spreadsheet. `Perform` relies on it to promise that the batch handed to `execute` contains
only requests on the spreadsheet's own sheets.

## Left out

- `duplicate` (google_cloud/actions.py:50-56) reads `self._sheets`, which `ActionChain` never defines, so every call raises `AttributeError` before anything is queued; it is not modelled.
- `update_cells` (google_cloud/actions.py:12-13) does nothing.
- `self._spreadsheet.execute` is a call into code outside this file; `Perform` takes it as a function parameter. The `GoogleSheet` class in google_cloud/__init__.py has no `execute`, and its HTTP calls, credentials and pandas frames are not part of this model.
- google_cloud/__init__.py builds the default range of `get` as `"A:" + count2str(columnCount)`. When the column count gives a '@', that range fails the normal pattern. This follows from `Count2StrCorrectIffNoZeroDigit` and the patterns, but it is not stated as a lemma.
- `PasteType` comes from `google_cloud/types.py`, which is not part of this model; the paste type is carried as an opaque string.
- The sheet map is read, never written, by `ActionChain`, so it is a `const` of the class; the spreadsheet object behind it is not modelled.
- Exception messages (`%s` versus `%r` in the guard) are not modelled, only the exception and the name box or literal it concerns.
- NameBox.Accepted: `\d` is modelled as the ASCII digits only; Python's `\d` on `str` patterns also matches other Unicode decimal digits.
- NameBox.IntOf: models `int()` as ASCII digits with ASCII whitespace around them. Python's `int()` also takes a sign, underscores between digits and Unicode whitespace; the guard lets none of these reach it. The model reads digit strings of any length, while CPython 3.11 and later (and 3.10.7, 3.9.14 and later) refuse, by default, strings of more than 4300 digits with `ValueError`; that limit is not modelled.
- NameBox.IntOfDigits: states the decimal value for digit strings of any length; on the interpreters above it holds only up to 4300 digits.
- NameBox.PastGuard: its "exactly when" rests on the unlimited `int()`; an accepted name box with a piece of more than 4300 digits raises on the interpreters above.
- NameBox.CellRangeOk: "every accepted cell range resolves" holds only for rows of at most 4300 digits on the interpreters above; the same holds for CellRangeBox and CellRangeBoxNewline.
- NameBox.CellOk: the same 4300-digit proviso, also for CellBox and CellBoxNewline.
- NameBox.RowRangeOk: the same 4300-digit proviso, also for RowRangeBox, RowRangeBoxNewline and the row examples.
- NameBox.RemoveAll: `re.sub` is modelled for a pattern of literal upper-case letters, the only kind `index_name_box` passes it; its contract states only the length bound in general, with the lemmas covering the cases that occur.
- Python's `-O` switch removes `assert`; the model keeps the pixel-size check as the code is written.
- `perform` passes `execute` the very list it then empties with `clear()` (google_cloud/actions.py:190-191), so a reference `execute` keeps to the batch is emptied too. `Perform` hands `execute` an immutable sequence, so this aliasing is not captured.
- `perform` clears the queue only after `execute` returns; when `execute` raises, the queue is kept (google_cloud/actions.py:190-191). `Perform` models exactly that, so it does not promise an empty queue after a failed batch.
- The fixed-size resize request carries no pixel size (google_cloud/actions.py:76-85, 105-114); the model's `UpdateDimensionProperties` request has no field for it.
- `str2count` accepts any string, weighting each character `ord(ch) - 64`, and raises nothing for an empty or invalid string (google_cloud/actions.py:196).
- Default arguments are not modelled: `paste_type=PasteType.FORMULA` (google_cloud/actions.py:15, 34), `pixel_size=AUTO` (58, 87) and `_format="NORMAL"` (219). Every call in the model passes these arguments explicitly.
- The exception `execute` raises is whatever `Error` the supplied function returns; the model gives it no constructor of its own.

## Findings

| source | as written | input that shows it | evidently intended | confidence | as-written member | corrected member |
|---|---|---|---|---|---|---|
| google_cloud/actions.py:203-213 | the greedy loop picks the largest digit j with 26^k·j < c, which can be 0 and is then written as chr(64) = '@' | `count2str(1378)` gives "B@Z" where `str2count("AZZ") == 1378` | the bijective base-26 name with no zero digit, the inverse of `str2count` ("AZZ" for 1378) | not executed | ColumnCodec.Count2StrLosesLongNames | ColumnCodec.BijectiveEncodeDecode |
