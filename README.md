# Trebuchet calibration (Advent of Code 2023, day 1)

A Dafny model of the `Trebuchet` calibrator in `day1/src/lib.rs`. The
calibrator holds a text document. It rewrites spelled-out digit words
(`one` … `nine`) into digits in one greedy left-to-right pass, so a word
that overlaps one already consumed stays as letters. It then keeps the
first and the last decimal digit of each line that has one as a two-digit
value, and sums those values; a line with no digit contributes nothing.

The model has six modules:

- `Wrappers`: `Option` and `Result`.
- `RustStd`: the parts of Rust's standard library the calibrator relies on,
  namely `char::to_digit(10)`, `u32::to_string` of a single digit,
  `str::lines` and `str::parse::<u32>`.
- `DigitWords`: the word table of `Trebuchet::new` and `Rewrite`, the greedy
  left-to-right word-to-digit rewrite that specifies `format_line`. It also
  proves the properties of the rewrite: order independence, literal digits
  kept, and overlapping words.
- `LineCalibration`: `CalibrationValue`, the value of one line (ten times
  its leftmost digit plus its rightmost digit), and `Calibrations`, the
  values a run of lines contributes, together with their sum.
- `Document`: the rewrite and the calibration of a whole document. Its main
  results: splitting the formatted text into lines again yields the
  rewritten lines, each less a trailing '\r' (the '\n' added after it turns
  it into a "\r\n" ending); that lost '\r' changes no value, so the values
  calibrated from the formatted text are those of the rewritten lines. The
  worked example of six lines totals 254.
- `Day1`: the class `Trebuchet`. Its fields are `calibrationPath`, `data`,
  `calibratedData` and the word table `words`. Its methods follow the Rust
  methods; each loop is proved against the specification functions above.

`HashMap` iteration order is not known. `FindWord` therefore tries the words
in an arbitrary order, chosen with `:|`. `FormatLine` is still proved equal
to `Rewrite`, so its result does not depend on that order.

## Model

| member | source | states |
|---|---|---|
| `DigitWords.WordTableWellFormed` | day1/src/lib.rs:22-32 | The nine words of the table are non-empty, hold no digit, map to single-digit values, and none is a prefix of another. |
| `DigitWords.WordTableValues` | day1/src/lib.rs:22-32 | The table maps "two", "three", "eight" and "nine" to 2, 3, 8 and 9. |
| `DigitWords.WordTable` | day1/src/lib.rs:22-32 | The word table of `Trebuchet::new`: the words "one" to "nine", each mapped to a value from 1 to 9. |
| `DigitWords.MatchUnique` | day1/src/lib.rs:58-67 | Two table words that both start the same text are equal, so the word-search loop can match at most one word at a cursor. |
| `Day1.Trebuchet.FindWord` | day1/src/lib.rs:58-67 | Trying the words in any order, the search either finds a word that starts the text and is the only one that does, or reports that no word starts it. |
| `Day1.Trebuchet.FormatLine` | day1/src/lib.rs:51-82 | Whatever the order of the word search, the new line is the greedy rewrite of the line followed by '\n'. The cursor invariant `index <= slice_start <= len` holds, and `found` is false whenever the copy branch runs. |
| `DigitWords.AdvanceWord` | day1/src/lib.rs:62-66 | Emitting a matched word's digit and moving the cursor past the word keeps the output equal to the rewrite of everything before the cursor. |
| `DigitWords.AdvanceChar` | day1/src/lib.rs:70-75 | Copying the character at the cursor when no word starts there, and moving on by one, keeps the same invariant. |
| `DigitWords.RewrittenAll` | day1/src/lib.rs:76-78 | When the cursor reaches the end of the line, the output is the whole rewrite. |
| `DigitWords.RewriteWord` | day1/src/lib.rs:62-66 | Where a table word starts the text, the rewrite emits that word's digit and continues after the whole word. |
| `DigitWords.RewriteChar` | day1/src/lib.rs:70-74 | Where no table word starts the text, the rewrite keeps the first character and continues with the next one. |
| `DigitWords.RewriteWithoutWords` | day1/src/lib.rs:70-75 | A line in which no table word starts anywhere is left unchanged by the rewrite. |
| `DigitWords.RewriteWithoutHeads` | day1/src/lib.rs:70-75 | A line in which no two neighbouring characters can begin a table word is left unchanged by the rewrite. |
| `DigitWords.RewriteKeepsLiteralDigits` | day1/src/lib.rs:70-75 | Every literal digit of a line survives the rewrite, in its original order. |
| `DigitWords.Rewrite` | day1/src/lib.rs:56-76 | The rewrite is never longer than the line, and every character it emits is either a character of the line or a digit. |
| `DigitWords.RewriteTwone` | day1/src/lib.rs:56-76 | "twone" becomes "2ne": the word "two" is consumed, so the overlapping "one" is lost. |
| `DigitWords.RewriteEightwo` | day1/src/lib.rs:56-76 | "eightwo" becomes "8wo": the word "eight" takes the 't' of "two". |
| `DigitWords.RewriteEightwothree` | day1/src/lib.rs:56-76 | "eightwothree" becomes "8wo3". |
| `DigitWords.RewriteTwo1nine` | day1/src/lib.rs:56-76 | "two1nine" becomes "219": words on both sides of a literal digit. |
| `DigitWords.DigitString` | day1/src/lib.rs:63 | `to_string` of a table value is one digit character that reads back as that value. |
| `RustStd.Lines` | day1/src/lib.rs:89-90 | `str::lines` splits the text at '\n', and no resulting line contains '\n'. |
| `RustStd.LinesOfJoined` | day1/src/lib.rs:89-92 | Splitting text made of lines, each ended by '\n', gives those lines back, each less the '\r' of a "\r\n" ending. |
| `RustStd.JoinedSnoc` | day1/src/lib.rs:89-92 | Collecting one more formatted line appends it, and its '\n', to the text built so far. |
| `RustStd.Joined` | day1/src/lib.rs:89-92 | `collect()` of the lines, each followed by '\n': empty exactly when there is no line, and otherwise ending with '\n'. |
| `Document.RewriteAll` | day1/src/lib.rs:89-92 | Each line of the document is rewritten on its own and in order. |
| `Document.FormattedThrough` | day1/src/lib.rs:89-92 | After one more line is formatted and collected, the text is the joined rewrite of all lines so far. |
| `Day1.Trebuchet.FormatLines` | day1/src/lib.rs:89-92 | The collected text is the rewrites of the lines, each followed by '\n', in line order. |
| `Day1.Trebuchet.FormatData` | day1/src/lib.rs:84-101 | With a document, `data` becomes its formatted text; with none, `data` becomes the empty text. The word table and the values are untouched. |
| `Document.FormattedText` | day1/src/lib.rs:84-101 | The text `format_data` stores: empty exactly when the document has no line, and otherwise ending with '\n'. |
| `Document.LinesOfFormattedText` | day1/src/lib.rs:84-101 | Splitting the stored text into lines again gives the rewritten lines of the document, in order, each less a trailing '\r'. |
| `Document.DocumentCalibrations` | day1/src/lib.rs:84-117 | The values of a document: the calibrations of its rewritten lines, in line order, at most one value per line. |
| `RustStd.ToDigit` | day1/src/lib.rs:124 | `to_digit(10)` succeeds exactly on the ASCII digits, with a value below ten. |
| `RustStd.ParseU32` | day1/src/lib.rs:136-141 | `parse::<u32>` fails with `Empty` exactly on the empty string, and any value it returns fits in a `u32`. |
| `RustStd.ParseTwoDigits` | day1/src/lib.rs:136-141 | Two digit characters parse to the number ten times the first plus the second. |
| `RustStd.ParseRejectsNonDigit` | day1/src/lib.rs:136-141 | A string starting with a character that is neither a digit nor '+', such as the default '\0', fails to parse with `InvalidDigit`. |
| `LineCalibration.FirstDigitAt` | day1/src/lib.rs:126-128 | The position of the leftmost digit, with no digit before it; or nothing when the line has no digit. |
| `LineCalibration.LastDigitAt` | day1/src/lib.rs:130 | The position of the rightmost digit, with no digit after it; or nothing when the line has no digit. |
| `LineCalibration.CalibrationValue` | day1/src/lib.rs:119-144 | A line has a value exactly when it contains a digit, and that value lies in 0..99. |
| `LineCalibration.CalibrationFromEnds` | day1/src/lib.rs:123-141 | The value is ten times the leftmost digit plus the rightmost digit. |
| `LineCalibration.CalibrationOfSingleDigit` | day1/src/lib.rs:126-130 | A line with exactly one digit d has the value 11 * d. |
| `Day1.Trebuchet.CalibrateValue` | day1/src/lib.rs:119-144 | A line with a digit gives `Ok` of ten times its first digit plus its last digit. A line with no digit leaves both characters as '\0' and gives `Err(InvalidDigit)`. |
| `LineCalibration.CalibrateExampleTwoDigits` | day1/src/lib.rs:119-144 | "pqr3stu8vwx" calibrates to 38. |
| `LineCalibration.CalibrateExampleOneDigit` | day1/src/lib.rs:126-130 | "treb7uchet" calibrates to 77. |
| `LineCalibration.CalibrateExampleEnds` | day1/src/lib.rs:119-144 | "1abc2" calibrates to 12. |
| `LineCalibration.CalibrateExampleManyDigits` | day1/src/lib.rs:123-141 | "a1b2c3d4e5f" calibrates to 15: only the first and the last of its five digits count. |
| `LineCalibration.KeptOutcome` | day1/src/lib.rs:107-110 | The values a line contributes are its `Ok` value, or nothing when calibrating it fails. |
| `LineCalibration.Kept` | day1/src/lib.rs:107-110 | One line contributes at most one value. |
| `LineCalibration.Calibrations` | day1/src/lib.rs:103-117 | A run of lines contributes at most one value per line, each at most 99. |
| `LineCalibration.CalibrationsAppend` | day1/src/lib.rs:106-111 | Calibrating two runs of lines in turn appends their values in order. |
| `LineCalibration.CalibratedThrough` | day1/src/lib.rs:106-111 | After one more line, the collected values are the earlier values followed by those of the lines so far. |
| `LineCalibration.CalibrationsOfDigitLines` | day1/src/lib.rs:106-111 | When every line has a digit, the k-th value is the value of the k-th line. |
| `LineCalibration.CalibrationIgnoresCR` | day1/src/lib.rs:106 | Dropping the '\r' of a "\r\n" line ending does not change the value of a line. |
| `LineCalibration.CalibrationsIgnoreCR` | day1/src/lib.rs:106 | Dropping '\r' endings changes none of the values of a document. |
| `Day1.Trebuchet.CalibrateLines` | day1/src/lib.rs:106-111 | The values already collected are kept, and after them come the values of the lines that have one, in line order. |
| `Day1.Trebuchet.CalibrateData` | day1/src/lib.rs:103-117 | With a document, its lines' values are appended after the values already collected; with none, nothing changes. |
| `LineCalibration.RewrittenExamples` | day1/src/lib.rs:119-144 | The rewritten lines "219", "8wo3" and "8wo" calibrate to 29, 83 and 88. |
| `Document.CalibrationsOfFormattedText` | day1/src/lib.rs:84-117 | Calibrating the formatted document gives the values of the rewritten lines of the original document, in line order. |
| `Document.CalibrateTwo1nine` | day1/src/lib.rs:51-144 | "two1nine" is rewritten and calibrates to 29. |
| `Document.CalibrateEightwothree` | day1/src/lib.rs:51-144 | "eightwothree" is rewritten and calibrates to 83. |
| `Document.CalibrateEightwo` | day1/src/lib.rs:51-144 | "eightwo" calibrates to 88, not 82, because the greedy rewrite never sees "two". |
| `Document.CalibrateWordless` | day1/src/lib.rs:51-144 | A line in which no table word can begin keeps its value through the rewrite. |
| `Document.Calibrate1abc2` | day1/src/lib.rs:51-144 | "1abc2" is left as it is by the rewrite and calibrates to 12. |
| `Document.CalibratePqr3stu8vwx` | day1/src/lib.rs:51-144 | "pqr3stu8vwx" is left as it is by the rewrite and calibrates to 38. |
| `Document.CalibrateA1b2c3d4e5f` | day1/src/lib.rs:51-144 | "a1b2c3d4e5f" is left as it is by the rewrite and calibrates to 15. |
| `Document.CalibrateTreb7uchet` | day1/src/lib.rs:51-144 | "treb7uchet" is left as it is by the rewrite and calibrates to 77. |
| `Document.ExampleLineValues` | day1/src/lib.rs:51-144 | After the rewrite, the six example lines calibrate to 12, 38, 15, 77, 29 and 83. |
| `Document.DocumentOfLines` | day1/src/lib.rs:84-117 | A document written as its lines, each ended by '\n' and with no trailing '\r', calibrates line by line to the values of its rewritten lines. |
| `LineCalibration.SumBound` | day1/src/lib.rs:146-147 | Values of at most 99 each sum to at most 99 times their number. |
| `LineCalibration.SumAppend` | day1/src/lib.rs:146-147 | The sum of two runs of values one after the other is the sum of their sums. |
| `LineCalibration.Sum` | day1/src/lib.rs:147 | `iter().sum()`: no single value exceeds the sum, and the sum is 0 exactly when every value is 0. |
| `Document.ExampleSum` | day1/src/lib.rs:147 | 12 + 38 + 15 + 77 + 29 + 83 sums to 254. |
| `Document.ExampleDocumentTotal` | day1/src/lib.rs:84-150 | The document of the six example lines calibrates to 12, 38, 15, 77, 29 and 83, for a total of 254. |
| `Document.DocumentTotalBound` | day1/src/lib.rs:146-147 | A document of n lines totals at most 99 * n. |
| `Day1.Trebuchet.GetCalibratedResult` | day1/src/lib.rs:146-150 | The result is the sum of the collected values, and it is at most 99 per value. |
| `Day1.Trebuchet.constructor` | day1/src/lib.rs:17-34 | A new calibrator has the given path, no document, no values and the nine-word table. |
| `Day1.Trebuchet.CalibrateDocument` | day1/src/lib.rs:163-167 | Formatting and then calibrating a stored document leaves its formatted text in `data`. It appends the document's values, and the total is the earlier sum plus the sum of those values. |
| `Day1.Trebuchet.RunCalibration` | day1/src/lib.rs:152-168 | A failed read changes nothing and yields no total. A successful read yields the formatted document, its appended values and their total. |

## Left out

- Reading the file: `parse_data` (`day1/src/lib.rs:36-49`) resolves a path, opens the file and reads it. That is I/O. `RunCalibration` takes what the read produced as a parameter instead, with `None` standing for an I/O error.
- Logging: every `println!`/`eprintln!` line, and `main` (`day1/src/lib.rs:171-175`).
- Day1.Trebuchet.GetCalibratedResult: returns the sum instead of printing it.
- Day1.Trebuchet.GetCalibratedResult: the sum is a `nat`, so the `u32` overflow of `iter().sum()` is not modelled. The bound of 99 per value shows that the overflow cannot happen with fewer than 43 million values.
- Byte offsets against character indices: `format_line` slices at the byte offset `slice_start`, but reads the character at index `slice_start` with `chars().nth`. Strings here are sequences of characters, and the model treats both as the same index. That is exact for ASCII text only; non-ASCII input can panic or misbehave in the Rust code.
- `HashMap` internals: the word table is a `map`. Its iteration order is left arbitrary.
- DigitWords.WellFormed: only tables whose values are single digits are considered. `to_string` of a larger value would emit several characters, and the table of `Trebuchet::new` has none.
- RustStd.ParseU32: only the behaviour needed here is modelled, namely an optional '+', decimal digits and overflow above `u32::MAX`. The byte-level details of `from_str_radix` are not.

## Where the code departs from the puzzle's intent

The model follows the code in two places where a reader of the puzzle
might expect otherwise:

- **Overlapping words.** An overlap-aware scan would read the digits 8 and
  2 from "eightwo". The code consumes each matched word whole. So
  "eightwo" becomes "8wo" and calibrates to 88
  (`Document.CalibrateEightwo`), and "twone" becomes "2ne"
  (`DigitWords.RewriteTwone`).
- **Lines with no digit.** Counting such a line as a value of 0 would add
  a 0 to the list of values. The code's parse of the two '\0' characters
  fails instead, and nothing is pushed for that line
  (`Day1.Trebuchet.CalibrateValue`, `Day1.Trebuchet.CalibrateLines`). The
  total is the same either way; the list of values is shorter.
