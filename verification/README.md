# Status code analyzer — a Dafny model

The analyzer reads the message history of a chat server's text channels. It picks out messages
whose body starts with `<4 digits> :: Code `<3 digits>``. It counts, per code and per calendar day,
how many such messages use a code of the code registry. It then pivots the counts into a
day × code table for a spreadsheet. The repository holds this logic twice:
`status_code_analyzer.py` and `hc_code_analyzer.py` differ only in the log file name and in doc
comments. This project models the logic once. The table below cites `status_code_analyzer.py`;
the same lines in `hc_code_analyzer.py` are: pattern 32, accumulator set-up 34-36,
`read_channel` 38-54, `add_or_increase_usage` 56-60, pivot 65-66.

Modules, one file each:

- `Regex` (`regex.dfy`): an interpreter for the part of Python's `re` that the pattern uses.
  It covers `^`, ASCII `\d`, literal characters, one capturing group, `.*` under `DOTALL`
  (greedy, with backtracking) and `$` (end of text, or just before a final newline). The
  interpreter is the reference meaning of `CODE_PATTERN.match(...).group(1)`.
- `CodePattern` (`code_pattern.dfy`): the pattern as atoms, plus the extractor `ExtractCode`. The
  extractor reads the code off by position; lemmas prove it agrees with the interpreter on every
  string.
- `Messages` (`messages.dfy`): a message is its body, its creation instant and its calendar day.
- `Tally` (`tally.dfy`): counting the elements of a sequence that satisfy a condition, and why
  the order of the elements does not change that count.
- `Usage` (`usage.dfy`): the accumulator `CODE_USAGE` as `map<Code, map<Date, nat>>`. It holds
  the initial map, `add_or_increase_usage`, the per-message step of `read_channel` (match, then
  registry filter, then increment) and the fold of that step over a run of messages.
- `History` (`history.dfy`): `read_channel` as two nested loops. The `while reading` loop
  fetches pages; the `async for` loop walks one page. Fetching is an abstract page source: a
  function from the cursor to the page of messages created before it.
- `Report` (`report.dfy`): the `pd.DataFrame(data=CODE_USAGE).fillna(0)` pivot.
- `Scenario` (`scenario.dfy`): a worked run. The registry is {101, 202}. The run has two uses
  of 101 on 2 January, one use of 202 on 3 January and one message without a code.

## Model

| member | source | states |
|---|---|---|
| CodePattern.MatchPattern | status_code_analyzer.py:15 | The pattern, run by the regex interpreter, matches a body exactly when the body has four digits, then " :: Code `", then three digits, then a backtick, then anything (newlines included). The group it captures is positions 14 to 17. |
| CodePattern.ExtractCodeIsPatternMatch | status_code_analyzer.py:54-56 | Reading the code off by position equals `CODE_PATTERN.match(body).group(1)` on every string, and yields a code exactly when the pattern matches. |
| CodePattern.ExtractCode | status_code_analyzer.py:15 | A captured code is always three ASCII digits. |
| CodePattern.FormatThenExtract | status_code_analyzer.py:15 | A body written in the message format, with any four-digit prefix and any suffix, yields back the code it was written with. |
| CodePattern.PrefixDigitCountIsExact | status_code_analyzer.py:15 | A body whose leading digits are three or five long, followed by the separator, any code and a backtick, does not match, whatever follows. |
| CodePattern.CodeDigitCountIsExact | status_code_analyzer.py:15 | A body with a four-character prefix, the separator, then two or four digits and a backtick does not match, whatever follows. |
| CodePattern.SuffixIsIgnored | status_code_analyzer.py:15 | Appending any text to a matching body does not change the extracted code. |
| Regex.RunLits | status_code_analyzer.py:15 | A literal part of a pattern matches exactly when the text at the current position equals it, and then consumes it. |
| Regex.RunDigits | status_code_analyzer.py:15 | `\d{n}` matches exactly when the next n characters are digits, and then consumes them. |
| Regex.RunAnyToEnd | status_code_analyzer.py:15 | Under DOTALL, `.*$` matches whatever text remains. |
| Usage.Init | status_code_analyzer.py:35-37 | The initial accumulator has exactly the registry codes as keys, each mapped to an empty day map. |
| Usage.AddOrIncreaseUsage | status_code_analyzer.py:60-67 | Cell (code, day) becomes 1 when absent and old+1 otherwise. No other cell and no top-level key changes. Counts stay at least 1. |
| Usage.Observe | status_code_analyzer.py:54-58 | A body that does not match, or whose code is not a key of the accumulator, leaves the accumulator unchanged. The top-level keys never change. |
| Usage.ObserveCounts | status_code_analyzer.py:54-58 | Observing a message adds one to the cell of its code and day when the message is a usage of that code, and leaves every other cell unchanged. |
| Usage.Scan | status_code_analyzer.py:49-58 | Processing a run of messages keeps the accumulator's top-level keys. |
| Usage.ScanSnoc | status_code_analyzer.py:49-58 | Processing one more message is one more observation step. |
| Usage.ScanAppend | status_code_analyzer.py:46-58 | Processing one page after another equals processing their concatenation. |
| Usage.ScanCounts | status_code_analyzer.py:49-67 | After a run, each cell equals its old value plus the number of messages in the run that match with that code on that day. Keys are kept and counts stay at least 1. |
| Usage.ScanDays | status_code_analyzer.py:60-67 | After a run, a day is stored for a code exactly when it was stored before or the run holds a usage of that code on that day. |
| Usage.ScanOrderIndependent | status_code_analyzer.py:49-58 | Two runs holding the same messages, in any order, produce the same accumulator. |
| Usage.RescanDoubles | status_code_analyzer.py:49-67 | Reading the same history twice doubles every count: the scan is not idempotent. |
| Tally.CountIfPermutation | status_code_analyzer.py:49-58 | A count over a run of messages depends only on the multiset of messages. |
| History.Pages | status_code_analyzer.py:46-52 | The pages read from a cursor: the first is the page at the cursor, none is empty, and the list is empty exactly when the first fetch is empty. |
| History.PagesAreBefore | status_code_analyzer.py:49-52 | Every message read from a cursor on was created before that cursor. |
| History.ReadingStep | status_code_analyzer.py:46-52 | After a non-empty page the cursor moves strictly back and the page joins the messages seen. After an empty page, everything has been read. |
| History.ReadingRound | status_code_analyzer.py:46-58 | One round of the `while reading` loop keeps the loop invariant: the accumulator is the fold over the messages seen, and the cursor is the last message's creation instant. |
| History.ReadPage | status_code_analyzer.py:49-58 | One `async for` over a page processes every message in order. It sets `reading` exactly when the page is non-empty, and leaves the cursor at the last message's creation instant. |
| History.ReadChannel | status_code_analyzer.py:43-58 | Reading stops exactly after the first empty page. The messages read are those of all the pages up to that one. The accumulator is the fold over them, so each cell grows by the number of messages read that use its code on its day. The cursor is the creation instant of the last message read. |
| Report.Days | status_code_analyzer.py:75 | The days of the table are exactly those stored for some code. |
| Report.Pivot | status_code_analyzer.py:75-76 | The columns are the accumulator's codes and the rows are the union of recorded days. Every row has a cell for every column. A cell holds the stored count, or 0 where none is stored. |
| Report.PivotCells | status_code_analyzer.py:75-76 | With positive counts, a day is a row exactly when some code has a nonzero cell on it, and the cell is the stored count or 0. |
| Report.ReportCounts | status_code_analyzer.py:35-76 | After a run from the initial accumulator: the columns are the registry codes, a day is a row exactly when some registry code was used on it, and each cell is the number of usages of its code on its day. |
| Scenario.ScenarioCodes | status_code_analyzer.py:15 | In the worked run, the three coded bodies yield 202, 101 and 101, and the chat line yields nothing. |
| Scenario.ShapedAccumulator | status_code_analyzer.py:49-67 | A run with one usage of b on day e and two of a on day d ends with {a: {d: 2}, b: {e: 1}}. |
| Scenario.TwoDayReport | status_code_analyzer.py:75-76 | With two codes used on two different days, the report has both days as rows, and 0 in each code's cell on the other day. |
| Scenario.ScenarioOutcome | status_code_analyzer.py:35-76 | The worked run ends with {101: {2 Jan: 2}, 202: {3 Jan: 1}}. Its report has rows 2 Jan = [2, 0] and 3 Jan = [0, 1] over columns [101, 202]. |

## Left out

- Discord client plumbing is not modelled: building the bot, `bot.run` with the token from the command line, the `on_ready` event, choosing the first guild, going through its text channels one after another, and `bot.close()`. Going through channels in turn would be `ReadChannel` called once per channel, with each call's accumulator passed to the next.
- `channel.history(before=...)` is modelled as an abstract page source. Its page size of 100 and its ordering are not modelled. The one promise the model relies on is that every message it returns is older than the cursor; `ReadChannel` takes that as a precondition because reading terminates only because of it. If the client broke that promise, the source could loop forever (for instance, when every page ends with a message created at the cursor itself).
- `datetime.now()` becomes the `now` parameter. Creation instants are natural numbers. The calendar day of a message is carried on the message: time zones and the arithmetic behind `.date()` are not modelled.
- Python's `\d` matches any Unicode decimal digit. The model accepts only ASCII `0`-`9`.
- The code registry `resources.code_map` is not part of this model. Only its key set is used, as a `set<Code>` parameter.
- The ODS writing (`pd.ExcelWriter`, `to_excel`, path `data/out.ods`) is not modelled, nor are row and column order. The table is keyed by day and by code. Pandas stores zero-filled columns as floating point; the model's cells are natural numbers.
- Usage.AddOrIncreaseUsage: requires the code to be a key of the accumulator. The source raises `KeyError` otherwise, and its only caller checks that the code is a key first.
- Logging (`set_up_logger`, the rotating file handler and every `LOGGER.info` call) is not modelled.
- The cursor moves to the creation instant of the last message yielded in a page (`ReadPage`, `ReadChannel`). That is the oldest message of the page only when the client yields pages newest first; the model makes no assumption about the order within a page.
