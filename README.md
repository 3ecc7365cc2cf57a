# Yin-Yang row-wise enrichment, modelled in Dafny

This project models the core of a row-by-row table enrichment system with
two language-model roles:

- **Yang**, the executor. Given a row and a command, it asks a chat model
  for a JSON object of new attributes. It recovers an object from prose
  around the reply when the reply does not parse. It never raises:
  failures become an `{"error": ...}` marker.
- **Yin**, the planner and judge. It holds the user's command, builds a
  row's context and phrases the executor's task. It then judges the
  executor's result: a structural check first, then a second chat model
  whose reply must say `WOOHOO`, in any letter case.
- **The processor**. It copies the input table and adds an empty
  `ai_decision` column. For each row in order it:
  - reports progress;
  - runs up to `max_retries` attempts;
  - merges every field of each result as `str(value)`;
  - classifies the row as `valid`, `invalid` or `error`;
  - when an output file is set, streams the row after a header.

The chat models are capabilities passed in per row and per attempt
(`Attempts.Oracles`). The JSON library is the `Json.Codec` parameter:
`json.loads`, `json.dumps` and `str()` of floats and containers. The log
callback, the progress callback and the output file are recorded as one
trace of the calls they receive, in the order they are made (`events`).

The modules are:

- `Wrappers`: `Option` and `Result`.
- `Text`: `str.find`, `str.rfind`, `in`, `upper`, `lower`, integer
  rendering, and the brace slice.
- `Json`: decoded values, truthiness and the codec.
- `Chat`: messages, context, task and completion.
- `Utils`: `utils.py`.
- `Yang`: `yang.py`.
- `Yin`: `yin.py`.
- `Frame`: the table, updated in place.
- `Attempts`: one attempt, the retry loop and the classification, as values.
- `Processor`: the `YinYangProcessor` class.

The processor's methods are proved against the value-level functions in
`Attempts` and `Processor`. `ProcessData` states the whole result table, the
log, the progress reports and the stream in terms of `RowResult`. The
lemmas then say what `RowResult` means.

## Model

| member | source | states |
|---|---|---|
| Text.Find | yang.py:95 | the result is the first index of the character, or -1 when it does not occur |
| Text.RFind | yang.py:96 | the result is the last index of the character, or -1 when it does not occur |
| Text.Contains | yin.py:218 | `sub in s` holds exactly when `sub` occurs at some position of `s` |
| Text.Upper | yin.py:218 | the same length, with every ASCII letter in upper case |
| Text.Lower | utils.py:69 | `.lower()`: the same length, with every ASCII letter in lower case |
| Text.IntToStringIsDecimal | yin_yang_processor.py:93 | `str()` of an integer in an f-string: a `-` exactly when it is negative, then the canonical decimal numeral (digits only, no leading zero) whose value is the magnitude |
| Text.IntToStringRoundTrip | yin_yang_processor.py:93 | reading the rendered text back as a signed decimal gives the integer, so distinct counts log as distinct texts |
| Json.FalsyValues | yang.py:73 | a value is falsy exactly when it is `None`, `False`, `0`, `0.0`, `""`, `[]` or `{}` |
| Json.TypeNamesDistinct | yin_yang_processor.py:129 | `type(v).__name__` as the `.items()` AttributeError text shows it: one of the seven JSON type names, equal for two values exactly when their types are equal, and `dict` or `list` exactly for objects and lists |
| Json.PyStrCases | yin_yang_processor.py:130 | `str(value)`: `None`, `True`/`False`, an int's text with a `-` exactly when negative, and a string's own text unquoted; other types as the codec renders them |
| Json.PyStrOfIntReadsBack | yin_yang_processor.py:130 | `str()` of an int is a signed canonical decimal numeral that reads back as the int |
| Text.BraceSlice | yang.py:95-99 | the text from the first `{` to the last `}` inclusive, when both exist in that order; otherwise none |
| Utils.ParseJsonSafely | utils.py:111-136 | returns the direct parse when it succeeds; otherwise the parse of the first-`{`-to-last-`}` slice when the braces are in order; otherwise `None` |
| Utils.Extension | utils.py:69 | empty when there is no dot; otherwise the text from the last dot on exactly when the last path component has a character other than a dot before that dot, else empty |
| Utils.ExtensionOfNamedFile | utils.py:69 | `stem.suffix` has extension `.suffix` |
| Utils.HiddenFileHasNoExtension | utils.py:69 | `.suffix` has no extension |
| Utils.ReadDataFile | utils.py:54-77 | a missing file is `FileNotFound`; `.xlsx`/`.xls` in any case reads a spreadsheet, exactly; `.csv` reads CSV, exactly; anything else is `UnsupportedFileType` with the lower-cased extension |
| Utils.SaveFormat | utils.py:93-103 | a non-empty explicit format wins, lower-cased; otherwise a spreadsheet extension gives `excel` and every other name gives `csv` |
| Utils.SaveDataFile | utils.py:105-109 | the spreadsheet writer runs exactly when the format name is `excel` |
| Utils.SaveMatchesRead | utils.py:68-103 | a name the reader accepts is written, with no explicit format, in the format it is read in |
| Utils.SaveFallsBackToCsv | utils.py:97-103 | a name the reader refuses is still written as CSV |
| Utils.ExplicitFormatWins | utils.py:94-95 | an explicit format ignores the path and is matched case-insensitively |
| Utils.ExplicitFormatExamples | utils.py:94-109 | `EXCEL` writes a spreadsheet; `xlsx` as a format writes CSV |
| Utils.SpreadsheetNameIsExcel | utils.py:69-99 | a name ending in `.xlsx` or `.xls` in any letter case is read and written as a spreadsheet |
| Utils.HiddenFileIsRefused | utils.py:69-103 | `.csv` is refused by the reader with an empty extension, and written as CSV |
| Yang.ErrorMarker | yang.py:77-81 | a one-field object `{"error": reason}`, which is truthy |
| Yang.ExtractJson | yang.py:83-105 | parses exactly the first-`{`-to-last-`}` slice when the braces are in order; otherwise `None` |
| Yang.ProcessTask | yang.py:38-81 | a failing request gives the `Processing error` marker; a parsing reply gives its value; otherwise the result is truthy |
| Yang.ParseJsonSafelyFallsBackToExtract | utils.py:121-136 | `parse_json_safely` is the direct parse, else `_extract_json`: they share one algorithm |
| Yang.ExtractEmbedded | yang.py:94-100 | an object in brace-free prose is recovered exactly |
| Yang.ProcessTaskRecoversEmbedded | yang.py:65-74 | prose around a non-empty object, unparseable as a whole, yields that object |
| Yang.ProcessTaskMatchesParseJsonSafely | yang.py:62-77 | the executor returns the safe parse, except that a falsy or missing fallback becomes the generation-failure marker |
| Yang.FallbackIsNonEmptyObject | yang.py:69-81 | when the direct parse fails, the result is a non-empty object |
| Yin.TaskPromptQuotes | yin.py:134-144 | the executor's prompt contains the row's JSON and the command |
| Yin.ValidationPromptQuotes | yin.py:186-196 | the judge's prompt contains the row's JSON, the command and the result's JSON |
| Yin.YinAgent.constructor | yin.py:25-40 | a planner with its model, the texts of `yin.py` and no command |
| Yin.YinAgent.InitializeWithCommand | yin.py:42-50 | the command is recorded and nothing else changes |
| Yin.YinState.CommandText | yin.py:140 | the command as the prompt's f-string renders it: the command itself once set, `None` before |
| Yin.YinState.BuildRowContext | yin.py:52-78 | the context carries the row untouched |
| Yin.YinState.FormulateYangTask | yin.py:108-151 | a row that does not serialise raises with the serialiser's text; otherwise a task carrying the context |
| Yin.YinState.ValidationRequest | yin.py:164-196 | the judge is consulted exactly when the result is a non-empty object and the row serialises |
| Yin.YinState.ValidateYangResponse | yin.py:153-224 | a non-object or empty result is rejected with the fixed messages; otherwise accepted exactly when the judge's reply contains `WOOHOO` in any case, with the reply as the message; every exception becomes a rejection; acceptance implies the judge was asked |
| Yin.YinState.FormulatedTaskQuotesRowAndCommand | yin.py:119-149 | two messages: the executor's role, then a user message quoting the row's JSON and the command |
| Yin.YinState.ValidationRequestQuotesResult | yin.py:174-196 | two messages: the judge's role, then a message quoting the row, the command and the result |
| Yin.YinState.ShortCircuitConsultsNoJudge | yin.py:164-171 | a structurally rejected result gets the same rejection whichever judge is given |
| Yin.AcceptsIffWordAnywhere | yin.py:217-218 | acceptance holds exactly when `WOOHOO` appears at some position in any letter case |
| Yin.NaynayDoesNotVeto | yin.py:194-218 | a reply that opens with `NAYNAY` but says `woohoo` later is accepted |
| Frame.DataFrame.Copy | yin_yang_processor.py:68 | the copy has the same columns and rows |
| Frame.DataFrame.SetColumn | yin_yang_processor.py:71 | every row gets the value in the column, which is added |
| Frame.DataFrame.SetCell | yin_yang_processor.py:130 | one cell is written and its column created; every other row is unchanged |
| Frame.CsvLine | yin_yang_processor.py:180-181 | one cell per column: the row's value, or empty where it has none |
| Attempts.InitialCells | yin_yang_processor.py:71 | the input cells plus an empty `ai_decision` |
| Attempts.Rendered | yin_yang_processor.py:129-130 | one cell per result field |
| Attempts.ReplayStepKeys | yin_yang_processor.py:127-148 | an attempt adds its fields' columns, and `ai_decision` unless it raised |
| Attempts.Loop | yin_yang_processor.py:103-164 | the loop ends on success or an exhausted budget, extending the history |
| Attempts.AttemptsBounded | yin_yang_processor.py:103-160 | at most `max_retries` attempts, in order; a row that never succeeds makes all of them |
| Attempts.AcceptanceEndsRow | yin_yang_processor.py:132-141 | an accepted attempt is the last, and `success` holds exactly when one was accepted |
| Attempts.AcceptedReplayIsValid | yin_yang_processor.py:137 | after an accepted attempt the row already says `valid` |
| Attempts.LoopReplays | yin_yang_processor.py:103-164 | the loop's cells are its attempts replayed; its log is their lines; `had_error` holds exactly when one raised |
| Attempts.OutcomeIsClassified | yin_yang_processor.py:99-175 | the final cells are the replayed attempts with the classification in `ai_decision`; the log starts with the attempts' lines |
| Attempts.DecisionIsClassification | yin_yang_processor.py:166-175 | `ai_decision` is `valid` when an attempt was accepted, else `error` when one raised, else `invalid` |
| Attempts.ZeroBudgetIsInvalid | yin_yang_processor.py:103 | with `max_retries <= 0` no attempt is made and the row is `invalid` |
| Attempts.NeverAcceptedRow | yin_yang_processor.py:156-175 | without an acceptance every attempt runs; the row is `error` exactly when one raised, even if later ones were clean rejections |
| Attempts.ClassifyUnaccepted | yin_yang_processor.py:166-175 | without an acceptance the classification is `error` exactly when an attempt raised |
| Attempts.LoopUsesOnlyItsAttempts | yin_yang_processor.py:103 | the loop depends only on the runs of the attempts it makes |
| Attempts.ReplayLastWriter | yin_yang_processor.py:129-130 | a column holds `str(value)` from the latest attempt that returned it |
| Attempts.ReplayUntouched | yin_yang_processor.py:129-130 | a column no attempt returned keeps its input cell, or stays absent |
| Attempts.UnserialisableRowRaises | yin_yang_processor.py:110-164 | a row that does not serialise raises before any capability is asked |
| Attempts.NonObjectResultRaises | yin_yang_processor.py:125-130 | a non-dict result raises when its items are taken, after validation |
| Attempts.EmptyResultIsRejected | yin.py:169-171 | an empty object is rejected and merges nothing |
| Attempts.EmptyResultsMakeInvalidRow | yin_yang_processor.py:103-175 | empty objects on every attempt use the whole budget, and the row ends `invalid` |
| Attempts.ObjectResultIsJudged | yin_yang_processor.py:118-150 | any object result is judged and merged: the attempt is accepted or rejected with its fields |
| Attempts.TransportFailureIsNotAnError | yang.py:79-81 | a failing executor request does not raise: its marker is judged and merged |
| Attempts.NoRaiseNoError | yin_yang_processor.py:166-175 | a row none of whose attempts raises is never `error` |
| Attempts.SameObjectEveryAttempt | yin_yang_processor.py:127-130 | a row whose every attempt returns one object carries that object's fields |
| Attempts.OutcomeCell | yin_yang_processor.py:127-175 | a column other than `ai_decision` is that of the replayed attempts |
| Attempts.TransportFailuresNeverMakeAnErrorRow | yin_yang_processor.py:103-175 | while the executor's service fails, the row is never `error` and carries the marker's text in its `error` column |
| Attempts.TransportRunsMerge | yin_yang_processor.py:118-150 | while the executor's service fails, every attempt merges the marker |
| Attempts.RowIgnoresUnusedOracles | yin_yang_processor.py:103-141 | capabilities of attempts never made do not affect the row |
| Processor.ProgressCountsFromOne | yin_yang_processor.py:89-91 | row `i` is reported as `i + 1` |
| Processor.AgreesAfterAttempt | yin_yang_processor.py:127-164 | an attempt's writes keep the table and log in step with the advanced row state |
| Processor.YinYangProcessor.constructor | yin_yang_processor.py:16-43 | a fresh planner with no command, the settings, and nothing observed |
| Processor.YinYangProcessor.Log | yin_yang_processor.py:45-49 | one log call appended to the trace |
| Processor.YinYangProcessor.UpdateProgress | yin_yang_processor.py:51-54 | one progress report appended to the trace |
| Processor.YinYangProcessor.MergeResult | yin_yang_processor.py:129-130 | the row gains every field as `str(value)`, the columns grow by the fields, and the other rows are unchanged |
| Processor.YinYangProcessor.LogOpening | yin_yang_processor.py:105-113 | the retry line on retries, then the analysis and formulation lines |
| Processor.YinYangProcessor.LogAsking | yin_yang_processor.py:117-124 | the executor and validation lines, in order |
| Processor.YinYangProcessor.LogFailing | yin_yang_processor.py:156-164 | the error line, and the all-failed line on the last attempt |
| Processor.YinYangProcessor.LogRejecting | yin_yang_processor.py:144-154 | the rejection line, and the all-failed line on the last attempt |
| Processor.YinYangProcessor.RunAttempt | yin_yang_processor.py:104-164 | one attempt logs and writes exactly as `Attempts.Run` says |
| Processor.YinYangProcessor.ExecuteTask | yin_yang_processor.py:116-164 | the attempt once its task is phrased follows `Attempts.Execute` |
| Processor.YinYangProcessor.Conclude | yin_yang_processor.py:120-164 | the merge and verdict write follow `Attempts.Conclusion` |
| Processor.YinYangProcessor.RetryLoop | yin_yang_processor.py:103-164 | the loop ends in the state of `Attempts.Loop`, mirrored in the table and log |
| Processor.YinYangProcessor.Attempt | yin_yang_processor.py:104-164 | one loop pass advances the row state by its run, keeping it coherent |
| Processor.YinYangProcessor.FinishRow | yin_yang_processor.py:166-175 | the final status written and logged as `Attempts.Finish` says |
| Processor.YinYangProcessor.ProcessRow | yin_yang_processor.py:98-175 | the row ends with `RowResult`'s cells and columns, and its log lines |
| Processor.YinYangProcessor.ProcessData | yin_yang_processor.py:56-185 | a fresh table with one row per input row, each that row's `RowResult`; the input is unchanged; the command is recorded; the trace is the prologue (with the header when streaming), each row's calls in row order, and the closing line; its progress reports are `1..n` and its writes are the header then one line per row |
| Processor.YinYangProcessor.Begin | yin_yang_processor.py:67-86 | the copy with its empty `ai_decision`, the opening lines and the header |
| Processor.YinYangProcessor.EnrichAll | yin_yang_processor.py:88-185 | the row loop and the closing line |
| Processor.YinYangProcessor.EnrichRows | yin_yang_processor.py:89-182 | every row in order becomes its expected outcome (its `RowResult`); the table, its columns and the trace follow the rows |
| Processor.YinYangProcessor.EnrichRow | yin_yang_processor.py:89-182 | row `i` becomes its expected outcome, and the trace gains that row's calls in order: its progress report, its announcement, its attempts' and final status's lines, then its streamed line and the line saying it was written |
| Processor.YinYangProcessor.Announce | yin_yang_processor.py:90-93 | a row's pass opens with its progress report, then the line announcing it |
| Processor.YinYangProcessor.StreamRow | yin_yang_processor.py:177-182 | when streaming, the row's line under the table's current columns, then the line saying it was written; nothing otherwise |
| Processor.TabledAfterRow | yin_yang_processor.py:89-182 | one more row keeps the table, columns and observers in step with the outcomes |
| Processor.OneMoreRow | yin_yang_processor.py:127-182 | the columns, calls and stream of one more row extend those before it |
| Processor.RowsObserved | yin_yang_processor.py:89-182 | over the rows, the progress reports are exactly `1..n` and the writes are exactly the rows' streamed lines, or none when not streaming |
| Processor.YinYangProcessor.ObservedRun | yin_yang_processor.py:73-185 | over a whole run, the progress reports are `1..n` and the writes are the header followed by one line per row |
| Processor.RowCallsInOrder | yin_yang_processor.py:88-182 | row `i`'s calls sit together after the earlier rows': report `i + 1`, announcement, its attempts' lines, then its streamed line and written line, so progress comes before the attempts |
| Processor.ColumnsCoverRows | yin_yang_processor.py:127-130 | the result has every input column and every column of every row |
| Processor.StreamedLineOfRow | yin_yang_processor.py:177-182 | one streamed line per row, in row order, under the columns the table had then |
| Processor.DecisionsClassified | yin_yang_processor.py:132-175 | every row is exactly one of `valid`, `invalid`, `error`, and `valid` exactly when an attempt was accepted |
| Processor.StreamedDecision | yin_yang_processor.py:177-182 | the streamed line of a row carries its final cells and its classification |

## Left out

- Reading and writing files, pandas, and the logger set-up are not modelled. `Utils` models the choice of reader and writer only, and `os.path.exists` is the `fileExists` argument.
- The OpenAI requests, the environment and the API-key check are not modelled. The requests are the `Client` capabilities, one per row and attempt. A reply without content is folded into `Failed`.
- The JSON grammar and the `json.dumps` text are the opaque `Json.Codec`, as is `str()` of floats, lists and dicts.
- Floats are their exact real values.
- Column order is not modelled: columns are a set. A streamed line is a map from column to cell.
- A missing (NaN) cell is an absent key.
- The table's index is taken to be `0 .. n-1`, as `read_data_file` produces.
- Text.Upper: only ASCII letters change case, not full Unicode case mapping; Text.Lower likewise.
- Exceptions raised by the log or progress callbacks are not modelled; they are outside the core's contract.
- The web-search helper in `yang.py`, the commented-out API lookup in `yin.py`, `app.py` and `yin_yang.py` are not part of this model.
- The model names and the provider tunables (`max_tokens`, `temperature`, JSON mode) are not modelled: they do not affect the logic.
- Processor.YinYangProcessor.MergeResult writes the fields in an unspecified order. Python follows the dict's order, but each key is written once, so the cells are the same.
- The Yin prompts are held as the agent's constructor-set texts (`Yin.PROMPTS`), word for word.
- Three behaviours of the code that the model follows:
  - an executor transport failure is swallowed into an `{"error": "Processing error: ..."}` marker, which is judged and merged like any result. It neither raises nor makes the row `error` (`Attempts.TransportFailuresNeverMakeAnErrorRow`);
  - that marker and the generation-failure marker are non-empty objects, so they pass the structural check and go to the judge (`Yang.FallbackIsNonEmptyObject`);
  - the only exceptions that reach the retry loop are a row that does not serialise and a non-dict result, whose `.items()` raises after validation.
- Processor.YinYangProcessor.constructor: the defaults (`model_name="gpt-4"`, `max_retries=3`, no callbacks, no output file) are not modelled; every argument is given explicitly.
- Processor.YinYangProcessor.Log: the log and progress callbacks are modelled as present. With `None` in their place the source makes no call, and the trace still records one.
- Input cells are modelled as their text (`Json.Row`). pandas cells are typed (int, float, Timestamp), so whether `json.dumps` of a row raises, and the JSON it gives, are functions of the cell text here. A Timestamp cell and a string cell with the same text cannot be told apart.
- Utils.ParseJsonSafely: `Json.Codec.loads` folds every exception of `json.loads` into `None`. On the whole text, an exception other than `JSONDecodeError` (a `RecursionError` from deeply nested brackets, a `ValueError` from an integer past the digit limit) propagates out of `parse_json_safely`, where the model goes on to the brace slice instead. On the slice, any exception gives `None`, as modelled.
- Yang.ProcessTask: the same exception on the whole reply reaches `except Exception` (yang.py:79-81) and gives `{"error": "Processing error: <message>"}`. The model treats the reply as one that does not parse, so it returns the recovered object or the generation-failure marker instead.
- Utils.Extension: only the POSIX form of `os.path.splitext` is modelled. A `\` separator, as on Windows, is an ordinary character.
- The streamed header holds the columns before any row is processed. Later streamed lines hold the table's columns at that time, which can be more.
