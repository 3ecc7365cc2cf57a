/** The processor that drives the planner (Yin) and the executor (Yang)
    over a table, row by row (`YinYangProcessor` in
    `yin_yang_processor.py`). Its log callback, progress callback and output
    file are modelled as one trace of the calls they receive, in the order
    they are made; the chat capabilities are the `Oracles` of each row and
    attempt. */
module Processor {
  import opened Wrappers
  import opened Json
  import opened Chat
  import Yang
  import opened Yin
  import opened Frame
  import opened Attempts

  /** What the streaming output receives: the header (the columns of the
      table before any row is processed) and then one line per row. */
  datatype Written = Header(columns: set<string>) | Line(cells: map<string, string>)

  /** One call the processor makes on an observer: the log callback, the
      progress callback, or a write to the output file. */
  datatype Event = Logged(entry: LogEntry) | Reported(current: int) | Wrote(written: Written)

  /** Log lines as the calls of the log callback they are. */
  function Lines(log: seq<LogEntry>): seq<Event> {
    seq(|log|, i requires 0 <= i < |log| => Logged(log[i]))
  }

  /** The progress reports among the observer calls, in order. */
  function Reports(events: seq<Event>): seq<int> {
    if events == [] then []
    else
      var e := events[|events| - 1];
      Reports(events[..|events| - 1]) + (if e.Reported? then [e.current] else [])
  }

  /** The writes to the output file among the observer calls, in order. */
  function Writes(events: seq<Event>): seq<Written> {
    if events == [] then []
    else
      var e := events[|events| - 1];
      Writes(events[..|events| - 1]) + (if e.Wrote? then [e.written] else [])
  }

  /** The reports and writes of two stretches of calls are those of the
      first followed by those of the second. */
  lemma {:induction false} ObservedAppend(first: seq<Event>, second: seq<Event>)
    ensures Reports(first + second) == Reports(first) + Reports(second)
    ensures Writes(first + second) == Writes(first) + Writes(second)
    decreases |second|
  {
    if second == [] {
      assert first + second == first;
    } else {
      var init := second[..|second| - 1];
      assert (first + second)[..|first + second| - 1] == first + init;
      ObservedAppend(first, init);
    }
  }

  /** The same for four stretches. */
  lemma {:induction false} ObservedInParts(first: seq<Event>, second: seq<Event>, third: seq<Event>, fourth: seq<Event>)
    ensures Reports(first + second + third + fourth)
            == Reports(first) + Reports(second) + Reports(third) + Reports(fourth)
    ensures Writes(first + second + third + fourth)
            == Writes(first) + Writes(second) + Writes(third) + Writes(fourth)
  {
    ObservedAppend(first, second);
    ObservedAppend(first + second, third);
    ObservedAppend(first + second + third, fourth);
  }

  /** Stretches whose reports and writes are known, in a row. */
  lemma {:induction false} RunShape(before: seq<Event>, prologue: seq<Event>, rows: seq<Event>, closing: seq<Event>,
                 reports: seq<int>, writes: seq<Written>)
    requires Reports(prologue) == [] && Reports(closing) == [] && Writes(closing) == []
    requires Reports(rows) == reports && Writes(prologue) + Writes(rows) == writes
    ensures Reports(before + prologue + rows + closing) == Reports(before) + reports
    ensures Writes(before + prologue + rows + closing) == Writes(before) + writes
  {
    RunReports(before, prologue, rows, closing, reports);
    RunWrites(before, prologue, rows, closing, writes);
  }

  lemma {:induction false} RunReports(before: seq<Event>, prologue: seq<Event>, rows: seq<Event>, closing: seq<Event>,
                   reports: seq<int>)
    requires Reports(prologue) == [] && Reports(closing) == [] && Reports(rows) == reports
    ensures Reports(before + prologue + rows + closing) == Reports(before) + reports
  {
    ObservedInParts(before, prologue, rows, closing);
    var reported := Reports(before);
    assert reported + [] + reports + [] == reported + reports;
  }

  lemma {:induction false} RunWrites(before: seq<Event>, prologue: seq<Event>, rows: seq<Event>, closing: seq<Event>,
                  writes: seq<Written>)
    requires Writes(closing) == [] && Writes(prologue) + Writes(rows) == writes
    ensures Writes(before + prologue + rows + closing) == Writes(before) + writes
  {
    ObservedInParts(before, prologue, rows, closing);
    var written := Writes(before);
    assert written + Writes(prologue) + Writes(rows) + [] == written + writes;
  }

  /** Log lines hold no progress report and no write. */
  lemma {:induction false} LinesAreQuiet(log: seq<LogEntry>)
    ensures Reports(Lines(log)) == [] && Writes(Lines(log)) == []
    decreases |log|
  {
    if log != [] {
      var init := log[..|log| - 1];
      assert Lines(log)[..|log| - 1] == Lines(init);
      LinesAreQuiet(init);
    }
  }

  /** One call is a report, a write, or neither. */
  lemma {:induction false} ObservedSingle(e: Event)
    ensures Reports([e]) == (if e.Reported? then [e.current] else [])
    ensures Writes([e]) == (if e.Wrote? then [e.written] else [])
  {
    assert [e][..0] == [];
  }

  /** The progress reports of the first `n` rows, one per row, in order. */
  function Progress(n: nat): (r: seq<int>)
    ensures |r| == n
  {
    if n == 0 then [] else Progress(n - 1) + [n]
  }

  /** Row `index` is reported as `index + 1`: the reports count the rows
      from one up to `n`. */
  lemma {:induction false} ProgressCountsFromOne(n: nat, index: nat)
    requires index < n
    ensures Progress(n)[index] == index + 1
  {
    if index < n - 1 {
      ProgressCountsFromOne(n - 1, index);
    }
  }

  /** Lines logged in two steps are the two groups' lines in order. */
  lemma {:induction false} Appended(before: seq<Event>, first: seq<LogEntry>, second: seq<LogEntry>)
    ensures before + Lines(first) + Lines(second) == before + Lines(first + second)
  {
    assert Lines(first) + Lines(second) == Lines(first + second);
  }

  lemma Concatenated<T>(before: seq<T>, first: seq<T>, second: seq<T>)
    ensures before + first + second == before + (first + second)
  {
  }

  /** One row's calls, appended in three stretches, are the row's calls
      appended at once. */
  lemma Regrouped<T>(before: seq<T>, head: seq<T>, lines: seq<T>, tail: seq<T>)
    ensures before + head + lines + tail == before + (head + lines + tail)
  {
  }

  /** The first `i + 1` elements are the first `i` and the next one. */
  lemma Grown<T>(s: seq<T>, i: nat)
    requires i < |s|
    ensures s[..i + 1] == s[..i] + [s[i]]
  {
  }

  /** A row written twice holds the second write. */
  lemma Overwritten(rows: seq<Row>, index: nat, first: Row, second: Row)
    requires index < |rows|
    ensures rows[index := first][index := second] == rows[index := second]
  {
  }

  /** A table, its columns and the observer calls agree with a row state
      when row `index` holds the state's cells, every other row and column
      is as in `rows` and `columns`, and the state's lines follow
      `before`. */
  ghost predicate Agrees(table: seq<Row>, cols: set<string>, events: seq<Event>, index: nat, st: RowState,
                         rows: seq<Row>, columns: set<string>, before: seq<Event>)
  {
    && index < |rows|
    && table == rows[index := st.cells]
    && cols == columns + st.cells.Keys
    && events == before + Lines(st.log)
  }

  /** An attempt that writes its cells and lines keeps the table in step
      with the advanced row state. */
  lemma AgreesAfterAttempt(codec: Codec, table: seq<Row>, cols: set<string>, events: seq<Event>, index: nat,
                           st: RowState, run: AttemptRun, rows: seq<Row>, columns: set<string>, before: seq<Event>)
    requires Agrees(table, cols, events, index, st, rows, columns, before)
    ensures Agrees(table[index := ReplayStep(codec, table[index], run.kind)],
                   cols + FieldsOf(run.kind).Keys + (if run.kind.Raised? then {} else {DECISION}),
                   events + Lines(run.log), index, Advance(codec, st, run), rows, columns, before)
  {
    ReplayStepKeys(codec, st.cells, run.kind);
    Appended(before, st.log, run.log);
    Overwritten(rows, index, st.cells, ReplayStep(codec, st.cells, run.kind));
  }

  /** The fixed parts of the lines the processor logs around its rows. */
  const STARTING := "Starting to process "
  const COMMAND := "User command: "
  const INITIALIZING := "Initializing Yin agent with user command"
  const STREAMING := "Streaming results to "
  const PROCESSING := "Processing row "
  const WRITTEN := " written to output file"
  const COMPLETE := "Processing complete. Enriched "

  class YinYangProcessor {
    const yin: YinAgent
    const codec: Codec
    const oracles: Oracles
    const maxRetries: int
    const outputFile: Option<string>

    /** The calls the log callback, the progress callback and the output
        file received, in the order they were made. */
    var events: seq<Event>

    /** A processor with a fresh planner and nothing observed yet. */
    constructor (modelName: string, maxRetries: int, outputFile: Option<string>, codec: Codec, oracles: Oracles)
      ensures fresh(yin) && yin.modelName == modelName && yin.prompts == PROMPTS && yin.userCommand == None
      ensures this.maxRetries == maxRetries && this.outputFile == outputFile
      ensures this.codec == codec && this.oracles == oracles
      ensures events == []
    {
      yin := new YinAgent(modelName);
      this.maxRetries := maxRetries;
      this.outputFile := outputFile;
      this.codec := codec;
      this.oracles := oracles;
      events := [];
    }

    /** The library, capabilities and retry budget every row shares. */
    function Environment(): Env {
      Env(codec, oracles, maxRetries)
    }

    /** `if self.output_file:` — a path that is set and not empty. */
    predicate Streaming() {
      outputFile.Some? && outputFile.value != ""
    }

    /** `log`: one call of the log callback. */
    method Log(kind: string, content: string)
      modifies this`events
      ensures events == old(events) + [Logged(LogEntry(kind, content))]
    {
      events := events + [Logged(LogEntry(kind, content))];
    }

    /** `update_progress`: one call of the progress callback. */
    method UpdateProgress(current: int)
      modifies this`events
      ensures events == old(events) + [Reported(current)]
    {
      events := events + [Reported(current)];
    }

    /** One write to the output file. */
    method Write(w: Written)
      modifies this`events
      ensures events == old(events) + [Wrote(w)]
    {
      events := events + [Wrote(w)];
    }

    /** `for key, value in yang_result.items(): result_df.loc[index, key] =
        str(value)`: every field of the result written into row `index`. */
    method MergeResult(result: DataFrame, index: nat, fields: map<string, Value>)
      requires result.Valid() && index < |result.rows|
      modifies result
      ensures result.Valid()
      ensures result.columns == old(result.columns) + fields.Keys
      ensures result.rows == old(result.rows)[index := old(result.rows)[index] + Rendered(codec, fields)]
    {
      var remaining := fields.Keys;
      ghost var done := {};
      assert old(result.rows)[index] + Merged(fields, done) == old(result.rows)[index];
      while remaining != {}
        invariant remaining <= fields.Keys && done == fields.Keys - remaining
        invariant result.Valid()
        invariant result.columns == old(result.columns) + done
        invariant result.rows == old(result.rows)[index := old(result.rows)[index] + Merged(fields, done)]
        decreases remaining
      {
        var key :| key in remaining;
        WrittenGrows(old(result.rows)[index], fields, done, key);
        result.SetCell(index, key, PyStr(codec, fields[key]));
        remaining := remaining - {key};
        done := done + {key};
      }
      assert Merged(fields, done) == Rendered(codec, fields);
    }

    /** The fields of `done` as `str(value)`. */
    ghost function Merged(fields: map<string, Value>, done: set<string>): map<string, string>
      requires done <= fields.Keys
    {
      map k | k in done :: PyStr(codec, fields[k])
    }

    lemma WrittenGrows(cells: Row, fields: map<string, Value>, done: set<string>, key: string)
      requires done <= fields.Keys && key in fields
      ensures (cells + Merged(fields, done))[key := PyStr(codec, fields[key])]
              == cells + Merged(fields, done + {key})
    {
    }

    /** The lines before the row's context is built. */
    method LogOpening(current: nat, count: nat)
      modifies this`events
      ensures events == old(events) + Lines(Opening(maxRetries, current, count))
    {
      if count > 0 {
        Log("system", "Retry " + Num(count) + "/" + Num(maxRetries) + " for row " + Num(current));
      }
      Log("yin", ANALYZING + Num(current) + BUILDING);
      Log("yin", FORMULATING);
    }

    /** The lines between the executor's result and the verdict. */
    method LogAsking(output: Value)
      modifies this`events
      ensures events == old(events) + Lines(Asking(codec, output))
    {
      Log("yang", "Processing task");
      Log("yang", GENERATED + codec.dumps(output));
      Log("yin", VALIDATING);
    }

    /** The lines of the `except` branch. */
    method LogFailing(current: nat, count: nat, reason: string)
      modifies this`events
      ensures events == old(events) + Lines(Failing(maxRetries, current, count, reason))
    {
      Log("error", ROW_ERROR + Num(current) + ": " + reason);
      if count + 1 >= maxRetries {
        Log("error", ALL_ERRORS + Num(current));
      }
    }

    /** The lines of a rejection. */
    method LogRejecting(current: nat, count: nat, message: string)
      modifies this`events
      ensures events == old(events) + Lines(Rejecting(maxRetries, current, count, message))
    {
      Log("yin", VALIDATION_FAILED + message);
      if count + 1 >= maxRetries {
        Log("yin", ALL_INVALID + Num(current));
      }
    }

    /** One pass through the body of the retry loop for row `index` as
        attempt number `count`, with that attempt's capabilities: it logs,
        writes into row `index` and ends as the reference attempt does. */
    method RunAttempt(result: DataFrame, index: nat, row: Row, count: nat) returns (kind: AttemptKind)
      requires result.Valid() && index < |result.rows|
      modifies this`events, result
      ensures var run := Run(yin.State(), codec, maxRetries, index, row, count,
                             oracles.executor(index, count), oracles.planner(index, count));
              && kind == run.kind
              && events == old(events) + Lines(run.log)
      ensures result.Valid()
      ensures result.rows == old(result.rows)[index := ReplayStep(codec, old(result.rows)[index], kind)]
      ensures result.columns == old(result.columns) + FieldsOf(kind).Keys + (if kind.Raised? then {} else {DECISION})
    {
      var current := index + 1;
      ghost var opening := Opening(maxRetries, current, count);
      LogOpening(current, count);
      var context := yin.State().BuildRowContext(row);
      var formulated := yin.State().FormulateYangTask(codec, context);
      if formulated.Failure? {
        LogFailing(current, count, formulated.error);
        Appended(old(events), opening, Failing(maxRetries, current, count, formulated.error));
        return Raised(formulated.error);
      }
      ghost var carried := Execute(yin.State(), codec, maxRetries, current, count, context, formulated.value,
                                   oracles.executor(index, count), oracles.planner(index, count));
      kind := ExecuteTask(result, index, count, context, formulated.value);
      Appended(old(events), opening, carried.log);
    }

    /** The attempt after its task is phrased, as `Execute` describes it. */
    method ExecuteTask(result: DataFrame, index: nat, count: nat, context: Context, task: Task) returns (kind: AttemptKind)
      requires result.Valid() && index < |result.rows|
      modifies this`events, result
      ensures var carried := Execute(yin.State(), codec, maxRetries, index + 1, count, context, task,
                                     oracles.executor(index, count), oracles.planner(index, count));
              && kind == carried.kind
              && events == old(events) + Lines(carried.log)
      ensures result.Valid()
      ensures result.rows == old(result.rows)[index := ReplayStep(codec, old(result.rows)[index], kind)]
      ensures result.columns == old(result.columns) + FieldsOf(kind).Keys + (if kind.Raised? then {} else {DECISION})
    {
      var output := Yang.ProcessTask(codec, oracles.executor(index, count), task);
      var verdict := yin.State().ValidateYangResponse(codec, output, context, oracles.planner(index, count));
      kind := Conclude(result, index, count, output, verdict);
    }

    /** The attempt's end once the executor's result and the verdict are
        in, as `Conclusion` describes it. */
    method Conclude(result: DataFrame, index: nat, count: nat, output: Value, verdict: (bool, string))
      returns (kind: AttemptKind)
      requires result.Valid() && index < |result.rows|
      modifies this`events, result
      ensures var carried := Conclusion(codec, maxRetries, index + 1, count, output, verdict);
              && kind == carried.kind
              && events == old(events) + Lines(carried.log)
      ensures result.Valid()
      ensures result.rows == old(result.rows)[index := ReplayStep(codec, old(result.rows)[index], kind)]
      ensures result.columns == old(result.columns) + FieldsOf(kind).Keys + (if kind.Raised? then {} else {DECISION})
    {
      var current := index + 1;
      LogAsking(output);
      ghost var asking := Asking(codec, output);
      if !output.Obj? {
        LogFailing(current, count, NoItems(output));
        Appended(old(events), asking, Failing(maxRetries, current, count, NoItems(output)));
        return Raised(NoItems(output));
      }
      MergeResult(result, index, output.fields);
      if verdict.0 {
        Log("yin", VALIDATION_OK + verdict.1);
        Appended(old(events), asking, [LogEntry("yin", VALIDATION_OK + verdict.1)]);
        result.SetCell(index, DECISION, "valid");
        kind := Accepted(output.fields);
      } else {
        LogRejecting(current, count, verdict.1);
        Appended(old(events), asking, Rejecting(maxRetries, current, count, verdict.1));
        result.SetCell(index, DECISION, "invalid");
        kind := Rejected(output.fields);
      }
    }

    /** The body of the row loop from `retry_count = 0` to the final
        status: the retry loop over attempts, then `error` or `invalid`
        when none succeeded. Row `index` ends as the reference row does. */
    method ProcessRow(result: DataFrame, index: nat, row: Row)
      requires result.Valid() && index < |result.rows| && result.rows[index] == InitialCells(row)
      modifies this`events, result
      ensures var r := RowResult(yin.State(), Environment(), index, row);
              && result.Valid()
              && result.rows == old(result.rows)[index := r.cells]
              && result.columns == old(result.columns) + r.cells.Keys
              && events == old(events) + Lines(r.log)
    {
      ghost var runs := Runs(yin.State(), Environment(), index, row);
      var success, hadError, st := RetryLoop(result, index, row, runs);
      FinishRow(result, index, success, hadError, st, old(result.rows), old(result.columns), old(events));
    }

    /** `while not success and retry_count < self.max_retries`: the
        attempts of row `index`, up to the reference loop's last state. */
    method RetryLoop(result: DataFrame, index: nat, row: Row, ghost runs: seq<AttemptRun>)
      returns (success: bool, hadError: bool, ghost st: RowState)
      requires runs == Runs(yin.State(), Environment(), index, row)
      requires result.Valid() && index < |result.rows| && result.rows[index] == InitialCells(row)
      modifies this`events, result
      ensures st == Loop(codec, maxRetries, runs, Start(row))
      ensures success == st.success && hadError == st.hadError && DECISION in st.cells
      ensures Mirrors(result, index, st, old(result.rows), old(result.columns), old(events))
    {
      st := Start(row);
      StartIsCoherent(codec, maxRetries, runs, row);
      assert old(result.rows)[index := st.cells] == old(result.rows);
      assert Lines(st.log) == [];
      var retryCount: nat := 0;
      success := false;
      hadError := false;
      while !success && retryCount < maxRetries
        invariant Coherent(codec, maxRetries, runs, row, st) && DECISION in st.cells
        invariant st.retryCount == retryCount && st.success == success && st.hadError == hadError
        invariant Loop(codec, maxRetries, runs, st) == Loop(codec, maxRetries, runs, Start(row))
        invariant Mirrors(result, index, st, old(result.rows), old(result.columns), old(events))
        decreases (if success then 0 else 1), maxRetries - retryCount
      {
        var kind;
        kind, st := Attempt(result, index, row, retryCount, runs, st, old(result.rows), old(result.columns), old(events));
        if kind.Accepted? {
          success := true;
          break;
        }
        retryCount := retryCount + 1;
        if kind.Raised? {
          hadError := true;
        }
      }
    }

    /** The processor's table and observer calls agree with a row state. */
    ghost predicate Mirrors(result: DataFrame, index: nat, st: RowState,
                            rows: seq<Row>, columns: set<string>, before: seq<Event>)
      reads this, result
    {
      result.Valid() && Agrees(result.rows, result.columns, events, index, st, rows, columns, before)
    }

    /** One attempt of the retry loop, from a state at its guard. */
    method Attempt(result: DataFrame, index: nat, row: Row, count: nat, ghost runs: seq<AttemptRun>, ghost st: RowState,
                   ghost rows: seq<Row>, ghost columns: set<string>, ghost before: seq<Event>)
      returns (kind: AttemptKind, ghost next: RowState)
      requires runs == Runs(yin.State(), Environment(), index, row)
      requires Coherent(codec, maxRetries, runs, row, st) && DECISION in st.cells
      requires !st.success && st.retryCount == count < maxRetries
      requires Mirrors(result, index, st, rows, columns, before)
      modifies this`events, result
      ensures kind == runs[st.retryCount].kind && next == Advance(codec, st, runs[st.retryCount])
      ensures Coherent(codec, maxRetries, runs, row, next) && DECISION in next.cells
      ensures Loop(codec, maxRetries, runs, next) == Loop(codec, maxRetries, runs, st)
      ensures Mirrors(result, index, next, rows, columns, before)
    {
      ghost var table, cols, evs := result.rows, result.columns, events;
      kind := RunAttempt(result, index, row, count);
      AgreesAfterAttempt(codec, table, cols, evs, index, st, runs[count], rows, columns, before);
      next := Advance(codec, st, runs[count]);
      AdvanceKeepsCoherent(codec, maxRetries, runs, row, st);
    }

    /** `if not success:` write the row's final status and log it. */
    method FinishRow(result: DataFrame, index: nat, success: bool, hadError: bool, ghost st: RowState,
                     ghost rows: seq<Row>, ghost columns: set<string>, ghost before: seq<Event>)
      requires st.success == success && st.hadError == hadError && DECISION in st.cells
      requires Mirrors(result, index, st, rows, columns, before)
      modifies this`events, result
      ensures Mirrors(result, index, Finish(maxRetries, index, st), rows, columns, before)
    {
      var current := index + 1;
      ghost var final := Finish(maxRetries, index, st);
      if !success {
        if hadError {
          result.SetCell(index, DECISION, "error");
          Log("system", "Row " + Num(current) + ERROR_STATUS);
        } else {
          result.SetCell(index, DECISION, "invalid");
          Log("system", "Row " + Num(current) + INVALID_STATUS + Num(maxRetries) + " attempts");
        }
        Overwritten(rows, index, st.cells, final.cells);
        Appended(before, st.log, FinalStatus(maxRetries, index, st));
      }
    }

    /** The calls before the first row: the opening lines and, when
        streaming, its line and the header under `columns`. */
    function Prologue(command: string, total: nat, columns: set<string>): seq<Event> {
      Lines([LogEntry("system", STARTING + Num(total) + " rows"),
             LogEntry("system", COMMAND + command),
             LogEntry("system", INITIALIZING)])
      + (if Streaming() then [Logged(LogEntry("system", STREAMING + outputFile.value)), Wrote(Header(columns))] else [])
    }

    /** `process_data`: copy the table with an empty `ai_decision` column,
        give the planner the command, then process every row in order,
        reporting progress before and streaming after each. The input
        table is not changed. */
    method ProcessData(df: DataFrame, command: string) returns (result: DataFrame, ghost outcomes: seq<RowState>)
      requires df.Valid()
      modifies this, yin
      ensures fresh(result) && result.Valid() && unchanged(df)
      ensures yin.userCommand == Some(command)
      ensures |outcomes| == |df.rows|
      ensures forall i :: 0 <= i < |df.rows| ==> outcomes[i] == RowResult(yin.State(), Environment(), i, df.rows[i])
      ensures |result.rows| == |df.rows| && forall i :: 0 <= i < |df.rows| ==> result.rows[i] == outcomes[i].cells
      ensures result.columns == ColumnsAfter(df.columns + {DECISION}, outcomes)
      ensures events == old(events) + Prologue(command, |df.rows|, df.columns + {DECISION})
                        + RowsEvents(df.columns + {DECISION}, outcomes, |df.rows|, Streaming())
                        + Lines([LogEntry("system", COMPLETE + Num(|df.rows|) + " rows.")])
      ensures Reports(events) == Reports(old(events)) + Progress(|df.rows|)
      ensures Writes(events) == Writes(old(events))
                                + if Streaming() then [Header(df.columns + {DECISION})]
                                                      + StreamedRows(df.columns + {DECISION}, outcomes)
                                  else []
    {
      result := Begin(df, command);
      outcomes := EnrichAll(result, df.rows, df.columns + {DECISION}, yin.State());
      ObservedRun(old(events), command, df.columns + {DECISION}, outcomes,
                  [LogEntry("system", COMPLETE + Num(|df.rows|) + " rows.")]);
    }

    /** The lines before the row loop: the copy with its `ai_decision`
        column, the opening log lines, the planner's command and, when
        streaming, the header. */
    method Begin(df: DataFrame, command: string) returns (result: DataFrame)
      requires df.Valid()
      modifies this`events, yin
      ensures fresh(result) && result.Valid() && unchanged(df)
      ensures yin.userCommand == Some(command)
      ensures |result.rows| == |df.rows| && forall k :: 0 <= k < |df.rows| ==> result.rows[k] == InitialCells(df.rows[k])
      ensures result.columns == df.columns + {DECISION}
      ensures events == old(events) + Prologue(command, |df.rows|, df.columns + {DECISION})
    {
      result := new DataFrame.Copy(df);
      result.SetColumn(DECISION, "");
      Log("system", STARTING + Num(|df.rows|) + " rows");
      Log("system", COMMAND + command);
      Log("system", INITIALIZING);
      yin.InitializeWithCommand(command);
      if Streaming() {
        Log("system", STREAMING + outputFile.value);
        Write(Header(result.columns));
      }
    }

    /** The row loop and the closing line, from a table whose rows hold
        their initial cells under the columns `start`. */
    method EnrichAll(result: DataFrame, rows: seq<Row>, ghost start: set<string>, ghost planner: YinState)
      returns (ghost outs: seq<RowState>)
      requires planner == yin.State() && result.Valid() && result.columns == start
      requires |result.rows| == |rows| && forall k :: 0 <= k < |rows| ==> result.rows[k] == InitialCells(rows[k])
      modifies this`events, result
      ensures result.Valid() && |outs| == |rows|
      ensures forall i :: 0 <= i < |rows| ==> outs[i] == RowResult(planner, Environment(), i, rows[i])
      ensures |result.rows| == |rows| && forall i :: 0 <= i < |rows| ==> result.rows[i] == outs[i].cells
      ensures result.columns == ColumnsAfter(start, outs)
      ensures events == old(events) + RowsEvents(start, outs, |rows|, Streaming())
                        + Lines([LogEntry("system", COMPLETE + Num(|rows|) + " rows.")])
    {
      outs := Outcomes(planner, Environment(), rows);
      EnrichRows(result, rows, start, planner, outs);
      Log("system", COMPLETE + Num(|rows|) + " rows.");
    }

    /** The row loop itself, producing the outcomes `outs`. */
    method EnrichRows(result: DataFrame, rows: seq<Row>, ghost start: set<string>, ghost planner: YinState,
                      ghost outs: seq<RowState>)
      requires planner == yin.State() && result.Valid() && Expected(planner, Environment(), rows, outs)
      requires Tabled(result.rows, result.columns, events, rows, [], start, events, Streaming())
      modifies this`events, result
      ensures result.Valid()
      ensures Tabled(result.rows, result.columns, events, rows, outs, start, old(events), Streaming())
    {
      for i := 0 to |rows|
        invariant result.Valid()
        invariant Tabled(result.rows, result.columns, events, rows, outs[..i], start, old(events), Streaming())
      {
        EnrichRow(result, rows, i, outs, start, old(events), planner);
      }
      assert outs[..|rows|] == outs;
    }

    /** One pass through the row loop: report progress, announce the row,
        process it into its outcome `outs[i]`, and stream it when
        streaming. */
    method EnrichRow(result: DataFrame, rows: seq<Row>, i: nat, ghost outs: seq<RowState>, ghost start: set<string>,
                     ghost opening: seq<Event>, ghost planner: YinState)
      requires planner == yin.State() && i < |rows| && result.Valid() && Expected(planner, Environment(), rows, outs)
      requires Tabled(result.rows, result.columns, events, rows, outs[..i], start, opening, Streaming())
      modifies this`events, result
      ensures result.Valid()
      ensures Tabled(result.rows, result.columns, events, rows, outs[..i + 1], start, opening, Streaming())
    {
      ghost var table, cols, evs := result.rows, result.columns, events;
      Announce(i + 1, |rows|);
      ProcessRow(result, i, rows[i]);
      StreamRow(result, i);
      assert outs[i] == RowResult(planner, Environment(), i, rows[i]);
      Grown(outs, i);
      TabledAfterRow(table, cols, evs, rows, outs[..i], outs[i], start, opening, Streaming(), events);
    }

    /** The calls that open row `current`'s pass: its progress report, then
        its announcement. */
    method Announce(current: nat, total: nat)
      modifies this`events
      ensures events == old(events) + [Reported(current), Logged(LogEntry("system", PROCESSING + Num(current) + "/" + Num(total)))]
    {
      UpdateProgress(current);
      Log("system", PROCESSING + Num(current) + "/" + Num(total));
    }

    /** When streaming, row `index` under the table's columns, then the log
        line saying it was written; nothing otherwise. */
    method StreamRow(result: DataFrame, index: nat)
      requires index < |result.rows|
      modifies this`events
      ensures events == old(events) + if Streaming()
                                      then [Wrote(Line(CsvLine(result.columns, result.rows[index]))),
                                            Logged(LogEntry("system", "Row " + Num(index + 1) + WRITTEN))]
                                      else []
    {
      if Streaming() {
        Write(Line(CsvLine(result.columns, result.rows[index])));
        Log("system", "Row " + Num(index + 1) + WRITTEN);
      }
    }

    /** Before the first row nothing is reported, and the header is the
        only write, when streaming. */
    lemma PrologueObserved(command: string, total: nat, columns: set<string>)
      ensures Reports(Prologue(command, total, columns)) == []
      ensures Writes(Prologue(command, total, columns)) == (if Streaming() then [Header(columns)] else [])
    {
      var lines := [LogEntry("system", STARTING + Num(total) + " rows"),
                    LogEntry("system", COMMAND + command),
                    LogEntry("system", INITIALIZING)];
      var tail := if Streaming() then [Logged(LogEntry("system", STREAMING + outputFile.value)), Wrote(Header(columns))]
                  else [];
      PrefacedObserved(lines, tail);
      if Streaming() {
        HeaderObserved(LogEntry("system", STREAMING + outputFile.value), Header(columns));
      } else {
        assert Reports(tail) == [] && Writes(tail) == [];
      }
    }

    /** The reports and writes of a whole run, after the calls `before`:
        progress `1 .. n`, one per row, and, when streaming, the header and
        then one line per row. */
    lemma {:induction false} ObservedRun(before: seq<Event>, command: string, start: set<string>, outs: seq<RowState>,
                      closing: seq<LogEntry>)
      ensures var all := before + Prologue(command, |outs|, start) + RowsEvents(start, outs, |outs|, Streaming())
                         + Lines(closing);
              && Reports(all) == Reports(before) + Progress(|outs|)
              && Writes(all) == Writes(before) + if Streaming() then [Header(start)] + StreamedRows(start, outs) else []
    {
      var prologue := Prologue(command, |outs|, start);
      var rowsEvents := RowsEvents(start, outs, |outs|, Streaming());
      PrologueObserved(command, |outs|, start);
      RowsObserved(start, outs, |outs|, Streaming());
      LinesAreQuiet(closing);
      if Streaming() {
        RunShape(before, prologue, rowsEvents, Lines(closing), Progress(|outs|), [Header(start)] + StreamedRows(start, outs));
      } else {
        RunShape(before, prologue, rowsEvents, Lines(closing), Progress(|outs|), []);
      }
    }
  }

  /** The columns of the result table once the rows with outcomes `outs`
      are processed: those it started with and every column those rows end
      with. */
  function ColumnsAfter(start: set<string>, outs: seq<RowState>): set<string> {
    if |outs| == 0 then start
    else ColumnsAfter(start, outs[..|outs| - 1]) + outs[|outs| - 1].cells.Keys
  }

  /** The observer calls for one row of a table of `total` rows: its
      progress report, its announcement, its attempts' and final status's
      lines, and, when streaming, its line under `columns` and the log line
      saying it was written. */
  function RowEvents(current: nat, total: nat, columns: set<string>, outcome: RowState, streaming: bool): seq<Event> {
    [Reported(current), Logged(LogEntry("system", PROCESSING + Num(current) + "/" + Num(total)))]
    + Lines(outcome.log)
    + (if streaming
       then [Wrote(Line(CsvLine(columns, outcome.cells))), Logged(LogEntry("system", "Row " + Num(current) + WRITTEN))]
       else [])
  }

  /** The observer calls for the rows with outcomes `outs`, each row's
      line under the columns the table has right after that row. */
  function RowsEvents(start: set<string>, outs: seq<RowState>, total: nat, streaming: bool): seq<Event> {
    if |outs| == 0 then []
    else RowsEvents(start, outs[..|outs| - 1], total, streaming)
         + RowEvents(|outs|, total, ColumnsAfter(start, outs), outs[|outs| - 1], streaming)
  }

  /** The lines streamed for the rows with outcomes `outs`: each row's
      final cells, under the columns the table has right after that row. */
  function StreamedRows(start: set<string>, outs: seq<RowState>): seq<Written> {
    if |outs| == 0 then []
    else StreamedRows(start, outs[..|outs| - 1]) + [Line(CsvLine(ColumnsAfter(start, outs), outs[|outs| - 1].cells))]
  }

  /** The table, its columns and the observer calls after the rows with
      outcomes `done`: those rows hold their final cells, the others their
      initial ones, and the columns and the calls are those of the rows
      done. */
  ghost predicate Tabled(table: seq<Row>, cols: set<string>, events: seq<Event>, rows: seq<Row>,
                         done: seq<RowState>, start: set<string>, opening: seq<Event>, streaming: bool)
  {
    && |table| == |rows| && |done| <= |rows|
    && (forall k :: 0 <= k < |done| ==> table[k] == done[k].cells)
    && (forall k :: |done| <= k < |rows| ==> table[k] == InitialCells(rows[k]))
    && cols == ColumnsAfter(start, done)
    && events == opening + RowsEvents(start, done, |rows|, streaming)
  }

  /** `outs` are the outcomes the planner and the environment give the rows. */
  ghost predicate Expected(planner: YinState, env: Env, rows: seq<Row>, outs: seq<RowState>) {
    && |outs| == |rows|
    && forall k :: 0 <= k < |rows| ==> outs[k] == RowResult(planner, env, k, rows[k])
  }

  /** The outcome of every row, in order. */
  ghost function Outcomes(planner: YinState, env: Env, rows: seq<Row>): (outs: seq<RowState>)
    ensures Expected(planner, env, rows, outs)
  {
    seq(|rows|, k requires 0 <= k < |rows| => RowResult(planner, env, k, rows[k]))
  }

  /** One more row, written and reported as the loop body does, keeps the
      table and the observer calls in step with the outcomes. */
  lemma TabledAfterRow(table: seq<Row>, cols: set<string>, events: seq<Event>, rows: seq<Row>,
                       done: seq<RowState>, outcome: RowState, start: set<string>, opening: seq<Event>,
                       streaming: bool, events': seq<Event>)
    requires |done| < |rows|
    requires Tabled(table, cols, events, rows, done, start, opening, streaming)
    requires var current := |done| + 1;
             events' == events + [Reported(current), Logged(LogEntry("system", PROCESSING + Num(current) + "/" + Num(|rows|)))]
                        + Lines(outcome.log)
                        + if streaming
                          then [Wrote(Line(CsvLine(cols + outcome.cells.Keys, outcome.cells))),
                                Logged(LogEntry("system", "Row " + Num(current) + WRITTEN))]
                          else []
    ensures Tabled(table[|done| := outcome.cells], cols + outcome.cells.Keys, events',
                   rows, done + [outcome], start, opening, streaming)
  {
    var current := |done| + 1;
    ColumnsGrow(start, done, outcome);
    TableGrows(table, rows, done, outcome);
    assert events' == opening + RowsEvents(start, done + [outcome], |rows|, streaming) by {
      EventsGrow(start, done, outcome, |rows|, streaming);
      var head := [Reported(current), Logged(LogEntry("system", PROCESSING + Num(current) + "/" + Num(|rows|)))];
      var tail := if streaming
                  then [Wrote(Line(CsvLine(cols + outcome.cells.Keys, outcome.cells))),
                        Logged(LogEntry("system", "Row " + Num(current) + WRITTEN))]
                  else [];
      Regrouped(events, head, Lines(outcome.log), tail);
      Concatenated(opening, RowsEvents(start, done, |rows|, streaming), head + Lines(outcome.log) + tail);
    }
  }

  /** Writing row `|done|`'s outcome moves it from the initial rows to the
      processed ones. */
  lemma TableGrows(table: seq<Row>, rows: seq<Row>, done: seq<RowState>, outcome: RowState)
    requires |table| == |rows| && |done| < |rows|
    requires forall k :: 0 <= k < |done| ==> table[k] == done[k].cells
    requires forall k :: |done| <= k < |rows| ==> table[k] == InitialCells(rows[k])
    ensures var table', done' := table[|done| := outcome.cells], done + [outcome];
            && (forall k :: 0 <= k < |done'| ==> table'[k] == done'[k].cells)
            && (forall k :: |done'| <= k < |rows| ==> table'[k] == InitialCells(rows[k]))
  {
  }

  /** The columns, the calls and the stream of one more row extend those of
      the rows before it. */
  lemma OneMoreRow(start: set<string>, done: seq<RowState>, outcome: RowState, total: nat, streaming: bool)
    ensures ColumnsAfter(start, done + [outcome]) == ColumnsAfter(start, done) + outcome.cells.Keys
    ensures RowsEvents(start, done + [outcome], total, streaming)
            == RowsEvents(start, done, total, streaming)
               + RowEvents(|done| + 1, total, ColumnsAfter(start, done + [outcome]), outcome, streaming)
    ensures StreamedRows(start, done + [outcome])
            == StreamedRows(start, done) + [Line(CsvLine(ColumnsAfter(start, done + [outcome]), outcome.cells))]
  {
    ColumnsGrow(start, done, outcome);
    EventsGrow(start, done, outcome, total, streaming);
    StreamGrow(start, done, outcome);
  }

  lemma ColumnsGrow(start: set<string>, done: seq<RowState>, outcome: RowState)
    ensures ColumnsAfter(start, done + [outcome]) == ColumnsAfter(start, done) + outcome.cells.Keys
  {
    assert (done + [outcome])[..|done|] == done;
  }

  lemma EventsGrow(start: set<string>, done: seq<RowState>, outcome: RowState, total: nat, streaming: bool)
    ensures RowsEvents(start, done + [outcome], total, streaming)
            == RowsEvents(start, done, total, streaming)
               + RowEvents(|done| + 1, total, ColumnsAfter(start, done + [outcome]), outcome, streaming)
  {
    assert (done + [outcome])[..|done|] == done;
  }

  lemma StreamGrow(start: set<string>, done: seq<RowState>, outcome: RowState)
    ensures StreamedRows(start, done + [outcome])
            == StreamedRows(start, done) + [Line(CsvLine(ColumnsAfter(start, done + [outcome]), outcome.cells))]
  {
    assert (done + [outcome])[..|done|] == done;
  }

  /** Over the rows, the progress reports are `1 .. n`, one per row, and
      the writes are the rows' streamed lines when streaming, none
      otherwise. */
  lemma {:induction false} RowsObserved(start: set<string>, outs: seq<RowState>, total: nat, streaming: bool)
    ensures Reports(RowsEvents(start, outs, total, streaming)) == Progress(|outs|)
    ensures Writes(RowsEvents(start, outs, total, streaming)) == (if streaming then StreamedRows(start, outs) else [])
    decreases |outs|
  {
    if |outs| > 0 {
      var n := |outs|;
      var prefix := outs[..n - 1];
      var columns := ColumnsAfter(start, outs);
      var entry := LogEntry("system", PROCESSING + Num(n) + "/" + Num(total));
      var written := LogEntry("system", "Row " + Num(n) + WRITTEN);
      var line := Line(CsvLine(columns, outs[n - 1].cells));
      var tail := if streaming then [Wrote(line), Logged(written)] else [];
      var before := RowsEvents(start, prefix, total, streaming);
      assert RowsEvents(start, outs, total, streaming) == before + RowEvents(n, total, columns, outs[n - 1], streaming);
      RowsObserved(start, prefix, total, streaming);
      ExtendObserved(before, n, entry, outs[n - 1].log, tail);
      if streaming {
        TailObserved(line, written);
        assert StreamedRows(start, outs) == StreamedRows(start, prefix) + [line];
      } else {
        assert Reports(tail) == [] && Writes(tail) == [];
      }
    }
  }

  /** One more row's calls add its report and what its tail holds. */
  lemma {:induction false} ExtendObserved(before: seq<Event>, current: int, entry: LogEntry, log: seq<LogEntry>,
                                          tail: seq<Event>)
    ensures Reports(before + ([Reported(current), Logged(entry)] + Lines(log) + tail))
            == Reports(before) + [current] + Reports(tail)
    ensures Writes(before + ([Reported(current), Logged(entry)] + Lines(log) + tail))
            == Writes(before) + Writes(tail)
  {
    RowObserved(current, entry, log, tail);
    ObservedAppend(before, [Reported(current), Logged(entry)] + Lines(log) + tail);
  }

  /** Log lines followed by other calls report and write what those
      calls do. */
  lemma {:induction false} PrefacedObserved(lines: seq<LogEntry>, tail: seq<Event>)
    ensures Reports(Lines(lines) + tail) == Reports(tail) && Writes(Lines(lines) + tail) == Writes(tail)
  {
    LinesAreQuiet(lines);
    ObservedAppend(Lines(lines), tail);
  }

  /** A log line and a header are one write. */
  lemma {:induction false} HeaderObserved(entry: LogEntry, w: Written)
    ensures Reports([Logged(entry), Wrote(w)]) == [] && Writes([Logged(entry), Wrote(w)]) == [w]
  {
    ObservedAppend([Logged(entry)], [Wrote(w)]);
    ObservedSingle(Logged(entry));
    ObservedSingle(Wrote(w));
    assert [Logged(entry)] + [Wrote(w)] == [Logged(entry), Wrote(w)];
  }

  /** One row's calls hold its progress report, then whatever its tail
      holds. */
  lemma {:induction false} RowObserved(current: int, entry: LogEntry, log: seq<LogEntry>, tail: seq<Event>)
    ensures Reports([Reported(current), Logged(entry)] + Lines(log) + tail) == [current] + Reports(tail)
    ensures Writes([Reported(current), Logged(entry)] + Lines(log) + tail) == Writes(tail)
  {
    assert [Reported(current)] + [Logged(entry)] == [Reported(current), Logged(entry)];
    ObservedInParts([Reported(current)], [Logged(entry)], Lines(log), tail);
    ObservedSingle(Reported(current));
    ObservedSingle(Logged(entry));
    LinesAreQuiet(log);
  }

  /** A streamed line and its log line are one write. */
  lemma {:induction false} TailObserved(w: Written, entry: LogEntry)
    ensures Reports([Wrote(w), Logged(entry)]) == [] && Writes([Wrote(w), Logged(entry)]) == [w]
  {
    ObservedAppend([Wrote(w)], [Logged(entry)]);
    ObservedSingle(Wrote(w));
    ObservedSingle(Logged(entry));
    assert [Wrote(w)] + [Logged(entry)] == [Wrote(w), Logged(entry)];
  }

  /** The calls of the first rows are a prefix of the calls of all rows. */
  lemma {:induction false} RowsEventsPrefix(start: set<string>, outs: seq<RowState>, j: nat, total: nat, streaming: bool)
    requires j <= |outs|
    ensures RowsEvents(start, outs[..j], total, streaming) <= RowsEvents(start, outs, total, streaming)
    decreases |outs| - j
  {
    if j < |outs| {
      RowsEventsPrefix(start, outs[..|outs| - 1], j, total, streaming);
      assert outs[..|outs| - 1][..j] == outs[..j];
    } else {
      assert outs[..j] == outs;
    }
  }

  /** Row `i`'s calls come in one stretch after those of the rows before
      it: first its progress report `i + 1`, then its announcement, then
      its attempts' and final status's lines, then, when streaming, its
      streamed line and the log line saying it was written. So a row's
      progress is reported before any of its attempts, and its line is
      streamed after all of them and before the next row starts. */
  lemma {:induction false} RowCallsInOrder(start: set<string>, outs: seq<RowState>, total: nat, streaming: bool, i: nat)
    requires i < |outs|
    ensures var all := RowsEvents(start, outs, total, streaming);
            var p := |RowsEvents(start, outs[..i], total, streaming)|;
            var n := |outs[i].log|;
            && p + 2 + n + (if streaming then 2 else 0) <= |all|
            && all[p] == Reported(i + 1)
            && all[p + 1] == Logged(LogEntry("system", PROCESSING + Num(i + 1) + "/" + Num(total)))
            && all[p + 2..p + 2 + n] == Lines(outs[i].log)
            && (streaming ==>
                  && all[p + 2 + n] == Wrote(Line(CsvLine(ColumnsAfter(start, outs[..i + 1]), outs[i].cells)))
                  && all[p + 3 + n] == Logged(LogEntry("system", "Row " + Num(i + 1) + WRITTEN)))
  {
    var entry := LogEntry("system", PROCESSING + Num(i + 1) + "/" + Num(total));
    var tail := if streaming
                then [Wrote(Line(CsvLine(ColumnsAfter(start, outs[..i + 1]), outs[i].cells))),
                      Logged(LogEntry("system", "Row " + Num(i + 1) + WRITTEN))]
                else [];
    var all, pre := RowsEvents(start, outs, total, streaming), RowsEvents(start, outs[..i], total, streaming);
    RowStretch(start, outs, total, streaming, i);
    assert RowEvents(i + 1, total, ColumnsAfter(start, outs[..i + 1]), outs[i], streaming)
           == [Reported(i + 1), Logged(entry)] + Lines(outs[i].log) + tail;
    StretchAt(all, pre, i + 1, entry, outs[i].log, tail);
    assert |tail| == if streaming then 2 else 0;
    if streaming {
      var q := |pre| + 2 + |outs[i].log|;
      assert all[q + 0] == tail[0] && all[q + 1] == tail[1];
    }
  }

  /** Row `i`'s calls follow those of the rows before it. */
  lemma {:induction false} RowStretch(start: set<string>, outs: seq<RowState>, total: nat, streaming: bool, i: nat)
    requires i < |outs|
    ensures RowsEvents(start, outs[..i], total, streaming)
            + RowEvents(i + 1, total, ColumnsAfter(start, outs[..i + 1]), outs[i], streaming)
            <= RowsEvents(start, outs, total, streaming)
  {
    RowsEventsPrefix(start, outs, i + 1, total, streaming);
    assert outs[..i] + [outs[i]] == outs[..i + 1];
    OneMoreRow(start, outs[..i], outs[i], total, streaming);
  }

  /** Where the calls of one row sit among all the calls. */
  lemma {:induction false} StretchAt(all: seq<Event>, pre: seq<Event>, current: int, entry: LogEntry,
                                     log: seq<LogEntry>, tail: seq<Event>)
    requires pre + ([Reported(current), Logged(entry)] + Lines(log) + tail) <= all
    ensures |pre| + 2 + |log| + |tail| <= |all|
    ensures all[|pre|] == Reported(current) && all[|pre| + 1] == Logged(entry)
    ensures all[|pre| + 2..|pre| + 2 + |log|] == Lines(log)
    ensures forall k :: 0 <= k < |tail| ==> all[|pre| + 2 + |log| + k] == tail[k]
  {
    var step := [Reported(current), Logged(entry)] + Lines(log) + tail;
    Located(all, pre, step);
    var p, n := |pre|, |log|;
    assert all[p] == step[0] && all[p + 1] == step[1];
    forall k | 0 <= k < n
      ensures all[p + 2 + k] == Logged(log[k])
    {
      assert all[p + (2 + k)] == step[2 + k];
    }
    forall k | 0 <= k < |tail|
      ensures all[p + 2 + n + k] == tail[k]
    {
      assert all[p + (2 + n + k)] == step[2 + n + k];
    }
  }

  /** A stretch of calls after `pre` at the head of `all` sits at index
      `|pre|` of it. */
  lemma {:induction false} Located(all: seq<Event>, pre: seq<Event>, step: seq<Event>)
    requires pre + step <= all
    ensures |pre| + |step| <= |all|
    ensures forall k :: 0 <= k < |step| ==> all[|pre| + k] == step[k]
  {
    forall k | 0 <= k < |step|
      ensures all[|pre| + k] == step[k]
    {
      assert (pre + step)[|pre| + k] == step[k];
    }
  }

  /** The result table has every column it started with and every column
      of every row's final cells. */
  lemma {:induction false} ColumnsCoverRows(start: set<string>, outs: seq<RowState>)
    ensures start <= ColumnsAfter(start, outs)
    ensures forall i :: 0 <= i < |outs| ==> outs[i].cells.Keys <= ColumnsAfter(start, outs)
  {
    if |outs| > 0 {
      var prefix := outs[..|outs| - 1];
      ColumnsCoverRows(start, prefix);
      assert forall i :: 0 <= i < |outs| - 1 ==> outs[i] == prefix[i];
    }
  }

  /** One streamed line per row, in row order: line `i` holds row `i`'s
      final cells under the columns the table had once row `i` was done. */
  lemma {:induction false} StreamedLineOfRow(start: set<string>, outs: seq<RowState>, i: nat)
    requires i < |outs|
    ensures |StreamedRows(start, outs)| == |outs|
    ensures StreamedRows(start, outs)[i] == Line(CsvLine(ColumnsAfter(start, outs[..i + 1]), outs[i].cells))
  {
    var prefix := outs[..|outs| - 1];
    if i < |outs| - 1 {
      StreamedLineOfRow(start, prefix, i);
      assert prefix[..i + 1] == outs[..i + 1];
    } else {
      assert outs[..i + 1] == outs;
      if i > 0 {
        StreamedLineOfRow(start, prefix, i - 1);
      }
    }
  }

  /** Every row of the result ends `valid`, `invalid` or `error`, as its
      attempts deserve: `valid` exactly when one was accepted. */
  lemma DecisionsClassified(planner: YinState, env: Env, rows: seq<Row>, outs: seq<RowState>)
    requires |outs| == |rows|
    requires forall i :: 0 <= i < |rows| ==> outs[i] == RowResult(planner, env, i, rows[i])
    ensures forall i :: 0 <= i < |outs| ==>
              && DECISION in outs[i].cells
              && outs[i].cells[DECISION] == Classify(outs[i].history)
              && outs[i].cells[DECISION] in {"valid", "invalid", "error"}
              && (outs[i].cells[DECISION] == "valid" <==>
                    exists k :: 0 <= k < |outs[i].history| && outs[i].history[k].Accepted?)
  {
    forall i | 0 <= i < |outs|
      ensures DECISION in outs[i].cells && outs[i].cells[DECISION] == Classify(outs[i].history)
    {
      DecisionIsClassification(env.codec, env.maxRetries, i, Runs(planner, env, i, rows[i]), rows[i]);
    }
  }

  /** The streamed line of row `i` carries the row's final cells, and its
      decision column is the row's classification. */
  lemma StreamedDecision(planner: YinState, env: Env, start: set<string>, rows: seq<Row>, outs: seq<RowState>, i: nat)
    requires |outs| == |rows| && i < |outs|
    requires forall k :: 0 <= k < |rows| ==> outs[k] == RowResult(planner, env, k, rows[k])
    ensures |StreamedRows(start, outs)| == |outs| && StreamedRows(start, outs)[i].Line?
    ensures var cells := StreamedRows(start, outs)[i].cells;
            && DECISION in cells && cells[DECISION] == Classify(outs[i].history)
            && forall c :: c in outs[i].cells ==> c in cells && cells[c] == outs[i].cells[c]
  {
    StreamedLineOfRow(start, outs, i);
    ColumnsCoverRows(start, outs[..i + 1]);
    assert outs[..i + 1][i] == outs[i];
    DecisionIsClassification(env.codec, env.maxRetries, i, Runs(planner, env, i, rows[i]), rows[i]);
  }
}
