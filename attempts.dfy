/** The per-row retry state machine of the processor, as values: one
    attempt (context, task, executor, judge, merge, verdict), the bounded
    retry loop, and the final `ai_decision` classification
    (`YinYangProcessor.process_data`, the body of its row loop). The
    processor's methods are proved to follow these functions. */
module Attempts {
  import opened Wrappers
  import opened Text
  import opened Json
  import opened Chat
  import Yang
  import opened Yin

  /** The column that records each row's verdict. */
  const DECISION := "ai_decision"

  /** The fixed parts of the lines a row logs. */
  const ANALYZING := "Analyzing row "
  const BUILDING := " and building context"
  const FORMULATING := "Formulating task for Yang"
  const GENERATED := "Generated enrichment data: "
  const VALIDATING := "Validating Yang's response"
  const VALIDATION_OK := "Validation successful: "
  const VALIDATION_FAILED := "Validation failed: "
  const ROW_ERROR := "Error processing row "
  const ALL_ERRORS := "All processing attempts failed with errors for row "
  const ALL_INVALID := "All validation attempts failed for row "
  const ERROR_STATUS := ": Final status 'error' - Processing exceptions prevented completion"
  const INVALID_STATUS := ": Final status 'invalid' - Validation criteria not met after "
  const NO_ITEMS := "' object has no attribute 'items'"

  /** One `log(message_type, content)` call. */
  datatype LogEntry = LogEntry(kind: string, content: string)

  /** The chat capabilities, per row index and attempt number (the value of
      `retry_count` when the attempt starts): the executor's and the judge's. */
  datatype Oracles = Oracles(executor: (nat, nat) -> Client, planner: (nat, nat) -> Client)

  /** What every row of a run shares: the JSON library, the capabilities
      and `max_retries`. */
  datatype Env = Env(codec: Codec, oracles: Oracles, maxRetries: int)

  /** How one attempt ended: the judge accepted or rejected the executor's
      object with these fields, or an exception with this text left the
      attempt. */
  datatype AttemptKind =
    | Accepted(fields: map<string, Value>)
    | Rejected(fields: map<string, Value>)
    | Raised(reason: string)

  /** The row's loop variables, its cells in the result table, the attempts
      so far and the log lines the row has emitted. */
  datatype RowState = RowState(
    cells: Row,
    retryCount: nat,
    success: bool,
    hadError: bool,
    history: seq<AttemptKind>,
    log: seq<LogEntry>)

  function Num(n: int): string {
    IntToString(n)
  }

  /** A row as the result table holds it before its attempts: the
      decision column added, empty. */
  function InitialCells(row: Row): (c: Row)
    ensures c.Keys == row.Keys + {DECISION} && c[DECISION] == ""
    ensures forall k :: k in row && k != DECISION ==> c[k] == row[k]
  {
    row[DECISION := ""]
  }

  function Start(row: Row): RowState {
    RowState(InitialCells(row), 0, false, false, [], [])
  }

  /** Each field of the executor's object as `str(value)`. */
  function Rendered(codec: Codec, fields: map<string, Value>): (r: Row)
    ensures r.Keys == fields.Keys
  {
    map k | k in fields :: PyStr(codec, fields[k])
  }

  /** The message of the `AttributeError` that `.items()` raises on a
      value that is not a dict. */
  function NoItems(v: Value): string {
    "'" + TypeName(v) + NO_ITEMS
  }

  /** The cells an attempt leaves, from the cells before it: the fields
      merged and the verdict written on acceptance or rejection; nothing on
      an exception. This is the reference the attempt is checked against. */
  function ReplayStep(codec: Codec, cells: Row, a: AttemptKind): Row {
    match a
    case Accepted(fields) => (cells + Rendered(codec, fields))[DECISION := "valid"]
    case Rejected(fields) => (cells + Rendered(codec, fields))[DECISION := "invalid"]
    case Raised(_) => cells
  }

  /** An attempt adds the columns of its fields, and the decision column
      unless it raised. */
  lemma ReplayStepKeys(codec: Codec, cells: Row, a: AttemptKind)
    ensures ReplayStep(codec, cells, a).Keys == cells.Keys + FieldsOf(a).Keys + (if a.Raised? then {} else {DECISION})
  {
  }

  /** The cells after a sequence of attempts. */
  function Replay(codec: Codec, cells: Row, history: seq<AttemptKind>): Row
    decreases |history|
  {
    if history == [] then cells
    else ReplayStep(codec, Replay(codec, cells, history[..|history| - 1]), history[|history| - 1])
  }

  /** The decision a row's attempts deserve: `valid` if one was accepted,
      else `error` if one raised, else `invalid`. */
  function Classify(history: seq<AttemptKind>): string {
    if exists k :: 0 <= k < |history| && history[k].Accepted? then "valid"
    else if exists k :: 0 <= k < |history| && history[k].Raised? then "error"
    else "invalid"
  }

  /** How one attempt ended and the log lines it emitted. */
  datatype AttemptRun = AttemptRun(kind: AttemptKind, log: seq<LogEntry>)

  /** The lines an attempt logs before the row's context is built. */
  function Opening(maxRetries: int, current: nat, count: nat): seq<LogEntry> {
    (if count > 0
     then [LogEntry("system", "Retry " + Num(count) + "/" + Num(maxRetries) + " for row " + Num(current))]
     else [])
    + [LogEntry("yin", ANALYZING + Num(current) + BUILDING),
       LogEntry("yin", FORMULATING)]
  }

  /** The lines an attempt logs between the executor's result and the
      judge's verdict. */
  function Asking(codec: Codec, result: Value): seq<LogEntry> {
    [LogEntry("yang", "Processing task"),
     LogEntry("yang", GENERATED + codec.dumps(result)),
     LogEntry("yin", VALIDATING)]
  }

  /** The lines the `except` branch logs; the attempt counted is `count`. */
  function Failing(maxRetries: int, current: nat, count: nat, reason: string): seq<LogEntry> {
    [LogEntry("error", ROW_ERROR + Num(current) + ": " + reason)]
    + (if count + 1 >= maxRetries
       then [LogEntry("error", ALL_ERRORS + Num(current))]
       else [])
  }

  /** The lines a rejection logs. */
  function Rejecting(maxRetries: int, current: nat, count: nat, message: string): seq<LogEntry> {
    [LogEntry("yin", VALIDATION_FAILED + message)]
    + (if count + 1 >= maxRetries
       then [LogEntry("yin", ALL_INVALID + Num(current))]
       else [])
  }

  /** One pass through the body of the retry loop for row `index`, as
      attempt number `count` with these executor and judge capabilities:
      build the context and phrase the task, which raises when the row does
      not serialise; otherwise carry the task out. */
  function Run(yin: YinState, codec: Codec, maxRetries: int, index: nat, row: Row, count: nat,
               executor: Client, planner: Client): AttemptRun
  {
    var current := index + 1;
    var context := yin.BuildRowContext(row);
    match yin.FormulateYangTask(codec, context)
    case Failure(error) =>
      AttemptRun(Raised(error), Opening(maxRetries, current, count) + Failing(maxRetries, current, count, error))
    case Success(task) =>
      var carried := Execute(yin, codec, maxRetries, current, count, context, task, executor, planner);
      AttemptRun(carried.kind, Opening(maxRetries, current, count) + carried.log)
  }

  /** The rest of an attempt once its task is phrased: run the executor,
      log its result, ask the judge, then conclude. */
  function Execute(yin: YinState, codec: Codec, maxRetries: int, current: nat, count: nat,
                   context: Context, task: Task, executor: Client, planner: Client): AttemptRun
  {
    var result := Yang.ProcessTask(codec, executor, task);
    Conclusion(codec, maxRetries, current, count, result, yin.ValidateYangResponse(codec, result, context, planner))
  }

  /** How an attempt ends once the executor's result and the judge's
      verdict are in: taking the result's items raises when it is not a
      dict; otherwise the verdict decides. */
  function Conclusion(codec: Codec, maxRetries: int, current: nat, count: nat, result: Value,
                      verdict: (bool, string)): AttemptRun
  {
    if !result.Obj? then
      AttemptRun(Raised(NoItems(result)), Asking(codec, result) + Failing(maxRetries, current, count, NoItems(result)))
    else if verdict.0 then
      AttemptRun(Accepted(result.fields), Asking(codec, result) + [LogEntry("yin", VALIDATION_OK + verdict.1)])
    else
      AttemptRun(Rejected(result.fields), Asking(codec, result) + Rejecting(maxRetries, current, count, verdict.1))
  }

  /** The number of attempts `max_retries` allows. */
  function Budget(maxRetries: int): nat {
    if maxRetries < 0 then 0 else maxRetries
  }

  /** The runs attempt numbers `0 .. max_retries - 1` of row `index` would
      have; an attempt only sees its own capabilities. */
  function Runs(yin: YinState, env: Env, index: nat, row: Row): (r: seq<AttemptRun>)
    ensures |r| == Budget(env.maxRetries)
    ensures forall c :: 0 <= c < |r| ==>
              r[c] == Run(yin, env.codec, env.maxRetries, index, row, c,
                          env.oracles.executor(index, c), env.oracles.planner(index, c))
  {
    seq(Budget(env.maxRetries), c requires 0 <= c =>
      Run(yin, env.codec, env.maxRetries, index, row, c, env.oracles.executor(index, c), env.oracles.planner(index, c)))
  }

  /** The loop variables after an attempt with this run: an acceptance
      sets `success` without counting, anything else counts, an exception
      sets `had_error`. */
  function Advance(codec: Codec, st: RowState, run: AttemptRun): RowState {
    var a := run.kind;
    RowState(ReplayStep(codec, st.cells, a),
             st.retryCount + (if a.Accepted? then 0 else 1),
             a.Accepted?,
             st.hadError || a.Raised?,
             st.history + [a],
             st.log + run.log)
  }

  /** `while not success and retry_count < max_retries`, attempt number
      `retry_count` having run `runs[retry_count]`. */
  function Loop(codec: Codec, maxRetries: int, runs: seq<AttemptRun>, st: RowState): (r: RowState)
    requires |runs| == Budget(maxRetries)
    ensures r.success || r.retryCount >= maxRetries
    ensures |st.history| <= |r.history| && r.history[..|st.history|] == st.history
    decreases (if st.success then 0 else 1), maxRetries - st.retryCount
  {
    if !st.success && st.retryCount < maxRetries then
      var next := Advance(codec, st, runs[st.retryCount]);
      var r := Loop(codec, maxRetries, runs, next);
      assert next.history[..|st.history|] == st.history;
      assert r.history[..|st.history|] == r.history[..|next.history|][..|st.history|];
      r
    else st
  }

  /** The `if not success` block after the loop: `error` when an attempt
      raised, else `invalid`, with its final-status line. */
  function Finish(maxRetries: int, index: nat, st: RowState): RowState {
    if st.success then st
    else st.(cells := st.cells[DECISION := if st.hadError then "error" else "invalid"],
             log := st.log + FinalStatus(maxRetries, index, st))
  }

  /** The final-status line of a row no attempt of which succeeded. */
  function FinalStatus(maxRetries: int, index: nat, st: RowState): seq<LogEntry> {
    var current := Num(index + 1);
    if st.success then []
    else if st.hadError then [LogEntry("system", "Row " + current + ERROR_STATUS)]
    else [LogEntry("system", "Row " + current + INVALID_STATUS + Num(maxRetries) + " attempts")]
  }

  /** A row's retry loop and final classification, for any runs. */
  function Outcome(codec: Codec, maxRetries: int, index: nat, runs: seq<AttemptRun>, row: Row): RowState
    requires |runs| == Budget(maxRetries)
  {
    Finish(maxRetries, index, Loop(codec, maxRetries, runs, Start(row)))
  }

  /** Everything the processor does for row `index` between its progress
      report and its streamed line. */
  function RowResult(yin: YinState, env: Env, index: nat, row: Row): RowState
  {
    Outcome(env.codec, env.maxRetries, index, Runs(yin, env, index, row), row)
  }

  /** The log lines of the first `n` runs, in order. */
  function Logs(runs: seq<AttemptRun>, n: nat): seq<LogEntry>
    requires n <= |runs|
  {
    if n == 0 then [] else Logs(runs, n - 1) + runs[n - 1].log
  }

  /** The loop variables agree with the attempts made so far: attempt `k`
      had run `runs[k]`, only the last can be an acceptance, and
      `had_error` says whether one raised. */
  ghost predicate Tracked(maxRetries: int, runs: seq<AttemptRun>, st: RowState) {
    var h := st.history;
    && |h| == st.retryCount + (if st.success then 1 else 0)
    && (if st.success then st.retryCount < maxRetries else st.retryCount <= Budget(maxRetries))
    && |h| <= |runs|
    && (forall k :: 0 <= k < |h| ==> h[k] == runs[k].kind)
    && (st.success <==> |h| > 0 && h[|h| - 1].Accepted?)
    && (forall k :: 0 <= k < |h| - 1 ==> !h[k].Accepted?)
    && (st.hadError <==> exists k :: 0 <= k < |h| && h[k].Raised?)
  }

  /** The row's cells and log are those its attempts produce. */
  ghost predicate Replayed(codec: Codec, runs: seq<AttemptRun>, row: Row, st: RowState) {
    && |st.history| <= |runs|
    && st.cells == Replay(codec, InitialCells(row), st.history)
    && st.log == Logs(runs, |st.history|)
  }

  /** What holds of the loop variables at every test of the loop guard. */
  ghost predicate Coherent(codec: Codec, maxRetries: int, runs: seq<AttemptRun>, row: Row, st: RowState) {
    Tracked(maxRetries, runs, st) && Replayed(codec, runs, row, st)
  }

  lemma ReplayAppend(codec: Codec, cells: Row, h: seq<AttemptKind>, a: AttemptKind)
    ensures Replay(codec, cells, h + [a]) == ReplayStep(codec, Replay(codec, cells, h), a)
  {
    assert (h + [a])[..|h|] == h;
  }

  /** The starting state is at the guard. */
  lemma StartIsCoherent(codec: Codec, maxRetries: int, runs: seq<AttemptRun>, row: Row)
    requires |runs| == Budget(maxRetries)
    ensures Coherent(codec, maxRetries, runs, row, Start(row))
  {
  }

  lemma AdvanceKeepsTracked(codec: Codec, maxRetries: int, runs: seq<AttemptRun>, st: RowState)
    requires |runs| == Budget(maxRetries)
    requires Tracked(maxRetries, runs, st) && !st.success && st.retryCount < maxRetries
    ensures Tracked(maxRetries, runs, Advance(codec, st, runs[st.retryCount]))
  {
    var a := runs[st.retryCount].kind;
    var r := Advance(codec, st, runs[st.retryCount]);
    assert r.history == st.history + [a];
    if a.Raised? {
      assert r.history[|st.history|].Raised?;
    }
  }

  lemma AdvanceKeepsReplayed(codec: Codec, maxRetries: int, runs: seq<AttemptRun>, row: Row, st: RowState)
    requires |runs| == Budget(maxRetries)
    requires |st.history| == st.retryCount < maxRetries
    requires Replayed(codec, runs, row, st)
    ensures Replayed(codec, runs, row, Advance(codec, st, runs[st.retryCount]))
  {
    var a := runs[st.retryCount].kind;
    ReplayAppend(codec, InitialCells(row), st.history, a);
  }

  /** One attempt from a state at the guard leads to another such state. */
  lemma AdvanceKeepsCoherent(codec: Codec, maxRetries: int, runs: seq<AttemptRun>, row: Row, st: RowState)
    requires |runs| == Budget(maxRetries)
    requires Coherent(codec, maxRetries, runs, row, st) && !st.success && st.retryCount < maxRetries
    ensures Coherent(codec, maxRetries, runs, row, Advance(codec, st, runs[st.retryCount]))
  {
    AdvanceKeepsTracked(codec, maxRetries, runs, st);
    AdvanceKeepsReplayed(codec, maxRetries, runs, row, st);
  }

  /** The retry loop keeps the guard invariant to its end. */
  lemma {:induction false} LoopKeepsCoherent(codec: Codec, maxRetries: int, runs: seq<AttemptRun>, row: Row, st: RowState)
    requires |runs| == Budget(maxRetries)
    requires Coherent(codec, maxRetries, runs, row, st)
    ensures Coherent(codec, maxRetries, runs, row, Loop(codec, maxRetries, runs, st))
    decreases (if st.success then 0 else 1), maxRetries - st.retryCount
  {
    if !st.success && st.retryCount < maxRetries {
      AdvanceKeepsCoherent(codec, maxRetries, runs, row, st);
      LoopKeepsCoherent(codec, maxRetries, runs, row, Advance(codec, st, runs[st.retryCount]));
    }
  }

  /** Attempt `k` of a row is attempt number `k`: the history is the runs'
      outcomes in order. At most `max_retries` attempts are made, and a row
      that never succeeds makes all of them. */
  lemma AttemptsBounded(codec: Codec, maxRetries: int, runs: seq<AttemptRun>, row: Row)
    requires |runs| == Budget(maxRetries)
    ensures var last := Loop(codec, maxRetries, runs, Start(row));
            && |last.history| <= Budget(maxRetries)
            && (forall k :: 0 <= k < |last.history| ==> last.history[k] == runs[k].kind)
            && (!last.success ==> |last.history| == Budget(maxRetries))
  {
    StartIsCoherent(codec, maxRetries, runs, row);
    LoopKeepsCoherent(codec, maxRetries, runs, row, Start(row));
  }

  /** An accepted attempt is the row's last: no attempt follows it, and the
      loop ends with `success` exactly when one was accepted. */
  lemma AcceptanceEndsRow(codec: Codec, maxRetries: int, runs: seq<AttemptRun>, row: Row)
    requires |runs| == Budget(maxRetries)
    ensures var last := Loop(codec, maxRetries, runs, Start(row));
            var h := last.history;
            && (forall k :: 0 <= k < |h| && h[k].Accepted? ==> k == |h| - 1)
            && (last.success <==> exists k :: 0 <= k < |h| && h[k].Accepted?)
  {
    StartIsCoherent(codec, maxRetries, runs, row);
    LoopKeepsCoherent(codec, maxRetries, runs, row, Start(row));
  }

  /** The replayed cells of an accepted history already say `valid`. */
  lemma AcceptedReplayIsValid(codec: Codec, cells: Row, h: seq<AttemptKind>)
    requires |h| > 0 && h[|h| - 1].Accepted?
    ensures var c := Replay(codec, cells, h);
            DECISION in c && c[DECISION := "valid"] == c
  {
  }

  /** The loop's cells and log are its attempts replayed, and their lines. */
  lemma LoopReplays(codec: Codec, maxRetries: int, runs: seq<AttemptRun>, row: Row)
    requires |runs| == Budget(maxRetries)
    ensures var last := Loop(codec, maxRetries, runs, Start(row));
            && |last.history| <= |runs|
            && last.cells == Replay(codec, InitialCells(row), last.history)
            && last.log == Logs(runs, |last.history|)
            && (last.success ==> |last.history| > 0 && last.history[|last.history| - 1].Accepted?)
            && (last.hadError <==> exists k :: 0 <= k < |last.history| && last.history[k].Raised?)
  {
    StartIsCoherent(codec, maxRetries, runs, row);
    LoopKeepsCoherent(codec, maxRetries, runs, row, Start(row));
  }

  /** The row's final cells are its attempts replayed on the initial cells,
      with the decision its attempts deserve in `ai_decision`; its log is
      the attempts' lines, then a final-status line unless one was
      accepted. */
  lemma OutcomeIsClassified(codec: Codec, maxRetries: int, index: nat, runs: seq<AttemptRun>, row: Row)
    requires |runs| == Budget(maxRetries)
    ensures var h := Loop(codec, maxRetries, runs, Start(row)).history;
            var r := Outcome(codec, maxRetries, index, runs, row);
            && r.history == h
            && r.cells == Replay(codec, InitialCells(row), h)[DECISION := Classify(h)]
            && |h| <= |runs|
            && |r.log| >= |Logs(runs, |h|)| && r.log[..|Logs(runs, |h|)|] == Logs(runs, |h|)
  {
    var last := Loop(codec, maxRetries, runs, Start(row));
    var h := last.history;
    LoopReplays(codec, maxRetries, runs, row);
    AcceptanceEndsRow(codec, maxRetries, runs, row);
    if last.success {
      AcceptedReplayIsValid(codec, InitialCells(row), h);
    }
  }

  /** The decision column of a row's outcome is its classification. */
  lemma DecisionIsClassification(codec: Codec, maxRetries: int, index: nat, runs: seq<AttemptRun>, row: Row)
    requires |runs| == Budget(maxRetries)
    ensures var r := Outcome(codec, maxRetries, index, runs, row);
            DECISION in r.cells && r.cells[DECISION] == Classify(r.history)
  {
    OutcomeIsClassified(codec, maxRetries, index, runs, row);
  }

  /** With `max_retries <= 0` no attempt is made: the row keeps its input
      cells and is `invalid`. */
  lemma ZeroBudgetIsInvalid(codec: Codec, maxRetries: int, index: nat, runs: seq<AttemptRun>, row: Row)
    requires maxRetries <= 0 && |runs| == Budget(maxRetries)
    ensures Outcome(codec, maxRetries, index, runs, row).history == []
    ensures Outcome(codec, maxRetries, index, runs, row).cells == row[DECISION := "invalid"]
  {
  }

  /** A row none of whose attempts is accepted makes every attempt, and is
      `error` exactly when one of them raised, however many clean
      rejections come after it; otherwise `invalid`. */
  lemma NeverAcceptedRow(codec: Codec, maxRetries: int, index: nat, runs: seq<AttemptRun>, row: Row)
    requires |runs| == Budget(maxRetries)
    requires forall k :: 0 <= k < |runs| ==> !runs[k].kind.Accepted?
    ensures var r := Outcome(codec, maxRetries, index, runs, row);
            && |r.history| == |runs|
            && DECISION in r.cells
            && r.cells[DECISION] == (if exists k :: 0 <= k < |runs| && runs[k].kind.Raised? then "error" else "invalid")
  {
    var h := Outcome(codec, maxRetries, index, runs, row).history;
    DecisionIsClassification(codec, maxRetries, index, runs, row);
    assert h == Loop(codec, maxRetries, runs, Start(row)).history;
    assert |h| == |runs| && forall k :: 0 <= k < |h| ==> h[k] == runs[k].kind by {
      AttemptsBounded(codec, maxRetries, runs, row);
      AcceptanceEndsRow(codec, maxRetries, runs, row);
    }
    ClassifyUnaccepted(h);
  }

  /** Without an acceptance, the classification is `error` exactly when an
      attempt raised. */
  lemma ClassifyUnaccepted(h: seq<AttemptKind>)
    requires forall k :: 0 <= k < |h| ==> !h[k].Accepted?
    ensures Classify(h) == (if exists k :: 0 <= k < |h| && h[k].Raised? then "error" else "invalid")
  {
  }

  /** The loop consults only the runs of the attempts it makes. */
  lemma {:induction false} LoopUsesOnlyItsAttempts(codec: Codec, maxRetries: int, runs: seq<AttemptRun>,
                                                   other: seq<AttemptRun>, st: RowState)
    requires |runs| == Budget(maxRetries) && |other| == |runs|
    requires forall k :: st.retryCount <= k < st.retryCount + |Loop(codec, maxRetries, runs, st).history| - |st.history| ==>
               k < |runs| ==> runs[k] == other[k]
    ensures Loop(codec, maxRetries, other, st) == Loop(codec, maxRetries, runs, st)
    decreases (if st.success then 0 else 1), maxRetries - st.retryCount
  {
    if !st.success && st.retryCount < maxRetries {
      var next := Advance(codec, st, runs[st.retryCount]);
      assert |Loop(codec, maxRetries, runs, st).history| >= |next.history|;
      assert other[st.retryCount] == runs[st.retryCount];
      LoopUsesOnlyItsAttempts(codec, maxRetries, runs, other, next);
    }
  }

  /** Of the fields an attempt merged, none for an exception. */
  function FieldsOf(a: AttemptKind): map<string, Value> {
    if a.Raised? then map[] else a.fields
  }

  /** Last write wins: a column other than `ai_decision` holds the value
      the latest attempt that returned it gave, as `str(value)`. */
  lemma {:induction false} ReplayLastWriter(codec: Codec, cells: Row, h: seq<AttemptKind>, key: string, j: nat)
    requires key != DECISION && j < |h| && key in FieldsOf(h[j])
    requires forall l :: j < l < |h| ==> key !in FieldsOf(h[l])
    ensures key in Replay(codec, cells, h)
    ensures Replay(codec, cells, h)[key] == PyStr(codec, FieldsOf(h[j])[key])
    decreases |h|
  {
    var prefix := h[..|h| - 1];
    if j < |h| - 1 {
      assert forall l :: j < l < |prefix| ==> prefix[l] == h[l];
      ReplayLastWriter(codec, cells, prefix, key, j);
    }
  }

  /** A column no attempt returned keeps its input cell, or stays absent. */
  lemma {:induction false} ReplayUntouched(codec: Codec, cells: Row, h: seq<AttemptKind>, key: string)
    requires key != DECISION
    requires forall l :: 0 <= l < |h| ==> key !in FieldsOf(h[l])
    ensures key in Replay(codec, cells, h) <==> key in cells
    ensures key in cells ==> Replay(codec, cells, h)[key] == cells[key]
    decreases |h|
  {
    if h != [] {
      var prefix := h[..|h| - 1];
      assert forall l :: 0 <= l < |prefix| ==> prefix[l] == h[l];
      ReplayUntouched(codec, cells, prefix, key);
    }
  }

  /** An attempt that cannot serialise its row raises with the
      serialiser's message, before any capability is asked. */
  lemma UnserialisableRowRaises(yin: YinState, codec: Codec, maxRetries: int, index: nat, row: Row, count: nat,
                                executor: Client, planner: Client)
    requires codec.dumpsRow(row).Failure?
    ensures Run(yin, codec, maxRetries, index, row, count, executor, planner).kind == Raised(codec.dumpsRow(row).error)
  {
  }

  /** An executor result that is not a dict makes the attempt raise when
      its items are taken, after validation. */
  lemma NonObjectResultRaises(yin: YinState, codec: Codec, maxRetries: int, index: nat, row: Row, count: nat,
                              executor: Client, planner: Client, reply: string, v: Value)
    requires codec.dumpsRow(row).Success?
    requires forall m :: executor(m) == Content(reply)
    requires codec.loads(reply) == Some(v) && !v.Obj?
    ensures Run(yin, codec, maxRetries, index, row, count, executor, planner).kind == Raised(NoItems(v))
  {
  }

  /** An empty object from the executor is rejected without a judge and
      merges nothing. */
  lemma EmptyResultIsRejected(yin: YinState, codec: Codec, maxRetries: int, index: nat, row: Row, count: nat,
                              executor: Client, planner: Client, reply: string)
    requires codec.dumpsRow(row).Success?
    requires forall m :: executor(m) == Content(reply)
    requires codec.loads(reply) == Some(Obj(map[]))
    ensures Run(yin, codec, maxRetries, index, row, count, executor, planner).kind == Rejected(map[])
  {
  }

  /** A row whose executor returns an empty object on every attempt makes
      every attempt and ends `invalid`: never `valid`, never `error`. */
  lemma EmptyResultsMakeInvalidRow(yin: YinState, env: Env, index: nat, row: Row, reply: string)
    requires env.codec.dumpsRow(row).Success?
    requires forall c: nat, m :: env.oracles.executor(index, c)(m) == Content(reply)
    requires env.codec.loads(reply) == Some(Obj(map[]))
    ensures var r := RowResult(yin, env, index, row);
            && |r.history| == Budget(env.maxRetries)
            && DECISION in r.cells && r.cells[DECISION] == "invalid"
  {
    var runs := Runs(yin, env, index, row);
    forall k | 0 <= k < |runs|
      ensures runs[k].kind == Rejected(map[])
    {
      EmptyResultIsRejected(yin, env.codec, env.maxRetries, index, row, k,
                            env.oracles.executor(index, k), env.oracles.planner(index, k), reply);
    }
    NeverAcceptedRow(env.codec, env.maxRetries, index, runs, row);
  }

  /** With a serialisable row, an attempt judges and merges whatever
      object the executor returns. */
  lemma ObjectResultIsJudged(yin: YinState, codec: Codec, maxRetries: int, index: nat, row: Row, count: nat,
                             executor: Client, planner: Client, result: Value)
    requires codec.dumpsRow(row).Success?
    requires result == Yang.ProcessTask(codec, executor, yin.FormulateYangTask(codec, yin.BuildRowContext(row)).value)
    requires result.Obj?
    ensures Run(yin, codec, maxRetries, index, row, count, executor, planner).kind
              in {Accepted(result.fields), Rejected(result.fields)}
  {
  }

  /** A failing executor request does not raise: the executor's error
      marker is judged and merged like any result, as an `error` field. */
  lemma TransportFailureIsNotAnError(yin: YinState, codec: Codec, maxRetries: int, index: nat, row: Row, count: nat,
                                     executor: Client, planner: Client, e: string)
    requires codec.dumpsRow(row).Success?
    requires forall m :: executor(m) == Failed(e)
    ensures var a := Run(yin, codec, maxRetries, index, row, count, executor, planner).kind;
            && !a.Raised?
            && a.fields == map["error" := Str("Processing error: " + e)]
  {
    var task := yin.FormulateYangTask(codec, yin.BuildRowContext(row)).value;
    assert executor(task.messages) == Failed(e);
    var result := Yang.ProcessTask(codec, executor, task);
    assert result == Yang.ErrorMarker("Processing error: " + e);
    ObjectResultIsJudged(yin, codec, maxRetries, index, row, count, executor, planner, result);
  }

  /** A row none of whose attempts raises is never `error`. */
  lemma NoRaiseNoError(codec: Codec, maxRetries: int, index: nat, runs: seq<AttemptRun>, row: Row)
    requires |runs| == Budget(maxRetries)
    requires forall k :: 0 <= k < |runs| ==> !runs[k].kind.Raised?
    ensures var r := Outcome(codec, maxRetries, index, runs, row);
            DECISION in r.cells && r.cells[DECISION] != "error"
  {
    var h := Loop(codec, maxRetries, runs, Start(row)).history;
    assert forall k :: 0 <= k < |h| ==> !h[k].Raised? by {
      AttemptsBounded(codec, maxRetries, runs, row);
    }
    DecisionIsClassification(codec, maxRetries, index, runs, row);
  }

  /** A row all of whose attempts return the same object, accepted or
      not, carries that object's fields. */
  lemma SameObjectEveryAttempt(codec: Codec, maxRetries: int, index: nat, runs: seq<AttemptRun>, row: Row,
                               fields: map<string, Value>, key: string)
    requires |runs| == Budget(maxRetries) && maxRetries > 0
    requires forall k :: 0 <= k < |runs| ==> runs[k].kind in {Accepted(fields), Rejected(fields)}
    requires key in fields && key != DECISION
    ensures var r := Outcome(codec, maxRetries, index, runs, row);
            key in r.cells && r.cells[key] == PyStr(codec, fields[key])
  {
    var h := Outcome(codec, maxRetries, index, runs, row).history;
    assert |h| > 0 && h[|h| - 1] in {Accepted(fields), Rejected(fields)} by {
      OutcomeIsClassified(codec, maxRetries, index, runs, row);
      AttemptsBounded(codec, maxRetries, runs, row);
      LoopReplays(codec, maxRetries, runs, row);
    }
    OutcomeCell(codec, maxRetries, index, runs, row, key);
    ReplayLastWriter(codec, InitialCells(row), h, key, |h| - 1);
  }

  /** A column other than `ai_decision` of a row's outcome is that of its
      replayed attempts. */
  lemma OutcomeCell(codec: Codec, maxRetries: int, index: nat, runs: seq<AttemptRun>, row: Row, key: string)
    requires |runs| == Budget(maxRetries) && key != DECISION
    ensures var r := Outcome(codec, maxRetries, index, runs, row);
            var c := Replay(codec, InitialCells(row), r.history);
            && (key in r.cells <==> key in c)
            && (key in c ==> r.cells[key] == c[key])
  {
    OutcomeIsClassified(codec, maxRetries, index, runs, row);
  }

  /** While the executor's service is down, a row is never `error`: each
      attempt merges the executor's marker, so the row ends `valid` or
      `invalid` with the marker's text in its `error` column. */
  lemma TransportFailuresNeverMakeAnErrorRow(yin: YinState, env: Env, index: nat, row: Row, e: string)
    requires env.codec.dumpsRow(row).Success?
    requires forall c: nat, m :: env.oracles.executor(index, c)(m) == Failed(e)
    ensures var r := RowResult(yin, env, index, row);
            && DECISION in r.cells && r.cells[DECISION] != "error"
            && (env.maxRetries > 0 ==> "error" in r.cells && r.cells["error"] == "Processing error: " + e)
  {
    var fields := map["error" := Str("Processing error: " + e)];
    var runs := Runs(yin, env, index, row);
    TransportRunsMerge(yin, env, index, row, e);
    NoRaiseNoError(env.codec, env.maxRetries, index, runs, row);
    if env.maxRetries > 0 {
      SameObjectEveryAttempt(env.codec, env.maxRetries, index, runs, row, fields, "error");
    }
  }

  lemma TransportRunsMerge(yin: YinState, env: Env, index: nat, row: Row, e: string)
    requires env.codec.dumpsRow(row).Success?
    requires forall c: nat, m :: env.oracles.executor(index, c)(m) == Failed(e)
    ensures var fields := map["error" := Str("Processing error: " + e)];
            var runs := Runs(yin, env, index, row);
            forall k :: 0 <= k < |runs| ==> runs[k].kind in {Accepted(fields), Rejected(fields)}
  {
    var runs := Runs(yin, env, index, row);
    forall k | 0 <= k < |runs|
      ensures runs[k].kind in {Accepted(map["error" := Str("Processing error: " + e)]),
                               Rejected(map["error" := Str("Processing error: " + e)])}
    {
      TransportFailureIsNotAnError(yin, env.codec, env.maxRetries, index, row, k,
                                   env.oracles.executor(index, k), env.oracles.planner(index, k), e);
    }
  }

  /** A row's outcome does not depend on the capabilities of attempts it
      never makes: after an acceptance, or beyond its budget, nothing more
      is asked. */
  lemma RowIgnoresUnusedOracles(yin: YinState, env: Env, other: Oracles, index: nat, row: Row)
    requires forall c :: 0 <= c < |RowResult(yin, env, index, row).history| ==>
               other.executor(index, c) == env.oracles.executor(index, c)
               && other.planner(index, c) == env.oracles.planner(index, c)
    ensures RowResult(yin, env.(oracles := other), index, row) == RowResult(yin, env, index, row)
  {
    var runs := Runs(yin, env, index, row);
    var runs2 := Runs(yin, env.(oracles := other), index, row);
    var h := Loop(env.codec, env.maxRetries, runs, Start(row)).history;
    assert RowResult(yin, env, index, row).history == h;
    LoopUsesOnlyItsAttempts(env.codec, env.maxRetries, runs, runs2, Start(row));
  }
}
