/** The planner (Yin): it holds the user's command, builds a row's
    context, phrases the executor's task and judges the executor's result
    (`yin.py`). The judging capability is the `client` argument. */
module Yin {
  import opened Wrappers
  import opened Text
  import opened Json
  import opened Chat

  /** The executor's system message, word for word (with no space after
      "type."). Long texts are written in short pieces. */
  const YANG_SYSTEM_PROMPT :=
    "You are Yang, an AI "
    + "assistant specialized in "
    + "data enrichment. Your task "
    + "is to analyze data and "
    + "provide enrichment "
    + "attributes. You should "
    + "return ONLY a JSON object "
    + "with your enrichment "
    + "results. Each key in the "
    + "JSON object should be an "
    + "attribute, and each value "
    + "should be the enrichment "
    + "value in string data "
    + "type.Only include your "
    + "explanations and evidence "
    + "weblink in evidence field "
    + "when requested, to keep "
    + "other fields clean "

  /** The judge's system message. */
  const VALIDATION_SYSTEM_PROMPT :=
    "You are a validation "
    + "assistant. Your task is to "
    + "determine if the enrichment "
    + "data provided matches the "
    + "requirements and is likely "
    + "to be accurate. Respond "
    + "with your validation result "
    + "and reasoning."

  /** The verdicts of the structural check, and the word that accepts. */
  const NOT_AN_OBJECT :=
    "Response is not a valid "
    + "JSON object"
  const EMPTY_RESPONSE := "Response is empty"
  const ACCEPT_WORD := "WOOHOO"

  /** The fixed parts of the executor's and the judge's user prompts. */
  const TASK_HEAD :=
    "I need you to enrich the "
    + "following data row:\n\nDATA "
    + "ROW:\n"
  const TASK_LABEL := "\n\nENRICHMENT TASK:\n"
  const TASK_TAIL :=
    "\n\nReturn ONLY a JSON "
    + "object with the enriched "
    + "attributes as key-value "
    + "pairs. Include your "
    + "explanations and evidence "
    + "weblink in evidence field "
    + "when requested"
  const VALIDATION_HEAD :=
    "Please validate the "
    + "following enrichment "
    + "result:\n\nORIGINAL DATA "
    + "ROW:\n"
  const RESULT_LABEL := "\n\nENRICHMENT RESULT:\n"
  const VALIDATION_TAIL :=
    "\n\nIs this enrichment "
    + "result looks reasonable and "
    + "likely accurate with "
    + "mid-low level of "
    + "confidence? If yes, respond "
    + "with 'WOOHOO', if not, "
    + "respond with 'NAYNAY'. "
    + "followed by your reasoning."

  /** The planner's fixed texts: the two system messages and the fixed
      parts of the two user prompts. */
  datatype Prompts = Prompts(executorRole: string, judgeRole: string,
                             taskHead: string, taskLabel: string, taskTail: string,
                             validationHead: string, resultLabel: string, validationTail: string)

  /** The texts of `yin.py`. */
  const PROMPTS := Prompts(YANG_SYSTEM_PROMPT, VALIDATION_SYSTEM_PROMPT, TASK_HEAD, TASK_LABEL, TASK_TAIL,
                           VALIDATION_HEAD, RESULT_LABEL, VALIDATION_TAIL)

  /** The executor's user prompt around the row's JSON and the command. */
  function TaskPrompt(p: Prompts, rowJson: string, command: string): string {
    p.taskHead + rowJson + p.taskLabel + command + p.taskTail
  }

  /** The executor's prompt quotes the row's JSON and the command. */
  lemma TaskPromptQuotes(p: Prompts, rowJson: string, command: string)
    ensures Contains(TaskPrompt(p, rowJson, command), rowJson)
    ensures Contains(TaskPrompt(p, rowJson, command), command)
  {
    ContainsBothInfixes(p.taskHead, rowJson, p.taskLabel, command, p.taskTail);
  }

  /** The planner's user prompt around the row's JSON, the command and the
      executor's result. */
  function ValidationPrompt(p: Prompts, rowJson: string, command: string, resultJson: string): string {
    p.validationHead + rowJson + p.taskLabel + command + p.resultLabel + resultJson + p.validationTail
  }

  /** The judge's prompt quotes the row's JSON, the command and the
      executor's result. */
  lemma ValidationPromptQuotes(p: Prompts, rowJson: string, command: string, resultJson: string)
    ensures var v := ValidationPrompt(p, rowJson, command, resultJson);
            Contains(v, rowJson) && Contains(v, command) && Contains(v, resultJson)
  {
    ContainsEachInfix(p.validationHead, rowJson, p.taskLabel, command, p.resultLabel, resultJson, p.validationTail);
  }

  /** Each of the two filled-in parts of a template occurs in it. */
  lemma ContainsBothInfixes(a: string, x: string, b: string, y: string, c: string)
    ensures Contains(a + x + b + y + c, x) && Contains(a + x + b + y + c, y)
  {
    ContainsInfix(a, x, b + y + c);
    assert a + x + b + y + c == a + x + (b + y + c);
    ContainsInfix(a + x + b, y, c);
  }

  /** Each of the three filled-in parts of a template occurs in it. */
  lemma ContainsEachInfix(a: string, x: string, b: string, y: string, c: string, z: string, d: string)
    ensures var p := a + x + b + y + c + z + d;
            Contains(p, x) && Contains(p, y) && Contains(p, z)
  {
    var p := a + x + b + y + c + z + d;
    ContainsInfix(a, x, b + y + c + z + d);
    assert p == a + x + (b + y + c + z + d);
    ContainsInfix(a + x + b, y, c + z + d);
    assert p == a + x + b + y + (c + z + d);
    ContainsInfix(a + x + b + y + c, z, d);
  }

  /** The acceptance test on the judge's reply: `"WOOHOO"` anywhere in the
      upper-cased text. */
  predicate Accepts(reply: string) {
    Contains(Upper(reply), ACCEPT_WORD)
  }

  class YinAgent {
    const modelName: string
    /** The texts this planner writes into its messages. */
    const prompts: Prompts
    var userCommand: Option<string>

    /** A planner with no command yet. */
    constructor (modelName: string)
      ensures this.modelName == modelName && prompts == PROMPTS && userCommand == None
    {
      this.modelName := modelName;
      prompts := PROMPTS;
      userCommand := None;
    }

    /** `initialize_with_command`: record the command, nothing else. */
    method InitializeWithCommand(command: string)
      modifies this
      ensures userCommand == Some(command)
    {
      userCommand := Some(command);
    }

    /** The texts and the command the agent's answers read. */
    function State(): YinState
      reads this
    {
      YinState(prompts, userCommand)
    }
  }

  /** What the planner's answers depend on: its texts and the command it
      holds. */
  datatype YinState = YinState(prompts: Prompts, userCommand: Option<string>) {
    /** The command as an f-string renders it: `None` before one is set. */
    function CommandText(): (r: string)
      ensures userCommand.Some? ==> r == userCommand.value
      ensures userCommand.None? ==> r == "None"
    {
      match userCommand
      case Some(command) => command
      case None => "None"
    }

    /** `build_row_context`: the row passed through untouched. */
    function BuildRowContext(row: Row): (c: Context)
      ensures c.rowData == row
    {
      Context(row)
    }

    /** `formulate_yang_task`: a system message fixing the executor's role
        and a user message carrying the row's JSON and the command, with the
        context passed along. Serialising the row may raise; that exception
        leaves the method. */
    function FormulateYangTask(codec: Codec, context: Context): (r: Result<Task, string>)
      ensures codec.dumpsRow(context.rowData).Failure? ==>
                r == Failure(codec.dumpsRow(context.rowData).error)
      ensures codec.dumpsRow(context.rowData).Success? ==> r.Success? && r.value.context == context
    {
      match codec.dumpsRow(context.rowData)
      case Failure(error) => Failure(error)
      case Success(rowJson) =>
        Success(Task([Message("system", prompts.executorRole),
                      Message("user", TaskPrompt(prompts, rowJson, CommandText()))],
                     context))
    }

    /** The judge's messages for a result, when the structural checks pass
        and the row serialises; `None` when no judge is consulted. */
    function ValidationRequest(codec: Codec, response: Value, context: Context): (r: Option<seq<Message>>)
      ensures r.Some? <==> response.Obj? && response.fields != map[] && codec.dumpsRow(context.rowData).Success?
    {
      if !response.Obj? || response.fields == map[] then None
      else
        match codec.dumpsRow(context.rowData)
        case Failure(_) => None
        case Success(rowJson) =>
          Some([Message("system", prompts.judgeRole),
                Message("user", ValidationPrompt(prompts, rowJson, CommandText(), codec.dumps(response)))])
    }

    /** `validate_yang_response`: reject a non-object or empty result
        outright; otherwise ask the judge and accept exactly when its reply
        says `WOOHOO` in any letter case, returning the reply as the
        message. Every exception becomes a rejection. */
    function ValidateYangResponse(codec: Codec, response: Value, context: Context, client: Client): (r: (bool, string))
      ensures !response.Obj? ==> r == (false, NOT_AN_OBJECT)
      ensures response.Obj? && response.fields == map[] ==> r == (false, EMPTY_RESPONSE)
      ensures response.Obj? && response.fields != map[] && codec.dumpsRow(context.rowData).Failure? ==>
                r == (false, "Validation error: " + codec.dumpsRow(context.rowData).error)
      ensures ValidationRequest(codec, response, context).Some? ==>
                match client(ValidationRequest(codec, response, context).value)
                case Failed(error) => r == (false, "Validation error: " + error)
                case Content(reply) => r == (Accepts(reply), reply)
      ensures r.0 ==> ValidationRequest(codec, response, context).Some?
    {
      if !response.Obj? then (false, NOT_AN_OBJECT)
      else if response.fields == map[] then (false, EMPTY_RESPONSE)
      else
        match ValidationRequest(codec, response, context)
        case None => (false, "Validation error: " + codec.dumpsRow(context.rowData).error)
        case Some(messages) =>
          match client(messages)
          case Failed(error) => (false, "Validation error: " + error)
          case Content(reply) => (Accepts(reply), reply)
    }

    /** The executor's task is a system message fixing its role and a user
        message that quotes the row's JSON and the command. */
    lemma FormulatedTaskQuotesRowAndCommand(codec: Codec, context: Context)
      requires codec.dumpsRow(context.rowData).Success?
      ensures var task := FormulateYangTask(codec, context).value;
              && |task.messages| == 2
              && task.messages[0] == Message("system", prompts.executorRole)
              && task.messages[1].role == "user"
              && Contains(task.messages[1].content, codec.dumpsRow(context.rowData).value)
              && Contains(task.messages[1].content, CommandText())
    {
      TaskPromptQuotes(prompts, codec.dumpsRow(context.rowData).value, CommandText());
    }

    /** The judge is shown the row's JSON, the command and the executor's
        result. */
    lemma ValidationRequestQuotesResult(codec: Codec, response: Value, context: Context)
      requires ValidationRequest(codec, response, context).Some?
      ensures var messages := ValidationRequest(codec, response, context).value;
              && |messages| == 2
              && messages[0] == Message("system", prompts.judgeRole)
              && Contains(messages[1].content, codec.dumpsRow(context.rowData).value)
              && Contains(messages[1].content, CommandText())
              && Contains(messages[1].content, codec.dumps(response))
    {
      ValidationPromptQuotes(prompts, codec.dumpsRow(context.rowData).value, CommandText(), codec.dumps(response));
    }

    /** A result the structural check rejects is judged without the judge:
        any two judges give the same answer. */
    lemma ShortCircuitConsultsNoJudge(codec: Codec, response: Value, context: Context, c1: Client, c2: Client)
      requires !response.Obj? || response.fields == map[]
      ensures ValidateYangResponse(codec, response, context, c1) == ValidateYangResponse(codec, response, context, c2)
      ensures !ValidateYangResponse(codec, response, context, c1).0
    {
    }
  }

  /** The reply, read in upper case, has `WOOHOO` at position `i`. */
  ghost predicate WordAt(reply: string, i: int) {
    0 <= i <= |reply| - |ACCEPT_WORD| && Upper(reply[i..i + |ACCEPT_WORD|]) == ACCEPT_WORD
  }

  /** The acceptance test looks for `WOOHOO` in any letter case at any
      position of the reply. */
  lemma AcceptsIffWordAnywhere(reply: string)
    ensures Accepts(reply) <==> exists i :: WordAt(reply, i)
  {
    forall i | 0 <= i <= |reply| - |ACCEPT_WORD|
      ensures WordAt(reply, i) <==> OccursAt(Upper(reply), ACCEPT_WORD, i)
    {
      UpperSlice(reply, i, i + |ACCEPT_WORD|);
    }
  }

  /** A reply that opens with the rejecting word but says `woohoo` later
      is still an acceptance. */
  lemma NaynayDoesNotVeto(a: string, b: string)
    ensures Accepts("NAYNAY" + a + "woohoo" + b)
  {
    UpperConcat("NAYNAY" + a + "woohoo", b);
    UpperConcat("NAYNAY" + a, "woohoo");
    assert Upper("woohoo") == ACCEPT_WORD;
    ContainsInfix(Upper("NAYNAY" + a), ACCEPT_WORD, Upper(b));
  }
}
