/** The executor (Yang): ask the completion capability for a JSON object and
    recover one from its reply, never raising (`yang.py`). The capability is
    the `client` argument; the web-search helper is not part of this model. */
module Yang {
  import opened Wrappers
  import opened Text
  import opened Json
  import opened Chat
  import Utils

  const GENERATION_FAILURE := "Failed to generate valid JSON response"

  /** The error marker `{"error": reason}` the executor returns in place of
      a result. */
  function ErrorMarker(reason: string): (r: Value)
    ensures r.Obj? && r.fields.Keys == {"error"} && r.fields["error"] == Str(reason)
    ensures Truthy(r)
  {
    Obj(map["error" := Str(reason)])
  }

  /** `_extract_json`: parse exactly the text from the first `{` to the last
      `}` inclusive, when both exist in that order; `None` when they do not
      or the slice does not parse. */
  function ExtractJson(codec: Codec, content: string): (r: Option<Value>)
    ensures '{' !in content || '}' !in content ==> r == None
    ensures forall i, j :: FirstOccurrence(content, '{', i) && LastOccurrence(content, '}', j) ==>
              r == (if i < j then codec.loads(content[i..j + 1]) else None)
  {
    match BraceSlice(content)
    case Some(slice) => codec.loads(slice)
    case None => None
  }

  /** `process_task`: one completion request with the task's messages, then
      the direct parse of the reply, else the extracted object when truthy,
      else the generation-failure marker; a raising request becomes the
      `Processing error` marker. */
  function ProcessTask(codec: Codec, client: Client, task: Task): (r: Value)
    ensures client(task.messages).Failed? ==>
              r == ErrorMarker("Processing error: " + client(task.messages).error)
    ensures client(task.messages).Content? && codec.loads(client(task.messages).text).Some? ==>
              r == codec.loads(client(task.messages).text).value
    ensures client(task.messages).Content? && codec.loads(client(task.messages).text).None? ==>
              Truthy(r)
  {
    match client(task.messages)
    case Failed(error) => ErrorMarker("Processing error: " + error)
    case Content(content) =>
      match codec.loads(content)
      case Some(result) => result
      case None =>
        var extracted := ExtractJson(codec, content);
        if extracted.Some? && Truthy(extracted.value) then extracted.value
        else ErrorMarker(GENERATION_FAILURE)
  }

  /** The fallback of `parse_json_safely` is `_extract_json`: the two
      functions run one algorithm. */
  lemma ParseJsonSafelyFallsBackToExtract(codec: Codec, s: string)
    ensures Utils.ParseJsonSafely(codec, s) ==
              if codec.loads(s).Some? then codec.loads(s) else ExtractJson(codec, s)
  {
  }

  /** A JSON object wrapped in brace-free prose is recovered exactly. */
  lemma ExtractEmbedded(codec: Codec, prefix: string, body: string, suffix: string)
    requires '{' !in prefix && '}' !in suffix
    ensures ExtractJson(codec, prefix + "{" + body + "}" + suffix) == codec.loads("{" + body + "}")
  {
    BraceSliceOfEmbedded(prefix, body, suffix);
  }

  /** A reply that is prose around a non-empty object, and does not parse
      as a whole, yields that object. */
  lemma ProcessTaskRecoversEmbedded(codec: Codec, client: Client, task: Task,
                                    prefix: string, body: string, suffix: string)
    requires '{' !in prefix && '}' !in suffix
    requires client(task.messages) == Content(prefix + "{" + body + "}" + suffix)
    requires codec.loads(prefix + "{" + body + "}" + suffix).None?
    requires codec.loads("{" + body + "}").Some? && codec.loads("{" + body + "}").value.Obj?
    requires codec.loads("{" + body + "}").value.fields != map[]
    ensures ProcessTask(codec, client, task) == codec.loads("{" + body + "}").value
  {
    ExtractEmbedded(codec, prefix, body, suffix);
  }

  /** `process_task` and `parse_json_safely` agree: the executor returns
      the safe parse, except that a falsy fallback, or none, becomes the
      generation-failure marker. */
  lemma ProcessTaskMatchesParseJsonSafely(codec: Codec, client: Client, task: Task)
    requires client(task.messages).Content?
    ensures var text := client(task.messages).text;
            var safe := Utils.ParseJsonSafely(codec, text);
            ProcessTask(codec, client, task) ==
              if safe.Some? && (codec.loads(text).Some? || Truthy(safe.value)) then safe.value
              else ErrorMarker(GENERATION_FAILURE)
  {
    ParseJsonSafelyFallsBackToExtract(codec, client(task.messages).text);
  }

  /** JSON texts that open with `{` decode to objects, as RFC 8259 grammar
      has it. */
  ghost predicate BracedTextsAreObjects(codec: Codec) {
    forall t :: |t| > 0 && t[0] == '{' && codec.loads(t).Some? ==> codec.loads(t).value.Obj?
  }

  /** Whenever the direct parse fails, the executor hands back a non-empty
      object: the reply's own recovered object, or an error marker. Such a
      result always passes the planner's structural check. */
  lemma FallbackIsNonEmptyObject(codec: Codec, client: Client, task: Task)
    requires BracedTextsAreObjects(codec)
    requires client(task.messages).Failed? || codec.loads(client(task.messages).text).None?
    ensures ProcessTask(codec, client, task).Obj?
    ensures ProcessTask(codec, client, task).fields != map[]
  {
    var r := ProcessTask(codec, client, task);
    if client(task.messages).Content? {
      var content := client(task.messages).text;
      match BraceSlice(content)
      case Some(slice) =>
        var i := Find(content, '{');
        var j := RFind(content, '}');
        assert FirstOccurrence(content, '{', i) && LastOccurrence(content, '}', j);
        assert slice == content[i..j + 1] && slice[0] == '{';
      case None =>
    }
  }
}
