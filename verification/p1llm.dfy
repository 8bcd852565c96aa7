/**
 * The P1 completion provider: the request body it posts, and the
 * translation of the P1 reply (status, a JSON document in `data` holding
 * `output.answer` and `tokens`) into the Ollama-style response the rest of
 * the framework reads.
 */
module P1Llm {
  import opened Wrappers

  /** A decoded JSON value, as Python's `json.loads` returns it. */
  datatype Json =
    | JNull
    | JBool(b: bool)
    | JInt(i: int)
    | JFloat(r: real)
    | JStr(s: string)
    | JArr(items: seq<Json>)
    | JObj(fields: map<string, Json>)

  datatype LlmError =
    | NotAnObject                                      // subscript or `.get` on a non-dictionary
    | MissingKey(key: string)                          // `d[key]` with `key` absent
    | NotAssistant                                     // the reply message's role is not "assistant"
    | CallFailed(status: Json, error: Json, message: Json)  // the P1 status is not 200
    | NotJson                                          // a body or `data` that does not decode
    | AnswerNotText                                    // `output.answer` is not a string

  /** Python's `d[key]`. */
  function Get(d: Json, key: string): (r: Result<Json, LlmError>)
    ensures r.Ok? <==> d.JObj? && key in d.fields
    ensures r.Ok? ==> r.value == d.fields[key]
  {
    if !d.JObj? then Err(NotAnObject)
    else if key in d.fields then Ok(d.fields[key])
    else Err(MissingKey(key))
  }

  /** Python's `d.get(key, default)`. */
  function GetOr(d: Json, key: string, default: Json): (r: Result<Json, LlmError>)
    ensures r.Ok? <==> d.JObj?
    ensures r.Ok? && key in d.fields ==> r.value == d.fields[key]
    ensures r.Ok? && key !in d.fields ==> r.value == default
  {
    if !d.JObj? then Err(NotAnObject)
    else if key in d.fields then Ok(d.fields[key])
    else Ok(default)
  }

  /** The sampling temperature every request carries. */
  const Temperature: real := 0.3

  /** `_const_kwargs`: the request body for `messages`. */
  function ConstKwargs(model: string, messages: Json, stream: bool): Json {
    JObj(map[
      "model" := JStr(model),
      "messages" := messages,
      "options" := JObj(map["temperature" := JFloat(Temperature)]),
      "stream" := JBool(stream)])
  }

  /** What a request body asks for, as the P1 service reads it. */
  datatype Request = Request(model: string, messages: Json, temperature: real, stream: bool)

  /** Reads a request body back; `None` for a body that lacks a field or has one of the wrong type. */
  function RequestOf(body: Json): Option<Request> {
    if !body.JObj? then None
    else if !("model" in body.fields && "messages" in body.fields && "options" in body.fields && "stream" in body.fields) then None
    else
      var model := body.fields["model"];
      var options := body.fields["options"];
      var stream := body.fields["stream"];
      if !(model.JStr? && options.JObj? && "temperature" in options.fields && stream.JBool?) then None
      else if !options.fields["temperature"].JFloat? then None
      else Some(Request(model.s, body.fields["messages"], options.fields["temperature"].r, stream.b))
  }

  /** The body carries the configured model, the messages unchanged, temperature 0.3 and the stream flag. */
  lemma RequestRoundTrip(model: string, messages: Json, stream: bool)
    ensures RequestOf(ConstKwargs(model, messages, stream)) == Some(Request(model, messages, Temperature, stream))
    ensures ConstKwargs(model, messages, stream).fields.Keys == {"model", "messages", "options", "stream"}
  {
  }

  /** `get_choice_text`: the content of an assistant message; an absent content reads as `None`. */
  function GetChoiceText(resp: Json): (r: Result<Json, LlmError>)
    ensures r.Ok? <==>
      && resp.JObj? && "message" in resp.fields
      && resp.fields["message"].JObj? && "role" in resp.fields["message"].fields
      && resp.fields["message"].fields["role"] == JStr("assistant")
    ensures r.Ok? ==> r.value == (if "content" in resp.fields["message"].fields
                                  then resp.fields["message"].fields["content"] else JNull)
  {
    var msg :- GetOr(resp, "message", JObj(map[]));
    var role :- GetOr(msg, "role", JNull);
    if role != JStr("assistant") then Err(NotAssistant)
    else GetOr(msg, "content", JNull)
  }

  /** Token usage of a response. */
  datatype Usage = Usage(promptTokens: Json, completionTokens: Json)

  /** `get_usage`: the evaluation counts, each 0 when absent. */
  function GetUsage(resp: Json): (r: Result<Usage, LlmError>)
    ensures r.Ok? <==> resp.JObj?
    ensures r.Ok? ==> (r.value.promptTokens ==
      if "prompt_eval_count" in resp.fields then resp.fields["prompt_eval_count"] else JInt(0))
    ensures r.Ok? ==> (r.value.completionTokens ==
      if "eval_count" in resp.fields then resp.fields["eval_count"] else JInt(0))
  {
    match resp
    case JObj(fields) =>
      var p := if "prompt_eval_count" in fields then fields["prompt_eval_count"] else JInt(0);
      var c := if "eval_count" in fields then fields["eval_count"] else JInt(0);
      Ok(Usage(p, c))
    case _ => Err(NotAnObject)
  }

  /** Python's `status != 200` is false only for the integer 200 and the float 200.0. */
  predicate IsOk(status: Json) {
    status == JInt(200) || status == JFloat(200.0)
  }

  /** The Ollama-style response built from the P1 answer and token counts. */
  function TransferResp(content: string, inputTokens: Json, outputTokens: Json): Json {
    JObj(map[
      "model" := JStr("p1 llm"),
      "message" := JObj(map["role" := JStr("assistant"), "content" := JStr(content)]),
      "done_reason" := JStr("stop"),
      "done" := JBool(true),
      "prompt_eval_count" := inputTokens,
      "eval_count" := outputTokens])
  }

  /** Decoding with `loads`, a body that does not decode being an error. */
  function Decode(text: string, loads: string -> Option<Json>): Result<Json, LlmError> {
    match loads(text)
    case Some(j) => Ok(j)
    case None => Err(NotJson)
  }

  /**
   * The reply a successful call returns: `body` decodes to an object whose
   * `status` is 200 and whose `data` is a string holding a JSON object, and
   * that object's `output.answer` is a string.
   */
  predicate Successful(body: string, loads: string -> Option<Json>) {
    && loads(body).Some? && loads(body).value.JObj?
    && var resp := loads(body).value.fields;
    && "status" in resp && IsOk(resp["status"])
    && "data" in resp && resp["data"].JStr?
    && loads(resp["data"].s).Some? && loads(resp["data"].s).value.JObj?
    && var data := loads(resp["data"].s).value.fields;
    && "output" in data && data["output"].JObj?
    && "answer" in data["output"].fields && data["output"].fields["answer"].JStr?
  }

  /** The decoded `data` document of a successful reply. */
  function ReplyData(body: string, loads: string -> Option<Json>): Json
    requires Successful(body, loads)
  {
    loads(loads(body).value.fields["data"].s).value
  }

  /** `output.answer` of a successful reply. */
  function ReplyAnswer(body: string, loads: string -> Option<Json>): string
    requires Successful(body, loads)
  {
    ReplyData(body, loads).fields["output"].fields["answer"].s
  }

  /**
   * The steps both paths share: decode the body, reject a status other than
   * 200 (reading `error` and `message` for the report), decode `data` and
   * read `output.answer`, which must be a string. Yields the answer and the
   * decoded `data` document.
   */
  function Answer(body: string, loads: string -> Option<Json>): (r: Result<(string, Json), LlmError>)
    ensures r.Ok? <==> Successful(body, loads)
    ensures r.Ok? ==> r.value == (ReplyAnswer(body, loads), ReplyData(body, loads))
    ensures loads(body).None? ==> r == Err(NotJson)
    ensures loads(body).Some? && Get(loads(body).value, "status").Err? ==> r == Err(Get(loads(body).value, "status").error)
    ensures loads(body).Some? && loads(body).value.JObj? ==>
      var resp := loads(body).value.fields;
      "status" in resp && !IsOk(resp["status"]) && "error" in resp && "message" in resp ==>
        r == Err(CallFailed(resp["status"], resp["error"], resp["message"]))
  {
    var resp :- Decode(body, loads);
    var status :- Get(resp, "status");
    if !IsOk(status) then
      var error :- Get(resp, "error");
      var message :- Get(resp, "message");
      Err(CallFailed(status, error, message))
    else
      var data :- Get(resp, "data");
      if !data.JStr? then Err(NotJson)
      else
        var respData :- Decode(data.s, loads);
        var output :- Get(respData, "output");
        var answer :- Get(output, "answer");
        if !answer.JStr? then Err(AnswerNotText)
        else Ok((answer.s, respData))
  }

  /** The `tokens` object of a decoded `data` document holds both counts. */
  predicate HasTokens(data: Json) {
    && data.JObj? && "tokens" in data.fields && data.fields["tokens"].JObj?
    && "input_tokens" in data.fields["tokens"].fields && "output_tokens" in data.fields["tokens"].fields
  }

  /** `_achat_completion` once the body is back: the normalised response. */
  function Normalize(body: string, loads: string -> Option<Json>): (r: Result<Json, LlmError>)
    ensures r.Ok? <==> Successful(body, loads) && HasTokens(ReplyData(body, loads))
    ensures r.Ok? ==> GetChoiceText(r.value) == Ok(JStr(ReplyAnswer(body, loads)))
    ensures r.Ok? ==>
      var tokens := ReplyData(body, loads).fields["tokens"];
      GetUsage(r.value) == Ok(Usage(tokens.fields["input_tokens"], tokens.fields["output_tokens"]))
    ensures Answer(body, loads).Err? ==> r == Err(Answer(body, loads).error)
  {
    var (content, respData) :- Answer(body, loads);
    var tokens :- Get(respData, "tokens");
    var inputTokens :- Get(tokens, "input_tokens");
    var outputTokens :- Get(tokens, "output_tokens");
    Ok(TransferResp(content, inputTokens, outputTokens))
  }

  /** `_achat_completion_stream` once the body is back: the answer text. */
  function StreamAnswer(body: string, loads: string -> Option<Json>): (r: Result<string, LlmError>)
    ensures r.Ok? <==> Successful(body, loads)
    ensures r.Ok? ==> r.value == ReplyAnswer(body, loads)
    ensures r.Err? ==> r == Err(Answer(body, loads).error)
  {
    var (content, _) :- Answer(body, loads);
    Ok(content)
  }

  /**
   * Whenever the plain path succeeds, the stream path succeeds with the text
   * of the plain path's choice; the plain path alone also needs the token
   * counts, and both fail alike before reaching them.
   */
  lemma PlainAndStreamAgree(body: string, loads: string -> Option<Json>)
    ensures Normalize(body, loads).Ok? ==>
      StreamAnswer(body, loads).Ok? && GetChoiceText(Normalize(body, loads).value) == Ok(JStr(StreamAnswer(body, loads).value))
    ensures StreamAnswer(body, loads).Err? ==> Normalize(body, loads) == Err(StreamAnswer(body, loads).error)
    ensures StreamAnswer(body, loads).Ok? ==>
      (Normalize(body, loads).Ok? <==> HasTokens(Answer(body, loads).value.1))
  {
  }

  /** `_achat_completion`: post the non-streaming body and normalise the reply. */
  function AChatCompletion(model: string, messages: Json, post: Json -> string, loads: string -> Option<Json>)
    : Result<Json, LlmError>
  {
    Normalize(post(ConstKwargs(model, messages, false)), loads)
  }

  /** `_achat_completion_stream`: post the same non-streaming body and return the answer text. */
  function AChatCompletionStream(model: string, messages: Json, post: Json -> string, loads: string -> Option<Json>)
    : Result<string, LlmError>
  {
    StreamAnswer(post(ConstKwargs(model, messages, false)), loads)
  }

  /** Both paths send a body asking for a non-streamed reply and agree on the answer. */
  lemma BothPathsPostTheSameBody(model: string, messages: Json, post: Json -> string, loads: string -> Option<Json>)
    ensures var body := post(ConstKwargs(model, messages, false));
      && RequestOf(ConstKwargs(model, messages, false)) == Some(Request(model, messages, Temperature, false))
      && AChatCompletion(model, messages, post, loads) == Normalize(body, loads)
      && AChatCompletionStream(model, messages, post, loads) == StreamAnswer(body, loads)
      && (AChatCompletion(model, messages, post, loads).Ok? ==>
            GetChoiceText(AChatCompletion(model, messages, post, loads).value)
              == Ok(JStr(AChatCompletionStream(model, messages, post, loads).value)))
  {
    RequestRoundTrip(model, messages, false);
    PlainAndStreamAgree(post(ConstKwargs(model, messages, false)), loads);
  }
}
