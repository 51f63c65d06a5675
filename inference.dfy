/**
 * The inference client: the request payload it posts and how it turns the HTTP
 * response (status code, body text, and the outcome of decoding the body as JSON)
 * into a result. The POST itself, the endpoint and the bearer token are outside.
 */
module Inference {
  import opened Wrappers
  import opened PyJson
  import PyText
  import opened HttpStatus

  datatype Message = Message(role: string, content: string)

  /** The JSON body of the request: exactly these six members. */
  datatype Payload = Payload(
    model: string,
    messages: seq<Message>,
    temperature: real,
    maxTokens: int,
    topK: int,
    topP: real)

  function BuildPayload(
    messages: seq<Message>,
    model: string,
    temperature: real := 0.7,
    maxTokens: int := 600,
    topK: int := 40,
    topP: real := 0.9): Payload
  {
    Payload(model, messages, temperature, maxTokens, topK, topP)
  }

  /**
   * Every argument reaches the payload unchanged, and arguments left out take the
   * defaults 0.7, 600, 40 and 0.9.
   */
  lemma DefaultSamplingParameters(
    messages: seq<Message>, model: string,
    temperature: real, maxTokens: int, topK: int, topP: real)
    ensures var p := BuildPayload(messages, model, temperature, maxTokens, topK, topP);
      p.model == model && p.messages == messages &&
      p.temperature == temperature && p.maxTokens == maxTokens && p.topK == topK && p.topP == topP
    ensures var p := BuildPayload(messages, model);
      p.model == model && p.messages == messages &&
      p.temperature == 0.7 && p.maxTokens == 600 && p.topK == 40 && p.topP == 0.9
  {
  }

  /** What came back: the status, the raw text, the body decoded as JSON if it is JSON. */
  datatype HttpResponse = HttpResponse(
    statusCode: int,
    text: string,
    body: Option<Json>,
    elapsedSeconds: real)

  /** Python exceptions the response handling can raise instead of returning. */
  datatype PyException = IndexError | KeyError | TypeError | AttributeError

  datatype QueryResult =
    | Success(content: string, elapsedTime: real, responseTokens: nat)
    | Failure(error: string, statusCode: int)
    | Raised(exception: PyException)

  const NON_JSON_PREFIX := "Non-JSON response: "
  const ERROR_PREFIX := "Error: "
  /** The text used when the body has no `error` member. */
  const UNKNOWN_ERROR := "Unknown error occurred"

  /** `v[0]` on a decoded value. */
  function Subscript0(v: Json): (r: Result<Json, PyException>)
    ensures r.Ok? <==> (v.JArr? && v.items != []) || (v.JStr? && v.s != [])
    ensures v.JArr? && v.items != [] ==> r == Ok(v.items[0])
    ensures v.JStr? && v.s != [] ==> r == Ok(JStr([v.s[0]]))
    ensures r == Err(IndexError) <==> v == JArr([]) || v == JStr("")
  {
    match v
    case JArr(items) => if items == [] then Err(IndexError) else Ok(items[0])
    case JStr(s) => if s == [] then Err(IndexError) else Ok(JStr([s[0]]))
    case JObj(_) => Err(KeyError)
    case _ => Err(TypeError)
  }

  /**
   * `body.get('choices', [])[0].get('message', {}).get('content', '')`, then the
   * `.split()` that needs it to be a str.
   */
  function FirstChoiceContent(body: Json): Result<string, PyException> {
    if !body.JObj? then Err(AttributeError)
    else
      match Subscript0(GetOr(body.fields, "choices", JArr([])))
      case Err(e) => Err(e)
      case Ok(first) =>
        if !first.JObj? then Err(AttributeError)
        else
          var message := GetOr(first.fields, "message", JObj([]));
          if !message.JObj? then Err(AttributeError)
          else
            var content := GetOr(message.fields, "content", JStr(""));
            if content.JStr? then Ok(content.s) else Err(AttributeError)
  }

  /** The text after "Error: " for a non-200 JSON object body. */
  function ErrorDetail(fields: seq<Field>): string {
    match Get(fields, "error")
    case Some(v) => Str(v)
    case None => UNKNOWN_ERROR
  }

  /**
   * The result of a query once the response is in. Decoding is tried before the
   * status is looked at, so a body that is not JSON is an error result whatever the
   * status; a 200 JSON body gives the first choice's content and its word count; any
   * other status gives the body's `error` member, or a fallback, with the status.
   */
  function Classify(response: HttpResponse): (r: QueryResult)
    ensures response.body.None? ==>
      r == Failure(NON_JSON_PREFIX + response.text, response.statusCode)
    ensures r.Success? <==>
      response.statusCode == HTTP_200_OK && response.body.Some? &&
      FirstChoiceContent(response.body.value).Ok?
    ensures r.Success? ==>
      r.content == FirstChoiceContent(response.body.value).value &&
      r.elapsedTime == response.elapsedSeconds &&
      r.responseTokens == PyText.RunCount(r.content)
    ensures r.Success? ==> (r.responseTokens == 0 <==> PyText.AllSpace(r.content))
    ensures r.Failure? ==> r.statusCode == response.statusCode
    ensures response.statusCode != HTTP_200_OK && response.body.Some? && response.body.value.JObj? ==>
      r == Failure(ERROR_PREFIX + ErrorDetail(response.body.value.fields), response.statusCode)
    ensures r.Raised? <==>
      response.body.Some? &&
      (if response.statusCode == HTTP_200_OK then FirstChoiceContent(response.body.value).Err?
       else !response.body.value.JObj?)
  {
    match response.body
    case None => Failure(NON_JSON_PREFIX + response.text, response.statusCode)
    case Some(json) =>
      if response.statusCode == HTTP_200_OK then
        match FirstChoiceContent(json)
        case Ok(content) =>
          PyText.SplitCountsRuns(content);
          PyText.SplitEmptyIffBlank(content);
          Success(content, response.elapsedSeconds, |PyText.Split(content)|)
        case Err(e) => Raised(e)
      else if json.JObj? then
        Failure(ERROR_PREFIX + ErrorDetail(json.fields), response.statusCode)
      else Raised(AttributeError)
  }

  /** A non-200 JSON object without an `error` member gives the fallback text. */
  lemma UnknownErrorFallback(fields: seq<Field>, status: int, text: string, elapsed: real)
    requires status != HTTP_200_OK && Get(fields, "error").None?
    ensures Classify(HttpResponse(status, text, Some(JObj(fields)), elapsed))
      == Failure(ERROR_PREFIX + UNKNOWN_ERROR, status)
  {
    assert ErrorDetail(fields) == UNKNOWN_ERROR;
  }

  /** A non-200 JSON object whose `error` member is a string gives that string after "Error: ". */
  lemma ErrorMessagePassesThrough(fields: seq<Field>, message: string, status: int, text: string, elapsed: real)
    requires status != HTTP_200_OK && Get(fields, "error") == Some(JStr(message))
    ensures Classify(HttpResponse(status, text, Some(JObj(fields)), elapsed))
      == Failure(ERROR_PREFIX + message, status)
  {
    assert ErrorDetail(fields) == Str(JStr(message)) == message;
  }

  /** A 200 JSON object whose `choices` is missing or empty raises IndexError. */
  lemma MissingChoicesRaiseIndexError(fields: seq<Field>, text: string, elapsed: real)
    requires Get(fields, "choices").None? || Get(fields, "choices") == Some(JArr([]))
    ensures Classify(HttpResponse(HTTP_200_OK, text, Some(JObj(fields)), elapsed)) == Raised(IndexError)
  {
  }

  /**
   * The ordinary reply: the first choice is an object whose `message` is an object with
   * string `content`; the result is that content, the elapsed time and its word count.
   */
  lemma FirstChoiceContentReturned(
    fields: seq<Field>, first: seq<Field>, rest: seq<Json>, message: seq<Field>,
    content: string, text: string, elapsed: real)
    requires Get(fields, "choices") == Some(JArr([JObj(first)] + rest))
    requires Get(first, "message") == Some(JObj(message))
    requires Get(message, "content") == Some(JStr(content))
    ensures Classify(HttpResponse(HTTP_200_OK, text, Some(JObj(fields)), elapsed))
      == Success(content, elapsed, PyText.RunCount(content))
  {
    assert FirstChoiceContent(JObj(fields)) == Ok(content);
  }

  /**
   * A first choice without `message`, or whose message has no `content`, yields empty
   * content and zero tokens.
   */
  lemma AbsentContentIsEmpty(fields: seq<Field>, first: seq<Field>, text: string, elapsed: real)
    requires Get(fields, "choices").Some? && Get(fields, "choices").value.JArr?
    requires Get(fields, "choices").value.items != []
    requires Get(fields, "choices").value.items[0] == JObj(first)
    requires Get(first, "message").None? ||
      (Get(first, "message").Some? && Get(first, "message").value.JObj? &&
       Get(Get(first, "message").value.fields, "content").None?)
    ensures Classify(HttpResponse(HTTP_200_OK, text, Some(JObj(fields)), elapsed)) == Success("", elapsed, 0)
  {
  }
}
