/** POST /api/generate-questions: checks `position` and `type`, asks the
    completion API for five questions and returns whatever array the reply
    content parses to. There is no credential check: the key, set or not,
    only goes into a request header. */
module GenerateQuestions {
  import opened JsValue
  import opened Gateway

  const MissingFieldsError := "Position and type are required"
  const UpstreamErrorPrefix := "OpenRouter API error: "
  const ContentError := "Invalid response received from OpenRouter"
  const ParseError := "Failed to parsing questions from response"

  /** The message of the inner throw, which the inner catch replaces. */
  const NotArrayError := "Response is not an array"

  // ---------------------------------------------------------------------
  // Request side

  /** The prompt asks for five questions for the position and ends with the
      request for a bare JSON array. */
  function Prompt(position: Json, kind: Json): (r: string)
    ensures var head := "Generate 5 interview questions for a " + ToText(position); |head| <= |r| && r[..|head|] == head
    ensures var tail := ". Return only a JSON array of questions, no other text."; |tail| <= |r| && r[|r| - |tail|..] == tail
  {
    "Generate 5 interview questions for a " + ToText(position) + " position. Interview type: " + ToText(kind)
    + ". Return only a JSON array of questions, no other text."
  }

  /** The one check before the fetch: both fields truthy. */
  function Validate(position: Option<Json>, kind: Option<Json>): (r: Stage)
    ensures r.Reject? <==> !(Truthy(position) && Truthy(kind))
    ensures r.Reject? ==> r.response == Failure(400, MissingFieldsError)
    ensures r.Send? ==> r.prompt == Prompt(position.value, kind.value)
  {
    if !Truthy(position) || !Truthy(kind) then Reject(Failure(400, MissingFieldsError))
    else Send(Prompt(position.value, kind.value))
  }

  /** `const { position, type } = await request.json()`, then the check. */
  function Prepare(request: Option<Json>): (r: Stage)
    ensures request.None? ==> r == Reject(Crash(RequestNotJson))
    ensures request == Some(JNull) ==> r == Reject(Crash(DestructureNullish))
    ensures Destructurable(request) ==> r == Validate(Field(request, "position"), Field(request, "type"))
  {
    match request
    case None => Reject(Crash(RequestNotJson))
    case Some(body) =>
      if body == JNull then Reject(Crash(DestructureNullish))
      else Validate(Get(body, "position"), Get(body, "type"))
  }

  /** The prompt always asks for exactly five questions and names the
      position and the interview type. */
  lemma PromptAsksForFive(request: Option<Json>)
    requires Prepare(request).Send?
    ensures Destructurable(request)
    ensures Prepare(request).prompt[..10] == "Generate 5"
    ensures Prepare(request).prompt
         == "Generate 5 interview questions for a " + ToText(Field(request, "position").value)
            + " position. Interview type: " + ToText(Field(request, "type").value)
            + ". Return only a JSON array of questions, no other text."
  {
  }

  // ---------------------------------------------------------------------
  // Reply side

  /** From the reply data on: the content check, then JSON.parse of the
      content and the array test, whose failures share one message. */
  function FromData(data: Json, parse: string -> Option<Json>): (r: Response)
    ensures data == JNull ==> r == Crash(ReadOfNullish)
    ensures data != JNull && !Truthy(OptionalContent(data).value) ==> r == Thrown(ContentError)
    ensures data != JNull && Truthy(OptionalContent(data).value) ==>
            var parsed := parse(ToText(OptionalContent(data).value.value));
            if parsed.Some? && parsed.value.JArr? then r == Response(200, QuestionsBody(parsed.value.elems))
            else r == Thrown(ParseError)
    ensures r.body != ErrorBody(Plain(NotArrayError))
  {
    match OptionalContent(data)
    case Threw(f) => Crash(f)
    case Ok(content) =>
      if !Truthy(content) then Thrown(ContentError)
      else match ParseValue(parse, content)
        case Some(JArr(questions)) => Response(200, QuestionsBody(questions))
        case _ => Thrown(ParseError)
  }

  /** The upstream reply: a rejected fetch, a non-OK status passed through
      with the reply text, or the reply data. */
  function Interpret(reply: Upstream, parse: string -> Option<Json>): (r: Response)
    ensures reply.Rejected? ==> r == Crash(FetchRejected)
    ensures reply.Reply? && !IsOk(reply.status) ==>
            r == PassThrough(reply.status, UpstreamErrorPrefix + reply.body)
    ensures reply.Reply? && !IsOk(reply.status) && reply.status != 304 ==>
            r == Failure(reply.status, UpstreamErrorPrefix + reply.body)
    ensures reply.Reply? && reply.status == 304 ==> r == Crash(BodyOnNullBodyStatus)
    ensures reply.Reply? && IsOk(reply.status) && parse(reply.body).None? ==> r == Crash(ReplyNotJson)
    ensures reply.Reply? && IsOk(reply.status) && parse(reply.body).Some? ==>
            r == FromData(parse(reply.body).value, parse)
  {
    match reply
    case Rejected => Crash(FetchRejected)
    case Reply(status, _, body) =>
      if !IsOk(status) then PassThrough(status, UpstreamErrorPrefix + body)
      else match parse(body)
        case None => Crash(ReplyNotJson)
        case Some(data) => FromData(data, parse)
  }

  /** The whole handler: `fetch` is called only when Prepare sends; a
      request with a falsy field is answered 400 without it. */
  function Post(request: Option<Json>, fetch: string -> Upstream, parse: string -> Option<Json>): (r: Response)
    ensures r.status == 200 <==> r.body.QuestionsBody?
    ensures Destructurable(request) && !(Truthy(Field(request, "position")) && Truthy(Field(request, "type"))) ==>
            r == Failure(400, MissingFieldsError)
  {
    match Prepare(request)
    case Reject(response) => response
    case Send(prompt) => Interpret(fetch(prompt), parse)
  }

  /** A well-shaped reply whose content parses to an array returns that
      array unchanged, whatever its length and elements. */
  lemma ArrayReturnedUnchanged(request: Option<Json>, fetch: string -> Upstream, parse: string -> Option<Json>,
                               status: Status, statusText: string, body: string, content: string, questions: seq<Json>)
    requires Prepare(request).Send?
    requires fetch(Prepare(request).prompt) == Reply(status, statusText, body) && IsOk(status)
    requires parse(body) == Some(CompletionWith(JStr(content))) && content != ""
    requires parse(content) == Some(JArr(questions))
    ensures Post(request, fetch, parse) == Response(200, QuestionsBody(questions))
  {
  }
}
