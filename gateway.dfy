/** What the three OpenRouter gateway routes share: the upstream reply, the
    route's response, the two phases of a handler and the credential test. */
module Gateway {
  import opened JsValue

  /** The statuses a fetch Response can carry. */
  type Status = s: int | 200 <= s <= 599 witness 200

  /** The outcome of the one fetch to the completion API. `Rejected` is a
      fetch that threw; `body` is what response.text() reads and what
      response.json() parses. */
  datatype Upstream =
    | Rejected
    | Reply(status: Status, statusText: string, body: string)

  /** `response.ok`. */
  predicate IsOk(status: int) {
    200 <= status <= 299
  }

  /** The feedback object of the feedback route, with its six fields. */
  datatype Feedback = Feedback(
    overallAssessment: Json,
    strengths: seq<Json>,
    areasForImprovement: seq<Json>,
    technicalKnowledge: Json,
    communicationSkills: Json,
    finalRecommendation: Json)

  /** The `error` field of an error response: a message the handler wrote, or
      the message of a runtime error. */
  datatype Message = Plain(text: string) | Engine(fault: Fault)

  /** The JSON body the handler sends back. */
  datatype Body =
    | ErrorBody(error: Message)
    | FeedbackBody(feedback: Feedback)
    | QuestionsBody(questions: seq<Json>)

  /** `NextResponse.json(body, { status })`. */
  datatype Response = Response(status: int, body: Body)

  /** An error response the handler returns directly. */
  function Failure(status: int, text: string): Response {
    Response(status, ErrorBody(Plain(text)))
  }

  /** `throw new Error(text)`, caught by the handler's outer catch, which
      answers 500 with the message: the same response as a directly
      returned `Failure(500, text)`. */
  function Thrown(text: string): Response {
    Failure(500, text)
  }

  /** A runtime error caught by the handler's outer catch. */
  function Crash(f: Fault): Response {
    Response(500, ErrorBody(Engine(f)))
  }

  /** The statuses whose Response must not carry a body. */
  predicate NullBodyStatus(status: int) {
    status in {101, 103, 204, 205, 304}
  }

  /** `NextResponse.json({ error: text }, { status })` with a status taken
      from a non-OK upstream reply. The Response constructor throws for a
      null-body status, and of the non-OK statuses only 304 is one; the
      outer catch then answers 500. Any other status is passed through. */
  function PassThrough(status: Status, text: string): (r: Response)
    requires !IsOk(status)
    ensures status == 304 ==> r == Crash(BodyOnNullBodyStatus)
    ensures status != 304 ==> r == Failure(status, text)
    ensures r.status == status || r.status == 500
  {
    if NullBodyStatus(status) then Crash(BodyOnNullBodyStatus) else Failure(status, text)
  }

  /** A handler up to its fetch: either it has already answered, or it sends
      `prompt` upstream. */
  datatype Stage = Reject(response: Response) | Send(prompt: string)

  /** `!!process.env.OPENROUTER_API_KEY`: unset and empty both fail. */
  predicate KeyConfigured(apiKey: Option<string>)
    ensures KeyConfigured(apiKey) <==> apiKey.Some? && JsTruthy(JStr(apiKey.value))
  {
    apiKey.Some? && apiKey.value != ""
  }

  /** The result of `await request.json()` (`None` when it rejected) can be
      destructured without a TypeError. */
  predicate Destructurable(request: Option<Json>) {
    request.Some? && request.value != JNull
  }

  /** One field destructured out of the request body. */
  function Field(request: Option<Json>, k: string): Option<Json>
    requires Destructurable(request)
  {
    Get(request.value, k)
  }

  /** `o?.[k]`: undefined when `o` is null or undefined. */
  function OptGet(o: Option<Json>, k: string): Option<Json> {
    if o.None? || o.value == JNull then None else Get(o.value, k)
  }

  /** `data.choices?.[0]?.message?.content`; only `data` itself is read
      without optional chaining. */
  function OptionalContent(data: Json): (r: Result<Option<Json>>)
    ensures r.Threw? <==> data == JNull
    ensures r.Threw? ==> r.fault == ReadOfNullish
  {
    if data == JNull then Threw(ReadOfNullish)
    else Ok(OptGet(OptGet(OptGet(Get(data, "choices"), "0"), "message"), "content"))
  }

  /** A chat completion reply whose first choice carries `content`. */
  function CompletionWith(content: Json): Json {
    JObj(map["choices" := JArr([JObj(map["message" := JObj(map["content" := content])])])])
  }

  /** The content of a well-shaped completion reply is found. */
  lemma OptionalContentFound(content: Json)
    ensures OptionalContent(CompletionWith(content)) == Ok(Some(content))
  {
  }

  /** `JSON.parse(v)`: the argument is first converted to a string, and
      `undefined` never parses. */
  function ParseValue(parse: string -> Option<Json>, v: Option<Json>): (r: Option<Json>)
    ensures v.None? ==> r.None?
    ensures v.Some? && v.value.JStr? ==> r == parse(v.value.s)
    ensures v.Some? && v.value.JObj? ==> r == parse("[object Object]")
  {
    if v.None? then None else parse(ToText(v.value))
  }
}
