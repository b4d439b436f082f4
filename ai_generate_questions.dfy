/** POST /api/ai-model/generate-questions: checks `role`, `level` and
    `skills` and the credential, asks the completion API for
    `numQuestions` (default 5) question/answer objects and returns the
    parsed array once every element has a question and an answer. */
module AiGenerateQuestions {
  import opened JsValue
  import opened Gateway

  const MissingFieldsError := "Missing required fields"
  const NoKeyError := "OpenRouter API key is not configured"
  const UpstreamErrorPrefix := "OpenRouter API error: "
  const FormatError := "Invalid response format from OpenRouter"
  const QuestionsError := "Invalid questions format received"
  const IndexErrorPrefix := "Invalid question format at index "

  /** The destructuring default of `numQuestions`. */
  const DefaultCount := JNum(5)

  // ---------------------------------------------------------------------
  // Request side

  /** The text between the role and the skills. */
  const SkillsLead := " position. \n    Required skills: "

  /** The text after the skills: the object format and the request for a
      bare JSON array. */
  const FormatTail := ".\n    Format each question as a JSON object with 'question' and 'answer' fields."
    + "\n    Return only the JSON array of questions."

  /** The opening of the prompt: the count, the level and the role. */
  function Opening(count: Json, level: Json, role: Json): string {
    "Generate " + ToText(count) + " technical interview questions for a " + ToText(level) + " " + ToText(role)
  }

  /** The prompt opens with the count, level and role, lists the skills
      joined by ', ' and ends with the request for a bare JSON array. */
  function Prompt(count: Json, level: Json, role: Json, skills: seq<Json>): (r: string)
    ensures var head := Opening(count, level, role); |head| <= |r| && r[..|head|] == head
    ensures var h := |Opening(count, level, role)|; h + |SkillsLead| <= |r| && r[h..h + |SkillsLead|] == SkillsLead
    ensures var skillsAt := |Opening(count, level, role)| + |SkillsLead|;
            skillsAt + |FormatTail| <= |r| && r[skillsAt..|r| - |FormatTail|] == JoinValues(", ", skills)
    ensures |FormatTail| <= |r| && r[|r| - |FormatTail|..] == FormatTail
  {
    var head, skillsText := Opening(count, level, role), JoinValues(", ", skills);
    var r := head + SkillsLead + skillsText + FormatTail;
    assert r[|head|..|head| + |SkillsLead|] == SkillsLead;
    assert r[|head + SkillsLead + skillsText|..] == FormatTail;
    r
  }

  /** The checks before the fetch, in the handler's order: required fields,
      the credential, then the prompt, whose `skills.join` throws when
      `skills` is not an array. */
  function Validate(role: Option<Json>, level: Option<Json>, skills: Option<Json>, count: Json, apiKey: Option<string>): (r: Stage)
    ensures r.Reject? ==> r.response.status in {400, 500} && r.response.body.ErrorBody?
    ensures r.Send? ==> KeyConfigured(apiKey)
    ensures !(Truthy(role) && Truthy(level) && Truthy(skills)) ==>
            r == Reject(Failure(400, MissingFieldsError))
    ensures Truthy(role) && Truthy(level) && Truthy(skills) && !KeyConfigured(apiKey) ==>
            r == Reject(Failure(500, NoKeyError))
    ensures Truthy(role) && Truthy(level) && Truthy(skills) && KeyConfigured(apiKey) && !IsArray(skills) ==>
            r == Reject(Crash(NotAFunction))
    ensures r.Send? <==> Truthy(role) && Truthy(level) && IsArray(skills) && KeyConfigured(apiKey)
    ensures r.Send? ==> r.prompt == Prompt(count, level.value, role.value, skills.value.elems)
  {
    if !Truthy(role) || !Truthy(level) || !Truthy(skills) then
      Reject(Failure(400, MissingFieldsError))
    else if !KeyConfigured(apiKey) then
      Reject(Failure(500, NoKeyError))
    else if !IsArray(skills) then
      Reject(Crash(NotAFunction))
    else
      Send(Prompt(count, level.value, role.value, skills.value.elems))
  }

  /** `const { role, level, skills, numQuestions = 5 } = await req.json()`,
      then the checks. The default applies only when `numQuestions` is
      undefined; an explicit null is kept. */
  function Prepare(request: Option<Json>, apiKey: Option<string>): (r: Stage)
    ensures r.Reject? ==> r.response.status in {400, 500} && r.response.body.ErrorBody?
    ensures r.Send? ==> KeyConfigured(apiKey)
    ensures request.None? ==> r == Reject(Crash(RequestNotJson))
    ensures request == Some(JNull) ==> r == Reject(Crash(DestructureNullish))
    ensures Destructurable(request) && Field(request, "numQuestions").None? ==>
            r == Validate(Field(request, "role"), Field(request, "level"), Field(request, "skills"), DefaultCount, apiKey)
    ensures Destructurable(request) && Field(request, "numQuestions").Some? ==>
            r == Validate(Field(request, "role"), Field(request, "level"), Field(request, "skills"),
                          Field(request, "numQuestions").value, apiKey)
  {
    match request
    case None => Reject(Crash(RequestNotJson))
    case Some(body) =>
      if body == JNull then Reject(Crash(DestructureNullish))
      else
        var count := if Get(body, "numQuestions").Some? then Get(body, "numQuestions").value else DefaultCount;
        Validate(Get(body, "role"), Get(body, "level"), Get(body, "skills"), count, apiKey)
  }

  /** The opening for the default count starts "Generate 5 ". */
  lemma DefaultOpening(level: Json, role: Json)
    ensures Opening(DefaultCount, level, role)[..11] == "Generate 5 "
  {
    var head := Opening(DefaultCount, level, role);
    assert ToText(DefaultCount) == "5";
    assert head[..10] == "Generate 5" && head[10] == ' ';
    assert head[..11] == head[..10] + [head[10]];
  }

  /** A prompt built with the default count starts "Generate 5 ". */
  lemma DefaultPromptStart(level: Json, role: Json, skills: seq<Json>)
    ensures Prompt(DefaultCount, level, role, skills)[..11] == "Generate 5 "
  {
    var head, prompt := Opening(DefaultCount, level, role), Prompt(DefaultCount, level, role, skills);
    DefaultOpening(level, role);
    assert prompt[..11] == prompt[..|head|][..11];
  }

  /** Without `numQuestions` the prompt asks for five questions. */
  lemma DefaultAsksForFive(request: Option<Json>, apiKey: Option<string>)
    requires Destructurable(request) && Field(request, "numQuestions").None?
    requires Prepare(request, apiKey).Send?
    ensures Prepare(request, apiKey).prompt[..11] == "Generate 5 "
  {
    var role, level, skills := Field(request, "role"), Field(request, "level"), Field(request, "skills");
    assert Prepare(request, apiKey) == Validate(role, level, skills, DefaultCount, apiKey);
    DefaultPromptStart(level.value, role.value, skills.value.elems);
  }

  // ---------------------------------------------------------------------
  // Reply side

  /** `q` passes the per-element check: it is not null (reading `.question`
      of null throws) and has a truthy `question` and `answer`. */
  predicate WellFormed(q: Json)
    ensures WellFormed(q) ==> q.JObj? && "question" in q.fields && "answer" in q.fields
  {
    q != JNull && Truthy(Get(q, "question")) && Truthy(Get(q, "answer"))
  }

  /** The `forEach` check from index `from` on: the first element that does
      not pass, if any. */
  function FirstBad(qs: seq<Json>, from: nat): (r: Option<nat>)
    requires from <= |qs|
    ensures r.Some? ==> from <= r.value < |qs| && !WellFormed(qs[r.value])
    ensures r.Some? ==> forall j :: from <= j < r.value ==> WellFormed(qs[j])
    ensures r.None? <==> forall j :: from <= j < |qs| ==> WellFormed(qs[j])
    decreases |qs| - from
  {
    if from == |qs| then None
    else if !WellFormed(qs[from]) then Some(from)
    else FirstBad(qs, from + 1)
  }

  /** A response of the reply side: a 500 error, or a 200 carrying a
      non-empty array of well-formed questions. */
  predicate Answered(r: Response) {
    (r.status == 500 && r.body.ErrorBody?)
    || (r.status == 200 && r.body.QuestionsBody? && |r.body.questions| > 0
        && forall j :: 0 <= j < |r.body.questions| ==> WellFormed(r.body.questions[j]))
  }

  /** The parsed content: an array, non-empty, every element well formed.
      The first bad element decides the error: a TypeError if it is null,
      otherwise a message naming its index. */
  function Check(parsed: Json): (r: Response)
    ensures Answered(r)
    ensures !(parsed.JArr? && |parsed.elems| > 0) ==> r == Thrown(QuestionsError)
    ensures r.status == 200 <==>
            parsed.JArr? && |parsed.elems| > 0 && forall j :: 0 <= j < |parsed.elems| ==> WellFormed(parsed.elems[j])
    ensures r.status == 200 ==> r == Response(200, QuestionsBody(parsed.elems))
    ensures forall i :: parsed.JArr? && 0 <= i < |parsed.elems| && !WellFormed(parsed.elems[i]) &&
                        (forall j :: 0 <= j < i ==> WellFormed(parsed.elems[j])) ==>
            r == if parsed.elems[i] == JNull then Crash(ReadOfNullish) else Thrown(IndexErrorPrefix + NatText(i))
  {
    if !parsed.JArr? || |parsed.elems| == 0 then Thrown(QuestionsError)
    else match FirstBad(parsed.elems, 0)
      case Some(i) =>
        if parsed.elems[i] == JNull then Crash(ReadOfNullish) else Thrown(IndexErrorPrefix + NatText(i))
      case None => Response(200, QuestionsBody(parsed.elems))
  }

  /** `data.choices[0].message.content`, read without optional chaining:
      a null or undefined step throws, a missing `content` is undefined. */
  function StrictContent(data: Json): (r: Result<Option<Json>>)
    ensures data == JNull ==> r == Threw(ReadOfNullish)
    ensures data != JNull ==>
            (r.Threw? <==> var m := OptGet(OptGet(Get(data, "choices"), "0"), "message"); m.None? || m.value == JNull)
    ensures r.Threw? ==> r.fault == ReadOfNullish
    ensures r.Ok? ==> r.value == OptionalContent(data).value
  {
    match Read(Some(data), "choices")
    case Threw(f) => Threw(f)
    case Ok(choices) =>
      match Read(choices, "0")
      case Threw(f) => Threw(f)
      case Ok(choice) =>
        match Read(choice, "message")
        case Threw(f) => Threw(f)
        case Ok(message) => Read(message, "content")
  }

  /** `o[k]` where `o` may be null or undefined. */
  function Read(o: Option<Json>, k: string): (r: Result<Option<Json>>)
    ensures r.Threw? <==> o.None? || o.value == JNull
    ensures r.Ok? ==> r.value == OptGet(o, k)
  {
    if o.None? || o.value == JNull then Threw(ReadOfNullish) else Ok(Get(o.value, k))
  }

  /** The content of a well-shaped completion reply is found. */
  lemma StrictContentFound(content: Json)
    ensures StrictContent(CompletionWith(content)) == Ok(Some(content))
  {
  }

  /** From the reply data on: the content, JSON.parse of it, then Check. */
  function FromData(data: Json, parse: string -> Option<Json>): (r: Response)
    ensures Answered(r)
    ensures StrictContent(data).Threw? ==> r == Crash(StrictContent(data).fault)
    ensures StrictContent(data).Ok? && ParseValue(parse, StrictContent(data).value).None? ==>
            r == Thrown(FormatError)
    ensures StrictContent(data).Ok? && ParseValue(parse, StrictContent(data).value).Some? ==>
            r == Check(ParseValue(parse, StrictContent(data).value).value)
  {
    match StrictContent(data)
    case Threw(f) => Crash(f)
    case Ok(content) =>
      match ParseValue(parse, content)
      case None => Thrown(FormatError)
      case Some(parsed) => Check(parsed)
  }

  /** The upstream reply: a non-OK status is thrown as an Error and so
      becomes a 500 whose message carries the upstream status. */
  function Interpret(reply: Upstream, parse: string -> Option<Json>): (r: Response)
    ensures Answered(r)
    ensures reply.Rejected? ==> r == Crash(FetchRejected)
    ensures reply.Reply? && !IsOk(reply.status) ==>
            r == Thrown(UpstreamErrorPrefix + IntText(reply.status) + " " + reply.statusText)
    ensures reply.Reply? && IsOk(reply.status) && parse(reply.body).None? ==> r == Crash(ReplyNotJson)
    ensures reply.Reply? && IsOk(reply.status) && parse(reply.body).Some? ==>
            r == FromData(parse(reply.body).value, parse)
  {
    match reply
    case Rejected => Crash(FetchRejected)
    case Reply(status, statusText, body) =>
      if !IsOk(status) then Thrown(UpstreamErrorPrefix + IntText(status) + " " + statusText)
      else match parse(body)
        case None => Crash(ReplyNotJson)
        case Some(data) => FromData(data, parse)
  }

  /** The whole handler: `fetch` is called only when Prepare sends. The
      status is never the upstream's own, and the questions returned are a
      non-empty array whose every element has a question and an answer. */
  function Post(request: Option<Json>, apiKey: Option<string>,
                fetch: string -> Upstream, parse: string -> Option<Json>): (r: Response)
    ensures r.status in {200, 400, 500}
    ensures r.status == 200 <==> r.body.QuestionsBody?
    ensures r.body.QuestionsBody? ==>
            KeyConfigured(apiKey) && |r.body.questions| > 0 &&
            forall j :: 0 <= j < |r.body.questions| ==> WellFormed(r.body.questions[j])
  {
    match Prepare(request, apiKey)
    case Reject(response) => response
    case Send(prompt) => Interpret(fetch(prompt), parse)
  }

  /** Without a credential the handler answers 400 or 500 and its answer
      does not depend on the upstream at all: no request goes out. */
  lemma FailsClosed(request: Option<Json>, apiKey: Option<string>,
                    fetch1: string -> Upstream, fetch2: string -> Upstream, parse: string -> Option<Json>)
    requires !KeyConfigured(apiKey)
    ensures Post(request, apiKey, fetch1, parse) == Post(request, apiKey, fetch2, parse)
    ensures Post(request, apiKey, fetch1, parse).status in {400, 500}
  {
  }

  /** A well-shaped reply whose content parses to a non-empty array of
      well-formed questions returns that array unchanged. */
  lemma QuestionsReturned(request: Option<Json>, apiKey: Option<string>, fetch: string -> Upstream,
                          parse: string -> Option<Json>, status: Status, statusText: string, body: string,
                          content: string, questions: seq<Json>)
    requires Prepare(request, apiKey).Send?
    requires fetch(Prepare(request, apiKey).prompt) == Reply(status, statusText, body) && IsOk(status)
    requires parse(body) == Some(CompletionWith(JStr(content)))
    requires parse(content) == Some(JArr(questions))
    requires |questions| > 0 && forall j :: 0 <= j < |questions| ==> WellFormed(questions[j])
    ensures Post(request, apiKey, fetch, parse) == Response(200, QuestionsBody(questions))
  {
    var data := CompletionWith(JStr(content));
    StrictContentFound(JStr(content));
    assert Check(JArr(questions)) == Response(200, QuestionsBody(questions));
    assert FromData(data, parse) == Response(200, QuestionsBody(questions));
    assert Post(request, apiKey, fetch, parse) == Interpret(Reply(status, statusText, body), parse);
  }
}
