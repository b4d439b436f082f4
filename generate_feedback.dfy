/** POST /api/generate-feedback: checks `position`, `questions` and
    `answers`, builds a compact prompt pairing each question with its
    answer, asks the completion API for a single-letter-keyed JSON summary
    and expands it into the six feedback fields. */
module GenerateFeedback {
  import opened JsValue
  import opened Gateway

  const MissingFieldsError := "Position, questions, and answers are required"
  const NotArraysError := "Questions and answers must be arrays"
  const NoKeyError := "OpenRouter API key not configured"
  const UpstreamErrorPrefix := "OpenRouter API error: "
  const FormatError := "Invalid response format from OpenRouter"
  const ParseError := "Failed to parse feedback from response"

  /** The end of the prompt: the compact schema the model is asked for. */
  const Schema := ". JSON: {\"o\":\"\",\"s\":[],\"i\":[],\"t\":\"\",\"c\":\"\",\"r\":\"\"}"

  const NoOverall := "No overall assessment provided"
  const NoStrengths := "No strengths identified"
  const NoAreas := "No areas for improvement identified"
  const NoTechnical := "No technical knowledge assessment provided"
  const NoCommunication := "No communication skills assessment provided"
  const NoRecommendation := "No final recommendation provided"

  // ---------------------------------------------------------------------
  // Request side

  /** All three fields are truthy and both lists are arrays. */
  predicate Accepted(position: Option<Json>, questions: Option<Json>, answers: Option<Json>) {
    Truthy(position) && Truthy(questions) && Truthy(answers) && IsArray(questions) && IsArray(answers)
  }

  /** `answers[i] || 'none'`, converted to a string. */
  function AnswerText(answers: seq<Json>, i: nat): (s: string)
    ensures Truthy(Get(JArr(answers), NatText(i))) ==> s == ToText(Get(JArr(answers), NatText(i)).value)
    ensures !Truthy(Get(JArr(answers), NatText(i))) ==> s == "none"
  {
    GetIndex(answers, i);
    if i < |answers| && JsTruthy(answers[i]) then ToText(answers[i]) else "none"
  }

  /** `Q${i+1}:${q.question} A:${answers[i]||'none'}`. */
  function QaLine(q: Json, i: nat, answers: seq<Json>): (r: string)
    requires q != JNull
    ensures var tag := "Q" + NatText(i + 1) + ":"; |tag| <= |r| && r[..|tag|] == tag
    ensures var tail := " A:" + AnswerText(answers, i); |tail| <= |r| && r[|r| - |tail|..] == tail
    ensures var tag, tail := "Q" + NatText(i + 1) + ":", " A:" + AnswerText(answers, i);
            |tag| + |tail| <= |r| && r[|tag|..|r| - |tail|] == OptText(Get(q, "question"))
  {
    var tag, question, tail := "Q" + NatText(i + 1) + ":", OptText(Get(q, "question")), " A:" + AnswerText(answers, i);
    assert (tag + question + tail)[|tag|..|tag + question + tail| - |tail|] == question;
    tag + question + tail
  }

  /** One line per question, in index order. */
  function QaLines(questions: seq<Json>, answers: seq<Json>): seq<string>
    requires JNull !in questions
  {
    seq(|questions|, i requires 0 <= i < |questions| => QaLine(questions[i], i, answers))
  }

  /** `questions.map(...).join(' ')`: reading `.question` of a null entry
      throws a TypeError. */
  function QaSection(questions: seq<Json>, answers: seq<Json>): (r: Result<string>)
    ensures r.Threw? <==> JNull in questions
    ensures r.Threw? ==> r.fault == ReadOfNullish
  {
    if JNull in questions then Threw(ReadOfNullish) else Ok(Join(" ", QaLines(questions, answers)))
  }

  /** Empty question and answer lists make an empty Q&A section. */
  lemma QaSectionEmpty(answers: seq<Json>)
    ensures QaSection([], answers) == Ok("")
  {
  }

  /** A single question makes a Q&A section of its own line alone. */
  lemma QaSectionSingle(q: Json, answers: seq<Json>)
    requires q != JNull
    ensures QaSection([q], answers) == Ok(QaLine(q, 0, answers))
  {
  }

  /** Adding a question adds its line at the end of the Q&A section, numbered
      one past the others and paired with the answer at its own index. */
  lemma QaSectionAppend(questions: seq<Json>, answers: seq<Json>, q: Json)
    requires JNull !in questions && q != JNull && |questions| > 0
    ensures QaSection(questions + [q], answers)
         == Ok(QaSection(questions, answers).value + " " + QaLine(q, |questions|, answers))
  {
    var all, lines, line := questions + [q], QaLines(questions, answers), QaLine(q, |questions|, answers);
    assert JNull !in all;
    forall i | 0 <= i < |all|
      ensures QaLines(all, answers)[i] == (lines + [line])[i]
    {
      if i < |questions| {
        assert all[i] == questions[i];
      }
    }
    assert QaLines(all, answers) == lines + [line];
    JoinSnoc(" ", lines, line);
  }

  /** The prompt opens with the position and ends with the compact schema. */
  function Prompt(position: Json, qa: string): (r: string)
    ensures var head := "Review " + ToText(position) + " interview. Q&A: "; |head| <= |r| && r[..|head|] == head
    ensures |Schema| <= |r| && r[|r| - |Schema|..] == Schema
    ensures var head := "Review " + ToText(position) + " interview. Q&A: ";
            |head| + |Schema| <= |r| && r[|head|..|r| - |Schema|] == qa
  {
    "Review " + ToText(position) + " interview. Q&A: " + qa + Schema
  }

  /** The checks before the fetch, in the handler's order: required fields,
      array types, the prompt (which can throw), then the credential. */
  function Validate(position: Option<Json>, questions: Option<Json>, answers: Option<Json>, apiKey: Option<string>): (r: Stage)
    ensures !(Truthy(position) && Truthy(questions) && Truthy(answers)) ==>
            r == Reject(Failure(400, MissingFieldsError))
    ensures Truthy(position) && Truthy(questions) && Truthy(answers) && !(IsArray(questions) && IsArray(answers)) ==>
            r == Reject(Failure(400, NotArraysError))
    ensures Accepted(position, questions, answers) && JNull in questions.value.elems ==>
            r == Reject(Crash(ReadOfNullish))
    ensures Accepted(position, questions, answers) && JNull !in questions.value.elems && !KeyConfigured(apiKey) ==>
            r == Reject(Failure(500, NoKeyError))
    ensures r.Reject? ==> r.response.status in {400, 500} && r.response.body.ErrorBody?
    ensures r.Send? <==> Accepted(position, questions, answers) && JNull !in questions.value.elems && KeyConfigured(apiKey)
    ensures r.Send? ==> r.prompt == Prompt(position.value, Join(" ", QaLines(questions.value.elems, answers.value.elems)))
  {
    if !Truthy(position) || !Truthy(questions) || !Truthy(answers) then
      Reject(Failure(400, MissingFieldsError))
    else if !IsArray(questions) || !IsArray(answers) then
      Reject(Failure(400, NotArraysError))
    else
      match QaSection(questions.value.elems, answers.value.elems)
      case Threw(f) => Reject(Crash(f))
      case Ok(qa) =>
        if !KeyConfigured(apiKey) then Reject(Failure(500, NoKeyError))
        else Send(Prompt(position.value, qa))
  }

  /** `const { position, questions, answers } = await request.json()`, then
      the checks. */
  function Prepare(request: Option<Json>, apiKey: Option<string>): (r: Stage)
    ensures r.Reject? ==> r.response.status in {400, 500} && r.response.body.ErrorBody?
    ensures request.None? ==> r == Reject(Crash(RequestNotJson))
    ensures request == Some(JNull) ==> r == Reject(Crash(DestructureNullish))
    ensures Destructurable(request) ==>
            r == Validate(Field(request, "position"), Field(request, "questions"), Field(request, "answers"), apiKey)
  {
    match request
    case None => Reject(Crash(RequestNotJson))
    case Some(body) =>
      if body == JNull then Reject(Crash(DestructureNullish))
      else Validate(Get(body, "position"), Get(body, "questions"), Get(body, "answers"), apiKey)
  }

  // ---------------------------------------------------------------------
  // Reply side

  /** `field` is `v || fallback`. */
  predicate Defaulted(field: Json, v: Option<Json>, fallback: string) {
    if Truthy(v) then field == v.value else field == JStr(fallback)
  }

  /** `field` is `Array.isArray(v) ? v : [fallback]`. */
  predicate ListDefaulted(field: seq<Json>, v: Option<Json>, fallback: string) {
    if IsArray(v) then field == v.value.elems else field == [JStr(fallback)]
  }

  /** The feedback object built from the parsed reply; reading a key of a
      null reply throws. */
  function Normalize(parsed: Json): (r: Result<Feedback>)
    ensures r.Threw? <==> parsed == JNull
    ensures r.Ok? ==> Defaulted(r.value.overallAssessment, Get(parsed, "o"), NoOverall)
    ensures r.Ok? ==> ListDefaulted(r.value.strengths, Get(parsed, "s"), NoStrengths)
    ensures r.Ok? ==> ListDefaulted(r.value.areasForImprovement, Get(parsed, "i"), NoAreas)
    ensures r.Ok? ==> Defaulted(r.value.technicalKnowledge, Get(parsed, "t"), NoTechnical)
    ensures r.Ok? ==> Defaulted(r.value.communicationSkills, Get(parsed, "c"), NoCommunication)
    ensures r.Ok? ==> Defaulted(r.value.finalRecommendation, Get(parsed, "r"), NoRecommendation)
  {
    if parsed == JNull then Threw(ReadOfNullish)
    else
      var o, s, i, t, c, r := Get(parsed, "o"), Get(parsed, "s"), Get(parsed, "i"), Get(parsed, "t"), Get(parsed, "c"), Get(parsed, "r");
      Ok(Feedback(
        if Truthy(o) then o.value else JStr(NoOverall),
        if IsArray(s) then s.value.elems else [JStr(NoStrengths)],
        if IsArray(i) then i.value.elems else [JStr(NoAreas)],
        if Truthy(t) then t.value else JStr(NoTechnical),
        if Truthy(c) then c.value else JStr(NoCommunication),
        if Truthy(r) then r.value else JStr(NoRecommendation)))
  }

  /** Every text field of a feedback object is truthy. */
  predicate Complete(f: Feedback) {
    JsTruthy(f.overallAssessment) && JsTruthy(f.technicalKnowledge)
    && JsTruthy(f.communicationSkills) && JsTruthy(f.finalRecommendation)
  }

  /** A feedback object in the compact single-letter schema. */
  function Compact(f: Feedback): Json {
    JObj(map[
      "o" := f.overallAssessment,
      "s" := JArr(f.strengths),
      "i" := JArr(f.areasForImprovement),
      "t" := f.technicalKnowledge,
      "c" := f.communicationSkills,
      "r" := f.finalRecommendation])
  }

  /** Normalizing never leaves a text field empty. */
  lemma NormalizeComplete(parsed: Json)
    requires parsed != JNull
    ensures Normalize(parsed).Ok? && Complete(Normalize(parsed).value)
  {
  }

  /** Expanding the compact form of a complete feedback object gives it back. */
  lemma NormalizeCompact(f: Feedback)
    requires Complete(f)
    ensures Normalize(Compact(f)) == Ok(f)
  {
  }

  /** Normalizing is idempotent: a normalized reply, written back in the
      compact schema, normalizes to itself. */
  lemma NormalizeIdempotent(parsed: Json)
    requires parsed != JNull
    ensures Normalize(Compact(Normalize(parsed).value)) == Normalize(parsed)
  {
  }

  /** From the reply data on: the content check, JSON.parse of the content,
      then the remap. */
  function FromData(data: Json, parse: string -> Option<Json>): (r: Response)
    ensures r.status == 200 <==> r.body.FeedbackBody?
    ensures r.body.FeedbackBody? ==> Complete(r.body.feedback)
    ensures data == JNull ==> r == Crash(ReadOfNullish)
    ensures data != JNull && !Truthy(OptionalContent(data).value) ==> r == Thrown(FormatError)
    ensures data != JNull && Truthy(OptionalContent(data).value) ==>
            var parsed := parse(ToText(OptionalContent(data).value.value));
                  if parsed.None? || parsed.value == JNull then r == Thrown(ParseError)
                  else r == Response(200, FeedbackBody(Normalize(parsed.value).value))
  {
    match OptionalContent(data)
    case Threw(f) => Crash(f)
    case Ok(content) =>
      if !Truthy(content) then Thrown(FormatError)
      else match ParseValue(parse, content)
        case None => Thrown(ParseError)
        case Some(parsed) =>
          match Normalize(parsed)
          case Threw(_) => Thrown(ParseError)
          case Ok(feedback) => Response(200, FeedbackBody(feedback))
  }

  /** The upstream reply: a rejected fetch, a non-OK status passed through
      with the reply text, or the reply data. */
  function Interpret(reply: Upstream, parse: string -> Option<Json>): (r: Response)
    ensures r.status == 200 <==> r.body.FeedbackBody?
    ensures r.body.FeedbackBody? ==> Complete(r.body.feedback)
    ensures reply.Rejected? ==> r == Crash(FetchRejected)
    ensures reply.Reply? && !IsOk(reply.status) ==>
            r == PassThrough(reply.status, UpstreamErrorPrefix + reply.body)
    ensures reply.Reply? && !IsOk(reply.status) && reply.status != 304 ==>
            r == Failure(reply.status, UpstreamErrorPrefix + reply.body)
    ensures reply.Reply? && reply.status == 304 ==> r == Crash(BodyOnNullBodyStatus)
    ensures reply.Reply? && IsOk(reply.status) && parse(reply.body).None? ==> r == Crash(ReplyNotJson)
    ensures reply.Reply? && IsOk(reply.status) && parse(reply.body).Some? ==>
            r == FromData(parse(reply.body).value, parse)
  {
    match reply
    case Rejected => Crash(FetchRejected)
    case Reply(status, _, body) =>
      if !IsOk(status) then PassThrough(status, UpstreamErrorPrefix + body)
      else match parse(body)
        case None => Crash(ReplyNotJson)
        case Some(data) => FromData(data, parse)
  }

  /** The whole handler: `fetch` is called only when Prepare sends. */
  function Post(request: Option<Json>, apiKey: Option<string>,
                fetch: string -> Upstream, parse: string -> Option<Json>): (r: Response)
    ensures r.status == 200 <==> r.body.FeedbackBody?
    ensures r.body.FeedbackBody? ==> KeyConfigured(apiKey) && Complete(r.body.feedback)
  {
    match Prepare(request, apiKey)
    case Reject(response) => response
    case Send(prompt) => Interpret(fetch(prompt), parse)
  }

  /** Without a credential the handler answers 400 or 500 and its answer
      does not depend on the upstream at all: no request goes out. */
  lemma FailsClosed(request: Option<Json>, apiKey: Option<string>,
                    fetch1: string -> Upstream, fetch2: string -> Upstream, parse: string -> Option<Json>)
    requires !KeyConfigured(apiKey)
    ensures Post(request, apiKey, fetch1, parse) == Post(request, apiKey, fetch2, parse)
    ensures Post(request, apiKey, fetch1, parse).status in {400, 500}
  {
  }

  /** A well-shaped reply whose content parses to a non-null value yields
      the normalized feedback with status 200. */
  lemma FeedbackReturned(request: Option<Json>, apiKey: Option<string>, fetch: string -> Upstream,
                         parse: string -> Option<Json>, status: Status, statusText: string, body: string,
                         content: string, parsed: Json)
    requires Prepare(request, apiKey).Send?
    requires fetch(Prepare(request, apiKey).prompt) == Reply(status, statusText, body) && IsOk(status)
    requires parse(body) == Some(CompletionWith(JStr(content))) && content != ""
    requires parse(content) == Some(parsed) && parsed != JNull
    ensures Post(request, apiKey, fetch, parse) == Response(200, FeedbackBody(Normalize(parsed).value))
  {
    var data := CompletionWith(JStr(content));
    OptionalContentFound(JStr(content));
    assert FromData(data, parse) == Response(200, FeedbackBody(Normalize(parsed).value));
    assert Post(request, apiKey, fetch, parse) == Interpret(Reply(status, statusText, body), parse);
  }
}
