# OpenRouter gateway routes of the interview scheduler, in Dafny

The interview scheduler has three server-side routes that call the OpenRouter
chat-completion API. Each route checks the request, builds a prompt, makes
one upstream call and turns the reply into a JSON response:

- `POST /api/generate-feedback` sends the interview's question/answer pairs
  and expands a compact `o/s/i/t/c/r` JSON summary into six feedback fields.
- `POST /api/ai-model/generate-questions` asks for `numQuestions` (default 5)
  question/answer objects and checks every element of the array it gets back.
- `POST /api/generate-questions` asks for five questions and returns whatever
  array the reply parses to.

Each handler is modelled as a pure function with two phases:

- `Prepare` takes the request body and the credential. It either answers
  already (`Reject`) or yields the prompt to send (`Send`).
- `Interpret` maps the upstream outcome to the response.
- `Post` chains them. The upstream call is a function parameter
  `fetch: string -> Upstream`, and `Post` applies it only to a prompt that
  `Prepare` sends. So "no network call" is stated as "the result does not
  depend on `fetch`" (`FailsClosed`).
- `JSON.parse` is a parameter `parse: string -> Option<Json>`, where `None`
  means it threw. `request.json()` is given already parsed, as an
  `Option<Json>`.

JavaScript semantics are written out in module `JsValue`:

- truthiness (`""`, `0`, `null`, `false` and undefined are falsy);
- property reads, including `[0]` on arrays and strings;
- conversion to string in template literals, with `Array.prototype.join`;
- the TypeErrors the handlers run into. They read a property of `null`,
  destructure a `null` body, or call `join` on a non-array.

A runtime error whose message text the engine writes is modelled as a
`Fault` value in the response's `error` field.

Files:

- `js_value.dfy` (module `JsValue`): JSON values, truthiness, property
  reads, decimal numerals, string conversion, `join`.
- `gateway.dfy` (module `Gateway`): the upstream outcome, the response
  datatype, the credential test and the optional-chain read of
  `choices[0].message.content`.
- `generate_feedback.dfy`, `ai_generate_questions.dfy`,
  `generate_questions.dfy`: one module per route.

What the code does, where a reader might expect otherwise:

- `app/api/generate-questions/route.js` has no credential check. It sends
  `Bearer undefined` when the key is unset and answers with whatever the
  upstream says.
- The feedback route accepts empty `questions` and `answers` arrays.
- Each route parses the whole reply content with `JSON.parse`. None of
  them extracts an array from surrounding text.
- On a non-success upstream status, two routes pass that status through.
  The ai-model route answers 500 with the status in the message.

## Model

| member | source | states |
|---|---|---|
| JsValue.NatText | app/api/generate-feedback/route.js:25 | `${i+1}` is a non-empty string of digits without a leading zero (and "0" for zero) |
| JsValue.DigitsValueOfNatText | app/api/generate-feedback/route.js:73 | the decimal numeral of n reads back as n, which is how the key of `[0]` is read as an index |
| JsValue.IndexKeyOfNatText | app/api/generate-feedback/route.js:73 | the property key `String(n)` is recognised as array index n |
| JsValue.GetIndex | app/api/generate-feedback/route.js:73 | `a[i]` is element i of an array, and undefined past its end |
| JsValue.JoinSnoc | app/api/generate-feedback/route.js:25 | joining one more part appends the separator and that part |
| Gateway.KeyConfigured | app/api/generate-feedback/route.js:29 | the key test (also app/api/ai-model/generate-questions/route.js:21) passes exactly when the variable is set to a truthy string, so unset and empty both fail |
| Gateway.ParseValue | app/api/generate-feedback/route.js:83 | `JSON.parse(content)` (also generate-questions/route.js:57 and ai-model/generate-questions/route.js:73) never parses undefined, parses a string as itself, and parses an object as '[object Object]' |
| Gateway.PassThrough | app/api/generate-feedback/route.js:64-67 | an error response with a non-OK upstream status (also generate-questions/route.js:42-45) keeps that status, except 304: a Response with a body cannot carry it, the constructor throws and the outer catch answers 500 |
| Gateway.OptionalContent | app/api/generate-feedback/route.js:73 | `data.choices?.[0]?.message?.content` throws exactly when `data` is null, and the TypeError is a read of null |
| Gateway.OptionalContentFound | app/api/generate-feedback/route.js:73-80 | a reply shaped `{choices:[{message:{content}}]}` yields its content |
| GenerateFeedback.AnswerText | app/api/generate-feedback/route.js:25 | the text of the property read `answers[i]` when it is truthy, and 'none' when it is falsy or past the end |
| GenerateFeedback.QaLine | app/api/generate-feedback/route.js:25 | the line for question i starts `Q<i+1>:`, ends with ` A:` and the answer text, and holds the text of `q.question` in between |
| GenerateFeedback.Prompt | app/api/generate-feedback/route.js:25 | the prompt starts `Review <position> interview. Q&A: `, ends with the compact `o/s/i/t/c/r` schema, and holds the Q&A section in between |
| GenerateFeedback.QaSection | app/api/generate-feedback/route.js:25 | the Q&A part of the prompt throws a TypeError exactly when some question is null |
| GenerateFeedback.QaSectionEmpty | app/api/generate-feedback/route.js:25 | empty question and answer lists make an empty Q&A section, so the prompt is still built |
| GenerateFeedback.QaSectionSingle | app/api/generate-feedback/route.js:25 | one non-null question makes a Q&A section of its own line alone |
| GenerateFeedback.QaSectionAppend | app/api/generate-feedback/route.js:25 | adding a question adds its line `Q<n+1>:<question> A:<answer>` at the end, after one space, with `answers[n]` or `none` when that answer is falsy or missing |
| GenerateFeedback.Validate | app/api/generate-feedback/route.js:9-35 | a falsy position/questions/answers gives 400 'Position, questions, and answers are required'; otherwise a non-array list gives 400 'Questions and answers must be arrays' (empty arrays pass); a null question throws; a missing or empty key gives 500 'OpenRouter API key not configured'; the prompt is sent exactly when all checks pass, and it embeds the position and the Q&A lines |
| GenerateFeedback.Prepare | app/api/generate-feedback/route.js:5-35 | a body that does not parse or is null fails with a runtime error; otherwise the three destructured fields go to the checks |
| GenerateFeedback.Normalize | app/api/generate-feedback/route.js:83-94 | a null parse result fails (the reads of `parsed.o` throw); otherwise each of the four text fields is the parsed `o/t/c/r` value when truthy and its fixed default otherwise, and `strengths`/`areasForImprovement` are `parsed.s`/`parsed.i` exactly when those are arrays and the one-element default list otherwise |
| GenerateFeedback.NormalizeComplete | app/api/generate-feedback/route.js:87-94 | every text field of a normalized feedback is truthy |
| GenerateFeedback.NormalizeCompact | app/api/generate-feedback/route.js:87-94 | a feedback with truthy text fields, written in the `o/s/i/t/c/r` schema, normalizes back to itself |
| GenerateFeedback.NormalizeIdempotent | app/api/generate-feedback/route.js:87-94 | normalizing a normalized feedback written back in the compact schema changes nothing |
| GenerateFeedback.FromData | app/api/generate-feedback/route.js:70-99 | null reply data throws; falsy content gives 500 'Invalid response format from OpenRouter'; content that does not parse or parses to null gives 500 'Failed to parse feedback from response'; otherwise 200 with the normalized feedback; status 200 comes exactly with a feedback body, whose text fields are all truthy |
| GenerateFeedback.Interpret | app/api/generate-feedback/route.js:37-70 | a rejected fetch is a runtime error; a non-OK reply keeps the upstream status with 'OpenRouter API error: ' followed by the reply text, except that a 304 reply is a runtime error answered 500; a reply body that does not parse is a runtime error; otherwise FromData |
| GenerateFeedback.Post | app/api/generate-feedback/route.js:3-110 | status 200 exactly when feedback is returned, and returned feedback implies a configured key and truthy text fields |
| GenerateFeedback.FailsClosed | app/api/generate-feedback/route.js:29-37 | without a key the answer is 400 or 500 and is the same whatever the upstream would do |
| GenerateFeedback.FeedbackReturned | app/api/generate-feedback/route.js:73-102 | a well-shaped reply whose content parses to a non-null value gives 200 with that value normalized |
| AiGenerateQuestions.Prompt | app/api/ai-model/generate-questions/route.js:30-33 | the prompt starts `Generate <count> technical interview questions for a <level> <role>`, continues with ` position.`, a new line and `Required skills: `, then holds the skills joined by ', ', and ends with the sentence asking for JSON objects with 'question' and 'answer' fields and the request for only the JSON array |
| AiGenerateQuestions.Validate | app/api/ai-model/generate-questions/route.js:12-33 | a falsy role/level/skills gives 400 'Missing required fields' before the key check; then a missing or empty key gives 500 'OpenRouter API key is not configured'; then a non-array `skills` throws at `join`; the prompt is sent exactly when all pass, and it embeds the count, level, role and skills joined by ', ' |
| AiGenerateQuestions.Prepare | app/api/ai-model/generate-questions/route.js:9-33 | `numQuestions` defaults to 5 only when undefined; a body that does not parse or is null fails with a runtime error; every rejection is a 400 or 500 error and a sent prompt implies a configured key |
| AiGenerateQuestions.DefaultOpening | app/api/ai-model/generate-questions/route.js:30 | the opening for the default count starts 'Generate 5 ' (the count followed by a space, so not 50), whatever the level and role |
| AiGenerateQuestions.DefaultPromptStart | app/api/ai-model/generate-questions/route.js:30 | a prompt built with the default count starts 'Generate 5 ', whatever the level, role and skills |
| AiGenerateQuestions.DefaultAsksForFive | app/api/ai-model/generate-questions/route.js:9-33 | without `numQuestions` the prompt starts 'Generate 5 ' |
| AiGenerateQuestions.WellFormed | app/api/ai-model/generate-questions/route.js:86 | only an object with own `question` and `answer` properties can pass the element check |
| AiGenerateQuestions.FirstBad | app/api/ai-model/generate-questions/route.js:85-89 | the `forEach` stops at the lowest index whose element is null or lacks a truthy question or answer, and finds none exactly when all elements pass |
| AiGenerateQuestions.Check | app/api/ai-model/generate-questions/route.js:80-91 | a non-array or empty array gives 500 'Invalid questions format received'; the lowest bad element gives a TypeError if null and otherwise 500 'Invalid question format at index <i>'; status 200 exactly when all elements pass, and then the parsed array is returned unchanged |
| AiGenerateQuestions.StrictContent | app/api/ai-model/generate-questions/route.js:68 | the unguarded `data.choices[0].message.content` throws a read-of-null TypeError exactly when `data`, `choices`, `choices[0]` or `message` is null or missing; otherwise it agrees with the optional-chain read |
| AiGenerateQuestions.Read | app/api/ai-model/generate-questions/route.js:68 | `o[k]` throws exactly when `o` is null or undefined, and otherwise reads what `o?.[k]` reads |
| AiGenerateQuestions.StrictContentFound | app/api/ai-model/generate-questions/route.js:68 | a reply shaped `{choices:[{message:{content}}]}` yields its content |
| AiGenerateQuestions.FromData | app/api/ai-model/generate-questions/route.js:67-91 | a TypeError while reading the content is answered 500; content that is undefined or does not parse gives 500 'Invalid response format from OpenRouter'; otherwise Check; every answer is a 500 error or a 200 with well-formed questions |
| AiGenerateQuestions.Interpret | app/api/ai-model/generate-questions/route.js:36-67 | a non-OK reply gives 500, not the upstream status, with 'OpenRouter API error: <status> <statusText>'; a rejected fetch or unparseable reply body is a runtime error; otherwise FromData |
| AiGenerateQuestions.Post | app/api/ai-model/generate-questions/route.js:7-99 | the status is always 200, 400 or 500; 200 exactly when questions are returned, and then the key is configured and the list is non-empty with every element well formed |
| AiGenerateQuestions.FailsClosed | app/api/ai-model/generate-questions/route.js:20-27 | without a key the answer is 400 or 500 and is the same whatever the upstream would do |
| AiGenerateQuestions.QuestionsReturned | app/api/ai-model/generate-questions/route.js:67-91 | a well-shaped reply whose content parses to a non-empty array of well-formed questions returns that array unchanged |
| GenerateQuestions.Prompt | app/api/generate-questions/route.js:14 | the prompt starts `Generate 5 interview questions for a <position>` and ends by asking for only a JSON array |
| GenerateQuestions.Validate | app/api/generate-questions/route.js:7-14 | rejected exactly when position or type is falsy, with 400 'Position and type are required'; otherwise the prompt embeds both |
| GenerateQuestions.Prepare | app/api/generate-questions/route.js:5-14 | a body that does not parse or is null fails with a runtime error; otherwise the two destructured fields go to the one check, with no credential check |
| GenerateQuestions.PromptAsksForFive | app/api/generate-questions/route.js:14 | every prompt sent asks for exactly 5 questions and names the position and the interview type |
| GenerateQuestions.FromData | app/api/generate-questions/route.js:48-66 | null reply data throws; falsy content gives 500 'Invalid response received from OpenRouter'; a parse failure or a non-array both give 500 'Failed to parsing questions from response'; an array is returned unchanged, empty or not; 'Response is not an array' never reaches the response |
| GenerateQuestions.Interpret | app/api/generate-questions/route.js:16-55 | a non-OK reply keeps the upstream status with 'OpenRouter API error: ' followed by the reply text, except that a 304 reply is a runtime error answered 500; a rejected fetch or unparseable reply body is a runtime error; otherwise FromData |
| GenerateQuestions.Post | app/api/generate-questions/route.js:3-73 | status 200 exactly when questions are returned; a falsy position or type gives 400 'Position and type are required' |
| GenerateQuestions.ArrayReturnedUnchanged | app/api/generate-questions/route.js:48-66 | a well-shaped reply whose content parses to an array returns it unchanged, whatever its length and elements |

## Left out

- `fetch`, `request.json()`, `response.json()`, `response.text()` and `JSON.parse` are library and network calls. They are parameters or given values, not implementations. `response.text()` is taken never to reject.
- The model name, `temperature`, `max_tokens`, the request headers (including the bearer key and `HTTP-Referer`) and the system messages are not modelled: the handlers send them but never inspect them. Only the user prompt is modelled. Whatever they cause upstream is covered by `fetch` being an arbitrary function of the prompt: for example a 401 for a missing or bad key, which two routes pass through, or content cut short by `max_tokens`, which fails to parse.
- `console.log` and `console.error` are not modelled.
- Numbers are integers. Fractional numbers and JavaScript's exponent form for numbers of 1e21 and more are not modelled in prompts or in `JSON.parse` results.
- Property reads model own properties of objects, plus array and string indices and `length`. Inherited members are not modelled; none of the names the routes read is one. A JSON object with its own `toString` key makes `String(obj)` throw a TypeError in JavaScript, because that key holds a string, not a function; the model converts every object to '[object Object]'.
- String indices are characters, not UTF-16 code units. The 2^32 − 2 bound on array indices is not modelled.
- The exact text of the engine's TypeError and SyntaxError messages is not modelled; they are the `Fault` values.
- AiGenerateQuestions.Post: the outer catch's fallback 'Failed to generate questions' is not modelled. It applies only to an empty error message, and every message these handlers can throw is non-empty.
- Upstream statuses are limited to 200–599, the range a fetch Response carries. Within it, 304 is the only non-OK status that a Response with a body rejects; that case is modelled.
- The other parts of the application are not part of this model: the creation page, authentication and session handling, the Supabase client, layouts and the prompt constants. They are orchestration over SDK calls and UI.
