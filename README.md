# Digital twin: RAG pipeline and MCP dispatcher, modelled in Dafny

This project models the logic of a portfolio site's "digital twin". The site has two small layers around two external services, an Upstash vector store and the Groq chat-completion API:

- **The answer pipeline** (`queryDigitalTwin` in `app/actions/digital-twin.ts`). It validates a question and queries the vector store for the three closest profile snippets. It keeps the matches that have content, builds a grounded prompt, asks the chat model, and returns `{success, answer, sources}` or `{success: false, error}`. `getDatabaseInfo` and `listTopics` come from the same file.
- **The MCP endpoint** (`app/api/mcp/route.ts`). `POST` is a stateless JSON-RPC 2.0 dispatcher over the methods `ping`, `query`, `status`, `topics` and `initialize`. It uses the error codes of section 5.1 of the JSON-RPC 2.0 Specification. `GET` returns a static discovery document.

Files:

- `wrappers.dfy`: `Option`, used for JavaScript properties that may be `undefined`.
- `js_values.dfy` (module `JsValues`): the JavaScript semantics the code relies on. This covers parsed JSON values, truthiness and `x || null`, template-literal string conversion, and `String.prototype.trim`. It uses ECMAScript's full WhiteSpace and LineTerminator set. It also covers `Array.prototype.join` and the `e instanceof Error ? e.message : fallback` idiom.
- `digital_twin.dfy` (module `DigitalTwin`): the pipeline, `getDatabaseInfo` and `listTopics`.
- `mcp_route.dfy` (module `McpRoute`): the handlers, `POST`, `createErrorResponse` and `GET`.

The external services are inputs. A `World` value holds three things: the credentials in the environment, what the store answers to the query, and what the chat model and `index.info` answer. Each result also carries the list of external calls the code made, with their arguments. This makes "no external call is made" and "the model receives this prompt" statable as properties.

The extraction loop (lines 118-131) fills two arrays in place. It is modelled twice. `CollectSources` is a method with the same `for` loop, proved equal to the specification function `Extract`. The pipeline function uses `Extract`, and the lemmas about ordering and filtering are stated over `Extract`.

Points where the code departs from a plain reading of the protocol:

- **Error-path ids.** JSON-RPC 2.0 has an error response carry the request's id. The code replaces a falsy id (absent, `0`, `""`, `false`, `null`) with `null` on the version-check path and in `createErrorResponse`. The catch-all always uses `null`. Successful responses echo the id exactly.
- **Readiness.** `initialize` tests `vectorCount === 0` after `|| 0`. With counts as `nat`, it is ready exactly when the count is positive.
- **HTTP status.** Every `createErrorResponse` is sent with HTTP 400, including "method not found".
- **Unconvertible method names.** `Method not found: ${body.method}` is built inside the `try`. A method that is an object with its own `toString` member, or an array holding one, makes the template literal throw a TypeError, and the catch-all answers -32603 with HTTP 500 and a null id.

## Model

| member | source | states |
|---|---|---|
| JsValues.OrNull | app/api/mcp/route.ts:44 | `id \|\| null`: a truthy id is kept unchanged, any falsy or absent id becomes null, and the result is null or truthy |
| JsValues.MessageOr | app/actions/digital-twin.ts:190 | `e instanceof Error ? e.message : fallback`: an Error gives its message, any other thrown value gives the fallback |
| JsValues.NatToString | app/api/mcp/route.ts:78 | `String(n)` for a non-negative number is a non-empty run of decimal digits that starts with '0' exactly when n is 0 |
| JsValues.NatToStringValue | app/api/mcp/route.ts:78 | reading those digits back as a decimal number gives n |
| JsValues.IntToString | app/api/mcp/route.ts:78 | `String(n)` for an integer starts with '-' exactly when n is negative; the rest is a non-empty run of decimal digits with no leading '0' unless n is 0 |
| JsValues.IntToStringValue | app/api/mcp/route.ts:78 | reading the sign and the digits back gives n |
| JsValues.ToString | app/api/mcp/route.ts:78 | a string converts to itself and a number to `IntToString` of it; an object throws exactly when it has its own `toString` member, and otherwise gives "[object Object]" |
| JsValues.ArrayToString | app/api/mcp/route.ts:78 | an empty array shows as ""; the lemmas below state when it throws and what it gives otherwise |
| JsValues.ArrayToStringIsJoin | app/api/mcp/route.ts:78 | an array whose elements all convert (null as "") shows as their texts joined by "," exactly as `join(",")` builds them |
| JsValues.ToStringThrowsIff | app/api/mcp/route.ts:78 | string conversion throws exactly on an object with its own `toString` or an array holding such a value at any depth |
| JsValues.ArrayToStringThrowsIff | app/api/mcp/route.ts:78 | an array's conversion (its elements joined by ",") throws exactly when one of its elements cannot be converted |
| JsValues.TemplateString | app/api/mcp/route.ts:78 | `${method}` gives "undefined" for an absent method, the string itself for a string method, "[object Object]" for a plain object, and throws for an object with its own `toString` |
| JsValues.Trim | app/actions/digital-twin.ts:172 | the trimmed text is never longer than the input; the lemmas below state what is removed |
| JsValues.IsBlank | app/actions/digital-twin.ts:73 | the empty string is blank, so `!question` is covered by the trim test |
| JsValues.TrimStart | app/actions/digital-twin.ts:73 | the result is a suffix of the input and does not start with whitespace |
| JsValues.TrimStartDropsWhitespace | app/actions/digital-twin.ts:73 | everything `TrimStart` drops is whitespace |
| JsValues.TrimEnd | app/actions/digital-twin.ts:73 | the result is a prefix of the input and does not end with whitespace |
| JsValues.TrimEndDropsWhitespace | app/actions/digital-twin.ts:73 | everything `TrimEnd` drops is whitespace |
| JsValues.BlankIffAllWhitespace | app/actions/digital-twin.ts:73 | `question.trim().length === 0` holds exactly when every character is ECMAScript whitespace |
| JsValues.TrimHasNoOuterWhitespace | app/actions/digital-twin.ts:172 | the trimmed text neither starts nor ends with whitespace |
| JsValues.TrimIdempotent | app/actions/digital-twin.ts:172 | trimming an already trimmed text changes nothing |
| JsValues.Join | app/actions/digital-twin.ts:143 | joining no elements gives "" and joining one element gives that element; the lemmas below state the general layout |
| JsValues.JoinAt | app/actions/digital-twin.ts:143 | every element occurs in `join(sep)` at its offset, and the offsets follow the element order |
| JsValues.JoinSeparator | app/actions/digital-twin.ts:143 | consecutive elements of `join(sep)` are separated by exactly `sep` |
| JsValues.JoinLength | app/actions/digital-twin.ts:143 | the joined length is the last element's offset plus its length; with `JoinAt`, the last element ends the text |
| JsValues.OffsetOfPrefix | app/actions/digital-twin.ts:143 | an element's offset depends only on the elements before it |
| DigitalTwin.ContentOf | app/actions/digital-twin.ts:124 | `metadata.content \|\| ""`: the stored content when present, and "" when the metadata or the content is missing |
| DigitalTwin.RelevanceOf | app/actions/digital-twin.ts:125 | `score \|\| 0`: the score when present, 0 otherwise |
| DigitalTwin.TitleOf | app/actions/digital-twin.ts:122-123 | the title is never empty: it is the stored title when that is non-empty, and "Information" otherwise |
| DigitalTwin.DocOf | app/actions/digital-twin.ts:128 | the snippet is the title, then ": ", then the content, with nothing else |
| DigitalTwin.SourceOf | app/actions/digital-twin.ts:129 | the source record carries the non-empty title and the relevance |
| DigitalTwin.Extract | app/actions/digital-twin.ts:118-131 | `topDocs` and `sources` always have equal length, no greater than the number of matches |
| DigitalTwin.KeptPositions | app/actions/digital-twin.ts:127 | the kept positions are strictly increasing, each has content, and every position with content is kept |
| DigitalTwin.ExtractCountsKept | app/actions/digital-twin.ts:127-130 | there is one snippet for each match that has content |
| DigitalTwin.ExtractAt | app/actions/digital-twin.ts:121-130 | the j-th snippet and source are built from the j-th match that has content |
| DigitalTwin.ExtractKeepsContentInOrder | app/actions/digital-twin.ts:118-131 | extraction keeps exactly the matches with non-empty content, in input order |
| DigitalTwin.ExtractEmptyIffNoContent | app/actions/digital-twin.ts:133 | nothing is extracted exactly when no match has content |
| DigitalTwin.SnippetsPairWithSources | app/actions/digital-twin.ts:128-129 | each snippet is its source's non-empty title, ": ", and the match's non-empty content |
| DigitalTwin.CollectSources | app/actions/digital-twin.ts:118-131 | the imperative loop that pushes into the two arrays computes exactly `Extract` |
| DigitalTwin.UserPrompt | app/actions/digital-twin.ts:145-153 | the user message starts with the fixed instructions and ends with the fixed closing line, and its length is the sum of its five parts |
| DigitalTwin.UserPromptLayout | app/actions/digital-twin.ts:145-153 | the user prompt starts with the fixed instructions, then holds the context, then "Question: " and the question, then the fixed closing line, with nothing in between |
| DigitalTwin.AnswerText | app/actions/digital-twin.ts:172 | the answer is never empty and never has surrounding whitespace; it is the trimmed completion when that is non-empty and "Unable to generate response" otherwise |
| DigitalTwin.QueryDigitalTwin | app/actions/digital-twin.ts:71-193 | a blank question fails with "Question cannot be empty" and makes no call; the store is queried (with the question, topK 3) exactly when the question is not blank and the vector credentials are present; when the model is reached the calls are exactly that query then one chat request built from the extracted snippets; at most two calls are made, and a second call other than `info` only happens on the model path; a non-empty `sources` list only comes from the model path and equals the extracted sources |
| DigitalTwin.NoMatchesGivesFixedAnswer | app/actions/digital-twin.ts:101-115 | no matches: success with the fixed "no specific information" answer and no sources; the calls are the query and the diagnostic `info`, never the model |
| DigitalTwin.NoContentGivesFixedAnswer | app/actions/digital-twin.ts:133-139 | matches without content: success with the fixed "couldn't extract" answer and no sources; only the query is made, and the Groq key is never checked |
| DigitalTwin.MissingVectorCredentialsFail | app/actions/digital-twin.ts:46-48 | missing store credentials fail with the thrown message and make no call |
| DigitalTwin.StoreFaultFails | app/actions/digital-twin.ts:88-99 | a failing store query fails with its message, or "Unknown error occurred" when the thrown value is not an Error |
| DigitalTwin.MissingGroqKeyFails | app/actions/digital-twin.ts:57-62 | with content to send, a missing Groq key fails with the thrown message before the model is called |
| DigitalTwin.ModelFailureReported | app/actions/digital-twin.ts:179-185 | a failing chat call fails with "Groq API error: " followed by the upstream message, or "Unknown error" |
| DigitalTwin.ModelSuccessAnswers | app/actions/digital-twin.ts:172-178 | a successful chat call answers with `AnswerText` of the completion, and the sources are the extracted sources unchanged |
| DigitalTwin.ModelCalledOnceIffReached | app/actions/digital-twin.ts:141-170 | the chat model is called once when the question is valid, the credentials are present and content was extracted, and never otherwise |
| DigitalTwin.ModelRequest | app/actions/digital-twin.ts:156-170 | the chat request uses the model "llama-3.1-8b-instant", the fixed system prompt, and the user prompt built from the joined snippets and the question |
| DigitalTwin.PromptHoldsEverySnippet | app/actions/digital-twin.ts:143-153 | the context part of the user prompt, between the instructions and "Question: ", holds every snippet at its offset in the joined context, so the snippets appear in order |
| DigitalTwin.GetDatabaseInfo | app/actions/digital-twin.ts:198-216 | success exactly when the credentials are present and `info` resolves; missing counts become 0, a present non-empty metric is passed through, and a missing or empty metric becomes "unknown"; otherwise success is false with the thrown message |
| DigitalTwin.ListTopics | app/actions/digital-twin.ts:221-238 | always the same eight distinct topics |
| McpRoute.HandleQuery | app/api/mcp/route.ts:159-171 | a pipeline answer becomes `{answer, sources, question}`; a pipeline failure is re-thrown with its error, or "Query failed" when the error is empty; a non-string question throws before any call |
| McpRoute.HandleStatus | app/api/mcp/route.ts:173-186 | never throws; `database.connected` equals `dbInfo.success`; the counts are the database's when connected and 0 otherwise |
| McpRoute.HandleTopics | app/api/mcp/route.ts:188-195 | `count` equals the length of the topic list (8), and no external call is made |
| McpRoute.HandleInitialize | app/api/mcp/route.ts:197-220 | throws "Failed to connect to database: " with the error when the database info is unsuccessful; otherwise `initialized` is false exactly when `vectorCount` is 0, and the uninitialized result carries the full database info |
| McpRoute.CreateErrorResponse | app/api/mcp/route.ts:148-157 | an error with the given code and message, HTTP 400, a truthy id echoed unchanged and a falsy id replaced by null |
| McpRoute.InternalErrorResponse | app/api/mcp/route.ts:89-102 | the catch-all: code -32603, HTTP 500, id null, and the Error's message or "Internal error" |
| McpRoute.Dispatch | app/api/mcp/route.ts:53-79 | the switch falls to "method not found" exactly when the method is not one of the five handled strings, and ends in the missing-parameter error exactly for `query` without a truthy `params.question` |
| McpRoute.Post | app/api/mcp/route.ts:31-103 | every response has `jsonrpc` "2.0"; a success echoes the request id exactly and is sent with HTTP 200; error codes are the four JSON-RPC codes; -32603 goes with HTTP 500 and a null id, the others go with HTTP 400, make no call, and keep a truthy id |
| McpRoute.WrongVersionRejected | app/api/mcp/route.ts:36-48 | a `jsonrpc` other than "2.0" gives -32600 with HTTP 400 whatever the method, with the id normalised, and nothing is called |
| McpRoute.UnknownMethodRejected | app/api/mcp/route.ts:77-78 | a method that is not one of the five handled names and that a template literal can convert (absent, a string, a number, a plain object) gives -32601 with "Method not found: " and the method as the template literal shows it, and nothing is called |
| McpRoute.UnconvertibleMethodFails | app/api/mcp/route.ts:76-101 | a method the template literal cannot convert makes the default case throw, and the catch-all answers -32603 with the TypeError's message, HTTP 500 and a null id, with no call |
| McpRoute.MissingQuestionRejected | app/api/mcp/route.ts:58-61 | `query` without a truthy `params.question` gives -32602 with HTTP 400, and the pipeline is never run |
| McpRoute.QueryOutcome | app/api/mcp/route.ts:58-63 | `query` makes exactly the pipeline's calls; a failed pipeline becomes -32603 with a null id; an answer is returned with the request id |
| McpRoute.InitializeReadiness | app/api/mcp/route.ts:73-75 | `initialize` returns a result exactly when the database info succeeds; then `initialized` holds exactly when the vector count is positive; otherwise it is -32603 with a null id |
| McpRoute.StatusReportsConnection | app/api/mcp/route.ts:65-67 | `status` always returns a result with the request id, and `connected` holds exactly when the introspection succeeds |
| McpRoute.TopicsCounted | app/api/mcp/route.ts:69-71 | `topics` returns the eight topics with count 8 and makes no call |
| McpRoute.PingIsConstant | app/api/mcp/route.ts:54-56 | `ping` returns the constant `{status: "ok", message}` payload with the request id and makes no call |
| McpRoute.DispatchedNames | app/api/mcp/route.ts:53-79 | the switch handles a method name exactly when it is ping, query, status, topics or initialize, and every other name ends in "method not found" |
| McpRoute.Get | app/api/mcp/route.ts:108-144 | the discovery document has version "1.0.0", endpoint "/api/mcp" and five methods, the second being `query` with its one `question` parameter |
| McpRoute.DocumentedNamesAreDispatched | app/api/mcp/route.ts:113-139 | the discovery document lists ping, query, status, topics and initialize |
| McpRoute.DiscoveryMatchesDispatch | app/api/mcp/route.ts:108-144 | a name is listed by `GET` exactly when `POST`'s switch handles it |
| McpRoute.OnlyQueryNeedsParams | app/api/mcp/route.ts:58-61 | only `query` can end in the missing-parameter error |
| McpRoute.OnlyQueryDocumentsParams | app/api/mcp/route.ts:119-123 | in the discovery document, a method lists parameters exactly when it is `query` |

## Left out

- Network and SDK behaviour of `index.query`, `index.info` and `groq.chat.completions.create`. Their results are inputs, and which calls were made is recorded.
- The `topK: 3` request to the store is recorded in the call but not enforced. The store may return any number of matches in any order.
- The answer of the diagnostic `index.info()` in the no-match branch is discarded. The model records the call only.
- A `null` result from `index.query` is treated like an empty list. The code handles both with the same branch.
- Scores are opaque `real` values that are passed through. Floating-point semantics, `NaN` and `-0` are not modelled.
- JSON numbers are modelled as integers. Fractional ids and their string form are not modelled. `JSON.parse` reads numbers as doubles, so integers beyond 2^53 are rounded (9007199254740993 reads as 9007199254740992), and `String()` writes magnitudes from 1e21 in exponent form ("1e+21"). For such numbers an echoed id and the text of "Method not found: ${method}" differ from the model's `IntToString`.
- The sampling parameters of the chat request (`temperature: 0.7`, `max_tokens: 500`) are not modelled. The request records the snippets and the question, and its model name, system prompt and user prompt are derived from them.
- Three fault messages are the V8 engine's TypeError texts: reading `jsonrpc` of a `null` body, calling `trim` on a non-string question, and the template-literal conversion of a method that is an object with its own `toString` (or an array holding one), "Cannot convert object to primitive value". Other engines word them differently.
- `request.json()` parsing is an input: a body either fails to parse, carrying the thrown value, or is a JSON value.
- Console logging, `async`/`await` sequencing and `NextResponse` serialisation are not modelled. The HTTP status is a field of error responses, and 200 for successes.
- `getVectorIndex` and `getGroqClient` are not separate members. Their credential checks are the predicates `VectorCredentialsPresent` and `Present`.
- `listTopics`'s catch branch returning `[]` cannot be reached, because the try block only returns a literal.
- `app/page.tsx`, `app/layout.tsx` and `app/api/test/route.ts` are presentation and environment reporting, and are not part of this model.
