# AIClient-2-API request dispatch, modelled in Dafny

AIClient-2-API is a proxy server. Clients speak one of three chat protocols:
OpenAI chat completions, Claude messages or Gemini `generateContent`. The
configured backend provider may speak a different one. `src/common.js` is the
dispatch layer in between. It authorises each request, validates the body and
converts it to the backend's protocol family. It then calls the backend and
relays the answer to the client, unary or as a Server-Sent-Events stream,
converting it back to the client's family. Failures are reported as a
Claude-style JSON error envelope. Failing providers are marked unhealthy in the
provider pool. Prompts and answers go to the conversation log.

The model covers that layer, one Dafny module per concern:

- `Protocol`: protocol families. `getProtocolPrefix` gives the text before the
  first hyphen, and every conversion decision compares these prefixes.
- `Auth`: `isAuthorized` and its four ways of presenting the API key.
- `Expiry`: `formatExpiryTime`, with the clock as a parameter.
- `GeminiRoles`: `ensureRolesInContents`. This is a class over the request
  body whose `contents` array is updated in place by a loop.
- `Sink`: the objects a handler changes. These are the HTTP response (status
  line, body text, ended flag), the provider pool's unhealthy marks and the
  conversation log (`logConversation`'s rule). It also defines the `Effects`
  record, which sums up what a handler did to all three.
- `Errors`: `handleError`, covering status selection, classification, the
  envelope and the write.
- `Collaborators`: what the layer calls but does not contain. The conversion
  engine (`convertData`, `getOpenAIStreamChunkStop`), the per-family
  strategies and the backend adapter are function-valued parameters, and
  whatever they throw is an `Err`. Every property below therefore holds for any
  behaviour of theirs.
- `Streaming`: `handleStreamRequest`. The per-chunk loop is a method proved
  against a fold (`Consume`) over the chunks. That fold is related to an
  independent reference definition (`Frames`, `Transcript`).
- `Unary`: `handleUnaryRequest`, including the Claude envelope fix-ups.
- `SystemPrompt`: `extractSystemPromptFromRequestBody`.
- `Pipeline`: `handleContentGenerationRequest`. It runs the four 400
  rejections, the conversion, the best-effort system-prompt and prompt-log
  stages, then dispatches to the stream or unary handler, with `handleError`
  for whatever those rethrow.

JavaScript values are a `JsValue` datatype, with objects as ordered member
lists. `JSON.stringify`, template-literal string conversion and truthiness are
written out. Each handler method is specified by a function that returns its
`Effects`. The twostate predicate `Sink.Applied` ties the response, pool and
log after the call to their state before it plus those effects.

Where the code behaves differently from what its comments and documentation
describe, the model follows the code:

- A stream failure after the first chunk is sent as raw JSON through
  `res.end`, not as an SSE `data:` frame (`src/common.js:291-300`).
- A failure of `generateContentStream` itself happens outside the handler's
  `try` (`src/common.js:241`). So no provider is marked unhealthy, and
  `handleError` runs after the SSE status line was already written. The client
  sees status 200 and then the error envelope.
- When `_manageSystemPrompt` fails after `_applySystemPromptFromFile`
  succeeded, the applied body is kept (`src/common.js:610-623`).
- Stream conversion converts the extracted `chunkText`, not the native chunk
  (`src/common.js:257-259`).
- The body-missing rejection fires only for a falsy parsed body.
  `getRequestBody` turns an empty body into `{}`.

## Model

| member | source | states |
|---|---|---|
| Protocol.ProtocolPrefix | src/common.js:36-42 | the family prefix is the text before the first hyphen when there is one, else the whole identifier (`IsFamilyPrefix`) |
| Protocol.IndexOf | src/common.js:37 | `indexOf("-")` is -1 exactly when there is no hyphen, and otherwise the position of the first one |
| Protocol.FamilyPrefixUnique | src/common.js:36-42 | exactly one string satisfies the prefix rule for a given provider, so the function is determined by it |
| Protocol.PrefixCharacterization | src/common.js:36-42 | for a hyphen-free family name f, the prefix is f iff the provider is f or starts with `f-` |
| Protocol.PrefixIdempotent | src/common.js:36-42 | taking the prefix of a prefix changes nothing |
| Protocol.FamilyOf | src/common.js:36-42 | a provider written `f-...` with hyphen-free f belongs to family f |
| Protocol.KnownProviderFamilies | src/common.js:14-28 | every known provider maps to the family its name promises |
| Protocol.NeedsConversion | src/common.js:242-243 | conversion is needed iff the two providers' family prefixes differ; `NeedsConversionByFamily` states it for family names |
| Protocol.SameFamilyNeverConverts | src/common.js:559 | kiro-api and claude-custom, claude and kiro-api, openai and qwen-api never trigger conversion; openai and kiro-api, claude and gemini-cli do |
| Protocol.NeedsConversionByFamily | src/common.js:242-243 | for any two providers named after hyphen-free families f and g (the family itself or `f-...`), conversion is needed iff f and g differ |
| Protocol.NeedsConversionSymmetric | src/common.js:242-243 | a provider never converts to itself, and the conversion test is symmetric |
| Protocol.ClientProtocol | src/common.js:535-541 | the client family is openai exactly for the OpenAI chat endpoint, claude exactly for the Claude messages endpoint, gemini exactly for the Gemini content endpoint, and absent for every other endpoint |
| Auth.SearchParam | src/common.js:161 | `searchParams.get` returns the value of the first pair carrying the name, and null only when no pair carries it |
| Auth.BearerToken | src/common.js:166-167 | a token exists iff the header starts with `Bearer `, and the header is `Bearer ` followed by the token |
| Auth.IsAuthorized | src/common.js:159-192 | authorised iff the Authorization header is `Bearer <key>`, or the first `key` query parameter, `x-goog-api-key` or `x-api-key` equals the key |
| Auth.BearerIsCaseSensitive | src/common.js:166 | a lower-case `bearer ` scheme is not accepted |
| Auth.FirstQueryKeyCounts | src/common.js:161-176 | only the first `key` query parameter is compared, and a later correct one does not authorise |
| Expiry.Pad2 | src/common.js:71 | `padStart(2, "0")` yields at least two digits, and exactly two below 100 |
| Expiry.Pad2Value | src/common.js:71 | the padded text still reads back as the number |
| Expiry.ReadDurationFields | src/common.js:72 | a `HHh MMm SSs` text with hours padded to two digits and without a leading zero beyond them, and minutes and seconds below 60, reads back as its three fields |
| Expiry.DurationTextReadsBack | src/common.js:66-72 | the hours/minutes/seconds text reads back as exactly the number of whole seconds, by a reader that accepts only `padStart(2, '0')` hours and minutes and seconds below 60 |
| Expiry.Pad2Hours | src/common.js:72 | hours padded to two digits have at least two digits and a leading zero only when they have exactly two |
| Expiry.FormatExpiryTime | src/common.js:61-73 | a falsy or non-numeric timestamp has no expiry date; a past or present one has expired; a future one gives a text that reads back as the whole seconds left, `floor((expiry - now) / 1000)` |
| Expiry.RemainingText | src/common.js:63-72 | for a positive number of milliseconds left, the text reads back as exactly `Math.floor(diffMs / 1000)` seconds |
| GeminiRoles.DefaultRolesAt | src/common.js:92-98 | the role fill-in keeps the length and acts entry by entry |
| GeminiRoles.DefaultRoles | src/common.js:92-98 | the `contents` array after the role fill-in; `DefaultRolesAt` and `DefaultRolesProperties` state its meaning |
| GeminiRoles.DefaultRolesProperties | src/common.js:92-98 | afterwards every entry has a role, the parts are unchanged, existing roles are kept and missing ones become `user` |
| GeminiRoles.DefaultRolesIdempotent | src/common.js:92-98 | normalising twice is normalising once |
| GeminiRoles.NormalizedSystemInstructionProperties | src/common.js:83-90 | the snake-case instruction wins; the result exists iff an instruction does; the chosen instruction keeps its parts and an existing role, and gets the role `user` when it had none; normalising again changes nothing |
| GeminiRoles.NormalizedSystemInstruction | src/common.js:83-90 | the system instruction after the rename and the role default; `NormalizedSystemInstructionProperties` states its meaning |
| GeminiRoles.GeminiRequest.EnsureRolesInContents | src/common.js:82-100 | in place: the snake-case key is removed, the system instruction is normalised, and the same `contents` array holds every entry with its role defaulted (untouched when not an array) |
| Sink.LogEntryFor | src/common.js:130-150 | an entry is written iff the content is truthy and the mode is `console` or `file`; mode `none` writes nothing; the entry carries the direction and the content's text, and goes to the file iff the mode is `file` |
| Sink.PromptLog.LogConversation | src/common.js:130-150 | the log grows by exactly the entry `LogEntryFor` prescribes |
| Errors.StatusOf | src/common.js:722-723 | the status is `statusCode` if set, else `response.status` if set, else `status` if set, else 500; never 0 |
| Errors.ErrorType | src/common.js:729-795 | each error type corresponds exactly to its statuses: 401, 403, 404 and 429 have their own types; other 4xx are `invalid_request_error`; below 400 or from 500 up is `api_error` |
| Errors.ClientMessage | src/common.js:729-795 | the client message is never empty, and outside the special statuses it ends with the error's own message |
| Errors.Suggestions | src/common.js:729-795 | suggestions are given iff the status is 400 or more |
| Errors.Classify | src/common.js:726-795 | the whole status switch; its type, message and suggestions are those stated for `ErrorType`, `ClientMessage` and `Suggestions` |
| Errors.OptionalMembersKeys | src/common.js:831-836 | `suggestions` is present iff there are suggestions, and `details` iff `response.data` is truthy |
| Errors.EnvelopeFieldsShape | src/common.js:819-836 | the inner error object carries the type, the message and the code, `suggestions` as the array of suggestion strings exactly when there are any, and `details` as the response data exactly when it is truthy |
| Errors.EnvelopeShape | src/common.js:819-836 | the envelope is `{type: "error", error: {...}}` with the inner members above, their values included |
| Errors.ErrorPayload | src/common.js:721-838 | the envelope handleError sends for an error; `ErrorPayloadShape` states its shape |
| Errors.ErrorPayloadShape | src/common.js:721-838 | for every error the payload is Claude-shaped, with the classified type, the status as `code`, the status's suggestion list iff the status is 400 or more, and `response.data` as details iff it is truthy |
| Errors.DefaultIsServerError | src/common.js:773-784 | an error without a status is a 500 `api_error` with the temporary-server-error message and the retry suggestions |
| Errors.HandleError | src/common.js:811-838 | the status line is written with the error's status only when headers have not been sent; the serialised envelope is then written once and the response ended |
| Collaborators.StrategyByFamily | src/common.js:685-719 | the helpers pick a strategy by family alone, so two providers of one family are treated identically |
| Collaborators.KnownProvidersUseFamilyStrategy | src/common.js:707-712 | each known provider's response text is read by its family's strategy |
| Streaming.TextPiece | src/common.js:252-255 | the transcript grows by the chunk text exactly when that text is truthy and not an array |
| Streaming.Sendable | src/common.js:261-263 | a chunk is sent iff it is truthy, and then unchanged |
| Streaming.Frame | src/common.js:265-272 | a sent chunk is one `data:` line, preceded by an `event:` line for Claude clients |
| Streaming.StepChunk | src/common.js:252-263 | a failed text extraction adds no text and fails the step; a chunk is sent only when truthy; `CrossFamilySendsConvertedText` and `SameFamilyForwardsNativeChunks` state what is sent |
| Streaming.CrossFamilySendsConvertedText | src/common.js:252-263 | across families the step's text is the extracted text, a failed conversion fails the step with its error, and otherwise the converted chunk is sent iff it is truthy |
| Streaming.Consume | src/common.js:249-274 | the loop over the chunks as a fold; `ConsumeWithoutFailure` and `ConsumeStopsAtFirstFailure` state its meaning |
| Streaming.ConsumeOneMore | src/common.js:250-274 | the loop over a prefix one chunk longer adds that chunk's frames, text and failure, field by field |
| Streaming.ConsumeLast | src/common.js:250-274 | one more successful chunk extends the reference frames and transcript by its own |
| Streaming.ConsumeWithoutFailure | src/common.js:250-274 | when every chunk succeeds, the loop writes exactly the reference frames and collects exactly the reference transcript |
| Streaming.ConsumeAfterFailure | src/common.js:249-279 | once a chunk fails, later chunks change neither the output nor the text |
| Streaming.ConsumeStopsAtFirstFailure | src/common.js:249-279 | the first failing chunk ends the loop: the frames of the chunks before it, its own text, and its failure |
| JsValues.StringifySingleLine | src/common.js:272 | `JSON.stringify` never produces a line break, so a `data:` line carries the whole payload on one line |
| Streaming.DataLineIsEvent | src/common.js:272 | each data frame is one `data: ` line ending in a blank line, whatever the chunk |
| Streaming.StepFramesShape | src/common.js:261-272 | a chunk yields nothing, one data frame, or for Claude an event line then a data frame |
| Streaming.FramesAllData | src/common.js:265-272 | non-Claude clients receive only data frames |
| Streaming.FramesPaired | src/common.js:265-272 | Claude clients receive strictly alternating event and data lines |
| Streaming.StreamBodyEnding | src/common.js:275-303 | after the relayed frames: the raw error JSON when the loop failed; for a converted OpenAI stream, the stop chunk, or the error JSON when building it failed; otherwise nothing |
| Streaming.CaughtFailure | src/common.js:249-279 | the catch block receives the loop's failure, or else the stop chunk's failure when a stop chunk is due and cannot be built |
| Streaming.SameFamilyForwardsNativeChunks | src/common.js:257-259 | within one family the native chunk is sent as it is (when truthy), and the engine is not consulted |
| Streaming.StreamErrorPayloadShape | src/common.js:291-298 | the stream error JSON carries the fixed message and the failure's message as details, on a single line |
| Streaming.RelayChunk | src/common.js:250-273 | one iteration appends exactly that chunk's frames and returns its text piece and outcome |
| Streaming.RelayChunks | src/common.js:249-278 | the loop appends exactly the frames of the fold over the chunks, and returns its transcript and first failure |
| Streaming.CloseStream | src/common.js:275-304 | after the loop: the closing text is appended, the response ended with its status unchanged, and the provider marked unhealthy iff the loop or the stop chunk failed |
| Streaming.HandleStreamRequest | src/common.js:220-314 | status 200 first; an open failure is rethrown with nothing else done; otherwise the body, the end of the response, an unhealthy mark iff the loop or the stop chunk failed, and the transcript logged as output |
| Streaming.StreamHandling | src/common.js:220-314 | the effects and rethrown failure of the stream handler; `HandleStreamRequest`, `StreamBodyEnding` and `Pipeline.HandlerRethrowsBeforeEnd` state them |
| Unary.EmptyResponseRejected | src/common.js:334-336 | a falsy backend response is the 500 error `Empty response received from service` |
| Unary.SameFamilyPassesThrough | src/common.js:339-355 | within one family, and for non-Claude clients, the native response is returned as it is |
| Unary.ClaudeReplyHasRequiredFields | src/common.js:357-375 | in every successful object reply to a Claude client, `id`, `type` and `role` keep the converted response's truthy value, and otherwise are the fresh id, `"message"` and `"assistant"` |
| Unary.CrossFamilyConvertsReply | src/common.js:339-375 | across families a failed response conversion is the reply's failure; otherwise a non-Claude client gets the converted response, and a Claude client the converted response after the fix-ups |
| Unary.DefaultField | src/common.js:360-371 | `if (!r.key) r.key = v` sets a falsy or missing key to the value, keeps a truthy value already there, leaves every other key alone and adds no other key |
| Unary.ClaudeFieldsFill | src/common.js:358-371 | the three fix-ups set a falsy `id` to the fresh id, a falsy `type` to `"message"` and a falsy `role` to `"assistant"`, keep truthy values already there, leave every other key alone and add only those three |
| Unary.ClaudeDefaultsFill | src/common.js:358-371 | the result is an object iff the converted response was; an object gets exactly the fixed member list, and an array is returned unchanged |
| Unary.ClaudeDefaultsIdempotent | src/common.js:358-371 | fixing a fixed response changes nothing, whatever id is offered |
| Unary.ClaudeDefaultsRejectPrimitives | src/common.js:358-371 | the fix-ups succeed iff the converted response is an object or an array, and throw a TypeError otherwise |
| Unary.WithClaudeDefaults | src/common.js:357-371 | the Claude fix-ups on a converted reply; `ClaudeDefaultsFill` (with `ClaudeFieldsFill` for the default values), `ClaudeDefaultsIdempotent` and `ClaudeDefaultsRejectPrimitives` state their meaning |
| Unary.ClientResponse | src/common.js:339-355 | the response in the client's format: converted across families, the native response within one; `CrossFamilyConvertsReply` and `SameFamilyPassesThrough` state it |
| Unary.UnaryReply | src/common.js:332-375 | the backend call, the empty check, the text extraction, the conversion and the fix-ups, stopping at the first failure; `EmptyResponseRejected`, `SameFamilyPassesThrough`, `CrossFamilyConvertsReply` and `ClaudeReplyHasRequiredFields` state its meaning |
| Unary.HandleUnaryRequest | src/common.js:316-403 | on success: status 200, the JSON, the end and the output log; on failure: nothing written, the provider marked unhealthy and the failure rethrown |
| Unary.UnaryHandling | src/common.js:316-403 | the effects and rethrown failure of the unary handler; `HandleUnaryRequest` and `Pipeline.UnaryFailureReported` state them |
| SystemPrompt.FindByRole | src/common.js:851-853 | `find` throws iff a nullish message comes before any match, and otherwise returns the first message with the role, or nothing when none has it |
| SystemPrompt.FindThrowsTail | src/common.js:851-853 | past a head message that is neither nullish nor a match, `find` throws iff it throws on the rest |
| SystemPrompt.FirstWithRoleTail | src/common.js:851-853 | past a non-matching head, the first match in the rest is the first match overall, one index later |
| SystemPrompt.NoneWithRoleTail | src/common.js:851-853 | past a non-matching head, no match in the rest means no match at all |
| SystemPrompt.TruthyTexts | src/common.js:869-870 | the filter keeps only truthy texts, never more than there are parts |
| SystemPrompt.TruthyTextsFilter | src/common.js:869-870 | no parts give no texts, a single part gives its text iff that text is truthy, and the texts of a concatenation are the concatenated texts |
| SystemPrompt.BlockTexts | src/common.js:893-895 | mapping blocks to `text` throws iff a block is nullish, and otherwise gives each block's text in order |
| SystemPrompt.ExtractSystemPromptFromRequestBody | src/common.js:847-907 | an unknown provider yields the empty prompt without reading the body; a null or undefined body throws for each known family |
| SystemPrompt.OpenAISystemText | src/common.js:850-863 | a non-empty prompt is the content of one of the messages; only a non-array `messages` or a null message makes it throw |
| SystemPrompt.GeminiSystemText | src/common.js:864-882 | a successful Gemini prompt is always text; `GeminiSnakeCaseWins`, `GeminiCamelCaseInstruction`, `GeminiPartlessSnakeCaseHidesCamelCase` and `GeminiFallsBackToFirstContent` state which parts it comes from |
| SystemPrompt.GeminiCamelCaseInstruction | src/common.js:864-871 | without a truthy `system_instruction`, a `systemInstruction` with truthy parts gives the joined texts of those parts |
| SystemPrompt.GeminiPartlessSnakeCaseHidesCamelCase | src/common.js:864-880 | a truthy `system_instruction` without parts hides `systemInstruction`, whatever it holds: the prompt falls back to the first `contents` entry |
| SystemPrompt.ClaudeSystemText | src/common.js:883-901 | a string or structured `system` never throws and always gives text |
| SystemPrompt.ClaudeSystemWins | src/common.js:884-887 | a string `system` is the prompt, and an object `system` is its JSON |
| SystemPrompt.OpenAISystemMessageWins | src/common.js:850-855 | the first system message with content is the prompt |
| SystemPrompt.TextlessPartsIgnored | src/common.js:868-871 | parts without truthy text contribute nothing |
| SystemPrompt.GeminiSnakeCaseWins | src/common.js:865-871 | a snake-case `system_instruction` with parts wins over the camel-case one |
| SystemPrompt.OpenAIFallsBackToFirstUserMessage | src/common.js:856-861 | without a system message the prompt is the content of the first user message, or empty when there is none |
| SystemPrompt.OpenAIFalsySystemContentFallsBack | src/common.js:851-861 | when the first system message has falsy content, later system messages are ignored and the prompt is the first user message's content |
| SystemPrompt.GeminiFallsBackToFirstContent | src/common.js:872-880 | without system-instruction parts the prompt is the joined texts of the first `contents` entry's parts, or empty when it has none |
| SystemPrompt.ClaudeFallsBackToFirstUserMessage | src/common.js:884-899 | when `system` is neither a string nor of type "object" (missing, a number or a boolean), the prompt is the first user message's content, or its blocks' texts run together when it is an array of blocks |
| Pipeline.PrepareFailsWithBadRequest | src/common.js:526-606 | every failure before the backend call is a `{message, statusCode: 400}` error, and happens only when one of the four checks (`PassesChecks`) fails |
| Pipeline.PrepareSucceeds | src/common.js:500-623 | a request that passes the four checks is prepared, with its endpoint's family, the configured provider, the model and stream flag read from its body, and the converted body after the system-prompt stage, which never rejects |
| Pipeline.RejectionsAreBadRequests | src/common.js:526-606 | each rejection answers 400 `invalid_request_error` with only the envelope, logs nothing and marks no provider |
| Pipeline.UnsupportedEndpointRejected | src/common.js:535-553 | an endpoint other than the three chat endpoints is rejected with `Unsupported endpoint type`, the model-list endpoints included |
| Pipeline.SameFamilyForwardsBody | src/common.js:555-574 | within one family the backend receives the client's own body after the system-prompt stage |
| Pipeline.PreparedRequestShape | src/common.js:585-598 | a request reaches the backend only when the client sent a truthy body, with a truthy model, its endpoint's client family and the configured provider |
| Pipeline.CrossFamilyConvertsBody | src/common.js:555-623 | across families a failed request conversion is rejected with 400 `Request conversion failed: ` and its message; otherwise the backend body is the converted body after the system-prompt stage |
| Pipeline.ModelReadFromOriginalBody | src/common.js:576-598 | the model and the stream flag the backend call uses are those read from the client's own body, before conversion |
| Pipeline.EveryRequestIsAnswered | src/common.js:490-676 | every request ends its response with a status line written |
| Pipeline.DispatchedIsAnswered | src/common.js:639-675 | both handlers end the response, directly or through `handleError` |
| Pipeline.StreamOpenFailureAfterHead | src/common.js:237-241 | a stream that cannot be opened is reported with status 200 and the error envelope, and no provider is marked |
| Pipeline.UnaryFailureReported | src/common.js:385-402 | a failed unary call is answered with the failure's status and envelope, marks the provider once and keeps the input log |
| Pipeline.DispatchedUnaryFailure | src/common.js:385-402 | the same, stated for a request that has passed the checks |
| Pipeline.HandlerRethrowsBeforeEnd | src/common.js:220-403 | a handler rethrows only while the response is not yet ended, so `handleError` can still end it |
| Pipeline.ValidateBody | src/common.js:500-532 | the body passes iff it was read, is truthy and, for the Claude endpoint, has a `messages` array; it passes unchanged, and a rejection is a 400 |
| Pipeline.WithSystemPrompt | src/common.js:609-623 | the body after the system-prompt stage, kept unchanged when that stage fails; `SameFamilyForwardsBody` states it for the backend body |
| Pipeline.Prepare | src/common.js:500-623 | the stages before the backend call; `PrepareSucceeds` and `PrepareFailsWithBadRequest` together say it fails iff one of the four checks fails, and `PreparedRequestShape`, `SameFamilyForwardsBody`, `CrossFamilyConvertsBody` and `ModelReadFromOriginalBody` state its result |
| Pipeline.Dispatched | src/common.js:625-675 | the effects of steps 4 and 5; `DispatchedIsAnswered` and `DispatchedUnaryFailure` state them |
| Pipeline.Handling | src/common.js:490-676 | the effects of the whole pipeline; `EveryRequestIsAnswered` and `RejectionsAreBadRequests` state them |
| Pipeline.LogInput | src/common.js:625-637 | the log grows by the input entry when the prompt text can be extracted, and by nothing when extraction fails |
| Pipeline.RunHandler | src/common.js:640-667 | the stream or unary handler, as the request asks, changes the response, pool and log by its effects and returns what it rethrows |
| Pipeline.Answer | src/common.js:639-675 | the handler's effects, then `handleError`'s status line, envelope and end for whatever the handler rethrows |
| Pipeline.Dispatch | src/common.js:625-675 | the input log, then the handler's effects, then `handleError` for whatever it rethrows |
| Pipeline.HandleContentGenerationRequest | src/common.js:490-676 | the response, pool and log change by exactly the pipeline's effects |

## Left out

- `getRequestBody` (`src/common.js:108-128`): reading and parsing the HTTP body is I/O. Its outcome is an input of the pipeline, either the parsed value or the failure.
- `handleModelListRequest` (`src/common.js:415-477`) is not part of this model. Its error path refers to a `toProvider` that is not in scope there.
- `getMD5Hash` (`src/common.js:914-917`): hashing is not modelled.
- `convertData`, `getOpenAIStreamChunkStop`, `ProviderStrategyFactory` and the strategies are not part of this model. They are function-valued parameters with arbitrary behaviour, and any of them may throw, `getOpenAIStreamChunkStop` included (its call is inside the stream handler's `try`, `src/common.js:275-277`). The strategy factory's own error for an unknown family is one of the failures they may return.
- Logging to the console, the log file name, timestamps and a failed file append are not modelled. Only the entries `logConversation` decides to write are kept.
- Auth.IsAuthorized: the required key is always a configured string; an undefined `REQUIRED_API_KEY`, with which `src/common.js:179` would let through any request that has no `x-goog-api-key` header, is not modelled.
- `Date.now()` and `Math.random()` are parameters: `now` for `formatExpiryTime` and `freshId` for the generated Claude message id.
- Response headers other than the status code are not modelled, nor Node's check of the status code's range.
- Asynchrony is not modelled. Every `await` is taken to complete in order, and a client that disconnects mid-stream is not modelled.
- Numbers are integers. Fractional timestamps, `NaN` and non-numeric `length` coercion are not modelled.
- JavaScript functions, symbols and prototype properties are not JSON values and are not modelled.
- `JSON.stringify` prints integer-like object keys (`"0"`, `"42"`) before the others; the model prints every object's keys in insertion order.
- The strategies may mutate or alias the request body. The model passes bodies by value.
- `API_ACTIONS`, `FETCH_SYSTEM_PROMPT_FILE` and `INPUT_SYSTEM_PROMPT_FILE` (`src/common.js:9-12`, `52-59`) are constants used elsewhere.
- GeminiRoles.GeminiRequest.EnsureRolesInContents: `contents` entries are Gemini content objects, so a `null` entry, which makes the source's `content.role` throw, is not modelled.
- GeminiRoles.GeminiRequest.EnsureRolesInContents: a `system_instruction` key that is present but falsy (`null`, `0`, `""`) fails the test at `src/common.js:83` and stays in the body; the model's `Option` cannot hold such a value, so its removal of the snake-case key covers only truthy or absent values.
- GeminiRoles.GeminiRequest.EnsureRolesInContents: a primitive `contents` entry or a primitive `systemInstruction` makes the source's role assignment throw a TypeError (strict mode); entries and the instruction are modelled as content objects, so that failure is not modelled.
- Errors.HandleError: the TypeError texts of the JavaScript engine are approximated by fixed messages (`Errors.TypeError`).
