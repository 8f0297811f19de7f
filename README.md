# Backcountry AI chat, modelled in Dafny

Backcountry AI chat is an SMS chatbot for weather forecasts and general questions. It runs as a
serverless worker. A messaging provider posts each incoming SMS to the worker's webhook. The webhook
checks the message and starts a background workflow. The workflow holds a conversation of up to ten
rounds with a language model. In those rounds the model may call one tool, which looks up a US
National Weather Service forecast for a coordinate. The workflow turns the model's final answer into
SMS-safe text and sends it back to the sender.

This project models the core of that system and proves properties of it:

- `outcomes.dfy` (module `Outcomes`) holds the shared `Option` type and `Completion`, which is "returned a value or threw an exception".
- `sms_table.dfy` (module `SmsTable`) holds the 269-entry character replacement table, one Dafny group function per run of table lines. Every entry is proved safe: its value is at most three printable ASCII characters other than the grave accent, and no key is a UTF-16 surrogate or a printable ASCII character other than the grave accent, which the table deletes.
- `sms_replacement.dfy` (module `SmsReplacement`) holds `smsCharacterReplacement` in two forms, linked by the method's postcondition:
  - a method with the source's loop;
  - a recursive specification function `Replace`.

  It proves that `Replace` distributes over concatenation and that unlisted characters pass through. It also proves the three-to-one length bound, that the output holds no table key, and idempotence.
- `weather.dfy` (module `Weather`) holds `parseLatLong` and the forecast pipeline `getWeatherForecast`. The pipeline is written twice, linked by the method's postcondition:
  - a method with the source's early returns;
  - a function made of fetch-and-check steps.

  The lemmas state which diagnostic string each failure gives and which forecast URL is fetched.
- `toolloop.dfy` (module `ToolLoop`) holds `getModelResponse`. It is a method whose loop is proved against the specification function `Conversation`, which gives the requests sent and the result. The lemmas cover the round limit, the request chaining and the one-output-per-call rule.
- `webhook.dfy` (module `Webhook`) holds the phone number pattern, the `fetch` handler's routing and the reply the workflow sends.

The model takes the outside world as parameters:
- the language model endpoint: `Services.model`;
- reading and validating the tool's JSON arguments: `Services.parseArgs`;
- the two weather fetches and the final `JSON.stringify`: `WeatherServices`;
- the schema's error message: `schemaMessage`;
- how an exception is rendered as text: `render`.

Three points of the code's behaviour are easy to miss, and the model keeps them:
- Tool arguments that the schema rejects are reported back to the model as text, but the arguments pass through `JSON.parse` first (src/index.ts:153), so text that is not JSON throws and ends the conversation. The model has this as `ArgsParse.NotJson`, which throws.
- Every function call is answered by the weather tool; the call's name is never looked at (src/index.ts:149-160). The model does the same.
- The `fetch` handler throws when reading the form rejects (a POST to `/sms` whose body is not a form) or when starting the workflow rejects (src/index.ts:299, 307). The model's handler returns a `Completion` and throws in those two cases.

## Model

| member | source | states |
|---|---|---|
| SmsTable.Replacement | src/smsCharacterReplacement.ts:1-271 | every entry maps to at most three printable ASCII characters other than the backtick, and no key is such a character or a UTF-16 surrogate |
| SmsTable.DashAndEllipsisEntries | src/smsCharacterReplacement.ts:261-267 | the em dash and the en dash map to `-` and the horizontal ellipsis to `...` |
| SmsReplacement.FirstCodeUnit | src/smsCharacterReplacement.ts:279-280 | `charCodeAt(0)` of a code point is the code point itself below U+10000, and a high surrogate above |
| SmsReplacement.SmsCharacterReplacement | src/smsCharacterReplacement.ts:277-283 | the loop's output is `Replace(input)`: each code point is replaced by its table value when its first code unit is a key, and kept otherwise |
| SmsReplacement.ReplaceWithConcat | src/smsCharacterReplacement.ts:277-283 | for any table, character-by-character replacement maps the empty text to the empty text and distributes over concatenation |
| SmsReplacement.ReplaceWithLength | src/smsCharacterReplacement.ts:277-283 | with a safe table (every value at most three characters), the output is at most three times as long as the input |
| SmsReplacement.ReplaceWithIsKeyFree | src/smsCharacterReplacement.ts:277-283 | with a safe table, no character of the output is a key of the table |
| SmsReplacement.KeyFreeTextIsUnchanged | src/smsCharacterReplacement.ts:277-283 | a text with no key character is left unchanged |
| SmsReplacement.ReplaceConcat | src/smsCharacterReplacement.ts:277-283 | `smsCharacterReplacement` maps the empty string to the empty string and distributes over concatenation |
| SmsReplacement.UnlistedCharacterPassesThrough | src/smsCharacterReplacement.ts:280 | a character whose code unit is not a key is copied unchanged between the replaced texts around it |
| SmsReplacement.ReplaceLength | src/smsCharacterReplacement.ts:1-283 | the output is at most three times as long as the input, both counted in code points |
| SmsReplacement.ReplaceIsKeyFree | src/smsCharacterReplacement.ts:1-283 | no character of the output is listed in the table |
| SmsReplacement.RemovedCharactersNeverAppear | src/smsCharacterReplacement.ts:13-14 | no character that the table deletes appears in the output; in particular U+2018 and U+2019 never do |
| SmsReplacement.ReplaceIsIdempotent | src/smsCharacterReplacement.ts:277-283 | replacing twice gives the same text as replacing once |
| SmsReplacement.AstralCharacterPassesThrough | src/smsCharacterReplacement.ts:279-280 | a code point above U+FFFF is kept unchanged |
| SmsReplacement.ReplacementIsSafe | src/smsCharacterReplacement.ts:1-271 | the whole table is safe in the sense of `SafeEntry` |
| SmsReplacement.QuoteAndDashReplacements | src/smsCharacterReplacement.ts:3-262 | the left and right double quotes each become `"`, and the em dash and the en dash each become `-` |
| SmsReplacement.SmartQuotesAndDashExample | src/smsCharacterReplacement.ts:3-4 | “word” — tail becomes "word" - tail for any printable ASCII word and tail without backticks, so “Hello” — 50% becomes "Hello" - 50% |
| SmsReplacement.AsciiTextIsUnchanged | src/smsCharacterReplacement.ts:1-283 | printable ASCII text without backticks is left unchanged |
| SmsReplacement.EllipsisReachesLengthBound | src/smsCharacterReplacement.ts:267 | the ellipsis becomes three full stops, so the three-to-one length bound is reached |
| Weather.ParseLatLong | src/index.ts:206-209 | the converted coordinate has the sign of its degrees |
| Weather.DecimalIsUnchanged | src/index.ts:206-209 | a one-number coordinate `[d]` converts to `d` |
| Weather.SexagesimalMagnitude | src/index.ts:206-209 | for nonzero degrees, the magnitude is abs(degrees) + abs(minutes)/60 + abs(seconds)/3600, and missing seconds count as zero |
| Weather.ZeroDegreesGiveZero | src/index.ts:207-208 | zero degrees convert to zero, whatever the minutes and seconds |
| Weather.WithinOneDegree | src/index.ts:206-209 | when minutes and seconds together are less than a degree, the result is within one degree of the degrees, on their side of zero |
| Weather.GetWeatherForecast | src/index.ts:170-204 | the early-return chain gives the same outcome as the fetch-and-check function `WeatherForecast` |
| Weather.PointFailureIsFinal | src/index.ts:178-185 | a failed point lookup returns "Weather point lookup error: " with the body, a rejected point body returns "Weather point parse error: " with the message, and neither fetches the forecast |
| Weather.ForecastUrlComesFromMetadata | src/index.ts:187 | the only forecast fetched is the one at the point metadata's field named by `type` |
| Weather.ForecastFailureDiagnostics | src/index.ts:187-194 | after a valid point, a failed forecast fetch returns "Weather forecast lookup error: " with the body, and a rejected forecast returns "Weather forecast parse error: " with the message |
| Weather.SuccessCombinesTimeZoneAndForecast | src/index.ts:196-203 | when both documents are valid, the result serialises the point's time zone together with the forecast document |
| Weather.DegradesToText | src/index.ts:170-204 | when both fetches arrive and their bodies are JSON, the pipeline returns a string and never throws |
| ToolLoop.Calls | src/index.ts:149-152 | the function calls of a response are a sub-collection of its parts, at most as many, and there are none exactly when no part is a function call |
| ToolLoop.CallsConcat | src/index.ts:149-152 | the calls are the order-preserving filter of the parts: a single part is kept exactly when it is a function call, and the calls of a concatenation are the calls of each piece in turn, so every call is kept, in order |
| ToolLoop.ToolOutput | src/index.ts:153-154 | arguments the schema rejects give the schema's message as the output; the output throws exactly when the arguments are not JSON or the weather tool throws for valid ones |
| ToolLoop.ToolOutputsFollowCalls | src/index.ts:148-160 | each function call gets exactly one output with the same call id, in call order, and other parts get none; a round throws exactly when a call's output throws, with the first such exception |
| ToolLoop.ToolOutputValues | src/index.ts:148-160 | in a round that does not throw, each call's output is the schema's message for rejected arguments, and the weather tool's returned text for valid ones |
| ToolLoop.NoCallsNoOutputs | src/index.ts:148-162 | a response has no function calls exactly when its round produces no tool outputs |
| ToolLoop.ThrownOutputsAreFinal | src/index.ts:149-160 | once a call's output throws, the round throws that exception whatever parts follow |
| ToolLoop.CollectToolOutputs | src/index.ts:148-160 | the inner loop produces exactly `ToolOutputs` of the response parts |
| ToolLoop.Rounds | src/index.ts:78-167 | the rounds from round `i` on send at most `10 - i` requests, and the first of them carries the given previous id and input |
| ToolLoop.RunRound | src/index.ts:80-164 | one round's body gives the outcome `Round` defines: finish with an exception, finish with the SMS-safe text, or continue with the tool outputs |
| ToolLoop.GetModelResponse | src/index.ts:74-168 | the loop gives the result of `Conversation`, and the requests it sends are exactly those of `Conversation` |
| ToolLoop.AtMostTenModelCalls | src/index.ts:78 | the model is called at least once and at most ten times |
| ToolLoop.FirstRequestCarriesUserMessage | src/index.ts:75-89 | the first request has no previous response id, and its only input is the user's message |
| ToolLoop.RoundsContinue | src/index.ts:89-160 | from any round on, each request after the first carries the tool outputs of the previous response, which are not empty, and that response's id |
| ToolLoop.LaterRequestsContinue | src/index.ts:89-160 | each later request of the conversation carries the previous response's id and the tool outputs of its function calls |
| ToolLoop.RoundOutcomes | src/index.ts:148-164 | a round continues exactly when the model answers with function calls and no output throws; a round that finishes with a reply had no function calls and replies with `Replace(output_text)`, and conversely a response without function calls finishes the round with `Replace(output_text)` |
| ToolLoop.RoundsConclude | src/index.ts:78-167 | the last request decides the result: a finished round gives it, and a round that would continue can only be the last one, after which the conversation throws "Model made too many tool calls" |
| ToolLoop.ConversationConcludes | src/index.ts:78-167 | the whole conversation's result is decided by its last request in the same way |
| ToolLoop.RunawayModelFails | src/index.ts:78-167 | a model that always calls functions is called exactly ten times, and the conversation throws "Model made too many tool calls" |
| ToolLoop.FinalAnswerIsNormalised | src/index.ts:162-164 | a reply is `smsCharacterReplacement` of the output text of a response without function calls, and it holds no character listed in the table |
| Webhook.MatchDigitsToEndExactly | src/index.ts:10 | `[0-9]{n}$` matches exactly the texts of n ASCII digits |
| Webhook.MatchPhonePattern | src/index.ts:10 | `^\+1[0-9]{10}$` accepts a text exactly when it is `+1` followed by ten ASCII digits |
| Webhook.ParseSms | src/index.ts:12-16 | the message is accepted exactly when `From`, `To` and `Body` are present and both numbers match the phone pattern, and then it carries those three fields |
| Webhook.HandleRequest | src/index.ts:291-319 | a response the handler returns has status 200, 400 or 404, and the handler throws only for a POST to `/sms` |
| Webhook.HandlerRouting | src/index.ts:291-319 | it throws exactly when, for a POST to `/sms`, reading the form throws, or the message is valid and starting its workflow throws, with that exception; otherwise 404 exactly off `/sms`; on it, 400 exactly for a method other than POST or an invalid message, and the method check comes first; 200 exactly when a workflow is started, for the parsed message |
| Webhook.StartedMessagesHaveValidNumbers | src/index.ts:299-311 | a workflow is only acknowledged for a message read from the form whose two numbers are valid US numbers, with the posted body, and whose workflow start succeeded |
| Webhook.Reply | src/index.ts:242-267 | the reply goes to the sender, from the number they wrote to |
| Webhook.ReplyCarriesAnswer | src/index.ts:240-247 | the reply text is the conversation's SMS-safe answer, or "Error calling model: " followed by the exception when it throws |

## Left out

- Network I/O is not modelled: the OpenAI Responses API, the two `fetch` calls to api.weather.gov, `request.formData()` and the workflow `create`. Each of these is a parameter of the model: its result, or the exception it throws, is given as input.
- The send to Twilio (src/index.ts:250-283) is not modelled at all: no parameter stands for it, and its result and exceptions are not represented (the workflow discards the status and JSON body anyway). `Reply` gives the message the workflow hands to it.
- The fixed request fields are left out: the prompt id, model name, reasoning effort, tool declarations and `store` (src/index.ts:80-143). A request is modelled by the two fields that vary, `previous_response_id` and `input`.
- Workflow retry, backoff and timeout settings are not modelled, nor are secret retrieval, the `crypto.randomUUID` workflow id and `console` logging (src/index.ts:227-287, 307-312). They are host plumbing.
- Zod internals are not modelled: URL hostname checks, ISO date-time checks and the wording of error messages. The argument, point and forecast schemas are abstract parse results. For the forecast data, only the fields the schemas keep are represented.
- `JSON.parse` and `JSON.stringify` formatting is not modelled. The success payload is `WeatherReport`, and its serialisation is the parameter `stringify`.
- ParseLatLong: computes over the reals, not IEEE-754 doubles, so rounding and the sign of negative zero (`Math.sign(-0)`) are not modelled.
- Conversion of the coordinates to the text of the point URL is not modelled. The point lookup is keyed by the two numbers.
- The model endpoint is a function of the request, so two identical requests get the same response. The real service is not deterministic.
- ReplaceLength: lengths are counted in code points. JavaScript's `length` counts UTF-16 code units; that bound is not proved.
- Lone UTF-16 surrogates in the SMS text are not modelled: a Dafny `char` is a Unicode scalar value. All other code points are modelled, including those above U+FFFF.
- RemovedCharactersNeverAppear: names only U+2018 and U+2019 explicitly. The tab, U+00A0, U+200B and U+FEFF entries, which the table also deletes, are covered only by the general clause, because evaluating their deep table entries one by one is too costly for the verifier.
- Reply: the exception's `String` rendering is the parameter `render`, so the model does not fix the "Error: " prefix that JavaScript gives an `Error` object.
- Concurrency between workflow instances is not modelled, nor is the asynchronous hand-off between the webhook and the workflow.
