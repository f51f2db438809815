# Product-analysis service: validators, section fetcher and request handler

The service turns a one-paragraph product idea into a large structured
"product analysis" document. It asks a chat-completion provider for the
document one section at a time, fifteen sections in a fixed order. The
`fetchSection` helper calls the provider for each section and checks the
reply against the section's schema.

- A reply that does not validate is retried at once, with a corrective
  sentence added to the prompt. The sentence is fixed
  (src/controllers/openaiController.ts:77-78); it does not carry the
  validator's errors.
- A 429 answer is retried after a wait that doubles each time. The wait
  only happens when another attempt follows.
- Any other failure throws `Error communicating with OpenAI API`.
- When three attempts are spent, the section silently becomes `{}`.
  This holds for 429s too: when the 429 retries run out, the section is
  `{}` and the handler answers 400, not 429
  (src/controllers/openaiController.ts:85-108, 353-363).

The handler `getOpenAIResponse` nests the fifteen sections into the
eight-member document and validates the document as a whole. It answers
200 with `{content}` when the document is valid, and 400 with the
validator's errors when it is not. A throw is mapped to 429 when its
message mentions a rate limit, and to 500 otherwise.

Validation is done by a registry of 28 Zod schemas plus `validateResponse`.
An older hand-written validator only checks that members are present.

The Dafny model has seven modules:

| module | file | what it holds |
|---|---|---|
| `JsonValues` | `json_values.dfy` | the JSON value type, JavaScript property access and truthiness, and the text codec as a parameter with its round-trip law |
| `Validation` | `validation.dfy` | Zod's observable semantics as a closed `Schema` datatype, the issue list `Validate` and a declarative reference `Conforms`, the issue rendering `Error at "<path>": <message>` and `ValidateResponse` |
| `Registry` | `registry.dfy` | the schemas as constants and their shape |
| `Fetcher` | `fetcher.dfy` | `fetchSection` as a `while` loop (`FetchSection`) proved equal to a state-machine function `FetchLoop` |
| `Controller` | `controller.dfy` | the handler: fifteen sequential fetches, the assembly, the final validation and the status mapping |
| `LegacyValidator` | `legacy.dfy` | the presence validator as a method that appends to an error list, proved equal to a function and to a table of sixteen checks |
| `ValidationScenarios` | `scenarios.dfy` | the error strings of the validator's test documents, for any round-tripping codec |

How the model represents the outside world:
- The provider is an oracle: call number `n` of a request gets the `n`-th
  outcome. An outcome is a reply whose content may be null, a 429, or any
  other failure. A reply without a first choice throws inside the `try`,
  so it counts as another failure.
- Everything the fetcher does is recorded as a trace of calls and waits,
  in order. A call carries its request parts and its outcome; a wait
  carries its length in milliseconds.
- The HTTP answer is a value: a status plus a `{content}` body, an
  `{errors}` body or a text body.

## Model

| member | source | states |
|---|---|---|
| `JsonValues.Get` | original_js_code/utils/validateResponse.js:9-17 | property access gives a value exactly when the base is an object holding the key, and then it gives that member |
| `Validation.ValidateResponse` | src/utils/validateResponse.ts:310-334 | text that does not parse gives exactly `{valid: false, errors: ["Invalid JSON format"]}`; `valid` holds exactly when the text parses to a value the schema accepts; `valid` holds exactly when `errors` is absent; an invalid result always carries a non-empty list (the same code is at dist/utils/validateResponse.js:217-237) |
| `Validation.ValidateIffConforms` | src/utils/validateResponse.ts:319-321 | the issue collection is empty exactly when the value conforms to the independent declarative definition `Conforms` |
| `Validation.ConformingHasNoIssues` | src/utils/validateResponse.ts:319-330 | a conforming value raises no issue at any path |
| `Validation.NonConformingHasIssues` | src/utils/validateResponse.ts:319-326 | a value that does not conform raises at least one issue |
| `Validation.ObjectConformsIff` | src/utils/validateResponse.ts:208-223 | an object conforms exactly when every listed field is present and conforms; keys not in the schema are ignored (no `.strict()`) |
| `Validation.PairConforms` | src/utils/validateResponse.ts:80-83 | a two-member object conforms to a two-field schema naming those members exactly when both members conform |
| `Validation.TripleConforms` | src/utils/validateResponse.ts:47-51 | the three-member version of the above |
| `Validation.IssuesBelowPath` | src/utils/validateResponse.ts:323-326 | every issue is reported at the path of the value checked or below it |
| `Validation.FieldIssuesCollected` | src/utils/validateResponse.ts:319-326 | every issue of an object's k-th field is among the object's issues: issues are collected, not stopped at the first |
| `Validation.ItemIssuesCollected` | src/utils/validateResponse.ts:319-326 | every issue of an array's k-th item is among the array's issues, at its index |
| `Validation.MissingFieldRequired` | tests/utils/validateResponse.test.ts:127-141 | a field the object lacks is reported as `Required` at the object's path plus the field's key, whatever the field's schema |
| `Validation.LeafMismatch` | tests/utils/validateResponse.test.ts:269-274 | a value of the wrong kind at a string or number leaf raises exactly one issue there, naming the expected and the received kind |
| `Validation.RenderAll` | src/utils/validateResponse.ts:323-326 | one error string per issue, in issue order |
| `Validation.JoinPathEmpty` | src/utils/validateResponse.ts:324-325 | a path with no empty key joins to the empty string exactly when it is empty |
| `Validation.RenderForm` | src/utils/validateResponse.ts:323-326 | an issue at a non-empty path renders as `Error at "<dot-joined path, indices as numerals>": <message>`, and as the bare message at the empty path |
| `Validation.IssuesNamed` | src/utils/validateResponse.ts:323-326 | against a schema with no empty field name, every issue path has no empty key |
| `Validation.ValidateResponseErrors` | src/utils/validateResponse.ts:319-330 | for text that parses and a well-named schema: valid exactly when there are no issues, and otherwise one error string per issue, in order, each in the path-qualified form |
| `Validation.SerializedConformingValid` | tests/utils/validateResponse.test.ts:122-124 | the serialized text of a conforming value validates to exactly `{valid: true}` with no `errors` |
| `Registry.PriorityLevels` | src/utils/validateResponse.ts:92-101 | the priority enum accepts exactly "Low", "Medium" and "High", and it is the `priority` field of a user story (dist/utils/validateResponse.js:93-102 is the same) |
| `Registry.SectionShapes` | src/utils/validateResponse.ts:16-205 | of the fifteen section schemas, coreFeatures, userStories and techStackRecommendations are arrays of objects, and every other one is an object with at least one field |
| `Registry.EmptyObjectRejectedBySections` | src/utils/validateResponse.ts:16-205 | `{}` conforms to no section schema |
| `Registry.ProductAnalysisShape` | src/utils/validateResponse.ts:208-223 | the document schema has exactly the eight fields in order, `productIdea` is a string, and the nested schemas are the very section schemas the handler fetches against (dist/utils/validateResponse.js:194-209 is the same) |
| `Registry.ProductAnalysisWellNamed` | src/utils/validateResponse.ts:9-223 | no field of the document schema, at any depth, has an empty name |
| `Fetcher.CheckReply` | src/controllers/openaiController.ts:64 | the validity flag holds exactly when the text parses to a value conforming to the schema |
| `Fetcher.FetchSection` | src/controllers/openaiController.ts:29-109 | the loop's result and trace are those of the state machine `FetchLoop`, started with no error clause (dist/controllers/openaiController.js:22-79 is the same loop) |
| `Fetcher.FetchFromLoop` | src/controllers/openaiController.ts:38-106 | running the loop on from any point is the trace so far followed by the state machine's own trace |
| `Fetcher.FetchCallBound` | src/controllers/openaiController.ts:33-96 | at most `retries` provider calls; every call but the last was answered by a 429 or a rejected reply |
| `Fetcher.FetchStartsWithCall` | src/controllers/openaiController.ts:36-47 | with attempts left, the first event is a call carrying the section prompt, the current clause and the section name |
| `Fetcher.FetchThrowsOnFailure` | src/controllers/openaiController.ts:84-104 | the fetch throws exactly when some call failed with something other than a 429 |
| `Fetcher.FetchThrowEndsAtFailure` | src/controllers/openaiController.ts:97-104 | a throw carries "Error communicating with OpenAI API", the failed call is the last event, and no call before it failed |
| `Fetcher.FetchReturnsAccepted` | src/controllers/openaiController.ts:64-108 | a value is returned either as the parse of the accepted reply that ends the trace, or as `{}` after all `retries` calls were spent |
| `Fetcher.FetchedConforms` | src/controllers/openaiController.ts:64-68 | a returned value is `{}` or conforms to the section's schema |
| `Fetcher.FetchWaitsFollowRateLimits` | src/controllers/openaiController.ts:85-96 | every wait comes right after a call answered by a 429 and right before another call |
| `Fetcher.FetchRateLimitsWait` | src/controllers/openaiController.ts:85-96 | conversely, every call answered by a 429 that is not the last event is followed by a wait: a 429 is retried only after waiting, and a 429 on the last attempt ends the trace |
| `Fetcher.FetchDelaysDouble` | src/controllers/openaiController.ts:91-95 | the first wait lasts `backoffDelay` and each later wait twice the one before, whatever rejected replies come in between |
| `Fetcher.DoublingClosedForm` | src/controllers/openaiController.ts:94 | so the k-th wait (from 0) lasts `backoffDelay * 2^k` |
| `Fetcher.FetchRequestClauses` | src/controllers/openaiController.ts:36-78 | the first request carries no corrective clause; a later request carries the corrective clause exactly when some earlier reply was rejected |
| `Fetcher.DefaultFetch` | src/controllers/openaiController.ts:29-109 | with the defaults: at most 3 calls, all for the given section prompt and name; a throw carries the fetch error and ends at a failed call; a value comes with no failure and is `{}` or conforming |
| `Fetcher.RateLimitedThrice` | src/controllers/openaiController.ts:85-108 | three 429s in a row give the trace call, wait 1000, call, wait 2000, call, and the result `{}` |
| `Fetcher.RejectedThrice` | src/controllers/openaiController.ts:64-83 | three rejected replies give three calls without waits, the last two carrying the corrective clause, and the result `{}` |
| `Fetcher.FailsAtOnce` | src/controllers/openaiController.ts:97-104 | a failure on the first call gives exactly one call and the throw |
| `Fetcher.AcceptedAfterRateLimit` | src/controllers/openaiController.ts:64-96 | a 429 and then an accepted reply give call, wait 1000, call, and the reply's parsed value |
| `Fetcher.ContentStartsWithPrompt` | src/controllers/openaiController.ts:47 | every request's text starts with the section prompt |
| `Controller.FinalResponse` | src/controllers/openaiController.ts:353-367 | the answer is 200 or 400; 200 exactly when the document's serialization validates; 200 carries `{content: document}`; 400 carries exactly the validator's errors, a non-empty list |
| `Controller.ErrorResponse` | src/controllers/openaiController.ts:371-378 | 429 with the message exactly when it contains "Rate limit"; otherwise 500 with "Error: " and the message |
| `Controller.FetchStep` | src/controllers/openaiController.ts:290-304 | one more default-budget fetch after a trace with no failure adds at most 3 calls and keeps every request on the shared prompt; it throws the fetch error at a failed call that ends the trace, or returns a `{}`/conforming value with no failure |
| `Controller.FetchNext` | src/controllers/openaiController.ts:290-304 | the i-th fetch is `FetchLoop` of the i-th section with the default budget, its calls numbered after those already in the trace; the rest of the fetch phase either ends with its throw or goes on from section i+1 with its value appended |
| `Controller.FetchPhaseFacts` | src/controllers/openaiController.ts:289-304 | the fetch phase ends with a throw exactly when some call failed; the throw carries the fetch error and the failed call is the last event; at most 3 calls per section, all with the shared prompt |
| `Controller.FetchPhaseSections` | src/controllers/openaiController.ts:289-304 | when no fetch throws, the phase ends with fifteen values, each `{}` or conforming to its section's schema |
| `Controller.FirstFailureEndsPhase` | src/controllers/openaiController.ts:290 | a provider whose first call fails ends the phase after that one call, with the fetch error and no section |
| `Controller.FetchAll` | src/controllers/openaiController.ts:289-304 | the fifteen fetches in order are `FetchPhase` from section 0 for the given provider: the trace, whether it threw and with what message, and the sections in fetch order are the phase's; hence it throws exactly when some call failed, at that call with the fetch error; otherwise every section is `{}` or conforms to its schema; at most 45 calls, all with the shared prompt |
| `Controller.GetOpenAIResponse` | src/controllers/openaiController.ts:116-379 | the trace is the fetch phase's for the given provider; if the phase threw, the answer is `ErrorResponse` of its message, which is 500 with body "Error: Error communicating with OpenAI API" exactly when a call failed; otherwise the sections are the phase's fifteen values and the answer is `FinalResponse` of the assembled document, 200 or 400; at most 45 calls, every request built from `basePrompt + prompt` (dist/controllers/openaiController.js:85-326 is the same handler) |
| `Controller.FetchErrorIsServerError` | src/controllers/openaiController.ts:371-378 | the fetch error does not mention a rate limit, so it is answered with 500 and the 429 branch is never taken |
| `Controller.AssembleKeys` | src/controllers/openaiController.ts:341-350 | the document has exactly the eight top-level keys |
| `Controller.AssembleMembers` | src/controllers/openaiController.ts:307-350 | `productIdea` is the prompt verbatim, each group is its parent object, and `refinedConcept` is the section itself |
| `Controller.AssemblePlacement` | src/controllers/openaiController.ts:307-350 | each of the fifteen sections is found unchanged at its two-key path (or at `refinedConcept`), and the prompt at `productIdea` |
| `Controller.AssembledConforms` | src/controllers/openaiController.ts:307-353 | the assembled document conforms to the document schema exactly when every section conforms to its own schema |
| `Controller.DegradedSectionRejected` | src/controllers/openaiController.ts:353-363 | a section that degraded to `{}` makes the document fail validation |
| `Controller.FinalResponseOutcome` | src/controllers/openaiController.ts:353-367 | with a round-tripping codec: 200 with the document when it conforms, otherwise 400 with one rendered error per issue of the document, in order |
| `Controller.HandlerOutcome` | src/controllers/openaiController.ts:353-378 | for any answer satisfying the handler's contract, with a round-tripping codec: 200 exactly when no call failed and every section conformed, and then the body is the assembled document |
| `LegacyValidator.LegacyValidate` | original_js_code/utils/validateResponse.js:1-87 | text that does not parse, or parses to `null`, gives exactly `["Invalid JSON format"]`; otherwise the result is valid with no `errors` exactly when no check fired, and carries the collected messages when one did |
| `LegacyValidator.CollectBusinessAnalysis` | original_js_code/utils/validateResponse.js:12-46 | the appends of the `businessAnalysis` block are those of the nested checks `CheckBusinessAnalysis` |
| `LegacyValidator.CollectTopLevel` | original_js_code/utils/validateResponse.js:48-76 | the six top-level appends are those of `CheckTopLevel` |
| `LegacyValidator.BusinessAnalysisBlock` | original_js_code/utils/validateResponse.js:12-46 | the table's nine `businessAnalysis` checks, run in order, collect what the nested `if` block collects |
| `LegacyValidator.TopLevelBlock` | original_js_code/utils/validateResponse.js:48-76 | the table's six top-level checks collect what the six top-level `if`s collect |
| `LegacyValidator.LegacyErrorsFollowChecks` | original_js_code/utils/validateResponse.js:9-76 | the validator reports exactly the messages of the table's checks that fire, in table order: productIdea, the businessAnalysis branch, then the six other members |
| `LegacyValidator.RunChecksExtends` | original_js_code/utils/validateResponse.js:6-76 | checks only append: what was collected before stays unchanged at the front |
| `LegacyValidator.RunChecksQuiet` | original_js_code/utils/validateResponse.js:6-76 | running checks leaves the list unchanged exactly when none of them fires |
| `LegacyValidator.LegacyValidIff` | original_js_code/utils/validateResponse.js:79-83 | nothing is collected exactly when no check of the table fires |
| `LegacyValidator.PushAtMostOne` | original_js_code/utils/validateResponse.js:9-11 | one check appends at most one message |
| `LegacyValidator.LegacyErrorsBound` | original_js_code/utils/validateResponse.js:6-76 | at most 14 messages are ever collected: 1 + 7 + 6 |
| `LegacyValidator.LegacyErrorsBoundReached` | original_js_code/utils/validateResponse.js:6-76 | a document holding only an empty `businessCase` draws all 14, so the bound is tight |
| `LegacyValidator.MissingParentSilences` | original_js_code/utils/validateResponse.js:12-21 | no check fires below a member that is missing: a missing `businessAnalysis` or `businessCase` silences the checks under it |
| `LegacyValidator.FalsyIsMissing` | original_js_code/utils/validateResponse.js:9-11 | `null`, `false`, `0` and `""` count as missing: such a `productIdea` draws the first message |
| `LegacyValidator.HollowDocumentPasses` | original_js_code/utils/validateResponse.js:9-83 | a document of empty arrays and empty objects, with an array as `productIdea`, draws no message: empty containers are truthy and no type is checked |
| `LegacyValidator.HollowBusinessAnalysisPasses` | original_js_code/utils/validateResponse.js:12-46 | the same for its `businessAnalysis` part |
| `LegacyValidator.HollowDocumentRejectedBySchema` | src/utils/validateResponse.ts:208-223 | the schema registry rejects that same document |
| `ValidationScenarios.IssueReported` | src/utils/validateResponse.ts:319-330 | with a round-tripping codec, every issue of a document makes its serialization invalid, and its rendered string is among the errors |
| `ValidationScenarios.RenderedAs` | src/utils/validateResponse.ts:323-326 | an issue whose path joins to a non-empty string renders as `Error at "<path>": <message>` |
| `ValidationScenarios.ProductIdeaMissingIssue` | tests/utils/validateResponse.test.ts:127-136 | a document without `productIdea` has a `Required` issue at `productIdea` |
| `ValidationScenarios.BusinessAnalysisMemberMissingIssue` | tests/utils/validateResponse.test.ts:137-139 | a present `businessAnalysis` without one of its three members has a `Required` issue at `businessAnalysis.<member>` |
| `ValidationScenarios.MissingFieldsExample` | tests/utils/validateResponse.test.ts:127-141 | `{businessAnalysis: {}}` is reported with the four `Required` errors at `productIdea` and the three `businessAnalysis` members |
| `ValidationScenarios.ProductIdeaKindIssue` | tests/utils/validateResponse.test.ts:271 | a numeric `productIdea` has a string-expected, number-received issue there |
| `ValidationScenarios.RealWorldExamplesKindIssue` | tests/utils/validateResponse.test.ts:272 | a string `realWorldExamples` has an array-expected issue at `businessAnalysis.businessCase.realWorldExamples` |
| `ValidationScenarios.CoreFeaturePriorityKindIssue` | tests/utils/validateResponse.test.ts:273 | a string priority in the first core feature has a number-expected issue at `productDefinition.coreFeatures.0.priority` |
| `ValidationScenarios.RiskImpactKindIssue` | tests/utils/validateResponse.test.ts:274 | a string impact in the first risk has a number-expected issue at `complianceAndRisk.riskAssessment.risks.0.impact` |
| `ValidationScenarios.InvalidTypesExample` | tests/utils/validateResponse.test.ts:151-275 | a document with those four mismatches, whatever else it holds, is reported with all four rendered errors, so the validator does not stop at the first |

## Left out

- The HTTP transport is not modelled: the axios POST, the model name, `max_tokens`, the bearer header and `process.env`. The provider oracle stands for them.
- Express's `res.status/json/send` are not modelled: the handler returns an `HttpResponse` value instead.
- `setTimeout` and real time are not modelled: a wait is a `Wait(ms)` event in the trace.
- `console.*` and `colors` are left out, because logging has no effect on results.
- `JSON.parse` and `JSON.stringify` are foreign code. They are a `JsonCodec` parameter. Only the round-trip law that `stringify` then `parse` gives the value back is assumed, and only by the members that state it as a precondition. No JSON text syntax is modelled.
- Null content is modelled only for a codec that rejects `""`. When a reply's content is null, the fetcher validates `""`, and `JSON.parse("")` rejects it. The model's accepted value is the parse of that same text, so it agrees with the source whenever the codec rejects `""`, as `JSON.parse` does.
- Zod's internals are left out; only its observable contract is modelled. Issues come in field order, then item order. A value of the wrong kind is not looked into. `Required` marks an absent member.
- The wording of the enum-mismatch message follows Zod's "Invalid enum value. Expected 'Low' \| 'Medium' \| 'High', received '…'". The repository does not pin this text.
- JSON numbers are reals. Only their kind and whether they are zero are ever inspected, so no floating-point behaviour is modelled.
- `typePrompt`/`basePrompt` are left out as text: the fixed instruction text is the `basePrompt` parameter, and only `basePrompt + prompt` matters.
- The request body's `prompt` is taken to be a string. An absent or non-string `prompt`, and what `${prompt}` makes of it, is not modelled.
- Controller.GetOpenAIResponse: its sections are a ghost out-parameter, because the source never returns them. When a fetch threw, the handler has no sections and the contract leaves them unconstrained. Otherwise they are the fetch phase's values.
- The compiled copies dist/utils/validateResponse.js and dist/controllers/openaiController.js have the same behaviour and are covered by the same members. The dist validator lacks the three wrapper schemas. The wrappers exist in `Registry` but nothing in the handler uses them.
- The single-shot relay in server.js, the routers, the request-logger middleware and the server bootstrap are outside the core.
- Concurrency does not arise: the fifteen fetches are awaited strictly one after another.
