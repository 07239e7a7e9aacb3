# 10x Cards — a Dafny model of the flashcard-generation core

10x Cards turns a pasted text (1000 to 10000 characters) into flashcard
proposals. It asks a language model through the OpenRouter chat-completions
API, parses the model's free-form answer into cards, and records one
generation row per call. The user then reviews the proposals in the
browser and saves all of them, or only the accepted ones.

This project models that pipeline as pure functions over immutable data,
with contracts and lemmas about each step:

- **OpenRouter client** (`OpenRouterConfig`, `Retry`, `OpenRouter`):
  - construction defaults and the token check;
  - the `updateConfiguration` merge;
  - the `[system, user]` request and its wire body;
  - the retry loop with capped exponential backoff;
  - extraction of `choices[0].message.content`;
  - the result cache.
- **zod schemas** (`Schemas`, `Json`): `responseSchema`, `flashcardSchema` and
  `flashcardsArraySchema` as parsers over a JSON-value datatype, with zod's
  issue messages.
- **Generation service** (`AiParser`, `Generation`):
  - `parseAiResponse`, with its regular expression run as a backtracking
    matcher;
  - the shaping of `generateFlashcards`' result and of the inserted row.
- **Input validation** (`Validation`, `GenerateForm`): the server schema and
  the form's client-side mirror of it.
- **Proposal review** (`GenerationsView`, `FlashcardsList`, `ActionButtons`,
  `Screen`):
  - the page's state transitions;
  - the list's accepted and rejected sets;
  - the save buttons;
  - how the page and the list fit together.

The environment is passed in as parameters:

- The transport is a script of attempt outcomes: a response with a status, a
  network error, or a timeout.
- `Date.now()` is a number argument.
- `JSON.parse` is a function argument.
- The database insert and every `fetch` made by the page are represented by
  their replies.

JavaScript semantics are modelled where the code relies on them:

- string `.length` counts UTF-16 code units (`JsString.Utf16Length`);
- `trim()` uses the ECMAScript white-space set;
- truthiness, `||`, `??`, property reads and optional chaining follow the
  language (`Json.Member`, `Json.Truthy`, `OpenRouter.OptionalMember`).

Two behaviours of the code the contracts pin down:

- `updateConfiguration` assigns the merged configuration before it checks the
  token. A failing update therefore leaves the empty token stored
  (`OpenRouterConfig.FailedUpdateStillAssigns`).
- `makeRequest` rethrows the last transport error as it is
  (`OpenRouter.SendMessage`, `SendError.Transport`).

## Model

| member | source | states |
|---|---|---|
| Json.Member | src/lib/services/generation.service.ts:156 | A property read throws a TypeError exactly on `null`, yields a value exactly for a present key of an object, and is `undefined` otherwise. |
| Json.FalsyValues | src/lib/services/generation.service.ts:156 | The falsy JSON values that `!card.front` rejects are exactly `null`, `false`, `0` and `""`. |
| JsString.Trim | src/lib/services/generation.service.ts:133 | `trim()` returns the slice of the text that starts after its leading white space and has only white space after it; that slice neither starts nor ends with white space, and it is empty exactly when the text is all white space. |
| JsString.Utf16Length | src/components/generations/GenerateForm.tsx:25 | `.length` lies between the number of characters and twice that, and is 0 only for the empty string. |
| JsString.NatToStringRoundTrip | src/components/generations/ActionButtons.tsx:34 | The decimal rendering of a count reads back as that count. |
| Schemas.ParseResponse | src/lib/services/openrouter.types.ts:69-72 | `responseSchema` accepts exactly objects with a string `text` and a number `timestamp`, and returns those two values; a rejection carries one or two issues. |
| Schemas.ParseResponseRoundTrip | src/lib/services/openrouter.types.ts:69-72 | Every result, including one with empty `text`, passes the schema unchanged. |
| Schemas.ParseResponseStrips | src/lib/services/openrouter.types.ts:69-72 | An accepted object keeps only `text` and `timestamp`; other keys are dropped. |
| Schemas.ParseResponseRejectsMistypedField | src/lib/services/openrouter.types.ts:69-72 | One missing or mistyped field rejects the whole object, with an issue whose path names that field. |
| Schemas.ParseFlashcard | src/lib/services/openrouter.types.ts:74-77 | `flashcardSchema` accepts exactly objects with string `front` and `back`, empty strings included. |
| Schemas.ParseFlashcardRoundTrip | src/lib/services/openrouter.types.ts:74-77 | Every flashcard survives encoding and parsing. |
| Schemas.ParseFlashcards | src/lib/services/openrouter.types.ts:79 | `flashcardsArraySchema` accepts an array iff every element passes `flashcardSchema`, and returns the elements' values in order. |
| Schemas.EmptyFlashcardsAccepted | src/lib/services/openrouter.types.ts:79 | The empty array is accepted and gives no cards. |
| Schemas.ParseFlashcardsRoundTrip | src/lib/services/openrouter.types.ts:79 | Any list of flashcards, encoded as a JSON array, parses back to itself. |
| OpenRouterConfig.OrElse | src/lib/services/openrouter.service.ts:55-56 | The `or` fallback keeps a non-empty string and replaces an absent or empty one. |
| OpenRouterConfig.MergeParams | src/lib/services/openrouter.service.ts:58-61 | Each model parameter that is given replaces the old one, so an explicit 0 is kept; only an absent one falls back. |
| OpenRouterConfig.Construct | src/lib/services/openrouter.service.ts:52-70 | Construction fails, with the fixed message, exactly when the token is absent or empty. The token is never defaulted. The system message and model name fall back to their defaults when absent or empty, so they are never empty. The parameters fall back only when absent. |
| OpenRouterConfig.ConstructRoundTrip | src/lib/services/openrouter.service.ts:52-63 | A configuration with a token, a system message and a model name is rebuilt unchanged from its own fields. |
| OpenRouterConfig.ConstructIdempotent | src/lib/services/openrouter.service.ts:52-63 | Constructing again from a constructed configuration changes nothing. |
| OpenRouterConfig.ConstructDefaults | src/lib/services/openrouter.service.ts:55-61 | Empty strings get the defaults, while a temperature of 0 is kept. With nothing given, the parameters are 0.7 / 150 / 0 / 0. |
| OpenRouterConfig.RangesNotEnforced | src/lib/services/openrouter.types.ts:41-48 | Any parameter values, including ones outside the documented ranges, are stored as given. |
| OpenRouterConfig.Update | src/lib/services/openrouter.service.ts:93-105 | Each top-level field in the patch overrides the old one, and the rest stay. Model parameters merge field by field. The error is raised exactly when the merged token is empty. |
| OpenRouterConfig.UpdateCompose | src/lib/services/openrouter.service.ts:94-101 | Two successive updates leave the same configuration as one update with their combined patch. |
| OpenRouterConfig.UpdateEmptyPatch | src/lib/services/openrouter.service.ts:94-105 | An empty patch changes nothing and throws nothing. |
| OpenRouterConfig.UpdateWithFullPatch | src/lib/services/openrouter.service.ts:94-101 | A patch spelling out a whole configuration replaces the old one. |
| OpenRouterConfig.UpdateOnlyTemperature | src/lib/services/openrouter.service.ts:97-100 | Updating only `temperature` leaves every other field and parameter as it was. |
| OpenRouterConfig.FailedUpdateStillAssigns | src/lib/services/openrouter.service.ts:94-105 | A failing update still stores the merged configuration, empty token included. |
| OpenRouterConfig.UpdateKeepsEmptySystemMessage | src/lib/services/openrouter.service.ts:94-101 | Unlike the constructor, an update stores an empty system message as given. |
| Retry.ApiErrorMessage | src/lib/services/openrouter.service.ts:212-214 | The message of a non-ok response starts with "Błąd API: ", then the status in decimal, which reads back as the status, then a space and the status text. |
| Retry.ErrorMessage | src/lib/services/openrouter.service.ts:212-224 | A failed attempt's recorded message: the API message for a non-ok response, the network error's own message, and none fixed by the client for an abort. |
| Retry.ServerErrorMessage | src/lib/services/openrouter.service.ts:212-214 | A 500 with "Internal Server Error" is reported as "Błąd API: 500 Internal Server Error". |
| Retry.Failed | src/lib/services/openrouter.service.ts:212-221 | An attempt fails unless it got a response with status 200-299; a timeout fails as an abort. |
| Retry.Delay | src/lib/services/openrouter.service.ts:232 | The delay after failure k is `min(baseDelay * 2^k, maxDelay)`. |
| Retry.Loop | src/lib/services/openrouter.service.ts:194-240 | Contract of the loop from any counter. It makes at most the remaining budget of attempts, and sleeps one delay between consecutive attempts and none after the last. Every attempt before the last failed. A body comes from a successful last attempt. A rethrown error is the failure of attempt `maxRetries`. `null` is thrown only when no attempt ran. |
| Retry.MakeRequestMatchesExpected | src/lib/services/openrouter.service.ts:190-241 | The loop agrees with a loop-free reference for every policy and every script. Attempts run up to and including the first success in the budget, with the backoff delays between them. If every attempt fails, all of them run and the last failure is rethrown. |
| Retry.SuccessAfterFailures | src/lib/services/openrouter.service.ts:194-216 | k ≤ maxRetries failures followed by a success: exactly k+1 calls, k delays, and that success's body. |
| Retry.AllAttemptsFail | src/lib/services/openrouter.service.ts:220-236 | maxRetries+1 failures: every attempt runs, no delay follows the last, and the last failure is rethrown. |
| Retry.NullThrownOnlyWithoutBudget | src/lib/services/openrouter.service.ts:240 | The trailing `throw lastError` is reached exactly when `maxRetries` is negative. |
| Retry.ServiceDelays | src/lib/services/openrouter.service.ts:39-44 | With the client's policy 3/1000/5000, the delays are 1000, 2000 and 4000 ms. |
| Retry.ServiceDelayCap | src/lib/services/openrouter.service.ts:39-44 | With that policy, the 5000 ms cap would first apply after a fourth failure, which the budget never reaches. |
| OpenRouter.NewService | src/lib/services/openrouter.service.ts:36-70 | A client exists exactly when the token is present and non-empty. It starts with an empty result cache and holds the configuration the constructor builds, defaults included. |
| OpenRouter.NewServiceDefaults | src/lib/services/openrouter.service.ts:55-61 | A client built from a token alone gets temperature 0.7, 150 tokens, no penalties, and the default model and system message. |
| OpenRouter.UpdateConfiguration | src/lib/services/openrouter.service.ts:93-105 | An update never touches the result cache. The error is thrown exactly when the stored token is empty, and it is the merge's error message. |
| OpenRouter.BuildRequest | src/lib/services/openrouter.service.ts:118-131 | The request has exactly two messages, the configured system message and then the caller's message. It carries the configured model and parameters. |
| OpenRouter.RequestRoundTrip | src/lib/services/openrouter.types.ts:4-16 | The wire body of a request (`max_tokens` and the other snake-case keys) decodes back to the request. |
| OpenRouter.WireRequest | src/lib/services/openrouter.service.ts:118-131 | The API receives `[system, user]`, the configured model and the four parameters verbatim. |
| OpenRouter.Call | src/lib/services/openrouter.service.ts:200-210 | An attempt POSTs to `/chat/completions` with a `Bearer` token header and a body that decodes to the request. |
| OpenRouter.ExtractContent | src/lib/services/openrouter.service.ts:143-148 | Reading `choices` throws a TypeError exactly when the body is `null` or `choices` is missing or `null`. Extracted content is truthy. When `choices` is an array, the result is the first choice's `message.content` if that path exists through objects and the value is truthy, and an empty response otherwise. |
| OpenRouter.ExtractFromEnvelope | src/lib/services/openrouter.service.ts:143-148 | A well-formed envelope yields its content, unless the content is falsy. |
| OpenRouter.SendMessage | src/lib/services/openrouter.service.ts:117-172 | The run is the retry loop's run, and each of its 1 to 4 attempts sends the same call built from the current configuration and the message. A rethrown transport error is the result, after four failed calls. A delivered body yields what `Answer` makes of it. A success is cached; any failure leaves the cache as it was. The configuration is unchanged. |
| OpenRouter.Answer | src/lib/services/openrouter.service.ts:143-155 | A body without readable `choices` is a TypeError, missing or falsy content is an empty response, string content is returned verbatim stamped with `now`, and any other content fails validation with the single issue "Expected string, received" and its type at path `text`. |
| OpenRouter.NonStringTextRefused | src/lib/services/openrouter.service.ts:161-171 | `responseSchema` refuses any non-string `text` next to a numeric timestamp with exactly one issue, at `text`, naming the received type. |
| OpenRouter.Settle | src/lib/services/openrouter.service.ts:140-155 | A rethrown transport error becomes the call's failure unchanged, and a delivered body is handed to the content check and validation. |
| OpenRouter.ServiceRun | src/lib/services/openrouter.service.ts:190-236 | With the client's budget of three retries the loop makes one to four attempts and never throws `null`. A rethrown error follows four failed attempts, and a delivered body comes from the last attempt, which succeeded. |
| OpenRouter.SendMessageDeliversFirstSuccess | src/lib/services/openrouter.service.ts:117-155 | For every script whose first k attempts fail and whose next one answers with a completion carrying non-empty text, k + 1 calls are made and that text, stamped with `now`, is returned and cached. |
| OpenRouter.ThreeFailuresThenSuccess | src/lib/services/openrouter.service.ts:194-236 | A timeout, a network error and a 500, followed by a completion, give four calls, delays 1000/2000/4000, and the cached text. |
| OpenRouter.TransportNeverSucceeds | src/lib/services/openrouter.service.ts:227-229 | Four timeouts rethrow the abort after delays 1000/2000/4000, and the client is unchanged. |
| OpenRouter.EmptyChoicesNotRetried | src/lib/services/openrouter.service.ts:143-148 | An empty `choices` array fails after one call, and the cache is kept. |
| OpenRouter.NonStringContentFailsValidation | src/lib/services/openrouter.service.ts:161-171 | Truthy non-string content passes the emptiness check, then is refused by `responseSchema` with zod's message; the cache is kept. |
| AiParser.LazyClose | src/lib/services/generation.service.ts:138 | The lazy `[\s\S]*?\](?=\s*$)` stops only at a `]` followed by nothing but white space. |
| AiParser.FirstOpen | src/lib/services/generation.service.ts:138 | Locates the first `[` from a position on. |
| AiParser.RegexMatchIsTrailingArray | src/lib/services/generation.service.ts:138 | If the last non-white-space character is `]` and a `[` occurs before it, the expression matches from the first `[` to that `]`. Otherwise it does not match. |
| AiParser.Candidate | src/lib/services/generation.service.ts:138-148 | The text handed to `JSON.parse` is that trailing segment if there is one, and otherwise the trimmed answer. |
| AiParser.FirstBadCard | src/lib/services/generation.service.ts:155-159 | Finds the first card, in `forEach` order, without truthy `front` and `back`. |
| AiParser.Tag | src/lib/services/generation.service.ts:161-164 | A tagged card keeps every field and gains `source: "ai-full"`. |
| AiParser.ParseAiResponse | src/lib/services/generation.service.ts:129-169 | A blank answer is refused. Success means a parsed array whose cards all have truthy `front` and `back`. The output has the same length and order, each card tagged. Every failure carries the fixed prefix. A `JSON.parse` failure is the prefix followed by the parser's own message. |
| AiParser.NullCardNamed | src/lib/services/generation.service.ts:154-167 | A `null` card met before any other bad card fails with the prefix and the runtime's "Cannot read properties of null" message. |
| AiParser.BlankNeverParsed | src/lib/services/generation.service.ts:133-135 | A blank answer is refused before `JSON.parse` runs: any parser gives the same error. |
| AiParser.OnlyCandidateParsed | src/lib/services/generation.service.ts:138-148 | Only the candidate text is parsed: parsers that agree on it give the same result. |
| AiParser.NotArrayRefused | src/lib/services/generation.service.ts:150-152 | A parsed value that is not an array fails with "Odpowiedź nie jest tablicą". |
| AiParser.FirstBadCardNamed | src/lib/services/generation.service.ts:155-158 | The first card with a falsy `front` or `back` is named by its 1-based position. |
| AiParser.EmptyArrayAccepted | src/lib/services/generation.service.ts:150-164 | `[]` is accepted and yields no proposals. |
| AiParser.ValidCardVersusSchema | src/lib/services/generation.service.ts:156 | For string fields, the truthiness check is `flashcardSchema` plus non-emptiness. |
| AiParser.TrailingArrayExample | src/lib/services/generation.service.ts:138 | Prose before the array and a newline after it are cut away. |
| Generation.NewGenerationService | src/lib/services/generation.service.ts:15-31 | The service's client has the flashcard system message, the model, and parameters 0.7/1000/0/0, or fails when the token is missing or empty. |
| Generation.BuildPrompt | src/lib/services/generation.service.ts:43-55 | The prompt is the fixed instructions, then the user's text verbatim, then the fixed closing instructions, each at its own position. |
| Generation.GenerateFlashcards | src/lib/services/generation.service.ts:38-92 | `generated_count` equals the number of proposals, and that is the count in the inserted row. The row records the source length in UTF-16 units, the client's model and the duration. An insert error is rethrown with its prefix. A send failure is passed through unchanged with no row. The call succeeds exactly when the send, the parse and the insert all succeed, and then returns the new id, the parsed proposals and their count. |
| Generation.GeneratedCountIsProposalCount | src/lib/services/generation.service.ts:58-91 | On success the caller gets exactly the parsed proposals of the completion's text, and the row counts them. |
| Generation.ParseFailureSkipsInsert | src/lib/services/generation.service.ts:58-96 | A refused answer stops before the insert, and the parser's error, prefix included, is rethrown unchanged. |
| Generation.CompletionBecomesGeneration | src/lib/services/generation.service.ts:58-91 | For every script of k failures then a completion whose text parses to p, with a successful insert, the caller receives the new id, p and its length. |
| Validation.SchemaIssues | src/lib/services/validation.service.ts:7-12 | The schema raises no issue iff `text` is a string of 1000 to 10000 code units. |
| Validation.ValidateGenerateFlashcardsCommand | src/lib/services/validation.service.ts:19-33 | Exactly one of `data` and `error` is set. `data` is set iff the length is in range, and it holds the text. Too short gives the minimum message; too long gives the maximum message. |
| Validation.AtMostOneIssue | src/lib/services/validation.service.ts:28 | At most one issue is raised, so the joined error is that issue's message. |
| Validation.AcceptsExactlyTheRange | src/lib/services/validation.service.ts:10-11 | Bounds are inclusive at both ends. |
| Validation.MissingTextRefused | src/lib/services/validation.service.ts:24-29 | A body without `text` is refused with "Required". |
| GenerateForm.TextChanged | src/components/generations/GenerateForm.tsx:21-26 | After a change, `isValid` holds iff 1000 ≤ length ≤ 10000. |
| GenerateForm.Submit | src/components/generations/GenerateForm.tsx:29-34 | Submit sends exactly the current text iff the state is valid; otherwise nothing happens. |
| GenerateForm.AfterEdits | src/components/generations/GenerateForm.tsx:16-26 | The initial state is empty and invalid. Every reachable state's flag agrees with its text. |
| GenerateForm.ReachableFormBehaviour | src/components/generations/GenerateForm.tsx:29-70 | In every reachable state: the button is disabled iff nothing would be sent. The form is valid iff neither warning shows, and the two warnings never show together. |
| GenerateForm.ClientAgreesWithServer | src/components/generations/GenerateForm.tsx:25 | The client's predicate accepts exactly the texts the server schema accepts. |
| GenerateForm.SubmittedTextPassesServer | src/components/generations/GenerateForm.tsx:31-32 | Whatever the form submits passes server validation unchanged. |
| FlashcardsList.HandleAccept | src/components/generations/FlashcardsList.tsx:70-77 | Accepting adds the index to the accepted set and forwards the call to `onAccept` if one is given. |
| FlashcardsList.HandleReject | src/components/generations/FlashcardsList.tsx:79-86 | Rejecting adds the index to the rejected set and forwards the call to `onReject` if one is given. |
| FlashcardsList.ClickableOnlyWhenUnmarked | src/components/generations/FlashcardsList.tsx:43-58 | A button is rendered and enabled exactly when its card is neither accepted nor rejected. |
| FlashcardsList.Step | src/components/generations/FlashcardsList.tsx:43-58 | A hidden or disabled button does nothing. Both sets only grow. |
| FlashcardsList.Run | src/components/generations/FlashcardsList.tsx:67-86 | Over any click sequence, both sets only grow. |
| FlashcardsList.RunKeepsDisjoint | src/components/generations/FlashcardsList.tsx:43-58 | Clicking only rendered, enabled buttons keeps the accepted and rejected sets disjoint. |
| FlashcardsList.AcceptForwardedOnce | src/components/generations/FlashcardsList.tsx:43-77 | Each card reaches `onAccept` at most once, and the forwarded cards are exactly the newly accepted ones. |
| ActionButtons.Label | src/components/generations/ActionButtons.tsx:34-43 | A label is the button text, then decimal digits, then `)`. |
| ActionButtons.LabelsShowCounts | src/components/generations/ActionButtons.tsx:34-43 | The labels display `acceptedCards.size` and `proposals.length`. |
| ActionButtons.SpinnerMeansDisabled | src/components/generations/ActionButtons.tsx:21-42 | The spinner shows iff `disabled`, and then neither button is enabled. Otherwise "Save accepted" is enabled iff a card is accepted, and "Save all" iff there is a proposal. |
| GenerationsView.GenerateStarted | src/components/generations/GenerationsView.tsx:31 | Generate start sets `loading` and clears `error`, and changes nothing else. |
| GenerationsView.HandleGenerateSubmit | src/components/generations/GenerationsView.tsx:29-61 | Success replaces the proposals and the generation id and empties the accepted set. Failure keeps them and stores the error message (the fixed one for a non-ok reply). Either way `loading` ends false. |
| GenerationsView.Accept | src/components/generations/GenerationsView.tsx:63-68 | Accepting adds the index and changes nothing else. |
| GenerationsView.AcceptIdempotent | src/components/generations/GenerationsView.tsx:63-68 | Accepting twice is accepting once. |
| GenerationsView.CreatePayload | src/components/generations/GenerationsView.tsx:70-79 | The payload has the input's length and order. Each entry copies `front`, `back` and `source` and carries the current generation id. |
| GenerationsView.SelectedIndices | src/components/generations/GenerationsView.tsx:120 | The indices kept by the filter are accepted, in range, and strictly increasing. |
| GenerationsView.SelectedIndicesComplete | src/components/generations/GenerationsView.tsx:120 | Every accepted index in range is kept. |
| GenerationsView.FilterAccepted | src/components/generations/GenerationsView.tsx:120 | The filter returns the proposals at the selected indices, in that order. |
| GenerationsView.SelectedIndicesCount | src/components/generations/GenerationsView.tsx:120 | The filter keeps one proposal per accepted index in range. |
| GenerationsView.HandleSave | src/components/generations/GenerationsView.tsx:95-138 | Sends the selection stamped with the generation id. Success clears the proposals, the accepted set and the id. Failure keeps them and stores the error. `saving` ends false. |
| GenerationsView.SaveAcceptedSendsAcceptedInOrder | src/components/generations/GenerationsView.tsx:117-122 | "Save accepted" sends the proposal at every accepted index and nothing else, in page order. |
| GenerationsView.SaveAcceptedMatchesLabel | src/components/generations/GenerationsView.tsx:182-188 | "Save accepted" sends as many cards as its label shows. When enabled, it sends at least one. |
| GenerationsView.TransitionsKeepAcceptedInRange | src/components/generations/GenerationsView.tsx:46-106 | Every transition keeps the accepted indices pointing at proposals on the page. |
| Screen.Settle | src/components/generations/GenerationsView.tsx:170-181 | Under the assumption that the list is mounted exactly while there are proposals, an unmounted list restarts fresh and a mounted one keeps its state. |
| Screen.ApplyForwards | src/components/generations/GenerationsView.tsx:177-180 | Calls forwarded by the list add exactly the accepted indices to the page; rejections are dropped, because `onReject` is not passed. |
| Screen.ClickStep | src/components/generations/GenerationsView.tsx:177-180 | A click changes only the page's accepted set, which only grows. |
| Screen.StepAsWritten | src/components/generations/GenerationsView.tsx:170-181 | Under the mounting assumption of `Settle`, a successful regeneration over a mounted list keeps that list's state. |
| Screen.StepCorrected | src/components/generations/GenerationsView.tsx:46-52 | A successful generation starts a fresh list and an empty accepted set. Every other event behaves as written. |
| Screen.RunCorrectedKeepsSynced | src/components/generations/GenerationsView.tsx:46-68 | On the corrected page, the list's accepted set equals the page's, the two list sets stay disjoint, and every mark names a card on the page. |
| Screen.SyncedButtons | src/components/generations/GenerationsView.tsx:95-122 | On an agreeing page, a card's Accept button is clickable iff the card is neither accepted nor rejected. "Save accepted" sends no rejected card; "Save all" sends every card, rejected ones included. |
| Screen.RegenerateKeepsStaleMarks | src/components/generations/GenerationsView.tsx:46-52 | As written, under the mounting assumption of `Settle`: generate, accept card 0, generate again. The page has accepted nothing, but the list shows card 0 accepted and its Accept button is disabled. |
| Screen.StaleCardNeverSelected | src/components/generations/FlashcardsList.tsx:43-68 | As written, once the list shows a card accepted that the page has not accepted, no clicks can add it to the saved selection. |
| Screen.RegenerateCorrected | src/components/generations/GenerationsView.tsx:46-52 | With the correction, the same events leave a fresh list whose card 0 can be accepted. |

## Left out

- HTTP, timers and cancellation. `fetch`, `AbortController`, `setTimeout` and `clearTimeout` are replaced by the scripted attempt outcomes and the returned list of delays. The per-attempt `timeout` is one kind of outcome, not a clock.
- The un-awaited `response.json()` at src/lib/services/openrouter.service.ts:216. It returns the body promise from inside the `try`, so a body that fails to parse rejects outside the retry loop. Bodies are modelled as already-parsed JSON values, so this path is not modelled.
- `handleError` and all logging (src/lib/services/openrouter.service.ts:174-188). They only write to the console.
- The `catch` of `parseResponse` re-throws zod's error unchanged. The message prefix it builds only goes to `handleError`, so it is not modelled.
- The cache race between concurrent `sendMessage` calls, and any interleaving of the page's asynchronous handlers. Each handler is modelled as one atomic step from its first `setState` to its last.
- `sourceTextHash` (MD5), the ISO timestamps, the Supabase client, `DEFAULT_USER_ID` and `logGenerationError`. They are a crypto call, the clock and persistence. The insert is modelled only by its reply.
- Explicit `null`/`undefined` values in a configuration patch. An absent field is `None`. A present `undefined` would also fall back under `??` but would override under the spread of `updateConfiguration`; that case is not modelled.
- Retry.MakeRequest: requires one scripted outcome for each attempt the budget allows (`maxRetries < |outcomes|`), and treats `maxRetries` as an integer. A fractional budget is not modelled.
- zod internals. Only the messages these schemas can produce are modelled: "Required", "Expected X, received Y" and the two custom length messages.
- The non-zod branch of `validateGenerateFlashcardsCommand` (src/lib/services/validation.service.ts:31). `parse` throws only zod errors for these schemas, so the branch is unreachable.
- The API route src/pages/api/generations.ts is HTTP plumbing. Its `new GenerationService(supabase)` (line 35) passes no token, so the client constructor's token check would throw. `Generation.NewGenerationService` proves that a missing token fails.
- Rendering: markup, animations, `toast`, and `SkeletonLoader.tsx`.
- The message of the `AbortError` a timed-out attempt throws is chosen by the runtime, not by the client, so `Retry.ErrorMessage` gives none for an abort.
- Thrown values that are not `Error` objects are modelled only as "no message" (`Reply.Threw(None)`). Their other properties are not.
- `JSON.parse` and `JSON.stringify` are not implemented. Parsing is a function parameter, and a request's wire body is a JSON value.
- Screen.Settle: assumes the list is mounted exactly while `proposals.length > 0`. On the page the list sits in the last of three keyless `motion.div` children of `AnimatePresence` (src/components/generations/GenerationsView.tsx:146-190). The error and loader blocks can appear ahead of it, and whether that remounts the list depends on how `AnimatePresence` reconciles keyless children, which is not modelled.
- Screen.StepAsWritten: its promise that a regeneration keeps the list's state holds only under the mounting assumption of `Screen.Settle`. If the loader shown during generation remounts the list, the page behaves as `Screen.StepCorrected` on a successful generation.
- Screen.RegenerateKeepsStaleMarks: exhibits stale marks only under the mounting assumption of `Screen.Settle`, so the finding below depends on `AnimatePresence` reconciliation.
- OpenRouter.ExtractContent: states the general result only when `choices` is an array. A `choices` that is a string or an object (read through `[0]` as a character or a `"0"` key) is covered only by the TypeError and truthiness clauses.

## Findings

| source | as written | input that shows it | evidently intended | confidence | as-written member | corrected member |
|---|---|---|---|---|---|---|
| src/components/generations/GenerationsView.tsx:46-52 | A successful generation replaces `proposals` and empties the page's `acceptedCards`. If the `FlashcardsList` stays mounted (it has no `key`, and `proposals.length > 0` throughout), its own accepted and rejected sets survive. Whether it stays mounted depends on how `AnimatePresence` reconciles its keyless children when the loader appears ahead of the list. | Generate two cards, accept card 0, then generate two cards again. The page has accepted nothing, while the list shows card 0 as accepted with its Accept button disabled. | Each new generation starts with a fresh list, so the list's marks match the page's accepted set. | low, not executed | Screen.RegenerateKeepsStaleMarks | Screen.RunCorrectedKeepsSynced |
