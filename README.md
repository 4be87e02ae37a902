# ShouldI? decision request pipeline, modelled in Dafny

ShouldI? is a single-page app: the user describes a dilemma, the page sends
it with a short conversation history to a hosted chat model under a fixed
system instruction, and renders the model's JSON reply as a five-panel
report. This project models the local logic around that call and proves
what it promises:

- `types.dfy` (module `Types`): the page status (`idle`, `loading`,
  `analyzed`, `error`), a conversation turn (`user` or `assistant` plus
  text), a decision option, and the analysis with its chat reply and five
  panels.
- `conversation.dfy` (module `Conversation`): the history window,
  `slice(-6)`, used by both the page and the service.
- `strings.dfy` (module `Strings`): the JavaScript string operations the
  code relies on: `trim`, `toLowerCase` and `includes`.
- `gemini_service.dfy` (module `GeminiService`): `analyzeDecision`. It
  checks the key before the `try`, trims the history and builds the message
  list (system instruction first, one message per turn). It classifies the
  HTTP status (429 versus any other non-OK status), detects an empty
  content, and lets the `catch` rewrite every thrown error into one of three
  codes by looking for substrings in the lower-cased message. The network
  call and `JSON.parse` are parameters (`send`, `parse`), so every lemma
  holds for whatever the provider answers; `parse` stands for the decoding
  of a well-formed analysis (see "Left out" for what that abstraction
  drops).
- `app.dfy` (module `App`): the page component as a class `AppState` with
  its seven state fields. `handleAnalyze` is split at its `await` into
  `BeginSubmit` (choose the message, enter `loading`, build the request
  window) and `Settle` (apply the outcome). `HandleAnalyze` runs both around
  the service call. There are also the header reset, the retry button, tab
  selection and input editing. The invariant `Valid()` holds across every
  handler: the history has at most 7 turns, and the `analyzed` status always
  comes with a stored analysis and a history ending in the assistant's turn.
- `wrappers.dfy` (module `Wrappers`): `Option` and `Result`.

The service throws five messages (`KEY_NOT_FOUND`, `QUOTA_LIMIT`,
`GROQ_API_ERROR`, `EMPTY_RESPONSE`, `DECISION_ENGINE_FAILURE`), but its
`catch` lets only three reach the page: `QUOTA_LIMIT`, `KEY_NOT_FOUND` and
`DECISION_ENGINE_FAILURE`. A provider error and an empty response are
rewritten into the generic failure.

## Model

| member | source | states |
|---|---|---|
| Types.AppStatusIsClosed | types.ts:1 | the status is one of exactly four values |
| Types.RoleName | types.ts:3-6 | a history turn's wire role is never `system`: `user` exactly for user turns, `assistant` for assistant turns |
| Strings.Trim | App.tsx:29 | the trimmed text neither starts nor ends with whitespace |
| Strings.TrimIsSlice | App.tsx:29 | the trimmed text is one slice of the input with only whitespace before and after it |
| Strings.TrimEmptyIff | App.tsx:29-30 | trimming gives the empty string exactly when the input is empty or all whitespace |
| Strings.LowerCase | services/geminiService.ts:134 | lower-casing keeps the length and maps each character by the case mapping |
| Strings.LowerCaseIdempotent | services/geminiService.ts:134 | lower-casing a lower-cased string changes nothing |
| Strings.LowerCaseExcludes | services/geminiService.ts:134 | a character absent from the message in both cases is absent from its lower-cased form |
| Strings.Contains | services/geminiService.ts:136-140 | `includes`: the empty needle is in every string, and a needle longer than the haystack is in none |
| Strings.ContainsIff | services/geminiService.ts:136-140 | `includes` holds exactly when the needle occurs at some position of the haystack |
| Strings.MissingCharNotContained | services/geminiService.ts:136-140 | a needle with a character the haystack lacks is not included in it |
| Conversation.TrimHistory | services/geminiService.ts:82 | the window has min(6, n) turns: the last ones of the history, in their original order |
| Conversation.TrimHistoryIdempotent | services/geminiService.ts:82 | trimming an already trimmed history changes nothing |
| Conversation.AppendThenTrim | App.tsx:38-41 | the request window has min(6, n+1) turns: the newest turns of the old history, in order, then the new user turn |
| GeminiService.ToWireAll | services/geminiService.ts:86-89 | one outbound message per turn, in order, with the turn's role and its text as content |
| GeminiService.BuildMessages | services/geminiService.ts:84-90 | the message list has 1 + min(6, n) entries, starts with the system instruction, and no later entry has the system role |
| GeminiService.BuildMessagesMirrorsHistory | services/geminiService.ts:84-90 | entry i after the instruction is the i-th of the newest min(6, n) turns, with its role and text |
| GeminiService.IsOk | services/geminiService.ts:109 | `res.ok`: a status from 200 to 299 |
| GeminiService.KeyMissing | services/geminiService.ts:74 | `!GROQ_API_KEY`: the key is undefined or empty |
| GeminiService.NoContent | services/geminiService.ts:121 | `!text`: the content is absent or empty |
| GeminiService.TryRequest | services/geminiService.ts:92-131 | the `try` succeeds exactly when an OK reply has content that parses, and then returns that analysis with the fallback off; a non-OK status throws what reading its body threw, else the quota message for 429 and the provider-error message otherwise; an OK reply without content throws the empty-response message; a rejected fetch, an undecodable body or a failed parse throws its own message |
| GeminiService.Classify | services/geminiService.ts:132-145 | the `catch` rewrites every message into one of the three codes |
| GeminiService.ClassifyByOccurrence | services/geminiService.ts:134-145 | quota exactly when "quota" or "429" occurs in the lower-cased message; key exactly when neither does and "key" does; the generic failure otherwise |
| GeminiService.ClassifyQuotaLimit | services/geminiService.ts:136-137 | the quota message stays the quota code once reclassified |
| GeminiService.ClassifyKeyNotFound | services/geminiService.ts:140-141 | the key message stays the key code once reclassified |
| GeminiService.ClassifyDecisionEngineFailure | services/geminiService.ts:144 | the generic failure code stays the generic failure |
| GeminiService.ClassifyGroqApiError | services/geminiService.ts:113 | the provider-error message becomes the generic failure |
| GeminiService.ClassifyEmptyResponse | services/geminiService.ts:121-124 | the empty-response message becomes the generic failure |
| GeminiService.ClassifyIdempotent | services/geminiService.ts:132-145 | reclassifying a code leaves it unchanged |
| GeminiService.ClassifyIgnoresCase | services/geminiService.ts:134 | the classification depends only on the lower-cased message |
| GeminiService.AnalyzeDecision | services/geminiService.ts:71-146 | a missing key gives the key code; every failure is one of the three codes; a success has the fallback flag off and holds exactly what parsing the content of an OK reply to the built messages gave |
| GeminiService.MissingKeySendsNothing | services/geminiService.ts:74-77 | with no key the result is the key code whatever the network would answer: no request is sent |
| GeminiService.OnlyBuiltMessagesAreSent | services/geminiService.ts:92-105 | the result depends on the network only through its answer to the built message list |
| GeminiService.QuotaStatusIsQuotaLimit | services/geminiService.ts:109-112 | HTTP 429 whose body reads ends as the quota code |
| GeminiService.ErrorStatusIsEngineFailure | services/geminiService.ts:109-113 | any other non-OK status whose body reads ends as the generic failure |
| GeminiService.EmptyContentIsEngineFailure | services/geminiService.ts:121-124 | an OK reply with missing or empty content ends as the generic failure |
| GeminiService.ParsedContentIsReturned | services/geminiService.ts:126-131 | an OK reply whose content parses gives that analysis with the fallback flag off |
| GeminiService.ThrownErrorsAreClassified | services/geminiService.ts:94-145 | errors thrown by the network, by reading a non-OK body, by body decoding or by parsing reach the caller only as their classification |
| GeminiService.RetrimmingChangesNothing | services/geminiService.ts:82 | trimming the already trimmed window the page sends makes no difference to the result |
| App.SubmittedText | App.tsx:29-30 | a non-empty custom message is used verbatim; otherwise the trimmed input; the result is empty exactly when there is no custom message and the input is blank |
| App.ErrorMessage | App.tsx:60-66 | the capacity message exactly for the quota code, the key message exactly for the key code, the generic message otherwise |
| App.AssistantText | App.tsx:52 | the assistant turn's text is never empty: the chat reply when that is non-empty, the placeholder "Strategy map updated." otherwise |
| App.AppState.constructor | App.tsx:13-19 | the initial state: idle, empty input and history, no analysis, no error, the map tab, fallback off |
| App.AppState.ShowsReport | App.tsx:160 | the report guard: the status is analyzed and an analysis is stored |
| App.AppState.ReportShownIffAnalyzed | App.tsx:160 | in a valid state the report guard holds exactly in the analyzed status |
| App.AppState.EditInput | App.tsx:127 | only the input changes |
| App.AppState.BeginSubmit | App.tsx:28-41 | a blank submission changes nothing; otherwise loading, error cleared, fallback off, and the request is the old history plus the user turn cut to min(6, n+1) turns ending with that turn |
| App.AppState.Settle | App.tsx:45-68 | success replaces the analysis, sets history to the request plus the assistant turn, status analyzed, input empty, map tab; failure sets the message for the code and status error, keeping history and analysis |
| App.AppState.HandleAnalyze | App.tsx:27-69 | the composed submission: a blank one changes nothing; otherwise the final state is the one the service's result determines, with the error cleared on success and the fallback flag always off |
| App.AppState.Reset | App.tsx:77-81 | from any state: idle, no analysis, empty history; error, input, tab and flag untouched |
| App.AppState.Retry | App.tsx:152 | only the status changes, to idle |
| App.AppState.SelectTab | App.tsx:168 | only the active tab changes |

## Left out

- Rendering (JSX, the panel component, CSS classes, the scenario buttons' labels and colours) is presentation only; only the fields it reads are modelled.
- The scroll-into-view effect (App.tsx:23-25) is DOM I/O.
- `fetch`, the request headers, the endpoint, the model identifier, the temperature and the reading of the key from the environment are I/O. The key is an `Option<string>` input and the network is the function `send`. The text `res.text()` reads from a non-OK reply is only logged and is not modelled; its failure is (the `textError` of a response), since the `catch` then classifies that error's message instead of the status code.
- `JSON.parse` and `JSON.stringify` are foreign calls. Parsing is the function `parse`, which returns a well-formed analysis or an error message.
- App.AppState.ReportShownIffAnalyzed and App.AppState.Settle: the code casts whatever JSON value the content holds to an analysis without checking its shape (services/geminiService.ts:126-129), while `parse` only yields well-formed analyses. So the model does not capture two consequences. Content `null` makes App.tsx:45 store no analysis and App.tsx:52 then throw, so the page ends in `error` with the previous analysis lost, where the model's failure branch keeps it. Content such as `0`, `false` or `""` gives status `analyzed` with a falsy analysis, so the App.tsx:160 guard is false in the analyzed status, contrary to ReportShownIffAnalyzed.
- The system instruction's wording is an uninterpreted constant; its "three options, three to five questions, confidence 0–100" rules are not enforced by the code and are not properties of the model.
- Strings.LowerCase: maps only the ASCII capitals and the Kelvin sign (to `k`), not the full Unicode case mapping. To our reading of the Unicode case tables, no other character lower-cases to a string containing one of the letters of "quota", "429" or "key". So the classification agrees with the full mapping, but other strings do not.
- Thrown values that are not `Error` objects, or errors without a `message`, are not modelled; every thrown value carries a message string.
- The confidence score is a `real`; JavaScript floating point is not modelled, because the code never computes with the score.
- Logging (`console.log`, `console.error`) is left out.
- Concurrency: the page does not block a second submission while one is loading, and a reset during loading is followed by the pending request's settlement. The model runs `BeginSubmit` and `Settle` as two steps in sequence and does not reason about interleavings. `Settle` requires a request window of at most six turns, which is what `BeginSubmit` returns.
- The `lab` and `quick` tabs have no rendering of their own; only the `activeTab` value is modelled.
