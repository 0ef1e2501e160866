# A verified model of the paper-summary client's session, chat, upload and API logic

This is a model of the browser client for the scientific-paper summariser.
The client's logic lives in five places:

- **The session provider** (`SessionContext.jsx`). It holds four fields: the summary, the chat history, the processing option and the theme. Each is initialised from `localStorage` and written back by a React effect whenever it changes. The theme sets a `dark` flag on the page, and `resetSession` clears three of the four fields.
- **The chat page** (`Chat.jsx`). It keeps a log of `{role, content}` messages in `localStorage` under `chatMessages`. The log is seeded from the summary when nothing is stored. Sending refuses whitespace-only input; otherwise it appends the user's message at once and, on a timer, an `Echo: ` reply.
- **The upload page** (`Upload.jsx`). It has a 20 MiB file-size gate and a summary-length field. The field accepts any text as it is typed, is clamped into 50..500 words when it loses focus, and is checked against that range on submit. Submit checks the option, then the file, then the length, in that order. A submit that passes all three clears the chat keys of the tab's `sessionStorage` and saves the file and the length there.
- **The service client** (`api.js`). It builds the request payloads and makes a single attempt at each of its four operations. The `catch` block of each operation rewrites some errors into user messages and rethrows the rest.
- **The diagnostics helpers** (`apiTesting.js`). These are the error explanation and three tests that always succeed.

The model is one Dafny module per source file, over four supporting modules:

| module | file | models |
|---|---|---|
| `Common` | `common.dfy` | `Option` |
| `JsText` | `js_text.dfy` | the JavaScript string semantics the client relies on: `trim`, `parseInt` (whitespace, sign, `0x`, longest digit prefix, `NaN` as `None`), `Number#toString` on integers, `String#includes` |
| `Json` | `json.dfy` | `JSON.stringify` and `JSON.parse` for the three shapes the client stores (a string, an array of strings, an array of `{role, content}`), with round-trip proofs |
| `Storage` | `storage.dfy` | a `KeyValueStore` class: `localStorage` and `sessionStorage` are two distinct instances |
| `Session` | `session_context.dfy` | `SessionProvider` (a class over the store), the initialisation rules, `resetSession` |
| `Chat` | `chat.dfy` | `ChatView` (a class over the log and the store); the echo timers are a first-in, first-out queue of captured inputs |
| `Upload` | `upload.dfy` | pure validation, clamping and submit-gate functions; the `UploadPage` class applies them to its state and the tab store |
| `QaClient` | `api.dfy` | the payload builders, the one-attempt `try` block, and the ordered error classifiers; `fetch` is a parameter `respond` |
| `ApiTesting` | `api_testing.dfy` | `getApiErrorExplanation` and the three constant tests |

The model follows the code. It adds no behaviour the code does not have:

- The code has no typing renderer.
- It has no loading placeholder and no error message entries in the chat log.
- It has no document history, no session recovery and no typed error classes.
- Its "retry" wrapper makes exactly one attempt.
- It seeds the chat log with a `system` message, not a bot message.
- `resetSession` does not clear the chat log (`chatMessages` in `localStorage`).
- The upload page clears `chatMessages` in `sessionStorage`, so an upload does not clear the persisted chat log either (`Upload.SubmitKeepsChatLog`).

React's rules are modelled where they matter:

- A setter given a value equal to the current one does not re-render, so its write-through effect does not run.
- An array passed to `setChatHistory` is always new, so its effect always runs.
- The effects run after the handler. This is why `resetSession` removes three keys and the re-render then writes some of them back (`Session.AfterReset`).

## Model

| member | source | states |
|---|---|---|
| `Session.LoadSummary` | src/context/SessionContext.jsx:6 | an absent `summary` key initialises the summary to `''` |
| `Session.LoadChatHistory` | src/context/SessionContext.jsx:7 | an absent `chatHistory` key initialises the history to `[]` |
| `Session.LoadProcessingOption` | src/context/SessionContext.jsx:8 | the processing option is the stored text, `''` when the key is absent |
| `Session.LoadTheme` | src/context/SessionContext.jsx:9 | the theme is the stored text unless it is absent or empty, in which case it is `'light'`; it is never empty |
| `Session.Restore` | src/context/SessionContext.jsx:6-9 | the initial state always has a non-empty theme and the stored processing option |
| `Session.RestoreDefaults` | src/context/SessionContext.jsx:6-9 | with none of the four keys stored, the state is `''`, `[]`, `''`, `'light'` |
| `Session.ReloadReadsBack` | src/context/SessionContext.jsx:6-24 | a store kept in agreement with a state reloads to that state, with an empty theme read back as `'light'` |
| `Session.ReloadRestores` | src/context/SessionContext.jsx:6-24 | with a non-empty theme, re-initialising from the store reproduces the state exactly |
| `Session.EmptyThemeReloadsLight` | src/context/SessionContext.jsx:9-24 | an empty theme is stored as `''` and comes back as `'light'` |
| `Session.Cleared` | src/context/SessionContext.jsx:32-35 | reset sets summary `''`, history `[]`, option `''` and keeps the theme |
| `Session.ResetPersists` | src/context/SessionContext.jsx:11-39 | after the removals and the re-render's effects, the store agrees with the cleared state |
| `Session.ResetReloadsCleared` | src/context/SessionContext.jsx:11-39 | for a non-empty theme, a reload after a reset gives the cleared state |
| `Session.ResetKeepsOtherKeys` | src/context/SessionContext.jsx:32-39 | reset leaves the `theme` key and every key other than the three it clears unchanged |
| `Session.ResetIdempotent` | src/context/SessionContext.jsx:32-39 | two resets give the same state as one, and a reload after either gives that state |
| `Session.ResetTwiceRemovesSummaryKey` | src/context/SessionContext.jsx:11-39 | the raw store differs after one and two resets: a non-empty summary is written back as `""` by the first reset and removed by the second |
| `Session.SessionProvider.constructor` | src/context/SessionContext.jsx:5-30 | the first render's effects write all four keys, and the dark flag follows the theme |
| `Session.SessionProvider.Mount` | src/context/SessionContext.jsx:5-30 | the provider starts in the state read from the store and its effects write the four session keys, leaving every other key as it was; or initialisation fails on an unreadable stored text and the store is untouched |
| `Session.SessionProvider.SetSummary` | src/context/SessionContext.jsx:11-13 | the summary changes, and the store is rewritten (JSON-encoded) only when the value differs |
| `Session.SessionProvider.SetChatHistory` | src/context/SessionContext.jsx:15-17 | the history changes and is always rewritten, JSON-encoded |
| `Session.SessionProvider.SetProcessingOption` | src/context/SessionContext.jsx:19-21 | the option changes, and it is rewritten raw only when it differs |
| `Session.SessionProvider.SetTheme` | src/context/SessionContext.jsx:23-30 | the theme changes; the dark flag is set exactly when the theme is `'dark'`; the store is rewritten only when the theme differs |
| `Session.SessionProvider.ResetSession` | src/context/SessionContext.jsx:32-39 | the state becomes the cleared state, the dark flag is kept, and the store becomes `AfterReset` of the old store |
| `Session.SessionProvider.ResetEffects` | src/context/SessionContext.jsx:11-21 | after the three removals, the summary is written back as `""` only if it was non-empty, the history as `[]` always, and the option as `''` only if it was non-empty, which is `AfterReset` of the store before the removals |
| `Json.DecodeQuote` | src/context/SessionContext.jsx:6-13 | `JSON.parse(JSON.stringify(s)) === s` for the stored summary |
| `Json.StringsRoundTrip` | src/context/SessionContext.jsx:7-17 | parsing the stored chat history gives the same array of strings |
| `Json.MessagesRoundTrip` | src/pages/Chat/Chat.jsx:9-16 | parsing the stored chat log gives the same messages |
| `Chat.InitialLog` | src/pages/Chat/Chat.jsx:8-11 | with no stored log (or an empty stored text), the log is one `system` message with the summary when the summary is non-empty, and empty otherwise |
| `Chat.ReloadRestoresLog` | src/pages/Chat/Chat.jsx:8-17 | a stored log wins over the summary and reloads as it was |
| `Chat.StoredEmptyLogIsNotReseeded` | src/pages/Chat/Chat.jsx:8-11 | once `[]` has been stored, the summary no longer seeds the log |
| `Chat.CanSend` | src/pages/Chat/Chat.jsx:24 | a send goes ahead exactly when the input has a non-whitespace character |
| `Chat.ChatView.constructor` | src/pages/Chat/Chat.jsx:8-17 | the first render stores the initial log under `chatMessages` |
| `Chat.ChatView.Open` | src/pages/Chat/Chat.jsx:8-17 | the page opens with `InitialLog` of the stored text and summary and no echo pending, and only `chatMessages` is written; or it fails on an unreadable stored text and leaves the store untouched |
| `Chat.ChatView.SetInput` | src/pages/Chat/Chat.jsx:61 | typing changes only the input |
| `Chat.ChatView.SendMessage` | src/pages/Chat/Chat.jsx:23-34 | a blank input changes nothing; otherwise exactly one user message with the untrimmed input is appended, earlier messages are kept, the input is cleared, the log is stored, and one echo of that input is queued |
| `Chat.ChatView.DeliverEcho` | src/pages/Chat/Chat.jsx:30-33 | the oldest queued echo appends exactly one `bot` message `Echo: ` + the input captured at send time, earlier messages are kept, and the log is stored |
| `Chat.ChatView.KeyDown` | src/pages/Chat/Chat.jsx:36-41 | Enter without Shift sends; any other key changes nothing |
| `Chat.SendAll` | src/pages/Chat/Chat.jsx:23-28 | a run of sends appends one user message per non-blank input, in order, and queues one echo for each |
| `Chat.SendStep` | src/pages/Chat/Chat.jsx:23-28 | one more send extends the run of sends as `SendAll` describes |
| `Chat.DeliverAll` | src/pages/Chat/Chat.jsx:30-33 | firing every queued echo appends one `Echo: ` reply per queued input, in order, and empties the queue |
| `Chat.DeliverStep` | src/pages/Chat/Chat.jsx:30-33 | one more echo fires: the log gains the echo of the oldest queued input, and that input leaves the front of the queue |
| `Chat.SendAllThenDeliver` | src/pages/Chat/Chat.jsx:23-34 | after a run of sends and all their echoes, the log is the old log, then the user messages, then the echoes: each accepted send is echoed exactly once |
| `Chat.SendableIsNonBlank` | src/pages/Chat/Chat.jsx:24 | the accepted inputs are exactly the inputs that are not blank |
| `Chat.SendablePrefix` | src/pages/Chat/Chat.jsx:23-24 | the inputs accepted from one more typed input are those accepted before, plus that input when it is not blank |
| `Upload.ChooseFile` | src/pages/Upload/Upload.jsx:35-48 | a file over 20 MiB is refused (no file, size error); a file of at most 20 MiB, or no file, is taken and the error is cleared |
| `Upload.UploadPage.FileChange` | src/pages/Upload/Upload.jsx:35-48 | the page's file and error become `ChooseFile` of the chosen file; nothing else changes |
| `Upload.LengthMessage` | src/pages/Upload/Upload.jsx:50-75 | the empty text is valid; an unparsable text, a number above 500 and a number below 50 each get their message; a text is valid exactly when it is empty or parses to 50..500 |
| `Upload.UploadPage.ValidateLength` | src/pages/Upload/Upload.jsx:50-75 | returns true exactly when the message is empty and sets `lengthError` to it; nothing else changes |
| `Upload.Change` | src/pages/Upload/Upload.jsx:77-90 | the text is kept as typed; empty unsets the length and clears the error; a parsable text sets the length to the number; an unparsable one keeps the length and error |
| `Upload.UploadPage.SummaryLengthChange` | src/pages/Upload/Upload.jsx:77-90 | the length fields become `Change` of the old ones; the rest of the page is unchanged |
| `Upload.Clamp` | src/pages/Upload/Upload.jsx:104-116 | the result is in 50..500: 500 above, 50 below, the number itself inside |
| `Upload.Blur` | src/pages/Upload/Upload.jsx:92-117 | empty clears the error; unparsable sets the invalid-number error; a number is clamped, the length is the clamped number, the text is its decimal form, and the error is the validator's message |
| `Upload.UploadPage.SummaryLengthBlur` | src/pages/Upload/Upload.jsx:92-117 | the length fields become `Blur` of the old ones, and the length stays in step with the text written back; only the three length fields may change |
| `Upload.ChangeKeepsCoherent` | src/pages/Upload/Upload.jsx:77-90 | after typing, an empty text means no length and a parsable text means its number |
| `Upload.BlurKeepsCoherent` | src/pages/Upload/Upload.jsx:98-116 | leaving the field keeps the length equal to the number the written-back text parses to |
| `Upload.BlurSettles` | src/pages/Upload/Upload.jsx:104-116 | blurring again leaves the text and length unchanged, clears the error for a number, and a third blur changes nothing |
| `Upload.BlurKeepsInRange` | src/pages/Upload/Upload.jsx:112-116 | a number already in 50..500 is left as it is, with no error |
| `Upload.SubmitCheck` | src/pages/Upload/Upload.jsx:119-131 | first failure wins: no option, then no file, then an invalid non-empty length; it passes exactly when all three are fine |
| `Upload.SubmittedLengthInRange` | src/pages/Upload/Upload.jsx:129-146 | on a passing submit the length is unset for an empty field and otherwise a number in 50..500, so it is saved exactly when a length was typed |
| `Upload.ClearChatKeys` | src/pages/Upload/Upload.jsx:133-138 | exactly the five chat keys are gone and every other key is unchanged |
| `Upload.RemoveChatKeys` | src/pages/Upload/Upload.jsx:133-138 | the five `removeItem` calls leave the store as `ClearChatKeys` of the old one |
| `Upload.SaveUpload` | src/pages/Upload/Upload.jsx:141-147 | the data URL is saved under `uploadedFile`; the captured length is saved as decimal text only when truthy; other keys are unchanged |
| `Upload.SavedLengthReadsBack` | src/pages/Upload/Upload.jsx:129-146 | a typed length that passed submit is saved as a text that `parseInt` reads back as the same number in 50..500 |
| `Upload.UploadPage.constructor` | src/pages/Upload/Upload.jsx:21-27 | the option starts as the session's processing option and every other field is empty |
| `Upload.UploadPage.SelectOption` | src/pages/Upload/Upload.jsx:30-33 | the option is selected on the page and recorded in the session; the dark flag is kept, and `processingOption` is written to the store only when it changed, every other key being left as it was |
| `Upload.UploadPage.Submit` | src/pages/Upload/Upload.jsx:119-150 | the gate is `SubmitCheck`; a failed check sets its own message and leaves the tab store alone; a pass removes the five chat keys and starts a read capturing the current length |
| `Upload.UploadPage.ReadLoaded` | src/pages/Upload/Upload.jsx:141-148 | a finished read saves the upload as `SaveUpload` with the length captured at submit time |
| `Upload.SubmitKeepsChatLog` | src/pages/Upload/Upload.jsx:133-138 | a submit leaves the chat page's log and `localStorage` unchanged |
| `JsText.TrimEmptyIffBlank` | src/pages/Chat/Chat.jsx:24 | `s.trim()` is empty exactly when `s` is all whitespace |
| `JsText.IsBlankAt` | src/pages/Chat/Chat.jsx:24 | a text is blank exactly when every one of its characters is whitespace |
| `JsText.ParseIntOfIntToString` | src/pages/Upload/Upload.jsx:114 | `parseInt(n.toString())` is `n` |
| `JsText.ParseIntIgnoresTrailingText` | src/pages/Upload/Upload.jsx:56 | a run of decimal digits followed by a non-digit reads as the digits' value, as `parseInt("12abc")` is 12 and `parseInt("012abc")` is 12; only a lone `0` before `x` starts a hexadecimal number instead |
| `JsText.ParseIntRejectsNonNumeric` | src/pages/Upload/Upload.jsx:56-61 | a text starting with a non-numeric character is `NaN`, as for `"abc"` |
| `JsText.IncludesIffOccurs` | src/services/api.js:82-95 | `text.includes(w)` holds exactly when `w` occurs in `text` at some position |
| `QaClient.RetryOperation` | src/services/api.js:27-29 | the operation's result, or error, is passed on unchanged |
| `QaClient.CheckServer` | src/services/api.js:35-38 | always the configured base URL |
| `QaClient.Attempt` | src/services/api.js:56-68 | only an OK response with a parsed body resolves, with that body; a non-OK response throws `API error (status): text`; a fetch error, and the parse error of an OK response's body, are thrown as they are |
| `QaClient.CommonRewrite` | src/services/api.js:144-152 | `AbortError` gives the operation's timeout message; `Failed to fetch` gives the network message; everything else is rethrown |
| `QaClient.ServerMessageRewrite` | src/services/api.js:82-95 | first match among `No file provided`, `Unsupported file format`, `File size exceeds` gives its message; no match means rethrow |
| `QaClient.IngestRewrite` | src/services/api.js:72-97 | the ingest order: timeout, then network, then the substring rules |
| `QaClient.Rethrow` | src/services/api.js:72-97 | a rewrite becomes `new Error(message)`; otherwise the same error is rethrown |
| `QaClient.ApiErrorIncludes` | src/services/api.js:63-95 | the ingest substrings occur in `API error (status): text` exactly when they occur in `text` |
| `QaClient.IngestApiErrorByBody` | src/services/api.js:53-97 | the error thrown for a non-OK ingest response is reclassified by the response text, as the substring rules would classify the text alone |
| `QaClient.IngestSizeRejection` | src/services/api.js:53-94 | a non-OK ingest response whose text says `File size exceeds` (and none of the earlier phrases) ends in the 20MB message |
| `QaClient.ApiErrorPropagates` | src/services/api.js:133-152 | for ask, follow-up and summarise the `API error` is rethrown unchanged |
| `QaClient.AskPayload` | src/services/api.js:109-119 | `query` and `top_k` always, with `top_k` 5 when omitted; `document_id` exactly when the id is truthy |
| `QaClient.FollowUpPayload` | src/services/api.js:163-172 | `query` always; `document_id` exactly when the id is truthy |
| `QaClient.SummaryPayload` | src/services/api.js:217-224 | exactly `doc_id`, `summary_type` (default `'comprehensive'`) and `max_length` (default 250) |
| `QaClient.IngestDocument` | src/services/api.js:45-100 | posts the file to the ingest path; resolves exactly when the attempt does; every failure goes through the ingest rules, and a non-OK response is classified by its text |
| `QaClient.PostJson` | src/services/api.js:121-154 | posts the payload to the path; resolves exactly when the attempt does; a non-OK response is rejected with its `API error` unchanged |
| `QaClient.AskQuestion` | src/services/api.js:109-155 | the ask request: payload keys exactly `query`, `top_k` (5 when omitted) and, when the id is truthy, `document_id` with that id; resolves only with parsed OK data; failures rewritten by the ask timeout and network rules only |
| `QaClient.GetFollowUpQuestions` | src/services/api.js:163-208 | the follow-up request: payload keys exactly `query` and, when the id is truthy, `document_id` with that id; resolves only with parsed OK data; failures rewritten by the follow-up timeout and network rules only |
| `QaClient.GetSummary` | src/services/api.js:217-260 | the summarise request with its defaulted payload; resolves only with parsed OK data; failures rewritten by the summary timeout and network rules only |
| `ApiTesting.GetApiErrorExplanation` | src/services/apiTesting.js:43-58 | no error gives the unknown-cause triple; an error gives its non-empty message or `Unknown error occurred`, with the fixed cause and solution; the message is never empty |
| `ApiTesting.TestNetworkConnectivity` | src/services/apiTesting.js:13-22 | always connected, status 200 `OK` |
| `ApiTesting.TestApiConnection` | src/services/apiTesting.js:28-36 | always a success with the fixed message, no details and no recommendation |
| `ApiTesting.TestApiFeature` | src/services/apiTesting.js:65-68 | every feature is available, with no reason |

## Left out

- I/O:
  - `fetch`, `FormData`, `FileReader` and `navigate('/processing')` are not modelled as such.
  - The network is the parameter `respond`.
  - The file read is the `dataUrl` argument of `Upload.UploadPage.ReadLoaded`.
  - The file input's `e.target.value = ''` is DOM work.
- Rendering and presentation:
  - `debugLog` and console output.
  - Scrolling and React rendering.
  - The `dark` class on the page body, which is the boolean `darkMode`.
- Timer timing is not modelled. The chat echoes are a first-in, first-out queue, because they all share the same delay. An unmount while echoes are pending (React's warning, and the append to a discarded log) is not modelled.
- JSON:
  - Only the exact text `JSON.stringify` writes is read, for a string, an array of strings and an array of `{role, content}` records.
  - Any other stored text is treated as an initialisation that throws. This includes valid JSON of another shape, such as a stored `0`, which the source would read through `|| ''`.
  - Lone surrogate code points in strings are not modelled. A `\u` escape of a surrogate code unit is read as a parse failure, even when two of them form a well-formed pair such as `\ud83d\ude00`, which `JSON.parse` combines into one character.
- Element types:
  - Chat-history elements are strings; the provider never looks inside them.
  - Document ids and request fields are strings or integers.
- Numbers: `parseInt` results are unbounded integers. The source's doubles lose precision above 2^53 and print in exponent form above 10^21.
- Concurrent reads: file reads started by repeated submits finish in any order (`ReadLoaded` takes the index). The browser's own scheduling of them is not modelled.
- Storage errors: a `QuotaExceededError` from `setItem` is not modelled; the store always accepts a write.
- Out of scope: the connection-status component, the About and Home pages, and the results page's redirect are not part of this model.
- `Session.ReloadRestores` and `Session.ResetReloadsCleared`: require a non-empty theme, because the source reads an empty stored theme back as `'light'` (`Session.EmptyThemeReloadsLight`).
