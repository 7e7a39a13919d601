# Bedrock agent chat: session and streaming engine

A Dafny model of the session and streaming engine of a chat front-end for a
remote generative agent (`src/ChatComponent.jsx`), and of the configuration
cascade it starts from (`getConfig` in `src/utils/configUtils.js`).

The engine keeps a per-session message log in browser storage under the keys
`messages_<sessionId>`, decides which session is active (`lastSessionId`),
sends a user utterance to the agent and folds the returned event stream
(traces and text chunks) into a completion while the streaming agent message
is updated in place. After each normal call it persists a user record together
with either the agent record or an error record. On "end session" it invokes
the agent with the termination flag and starts a fresh session. It also turns
the agent's memory contents into session summaries and classifies memory
errors.

Layout, one module per file:

- `wrappers.dfy`: `Option`.
- `js_text.dfy` (`JsText`): the JavaScript value semantics the code relies on:
  truthiness of optional strings, `||` defaults, `trim()` blankness,
  `Date.now().toString()`, `includes`, and thrown errors with
  `err.message || JSON.stringify(err)`.
- `config.dfy` (`Config`): `getConfig` as a pure function over its optional
  inputs.
- `messages.dfy` (`Messages`): the message record and the list maps and
  filters the component applies.
- `message_log.dfy` (`MessageLog`): the storage log as a `map` from key to
  message list.
- `stream.dfy` (`Stream`): the event stream and the reference definitions of
  its fold.
- `memory.dfy` (`Memory`): the summary filter/map and the error
  classification of `fetchMemorySummaries`.
- `chat.dfy` (`Chat`): the component as a class whose fields the operations
  update in place. The `for await` loop is a method with a loop invariant,
  proved against the `Stream` fold.

The network, the identity provider and the clock are inputs:

- `Invocation` is what the agent call yields: a rejection, a missing stream, or the stream's events followed by the error the iterator itself may throw after them.
- `MemoryResponse` is what the memory call yields.
- `auth` is the failure of `fetchAuthSession`, if any.
- `Stamps` and `EndStamps` are the `Date.now()` readings.

## Model

| member | source | states |
|---|---|---|
| JsText.OrElse | src/utils/configUtils.js:70-73 | `s \|\| fallback` is either the fallback or the string itself, and it is non-empty exactly when the string is truthy or the fallback is non-empty |
| JsText.DecimalString | src/ChatComponent.jsx:157 | `Date.now().toString()` is a non-empty string of decimal digits, with at least two digits from 10 on |
| JsText.DecimalStringInjective | src/ChatComponent.jsx:157 | two different instants never give the same session id |
| JsText.ContainsInfix | src/ChatComponent.jsx:358 | `includes` finds a text wherever it is embedded |
| JsText.Contains | src/ChatComponent.jsx:358 | `includes` as a definition: the text occurs at the start or somewhere later; `ContainsInfix` states its property |
| JsText.IsBlank | src/ChatComponent.jsx:376 | `!text.trim()` as a definition: every character is JavaScript white space; `SummarizePromptNotBlank` uses it |
| JsText.ErrorText | src/ChatComponent.jsx:523 | the error text is the message or the serialisation, and it is empty only when both are |
| Config.EnvBedrock | src/utils/configUtils.js:40-45 | the agent name built from the environment is never empty |
| Config.EnvComplete | src/utils/configUtils.js:49-54 | the guard as a definition: the six required variables are truthy; `EnvironmentChosenIffComplete` and `IdentityPoolNotRequired` state its properties |
| Config.EnvConfig | src/utils/configUtils.js:33-46 | `envConfig` as a definition: the raw Cognito variables and the defaulted Bedrock part |
| Config.ExportsConfig | src/utils/configUtils.js:59-76 | the exports configuration as a definition; `ExportsFallback` states its fields |
| Config.EmptyConfig | src/utils/configUtils.js:79-92 | the empty configuration as a definition; `EmptyDefault` states its fields |
| Config.GetConfig | src/utils/configUtils.js:25-93 | a stored configuration is returned as it is; every other path yields a non-empty agent name |
| Config.StoredConfigWins | src/utils/configUtils.js:27-30 | a stored configuration is returned unchanged, whatever the environment and the exports hold |
| Config.EnvironmentChosenIffComplete | src/utils/configUtils.js:49-92 | without a stored configuration, the environment's configuration is returned when all six required variables are non-empty, and otherwise the exports configuration, or the empty one when there are no exports |
| Config.EnvironmentConfigIsComplete | src/utils/configUtils.js:33-56 | when the environment is used, each required field is non-empty and is the environment's value |
| Config.IdentityPoolNotRequired | src/utils/configUtils.js:33-56 | the identity pool variable is not among the required ones; changing it changes the result only when the environment's configuration is returned, and then only its `identityPoolId` |
| Config.AgentNameDefaults | src/utils/configUtils.js:44 | an unset or empty agent name variable gives 'Agent' on the environment and exports paths |
| Config.ExportsFallback | src/utils/configUtils.js:59-76 | the exports path takes the Cognito fields from the exports and the Bedrock fields from the environment, defaulting to '' and 'Agent' |
| Config.EmptyDefault | src/utils/configUtils.js:79-92 | when no source applies, every string is '' except the agent name 'Agent' |
| Messages.WithoutTemporary | src/ChatComponent.jsx:551 | the filter leaves no temporary message, keeps every non-temporary one, and adds nothing |
| Messages.ReplaceText | src/ChatComponent.jsx:474-480 | the chunk map keeps the length of the list; `ReplaceTextAt` gives it element by element |
| Messages.FinishStreaming | src/ChatComponent.jsx:498-504 | the final map keeps the length of the list; `FinishStreamingAt` gives it element by element |
| Messages.ReplaceTextAt | src/ChatComponent.jsx:474-480 | a chunk update sets the text of exactly the messages with the agent message id; every other message is unchanged |
| Messages.FinishStreamingAt | src/ChatComponent.jsx:498-504 | the final update sets the text and clears `isStreaming` of exactly the messages with the id; every other message is unchanged |
| Messages.ReplaceTextTwice | src/ChatComponent.jsx:470-480 | the text is replaced and not extended: two chunk updates leave only the second text |
| Messages.FinishAfterReplace | src/ChatComponent.jsx:497-504 | the final update overrides whatever the chunk updates showed |
| Messages.UpdatesIgnoreOtherIds | src/ChatComponent.jsx:475-478 | a list without the id is left as it is by both updates |
| Messages.UpdatesDistribute | src/ChatComponent.jsx:474-480 | both updates act message by message, so they split over concatenation |
| Messages.ErrorCountConcat | src/ChatComponent.jsx:521-527 | the number of error messages of a concatenation is the sum of the parts' |
| Messages.ReplaceTextKeepsErrorCount | src/ChatComponent.jsx:474-480 | chunk updates add or remove no error message |
| Messages.WithoutTemporaryDistributes | src/ChatComponent.jsx:551 | the filter keeps the order of the list |
| Messages.WithoutTemporaryKeepsPermanent | src/ChatComponent.jsx:551 | a list without temporary messages passes unchanged, so the filter is idempotent |
| Messages.WithoutTemporaryCounts | src/ChatComponent.jsx:551 | every non-temporary message survives as often as it occurs, and no temporary one survives |
| MessageLog.MessagesKey | src/ChatComponent.jsx:183 | the key of a session is `messages_` followed by the session id |
| MessageLog.MessagesKeyInjective | src/ChatComponent.jsx:183 | different sessions never share a key |
| MessageLog.Read | src/ChatComponent.jsx:182-185 | a session whose key is absent reads as the empty list |
| MessageLog.Append | src/ChatComponent.jsx:193-200 | the session's list becomes the stored list followed by the new messages; other sessions read as before; one key at most is added |
| MessageLog.Reset | src/ChatComponent.jsx:164 | a new session reads as the empty list; other sessions read as before |
| MessageLog.AppendAllExtends | src/ChatComponent.jsx:193-200 | after any number of appends the list is the earlier list followed by every batch in order, and other sessions are untouched |
| MessageLog.AppendKeepsPrefix | src/ChatComponent.jsx:193-200 | an append never drops or edits an earlier entry |
| Stream.Abort | src/ChatComponent.jsx:455-461 | only traces throw, and a trace with `failureTrace` throws an `Error` with its `failureReason` |
| Stream.StopAt | src/ChatComponent.jsx:454-461 | the stop point is within the stream, and the event there throws |
| Stream.StopAtFirst | src/ChatComponent.jsx:454-461 | no event before the stop point throws |
| Stream.StopAtIs | src/ChatComponent.jsx:454-461 | the first event that throws is the stop point |
| Stream.Consumed | src/ChatComponent.jsx:454-492 | the loop handles at least the first event of a non-empty stream; no handled event but the last throws; and the loop stops early only right after an event that throws |
| Stream.FoldStep | src/ChatComponent.jsx:455-491 | handling one more event extends the completion, the chunk and task counters, the rationale and the partial texts by that event alone |
| Stream.TraceStep | src/ChatComponent.jsx:455-465 | a trace adds no text and no chunk, and one task |
| Stream.NoChunksNoText | src/ChatComponent.jsx:466-470 | a stream without chunks completes with the empty text |
| Stream.CompletionConcat | src/ChatComponent.jsx:466-470 | the completion and the chunk count of a stream are those of its parts, joined |
| Stream.ChunksOnly | src/ChatComponent.jsx:466-470 | a stream of chunks is consumed whole; its completion is the concatenation of the chunk texts and its chunk count their number |
| Stream.HelloWorld | src/ChatComponent.jsx:466-480 | the chunks "Hel", "lo, ", "world" give "Hello, world" after three chunks and show three growing partial texts |
| Stream.PartialsGrow | src/ChatComponent.jsx:470-480 | one partial text per chunk; each is a prefix of every later one and of the completion; the last one is the completion |
| Stream.AbortIgnoresRest | src/ChatComponent.jsx:454-460 | events after the one that throws are never looked at |
| Stream.FailureTraceStops | src/ChatComponent.jsx:455-460 | a failed trace stops the fold there, with its reason as the error, one more task and no more text |
| Memory.Normalise | src/ChatComponent.jsx:338-344 | the end time is one of the two recorded times, present exactly when either of them is, and `sessionEndTime` whenever that is set |
| Memory.Extract | src/ChatComponent.jsx:335-345 | the result is no longer than the contents, and every entry with a session summary appears in it, normalised |
| Memory.Summaries | src/ChatComponent.jsx:333-352 | absent memory contents give no summaries; present ones give exactly their extraction, so the order and one-per-entry properties of `Extract` carry over |
| Memory.ExtractDistributes | src/ChatComponent.jsx:335-345 | the summaries keep the order of the contents |
| Memory.SummaryIndicesStep | src/ChatComponent.jsx:336 | one more entry adds its index to the summary-carrying entries exactly when it carries a summary |
| Memory.ExtractKeepsOnlySummaries | src/ChatComponent.jsx:335-336 | there is exactly one summary per entry that carries one, and none when no entry does |
| Memory.Classify | src/ChatComponent.jsx:357-363 | an ordinary error reports "Error retrieving memory: " followed by its message |
| Memory.ValidationIsUnsupported | src/ChatComponent.jsx:357 | any `ValidationException` means memory is unsupported, whatever its message |
| Memory.NotEnabledIsUnsupported | src/ChatComponent.jsx:358 | any error whose message mentions "Memory is not enabled" means unsupported, whatever its name |
| Memory.OtherErrorsAreTransient | src/ChatComponent.jsx:361-363 | every other error is ordinary and reports its own message |
| Chat.Settle | src/ChatComponent.jsx:428-536 | once inside the `try`, a send either completes or fails; it never escapes |
| Chat.ReplyView | src/ChatComponent.jsx:440-527 | the visible list after the `try` block, as a definition; `NormalTurnView`, `FailureAppendsOneError`, `FailureKeepsEarlierMessages`, `FailureKeepsPartialText` and `StreamThrowKeepsText` state its properties |
| Chat.SendView | src/ChatComponent.jsx:385-527 | the visible list after a send, the user message shown first unless the session is being ended, as a definition |
| Chat.SendRecords | src/ChatComponent.jsx:505-534 | a normal send stores two records: the user message, then the agent record with the whole completion when the send completed, or the same error message the view shows when it failed |
| Chat.EndSessionStepsAsWritten | src/ChatComponent.jsx:116-135 | the steps of ending a session as written, as a definition; `EndSessionAsWrittenReportsFailureAsSuccess` states what it does on a failed call |
| Chat.EndSessionSteps | src/ChatComponent.jsx:116-135 | the corrected steps, as a definition; `EndSessionStepsFollowOutcome` states their order and when each happens |
| Chat.MemoryRequestError | src/ChatComponent.jsx:320-331 | the memory request fails exactly when no configuration is stored or the request is rejected, and a rejection fails with its own error |
| Chat.SummarizePromptNotBlank | src/ChatComponent.jsx:118 | the summary prompt passes the blank-text guard |
| Chat.StampPrefixesDiffer | src/ChatComponent.jsx:443 | user and error message ids never equal the agent message id |
| Chat.CompletedConsumesWholeStream | src/ChatComponent.jsx:454-518 | a completed send consumed the whole stream, and its text is the concatenation of every chunk |
| Chat.CompletedView | src/ChatComponent.jsx:442-504 | a completed normal send finishes the streaming message with the whole completion, whatever the chunks showed before |
| Chat.NormalTurnView | src/ChatComponent.jsx:385-511 | a successful normal send shows exactly the user message and the finished agent message after the earlier ones, and stores exactly that pair |
| Chat.TerminationAddsNothing | src/ChatComponent.jsx:385-511 | a successful termination call adds no message at all |
| Chat.TerminationFailureShowsOnlyError | src/ChatComponent.jsx:385-527 | a failed termination call adds only the error message: no user and no agent message |
| Chat.FailureAppendsOneError | src/ChatComponent.jsx:519-527 | a failed send ends the list with one system error message, the only error it adds |
| Chat.FailureKeepsEarlierMessages | src/ChatComponent.jsx:440-527 | when the agent message id is new, a failed send keeps every earlier message in place |
| Chat.StreamedTail | src/ChatComponent.jsx:473-480 | the chunk updates leave every message before the streaming one unchanged |
| Chat.StreamFailureView | src/ChatComponent.jsx:454-527 | a stream that throws shows the text streamed before the throw, then the error |
| Chat.FailureKeepsPartialText | src/ChatComponent.jsx:466-527 | partial agent text shown before a mid-stream failure stays visible between the user message and the error |
| Chat.StreamThrowView | src/ChatComponent.jsx:454-527 | when the iterator throws after all events were handled, the whole streamed text is shown, then the error |
| Chat.StreamThrowKeepsText | src/ChatComponent.jsx:454-527 | an error thrown by the iterator itself fails the send with that error; the user message, the streamed text and that error follow the earlier messages |
| Chat.EndSessionAsWrittenReportsFailureAsSuccess | src/ChatComponent.jsx:116-135 | as written, a failed termination call is still reported as summarised and replaced by a new session |
| Chat.EndSessionStepsFollowOutcome | src/ChatComponent.jsx:104-148 | with success judged by the outcome, the summary notice and the new session come if and only if the termination call completed, in the order notice, call, success notice, refresh, new session |
| Chat.FoldedStep | src/ChatComponent.jsx:454-492 | one loop turn keeps the loop state equal to the fold of the events handled so far |
| Chat.HandleEvent | src/ChatComponent.jsx:455-491 | the loop body: a trace counts a task and throws or records its rationale; a chunk extends the completion, counts a chunk and, unless ending the session, replaces the streaming text |
| Chat.FoldNext | src/ChatComponent.jsx:454-492 | one loop turn extends the fold by the next event |
| Chat.FoldEvents | src/ChatComponent.jsx:454-492 | the loop yields the completion, counters, rationale, shown message list and partial texts of the fold of exactly the events handled, and stops at the first event that throws |
| Chat.TryInvoke | src/ChatComponent.jsx:428-536 | the `try`/`catch` settles as the invocation dictates; it yields the visible list of the reply view, the records to store and the chunk statistics |
| Chat.ChatComponent.constructor | src/ChatComponent.jsx:37-73 | the initial component state |
| Chat.ChatComponent.SetDraft | src/ChatComponent.jsx:788 | typing replaces the draft and changes nothing else |
| Chat.ChatComponent.StoreMessages | src/ChatComponent.jsx:193-200 | the session's stored list is extended by the new messages; nothing else changes |
| Chat.ChatComponent.CreateNewSession | src/ChatComponent.jsx:155-175 | a fresh session id, recorded as the last session, with an empty stored list and one temporary notice shown; the memory id is untouched |
| Chat.ChatComponent.LoadExistingSession | src/ChatComponent.jsx:207-219 | the last session and its stored messages are resumed when recorded, and a new session is created otherwise |
| Chat.ChatComponent.StartOrResume | src/ChatComponent.jsx:264-279 | once a client exists and no session is set, a session becomes active and the memory id is taken from storage or derived from the user name and stored; otherwise nothing changes |
| Chat.ChatComponent.InvokeAgent | src/ChatComponent.jsx:428-540 | the outcome, the visible list, the stored records, cleared task trace, `isAgentResponding` false and the chunk statistics after the `try`/`catch`/`finally` |
| Chat.ChatComponent.SendMessageToAgent | src/ChatComponent.jsx:375-541 | a blank text, a missing session or a missing client changes nothing; a missing configuration or a failed authorisation escapes; otherwise the visible list, the log and the statistics are those of the reply, and a termination call stores nothing |
| Chat.ChatComponent.HandleSubmit | src/ChatComponent.jsx:547-556 | temporary messages are removed and the draft cleared before the draft is sent as a normal message |
| Chat.ChatComponent.ConfirmEndSession | src/ChatComponent.jsx:104-148 | corrected flow (see ## Findings): the notice, then the termination call; a new session only when it completed; the error notice only when it escaped; nothing stored for the ended session |
| Chat.ChatComponent.FetchMemorySummaries | src/ChatComponent.jsx:311-367 | no client or memory id changes nothing; success replaces the summaries; "unsupported" clears the supported flag; other errors record their message; failures keep the old summaries |

## Left out

- Rendering, modals, tabs, scrolling and focus handling are UI and are not modelled.
- The Bedrock and Amplify SDK calls are not modelled. Their results are parameters: `Invocation`, `MemoryResponse` and the authorisation failure.
- The `fetchCredentials` effect (src/ChatComponent.jsx:225-262) is not modelled. It creates the client, reads the agent name and may set the memory id. The client's presence (`hasClient`) and the agent name are constants of the component.
- `localStorage` is the `Storage` value, which holds the `messages_` map and three entries. JSON encoding and decoding of stored lists is not modelled.
- The stored `appConfig` entry is either absent (`None`) or a well-formed configuration. An absent entry fails with the `TypeError` of `JSON.parse(null).bedrock` (src/ChatComponent.jsx:321, :381). Not modelled: an empty or malformed entry, on which `JSON.parse` throws a `SyntaxError` there (and, when non-empty, at src/utils/configUtils.js:29), and the stored text `"null"`, which gives the same `TypeError` as an absent entry.
- `TextDecoder` is not modelled: chunk bytes are taken as already-decoded text.
- `Date.now()` readings are parameters.
- The elapsed `streamingTime` field is left out, because it is clock arithmetic.
- The 3-second timer before the memory refresh is left out: the refresh is one step, `ScheduleRefresh`.
- Stream events that carry neither a trace nor a chunk are not modelled. The loop skips them, so removing them from the stream beforehand gives the same fold.
- `Stream.Abort`: a present `rationale` is taken to carry its text, so `.rationale.text` being undefined is not modelled.
- `Memory.Classify`: the model does not tell an absent `message` from an empty one. JavaScript renders an absent message as "Error retrieving memory: undefined"; the model renders it as the empty string.
- `confirmClearData`, `handleLogout`, `formatDate`, `src/api/bedrockAPI.js` and `vite.config.js` are not part of this model.
- The `for await` loop mutates `tasksCompleted` and calls `setMessages` on every chunk. The model keeps that state in loop variables and writes the visible list and the chunk statistics once, after the loop. Only the rendering, which is left out (the status line at src/ChatComponent.jsx:757-779), reads the intermediate values. The chunk-by-chunk texts are still returned as the ghost result `shown`. The folded task trace is never written to the component: the `finally` resets it, and `InvokeAgent` only does that reset.
- Memory failures leave `memorySummaries` as they were (src/ChatComponent.jsx:353-363); nothing clears them.
- Sends are atomic in the model. "New Chat" (src/ChatComponent.jsx:629) is never disabled, so in the code `createNewSession` can run while a send is in flight. That send's `setMessages` updaters then act on the new session's list, so its error message appears there, while `storeMessages` still writes under the captured id. This interleaving is not modelled.

## Findings

| source | as written | input that shows it | evidently intended | confidence | as-written member | corrected member |
|---|---|---|---|---|---|---|
| src/ChatComponent.jsx:116-135 | `confirmEndSession` treats any settled `sendMessageToAgent` as success. That function catches agent failures and resolves with `null`, so the `catch` of `confirmEndSession` never sees them. | The termination call is rejected by the agent (`SendFailed`). The code still shows "Conversation has been summarized…", schedules the refresh and starts a new session. | Report success only when the termination call completed. On failure, keep the active session so the summary can be retried. | not executed | Chat.EndSessionStepsAsWritten, Chat.EndSessionAsWrittenReportsFailureAsSuccess | Chat.EndSessionSteps, Chat.EndSessionStepsFollowOutcome, Chat.ChatComponent.ConfirmEndSession |
