# Ai-chan request orchestration, modelled in Dafny

This project models the request-orchestration core of the Ai-chan web application.
That core is the `/chat` handler with its per-user state, plus the small handlers
around it:

- **The store.** Four per-user maps hold the conversation, the context summary, the
  search-status log and the last command. They are the fields of
  `Server.SessionStore`, and its methods update them in place.
- **`/chat` (`SessionStore.Chat`).** It first checks the provider key. It then
  initialises the user's entries. In `search`/`deepsearch` mode it refreshes the
  context with the summariser, asks the query generator for the queries, runs
  `performSearch` and logs the completion status at the user's next turn index.
  Offline, it refreshes the context only. It then merges the stored history with the
  pending turn through the `findIndex` filter, asks for the completion and reads the
  reply, falling back to "aiaiai" or the apology. Finally it appends the user's own
  message and the reply, and writes the final event. A thrown error becomes the
  final event of the outer `catch`, or the search error in the search branch.
- **Other handlers.** `/conversation` (`Conversation`), `/reset` (`Reset`) and
  `/update-command` (`UpdateCommand`).
- **`performSearch` (`SearchPipeline`).** The sequential search loop, with a progress
  event before each query. Each search keeps its first three filtered results, and
  the aggregate becomes the augmented question (`formatSearchResults`).
- **`searchQuery` (`SearchLogic.SearchQuery`).** The filter that drops results whose
  only engine is Qwant, with its `skippedCount` counter.
- **Message building (`Messages`).** `createSearchMessage` with its `||` defaults;
  the `processContext` rendering and prompt; the query prompt; the comma split and
  trim of deep-search queries; the reply extraction, fallback and error message.
- **JavaScript string behaviour (`JsText`).** `split`, `join`, `trim`, `toLowerCase`
  and number rendering as the handler relies on them.

The collaborators are inputs of a request (`Server.Collaborators`):

- the summariser's answer;
- the query generator's answer;
- the search provider, as a function from query text to a raw response or a failure;
- the completion's content.

A failure carries an optional HTTP status. The calls made to the collaborators are
part of a request's result (`seq<Call>`), so that "which calls, in which order" can
be stated. What a request writes back is a sequence of `Event`s:

- progress statuses;
- the `final` event;
- the HTTP 500 search error.

`Server.Respond` is the specification function of `/chat`. `SessionStore.Chat` is
proved to compute it and to keep the store invariant (`Server.StoreInvariant`). The
invariant says:

- the conversation, context and status maps hold the same users, and each of them
  has a command;
- every conversation alternates user and assistant turns;
- a context only exists once there were two turns;
- every status record points at a user turn or just past the end, in
  non-decreasing order.

`ChatProperties` states what a request promises in terms of `Respond`.

Two facts about the code that the model keeps:

- The stored conversation is never deduplicated; only the provider-bound list is
  (index.js:203-206). Once a reply exists, the stored conversation is appended to
  without deduplication (index.js:240-244). `MergeHistory` is therefore deduplicated and the stored
  conversation is not, so a user repeating a message verbatim stores it twice.
- `messageIndex` is carried by the completion status written just before the
  completion call (index.js:187-190); the final event carries none.
  `RespondStatusLog` states this.

## Model

| member | source | states |
|---|---|---|
| JsText.JoinSplit | index.js:176 | joining the comma-split pieces with commas gives the generator's text back |
| JsText.SplitPiecesAvoidSeparator | index.js:176 | no piece of `split(',')` contains a comma |
| JsText.SplitJoin | index.js:178 | splitting the comma-joined queries gives the queries back when none holds a comma |
| JsText.TrimIsSlice | index.js:176 | `trim()` returns the slice of its input after the leading whitespace, with no whitespace at either end |
| JsText.TrimKeepsOut | index.js:176 | trimming adds no character, so a comma-free piece stays comma-free |
| JsText.TrimIdempotent | index.js:176 | trimming twice is trimming once |
| JsText.Lower | index.js:232 | `toLowerCase` keeps the length and maps each character by the case table |
| JsText.NatToString | index.js:22 | a rendered count is a non-empty string of decimal digits without a leading zero |
| JsText.DecimalRoundTrip | index.js:22 | reading a rendered count back gives the count |
| History.FindIndex | index.js:205 | `findIndex` returns -1 exactly when the turn is absent, otherwise its first position |
| History.KeepFirstIsFirstOccurrences | index.js:204-206 | the `index === findIndex` filter keeps exactly the first occurrence of each turn, in order |
| History.FirstOccurrencesSpec | index.js:204-206 | the filtered list holds every turn of the input and nothing else, none twice, in order of first occurrence |
| History.FirstOccurrencesOfDistinct | index.js:204-206 | a list without duplicates passes the filter unchanged |
| History.DedupSnoc | index.js:203-206 | filtering history plus one turn gives the filtered history, then the turn unless it already occurred |
| SearchLogic.DropQwantOnly | searchlogic.js:15-21 | the filter never grows the list, keeps only results of the input, and keeps no Qwant-only result |
| SearchLogic.KeptExactly | searchlogic.js:15-21 | a result survives exactly when it is in the input and is not Qwant-only |
| SearchLogic.KeepsOthersInOrder | searchlogic.js:15-21 | filtering distributes over concatenation, so the survivors keep their relative order |
| SearchLogic.NoQwantOnlyKeptWhole | searchlogic.js:15-21 | a list without Qwant-only results is returned unchanged |
| SearchLogic.DropQwantOnlyIdempotent | searchlogic.js:15-21 | filtering the filtered list removes nothing |
| SearchLogic.CountIsDifference | searchlogic.js:12-21 | the number of Qwant-only results is the input length minus the kept length |
| SearchLogic.SearchQuery | searchlogic.js:12-27 | the loop returns the filtered results with every other response field unchanged; `skippedCount` is the number dropped |
| Messages.CreateSearchMessage | index.js:14-32 | the message carries the given queries; complete gives the "Done!" text; otherwise the progress text names the last query; a missing total or progress defaults to the number of queries |
| Messages.DoneReportsThreePerQuery | index.js:22 | the completion status reports `3 * N` results for N queries, whatever was found, and says "query" only for one |
| Messages.FormatSearchResultsFrames | index.js:112-114 | the augmented question opens with the fixed header and ends with the question verbatim; one result renders as one line between them |
| Messages.RenderedPartsReadBack | index.js:63 | splitting a rendered multi-part turn on spaces gives, per part, its text for a text part and "[Image]" otherwise, when no rendered part holds a space |
| Messages.ContextPromptShape | index.js:58-70 | the summariser prompt depends only on the last two turns and the stored summary; the "Last context summary" line appears exactly when a summary is stored |
| Messages.SplitQueries | index.js:176 | deep search yields one query per comma-separated piece, at least one |
| Messages.SplitQueriesSpec | index.js:176 | each query is its trimmed piece, holds no comma, has no surrounding whitespace, and nothing is deduplicated |
| Messages.QueriesSurviveRejoin | index.js:178 | re-splitting the comma-joined queries in `performSearch` gives the same queries |
| Messages.MergeHistory | index.js:203-206 | a non-empty history plus pending turns gives a non-empty provider-bound list |
| Messages.MergeHistorySpec | index.js:203-206 | the merged list holds each turn once, in order of first occurrence; a duplicate-free list passes whole; a repeated pending turn is dropped |
| Messages.FallbackChoice | index.js:230-238 | an empty reply becomes "aiaiai" exactly when the last provider-bound text lower-cases to "jomok", otherwise the apology |
| Messages.ErrorMessage | index.js:249-256 | the final error text is the API-key message exactly for status 401, and the generic apology for every other status or none |
| SearchPipeline.Top | index.js:89 | `slice(0, 3)` keeps a prefix of at most three results, the whole list when it is shorter |
| SearchPipeline.QueriesFor | index.js:85-92 | `performSearch` runs at least one query |
| SearchPipeline.ProgressEvents | index.js:102 | one progress event per search issued |
| SearchPipeline.RunQueries | index.js:97-106 | a run never issues more searches than it was given |
| SearchPipeline.RunStopsAtFailure | index.js:104 | after a failed search nothing further is run |
| SearchPipeline.RunOutcome | index.js:97-106 | a successful run issued every search, each successful, and gathered at most three results per query; a failed run stopped at the first failing search and carries its status |
| SearchPipeline.SearchEach | index.js:93-108 | the loop writes one progress event per search issued, searches the queries in order, and returns the gathered results or the first failure |
| SearchPipeline.PerformSearch | index.js:84-110 | both modes write the progress events of the queries searched and return the formatted question or the failure |
| ChatProperties.ProgressEventsName | index.js:102 | the i-th progress event names query i, position i+1 and the total |
| Server.StoreInvariantUpdate | index.js:49-52 | storing a well-formed session and a command for one user keeps the store invariant |
| Server.AppendPairAlternates | index.js:240-244 | appending a user turn and an assistant turn keeps the alternation |
| Server.StagePreservesWellFormed | index.js:156-201 | the part before the completion keeps the conversation and the session's well-formedness |
| Server.AnswerPreservesWellFormed | index.js:203-247 | the completion part keeps the session well formed |
| Server.RespondPreservesWellFormed | index.js:130-260 | a whole `/chat` request keeps the session well formed |
| Server.SessionStore.Chat | index.js:130-260 | without a key only the key-missing final event is written and nothing changes; otherwise the events, calls and the user's new entries are those of `Respond`, and the store invariant holds |
| Server.SessionStore.Handle | index.js:152-259 | the request on an initialised session computes `Respond` and changes only that user's entries |
| Server.SessionStore.InitSession | index.js:145-150 | missing entries become empty ones, stored ones are kept, and the command is recorded |
| Server.SessionStore.RefreshContext | index.js:55-82 | the summariser is called only from two turns on, on the last exchange; its answer replaces the context |
| Server.SessionStore.SearchPart | index.js:156-195 | the search branch computes `SearchStage` and changes only the user's context and status log |
| Server.SessionStore.OfflinePart | index.js:196-201 | the offline branch computes `OfflineStage` and changes only the user's context |
| Server.SessionStore.AnswerPart | index.js:203-259 | merge, completion, fallback and append compute `Answer` and change only the user's conversation |
| Server.SessionStore.Conversation | index.js:264-271 | stored conversation and log, or empty ones; the command, or "offline" when missing or empty |
| Server.SessionStore.Reset | index.js:317-327 | the user's four entries are removed, nobody else's, and the invariant still holds |
| Server.SessionStore.UpdateCommand | index.js:330-339 | only the user's command changes, and the invariant still holds |
| ChatProperties.PerformedQueries | index.js:174-178 | the search provider is sent exactly the queries the handler generated |
| ChatProperties.RespondEndsOnce | index.js:130-260 | every request writes progress statuses and then exactly one terminal event, last |
| ChatProperties.RespondConversation | index.js:240-247 | the conversation gains the user's raw message and the reply exactly when the final event carries a conversation, which is then the stored one; otherwise it is unchanged |
| ChatProperties.RespondSummarises | index.js:156-201 | the summariser is called exactly when two turns are stored, and then only as the first call, on the last exchange; below two turns no call is a summariser call; its answer replaces the context, which otherwise stays |
| ChatProperties.RespondStatusLog | index.js:181-190 | the status log gains a record exactly when the search part succeeded: the completion status at the user's coming turn index, also written just before the last event |
| ChatProperties.RespondSearchProgress | index.js:97-106 | the first events are the progress statuses of the searches issued; a failed search ends the request with the search error right after them |
| ChatProperties.RespondSearchCalls | index.js:156-178 | the summariser, the query generator and then the searches are called in order; after a failed search nothing else is called |
| ChatProperties.RespondCompletionRequest | index.js:203-217 | the completion is the last call exactly when the first part succeeded; it receives the merged history with the raw message offline, or with the augmented question of at most three results per query |
| ChatProperties.AnswerFallback | index.js:230-238 | an empty reply to a turn new to the history falls back on that turn, and the exchange is stored |
| ChatProperties.AugmentedFallsBackToApology | index.js:230-238 | falling back on an augmented question always gives the apology |
| ChatProperties.RespondFallbackOffline | index.js:230-247 | offline, an empty reply to a new message gives "aiaiai" for "jomok" in any case, the apology otherwise |
| ChatProperties.RespondFallbackSearch | index.js:230-247 | in search mode, an empty reply to a new augmented question always gives the apology |
| ChatProperties.AnswerShape | index.js:203-247 | the completion part writes one more event, calls the completion last with the merged history, keeps context and log, and grows the conversation by the message and the reply exactly when the final event carries a conversation |
| ChatProperties.MergedWithOneTurn | index.js:203-206 | merging one new turn puts it last, unless it repeats a stored turn, in which case the merge is the deduplicated stored history |
| ChatProperties.AnswerReply | index.js:203-256 | a failed completion gives its error message without a conversation; a reply with text is sent with the grown conversation; an empty reply falls back on the last merged turn, a part-list turn giving the generic error |
| ChatProperties.StagePending | index.js:156-201 | a turn reaches the completion exactly when the search part ran to its end (search) or the refresh succeeded (offline); offline it is the raw message with no event; in search mode it is the augmented question, after the progress events and the logged completion status |
| ChatProperties.StageCallsAfterSummary | index.js:156-178 | after the summariser call the first part calls only the query generator and the search provider |
| ChatProperties.RespondReply | index.js:219-256 | once a turn reaches the completion: a failure gives its error message and keeps the conversation; a reply text is sent and stored after the raw message; an empty reply to a message already in the history falls back on the last turn of the deduplicated stored history |
| ChatProperties.RepeatedJomokGetsApology | index.js:203-238 | after a stored "jomok"/"aiaiai" exchange, a repeated "jomok" answered with no content gets the apology, because the repeated turn is dropped and the fallback reads the stored reply |
| ChatProperties.RespondEarlyFailure | index.js:156-201 | offline, a summariser failure ends the request with the outer error message (the API-key text for 401) and no conversation, after the summariser call alone; in search mode, a summariser or generator failure ends it with the lone search error, with no search and no completion call, and the session keeps all but a refreshed context |
| Server.SummaryCalls | index.js:56-81 | at most one call, a summariser call, made exactly when two turns are stored |
| Server.Refreshed | index.js:158-160 | below two turns the context is kept; the refresh fails exactly when the summariser is asked and fails, with its status |
| Server.GeneratedQueries | index.js:174-176 | at least one query: the whole text for `search`, one per comma piece otherwise; `ChatProperties.PerformedQueries` shows `performSearch` re-derives the same queries |
| SearchPipeline.ProgressEvent | index.js:102 | a progress status without message index, naming only the query about to be searched |
| Server.SessionStore.SessionOf | index.js:145-147 | the user's stored entries, or empty ones for an unseen user; well formed whenever the store invariant holds |
| ChatProperties.RespondOfflineCalls | index.js:196-217 | offline, no call goes to the query generator or the search provider; once the context is refreshed the calls are the summariser call from two turns on, then the completion with the merged history ending in the raw message |
| Server.Respond | index.js:130-260 | the specification function of `/chat` on an initialised session with a key; its contract is stated by `ChatProperties.RespondEndsOnce`, `RespondConversation`, `RespondSummarises`, `RespondStatusLog`, `RespondSearchProgress`, `RespondSearchCalls`, `RespondCompletionRequest`, `RespondReply`, `RespondEarlyFailure` and `RespondOfflineCalls` |
| Server.Answer | index.js:203-247 | merge, completion, fallback and append; stated by `ChatProperties.AnswerShape` and `ChatProperties.AnswerReply` |
| Server.SearchStage | index.js:156-195 | refresh, query generation, searches and the completion status; stated by `ChatProperties.StagePending`, `ChatProperties.StageCallsAfterSummary` and, for a summariser or generator failure, `ChatProperties.RespondEarlyFailure` |
| Server.OfflineStage | index.js:196-201 | the refresh alone, handing on the raw message; stated by `ChatProperties.StagePending`, by `ChatProperties.RespondOfflineCalls` for its calls and, for a summariser failure, by `ChatProperties.RespondEarlyFailure` |
| Messages.FormatSearchResults | index.js:112-114 | the augmented question; stated by `FormatSearchResultsFrames` and `ChatProperties.AugmentedFallsBackToApology` |
| Messages.Fallback | index.js:230-238 | "aiaiai" for a last text spelling "jomok", the apology for other text, an error without status for a part list; its own contract states the failure exactly for a part list, without status, and the two possible replies; `FallbackChoice` states which reply |
| Messages.ReplyText | index.js:221-228 | the first block's text, a string content itself, otherwise empty; what becomes of it is stated by `ChatProperties.RespondReply` |
| Messages.RenderContent | index.js:59-66 | a string verbatim, a part list as texts and "[Image]" joined by spaces; stated by `RenderedPartsReadBack` |
| Messages.ContextPrompt | index.js:68-70 | the summariser prompt; stated by `ContextPromptShape` |
| Messages.QueryPromptShape | index.js:162 | the generator prompt ends with "Question: " and the message, and opens with "Context: " and the summary exactly when a summary is stored |
| Messages.QueryPrompt | index.js:162 | the generator prompt; stated by `QueryPromptShape` |
| History.KeepFirst | index.js:204-206 | the `findIndex` filter over a prefix; stated by `KeepFirstIsFirstOccurrences` |
| JsText.Split | index.js:176 | at least one piece; the pieces hold no separator (`SplitPiecesAvoidSeparator`) and rejoin to the input (`JoinSplit`) |
| JsText.Join | index.js:178 | a single element joins to itself; joined separator-free pieces split back (`SplitJoin`) |
| JsText.Trim | index.js:176 | the slice without surrounding whitespace (`TrimIsSlice`), idempotent (`TrimIdempotent`) |

## Left out

- `public/script.js` and `public/sw.js`, the browser client and service worker, are not part of this model.
- The Express transport is not modelled: framing of server-sent events, JSON serialisation, `res.end` and HTTP statuses. The search error is modelled as the terminal `SearchError` event. In Express, `res.status(500).json(...)` after progress events have already been written cannot send its headers; the resulting error would reach the outer `catch`, which this model does not follow.
- Requests are modelled one at a time. Interleaving of concurrent requests over the shared maps is not modelled.
- System prompts, model names, token limits and temperatures only configure the collaborators. The date they embed is read from the clock. They are left out of the recorded calls.
- The key-saving and key-reading endpoints (`/save-api-key`, `/get-api-key`) touch the file system and the environment. Whether a key is set is an input of `Chat`.
- Console logging is not modelled.
- The search provider is a function of the query text, so the same query always gets the same response within one request. URL encoding and `fetch` are not modelled.
- `/chat` messages are strings. Non-string message bodies are not modelled.
- User ids are plain map keys. JavaScript object-key quirks such as inherited prototype keys are not modelled.
- JsText.Lower: models `toLowerCase` for ASCII letters and the Kelvin sign only, the characters whose lower case can help spell "jomok". Other characters map to themselves, which is weaker than full Unicode case mapping but gives the same answer to the "jomok" comparison.
- The summariser's and the query generator's answers are taken as text. A response without a first content block is a failure (`Failed(None)`), as the `TypeError` reading `content[0].text` raises in JavaScript is.
- A first block without a `text` field is not modelled. In JavaScript `processContext` then returns `undefined` (index.js:81) and the handler goes on with an undefined context; a `search` query generator answer without text becomes `[undefined]`, which joins to "" and is searched (index.js:175-178), while `deepsearch` throws on `split` (index.js:176). The model's collaborator answers are strings or failures.
- `JSON.stringify` of turn contents is compared as structural equality of `Content`. Equal contents always serialise alike here, because every content comes from the same constructors in the same field order.
