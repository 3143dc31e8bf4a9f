# Chat client core in Dafny

This project models the logic of a small React chat client that streams an
AI reply over server-sent events. The model covers four parts of that client:

- **The chat panel** (`src/view/component/ChatContent.tsx`). The transcript is a
  list of entries. `addMessage` appends an entry, and `updateLastMessage` folds a
  streamed fragment into the last entry, dropping the `▍` cursor placeholder.
  The panel's state machine is modelled as the class `Chat.ChatContent`:
  - `handleSubmit` and its session-creation step;
  - `aiChat`, with its read loop, error rollback and `finally` block;
  - `handleStop`;
  - the history effect, and closing the connection on unmount.
- **The push connection** (`src/api/chatApi.tsx`). `chatInteractive` builds
  the query and adapts the event source's callbacks into a stream that one
  reader pulls from. It is modelled as the class `ChatApi.EventStream`, which
  holds a queue, a stream-closed flag and a connection-closed flag.
- **The session menu** (`src/view/component/HomeMenu.tsx`):
  - the menu built from the server's session list, behind a fixed
    "new conversation" item;
  - the collapsed view;
  - the panel state that clicks, deletions, the collapse toggle and session
    changes update (`Menu.HomeMenu`).
- **The HTTP wrapper** (`src/api/AppRequest.ts`):
  - the response interceptor's unwrap decision for the `{code, msg, data}`
    envelope;
  - the request counter that numbers every request and shows a loading message;
  - the `closeLoading` decision.

The modules are `Wrappers` (Option/Result), `JsString` (`String.prototype.trim`),
`Transcript` (the pure list operations of the panel), `ChatApi`, `Chat`, `Menu`
and `AppRequest`.

The model turns asynchronous and external input into parameters:
- Each `reader.read()` in `aiChat` settles to a `ReadOutcome`: a chunk, the end
  of the stream, or a rejection. A sequence of these drives the read loop. When
  the sequence runs out, the last read never settled: the loop stalls and the
  `finally` block never runs. This outcome is called `Suspended`.
- The result of session creation, of the history request and of the menu
  requests is a parameter. `None` stands for a rejected request.
- The `Date.now()` entry ids are parameters, with no assumption about their
  values.
- Toasts, `onSessionChange` / `onTitleSelect` / `onCollapsedChange` calls,
  session creations and menu requests are recorded in sequences on the
  objects that issue them.

Behaviours of the code a reader may not expect; the model follows the code:
- After a rejected read, the rollback (`prev.slice(0, -1)`,
  `src/view/component/ChatContent.tsx:139`) removes only the last entry, the
  reply placeholder. The user's question stays (`Chat.RollbackKeepsQuestion`).
  With this connection adapter that `catch` block is dead code: reads never
  reject (`ChatApi.EventStream.Read`), and nothing else in the `try` block
  (lines 118-136) throws. The model keeps the branch so that the rollback's
  effect is stated for any reader that does reject.
- The handle's `close()` (`src/api/chatApi.tsx:24`) closes only the event
  source, not the stream. A read pending at that moment therefore never
  settles, and after Stop the `finally` of `aiChat` does not run
  (`ChatApi.EventStream.Close`, `ChatApi.EventStream.Read`).
- A stream that ends before its first chunk leaves the placeholder showing
  `▍` with its entry still marked loading. The panel's `loading` flag is
  cleared in any case (`Chat.EmptyReplyLeavesPlaceholder`).
- The history effect fires for any non-empty session id, the initial `"new"`
  included (`src/view/Home.tsx:7` starts the page with `"new"`).
- Nothing prevents two session creations from starting one after the other.
  The model runs a submission to its end before the next one starts.

The contracts below are stated in terms of a few definitions that carry no
contract of their own: `Chat.NeedsSession` (the session test,
`src/view/component/ChatContent.tsx:99`), `Chat.Exchange` (the two entries
`aiChat` appends, lines 122-124), `Chat.AfterChat` (the transcript once the
read loop has settled, lines 118-139), `Transcript.ApplyFragments` (one
`updateLastMessage` per chunk, lines 78-91 and 134), `Transcript.FromRecord`
(one history record as the panel shows it, lines 44-50), `Menu.InfoItem` (one
menu item per session, `src/view/component/HomeMenu.tsx:30-35`) and
`Menu.Shown` (the items the collapsed or expanded menu shows, lines 88-91). What they mean is stated by the lemmas and methods
that use them.

## Model

| member | source | states |
|---|---|---|
| JsString.TrimStart | src/view/component/ChatContent.tsx:96 | the result is a suffix of the input; everything it drops is white space; it starts with a non-space |
| JsString.TrimEnd | src/view/component/ChatContent.tsx:96 | the result is a prefix of the input; everything it drops is white space; it ends with a non-space |
| JsString.Trim | src/view/component/ChatContent.tsx:96 | `input.trim()` is the slice of the input left after a white-space prefix and a white-space suffix; it is empty exactly when every character is white space, and otherwise both of its ends are non-space |
| Transcript.AddMessage | src/view/component/ChatContent.tsx:65-75 | exactly one entry is appended and earlier entries are unchanged; its content is `▍` when loading, else the given content verbatim; id, isUser and loading are as given; well-formedness is kept |
| Transcript.UpdateLastMessage | src/view/component/ChatContent.tsx:78-92 | an empty transcript is returned unchanged; otherwise the length and every earlier entry are kept; the last entry keeps id, isUser and createAt, stops loading, and its content is the content minus a trailing `▍`, plus the fragment |
| Transcript.DropLast | src/view/component/ChatContent.tsx:139 | the rollback removes exactly the last entry (nothing for an empty transcript) and keeps well-formedness |
| Transcript.FromHistory | src/view/component/ChatContent.tsx:44-50 | same length and order as the history; id from messageId, content and createdAt copied, isUser iff role is "user", never loading |
| Transcript.ApplyFragmentsFrame | src/view/component/ChatContent.tsx:83-90 | folding any number of fragments keeps the length, every earlier entry, and the last entry's id, isUser and createAt; after one fragment the last entry no longer loads |
| Transcript.ConcatAvoidsCursor | src/view/component/ChatContent.tsx:83-85 | fragments none of which ends in `▍` join into text that does not end in `▍` |
| Transcript.StreamedReplyIsConcatenation | src/view/component/ChatContent.tsx:70-90 | a `▍` placeholder fed fragments f1..fn (n ≥ 1, none ending in `▍`) holds exactly f1+…+fn, is no longer loading, and nothing before it changes |
| ChatApi.BuildQuery | src/api/chatApi.tsx:5-6 | the query always starts with `input`; it has a `sessionId` parameter iff the session id is non-empty, and then its value is that id |
| ChatApi.EventStream.constructor | src/api/chatApi.tsx:4-10 | a new handle connects to the push endpoint's path with the query for its input and session, and has an empty open stream and an open connection |
| ChatApi.EventStream.OnMessage | src/api/chatApi.tsx:11-14 | on an open connection the data is appended to the queue unchanged and in arrival order; on a closed one nothing is enqueued |
| ChatApi.EventStream.OnError | src/api/chatApi.tsx:15-18 | an error closes the stream normally, keeping the queued chunks, and closes the connection |
| ChatApi.EventStream.Cancel | src/api/chatApi.tsx:20-22 | cancelling drops the queue, ends the stream and closes the connection |
| ChatApi.EventStream.Close | src/api/chatApi.tsx:24 | `close()` closes the connection and leaves the stream, its queue and its history of received, taken and discarded chunks as they were |
| ChatApi.EventStream.Read | src/api/chatApi.tsx:9-23 | a read takes the head of the queue in order; on an empty queue it reports the end once the stream is closed, and otherwise it waits; it never rejects |
| Chat.StreamedPrefix | src/view/component/ChatContent.tsx:131-136 | the loop runs while reads deliver chunks: the count covers only chunk reads and stops at the first read that is not a chunk |
| Chat.Settle | src/view/component/ChatContent.tsx:131-139 | the loop stalls exactly when every read delivers a chunk, and finishes exactly when the first read that is not a chunk reports the end |
| Chat.SettleFailsOnRejection | src/view/component/ChatContent.tsx:131-139 | the loop fails exactly when the first read that is not a chunk rejects |
| Chat.Chunks | src/view/component/ChatContent.tsx:132-134 | the fragments passed to `updateLastMessage` are the chunk values, in read order |
| Chat.ExchangeAppendsTwo | src/view/component/ChatContent.tsx:122-124 | `aiChat` appends exactly two entries after the transcript: the user question, then a loading `▍` placeholder |
| Chat.ChatAppendsQuestionAndReply | src/view/component/ChatContent.tsx:122-136 | a chat that did not fail leaves the old transcript, then the question, then the reply; the reply keeps its id, is not the user's, and stays loading iff no chunk arrived |
| Chat.ChatReplyIsConcatenation | src/view/component/ChatContent.tsx:122-136 | with at least one chunk, none ending in `▍`, the reply is exactly the chunks joined in order, no longer loading |
| Chat.EmptyReplyLeavesPlaceholder | src/view/component/ChatContent.tsx:124-133 | a stream that ends before any chunk leaves the question and a loading `▍` placeholder |
| Chat.RollbackKeepsQuestion | src/view/component/ChatContent.tsx:137-139 | after a rejected read the transcript is the old one plus the question: only the reply is rolled back |
| Chat.ChatContent.constructor | src/view/component/ChatContent.tsx:26-32 | mounting starts with an empty transcript and input, not loading, and no connection |
| Chat.ChatContent.OnInputChange | src/view/component/ChatContent.tsx:241 | typing sets the input to the text |
| Chat.ChatContent.ReadLoop | src/view/component/ChatContent.tsx:131-136 | the loop reads exactly the leading chunks, and the transcript becomes those chunks folded into the last entry in order |
| Chat.ChatContent.Finally | src/view/component/ChatContent.tsx:140-144 | loading ends false, the input ends empty and the current connection is closed, its stream, queue and history untouched |
| Chat.ChatContent.Open | src/view/component/ChatContent.tsx:118-127 | the input is cleared, the question and the placeholder are appended, and a fresh open connection carries the question's query, its stream empty and open with no history |
| Chat.ChatContent.Stream | src/view/component/ChatContent.tsx:131-139 | the transcript becomes the chunks folded into the last entry, with that entry rolled back iff a read rejected; an error toast is added iff a read rejected; the input, the connection and the session fields are untouched |
| Chat.ChatContent.Converse | src/view/component/ChatContent.tsx:118-139 | the transcript becomes the chat's result; an error toast is added iff a read rejected; the connection was opened for the question and its stream is still empty and open with no history; loading is untouched |
| Chat.ChatContent.AiChat | src/view/component/ChatContent.tsx:113-145 | for "new", only the `finally` step runs and nothing is appended, the current connection being closed with its stream and history untouched; otherwise the chat streams over a fresh connection whose stream the panel leaves empty and open with no history, leaving the previous handle untouched, and loading ends false and the connection closed iff the loop settled |
| Chat.ChatContent.HandleSubmit | src/view/component/ChatContent.tsx:95-111 | a blank input or an ongoing load changes nothing; otherwise the submission runs as `Submit` states, connections included |
| Chat.ChatContent.Submit | src/view/component/ChatContent.tsx:98-110 | a session is created iff the session id is empty or "new"; when creation fails, loading ends and nothing else changes; otherwise the new id is announced and `aiChat` runs with it and the submitted input; every connection it closes keeps its stream and history, the fresh handle's stream staying empty and open with no history, and a previous handle is left untouched when a new one opens |
| Chat.ChatContent.HandleStop | src/view/component/ChatContent.tsx:148-152 | stop leaves the transcript and input untouched, closes the connection, leaving its stream, queue and history as they were, ends loading and adds an info toast |
| Chat.ChatContent.LoadHistory | src/view/component/ChatContent.tsx:39-58 | history is fetched iff the session id is non-empty and nothing is loading; a fetched history replaces the transcript; a failed fetch keeps it |
| Chat.ChatContent.Unmount | src/view/component/ChatContent.tsx:34-38 | unmounting closes the current connection, if any, leaving its stream, queue and history as they were |
| Menu.ItemInfo | src/view/component/HomeMenu.tsx:30-35 | the session behind an item maps back to that item |
| Menu.ItemInfos | src/view/component/HomeMenu.tsx:30-35 | reading items back as sessions keeps length and order, each mapping back to its item |
| Menu.ConvertedMenu | src/view/component/HomeMenu.tsx:27-44 | the menu starts with the "new" item labelled 开启新对话; a falsy list yields that item alone; otherwise it has one more item than sessions, the rest matching the sessions one-to-one in order |
| Menu.KeyCount | src/view/component/HomeMenu.tsx:52-53 | the filtered length is at most the number of items, and it is zero exactly when no item has the key, which is the refetch test |
| Menu.OnlyNew | src/view/component/HomeMenu.tsx:89-91 | the collapsed filter keeps only items keyed "new" and keeps every such item |
| Menu.ProcessedItems | src/view/component/HomeMenu.tsx:87-111 | each shown item keeps its key and label, in order; expanded, every item is shown; collapsed, exactly the items keyed "new" remain; every item except "new" carries a delete icon |
| Menu.CollapsedCount | src/view/component/HomeMenu.tsx:89-91 | the collapsed filter keeps exactly as many items as are keyed "new" |
| Menu.OnlyNewAppend | src/view/component/HomeMenu.tsx:89-91 | the collapsed filter preserves order: it distributes over concatenation |
| Menu.OnlyNewOfOthers | src/view/component/HomeMenu.tsx:89-91 | items none of which is keyed "new" vanish when collapsed |
| Menu.ConvertedMenuRoundTrip | src/view/component/HomeMenu.tsx:30-42 | the sessions are recovered, in order, from the converted menu after its first item |
| Menu.ConvertedMenuKeys | src/view/component/HomeMenu.tsx:27-54 | a session id is a key of the converted menu exactly when it is "new" or one of the listed ids |
| Menu.CollapsedMenuIsNewChatOnly | src/view/component/HomeMenu.tsx:37-42 | when no session is keyed "new", the collapsed converted menu is the "new" item alone, without a delete icon |
| Menu.HomeMenu.constructor | src/view/component/HomeMenu.tsx:23-25 | the menu starts with no selection, no items and expanded |
| Menu.HomeMenu.ConvertMenuItems | src/view/component/HomeMenu.tsx:27-44 | the stored menu is the converted menu, and so starts with the "new" item |
| Menu.HomeMenu.MenuRequest | src/view/component/HomeMenu.tsx:45-49 | one list request is made; a successful answer replaces the menu with its conversion; a failure keeps the menu |
| Menu.HomeMenu.SyncSelection | src/view/component/HomeMenu.tsx:51-61 | an id already in the menu is selected without a refetch; otherwise the menu is refetched and, on success, rebuilt before the id is selected; on failure nothing changes |
| Menu.HomeMenu.OnClick | src/view/component/HomeMenu.tsx:67-70 | the selection becomes exactly the key and the key is reported upward |
| Menu.HomeMenu.HandleDelete | src/view/component/HomeMenu.tsx:72-80 | a confirmed delete is requested; on success the menu is rebuilt from the answer and "new" is clicked; otherwise menu and selection stay |
| Menu.HomeMenu.ToggleCollapsed | src/view/component/HomeMenu.tsx:82-85 | the collapse flag is negated and its new value is reported |
| AppRequest.UnwrapResponse | src/api/AppRequest.ts:12-34 | the response resolves iff status and code are both 200; any other status rejects with the response, and so does any other code; a resolved value carries the response as `_source`; its fields are none for falsy data, and otherwise exactly the payload's fields with its own `_source` overwritten |
| AppRequest.Wrap | src/api/AppRequest.ts:14-24 | the server's success envelope has status 200 and code 200 |
| AppRequest.UnwrapWrapRoundTrip | src/api/AppRequest.ts:17-24 | a payload without a `_source` field is resolved with exactly its fields |
| AppRequest.ClosingNotices | src/api/AppRequest.ts:89-101 | the loading message is dismissed iff there is one; the error message is shown iff it is set and the request failed; the success toast is shown iff asked for and the request succeeded; each notice appears at most once, so at most two result |
| AppRequest.RequestConfig.constructor | src/api/AppRequest.ts:38-45 | a configuration starts with the caller's flags and no key, request id or loading message |
| AppRequest.VisibleAxios.constructor | src/api/AppRequest.ts:51-55 | the counter starts at 1 with no keys issued |
| AppRequest.VisibleAxios.InterceptRequest | src/api/AppRequest.ts:56-69 | the request gets the counter's value as both msgKey and requestId; the counter grows by exactly 1, so keys run 1, 2, 3, …; a loading message is shown iff showLoading is set |
| AppRequest.VisibleAxios.CloseLoading | src/api/AppRequest.ts:89-101 | the notices shown are exactly the closing notices for the configuration and the outcome |

## Left out

- JSX rendering, `MarkdownRenderer`, scrolling and styling: they are user interface only.
- EventSource, ReadableStream, axios and antd internals are foreign libraries. The connection is an abstract queue with two closed flags. Read outcomes and request answers are parameters. Toasts and notices are recorded as values.
- React state batching, effect timing and promise interleaving are not modelled. A submission runs to its end as sequential steps, and the race in `handleSubmit` (src/view/component/ChatContent.tsx:100-107) is not captured.
- The history effect is triggered by a session id change. `LoadHistory` models one run of it, with the answer as a parameter. Its firing when the id changes is not modelled.
- Chat.ChatContent.AiChat: the read loop takes an abstract sequence of outcomes rather than reading from `EventStream`. The interleaving of `OnMessage`/`OnError` events with reads is not modelled. `EventStream.Read` states that the adapter itself never rejects. No events reach the fresh handle in the model, so its stream staying empty and open states what the panel itself does to the handle (it only closes the connection), not how the server ends the stream.
- Chat.ChatContent.Submit: the input text passed on is the one captured when the submission started. The user's edits while session creation is pending are not modelled.
- `Date.now()` ids: these are opaque parameters, not required to be distinct.
- URL encoding of the query (`URLSearchParams` serialisation) is left out. The query is the ordered list of its parameters, and the handle's `path` is `Endpoint`.
- The wiring of the visible client's response handlers (src/api/AppRequest.ts:76-85) is left out. So are the request-error handler (src/api/AppRequest.ts:70-75) and the content-type header. Only the decisions they delegate (`closeLoading`, the unwrap) are modelled.
- AppRequest.UnwrapResponse: primitive payloads are not modelled; `data.data` is either falsy or an object with string fields. A body that cannot be destructured is `Malformed`. Statuses other than 2xx never reach this handler, because axios rejects them first.
- The menu is built through the API. A falsy session list there becomes `{}`, whose `map` throws, so such an answer behaves like a failed request (`None`). `ConvertedMenu` models the falsy branch of `convertMenuItems` on its own.
- Menu.HomeMenu.HandleDelete: the confirmation dialog is the `confirmed` parameter, and `stopPropagation` is not modelled.
- Item icons are not modelled, and the delete icon is a flag.
- `src/util/NotificationUtil.tsx`, `src/api/menuApi.tsx`, `newChatCreate` / `historyMessageList` in `src/api/chatApi.tsx`, `src/App.tsx` and `src/view/Home.tsx` are thin wrappers or wiring and are not part of this model.
- Build and dev-server configuration is not part of this model.
