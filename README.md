# Shinkai desktop chat core, modelled in Dafny

This project models the client-side logic of the Shinkai desktop app. The
centre is the chat streaming pipeline. Tokens arrive on a WebSocket. They are
buffered and flushed into a per-inbox streaming store. The store's entry is
laid over the cached copy of the optimistic assistant message. When the turn
ends, the entry is written back into the paginated conversation cache.

Around that pipeline the project models:
- the transcript status, which drives the "message sent" flag and auto-scroll;
- the chat-management dialog's filtering and shift-click multi-selection;
- the spotlight window's text helpers (deep-link extraction, `<think>`
  stripping, tool and reasoning labels, status hints, the memo comparator);
- the agent-workflow builder: turning a payload into canvas nodes and edges,
  palette nodes, the order-independent snapshot behind dirty tracking, and
  the side-panel edits;
- agent-id derivation in the "New Agent" form;
- the route guards: connection routes, the terms redirect, node auto-start,
  the default-agent pick and onboarding navigation;
- the markdown renderer's media-link detection and Mermaid label quoting.

## How the model is organised

Modules follow the source files:
- `StreamingStore` (streaming-context.tsx)
- `WebSocketMessage` (websocket-message.tsx)
- `StreamingMessage`, `ChatConversation`, `MessageList`, `UseMessages`,
  `ManageChats`, `SpotlightMessage`
- `WorkflowUtils`, `WorkflowEditor`, `AddAgent`, `Routes`, `MarkdownPreview`

Support modules:
- `Wrappers`: an Option type.
- `Text`: JavaScript string built-ins.
- `OrderedMap`: a JavaScript `Map` as an insertion-ordered list of entries.
- `ChatTypes`: the shared message values.
- `Session`: the signed-in auth record.

Code that only computes is written as functions, with lemmas about them.
Code that changes state is written as classes whose methods are specified
against those functions:
- the zustand store: `StreamingStore.Store`;
- the WebSocket hook's refs, store and query cache: `WebSocketMessage.ChatSocket`, `QueryCache`;
- the subscription effects: `WebSocketMessage.Subscription`;
- `useMessages`: `UseMessages.Messages`;
- the dialog: `ManageChats.Selection`;
- the canvas refs: `WorkflowEditor.WorkflowCanvas`;
- the auto-start guard: `Routes.NodeAutoStart`.

Clocks, timers, parsing and random values are parameters:
- The clock is `now` in milliseconds and `nowIso` for ISO timestamps.
- A `setTimeout` is a pending-timer counter plus an explicit `Tick`.
- `JSON.parse` and `new URL` results are input datatypes.
- A random position or a fresh id is an argument.

## Model

| member | source | states |
|---|---|---|
| Text.TrimStart | apps/shinkai-desktop/src/components/chat/manage-chats-dialog.tsx:118 | the result is a suffix of the input that starts with a non-space character, and the part dropped is all white space |
| Text.TrimEnd | apps/shinkai-desktop/src/components/chat/manage-chats-dialog.tsx:118 | the result is a prefix of the input that ends with a non-space character, and the part dropped is all white space |
| Text.TrimEmptyIffBlank | apps/shinkai-desktop/src/components/chat/manage-chats-dialog.tsx:118 | `trim()` is empty iff the text is all white space, so a blank query keeps the whole list |
| Text.Lower | apps/shinkai-desktop/src/components/chat/manage-chats-dialog.tsx:120-126 | `toLowerCase`: same length, every character lower-cased on its own |
| Text.IndexOf | apps/shinkai-desktop/src/windows/spotlight/components/message.tsx:349-350 | the leftmost occurrence, and None iff there is none |
| Text.IndexOfFirst | apps/shinkai-desktop/src/windows/spotlight/components/message.tsx:349-350 | an occurrence with none before it is exactly the one found |
| Text.IndexOfAfterFree | libs/shinkai-ui/src/components/markdown-preview.tsx:24 | text lacking the first character of a pattern ends at the pattern placed after it |
| Text.IndexOfExtended | apps/shinkai-desktop/src/windows/spotlight/components/message.tsx:349 | appending text after the first occurrence does not move it |
| Text.AfterLast | apps/shinkai-desktop/src/components/chat/websocket-message.tsx:321-323 | `split(sep).pop()`: the longest suffix without the separator, which is preceded by the separator unless it is the whole text |
| Text.NatToString | apps/shinkai-desktop/src/components/chat/websocket-message.tsx:43-48 | a non-empty run of digits without a leading zero |
| Text.ParseNatToString | apps/shinkai-desktop/src/components/chat/websocket-message.tsx:43-48 | the rendered port reads back as the number rendered |
| Text.NatToStringInjective | apps/shinkai-desktop/src/components/chat/websocket-message.tsx:43-48 | distinct numbers render differently |
| OrderedMap.Get | apps/shinkai-desktop/src/components/chat/context/streaming-context.tsx:349-360 | `Map.get`: a value iff the key is present, and that value is the key's entry |
| OrderedMap.Set | apps/shinkai-desktop/src/components/chat/context/streaming-context.tsx:261 | `Map.set`: the key reads back the new value, every other key is unchanged, and a new key is appended at the end |
| OrderedMap.Delete | apps/shinkai-desktop/src/components/chat/context/streaming-context.tsx:258-273 | `Map.delete`: the key is gone, every other key is unchanged, and nothing is added; DeleteAt states that the other entries keep their insertion order |
| OrderedMap.SetUnique | apps/shinkai-desktop/src/components/chat/context/streaming-context.tsx:261 | setting keeps the keys distinct |
| OrderedMap.SetKeepsKeys | apps/shinkai-desktop/src/components/chat/context/streaming-context.tsx:145-151 | setting an existing key keeps the key order (its insertion position) |
| OrderedMap.DeleteFirst | apps/shinkai-desktop/src/components/chat/context/streaming-context.tsx:266-273 | deleting the oldest key drops exactly the first entry |
| OrderedMap.DeleteAt | apps/shinkai-desktop/src/components/chat/context/streaming-context.tsx:258-273 | deleting the key at any position drops exactly that entry and keeps the others in insertion order |
| OrderedMap.DeleteStep | apps/shinkai-desktop/src/components/chat/context/streaming-context.tsx:258-273 | deleting a key that is not first keeps the first entry in front |
| ChatTypes.LastOfLastPage | apps/shinkai-desktop/src/components/chat/websocket-message.tsx:153-160 | the last message of the last page, present iff that page exists and is non-empty |
| ChatTypes.ReplaceLast | apps/shinkai-desktop/src/components/chat/websocket-message.tsx:186-190 | only the last message of the last page is replaced, and the pages and their lengths are kept |
| StreamingStore.RoundedSeconds | apps/shinkai-desktop/src/components/chat/context/streaming-context.tsx:103 | `Math.round(ms/1000)`: the result is the whole number of seconds within half a second of `ms`, halves rounded up |
| StreamingStore.ReasoningDuration | apps/shinkai-desktop/src/components/chat/context/streaming-context.tsx:100-104 | a positive stored duration is returned as is; no (or zero) start time gives 0; otherwise the elapsed time rounded to seconds |
| StreamingStore.ReasoningDurationOf | apps/shinkai-desktop/src/components/chat/context/streaming-context.tsx:347-360 | 0 for the empty inbox id and for an inbox the ledger lacks; otherwise the ledger's saved duration |
| StreamingStore.Started | apps/shinkai-desktop/src/components/chat/context/streaming-context.tsx:118-133 | the inbox gets a fresh entry (empty content, no reasoning, no tool calls, streaming, no start, duration 0); its saved duration is deleted; every other inbox's entry and duration are unchanged |
| StreamingStore.ContentAppended | apps/shinkai-desktop/src/components/chat/context/streaming-context.tsx:135-156 | a no-op unless the inbox is streaming; otherwise content is old content + fragment, existing reasoning becomes complete (absent stays absent), the duration is fixed, and nothing else or no other inbox changes |
| StreamingStore.ReasoningAppended | apps/shinkai-desktop/src/components/chat/context/streaming-context.tsx:158-181 | a no-op unless streaming; otherwise reasoning text is old text (or "") + fragment with status running, the start time is set only when absent, content, tool calls and other inboxes unchanged |
| StreamingStore.ReasoningCompleted | apps/shinkai-desktop/src/components/chat/context/streaming-context.tsx:183-199 | a no-op unless streaming with reasoning; otherwise reasoning is marked complete and the duration fixed, nothing else changes |
| StreamingStore.MergeToolCall | apps/shinkai-desktop/src/components/chat/context/streaming-context.tsx:212 | the spread merge: every field comes from the patch, except generated files, which fall back to the current ones when the patch has none |
| StreamingStore.ToolCallsUpdated | apps/shinkai-desktop/src/components/chat/context/streaming-context.tsx:207-216 | index below the length: same length and that slot merged; otherwise the patch is appended; other slots unchanged |
| StreamingStore.ToolCallUpdated | apps/shinkai-desktop/src/components/chat/context/streaming-context.tsx:201-223 | a no-op without an entry (streaming or not is not checked); otherwise only the entry's tool calls change, as ToolCallsUpdated says |
| StreamingStore.StreamingEnded | apps/shinkai-desktop/src/components/chat/context/streaming-context.tsx:225-241 | a no-op without an entry; otherwise streaming stops, content, reasoning, tool calls and start are kept, the duration is fixed; the ledger is untouched |
| StreamingStore.InboxCleared | apps/shinkai-desktop/src/components/chat/context/streaming-context.tsx:243-251 | the inbox's entry is gone, other entries and the whole ledger unchanged; a no-op when absent |
| StreamingStore.Newest | apps/shinkai-desktop/src/components/chat/context/streaming-context.tsx:264-274 | the eviction keeps exactly the last `n` entries (all when shorter), a suffix of the ledger |
| StreamingStore.DurationSaved | apps/shinkai-desktop/src/components/chat/context/streaming-context.tsx:253-278 | `saveReasoningDuration` on the ordered ledger: the entry moves to the newest place with its new duration and the oldest beyond five go; its properties are DurationSavedValid, DurationSavedIsNewest, DurationSavedOthers and DurationSavedEvictsOldest |
| StreamingStore.SavedUnique | apps/shinkai-desktop/src/components/chat/context/streaming-context.tsx:255-261 | deleting the key and re-setting it at the end keeps keys distinct |
| StreamingStore.DurationSavedValid | apps/shinkai-desktop/src/components/chat/context/streaming-context.tsx:253-278 | after a save the ledger is duplicate-free and holds at most 5 keys |
| StreamingStore.DurationSavedIsNewest | apps/shinkai-desktop/src/components/chat/context/streaming-context.tsx:255-262 | the saved key moves to the most recent position and reads back the saved duration |
| StreamingStore.DurationSavedOthers | apps/shinkai-desktop/src/components/chat/context/streaming-context.tsx:263-274 | any other inbox keeps its duration or loses it, never gains or changes one |
| StreamingStore.DurationSavedEvictsOldest | apps/shinkai-desktop/src/components/chat/context/streaming-context.tsx:263-274 | eviction is oldest-first: if an older key survives, every newer key survives too |
| StreamingStore.DurationSavedFillOrder | apps/shinkai-desktop/src/components/chat/context/streaming-context.tsx:253-278 | re-saving a listed inbox moves it to the newest place, keeps the others in the order they were saved, then keeps the newest five |
| StreamingStore.Apply | apps/shinkai-desktop/src/components/chat/context/streaming-context.tsx:109-287 | the store's reducer: each action mapped to its transition; ApplyKeepsValid and LedgerOnlyChangedBySaveOrStart are its invariants |
| StreamingStore.ApplyKeepsValid | apps/shinkai-desktop/src/components/chat/context/streaming-context.tsx:109-289 | every store action keeps both maps duplicate-free and the ledger within its cap of 5 |
| StreamingStore.DurationFixedOncePositive | apps/shinkai-desktop/src/components/chat/context/streaming-context.tsx:100-104 | once an entry's duration is positive, every action other than startStreaming of that inbox and clearAll leaves it unchanged while the entry exists |
| StreamingStore.LedgerOnlyChangedBySaveOrStart | apps/shinkai-desktop/src/components/chat/context/streaming-context.tsx:118-289 | only startStreaming, saveReasoningDuration and clearAll touch the duration ledger |
| StreamingStore.StartTimeKept | apps/shinkai-desktop/src/components/chat/context/streaming-context.tsx:164-175 | the first reasoning token's clock reading stays the start time through later reasoning tokens |
| StreamingStore.SetAfterDelete | apps/shinkai-desktop/src/components/chat/context/streaming-context.tsx:255-261 | setting a key just deleted appends it at the newest end, with keys still distinct |
| StreamingStore.KeepNewest | apps/shinkai-desktop/src/components/chat/context/streaming-context.tsx:263-274 | the capped ledger is its newest 5 entries |
| StreamingStore.SaveDuration | apps/shinkai-desktop/src/components/chat/context/streaming-context.tsx:253-278 | delete, set, then cap yields exactly the ledger DurationSaved specifies |
| StreamingStore.DeleteOldest | apps/shinkai-desktop/src/components/chat/context/streaming-context.tsx:265-273 | the removal loop over the first `count` keys leaves exactly the ledger without its first `count` entries |
| StreamingStore.Store.constructor | apps/shinkai-desktop/src/components/chat/context/streaming-context.tsx:109-112 | the store starts with two empty maps |
| StreamingStore.Store.StartStreaming | apps/shinkai-desktop/src/components/chat/context/streaming-context.tsx:118-133 | the new state is Started of the old one; the invariant holds |
| StreamingStore.Store.AppendContent | apps/shinkai-desktop/src/components/chat/context/streaming-context.tsx:135-156 | the new state is ContentAppended of the old one |
| StreamingStore.Store.AppendReasoning | apps/shinkai-desktop/src/components/chat/context/streaming-context.tsx:158-181 | the new state is ReasoningAppended of the old one |
| StreamingStore.Store.CompleteReasoning | apps/shinkai-desktop/src/components/chat/context/streaming-context.tsx:183-199 | the new state is ReasoningCompleted of the old one |
| StreamingStore.Store.UpdateToolCall | apps/shinkai-desktop/src/components/chat/context/streaming-context.tsx:201-223 | the new state is ToolCallUpdated of the old one |
| StreamingStore.Store.EndStreaming | apps/shinkai-desktop/src/components/chat/context/streaming-context.tsx:225-241 | the new state is StreamingEnded of the old one |
| StreamingStore.Store.ClearInbox | apps/shinkai-desktop/src/components/chat/context/streaming-context.tsx:243-251 | the new state is InboxCleared of the old one |
| StreamingStore.Store.SaveReasoningDuration | apps/shinkai-desktop/src/components/chat/context/streaming-context.tsx:253-278 | delete, set, then evict the oldest keys in a loop; the result is the ledger DurationSaved specifies, within the cap |
| StreamingStore.Store.ClearAll | apps/shinkai-desktop/src/components/chat/context/streaming-context.tsx:284-286 | both maps become empty |
| WebSocketMessage.WebSocketUrl | apps/shinkai-desktop/src/components/chat/websocket-message.tsx:36-49 | `ws://` host, port, `/ws`; its partner is WebSocketUrlRoundTrip |
| WebSocketMessage.WebSocketUrlRoundTrip | apps/shinkai-desktop/src/components/chat/websocket-message.tsx:36-49 | for every host name, a colon-free name or a bracketed IPv6 literal, the URL reads back as that host with port+1 for localhost, 0.0.0.0 and 127.0.0.1, else its own port (absent when 0), under `ws://…/ws` |
| WebSocketMessage.ParsePort | apps/shinkai-desktop/src/components/chat/websocket-message.tsx:43-47 | an authority with nothing after the host has port 0 |
| WebSocketMessage.HostSplit | apps/shinkai-desktop/src/components/chat/websocket-message.tsx:43-47 | a host name followed by nothing or by `:` is split off whole, a bracketed literal at its closing bracket and any other name at its first colon |
| WebSocketMessage.AuthorityWithPort | apps/shinkai-desktop/src/components/chat/websocket-message.tsx:43-47 | `host:port` with any host name, IPv6 literals included, reads back as that host and port |
| WebSocketMessage.Ipv6LoopbackRoundTrip | apps/shinkai-desktop/src/components/chat/websocket-message.tsx:36-49 | the URL for `[::1]` on port 9550 reads back as that host and port |
| WebSocketMessage.UrlAuthority | apps/shinkai-desktop/src/components/chat/websocket-message.tsx:43-48 | the `ws://` prefix and `/ws` suffix frame exactly the authority |
| WebSocketMessage.GeneratedFileFor | apps/shinkai-desktop/src/components/chat/websocket-message.tsx:320-331 | id and path are the path; the name is the text after the last '/'; the extension the text after the name's last '.' (the whole name without '.'); unknown type, octet-stream |
| WebSocketMessage.GeneratedFilesOf | apps/shinkai-desktop/src/components/chat/websocket-message.tsx:308-337 | files exist iff the response is non-empty, parses and lists created files (under `data` first, else at the top); then one file per path, in order |
| WebSocketMessage.FinalValuesOf | apps/shinkai-desktop/src/components/chat/websocket-message.tsx:125-146 | content = real ?? streamed ?? ""; reasoning = non-empty real, else streamed, always complete; tool calls = given, else streamed, else [] |
| WebSocketMessage.FinalizedCache | apps/shinkai-desktop/src/components/chat/websocket-message.tsx:151-192 | unchanged unless the last message of the last page is the running optimistic assistant message; then only that message changes, into the final message |
| WebSocketMessage.ToolCallFromRequest | apps/shinkai-desktop/src/components/chat/websocket-message.tsx:556-562 | the tool call appended for a request with no slot: name, router key (empty when absent), arguments, status and result; FallbackToolCalls states where it goes |
| WebSocketMessage.FallbackToolCalls | apps/shinkai-desktop/src/components/chat/websocket-message.tsx:544-563 | an existing slot gets the new status and result; otherwise the request is appended; other slots unchanged |
| WebSocketMessage.ToolFallbackCache | apps/shinkai-desktop/src/components/chat/websocket-message.tsx:527-575 | unchanged unless the last message is the running optimistic assistant message; then only its tool calls change |
| WebSocketMessage.FinalizeOnce | apps/shinkai-desktop/src/components/chat/websocket-message.tsx:162-175 | a second finalisation finds no running placeholder and changes nothing |
| WebSocketMessage.ToolFallbackAfterFinalize | apps/shinkai-desktop/src/components/chat/websocket-message.tsx:538-543 | a tool widget after finalisation leaves the cache alone |
| WebSocketMessage.Flushed | apps/shinkai-desktop/src/components/chat/websocket-message.tsx:102-211 | always clears the scheduled flag; with nothing buffered and no finalisation that is all; otherwise both buffers are applied (reasoning first) and emptied; finalising stops streaming without clearing the entry or saving a duration; other inboxes untouched |
| WebSocketMessage.FrameHandled | apps/shinkai-desktop/src/components/chat/websocket-message.tsx:223-406 | disabled, signed out, unparseable or other-inbox frames change nothing; at most one flush timer is added and only when none was scheduled; the cache changes only on the turn's first completion |
| WebSocketMessage.AssistantMessageHandled | apps/shinkai-desktop/src/components/chat/websocket-message.tsx:258-369 | the final assistant message: only a refetch without stream support, otherwise one finalisation per turn; ChatSocket.OnAssistantMessage is proved against it and LatchHolds and FinalizeOnce state its once-only promise |
| WebSocketMessage.StreamFrameHandled | apps/shinkai-desktop/src/components/chat/websocket-message.tsx:371-402 | a stream token is buffered, then the turn is finalised on `is_done` before the latch, or one flush is scheduled; ChatSocket.OnStreamFrame is proved against it |
| WebSocketMessage.Ticked | apps/shinkai-desktop/src/components/chat/websocket-message.tsx:401 | with no pending timer nothing happens; otherwise one pending timer is consumed and the scheduled flag cleared; cache, latch and effects never change |
| WebSocketMessage.ToolFrameHandled | apps/shinkai-desktop/src/components/chat/websocket-message.tsx:500-592 | disabled, unparseable or other-inbox frames change nothing; a streaming inbox updates only the store, otherwise only the cache; no other field changes |
| WebSocketMessage.LatchHolds | apps/shinkai-desktop/src/components/chat/websocket-message.tsx:250-396 | once a turn completed, every frame but the user's own echo keeps it completed and leaves the cache alone |
| WebSocketMessage.UserMessageStartsTurn | apps/shinkai-desktop/src/components/chat/websocket-message.tsx:246-257 | the user's echo resets the latch and both buffers and installs a fresh streaming entry |
| WebSocketMessage.WidgetFrameDisablesFinalisation | apps/shinkai-desktop/src/components/chat/websocket-message.tsx:258-262 | a widget frame of the inbox reaches the message handler too and clears stream support, so a final assistant message arriving next leaves the cache alone and only refetches the conversation |
| WebSocketMessage.FlushAppliesReasoningFirst | apps/shinkai-desktop/src/components/chat/websocket-message.tsx:111-118 | a flush appends both buffers, and the reasoning ends up complete because content is applied after it |
| WebSocketMessage.TickKeepsFlushInvariant | apps/shinkai-desktop/src/components/chat/websocket-message.tsx:399-402 | a timer firing keeps the invariant that the scheduled flag is set only while a flush timer is pending |
| WebSocketMessage.SecondTimerAfterDone | apps/shinkai-desktop/src/components/chat/websocket-message.tsx:371-402 | a token, then an `is_done` token, then a token leave two flush timers pending: the finalising flush clears the flag while the first timer is still pending |
| WebSocketMessage.QueryCache.SetQueryData | apps/shinkai-desktop/src/components/chat/websocket-message.tsx:151 | the cache becomes the updater applied to the old data |
| WebSocketMessage.ChatSocket.constructor | apps/shinkai-desktop/src/components/chat/websocket-message.tsx:60-77 | both buffers empty, no flush scheduled or pending, no stream support, latch clear, no effects |
| WebSocketMessage.ChatSocket.FlushTokenBuffer | apps/shinkai-desktop/src/components/chat/websocket-message.tsx:102-211 | the new refs, store and cache are Flushed of the old ones |
| WebSocketMessage.ChatSocket.ApplyBuffers | apps/shinkai-desktop/src/components/chat/websocket-message.tsx:111-118 | the store gets the reasoning buffer, then the token buffer, as BuffersApplied says; both buffers become empty; nothing else changes |
| WebSocketMessage.ChatSocket.Finalize | apps/shinkai-desktop/src/components/chat/websocket-message.tsx:121-210 | the new state is Finalized of the old one: placeholder rewritten, stream ended, delayed invalidation when there are tool calls |
| WebSocketMessage.ChatSocket.OnFrame | apps/shinkai-desktop/src/components/chat/websocket-message.tsx:223-406 | the new state is FrameHandled of the old one |
| WebSocketMessage.ChatSocket.OnAssistantMessage | apps/shinkai-desktop/src/components/chat/websocket-message.tsx:258-369 | the new state is AssistantMessageHandled of the old one: without stream support only a refetch, otherwise one finalisation per turn with the message's real values |
| WebSocketMessage.ChatSocket.OnUserMessage | apps/shinkai-desktop/src/components/chat/websocket-message.tsx:246-256 | the new state is UserTurnStarted of the old one: buffers emptied, completion latch reset, the inbox streaming afresh |
| WebSocketMessage.ChatSocket.OnStreamFrame | apps/shinkai-desktop/src/components/chat/websocket-message.tsx:371-402 | the new state is StreamFrameHandled of the old one: the token is buffered, then the turn finalised on `is_done` or one flush scheduled |
| WebSocketMessage.ChatSocket.BufferToken | apps/shinkai-desktop/src/components/chat/websocket-message.tsx:376-385 | the new state is TokenBuffered of the old one: the turn restarted if not streaming, the token appended to the reasoning or the content buffer |
| WebSocketMessage.ChatSocket.EnsureStreaming | apps/shinkai-desktop/src/components/chat/websocket-message.tsx:376-378 | the store starts streaming the inbox unless it already is |
| WebSocketMessage.ChatSocket.Tick | apps/shinkai-desktop/src/components/chat/websocket-message.tsx:401 | the new state is Ticked of the old one |
| WebSocketMessage.ChatSocket.OnToolFrame | apps/shinkai-desktop/src/components/chat/websocket-message.tsx:500-592 | the new state is ToolFrameHandled of the old one |
| WebSocketMessage.ChatSocket.ApplyToolRequest | apps/shinkai-desktop/src/components/chat/websocket-message.tsx:514-576 | the new state is ToolRequestApplied of the old one: a streaming inbox gets updateToolCall, otherwise the cache fallback |
| WebSocketMessage.Subscription.constructor | apps/shinkai-desktop/src/components/chat/websocket-message.tsx:420-461 | nothing sent, no cleanup pending |
| WebSocketMessage.Subscription.Setup | apps/shinkai-desktop/src/components/chat/websocket-message.tsx:420-453 | disabled or without an API key nothing is sent; otherwise exactly one subscribe for the inbox on the hook's topic (inbox or widget) is sent and its cleanup is registered; the previous-inbox unsubscribe never fires |
| WebSocketMessage.Subscription.Cleanup | apps/shinkai-desktop/src/components/chat/websocket-message.tsx:456-460 | exactly one unsubscribe, for the inbox the cleanup was registered for, and the record is cleared |
| StreamingMessage.SubscribedInbox | apps/shinkai-desktop/src/components/chat/components/streaming-message.tsx:45-58 | non-optimistic messages subscribe to ""; otherwise the prop when non-empty, else the route parameter |
| StreamingMessage.HasStreamingContent | apps/shinkai-desktop/src/components/chat/components/streaming-message.tsx:71-75 | streamed data counts when it has text, reasoning text or a tool call; MergedMessage and StreamedTextWins state how it decides the merge |
| StreamingMessage.MergedMessage | apps/shinkai-desktop/src/components/chat/components/streaming-message.tsx:61-93 | unchanged unless optimistic with streamed content; then content, reasoning and tool calls prefer the streamed values, every other field survives |
| StreamingMessage.MergeIdempotent | apps/shinkai-desktop/src/components/chat/components/streaming-message.tsx:77-86 | merging twice with the same entry is merging once |
| StreamingMessage.StreamedTextWins | apps/shinkai-desktop/src/components/chat/components/streaming-message.tsx:71-80 | non-empty streamed text is what the optimistic message shows |
| StreamingMessage.ClearedInboxShowsCache | apps/shinkai-desktop/src/components/chat/components/streaming-message.tsx:88-92 | after clearInbox the cached message is rendered as is |
| ChatConversation.ShouldInsertPlaceholder | apps/shinkai-desktop/src/pages/chat/chat-conversation.tsx:82-88 | the placeholder effect fires for a settled, non-empty, odd-length conversation ending with the user's message; PlaceholderInserted and PlaceholderIdempotent state what it then does |
| ChatConversation.PlaceholderInserted | apps/shinkai-desktop/src/pages/chat/chat-conversation.tsx:96-109 | the cache changes exactly when it has pages and its last message is not the assistant's; then the placeholder is appended to the last page and the earlier pages are kept; otherwise the cache is returned as it was |
| ChatConversation.PlaceholderIdempotent | apps/shinkai-desktop/src/pages/chat/chat-conversation.tsx:103-107 | with an assistant placeholder, applying the updater twice equals once |
| ChatConversation.PlaceholderAppendsToTranscript | apps/shinkai-desktop/src/pages/chat/chat-conversation.tsx:99-109 | whenever the placeholder is due, the flattened transcript grows by exactly the placeholder |
| ChatConversation.PlaceholderSubmits | apps/shinkai-desktop/src/pages/chat/chat-conversation.tsx:105 | whenever the placeholder is due, a running, empty assistant placeholder puts the transcript into `submitted` |
| ChatConversation.IsLoadingMessage | apps/shinkai-desktop/src/pages/chat/chat-conversation.tsx:182-190 | true iff the inbox id is non-empty and the last message of the last page is a running assistant message |
| ChatConversation.PlaceholderShowsLoading | apps/shinkai-desktop/src/pages/chat/chat-conversation.tsx:182-190 | whenever a running placeholder is due for an open inbox, the page then shows loading |
| MessageList.Flatten | apps/shinkai-desktop/src/components/chat/components/message-list.tsx:101-104 | `pages.flat()`; FlattenMembers, FlattenAppend, FlattenSingle and FlattenLast state its contents and order |
| MessageList.FlattenMembers | apps/shinkai-desktop/src/components/chat/components/message-list.tsx:101-104 | a message is listed iff some page holds it |
| MessageList.FlattenAppend | apps/shinkai-desktop/src/components/chat/components/message-list.tsx:101-104 | flattening distributes over concatenating page lists (page order kept) |
| MessageList.FlattenSingle | apps/shinkai-desktop/src/components/chat/components/message-list.tsx:101-104 | one page flattens to itself |
| MessageList.FlattenLast | apps/shinkai-desktop/src/components/chat/components/message-list.tsx:101-104 | the list ends with the last page's last message |
| MessageList.MessageStatus | apps/shinkai-desktop/src/components/chat/components/message-list.tsx:32-58 | never `error`; empty or non-assistant last message gives ready; submitted iff running with empty content; streaming iff running with content |
| MessageList.StatusOfLastOnly | apps/shinkai-desktop/src/components/chat/components/message-list.tsx:33 | the status depends only on the last message |
| MessageList.ShouldFetchPrevious | apps/shinkai-desktop/src/components/chat/components/message-list.tsx:130-133 | the sentinel fetches the earlier page only when one exists, it is in view and none is loading; FetchAndAllLoadedExclusive relates it to the label |
| MessageList.ShowAllLoaded | apps/shinkai-desktop/src/components/chat/components/message-list.tsx:166-169 | the "no more messages" label needs a settled query, no fetch in flight, no earlier page and more than one page |
| MessageList.FetchAndAllLoadedExclusive | apps/shinkai-desktop/src/components/chat/components/message-list.tsx:130-173 | fetching an earlier page and the "all loaded" label never coincide |
| UseMessages.Observed | apps/shinkai-desktop/src/components/chat/use-messages.tsx:12-26 | the previous status becomes the observed one; same status changes nothing; entering submitted sets the flag, auto-scroll and one scroll; entering ready clears the flag; streaming and error change only the previous status |
| UseMessages.ObserveTwice | apps/shinkai-desktop/src/components/chat/use-messages.tsx:13-25 | observing a status twice equals observing it once |
| UseMessages.FlagSurvivesUntilReady | apps/shinkai-desktop/src/components/chat/use-messages.tsx:15-23 | once set, the flag survives every run of observations without ready |
| UseMessages.ObservedAll | apps/shinkai-desktop/src/components/chat/use-messages.tsx:25 | after a run the previous status is the last one observed |
| UseMessages.Messages.constructor | apps/shinkai-desktop/src/components/chat/use-messages.tsx:8-10 | the previous status is the initial one, the flag is off, auto-scroll as given, no scroll requested |
| UseMessages.Messages.Observe | apps/shinkai-desktop/src/components/chat/use-messages.tsx:12-26 | the new view is Observed of the old one |
| ManageChats.JobInboxes | apps/shinkai-desktop/src/components/chat/manage-chats-dialog.tsx:113 | keeps exactly the given inboxes whose id starts with `job_inbox::`, never more than given |
| ManageChats.JobInboxesAppend | apps/shinkai-desktop/src/components/chat/manage-chats-dialog.tsx:113 | the filter distributes over concatenation, so it keeps order |
| ManageChats.AllInboxes | apps/shinkai-desktop/src/components/chat/manage-chats-dialog.tsx:109-114 | nothing before pages load; only job inboxes |
| ManageChats.AllInboxesMembers | apps/shinkai-desktop/src/components/chat/manage-chats-dialog.tsx:109-114 | an inbox is listed iff it is a job inbox on some loaded page |
| ManageChats.AllPagesMembers | apps/shinkai-desktop/src/components/chat/manage-chats-dialog.tsx:112 | `flatMap` holds exactly the pages' inboxes |
| ManageChats.AllInboxesPageOrder | apps/shinkai-desktop/src/components/chat/manage-chats-dialog.tsx:111-113 | loading one more page appends that page's job inboxes after the earlier ones |
| ManageChats.AllPagesAppend | apps/shinkai-desktop/src/components/chat/manage-chats-dialog.tsx:112 | a new page is appended at the end |
| ManageChats.Matching | apps/shinkai-desktop/src/components/chat/manage-chats-dialog.tsx:121-127 | keeps exactly the inboxes whose lower-cased display name contains the lower-cased query; MatchingAppend states that their order is kept |
| ManageChats.MatchingAppend | apps/shinkai-desktop/src/components/chat/manage-chats-dialog.tsx:121-127 | the filter distributes over concatenation, so the kept inboxes stay in list order |
| ManageChats.FilteredInboxes | apps/shinkai-desktop/src/components/chat/manage-chats-dialog.tsx:117-128 | a blank query keeps everything; otherwise exactly the matching inboxes, in list order (MatchingAppend) |
| ManageChats.FindIndex | apps/shinkai-desktop/src/components/chat/manage-chats-dialog.tsx:146-151 | the first position with the id, or -1 iff none |
| ManageChats.AddRange | apps/shinkai-desktop/src/components/chat/manage-chats-dialog.tsx:157-159 | the loop adds exactly the ids at positions start..end inclusive |
| ManageChats.Toggled | apps/shinkai-desktop/src/components/chat/manage-chats-dialog.tsx:139-169 | a plain click (or shift on a selected id, or without anchor) flips only the clicked id; a range click removes nothing and adds only listed ids; RangeClickSelectsRange pins the range exactly |
| ManageChats.RangeClickSelectsRange | apps/shinkai-desktop/src/components/chat/manage-chats-dialog.tsx:145-160 | with both ends listed, every id between them, both ends included, is selected, and every id added lies between them |
| ManageChats.RangeClickMissingEnd | apps/shinkai-desktop/src/components/chat/manage-chats-dialog.tsx:153 | with an end missing from the list, the selection is unchanged |
| ManageChats.IdsOf | apps/shinkai-desktop/src/components/chat/manage-chats-dialog.tsx:177 | exactly the ids of the list |
| ManageChats.AllSelected | apps/shinkai-desktop/src/components/chat/manage-chats-dialog.tsx:219-221 | the "all selected" box: a non-empty filtered list whose every id is selected; SelectAllChecksBox is its partner |
| ManageChats.SelectAllChecksBox | apps/shinkai-desktop/src/components/chat/manage-chats-dialog.tsx:176-221 | after select-all, "all selected" holds iff the list is non-empty; after deselect-all it never holds |
| ManageChats.DeleteRequest | apps/shinkai-desktop/src/components/chat/manage-chats-dialog.tsx:205-217 | a request is sent iff there is a session and a non-empty selection, for exactly the selection |
| ManageChats.Selection.constructor | apps/shinkai-desktop/src/components/chat/manage-chats-dialog.tsx:50-57 | empty query and selection, no anchor, confirmation closed |
| ManageChats.Selection.ToggleSelect | apps/shinkai-desktop/src/components/chat/manage-chats-dialog.tsx:139-174 | the selection becomes Toggled of the old one and the clicked id becomes the anchor; query and confirmation unchanged |
| ManageChats.Selection.SelectAll | apps/shinkai-desktop/src/components/chat/manage-chats-dialog.tsx:176-179 | the selection is exactly the filtered ids; nothing else changes |
| ManageChats.Selection.DeselectAll | apps/shinkai-desktop/src/components/chat/manage-chats-dialog.tsx:181-183 | the selection is empty; nothing else changes |
| ManageChats.Selection.Close | apps/shinkai-desktop/src/components/chat/manage-chats-dialog.tsx:131-137 | closing clears query, selection and confirmation; the anchor is kept |
| ManageChats.Selection.DeleteSucceeded | apps/shinkai-desktop/src/components/chat/manage-chats-dialog.tsx:84-101 | a finished bulk delete empties the selection and closes the confirmation; query and anchor unchanged |
| SpotlightMessage.ExtractErrorPropertyOrContent | apps/shinkai-desktop/src/windows/spotlight/components/message.tsx:65-78 | the named member iff the content parses to an object holding it; otherwise the content itself |
| SpotlightMessage.NonSpaceRun | apps/shinkai-desktop/src/windows/spotlight/components/message.tsx:144 | the maximal run of non-space characters at a position |
| SpotlightMessage.FirstDeepLink | apps/shinkai-desktop/src/windows/spotlight/components/message.tsx:144 | the leftmost position where the prefix is followed by a non-space character |
| SpotlightMessage.ConfigDeepLink | apps/shinkai-desktop/src/windows/spotlight/components/message.tsx:143-146 | null iff there is no match; otherwise the whole non-space run after the leftmost match's prefix |
| SpotlightMessage.DeepLinkStopsAtSpace | apps/shinkai-desktop/src/windows/spotlight/components/message.tsx:144 | a key followed by a space yields just the key |
| SpotlightMessage.RunLength | apps/shinkai-desktop/src/windows/spotlight/components/message.tsx:144 | a run of non-space characters followed by white space is measured exactly |
| SpotlightMessage.StripThinkBlocks | apps/shinkai-desktop/src/windows/spotlight/components/message.tsx:349 | removing blocks never lengthens the text |
| SpotlightMessage.RemoveFirst | apps/shinkai-desktop/src/windows/spotlight/components/message.tsx:350 | no occurrence, no change; otherwise exactly the pattern's length is removed |
| SpotlightMessage.NoTagsUnchanged | apps/shinkai-desktop/src/windows/spotlight/components/message.tsx:349 | text without '<' is left alone |
| SpotlightMessage.LeadingBlockDropped | apps/shinkai-desktop/src/windows/spotlight/components/message.tsx:349 | a leading block is removed up to the first closing tag (shortest match) and stripping resumes after it |
| SpotlightMessage.PlainPrefixKept | apps/shinkai-desktop/src/windows/spotlight/components/message.tsx:349 | text without `<` in front is copied and stripping goes on after it |
| SpotlightMessage.BlockDropped | apps/shinkai-desktop/src/windows/spotlight/components/message.tsx:349 | plain text, then a block closed by its first closing tag, then anything: the block goes, the text before stays and stripping resumes after it |
| SpotlightMessage.EveryBlockDropped | apps/shinkai-desktop/src/windows/spotlight/components/message.tsx:349 | any number of plain-text-then-block pieces lose every block and keep every plain text, in order |
| SpotlightMessage.ShownText | apps/shinkai-desktop/src/windows/spotlight/components/message.tsx:347-351 | the global block replace, then the single replace of a left-over opening tag; ReasoningThenAnswer and UnclosedThinkDropped state what is shown |
| SpotlightMessage.ReasoningThenAnswer | apps/shinkai-desktop/src/windows/spotlight/components/message.tsx:347-351 | plain text, a reasoning block, then an answer shows the plain text followed by the answer |
| SpotlightMessage.UnclosedThinkDropped | apps/shinkai-desktop/src/windows/spotlight/components/message.tsx:347-351 | an unclosed opening tag is removed by the single replace and the text after it shows |
| SpotlightMessage.ToolLabel | apps/shinkai-desktop/src/windows/spotlight/components/message.tsx:575-586 | Complete, Incomplete and RequiresAction each get their own label (iff); pending and running get "Processing Tool" |
| SpotlightMessage.ReasoningHeader | apps/shinkai-desktop/src/windows/spotlight/components/message.tsx:633-638 | "Reasoning" iff the status is complete, else "Thinking..." |
| SpotlightMessage.HintsExclusive | apps/shinkai-desktop/src/windows/spotlight/components/message.tsx:362-384 | "Executing tools" and "Getting AI response" never show together |
| SpotlightMessage.HintsNeedEmptyContent | apps/shinkai-desktop/src/windows/spotlight/components/message.tsx:362-384 | neither hint shows once the answer has text |
| SpotlightMessage.SameRenderingEquivalence | apps/shinkai-desktop/src/windows/spotlight/components/message.tsx:531-543 | the memo comparator is reflexive, symmetric and transitive |
| SpotlightMessage.StatusChangeSkipsRender | apps/shinkai-desktop/src/windows/spotlight/components/message.tsx:531-543 | a change of status or reasoning alone does not re-render |
| WorkflowUtils.FlowTypeOf | apps/shinkai-desktop/src/components/agent/workflows/utils.ts:94-110 | `getFlowType`, start sharing the default branch; FlowTypeInjective and NodeTypeOfFlow show no two node types share a flow type |
| WorkflowUtils.NodeTypeOfFlow | apps/shinkai-desktop/src/components/agent/workflows/utils.ts:94-110 | every renderer kind is the flow type of exactly the node kind returned |
| WorkflowUtils.FlowTypeInjective | apps/shinkai-desktop/src/components/agent/workflows/utils.ts:94-110 | distinct node kinds get distinct renderers |
| WorkflowUtils.CreateNodeData | apps/shinkai-desktop/src/components/agent/workflows/utils.ts:112-145 | type defaults to tool, label to the type's label; id and position copied; agent config iff agent (name = label, llm default, instructions ""); condition iff conditional; note, conditional and other descriptions |
| WorkflowUtils.CreateEdge | apps/shinkai-desktop/src/components/agent/workflows/utils.ts:147-165 | ids, source, target and condition copied; no label when unconditional or absent, else the forward label; animated iff conditional |
| WorkflowUtils.TransformPayload | apps/shinkai-desktop/src/components/agent/workflows/utils.ts:147-165 | one node per payload node and one edge per payload edge, in order |
| WorkflowUtils.TransformKeepsGraph | apps/shinkai-desktop/src/components/agent/workflows/utils.ts:147-165 | the canvas keeps the payload's ids, positions and connections |
| WorkflowUtils.GenerateNode | apps/shinkai-desktop/src/components/agent/workflows/utils.ts:167-208 | an explicit position is kept; label "<Type> Node"; agents named "New Agent"; conditionals with expression "true" and the "gpt-4.1-mini" draft; notes with an empty description, conditionals with the hint, others with none; configs present iff the matching kind |
| WorkflowUtils.GeneratedLabelDiffers | apps/shinkai-desktop/src/components/agent/workflows/utils.ts:112-192 | a palette node's label is the payload default label plus " Node" |
| WorkflowEditor.StrLeTotal | apps/shinkai-desktop/src/components/agent/workflow-editor.tsx:84 | the id order is total |
| WorkflowEditor.StrLeAntisymmetric | apps/shinkai-desktop/src/components/agent/workflow-editor.tsx:84 | the id order is antisymmetric |
| WorkflowEditor.StrLeTransitive | apps/shinkai-desktop/src/components/agent/workflow-editor.tsx:84 | the id order is transitive |
| WorkflowEditor.SortByPermutes | apps/shinkai-desktop/src/components/agent/workflow-editor.tsx:84-95 | sorting is a permutation |
| WorkflowEditor.SortBySorted | apps/shinkai-desktop/src/components/agent/workflow-editor.tsx:84-95 | sorting orders by id |
| WorkflowEditor.SortedUnique | apps/shinkai-desktop/src/components/agent/workflow-editor.tsx:84-95 | two sorted permutations with distinct ids are equal |
| WorkflowEditor.Serialize | apps/shinkai-desktop/src/components/agent/workflow-editor.tsx:72-97 | the snapshot of kept fields, sorted by id; SerializeSorted and SerializeOrderIndependent state it is a sorted permutation that ignores input order |
| WorkflowEditor.SerializeSorted | apps/shinkai-desktop/src/components/agent/workflow-editor.tsx:72-97 | the snapshot's nodes and edges are a permutation of the inputs' kept fields, ordered by id |
| WorkflowEditor.SerializeOrderIndependent | apps/shinkai-desktop/src/components/agent/workflow-editor.tsx:72-97 | with distinct ids, reordering nodes or edges does not change the snapshot |
| WorkflowEditor.CanvasStateNotSerialized | apps/shinkai-desktop/src/components/agent/workflow-editor.tsx:76-93 | selection, edge labels and animation are left out of the snapshot |
| WorkflowEditor.CloneNode | apps/shinkai-desktop/src/components/agent/workflow-editor.tsx:48-62 | a clone equals the node |
| WorkflowEditor.CloneEdge | apps/shinkai-desktop/src/components/agent/workflow-editor.tsx:64-70 | a clone equals the edge |
| WorkflowEditor.ClonesSerializeAlike | apps/shinkai-desktop/src/components/agent/workflow-editor.tsx:152-167 | a cloned canvas has the original's snapshot |
| WorkflowEditor.CurrentSettings | apps/shinkai-desktop/src/components/agent/workflow-editor.tsx:320-324 | the stored settings, with label, default model and "" as fallbacks |
| WorkflowEditor.AgentChanged | apps/shinkai-desktop/src/components/agent/workflow-editor.tsx:308-338 | nothing without a selection; only the selected agent node changes, and it becomes the same node with the new settings and their name as label, every other field kept |
| WorkflowEditor.AgentChangeIdentity | apps/shinkai-desktop/src/components/agent/workflow-editor.tsx:308-338 | the identity updater changes nothing on fully specified agent nodes |
| WorkflowEditor.NodeLabelChanged | apps/shinkai-desktop/src/components/agent/workflow-editor.tsx:340-358 | nothing without a selection; only the selected node's label changes |
| WorkflowEditor.NodeLabelIdempotent | apps/shinkai-desktop/src/components/agent/workflow-editor.tsx:340-358 | setting a label twice is setting it once |
| WorkflowEditor.RenameChangesSnapshot | apps/shinkai-desktop/src/components/agent/workflow-editor.tsx:132-358 | renaming a node to a new label changes the snapshot, so it is reported dirty |
| WorkflowEditor.CleanedSelection | apps/shinkai-desktop/src/components/agent/workflow-editor.tsx:294-298 | a non-empty selection is kept while a node carries it and dropped exactly when none does; an empty or absent selection is left as it is |
| WorkflowEditor.EditsKeepSelection | apps/shinkai-desktop/src/components/agent/workflow-editor.tsx:294-358 | panel edits keep ids, so they never drop the selection |
| WorkflowEditor.LastReport | apps/shinkai-desktop/src/components/agent/workflow-editor.tsx:130 | the last value sent to the parent, false before any |
| WorkflowEditor.WorkflowCanvas.constructor | apps/shinkai-desktop/src/components/agent/workflow-editor.tsx:104-130 | the initial workflow is both canvas and baseline; not dirty |
| WorkflowEditor.WorkflowCanvas.CheckDirty | apps/shinkai-desktop/src/components/agent/workflow-editor.tsx:132-139 | dirty iff the snapshot differs from the baseline's; the parent hears only flips |
| WorkflowEditor.WorkflowCanvas.ResetBaseline | apps/shinkai-desktop/src/components/agent/workflow-editor.tsx:141-150 | the current canvas becomes the baseline and the parent hears "clean" |
| WorkflowEditor.WorkflowCanvas.Restore | apps/shinkai-desktop/src/components/agent/workflow-editor.tsx:152-167 | skipped on the first run; then the canvas becomes copies of the baseline and the parent hears "clean" |
| WorkflowEditor.WorkflowCanvas.SetGraph | apps/shinkai-desktop/src/components/agent/workflow-editor.tsx:104-109 | a canvas change replaces nodes and edges only |
| WorkflowEditor.WorkflowCanvas.Select | apps/shinkai-desktop/src/components/agent/workflow-editor.tsx:170 | only the selected id changes |
| WorkflowEditor.WorkflowCanvas.CleanSelection | apps/shinkai-desktop/src/components/agent/workflow-editor.tsx:294-298 | the selection becomes CleanedSelection of the old one |
| WorkflowEditor.WorkflowCanvas.ChangeAgent | apps/shinkai-desktop/src/components/agent/workflow-editor.tsx:308-338 | nodes become AgentChanged of the old ones; nothing else changes |
| WorkflowEditor.WorkflowCanvas.ChangeNodeLabel | apps/shinkai-desktop/src/components/agent/workflow-editor.tsx:340-358 | nodes become NodeLabelChanged of the old ones; nothing else changes |
| WorkflowEditor.RestoreThenCheck | apps/shinkai-desktop/src/components/agent/workflow-editor.tsx:132-167 | after a restore, the dirty check sends nothing more: the parent heard "clean" once |
| AddAgent.Underscored | apps/shinkai-desktop/src/components/agent/add-agent.tsx:78-80 | every character outside [A-Za-z0-9_] becomes '_', the rest is kept |
| AddAgent.AgentId | apps/shinkai-desktop/src/components/agent/add-agent.tsx:78-80 | same length as the name; only [a-z0-9_]; word characters lower-cased, others '_' |
| AddAgent.AgentIdFixedPoints | apps/shinkai-desktop/src/components/agent/add-agent.tsx:78-80 | a string is its own id iff it is made of id characters |
| AddAgent.AgentIdIdempotent | apps/shinkai-desktop/src/components/agent/add-agent.tsx:78-80 | sanitising an id returns it unchanged |
| AddAgent.SameIdForEquivalentNames | apps/shinkai-desktop/src/components/agent/add-agent.tsx:78-80 | names differing only in case or in which non-word characters they use give the same id |
| AddAgent.FullIdentityName | apps/shinkai-desktop/src/components/agent/add-agent.tsx:84 | identity + "/main/agent/" + id: starts with the identity, ends with the id |
| AddAgent.AgentIdIsLastSegment | apps/shinkai-desktop/src/components/agent/add-agent.tsx:84 | the id is the last '/'-segment of the full identity name |
| AddAgent.SubmitRequest | apps/shinkai-desktop/src/components/agent/add-agent.tsx:76-113 | no request iff no session; otherwise the derived id, full name, the name, the default provider (or "") and the session's address and key |
| Routes.MatchesSomeRoute | apps/shinkai-desktop/src/routes/index.tsx:104-107 | true iff the path equals some route or lies below it |
| Routes.IsConnectionRoute | apps/shinkai-desktop/src/routes/index.tsx:86-107 | connection route iff at or below one of the three skip routes |
| Routes.ConnectionRouteExtends | apps/shinkai-desktop/src/routes/index.tsx:104-107 | every page below a connection route is one too |
| Routes.ProtectedRouteOutcome | apps/shinkai-desktop/src/routes/index.tsx:140-142 | redirect to the terms page iff signed out and not on a connection route |
| Routes.SignedInRendersEverywhere | apps/shinkai-desktop/src/routes/index.tsx:140-142 | a signed-in user is never redirected |
| Routes.StartCommands | apps/shinkai-desktop/src/routes/index.tsx:117-122 | stored options are set first when present, and the last command spawns |
| Routes.Spawns | apps/shinkai-desktop/src/routes/index.tsx:117-122 | the spawn count is bounded by the command count |
| Routes.SpawnsAppend | apps/shinkai-desktop/src/routes/index.tsx:117-122 | spawns of a concatenation add up |
| Routes.StartSpawnsOnce | apps/shinkai-desktop/src/routes/index.tsx:117-122 | one attempt spawns exactly once |
| Routes.NodeAutoStart.constructor | apps/shinkai-desktop/src/routes/index.tsx:117-122 | not tried, nothing sent |
| Routes.NodeAutoStart.OnEffect | apps/shinkai-desktop/src/routes/index.tsx:117-122 | start is attempted only once per mount, when in use and not known running; the node is spawned once if tried, never otherwise |
| Routes.FindByModel | apps/shinkai-desktop/src/routes/index.tsx:176-178 | the first provider whose model equals the default model ignoring case; none without a default model |
| Routes.DefaultAgentChoice | apps/shinkai-desktop/src/routes/index.tsx:171-182 | a choice iff loaded, non-empty and no default; the matching provider, else the first |
| Routes.DefaultChosenOnce | apps/shinkai-desktop/src/routes/index.tsx:171-182 | once a default is stored the effect chooses nothing again |
| Routes.OnboardingNavigation | apps/shinkai-desktop/src/routes/index.tsx:206-235 | the skip routes themselves stay; signed out goes to terms (except on terms); signed in and complete goes to the destination; otherwise the next step's page when the step rule says to leave, else stay |
| Routes.OnboardingTargets | apps/shinkai-desktop/src/routes/index.tsx:206-235 | the guard only navigates to terms, the destination or the next step's page |
| Routes.OnboardingSettlesOnNextStep | apps/shinkai-desktop/src/routes/index.tsx:220-235 | on the next step's own page with that step not done, the guard stays: no redirect loop |
| MarkdownPreview.EndsWithSome | libs/shinkai-ui/src/components/markdown-preview.tsx:67 | true iff some extension ends the text |
| MarkdownPreview.IsImageUrl | libs/shinkai-ui/src/components/markdown-preview.tsx:45-71 | iff the URL parses and its lower-cased path ends in one of the 16 image extensions |
| MarkdownPreview.IsVideoUrl | libs/shinkai-ui/src/components/markdown-preview.tsx:73-82 | iff the URL parses and its lower-cased path ends in one of the 6 video extensions |
| MarkdownPreview.SuffixesEndAlike | libs/shinkai-ui/src/components/markdown-preview.tsx:67-78 | two suffixes of one path end in the same two characters |
| MarkdownPreview.NoImageAndVideoEnding | libs/shinkai-ui/src/components/markdown-preview.tsx:49-78 | no path ends both in an image and in a video extension, since their last two characters never agree |
| MarkdownPreview.ImageAndVideoDisjoint | libs/shinkai-ui/src/components/markdown-preview.tsx:49-78 | no URL is both an image and a video |
| MarkdownPreview.LinkKindOf | libs/shinkai-ui/src/components/markdown-preview.tsx:84-112 | plain for a missing target or non-media; video iff a video URL; image iff an image URL |
| MarkdownPreview.VideoSourceType | libs/shinkai-ui/src/components/markdown-preview.tsx:121 | "video/" + the target's text after its last '.' |
| MarkdownPreview.VideoTypeOfExtension | libs/shinkai-ui/src/components/markdown-preview.tsx:121 | a target ending in ".ext" gets "video/ext" |
| MarkdownPreview.SpaceRun | libs/shinkai-ui/src/components/markdown-preview.tsx:24 | the maximal run of `\s` at the front |
| MarkdownPreview.LineBreakEnd | libs/shinkai-ui/src/components/markdown-preview.tsx:24 | `\s*\n` after backtracking ends at the last line break of the run |
| MarkdownPreview.OpeningLength | libs/shinkai-ui/src/components/markdown-preview.tsx:24 | an opening is the Mermaid fence plus white space through a line break, and is absent without the fence |
| MarkdownPreview.BlockAt | libs/shinkai-ui/src/components/markdown-preview.tsx:24 | a block starts with the Mermaid fence and has a closing fence after its code |
| MarkdownPreview.BlockShape | libs/shinkai-ui/src/components/markdown-preview.tsx:24 | the opening ends in a line break; the code runs to the first closing fence (lazy match) |
| MarkdownPreview.OpeningFound | libs/shinkai-ui/src/components/markdown-preview.tsx:24 | the Mermaid fence followed by white space through a line break is always an opening, reaching past that line break over white space only |
| MarkdownPreview.BlockFound | libs/shinkai-ui/src/components/markdown-preview.tsx:24 | such an opening with a fence after it always makes a block, whose code ends at that fence or an earlier one |
| MarkdownPreview.LabelAt | libs/shinkai-ui/src/components/markdown-preview.tsx:29 | a label is '[' text ']' with no ']' inside and a '{' before any '"', and every such label at the front is found, with its length |
| MarkdownPreview.QuotedLabelNotMatched | libs/shinkai-ui/src/components/markdown-preview.tsx:29-34 | a label starting with '"' never matches, so the "already quoted" branch is unreachable |
| MarkdownPreview.LabelQuoted | libs/shinkai-ui/src/components/markdown-preview.tsx:28-38 | `[text]` whose text has no `]` and a `{` before any `"` becomes `["text"]`, and the scan goes on after it |
| MarkdownPreview.BraceAfterPlain | libs/shinkai-ui/src/components/markdown-preview.tsx:29 | text without `"` followed by `{` has a brace before any quote |
| MarkdownPreview.PlainCharKept | libs/shinkai-ui/src/components/markdown-preview.tsx:28-38 | a character other than `[` starts no label and is copied |
| MarkdownPreview.FixLabels | libs/shinkai-ui/src/components/markdown-preview.tsx:28-38 | the label replacement in one block's code; LabelQuoted states the quoting, FixLabelsOnlyAddsQuotes and NoBraceNoChange what else holds |
| MarkdownPreview.FixLabelsOnlyAddsQuotes | libs/shinkai-ui/src/components/markdown-preview.tsx:28-38 | label fixing only inserts double quotes: with every `"` removed, output and input are equal |
| MarkdownPreview.PreprocessMermaid | libs/shinkai-ui/src/components/markdown-preview.tsx:21-42 | `preprocessMermaidContent` over the whole text; MermaidBlockQuoted states the rewrite of a block, PreprocessOnlyAddsQuotes, TextBeforeBlockKept and NoMermaidNoChange what else holds |
| MarkdownPreview.MermaidBlockQuoted | libs/shinkai-ui/src/components/markdown-preview.tsx:21-42 | a Mermaid block whose code starts on the next line has exactly its code's labels fixed, with the fences and the text after it kept |
| MarkdownPreview.FenceAfterPlainCode | libs/shinkai-ui/src/components/markdown-preview.tsx:24 | code without a backtick ends at the fence that follows it |
| MarkdownPreview.PreprocessOnlyAddsQuotes | libs/shinkai-ui/src/components/markdown-preview.tsx:21-42 | preprocessing only inserts double quotes: with every `"` removed, output and input are equal |
| MarkdownPreview.NoBraceNoChange | libs/shinkai-ui/src/components/markdown-preview.tsx:28-38 | code without '{' is unchanged |
| MarkdownPreview.TextBeforeBlockKept | libs/shinkai-ui/src/components/markdown-preview.tsx:23-25 | text before the first backtick is copied unchanged, since no block can start inside it |
| MarkdownPreview.NoMermaidNoChange | libs/shinkai-ui/src/components/markdown-preview.tsx:21-42 | content without a Mermaid fence is unchanged |

## Left out

- Text encoding: strings are sequences of Unicode scalar values, not UTF-16 code units. `toLowerCase` is ASCII-only. This is exact for agent ids, since only [A-Za-z0-9_] survive the replacement. It is not exact for ManageChats.MatchesQuery and Routes.FindByModel on non-ASCII names: "É" does not match "é" in the model, while it does in the program.
- AddAgent.AgentId: ids agree with the program's only for names within the Basic Multilingual Plane. The pattern `/[^a-zA-Z0-9_]/g` has no `u` flag, so the program replaces each UTF-16 half of a character outside that plane: "a😀" gives "a__" there (as long as the name in code units) and "a_" in the model.
- `localeCompare` is modelled as code-point lexicographic order. The snapshot only needs some total order.
- `JSON.stringify` of the snapshot is the snapshot value itself, so text equality is value equality.
- `decodeURIComponent` of the route parameter, `JSON.parse` and `new URL` are inputs (already decoded or parsed values).
- Transport, React rendering, the DOM and scrolling are not modelled. A WebSocket frame is an input.
- Effect re-runs on dependency changes are not modelled. Each effect is one method call.
- Timers: `setTimeout` is a counter plus `Tick`. The 1-second invalidation is recorded as an effect, not run.
- Formatting of `tps` and `durationMs` is not modelled: `tps` is already the rendered string.
- The literal value of the optimistic message id is not modelled. Only equality with it matters.
- The values of `DEFAULT_CHAT_CONFIG` and of the placeholder generator are not modelled.
- WorkflowUtils.TransformPayload: it takes any payload. The fixed `INITIAL_WORKFLOW_PAYLOAD` value is not modelled.
- `enforceSpacing` and `resolvePosition` use floating-point geometry; they are not modelled. The random fallback position and uuid ids are arguments.
- Payload node types outside the six kinds are not modelled; the TypeScript type excludes them.
- The widget store's `setWidget` for payment requests is recorded as an effect; its data is not modelled.
- The image error fallback, captions and the video fallback text are not modelled.
- `extractJobIdFromInbox` is a foreign helper; the delete request carries inbox ids.
- The settings store's `getStepByPath`, `getNextStep`, `isStepCompleted` and `isOnboardingComplete` are inputs.
- Agent-schema form validation is not modelled.
- JavaScript `Set` iteration order is not modelled: selections are sets.
- Duplicate JSON keys and non-string JSON member values are not modelled. A parsed object is a list of distinct members given by their JSON text.
- StreamingStore.ReasoningDuration: the clock is a parameter. `Date.now()` at each call is the `now` the caller passes.
- WebSocketMessage.ChatSocket.OnFrame: a tool index below zero cannot arise here (the index is a `nat`).
- WebSocketMessage.GeneratedFilesOf: a patch whose `generatedFiles` is explicitly undefined is the same as an absent one.
- WebSocketMessage.ToolCallFromRequest: the `args?.arguments` fallback is dead (it runs only when `args` is nullish) and is not modelled.
- An inbox switch while a flush timer is pending is not modelled. The socket model is per inbox.
- WebSocketMessage.FlushInvariant: only "the flag is set only while a timer is pending" holds. "At most one flush timer pending" does not hold of the program: the `is_done` flush clears the flag while the earlier timer is still pending (SecondTimerAfterDone).
- Routes.NodeAutoStart.OnEffect: failures of the node-manager calls are not modelled. If `shinkaiNodeSetOptions` rejects, the program never reaches `shinkaiNodeSpawn`; the model always sends the spawn after the options.
