# neo-olympus-frontend in Dafny

A model of the client-side core of the neo-olympus chat front end, a React
application that talks to a chat backend. The model covers:

- the four zustand stores:
  - the chat store: conversations, messages, optimistic sending, streaming and pending attachments;
  - the authentication store;
  - the interface store: sidebar, modal, toasts and dark mode;
  - the theme store;
- the file service's validation and response mapping;
- the WebSocket service's connection state, reconnection back-off and subscriptions;
- the decision logic of the chat components: the input box with its file selection, the message list, the message bubble, the model selector, the sidebar and the registration form.

Every asynchronous store action becomes two steps:

- a `Begin` part that runs before the request;
- a `Resolve` or `Succeed`/`Fail` part that takes the settled request as a `Result` value, `Ok(value)` or `Err(message)`.

The mutable parts are Dafny classes whose fields are the store's fields:

- `ChatStore.Store`
- `AuthStore.Auth`
- `UiStore.UiState`
- `ThemeStore.ThemeState`
- `WebSocket.WebSocketService`

The rendering rules and the service helpers are pure functions.

Some things the front end takes from its environment become parameters:

- generated identifiers (`Date.now()`/`Math.random()`): `tempId`, `id`, `toastIds`;
- timestamps: `createdAt`, `now`;
- the operating system's colour scheme: `system`, `prefersDark`;
- the upload progress events and request results: `UploadRun`, `Result`;
- the document MIME allow-list `ALLOWED_DOCUMENT_TYPES`, which the configuration does not define: `documentTypes` (see "## Left out" for what the missing list does).

Modules:

| file | module | models |
|---|---|---|
| `wrappers.dfy` | `Wrappers` | `Option`, `Result`, the `text \|\| fallback` rule |
| `seqs.dfy` | `Seqs` | `Array.prototype.filter` and its laws |
| `strings.dfy` | `Strings` | trimming, lower-casing, `includes`, `split`/`join`, decimal printing |
| `types.dfy` | `Types` | the shared record types of `src/types/index.ts` |
| `api_config.dfy` | `ApiConfig` | upload size limit and MIME lists |
| `files.dfy` | `Files` | `src/services/files.ts` |
| `chat_store.dfy` | `ChatStore` | `src/store/chatStore.ts` |
| `ui_store.dfy` | `UiStore` | `src/store/uiStore.ts` |
| `theme_store.dfy` | `ThemeStore` | `src/store/themeStore.ts` |
| `auth_store.dfy` | `AuthStore` | `src/store/authStore.ts` |
| `websocket.dfy` | `WebSocket` | `src/services/websocket.ts` |
| `chat_input.dfy` | `ChatInput` | `src/components/chat/ChatInput.tsx` |
| `message_list.dfy` | `MessageList` | `src/components/chat/MessageList.tsx` |
| `message_bubble.dfy` | `MessageBubble` | `src/components/chat/MessageBubble.tsx` |
| `model_selector.dfy` | `ModelSelector` | `src/components/chat/ModelSelector.tsx` |
| `sidebar.dfy` | `Sidebar` | `src/components/layout/Sidebar.tsx` |
| `register_page.dfy` | `RegisterPage` | `src/pages/RegisterPage.tsx` |

## Model

| member | source | states |
|---|---|---|
| Wrappers.OrFallback | src/store/chatStore.ts:64 | the stored error is the rejection's message when it is non-empty, otherwise the action's fallback text; with a non-empty fallback it is never empty |
| Seqs.Filter | src/store/chatStore.ts:173 | the result keeps exactly the elements that pass, and is no longer than the input |
| Seqs.CountAppend | src/services/websocket.ts:121-133 | occurrences in a concatenation add up |
| Seqs.FilterAppend | src/store/chatStore.ts:172-175 | filtering distributes over concatenation, so a filter keeps the original order |
| Seqs.FilterKeepsAll | src/store/uiStore.ts:61-63 | a filter that every element passes returns the list unchanged |
| Seqs.FilterNoneKept | src/components/chat/ModelSelector.tsx:60-66 | a filter that no element passes returns the empty list |
| Seqs.CountNoDuplicates | src/services/websocket.ts:109-119 | in a duplicate-free list a value occurs once when present and not at all otherwise |
| Seqs.FilterNoDuplicates | src/services/websocket.ts:109-119 | filtering a duplicate-free list keeps it duplicate-free |
| Seqs.FilterCongruent | src/components/layout/Sidebar.tsx:29-31 | two predicates that agree on every element filter a list identically |
| Strings.ContainsIffOccurs | src/components/layout/Sidebar.tsx:29-31 | `includes` holds exactly when the query occurs at some position of the text |
| Strings.ContainsEmpty | src/components/layout/Sidebar.tsx:29-31 | every text includes the empty query |
| Strings.ToLower | src/components/layout/Sidebar.tsx:30 | lower-casing keeps the length and maps each character on its own |
| Strings.Trim | src/components/chat/ChatInput.tsx:36 | a trimmed text is empty exactly when every character is whitespace; otherwise it starts and ends with a non-blank character, occurs in the text right after its leading blanks, and only whitespace follows it |
| Strings.Split | src/components/chat/MessageBubble.tsx:30-34 | splitting yields at least one item and no item contains the separator |
| Strings.SplitAtFirst | src/components/chat/MessageBubble.tsx:30-34 | the first separator after a separator-free head ends the first piece of the split |
| Strings.SplitJoin | src/services/files.ts:130-137 | joining separator-free items and splitting at the separator gives the items back |
| Strings.NatToString | src/components/chat/MessageBubble.tsx:208 | a number prints as at least one digit, with no leading zero, and as one digit exactly below ten |
| Strings.ParseNatToString | src/components/chat/MessageBubble.tsx:208 | the printed decimal reads back as the number |
| Strings.ParseNatLeadingZero | src/components/chat/MessageBubble.tsx:208 | a leading zero does not change the value a digit string reads as |
| Strings.PadStart | src/components/chat/MessageBubble.tsx:208 | `padStart` yields exactly the requested width, or keeps a longer text as long as it is; the text ends the result and only the pad character precedes it |
| Files.GetFileType | src/services/files.ts:102-113 | the type is image, audio or video exactly when the MIME type is on that list, otherwise file, never text |
| Files.ValidateUpload | src/services/files.ts:27-34 | an upload passes exactly when it is within the size limit and of an allowed type; the size is checked first and each rejection has its own message |
| Files.SizeLimitTextValue | src/services/files.ts:28 | the size rejection reads "File size exceeds maximum allowed (100MB)" |
| Files.MaximumSizeAccepted | src/config/api.ts:6 | a file of exactly 100 MiB passes the size check |
| Files.FromResponse | src/services/files.ts:59-67 | a completed upload is ready, at 100 per cent, named by its original file name, with the server's id, URL, type and size |
| Files.UploadFile | src/services/files.ts:22-74 | a rejected check fails before any request with its message; otherwise a fulfilled request gives the mapped record and a rejected one passes its message on |
| Files.AcceptedTypesItems | src/services/files.ts:130-137 | the accepted-types string splits back into exactly the allowed types, so a type is allowed iff it is one of the items |
| Files.FileSizeUnit | src/services/files.ts:142-146 | the unit is B below 1024 bytes, KB below 1024 KiB and MB from there on |
| Files.ByteCountTextExact | src/services/files.ts:143 | below 1 KiB the printed size ends in " B" and its digits read back as the exact byte count |
| ChatStore.MediaKind | src/store/chatStore.ts:135-137 | an attachment is image, audio or video exactly when its MIME type has that prefix, otherwise file, never text |
| ChatStore.FileParts | src/store/chatStore.ts:132-141 | one non-text content part per ready attachment, in attachment order |
| ChatStore.NoReadyNoParts | src/store/chatStore.ts:133 | attachments that are not ready contribute no content |
| ChatStore.WithoutMessage | src/store/chatStore.ts:190-191 | the rollback keeps exactly the messages with another id |
| ChatStore.RollbackRestores | src/store/chatStore.ts:154-191 | rolling back the optimistic message under a fresh id restores the earlier list |
| ChatStore.Reconciled | src/store/chatStore.ts:171-175 | the optimistic message moves to the end under the server's id with its role and content; before it come exactly the other messages, every one of them, in their filtered order |
| ChatStore.ReconcileAppended | src/store/chatStore.ts:171-175 | with nothing arrived meanwhile, the optimistic message is only renamed in place |
| ChatStore.ReconcileAfterReply | src/store/chatStore.ts:171-175 | when the streamed reply completes first, it ends up before the user's message |
| ChatStore.ReplaceConversation | src/store/chatStore.ts:177-179 | exactly the entries with the returned conversation's id are replaced; the length is kept |
| ChatStore.ReplaceAbsent | src/store/chatStore.ts:177-179 | replacing a conversation not in the list leaves the list unchanged |
| ChatStore.WithoutConversation | src/store/chatStore.ts:110 | the delete keeps exactly the conversations with another id |
| ChatStore.MergeLaws | src/store/chatStore.ts:226-232 | merging an update twice is the same as once, and the empty update changes nothing |
| ChatStore.UpdateById | src/store/chatStore.ts:226-232 | exactly the pending files with the id are merged with the update; the others and the length are kept |
| ChatStore.UpdateUnknownIsNoop | src/store/chatStore.ts:226-232 | updating an id no pending file has changes nothing |
| ChatStore.UpdateLast | src/store/chatStore.ts:226-232 | updating the file just added under a fresh id touches only that file |
| ChatStore.WithoutFile | src/store/chatStore.ts:220-224 | removal keeps exactly the pending files with another id |
| ChatStore.ConcatAppend | src/store/chatStore.ts:199-203 | one more chunk extends the concatenation of the chunks at its end |
| ChatStore.StreamChunks | src/store/chatStore.ts:199-203 | successive `addStreamChunk` calls grow the buffer by the concatenation of the chunks in arrival order, so after `SendBegin` empties it the buffer is exactly that concatenation |
| ChatStore.Store.constructor | src/store/chatStore.ts:44-53 | the initial state: no conversations or messages, no flags set, empty buffer, no pending files, no error |
| ChatStore.Store.BeginLoading | src/store/chatStore.ts:57 | loading starts and the error is cleared |
| ChatStore.Store.FetchConversationsResolve | src/store/chatStore.ts:56-67 | success replaces the list; failure keeps it and stores the message or the fallback; loading ends either way |
| ChatStore.Store.SelectConversationResolve | src/store/chatStore.ts:69-84 | success sets the current conversation and its messages; failure keeps them and stores the error |
| ChatStore.Store.CreateConversationResolve | src/store/chatStore.ts:86-104 | success prepends the new conversation, selects it and empties the messages; failure keeps everything and stores the error; the outcome is returned unchanged |
| ChatStore.Store.DeleteConversationResolve | src/store/chatStore.ts:106-117 | success removes the conversation and clears the view only when it was the current one; failure keeps everything and stores the error |
| ChatStore.Store.ClearCurrentConversation | src/store/chatStore.ts:119-125 | no current conversation, no messages, no pending files |
| ChatStore.Store.SendBegin | src/store/chatStore.ts:128-161 | the optimistic user message carries the ready attachments then the text, and is appended; sending and streaming start; the buffer, the pending files and the error are cleared |
| ChatStore.Store.SendSucceed | src/store/chatStore.ts:171-188 | the optimistic message is reconciled under the server's id; the returned conversation becomes current and replaces its entry, or is prepended for a new chat |
| ChatStore.Store.SendFail | src/store/chatStore.ts:189-196 | the optimistic message is removed, sending and streaming stop, and the error is stored |
| ChatStore.Store.AddStreamChunk | src/store/chatStore.ts:199-203 | the chunk is appended to the buffer |
| ChatStore.Store.CompleteStream | src/store/chatStore.ts:205-211 | the finished message is appended; streaming stops and the buffer empties |
| ChatStore.Store.AddPendingFile | src/store/chatStore.ts:214-218 | the file is appended to the pending list |
| ChatStore.Store.RemovePendingFile | src/store/chatStore.ts:220-224 | the pending list loses exactly the files with the id |
| ChatStore.Store.UpdatePendingFile | src/store/chatStore.ts:226-232 | the pending list becomes the by-id update of the old one |
| ChatStore.Store.ClearPendingFiles | src/store/chatStore.ts:234-236 | no pending files |
| ChatStore.Store.ClearError | src/store/chatStore.ts:238 | no error |
| ChatStore.SendThenFail | src/store/chatStore.ts:146-196 | a failed send leaves the message list as it was, consumes the pending files and stores the error |
| UiStore.DismissDelay | src/store/uiStore.ts:47 | a toast stays for its own duration, or 5000 ms when that is absent or zero; never zero |
| UiStore.WithoutToast | src/store/uiStore.ts:61-63 | removal keeps exactly the toasts with another id |
| UiStore.RemoveUnknownToast | src/store/uiStore.ts:61-63 | removing an id no toast has changes nothing |
| UiStore.DismissAdded | src/store/uiStore.ts:50-56 | the timed dismissal of a toast added under a fresh id restores the earlier list |
| UiStore.UiState.constructor | src/store/uiStore.ts:29-43 | sidebar open and expanded, modal closed, no toasts, dark mode on |
| UiStore.UiState.ToggleSidebar | src/store/uiStore.ts:32 | the open flag flips |
| UiStore.UiState.SetSidebarOpen | src/store/uiStore.ts:33 | the open flag takes the given value |
| UiStore.UiState.ToggleSidebarCollapse | src/store/uiStore.ts:34 | the collapsed flag flips |
| UiStore.UiState.OpenModal | src/store/uiStore.ts:39 | the modal is open with the given type and data |
| UiStore.UiState.CloseModal | src/store/uiStore.ts:40 | the modal is closed with no type and no data |
| UiStore.UiState.AddToast | src/store/uiStore.ts:45-59 | the toast is appended under its id and the dismissal delay is returned |
| UiStore.UiState.RemoveToast | src/store/uiStore.ts:61-63 | the toast list loses exactly the toasts with the id |
| UiStore.UiState.ToggleDarkMode | src/store/uiStore.ts:67 | the dark-mode flag flips |
| UiStore.TogglesTwice | src/store/uiStore.ts:32-34 | each toggle applied twice restores its flag |
| UiStore.AddThenDismiss | src/store/uiStore.ts:45-59 | a toast added and then dismissed leaves the toast list as it was |
| ThemeStore.Resolve | src/store/themeStore.ts:30 | an explicit theme resolves to itself, `system` to the system's scheme |
| ThemeStore.Opposite | src/store/themeStore.ts:37 | the toggled theme always differs from the current one |
| ThemeStore.OppositeInvolutive | src/store/themeStore.ts:37 | toggling twice gives back the theme |
| ThemeStore.FromPreference | src/store/themeStore.ts:13-16 | dark exactly when the system prefers dark |
| ThemeStore.ThemeState.constructor | src/store/themeStore.ts:26-27 | the theme is `system`, resolved to the system's scheme, nothing applied yet |
| ThemeStore.ThemeState.SetTheme | src/store/themeStore.ts:29-33 | the theme is stored, resolved, and the resolved theme is applied to the document |
| ThemeStore.ThemeState.ToggleTheme | src/store/themeStore.ts:35-40 | the theme becomes the explicit opposite of the resolved one and is applied |
| ThemeStore.ThemeState.Rehydrate | src/store/themeStore.ts:44-50 | the restored theme is re-resolved against the system and applied |
| ThemeStore.ThemeState.SystemChange | src/store/themeStore.ts:56-64 | a change of system scheme is followed only while the theme is `system` |
| ThemeStore.ToggleTwice | src/store/themeStore.ts:35-40 | two toggles give back the resolved theme, now pinned as an explicit theme |
| AuthStore.Auth.constructor | src/store/authStore.ts:25-28 | no user, not authenticated, not loading, no error |
| AuthStore.Auth.Rehydrated | src/store/authStore.ts:103-105 | only the authenticated flag is restored from storage |
| AuthStore.Auth.Persisted | src/store/authStore.ts:103-105 | only the authenticated flag is persisted |
| AuthStore.Auth.BeginSession | src/store/authStore.ts:31 | loading starts and the error is cleared |
| AuthStore.Auth.SettleSession | src/store/authStore.ts:30-64 | success stores the user and authenticates; failure stores the error and rethrows; loading ends either way |
| AuthStore.Auth.LoginResolve | src/store/authStore.ts:30-46 | the login outcome with the login fallback text |
| AuthStore.Auth.RegisterResolve | src/store/authStore.ts:48-64 | the registration outcome with the registration fallback text |
| AuthStore.Auth.LogoutBegin | src/store/authStore.ts:67 | loading starts |
| AuthStore.Auth.LogoutResolve | src/store/authStore.ts:66-79 | the session is cleared whether or not the request fails, and a failure is rethrown |
| AuthStore.Auth.FetchUserBegin | src/store/authStore.ts:81-84 | the user is fetched only when authenticated |
| AuthStore.Auth.FetchUserResolve | src/store/authStore.ts:85-95 | success stores the user; failure signs out; loading ends |
| AuthStore.Auth.ClearError | src/store/authStore.ts:97 | no error |
| AuthStore.Auth.SetUser | src/store/authStore.ts:99 | the user is set and authentication follows its presence |
| AuthStore.PersistRoundTrip | src/store/authStore.ts:103-105 | persisting and rehydrating keeps the authenticated flag and drops the user |
| WebSocket.ReconnectDelay | src/services/websocket.ts:92 | no reconnection waits less than the base delay of one second |
| WebSocket.DelayDoubles | src/services/websocket.ts:91-92 | each reconnection waits twice as long as the previous one |
| WebSocket.DelaySchedule | src/services/websocket.ts:81-99 | the five reconnection delays are 1, 2, 4, 8 and 16 seconds |
| WebSocket.WebSocketService.constructor | src/services/websocket.ts:8-13 | no socket, no attempts, not connecting, no subscriptions |
| WebSocket.WebSocketService.Connect | src/services/websocket.ts:15-71 | an open socket is kept; a pending attempt is awaited; otherwise a socket is created, or the failed creation clears the connecting flag |
| WebSocket.WebSocketService.OnOpen | src/services/websocket.ts:40-45 | the socket is open, the attempt counter is reset, connecting ends |
| WebSocket.WebSocketService.OnError | src/services/websocket.ts:56-59 | connecting ends |
| WebSocket.WebSocketService.HandleReconnect | src/services/websocket.ts:81-99 | below five attempts the counter grows and a retry is scheduled after the doubled delay; at five the subscribers receive the give-up error |
| WebSocket.WebSocketService.OnClose | src/services/websocket.ts:61-65 | the socket is closed, connecting ends, and the reconnection step runs |
| WebSocket.WebSocketService.Disconnect | src/services/websocket.ts:73-79 | no socket and no subscriptions remain |
| WebSocket.WebSocketService.Send | src/services/websocket.ts:101-107 | a message is sent exactly when the socket is open |
| WebSocket.WebSocketService.Subscribe | src/services/websocket.ts:109-119 | the callback is registered for the type at most once; other types are untouched |
| WebSocket.WebSocketService.Unsubscribe | src/services/websocket.ts:109-119 | the callback is no longer registered for the type; other types are untouched |
| WebSocket.CallCount | src/services/websocket.ts:121-133 | a callback runs once for its type and once more when it is also a wildcard subscriber |
| WebSocket.SubscribeTwice | src/services/websocket.ts:109-119 | subscribing the same callback twice registers it once |
| WebSocket.DisconnectThenClose | src/services/websocket.ts:61-99 | the close that follows a disconnect still schedules a retry below the budget, and at the budget gives up to no subscriber |
| WebSocket.ClosesExhaustBudget | src/services/websocket.ts:81-99 | six closes from a fresh start schedule five retries at 1 to 16 seconds and then give up |
| ChatInput.CanSubmitIff | src/components/chat/ChatInput.tsx:36 | a message is sent exactly when not already sending and there is a non-blank character or a pending file |
| ChatInput.BlankPayload | src/components/chat/ChatInput.tsx:39 | a blank message with attachments still sends one empty text part |
| ChatInput.HandleSubmit | src/components/chat/ChatInput.tsx:35-51 | a refused submit changes nothing and keeps the text; an accepted one clears the input and gives the store's send outcome |
| ChatInput.PendingEntry | src/components/chat/ChatInput.tsx:83-94 | the entry starts uploading at 0 per cent under the temporary id, with the file's name, type and size |
| ChatInput.WithProgress | src/components/chat/ChatInput.tsx:96-99 | after progress reports the entry shows the last one |
| ChatInput.FinalEntryOutcome | src/components/chat/ChatInput.tsx:83-112 | the settled entry is ready with the server's id and URL exactly when the upload succeeds; otherwise it is an error under the temporary id with the message |
| ChatInput.EntriesAndToastsPartition | src/components/chat/ChatInput.tsx:73-113 | each selected file gives either a pending entry or a rejection toast |
| ChatInput.EntriesAvoid | src/components/chat/ChatInput.tsx:83-106 | the entries use only temporary and server ids |
| ChatInput.FileIdsAppend | src/components/chat/ChatInput.tsx:83-94 | the ids of appended lists are the union of their ids |
| ChatInput.SelectionStep | src/components/chat/ChatInput.tsx:73-113 | one more file adds one entry when its type is allowed, otherwise one "Invalid file type" toast |
| ChatInput.UploadOne | src/components/chat/ChatInput.tsx:83-112 | one allowed file ends as exactly one new pending entry in its settled state |
| ChatInput.SelectOne | src/components/chat/ChatInput.tsx:74-112 | a file of a type that is not allowed adds exactly its rejection toast; any other adds exactly its settled entry |
| ChatInput.HandleFileSelect | src/components/chat/ChatInput.tsx:69-119 | the pending list grows by the allowed files' settled entries and the toast list by one rejection per refused file, both in selection order |
| ChatInput.FreshAtStep | src/components/chat/ChatInput.tsx:83-94 | each temporary id is fresh when its file is reached |
| ChatInput.IconMatchesPart | src/components/chat/ChatInput.tsx:224-246 | a settled preview shows the image, film or paperclip icon according to the attachment's media kind |
| MessageList.RenderShape | src/components/chat/MessageList.tsx:15-48 | loading shows a spinner; otherwise one bubble per message in order, plus the placeholder bubble when it applies |
| MessageList.StreamingBubbleRule | src/components/chat/MessageList.tsx:26-33 | a message bubble streams exactly when it is the last message, from the assistant, during streaming |
| MessageList.AtMostOneStreaming | src/components/chat/MessageList.tsx:26-48 | at most one bubble streams, and none when not streaming |
| MessageList.LiveBufferPlacement | src/components/chat/MessageList.tsx:26-48 | during streaming some bubble is marked streaming exactly when the last message exists and is not a system message |
| MessageList.LastUserMessageKeepsText | src/components/chat/MessageList.tsx:26-48 | with the placeholder shown, the user's last message keeps its own text and the placeholder shows the buffer |
| MessageBubble.TextParts | src/components/chat/MessageBubble.tsx:30-34 | one text per part the text filter keeps, each the text of that part, in order |
| MessageBubble.MediaItems | src/components/chat/MessageBubble.tsx:76-80 | exactly the non-text parts are shown as media |
| MessageBubble.TextAndMediaPartition | src/components/chat/MessageBubble.tsx:30-80 | every content part is either copied text or shown media |
| MessageBubble.CopyTextSplits | src/components/chat/MessageBubble.tsx:30-34 | the copied text splits at newlines back into the text parts |
| MessageBubble.ShownText | src/components/chat/MessageBubble.tsx:106-117 | a streaming bubble with a non-empty buffer shows the buffer, any other the message text |
| MessageBubble.HasTextPartIff | src/components/chat/MessageBubble.tsx:83 | the `some(type === 'text')` test holds exactly when there are text parts to join |
| MessageBubble.TextBubbleIff | src/components/chat/MessageBubble.tsx:83 | the text bubble shows exactly when there are text parts to join or a non-empty live buffer while streaming |
| MessageBubble.PaddedSecondsReadBack | src/components/chat/MessageBubble.tsx:208 | seconds below a minute pad to two digits that read back as the seconds |
| MessageBubble.DurationLabelReadsBack | src/components/chat/MessageBubble.tsx:208 | a positive duration prints as minutes, a colon and two-digit seconds that read back as the duration |
| MessageBubble.NoDurationLabel | src/components/chat/MessageBubble.tsx:208 | an absent or zero duration prints as "--:--" |
| MessageBubble.ActionsOrCursor | src/components/chat/MessageBubble.tsx:120-139 | the action row never appears beside the streaming cursor, never on a user message, and a non-user text bubble shows one of the two |
| MessageBubble.CountShown | src/components/chat/MessageBubble.tsx:145-156 | an absent count renders nothing, a zero count a bare "0", any other count the separator and the count |
| MessageBubble.Metadata | src/components/chat/MessageBubble.tsx:142-158 | the metadata line appears exactly for non-user messages with a non-empty model name, and shows that name |
| MessageBubble.MetadataCounts | src/components/chat/MessageBubble.tsx:142-158 | a count appears on the line iff the line is shown and the count is present and non-zero; a zero count leaves a stray "0"; user messages have no line |
| ModelSelector.FindModel | src/components/chat/ModelSelector.tsx:54 | the first model with the id, or none when no model has it |
| ModelSelector.SelectedLabel | src/components/chat/ModelSelector.tsx:94 | the selected model's name, or "Select model" when nothing matches or the name is empty |
| ModelSelector.OfProviderAppend | src/components/chat/ModelSelector.tsx:60-66 | a provider's group grows by a model exactly when the model is that provider's |
| ModelSelector.ProvidersInOrder | src/components/chat/ModelSelector.tsx:60-69 | each provider of the list appears once and nothing else appears |
| ModelSelector.ProvidersStep | src/components/chat/ModelSelector.tsx:61-63 | a new provider is added at the end the first time it is met |
| ModelSelector.UnlistedHasNoModels | src/components/chat/ModelSelector.tsx:61-63 | a provider not seen yet has an empty group |
| ModelSelector.AddToGroup | src/components/chat/ModelSelector.tsx:61-64 | the model joins the end of its provider's group, created when missing; other groups are untouched |
| ModelSelector.AddToGroupKeeps | src/components/chat/ModelSelector.tsx:60-66 | one step of the grouping turns the groups of a prefix into the groups of the longer prefix |
| ModelSelector.GroupByProvider | src/components/chat/ModelSelector.tsx:60-66 | the groups are keyed by exactly the providers, in first-appearance order, and each holds that provider's models in list order |
| ModelSelector.EachModelInOneGroup | src/components/chat/ModelSelector.tsx:60-66 | a model is in the group of its own provider and of no other |
| ModelSelector.Rank | src/components/chat/ModelSelector.tsx:68-70 | the position in openai, anthropic, xai, or -1 for any other provider |
| ModelSelector.OfRankHasRank | src/components/chat/ModelSelector.tsx:69-71 | every element taken for a rank has that rank |
| ModelSelector.OfRankStep | src/components/chat/ModelSelector.tsx:69-71 | taking one rank from a non-empty list takes the head exactly when it has that rank, then the rest |
| ModelSelector.SortByRankOrdered | src/components/chat/ModelSelector.tsx:69-71 | the stable sort by rank yields non-decreasing ranks |
| ModelSelector.SortByRankPermutes | src/components/chat/ModelSelector.tsx:69-71 | with ranks between -1 and 2 the stable sort keeps every element, each as often |
| ModelSelector.SortedByRank | src/components/chat/ModelSelector.tsx:69-71 | the sections are ordered by rank: unknown providers first, then openai, anthropic, xai |
| ModelSelector.SortPermutes | src/components/chat/ModelSelector.tsx:69-71 | sorting keeps the same providers, each as often |
| ModelSelector.ProviderLabel | src/components/chat/ModelSelector.tsx:108 | the label upper-cases the first character and keeps the rest |
| ModelSelector.LabelSameIgnoringCase | src/components/chat/ModelSelector.tsx:108 | the label and the provider name are equal ignoring case |
| ModelSelector.ToggleOpen | src/components/chat/ModelSelector.tsx:76 | the list toggles, except while disabled |
| ModelSelector.Choose | src/components/chat/ModelSelector.tsx:124-127 | choosing reports the model's id and closes the list |
| Sidebar.FilterConversations | src/components/layout/Sidebar.tsx:29-31 | exactly the conversations whose title matches the search are kept |
| Sidebar.EmptyQueryKeepsAll | src/components/layout/Sidebar.tsx:29-31 | an empty search keeps every conversation in order |
| Sidebar.KeptIff | src/components/layout/Sidebar.tsx:29-31 | a conversation is kept iff the lower-cased query occurs in its lower-cased title |
| Sidebar.ToLowerIdempotent | src/components/layout/Sidebar.tsx:30 | lower-casing twice is lower-casing once |
| Sidebar.QueryCaseIgnored | src/components/layout/Sidebar.tsx:29-31 | the search result does not depend on the query's case |
| Sidebar.EmptyListMessage | src/components/layout/Sidebar.tsx:149-153 | an empty, expanded list says "No conversations found" while searching, "No conversations yet" otherwise |
| Sidebar.DisplayTitle | src/components/layout/Sidebar.tsx:222 | a conversation's title when it has one, and "New Chat" when it is empty |
| Sidebar.HandleDeleteConversation | src/components/layout/Sidebar.tsx:45-52 | navigates home exactly when the deleted conversation was the current one, even when the delete fails |
| RegisterPage.HasCharInIff | src/pages/RegisterPage.tsx:21-26 | the character-class test holds iff some character lies in the range |
| RegisterPage.Requirements | src/pages/RegisterPage.tsx:21-26 | four requirements, met in turn iff the password has at least 8 characters, an upper-case letter, a lower-case letter, a digit |
| RegisterPage.MeetsRequirementsIff | src/pages/RegisterPage.tsx:21-26 | a password is accepted iff it has at least 8 characters, an upper-case letter, a lower-case letter and a digit |
| RegisterPage.HandleSubmit | src/pages/RegisterPage.tsx:28-54 | the register call is made iff the passwords match and meet the requirements; a mismatch is reported first, then unmet requirements |
| RegisterPage.MismatchFirst | src/pages/RegisterPage.tsx:33-41 | a mismatch is reported even when the password is too short |
| RegisterPage.ConfirmFieldError | src/pages/RegisterPage.tsx:224 | the confirm field complains exactly when it is non-empty and differs from the password |
| RegisterPage.BannerText | src/pages/RegisterPage.tsx:146-149 | the banner shows the store's error first, else the validation error, else nothing |
| RegisterPage.RejectedSubmitShowsBanner | src/pages/RegisterPage.tsx:28-54 | a refused submit always shows a banner |

## Left out

- Network and storage I/O are parameters of the model. This covers:
  - the axios client and its interceptors, and `authService`/`chatService`;
  - `localStorage` persistence: the stores' persisted state is modelled as a value.
  Each request is reduced to the `Result` it settles with.
- `setAccessToken` and the token plumbing of the API client are not modelled.
- Timers become values or parameters. This covers:
  - the toast `setTimeout`, whose delay `AddToast` returns;
  - the reconnection `setTimeout`, whose delay `HandleReconnect` returns;
  - the copy-confirmation timeout;
  - the 100 ms polling while a connection attempt is pending.
- Ids from `Date.now()`/`Math.random()` and the current time are parameters. Where freshness matters, a `requires` states it.
- Other store events cannot interleave inside `ChatInput.HandleSubmit` and `ChatInput.HandleFileSelect`. The model runs them as uninterrupted sequences; only `ChatStore.ReconcileAfterReply` shows the effect of a completion arriving during a send.
- ChatInput.WithProgress: the upload progress is taken as already rounded (`Math.round` is not modelled).
- Files.FileSizeUnit: only the unit and the exact byte count below 1 KiB are modelled. The `toFixed(1)` decimal text for KB and MB is floating point.
- MessageBubble.DurationLabelReadsBack: durations are natural numbers. Fractional and negative durations are not modelled.
- Characters are ASCII only. `toLowerCase`, `toUpperCase` and `trim` are modelled on ASCII letters and ASCII whitespace.
- ModelSelector.GroupByProvider: providers keep first-appearance order. JavaScript would list integer-like keys first.
- ModelSelector.GroupByProvider: the grouping collects into a plain `{}` object (`src/components/chat/ModelSelector.tsx:60-66`). A provider named after any `Object.prototype` member (for example `constructor`, `toString`, `valueOf`, `hasOwnProperty` or `__proto__`) finds an inherited, truthy non-array there, and `.push` throws. The model's map has no such case.
- Files.UploadFile, Files.AcceptedTypesItems and ChatInput.HandleFileSelect describe the program with the document allow-list defined. `src/config/api.ts` defines no `ALLOWED_DOCUMENT_TYPES`, and spreading `undefined` throws a `TypeError` (`src/services/files.ts:119-124`, `131-136`). As written, this has three effects:
  - `isAllowedType` and `getAcceptedTypes` always throw;
  - `handleFileSelect` (`src/components/chat/ChatInput.tsx:74`) stops at its first file with an unhandled rejection, so it adds no toast and no entry;
  - `uploadFile` (`src/services/files.ts:32`) fails every file within the size limit with that `TypeError`.
- The modal's `data` payload is abstracted to `Option<string>`.
- ChatStore.Store.SelectConversationResolve: the stored `currentConversation` is the conversation record only. The messages array that the response also carries is kept in `messages`.
- `JSON.parse` failure inside the WebSocket `onmessage` handler is not modelled. A received message is a `WsMessage` value.
- The theme store's rehydration with no stored state (`state` undefined) is not modelled separately. `Rehydrate` with no stored theme re-resolves the current one.
- The `ChatInput` toast branch for a failed send is not modelled. It cannot fire because the store's `sendMessage` catches its own errors.
- These are not part of this model:
  - `initializeAuth`, referenced from `src/App.tsx:8`;
  - the endpoint constant referenced at `src/services/files.ts:42`.
- Presentation-only components, icons, CSS classes, routing and focus and scroll handling are left out.
