# AgenticAI chat client: a verified model of its streaming core

This project models the non-visual core of the AgenticAI chat client in Dafny. It covers:

- the streaming transport: a server-push client, a WebSocket client with linear-backoff reconnection, a frame parser, an append-only text buffer and the session URL;
- the event vocabulary and the chat records;
- the simulated assistant backend, which writes a fixed sequence of `data: <json>` frames for each user message;
- the application store, written as reducers over one `State` record;
- the list and string logic inside five UI files: the history panel's search filter and age buckets, the streaming chat hook's word-by-word replay, the attachment size filter, and the message composer.

Layout, one module per source file plus three helper modules:

| file | module | models |
|---|---|---|
| wrappers.dfy | Wrappers | `Option` |
| seqs.dfy | Seqs | `Array.prototype.filter`, order preservation (`Subsequence`), `join('')` (`Flatten`) |
| strings.dfy | Strings | `toLowerCase` (ASCII), `includes`, `split(' ')`/`join(' ')`, `trim`, `String(n)` |
| types.dfy | Types | src/types/index.ts |
| streaming.dfy | Streaming | src/lib/streaming.ts |
| stream_route.dfy | StreamRoute | src/app/api/stream/route.ts |
| app_store.dfy | AppStore | src/store/appStore.ts |
| chat_history.dfy | ChatHistory | src/components/layout/ChatHistory.tsx |
| streaming_chat.dfy | StreamingChat | src/hooks/useStreamingChat.ts |
| attachment_button.dfy | AttachmentButton | src/components/chat/AttachmentButton.tsx |
| input_area.dfy | InputArea | src/components/chat/InputArea.tsx |

How the model is shaped:

- Code that changes state in place becomes a class: the two transport clients, the browser sockets, the text buffer, the streaming chat hook and the composer.
- Callbacks, toasts and timer delays are recorded in ghost sequences.
- Code built from expressions becomes functions: the store's reducers, the filters and the event script.
- Loops in the source are `for` loops with invariants: the producer's two enqueue loops, the hook's chunk loop, and the attachment picker's filter, whose callback raises a toast for each rejected file.
- `type` is a keyword in Dafny, so the source's `type` fields are renamed: `mimeType` for attachments and files, `kind` for artifacts and connectors.

## What the code does not do

The model follows the code in each of these:

- The backend never emits `message_start`.
- The backend's payloads for `content_delta`, `artifact_created` and `message_end` do not have the declared shape (`StreamRoute.ProducedShapes`).
- Nothing folds events into an assistant message.
- Parsed frames are passed on without checking their tag. There is no "unrecognised" variant.
- An explicit `close()` does not suppress reconnection (`Streaming.CloseThenCloseEvent`).
- Deleting a conversation does not delete its artifacts.
- The stop button does not cancel the pending reply.

## Model

| member | source | states |
|---|---|---|
| Types.RoleName | src/types/index.ts:11 | the three roles have distinct wire names, and each is read back to the same role |
| Types.ParseRole | src/types/index.ts:11 | a string is accepted as a role iff it is user, assistant or system |
| Types.ArtifactTypeName | src/types/index.ts:53 | `Artifact.type` and `artifactType` range over code, document and chart, with a round trip |
| Types.ParseArtifactType | src/types/index.ts:127 | exactly code, document and chart are artifact types |
| Types.ConnectorTypeName | src/types/index.ts:69 | exactly four connector types, web_search, research, style and model, with a round trip |
| Types.ParseConnectorType | src/types/index.ts:69 | a string is a connector type iff it is one of the four names |
| Types.FinishReasonName | src/types/index.ts:135 | a finish reason is complete, stop or error, with a round trip |
| Types.ParseFinishReason | src/types/index.ts:135 | exactly complete, stop and error are accepted |
| Types.EventTag | src/types/index.ts:94-137 | every event's tag is one of the six declared tags |
| Types.EventToJson | src/types/index.ts:94-137 | the wire form of an event carries its tag in `type` |
| Types.EventTagDeterminesVariant | src/types/index.ts:94-137 | the six tags are distinct, so the tag determines the variant (closed union) |
| Types.Member | src/lib/streaming.ts:195 | a member of a parsed object is the value of the last member with that key, as `JSON.parse` keeps the last duplicate; nothing for a missing key or a non-object |
| Types.MemberOfUniqueKey | src/lib/streaming.ts:195 | a key that occurs once reads back its value, wherever it stands |
| Types.DuplicateKeyLastWins | src/lib/streaming.ts:195 | of two members with the same key, the later one is read |
| Streaming.ParseStreamChunk | src/lib/streaming.ts:193-200 | null exactly when parsing throws or the chunk parses to JSON `null`; any other parsed value is returned unchanged, with no tag check |
| Streaming.NullChunk | src/lib/streaming.ts:193-200 | the chunk "null" yields null, as a malformed chunk does |
| Streaming.Delivered | src/lib/streaming.ts:55-62 | a frame yields at most one delivery, the parsed value itself (JSON `null` included), and none iff parsing throws |
| Streaming.SSEClient.HandleMessage | src/lib/streaming.ts:55-62 | a parsed frame goes to onMessage; a malformed one is dropped and the source stays open |
| Streaming.SSEClient.HandleError | src/lib/streaming.ts:64-67 | reports "SSE connection error", then closes the source and clears the handle |
| Streaming.SSEClient.HandleComplete | src/lib/streaming.ts:70-73 | calls onComplete once, then closes |
| Streaming.SSEClient.Close | src/lib/streaming.ts:76-81 | closes and nulls the source; with no source it changes nothing, so a second call is a no-op |
| Streaming.SSEClient.Connect | src/lib/streaming.ts:52-53 | opens a fresh source on the client's URL |
| Streaming.LinearDelays | src/lib/streaming.ts:143-145 | the i-th scheduled delay is 1000 × the attempt number |
| Streaming.AfterClose | src/lib/streaming.ts:138-148 | each close appends exactly one reaction to the log: a delay of 1000 × the new count, or "Max reconnection attempts reached"; the counter never passes 5 |
| Streaming.ConsecutiveCloses | src/lib/streaming.ts:138-148 | k closes in a row: the counter rises to the cap of 5 and stays there, delays follow linear backoff, and each close at the cap reports one error |
| Streaming.FailingSocket | src/lib/streaming.ts:138-148 | k ≥ 5 close events in a row, with no open and no error event between them, from a fresh counter: delays 1000, 2000, 3000, 4000, 5000 and then one "Max reconnection attempts reached" per further close |
| Streaming.AfterCloseBounded | src/lib/streaming.ts:139 | attempts never exceed the cap, and a close leaves the counter unchanged iff it is at the cap |
| Streaming.WebSocketClient.Connect | src/lib/streaming.ts:105-136 | a fresh connecting socket, or the constructor's exception goes to onError and the handle is kept |
| Streaming.WebSocketClient.HandleOpen | src/lib/streaming.ts:109-113 | runs for any socket once it is OPEN, whether or not it is still the client's current one; resets the counter to 0 and calls onConnect, leaving the socket open and its frames unchanged |
| Streaming.WebSocketClient.HandleMessage | src/lib/streaming.ts:115-122 | a malformed frame is dropped without calling onMessage and without closing |
| Streaming.WebSocketClient.HandleError | src/lib/streaming.ts:124-127 | reports "WebSocket connection error" and changes nothing else |
| Streaming.WebSocketClient.HandleClose | src/lib/streaming.ts:129-132 | every close event applies the reconnection policy |
| Streaming.WebSocketClient.AttemptReconnect | src/lib/streaming.ts:138-149 | the counter, delays and errors evolve exactly as the policy `AfterClose` says, and the counter stays at most 5 |
| Streaming.WebSocketClient.Send | src/lib/streaming.ts:151-157 | transmits only when the socket exists and is OPEN; otherwise nothing is sent |
| Streaming.WebSocketClient.Close | src/lib/streaming.ts:159-164 | a connecting or open socket starts closing and the handle is nulled; nothing more is transmitted; a second call is a no-op; the counter is left alone |
| Streaming.Socket.Opened | src/lib/streaming.ts:109 | the handshake completes: a connecting socket becomes OPEN, before its `open` event |
| Streaming.Socket.Disconnected | src/lib/streaming.ts:129 | the connection is gone: the socket is CLOSED, before its `close` event |
| Streaming.Socket.Send | src/lib/streaming.ts:153 | an open socket transmits the frame and stays open |
| Streaming.Socket.Close | src/lib/streaming.ts:161 | a connecting or open socket starts closing; any other state is kept |
| Streaming.StaleOpen | src/lib/streaming.ts:105-113 | a socket replaced by a second `connect()` still resets the counter when it opens, while the current socket is still connecting |
| Streaming.OpenThenSend | src/lib/streaming.ts:105-157 | connect, handshake and `open` event: the counter is 0 and a message sent is transmitted on the new socket |
| Streaming.FailedConnection | src/lib/streaming.ts:124-148 | a failing attempt reports "WebSocket connection error" and then applies the policy: below the cap one more delay, at the cap also "Max reconnection attempts reached" |
| Streaming.CloseThenCloseEvent | src/lib/streaming.ts:129-164 | an explicit close followed by its close event still schedules a reconnect |
| Streaming.BaseUrl | src/lib/streaming.ts:174 | an unset or empty environment variable gives ws://localhost:3000 |
| Streaming.SessionUrl | src/lib/streaming.ts:175 | base + "/stream?conversationId=" + id, then "&token=" + token only for a non-empty token |
| Streaming.CreateStreamingSession | src/lib/streaming.ts:170-188 | a new client on the session URL with a zero counter and no socket |
| Streaming.StreamingTextHandler.AddChunk | src/lib/streaming.ts:213-216 | the buffer is the concatenation of the chunks, and the k-th onUpdate receives the first k chunks concatenated |
| Streaming.StreamingTextHandler.Reset | src/lib/streaming.ts:218-220 | the buffer becomes empty and onUpdate is not called |
| Streaming.StreamingTextHandler.GetFullText | src/lib/streaming.ts:222-224 | returns c1 + … + cn for the chunks added since the last reset |
| StreamRoute.Tag | src/app/api/stream/route.ts:22-83 | the producer's tags are declared tags, never message_start |
| StreamRoute.ToJson | src/app/api/stream/route.ts:22-83 | each payload object carries its tag in `type` |
| StreamRoute.Frame | src/app/api/stream/route.ts:29 | a frame is "data: " + json + "\n\n", and unframing gives back the JSON text |
| StreamRoute.ThinkingEvents | src/app/api/stream/route.ts:15-31 | three thinking steps with indices 1, 2, 3 |
| StreamRoute.DeltaEvents | src/app/api/stream/route.ts:51-57 | one delta per word, each being the word followed by a space |
| StreamRoute.Enqueue | src/app/api/stream/route.ts:29 | one enqueue appends one event and its frame |
| StreamRoute.Script | src/app/api/stream/route.ts:14-84 | the events the producer writes for a message, as assembled from its parts |
| StreamRoute.Start | src/app/api/stream/route.ts:12-85 | the loops enqueue exactly the script, one frame per event, in order |
| StreamRoute.AssembleParts | src/app/api/stream/route.ts:14-84 | the script is thinking steps, optional tool call, deltas, optional artifact, end |
| StreamRoute.ThinkingStepsFirst | src/app/api/stream/route.ts:15-31 | the first three events are the thinking steps with indices 1, 2, 3, and there are no others |
| StreamRoute.ToolCallIffSearch | src/app/api/stream/route.ts:34-44 | exactly one tool call, querying the message, iff the lower-cased message contains "search"; none otherwise |
| StreamRoute.DeltaTextAppend | src/app/api/stream/route.ts:51-60 | delta text distributes over concatenation |
| StreamRoute.DeltaTextNone | src/app/api/stream/route.ts:51-60 | a stretch without deltas contributes no text |
| StreamRoute.DeltaTextOfWords | src/app/api/stream/route.ts:49-60 | the deltas of words w1..wn spell w1 + " " + … + wn + " " |
| StreamRoute.DeltasSpellResponse | src/app/api/stream/route.ts:47-60 | all deltas concatenated equal the response + " ", with one delta per piece of `response.split(' ')` |
| StreamRoute.ArtifactIffCodeOrCreate | src/app/api/stream/route.ts:63-75 | at most one artifact, present iff the lower-cased message contains "code" or "create" |
| StreamRoute.ScriptOrder | src/app/api/stream/route.ts:14-85 | events come in the order thinking, tool, deltas, artifact, end; the artifact follows every delta; the single end event "complete" is last |
| StreamRoute.ProducedShapes | src/app/api/stream/route.ts:22-83 | thinking and tool payloads have the declared shape; delta, artifact and end payloads match no declared event |
| StreamRoute.DeclaredShapes | src/app/api/stream/route.ts:22-44 | thinking-step and tool-call payloads are exactly the declared events' wire forms |
| Seqs.FilterSpec | src/store/appStore.ts:128 | `filter` keeps exactly the passing elements, each as often as it occurs, in their original order |
| Seqs.Filter | src/store/appStore.ts:128 | `filter` never makes a list longer |
| Seqs.FilterKeepsOrder | src/store/appStore.ts:128 | every kept element passes, every passing element is kept, and the original order is kept |
| Seqs.FilterCount | src/store/appStore.ts:128 | each passing element is kept exactly as often as it occurs, and no other element is kept |
| Seqs.FilterAppend | src/components/layout/ChatHistory.tsx:30-32 | filtering a concatenation filters each part |
| Seqs.FilterKeepsAll | src/components/layout/ChatHistory.tsx:30-32 | a filter every element passes keeps everything |
| Seqs.FilterDropsAll | src/app/api/stream/route.ts:14-85 | a filter no element passes keeps nothing |
| Seqs.FilterFullLength | src/components/chat/InputArea.tsx:109-113 | a filter keeps the full length iff every element passes |
| Seqs.FilterComplement | src/components/chat/AttachmentButton.tsx:26-32 | a filter and its complement split the input's multiset |
| Seqs.FilterPartition3 | src/components/layout/ChatHistory.tsx:35-50 | three mutually exclusive and exhaustive filters partition the input |
| Seqs.FlattenSnoc | src/lib/streaming.ts:213-216 | appending a chunk appends it to the concatenation |
| Strings.Lower | src/components/layout/ChatHistory.tsx:31 | lower-casing keeps the length and maps each character |
| Strings.ContainsEmpty | src/components/layout/ChatHistory.tsx:31 | every string includes the empty string |
| Strings.Contains | src/components/layout/ChatHistory.tsx:31 | `includes`: the text holds the searched string at some position, so it is at least as long |
| Strings.Split | src/app/api/stream/route.ts:49 | `split(' ')` gives at least one piece, none containing a space |
| Strings.JoinSplit | src/hooks/useStreamingChat.ts:37-43 | joining the pieces of a split gives back the text |
| Strings.Join | src/hooks/useStreamingChat.ts:40 | `join(' ')`: the words with one separator between neighbours; JoinSplit and SplitJoin make it the inverse of `split` |
| Strings.SplitJoin | src/hooks/useStreamingChat.ts:37-43 | splitting a join of space-free words gives back the words |
| Strings.SplitNoSep | src/hooks/useStreamingChat.ts:37 | text without a space is a single piece |
| Strings.SplitAtFirstSep | src/hooks/useStreamingChat.ts:37 | a split at the first space separates the first word |
| Strings.JoinConsFirst | src/hooks/useStreamingChat.ts:40 | prefixing the first word prefixes the joined text |
| Strings.JoinPrefix | src/hooks/useStreamingChat.ts:40 | the join of the first k words is a prefix of the join of all of them |
| Strings.TrimEmpty | src/components/chat/InputArea.tsx:34 | `trim()` is empty iff the text is all whitespace |
| Strings.Trim | src/components/chat/InputArea.tsx:34 | `trim()` is a stretch of the text that neither starts nor ends with whitespace, with only whitespace before and after it |
| Strings.TrimStart | src/components/chat/InputArea.tsx:34 | `trimStart()` is a suffix that does not start with whitespace, and the prefix removed is all whitespace |
| Strings.TrimEnd | src/components/chat/InputArea.tsx:34 | `trimEnd()` is a prefix that does not end with whitespace, and the suffix removed is all whitespace |
| Strings.TrimStartEmpty | src/components/chat/InputArea.tsx:34 | `trimStart()` is empty iff the text is all whitespace |
| Strings.TrimEndKeepsFirst | src/components/chat/InputArea.tsx:34 | `trimEnd()` keeps a leading non-whitespace character |
| Strings.NatToString | src/components/chat/AttachmentButton.tsx:28 | `String(n)` is a non-empty string of decimal digits that spells n, with no leading zero |
| AppStore.Initial | src/store/appStore.ts:81-99 | closed flags, no active conversation, empty lists, the default model, the four connectors web_search, research, style, model in that order without configuration, and the Normal style |
| AppStore.ToggleSidebar | src/store/appStore.ts:103-105 | negates `sidebarCollapsed` and nothing else |
| AppStore.ToggleArtifactsPanel | src/store/appStore.ts:107-109 | negates `artifactsPanelOpen` and nothing else |
| AppStore.TogglesAreInvolutions | src/store/appStore.ts:103-109 | toggling either flag twice restores the state |
| AppStore.SetActiveConversation | src/store/appStore.ts:111-113 | sets the active id and nothing else |
| AppStore.AddConversation | src/store/appStore.ts:117-119 | the new conversation is at index 0, followed by the old list unchanged |
| AppStore.Merge | src/store/appStore.ts:123 | supplied fields replace old ones, and `updatedAt` is now even if the patch supplied one |
| AppStore.UpdateMatching | src/store/appStore.ts:121-125 | length preserved; non-matching ids unchanged; matching entries merged |
| AppStore.UpdateConversation | src/store/appStore.ts:121-125 | only the conversation list changes |
| AppStore.UpdateUnknownId | src/store/appStore.ts:121-125 | an update with an unknown id changes nothing |
| AppStore.DeleteConversation | src/store/appStore.ts:127-130 | removes every entry with the id and keeps each other one as often as it occurs, in order; the active id is cleared iff it equalled the id |
| AppStore.DeleteCount | src/store/appStore.ts:127-130 | survivors plus removed entries number the original list |
| AppStore.ToggleMatching | src/store/appStore.ts:134-138 | flips `enabled` only on connectors of the type; kind, config and order unchanged |
| AppStore.ToggleConnector | src/store/appStore.ts:134-138 | only the connector list changes |
| AppStore.ToggleConnectorTwice | src/store/appStore.ts:134-138 | toggling a type twice restores the state |
| AppStore.SetModel | src/store/appStore.ts:142-144 | sets the model and nothing else |
| AppStore.AddArtifact | src/store/appStore.ts:148-151 | appends at the end and opens the panel |
| AppStore.RemoveArtifact | src/store/appStore.ts:153-155 | removes every artifact with the id, keeps each other one as often as it occurs, in order, and leaves the panel flag alone |
| AppStore.AddThenRemoveArtifact | src/store/appStore.ts:148-155 | adding an artifact with a fresh id and removing it restores the list, with the panel left open |
| AppStore.SetSelectedStyle | src/store/appStore.ts:159-161 | sets the style name and nothing else |
| AppStore.SetStyleConfig | src/store/appStore.ts:163-165 | sets the style configuration and nothing else |
| AppStore.UpdateStyleFromSelection | src/store/appStore.ts:171-181 | an unknown name changes nothing; a known one sets the name and its configuration together |
| AppStore.StyleConsistency | src/store/appStore.ts:55-181 | the store starts with a consistent style, and selecting one keeps it consistent |
| AppStore.GetEnabledConnectors | src/store/appStore.ts:199-202 | the enabled connectors, each as often as it occurs, in order |
| AppStore.FirstEnabled | src/store/appStore.ts:207-211 | true iff the first connector of the type is enabled; false when none exists |
| AppStore.IsConnectorEnabled | src/store/appStore.ts:207-211 | the same, on the store's connectors |
| AppStore.ToggleFlipsEnabled | src/store/appStore.ts:134-211 | toggling an existing type flips whether it counts as enabled |
| AppStore.ToggleConnectorFlips | src/store/appStore.ts:134-211 | the same, on the store |
| AppStore.InitialConnectorsEnabled | src/store/appStore.ts:88-93 | initially only "model" is enabled |
| AppStore.InitialEnabledList | src/store/appStore.ts:88-93 | of the four initial connectors only the last, model, passes the `enabled` filter |
| AppStore.InitialFirstEnabled | src/store/appStore.ts:88-93 | among the initial connectors, the first one of a type is enabled iff the type is "model" |
| AppStore.GetRequestConfig | src/store/appStore.ts:216-224 | model id, style and config, and the wire names of the enabled connectors in order |
| ChatHistory.FilterConversations | src/components/layout/ChatHistory.tsx:30-32 | keeps exactly the conversations whose lower-cased title contains the lower-cased query, each as often as it occurs, in order |
| ChatHistory.TitleMatches | src/components/layout/ChatHistory.tsx:31 | the search test: the lower-cased title includes the lower-cased query |
| ChatHistory.EmptyQueryKeepsAll | src/components/layout/ChatHistory.tsx:30-32 | an empty query keeps all |
| ChatHistory.BucketOf | src/components/layout/ChatHistory.tsx:37-48 | today below 86400000 ms, yesterday from 86400000 to below 172800000, older from 172800000 |
| ChatHistory.InToday | src/components/layout/ChatHistory.tsx:37-40 | the `today` test: less than a day old; TestsMatchBuckets ties it to the Today bucket |
| ChatHistory.InYesterday | src/components/layout/ChatHistory.tsx:41-44 | the `yesterday` test: at least one and less than two days old; TestsMatchBuckets ties it to the Yesterday bucket |
| ChatHistory.InOlder | src/components/layout/ChatHistory.tsx:45-48 | the `older` test: at least two days old; TestsMatchBuckets ties it to the Older bucket |
| ChatHistory.TestsMatchBuckets | src/components/layout/ChatHistory.tsx:37-48 | each of the three filter tests holds iff the conversation is in its bucket |
| ChatHistory.BucketBoundaries | src/components/layout/ChatHistory.tsx:37-47 | exactly one day is yesterday, exactly two days is older, and a future time is today |
| ChatHistory.Group | src/components/layout/ChatHistory.tsx:35-50 | each group holds only its bucket and keeps the filtered order |
| ChatHistory.GroupsPartition | src/components/layout/ChatHistory.tsx:35-50 | the groups together hold the filtered list exactly |
| ChatHistory.GroupsDisjoint | src/components/layout/ChatHistory.tsx:35-50 | no conversation is in two groups |
| ChatHistory.DisjointBuckets | src/components/layout/ChatHistory.tsx:35-50 | lists in different buckets share no element |
| ChatHistory.Headings | src/components/layout/ChatHistory.tsx:70-76 | exactly the labels of the non-empty groups, each once, Today first and Older last |
| ChatHistory.HeadingsOfList | src/components/layout/ChatHistory.tsx:39-76 | a heading is shown iff some listed conversation falls in its age bucket |
| ChatHistory.EmptyStateText | src/components/layout/ChatHistory.tsx:121-124 | shown iff the list is empty: "No conversations found" with a query, "No conversations yet" without |
| ChatHistory.NoConversationsYet | src/components/layout/ChatHistory.tsx:30-124 | with no conversations and no query there are no headings and the text is "No conversations yet" |
| StreamingChat.Chunks | src/hooks/useStreamingChat.ts:38-43 | one chunk per word, the k-th joining the first k words |
| StreamingChat.ChunksArePrefixes | src/hooks/useStreamingChat.ts:37-43 | every chunk is a prefix of the content, and the last chunk is the content |
| StreamingChat.ChunkWordCount | src/hooks/useStreamingChat.ts:38-43 | the k-th chunk holds exactly k words, so word counts strictly increase |
| StreamingChat.StreamingChat.SendMessage | src/hooks/useStreamingChat.ts:11-54 | `isStreaming` is true then false on every path; on success, n chunks are shown and passed to onChunk, then "" is shown and the reply delivered; a failed request delivers nothing |
| StreamingChat.StreamingChat.StopStreaming | src/hooks/useStreamingChat.ts:56-58 | only clears `isStreaming` |
| AttachmentButton.DefaultLimit | src/components/chat/AttachmentButton.tsx:17-24 | the default limit is 10485760 bytes |
| AttachmentButton.TooLargeMessage | src/components/chat/AttachmentButton.tsx:28 | the toast starts with the file name and ends with the limit in MB followed by "MB)" |
| AttachmentButton.Toasts | src/components/chat/AttachmentButton.tsx:27-29 | one "<name> is too large (max <n>MB)" toast per rejected file, in order |
| AttachmentButton.HandleFileSelect | src/components/chat/AttachmentButton.tsx:22-36 | kept files are the filter of those ≤ maxSizeMB × 1024 × 1024; one toast per rejected file; the callback gets the kept files iff there are any |
| AttachmentButton.SelectionSplitsFiles | src/components/chat/AttachmentButton.tsx:24-32 | kept files are exactly those within the limit, in order; kept plus toasts number the files |
| InputArea.SendDisabledMeans | src/components/chat/InputArea.tsx:34 | sending is refused iff the input is all whitespace and nothing is attached |
| InputArea.SendDisabled | src/components/chat/InputArea.tsx:197 | the guard of `handleSend` and the send button's `disabled`; SendDisabledMeans says when it holds |
| InputArea.AttachmentOf | src/components/chat/InputArea.tsx:42-48 | an attachment keeps the file's name, type and size |
| InputArea.AttachmentsOf | src/components/chat/InputArea.tsx:42-48 | one attachment per file, in order, with the file's name, type and size, and the id and object URL created for its position |
| InputArea.UserMessage | src/components/chat/InputArea.tsx:36-49 | a user message with the raw input as content and the attachments |
| InputArea.Reply | src/components/chat/InputArea.tsx:58-94 | quotes the input, thinking indices 1, 2, 3, and one web_search for the input iff the lower-cased input contains "search" |
| InputArea.RemoveAt | src/components/chat/InputArea.tsx:118-120 | removes exactly position i and keeps the others in order; an out-of-range i leaves the list unchanged |
| InputArea.Composer.SetInput | src/components/chat/InputArea.tsx:159 | sets the input and nothing else |
| InputArea.Composer.HandleSend | src/components/chat/InputArea.tsx:33-57 | nothing when sending is refused; otherwise the user message is appended, input and attachments are cleared, streaming starts, and a reply is scheduled |
| InputArea.Composer.HandleKeyDown | src/components/chat/InputArea.tsx:100-105 | Enter without Shift does exactly what HandleSend does, even while streaming: nothing when sending is refused, else the message is appended, input and attachments cleared, streaming started and a reply scheduled; any other key changes nothing |
| InputArea.Composer.ReplyArrives | src/components/chat/InputArea.tsx:57-97 | the reply to the oldest pending message is appended, quoting its input and carrying the conversation id captured when it was sent, and streaming stops |
| InputArea.Composer.HandleFileSelect | src/components/chat/InputArea.tsx:107-116 | files ≤ 10485760 bytes are appended in order; a single toast iff some file was too large |
| InputArea.Composer.RemoveAttachment | src/components/chat/InputArea.tsx:118-120 | attachments become `RemoveAt` of the old list |
| InputArea.Composer.Stop | src/components/chat/InputArea.tsx:185-192 | only clears `isStreaming`; the pending replies still arrive |
| InputArea.SendThenReply | src/components/chat/InputArea.tsx:33-192 | send, stop, then the reply: the thread gains the message and then the reply in the same conversation, and streaming ends |

## Left out

- Timers and asynchrony are left out. `setTimeout` delays are recorded as values, and awaits are sequentialised. The replies in the composer arrive in the order they were scheduled.
- The ReadableStream controller, `controller.error` and the HTTP response headers of the backend are left out.
- Rendering, animation, styling and markdown are left out, as are every component outside the files listed above, `src/lib/api.ts`, the other hooks and the server stubs.
- Browser and runtime facilities are parameters: `JSON.parse`, `JSON.stringify`, `generateId`, `URL.createObjectURL`, `Date.now`/`new Date` and `Math.random` (the artifact id).
- Strings.Lower: lower-cases ASCII letters only, because JavaScript's full Unicode case mapping is not modelled.
- Floating point: style temperatures and model costs are exact `real` constants. They are only copied, never computed with.
- Types.Json: a JSON number is an exact `real`; the rounding of `JSON.parse` to the nearest IEEE 754 double is not modelled.
- AttachmentButton.HandleFileSelect: `maxSizeMB` is a natural number; fractional limits are not modelled. Resetting the file input's value is a DOM effect and is left out.
- AppStore.UpdateStyleFromSelection: the lookup `styleConfigurations[name]` also finds keys inherited from `Object.prototype` such as "toString"; the model knows only the four style names.
- AppStore.UpdateConversation: a `Partial<Conversation>` that explicitly sets a field to `undefined` is not modelled; a patch field is either supplied or absent.
- StreamingChat.StreamingChat.SendMessage: a reply without a string `content` (where `split` would throw) is not modelled; the reply is a typed `Message`. The request itself, its URL and body are not modelled, only its outcome.
- The selectors `getStyleConfig` and `getSelectedModel` only read one field of the state (`State.styleConfig`, `State.selectedModel`) and have no member of their own.
- The console logging in every file is left out.
- `src/lib/mock-data.ts` is not part of this model beyond the default model's fields.
