# Stream-to-transcript pipeline of the template chat UI

This project models the logic at the centre of a React and Fastify chat application. The
server streams an agent's answer as framed JSON lines. The client decodes the stream,
drops duplicate chunks and folds the chunks into a chat transcript. Around this pipeline
sit a few small pieces: the chat list itself, its persistence, the history loader and the
access-token status. The model proves properties of each of them.

- **Decoder.** `StreamDecoder` and `DataStream` model `useDataStream.tsx`:
  - a text buffer is cut at blank lines (`"\n\n"`);
  - each block is trimmed, and one leading `data: ` is removed;
  - `[DONE]` or `DONE` ends the current batch;
  - parsed chunks are de-duplicated by `chunk_id`.
- **Reducer.** `TranscriptReducer` folds chunks into the message list:
  - consecutive tokens coalesce into one AI message;
  - an AI message with tool calls is appended;
  - a tool message writes its content onto the matching calls;
  - everything else is ignored.
- **Hook object.** `DataStream.DataStreamHook` is a class whose methods follow `submit`, its
  read loop, its block loop, its `finally` and `stop`. Each method is proved against the
  functions above.
- **History correlator.** `Messages` and `AgentRest` model `combineToolCallandResult` and the
  per-thread mapping of `getAllThreadsByUserId`.
- **Token grouping.** `EventGrouping` models the run-length grouping loop of
  `StreamEventRenderer.tsx`, as a method proved against a recursive specification, and
  `toggleExpand`.
- **Chat context.** `ChatTypes` and `ChatContext` model:
  - `chatReducer`;
  - `generateChatTitle`;
  - the update objects built by `createNewChat`, `deleteChat`, `renameChat`,
    `updateChatMessages` and `loadUserHistory`;
  - the mount effect.
- **Storage.** `ChatStorage.ChatStorageService` is a class over one storage slot:
  - the capped save with its halved retry;
  - the upsert by thread id;
  - the filtering load;
  - `clearChats`.
- **Server and scenarios.** `AgentController` models the server side: the framing loops of
  `streamTokens` and `streamToolCall`, and the order of the canned stream. `StreamScenario`,
  `StreamWire` and `HistoryFixture` build the end-to-end scenarios:
  - the canned stream, cut into reads in any way, gives eleven new AI messages;
  - the canned history combines into eleven messages with all seven results attached.
- **Token status.** `RefreshableToken` models the banding of the token status and the
  refresh rule of `useRefreshableToken.tsx`.

Things the code decides, and which the model follows:

- A second tool result for the same call id overwrites the first: the last write wins.
- A `message` chunk holding a human message is ignored; it is not appended.
- The streaming flag survives `submit`. A token run left open carries over into the next
  submission (`DataStream.OpenRunCarriesOver`).

## Model

| member | source | states |
|---|---|---|
| StreamDecoder.StripData | src/frontend/hooks/useDataStream.tsx:134-137 | exactly one leading `data: ` is removed when present, otherwise the text is unchanged |
| StreamDecoder.Classify | src/frontend/hooks/useDataStream.tsx:130-141 | a block is skipped exactly when its trim is empty, stops the batch exactly when its trim, with one `data: ` removed, is `[DONE]` or `DONE`, and is otherwise passed on as its trim with at most one `data: ` removed, never empty |
| StreamDecoder.ClassifySkip | src/frontend/hooks/useDataStream.tsx:130-132 | a block is skipped exactly when every character is white space |
| StreamDecoder.ClassifyData | src/frontend/hooks/useDataStream.tsx:130-141 | a block that is neither blank nor the end marker goes to the parser as its trimmed text, with one leading `data: ` removed when present; what is passed on is never empty and never the end marker |
| StreamDecoder.ClassifyStripsOnce | src/frontend/hooks/useDataStream.tsx:135-136 | a doubled `data: data: ` prefix loses only its first copy |
| StreamDecoder.ClassifyDone | src/frontend/hooks/useDataStream.tsx:139-141 | `[DONE]` and `DONE`, bare or after `data: `, stop the batch |
| StreamDecoder.ClassifyPayload | src/frontend/hooks/useDataStream.tsx:130-144 | a trimmed JSON text other than the marker is passed on as is, whether it was sent bare or after `data: ` |
| StreamDecoder.RunBlocksAppend | src/frontend/hooks/useDataStream.tsx:129-214 | without an end marker, running two block lists one after the other is running their concatenation |
| StreamDecoder.RunBlocks | src/frontend/hooks/useDataStream.tsx:129-214 | no contract of its own; its properties are RunBlocksAppend, RunBlocksBounds and StopEndsBatch |
| StreamDecoder.RunBlocksBounds | src/frontend/hooks/useDataStream.tsx:129-214 | running a batch only adds: recorded ids stay recorded, and each block adds at most one message and draws at most one fresh id |
| StreamDecoder.StopEndsBatch | src/frontend/hooks/useDataStream.tsx:139-141 | once a block is the end marker, the rest of its batch has no effect |
| StreamDecoder.BatchesCover | src/frontend/hooks/useDataStream.tsx:123-127 | the batches in order, followed by the final buffer, are exactly the pieces of all the text read, cut at every blank line: no block is lost or handled twice, and the buffer holds no blank line |
| StreamDecoder.Batches | src/frontend/hooks/useDataStream.tsx:123-127 | each read hands exactly one batch of complete blocks to the block loop |
| StreamDecoder.FinalBuffer | src/frontend/hooks/useDataStream.tsx:123-127 | after at least one read the buffer left over holds no blank line |
| StreamDecoder.AppendToBuffer | src/frontend/hooks/useDataStream.tsx:123-127 | more text only extends the last piece, so keeping that piece as the buffer is sound |
| StreamDecoder.BatchesUnfold | src/frontend/hooks/useDataStream.tsx:118-127 | the first read's complete blocks come first; the later reads continue from the buffer it leaves |
| StreamDecoder.TextRecovered | src/frontend/hooks/useDataStream.tsx:123-127 | joining the blocks and the final buffer with blank lines gives back every character read |
| StreamDecoder.RunBatchesFlat | src/frontend/hooks/useDataStream.tsx:118-214 | if only the last block may be the end marker, how the text was cut into reads does not matter |
| StreamDecoder.RunBatches | src/frontend/hooks/useDataStream.tsx:118-214 | no contract of its own; its properties are RunBatchesFlat, RunBatchesBounds, EmptyBatches and StopThenNextBatch |
| StreamDecoder.RunBatchesBounds | src/frontend/hooks/useDataStream.tsx:118-214 | running every batch never drops a recorded id, a message or a drawn id |
| StreamDecoder.EmptyBatches | src/frontend/hooks/useDataStream.tsx:118-214 | batches without blocks change nothing |
| StreamDecoder.StopThenNextBatch | src/frontend/hooks/useDataStream.tsx:118-141 | the marker drops the rest of its own batch only; the next read's blocks are handled again |
| TranscriptReducer.AppendToLast | src/frontend/hooks/useDataStream.tsx:202-206 | the length is kept, every message except the last is unchanged, and the last message's content becomes text: its string form (the text itself, or the structured value's string form) followed by the token |
| TranscriptReducer.TokenMessage | src/frontend/hooks/useDataStream.tsx:193-198 | no contract of its own; its properties are TokenRun: a run opens with one AI message holding the text, no calls, and a fresh id |
| TranscriptReducer.Reduce | src/frontend/hooks/useDataStream.tsx:156-209 | no contract of its own; its properties are ReduceEffect, ReduceKeepsSenders, ReduceKeepsSeen and the chunk lemmas below |
| TranscriptReducer.IsDuplicate | src/frontend/hooks/useDataStream.tsx:147-150 | no contract of its own; its properties are DuplicateIsNoOp: a chunk whose id was recorded changes nothing |
| TranscriptReducer.Record | src/frontend/hooks/useDataStream.tsx:152-154 | no contract of its own; its properties are FalsyIdNeverDeduplicated and SecondCopyIsNoOp: only a truthy id is recorded |
| TranscriptReducer.Deliver | src/frontend/hooks/useDataStream.tsx:143-154 | no contract of its own; its properties are DeliverEffect, DuplicateIsNoOp and SecondCopyIsNoOp |
| TranscriptReducer.DeliverAll | src/frontend/hooks/useDataStream.tsx:129-214 | no contract of its own; its properties are DeliverAllAppend and DeliverAllBounds |
| TranscriptReducer.DeliverAllAppend | src/frontend/hooks/useDataStream.tsx:129-214 | delivering two chunk lists in sequence is delivering their concatenation |
| TranscriptReducer.DuplicateIsNoOp | src/frontend/hooks/useDataStream.tsx:147-150 | a chunk whose id was already seen changes neither the messages nor the flag nor the set |
| TranscriptReducer.SecondCopyIsNoOp | src/frontend/hooks/useDataStream.tsx:147-154 | after a chunk with a truthy id is delivered, a second copy of it is a no-op |
| TranscriptReducer.DeliverEffect | src/frontend/hooks/useDataStream.tsx:143-154 | a malformed block changes nothing; a truthy chunk id is recorded for good; at most one message and one fresh id are added |
| TranscriptReducer.DeliverAllBounds | src/frontend/hooks/useDataStream.tsx:129-214 | delivering a list of blocks never forgets an id and adds at most one message and one fresh id per block |
| TranscriptReducer.ReduceKeepsSeen | src/frontend/hooks/useDataStream.tsx:156-209 | only the de-duplication step touches the seen set |
| TranscriptReducer.ReduceEffect | src/frontend/hooks/useDataStream.tsx:156-209 | one chunk adds at most one message; a fresh id is drawn only for the message opening a token run, which sets the flag; a non-human message chunk clears the flag; any chunk that is not a message or a text token changes nothing |
| TranscriptReducer.ReduceKeepsSenders | src/frontend/hooks/useDataStream.tsx:156-209 | no chunk changes the sender or the id of a message already in the list |
| TranscriptReducer.FalsyIdNeverDeduplicated | src/frontend/hooks/useDataStream.tsx:152-154 | a chunk with no id or with id 0 is never recorded, so delivering it twice applies it twice |
| TranscriptReducer.TokenChunks | src/frontend/hooks/useDataStream.tsx:190-207 | builds one token chunk per text, in order |
| TranscriptReducer.ContinueRun | src/frontend/hooks/useDataStream.tsx:201-206 | while the flag is set, tokens, empty ones included, are appended to the last message, whatever its content: after at least one token it is text, the old content's string form followed by all the tokens; nothing else changes |
| TranscriptReducer.TokenWhileStreaming | src/frontend/hooks/useDataStream.tsx:201-206 | while the flag is set, one token only extends the last message |
| TranscriptReducer.TokenRun | src/frontend/hooks/useDataStream.tsx:190-207 | n consecutive tokens arriving while the flag is clear add exactly one AI message, whose content is their concatenation, and set the flag |
| TranscriptReducer.ToolCallAppends | src/frontend/hooks/useDataStream.tsx:160-167 | an AI message with tool calls is appended verbatim and clears the flag, so the next token starts a new message |
| TranscriptReducer.ToolResultAttaches | src/frontend/hooks/useDataStream.tsx:169-188 | a tool message adds nothing: it writes its content onto the first matching call of every AI message with calls and clears the flag; without a usable id it only clears the flag |
| TranscriptReducer.OtherMessageClearsFlag | src/frontend/hooks/useDataStream.tsx:158-165 | any other non-human message, for example an AI message without calls, only clears the flag |
| TranscriptReducer.IgnoredChunks | src/frontend/hooks/useDataStream.tsx:156-158 | human messages, error chunks, non-string tokens and parse failures leave both the messages and the flag unchanged |
| TranscriptReducer.MalformedInsideRun | src/frontend/hooks/useDataStream.tsx:211-213 | token `A`, a malformed block, then token `B` give one message `AB` |
| TranscriptReducer.AttachToLastCall | src/frontend/hooks/useDataStream.tsx:171-188 | a result for a call held only by the last message is attached there and nowhere else |
| TranscriptReducer.CallResultToken | src/frontend/hooks/useDataStream.tsx:158-207 | a call, its result and a token: the call is appended with its result, and the token starts a new message |
| TranscriptReducer.CallRoundTrip | src/frontend/hooks/useDataStream.tsx:158-207 | `Hel`, `lo`, a call, its result and `Done` give `Hello`, the answered call and `Done`, in that order |
| DataStream.ReportsOf | src/frontend/hooks/useDataStream.tsx:217-223 | `onError` receives at most one error: the outcome itself, exactly when it is an `Error` other than an `AbortError` |
| DataStream.ErrorName | src/frontend/hooks/useDataStream.tsx:219 | no contract of its own; its properties are ReportRule and EmptySubmitReported: an error named `AbortError` is never reported, a missing last message raises a `TypeError` |
| DataStream.Submitted | src/frontend/hooks/useDataStream.tsx:66-228 | no contract of its own; its properties are SubmittedOutcome, SeenResetPerSubmit, FailureBeforeBody, EmptySubmitReported and OpenRunCarriesOver |
| DataStream.SubmittedOutcome | src/frontend/hooks/useDataStream.tsx:66-228 | a submission keeps at least the messages it was given and never reuses a drawn id; it ends without an error exactly when the list was non-empty and the body was read to `done`, and a failed read is its error |
| DataStream.SeenResetPerSubmit | src/frontend/hooks/useDataStream.tsx:77 | the result of a submission does not depend on the chunk ids seen before it |
| DataStream.FailureBeforeBody | src/frontend/hooks/useDataStream.tsx:93-113 | when the request fails before a body is read, the messages are the given list and the failure is kept as the outcome |
| DataStream.EmptySubmitReported | src/frontend/hooks/useDataStream.tsx:97 | submitting an empty list throws a `TypeError`, which is reported |
| DataStream.ReportRule | src/frontend/hooks/useDataStream.tsx:217-223 | an abort is never reported, nor is a thrown non-`Error`; any other error is reported exactly once |
| DataStream.OpenRunCarriesOver | src/frontend/hooks/useDataStream.tsx:50 | the flag is not reset by `submit`: with a run left open, the next submission's first token extends the last given message |
| DataStream.OneFramedRead | src/frontend/hooks/useDataStream.tsx:123-127 | one read holding one framed line yields that line as the only block |
| DataStream.OneBlock | src/frontend/hooks/useDataStream.tsx:129-213 | a batch of one data block delivers that block's parse |
| DataStream.AbortController.constructor | src/frontend/hooks/useDataStream.tsx:75 | a new controller is not aborted |
| DataStream.AbortController.Abort | src/frontend/hooks/useDataStream.tsx:71-73 | the controller is aborted afterwards, and aborting twice is the same as once |
| DataStream.DataStreamHook.constructor | src/frontend/hooks/useDataStream.tsx:36-50 | the hook starts with the thread's stored messages, no events, not loading, no controller, an empty seen set and the flag clear |
| DataStream.DataStreamHook.Begin | src/frontend/hooks/useDataStream.tsx:71-82 | the previous controller is aborted and a fresh one installed; the seen set is cleared, loading is set, the messages are replaced and the events cleared; the flag is kept |
| DataStream.DataStreamHook.Apply | src/frontend/hooks/useDataStream.tsx:143-213 | the state after one parsed block is `Deliver` of the state before; nothing else changes |
| DataStream.DataStreamHook.Block | src/frontend/hooks/useDataStream.tsx:130-213 | one iteration of the block loop: it signals a stop exactly on the marker, delivers exactly the data blocks and leaves skipped blocks alone |
| DataStream.DataStreamHook.RunBatch | src/frontend/hooks/useDataStream.tsx:129-214 | the block loop leaves the state `RunBlocks` gives for the batch |
| DataStream.DataStreamHook.Read | src/frontend/hooks/useDataStream.tsx:123-127 | after one read, the complete blocks have been handled and the returned buffer is the last piece |
| DataStream.DataStreamHook.Finish | src/frontend/hooks/useDataStream.tsx:217-227 | the outcome is reported when it should be, then loading and the controller are cleared |
| DataStream.DataStreamHook.ReadAll | src/frontend/hooks/useDataStream.tsx:116-215 | the read loop leaves the state `RunBatches` gives over the reads' batches, and the final buffer |
| DataStream.DataStreamHook.Submit | src/frontend/hooks/useDataStream.tsx:66-228 | a whole `submit`: the old controller is aborted, the state is `Submitted`, the outcome is reported per `ReportsOf`, and loading and the controller end cleared |
| DataStream.DataStreamHook.Stop | src/frontend/hooks/useDataStream.tsx:230-235 | `stop` aborts the current controller, if any, and clears loading; nothing else changes |
| Messages.FirstMatch | src/frontend/hooks/useDataStream.tsx:179 | `find` by id: the index of the first call with the id, or none when no call has it |
| Messages.SetResult | src/frontend/services/agent-rest.ts:25-28 | only the first call with the id gets the result; the others are unchanged |
| Messages.AttachResult | src/frontend/hooks/useDataStream.tsx:176-185 | no message is added, removed or moved; only the first matching call of each AI message with calls gets the result |
| Messages.AttachKeepsShape | src/frontend/services/agent-rest.ts:21-31 | attaching a result changes no message apart from call results |
| Messages.AttachUnmatched | src/frontend/services/agent-rest.ts:26 | a result whose id matches no call changes nothing |
| Messages.AttachOverwrites | src/frontend/services/agent-rest.ts:27 | a second result for the same id overwrites the first |
| Messages.AttachAppend | src/frontend/services/agent-rest.ts:21-31 | attaching distributes over concatenation of transcripts |
| Messages.AttachAll | src/frontend/hooks/useDataStream.tsx:177-184 | the message loop computes `AttachResult` |
| AgentRest.NonTool | src/frontend/services/agent-rest.ts:15-16 | keeps the non-tool messages, in order |
| AgentRest.Absorb | src/frontend/services/agent-rest.ts:14-33 | one message of the loop: a non-tool message is appended as it is, a tool message adds nothing to the list |
| AgentRest.AbsorbKeeps | src/frontend/services/agent-rest.ts:14-33 | absorbing a message never changes the sender, content or id of a message already combined |
| AgentRest.Combined | src/frontend/services/agent-rest.ts:12-36 | the combined transcript is never longer than the stored messages |
| AgentRest.CombinedHasNoTool | src/frontend/services/agent-rest.ts:15-16 | no tool message reaches the combined transcript |
| AgentRest.WriteResult | src/frontend/services/agent-rest.ts:19-31 | the inner loop writes the tool message's content as the result of the first call with its id in each AI message, exactly as one absorption step does |
| AgentRest.CombineToolCallAndResult | src/frontend/services/agent-rest.ts:12-36 | the loop computes `Combined`, the messages absorbed from first to last |
| AgentRest.CombinedShape | src/frontend/services/agent-rest.ts:14-17 | the output is the input without its tool messages: same order, and each kept message unchanged except for call results |
| AgentRest.CombinedWithoutTools | src/frontend/services/agent-rest.ts:15-16 | a transcript without tool messages passes through unchanged |
| AgentRest.NoCallKept | src/frontend/services/agent-rest.ts:14-34 | combining introduces no call id that was not in the input |
| AgentRest.ResultBeforeCall | src/frontend/services/agent-rest.ts:21 | a result arriving before its call is never attached |
| AgentRest.ResultWithoutId | src/frontend/services/agent-rest.ts:23 | a tool message without a usable `tool_call_id` is dropped and attaches nothing |
| AgentRest.LaterResultWins | src/frontend/services/agent-rest.ts:27 | of two results with the same id, the later one stays |
| AgentRest.CallThenResult | src/frontend/services/agent-rest.ts:12-36 | a call followed by its result: the call is kept with the result on it, and earlier messages are unchanged |
| AgentRest.TransformThreads | src/frontend/services/agent-rest.ts:83-88 | each thread keeps its id and its place; only its messages are replaced by the combined list |
| AgentRest.CombineThread | src/frontend/services/agent-rest.ts:84-87 | one thread keeps its id, and its messages become as many as its non-tool messages |
| EventGrouping.RunEnd | src/frontend/components/StreamEventRenderer.tsx:36-45 | the end of a maximal token run: every event before it is a token, and the event at it is not |
| EventGrouping.GroupFrom | src/frontend/components/StreamEventRenderer.tsx:35-66 | no more entries than events, and the first entry is keyed by its event: a group key for a token, the event's own key otherwise |
| EventGrouping.NoAdjacentGroups | src/frontend/components/StreamEventRenderer.tsx:36-54 | runs are maximal: two group entries never follow each other |
| EventGrouping.Contents | src/frontend/components/StreamEventRenderer.tsx:42 | the contents of a range of events, in order |
| EventGrouping.Visit | src/frontend/components/StreamEventRenderer.tsx:35-66 | one callback keeps the loop invariant: either no run is open and the entries emitted so far, followed by those from here on, are the whole result, or a run is open and its start and contents are right |
| EventGrouping.GroupEvents | src/frontend/components/StreamEventRenderer.tsx:31-75 | the loop and the final flush produce `GroupFrom(events, 0)`, the run-by-run specification |
| EventGrouping.RunCounts | src/frontend/components/StreamEventRenderer.tsx:36-54 | a run counts as one run, and holds no non-token event |
| EventGrouping.GroupCount | src/frontend/components/StreamEventRenderer.tsx:35-75 | output length: the number of non-token events plus the number of token runs |
| EventGrouping.SinglesSkipRun | src/frontend/components/StreamEventRenderer.tsx:36-42 | a token run adds no entry of its own |
| EventGrouping.SinglesInOrder | src/frontend/components/StreamEventRenderer.tsx:56-64 | every non-token event appears exactly once, in original order, keyed by its type and index |
| EventGrouping.GroupsAreRuns | src/frontend/components/StreamEventRenderer.tsx:38-54 | each group comes from a maximal run and is keyed by the run's first index; it carries the run's contents joined, has the stamp of the event ending the run, and is followed by that event's entry; so no two groups are adjacent |
| EventGrouping.Toggle | src/frontend/components/StreamEventRenderer.tsx:77-87 | the id's membership flips; every other id stays |
| EventGrouping.ToggleTwice | src/frontend/components/StreamEventRenderer.tsx:77-87 | toggling the same id twice restores the set |
| ChatTypes.FindChat | src/frontend/contexts/ChatContext.tsx:180 | `find` by id: a chat is found exactly when some chat has the id, and the one found is the first with it |
| ChatContext.UpdateAll | src/frontend/contexts/ChatContext.tsx:45-49 | length and order are kept; only chats with the id get the updates merged |
| ChatContext.Merge | src/frontend/contexts/ChatContext.tsx:45-49 | no contract of its own; its properties are UpdateAll, UpdateIdempotent and FindAfterUpdate: the spread keeps the id and takes each given field |
| ChatContext.Without | src/frontend/contexts/ChatContext.tsx:55 | the filter never lengthens the list |
| ChatContext.WithoutRemoves | src/frontend/contexts/ChatContext.tsx:55 | no chat with the id is left, and with none there, the list is unchanged |
| ChatContext.ChatReducer | src/frontend/contexts/ChatContext.tsx:28-61 | each action changes only its own field: `ADD_CHAT` prepends, `UPDATE_CHAT` merges in place, `DELETE_CHAT` filters, and an unknown action changes none |
| ChatContext.UnrecognisedIsNoOp | src/frontend/contexts/ChatContext.tsx:58-59 | an unknown action returns the state unchanged |
| ChatContext.DeleteSplits | src/frontend/contexts/ChatContext.tsx:52-56 | the chats kept and the chats removed make up the old list |
| ChatContext.WithoutEmpty | src/frontend/contexts/ChatContext.tsx:158 | deleting leaves nothing exactly when every chat had the id |
| ChatContext.DeleteAppend | src/frontend/contexts/ChatContext.tsx:55 | deleting distributes over concatenation, so the kept chats stay in order |
| ChatContext.AddThenDelete | src/frontend/contexts/ChatContext.tsx:39-56 | adding a chat with a new id and deleting that id restores the state |
| ChatContext.UpdateIdempotent | src/frontend/contexts/ChatContext.tsx:42-50 | applying the same update twice is applying it once |
| ChatContext.UpdateMissing | src/frontend/contexts/ChatContext.tsx:45-49 | an update for an absent id changes nothing |
| ChatContext.FindAfterUpdate | src/frontend/contexts/ChatContext.tsx:42-50 | after an update, the first chat with the id is the old first one with the updates merged |
| ChatContext.GenerateChatTitle | src/frontend/contexts/ChatContext.tsx:64-70 | over 40 trimmed characters gives the first 40 plus `...`; otherwise the trimmed content, or `New Chat` when it is empty |
| ChatContext.TitleIsFixedPoint | src/frontend/contexts/ChatContext.tsx:64-70 | a generated title is its own trim and its own title |
| ChatContext.RenameTitle | src/frontend/contexts/ChatContext.tsx:166 | the trimmed title, or `Untitled Chat` when it is blank |
| ChatContext.RenameTitleStable | src/frontend/contexts/ChatContext.tsx:166 | a stored title is never blank, and renaming to it again keeps it |
| ChatContext.RenameChat | src/frontend/contexts/ChatContext.tsx:165-171 | dispatches one update of the title alone, for that id |
| ChatContext.RenameEffect | src/frontend/contexts/ChatContext.tsx:165-171 | renaming sets the title of every chat with the id and changes nothing else |
| ChatContext.UpdateChatMessages | src/frontend/contexts/ChatContext.tsx:173-190 | always replaces the messages and the time; re-titles and re-previews exactly when the chat is still `New Chat` and messages arrived; throws when that first content is not a string |
| ChatContext.RetitledOnce | src/frontend/contexts/ChatContext.tsx:179-184 | once re-titled, later messages no longer touch the title or the preview |
| ChatContext.CreateNewChat | src/frontend/contexts/ChatContext.tsx:134-152 | the new chat is prepended and the error is cleared |
| ChatContext.NewChat | src/frontend/contexts/ChatContext.tsx:136-143 | no contract of its own; its properties are CreateNewChat and NewChatRetitles |
| ChatContext.NewChatRetitles | src/frontend/contexts/ChatContext.tsx:136-143 | the first messages sent to a new chat re-title it |
| ChatContext.DeleteChatEffect | src/frontend/contexts/ChatContext.tsx:154-163 | the chat is deleted, and storage is cleared exactly when every chat had the id |
| ChatContext.FirstHuman | src/frontend/contexts/ChatContext.tsx:109 | the index of the first human message, or none when there is none |
| ChatContext.HistoryTitle | src/frontend/contexts/ChatContext.tsx:106-110 | `New Chat` for no messages; otherwise the content of the first human message, undefined when there is none |
| ChatContext.HistoryChat | src/frontend/contexts/ChatContext.tsx:104-118 | a thread becomes a chat with its id and messages, preview equal to title |
| ChatContext.LoadUserHistory | src/frontend/contexts/ChatContext.tsx:99-128 | on success the combined threads replace the chats one for one; on failure the chats stay; loading ends either way |
| ChatContext.HistoryWithoutTools | src/frontend/contexts/ChatContext.tsx:102-118 | a loaded chat shows no tool message |
| ChatContext.MountLoad | src/frontend/contexts/ChatContext.tsx:85-89 | the stored chats are shown and loading ends |
| ChatStorage.SerializeAll | src/frontend/services/chatStorage.ts:13 | each chat is serialized, in order |
| ChatStorage.WriteStamp | src/frontend/services/chatStorage.ts:13 | no contract of its own; its properties are Revive and SettledExact: a valid date is written as an ISO text that revives to the same instant |
| ChatStorage.ReviveStamp | src/frontend/services/chatStorage.ts:65 | no contract of its own; its properties are Revive and UndatedDrifts: an ISO text revives to its instant, a missing one to an invalid date, `null` to time 0 |
| ChatStorage.Keeps | src/frontend/services/chatStorage.ts:62 | no contract of its own; its properties are Serialize, LoadList and UntitledThreadDropped: the filter keeps a chat exactly when its id and title are truthy |
| ChatStorage.Serialize | src/frontend/services/chatStorage.ts:13 | a stored chat passes the load filter exactly when its id and title are truthy, and a dated chat with activities is revived unchanged |
| ChatStorage.Revive | src/frontend/services/chatStorage.ts:63-68 | the id, title and preview are kept, activities default to empty, an ISO date is revived to the same instant and a missing one becomes an invalid date |
| ChatStorage.LoadList | src/frontend/services/chatStorage.ts:61-68 | every loaded chat has an id, a truthy title and an activity record; none is added |
| ChatStorage.Loaded | src/frontend/services/chatStorage.ts:53-74 | nothing stored or corrupt data loads as `[]` |
| ChatStorage.AfterLoad | src/frontend/services/chatStorage.ts:69-73 | corrupt data is cleared; any other slot is untouched |
| ChatStorage.IndexOf | src/frontend/services/chatStorage.ts:34 | `find` by thread id: the first chat with the id, or none |
| ChatStorage.SaveOk | src/frontend/services/chatStorage.ts:10-29 | no contract of its own; its properties are SaveFailure and SaveChats: `saveChats` fails exactly when both writes are refused |
| ChatStorage.ThreadChat | src/frontend/services/chatStorage.ts:37-46 | no contract of its own; its properties are UpsertNew: the new chat is titled and previewed with the last message's content |
| ChatStorage.SavedSlot | src/frontend/services/chatStorage.ts:10-29 | a failed save leaves the slot as it was; a successful one holds the first chats of the list, at most the cap of them, serialized in order |
| ChatStorage.Upserted | src/frontend/services/chatStorage.ts:31-48 | an existing thread keeps the length, a new one adds exactly one chat; every chat keeps its id and the thread's id is then present |
| ChatStorage.ChatStorageService.constructor | src/frontend/services/chatStorage.ts:110 | the service starts over the given slot |
| ChatStorage.ChatStorageService.SaveChats | src/frontend/services/chatStorage.ts:10-29 | the result and the new slot are those of `SaveOk` and `SavedSlot` |
| ChatStorage.ChatStorageService.LoadChats | src/frontend/services/chatStorage.ts:53-74 | returns `Loaded` of the slot and clears corrupt data |
| ChatStorage.ChatStorageService.SaveChatByThreadId | src/frontend/services/chatStorage.ts:31-48 | loads, upserts the thread and saves the result |
| ChatStorage.ChatStorageService.ClearChats | src/frontend/services/chatStorage.ts:81-87 | the slot is empty afterwards |
| ChatStorage.LoadSerialized | src/frontend/services/chatStorage.ts:10-68 | loading serialized chats gives the valid ones, settled by JSON, in order |
| ChatStorage.SaveThenLoad | src/frontend/services/chatStorage.ts:10-74 | after a save whose first write fits, a load returns the first min(n, 50) chats that have an id and a title, in order |
| ChatStorage.SettledExact | src/frontend/services/chatStorage.ts:63-68 | a dated chat with activities survives a save and a load unchanged |
| ChatStorage.UndatedDrifts | src/frontend/services/chatStorage.ts:65 | an undated chat comes back with an invalid date, then with time 0, and then stays |
| ChatStorage.SaveFailure | src/frontend/services/chatStorage.ts:10-29 | a save fails exactly when both writes were refused, and then the slot is unchanged |
| ChatStorage.RetryKeepsHalf | src/frontend/services/chatStorage.ts:19-23 | after the retry, the slot holds the first 25 chats |
| ChatStorage.UpsertExisting | src/frontend/services/chatStorage.ts:34-36 | an existing thread: only the first matching chat's messages change; count and order stay |
| ChatStorage.UpsertNew | src/frontend/services/chatStorage.ts:37-46 | a new thread is appended at the end, with title and preview set to the last message's content and empty activities |
| ChatStorage.NewThreadCutOff | src/frontend/services/chatStorage.ts:10-47 | with 50 or more chats stored, a new thread is cut off by the slice, and the next load does not find it |
| ChatStorage.UntitledThreadDropped | src/frontend/services/chatStorage.ts:37-68 | a new thread whose last message has empty text is dropped by the next load |
| ChatStorage.ClearThenLoad | src/frontend/services/chatStorage.ts:53-87 | after clearing, a load finds nothing |
| AgentController.Reply.constructor | src/server/controllers/v1/agent.ts:14 | a response starts with an empty body and open |
| AgentController.Reply.Write | src/server/controllers/v1/agent.ts:164 | a write appends its chunk to the body |
| AgentController.Reply.End | src/server/controllers/v1/agent.ts:207 | ending keeps the body and closes the response |
| AgentController.WrittenIsTrimmed | src/server/controllers/v1/agent.ts:163 | a line is written exactly when its trim is non-empty |
| AgentController.Kept | src/server/controllers/v1/agent.ts:162-163 | the written lines are exactly the lines whose trim is non-empty: each kept line is such a line of the input, and every such input line is kept |
| AgentController.StreamLines | src/server/controllers/v1/agent.ts:161-181 | writes every non-blank line followed by a blank line, in order, and nothing else |
| AgentController.Framed | src/server/controllers/v1/agent.ts:162-164 | the loop writes nothing exactly when no line is kept |
| AgentController.FramedEndsBlank | src/server/controllers/v1/agent.ts:162-164 | whatever the loop writes ends with a blank line |
| AgentController.Frame | src/server/controllers/v1/agent.ts:161-168 | a call writes nothing exactly when no line of its text is kept |
| AgentController.HandleStreamPost | src/server/controllers/v1/agent.ts:184-207 | writes the sections in the fixed order: initial tokens, five calls each followed by text (the last by the summary), then ends the response |
| AgentController.FixtureBody | src/server/controllers/v1/agent.ts:184-204 | no contract of its own; its properties are HandleStreamPost, FreshBody and FixtureFramed: the sections framed in fixture order |
| AgentController.FreshBody | src/server/controllers/v1/agent.ts:184-204 | on a fresh response the body is the fixture's body |
| AgentController.FramedAppend | src/server/controllers/v1/agent.ts:161-181 | framing distributes over concatenation |
| AgentController.FramedDistributes | src/server/controllers/v1/agent.ts:162-164 | the framing of two lists of lines is the framing of the first followed by that of the second |
| AgentController.KeptDistributes | src/server/controllers/v1/agent.ts:162-163 | the kept lines of two lists are those of the first followed by those of the second |
| AgentController.LinesHaveNoNewline | src/server/controllers/v1/agent.ts:162 | the pieces of `split('\n')` hold no newline |
| AgentController.FramedSplit | src/server/controllers/v1/agent.ts:162-164 | cutting the framed text at blank lines gives back exactly the written lines, and an empty remainder |
| AgentController.FrameSplit | src/server/controllers/v1/agent.ts:161-168 | the same for one section's text |
| AgentController.FixtureFramed | src/server/controllers/v1/agent.ts:184-204 | the whole body is the framing of all the sections' lines |
| AgentController.WireRoundTrip | src/server/controllers/v1/agent.ts:161-204 | however the framed text is cut into reads, the client ends with an empty buffer and the transcript of the written lines handled as one batch |
| StreamScenario.RoundsMessages | src/server/controllers/v1/agent.ts:39-104 | each round adds its answered call, then one message for its tokens |
| StreamScenario.CallMessage | src/server/controllers/v1/agent.ts:40 | no contract of its own; its properties are OneRound and FixtureCalls: an AI message with empty text and one tool call |
| StreamScenario.ResultMessage | src/server/controllers/v1/agent.ts:42 | no contract of its own; its properties are OneRound: the tool message answering the call under its id |
| StreamScenario.OneRound | src/server/controllers/v1/agent.ts:39-53 | one round appends the call with its result on it, then one message holding its tokens |
| StreamScenario.RoundsDeliver | src/server/controllers/v1/agent.ts:39-145 | rounds with distinct ids absent from the transcript each add their answered call and one token message |
| StreamScenario.RoundsMessagesAt | src/server/controllers/v1/agent.ts:39-145 | call `i` sits at `2i`, and its tokens' message right after |
| StreamScenario.FixtureIdsDistinct | src/server/controllers/v1/agent.ts:39-104 | the fixture's call ids are usable and pairwise different |
| StreamScenario.FixtureTranscript | src/server/controllers/v1/agent.ts:20-148 | the fixture stream adds eleven AI messages: the opening text, then each of five calls with its result and the text after it; the closing message is not appended |
| StreamScenario.FixtureCalls | src/server/controllers/v1/agent.ts:39-104 | call `i` of the fixture is new message `1 + 2i`, with its result |
| StreamWire.ParseAll | src/frontend/hooks/useDataStream.tsx:144 | one parse per line, in order |
| StreamWire.ObjectClassified | src/frontend/hooks/useDataStream.tsx:130-144 | a JSON object line reaches the parser as it is |
| StreamWire.ObjectsNoStop | src/frontend/hooks/useDataStream.tsx:139 | no object line is the end marker |
| StreamWire.ObjectsRun | src/frontend/hooks/useDataStream.tsx:129-214 | a batch of object lines delivers their parses in order |
| StreamWire.ObjectsThenDone | src/server/controllers/v1/agent.ts:146-148 | the end marker after the objects ends the stream and adds nothing |
| StreamWire.FramedSubmitted | src/frontend/hooks/useDataStream.tsx:66-228 | a submission reading framed object lines and the marker, cut into reads in any way, delivers their parses in order and ends without an error |
| StreamWire.BodySubmitted | src/frontend/hooks/useDataStream.tsx:116-215 | a body that ends normally folds its batches into the given messages |
| StreamWire.FixtureOutcome | src/server/controllers/v1/agent.ts:20-148 | the fixture's chunks after the given messages give eleven new messages and a clear flag |
| StreamWire.FixtureOverTheWire | src/server/controllers/v1/agent.ts:184-207 | end to end over the wire: the given messages then the eleven the fixture builds, with no error |
| HistoryFixture.SegmentTranscript | src/server/controllers/v1/agent.ts:218-427 | one shown message per segment |
| HistoryFixture.CombinedSegments | src/frontend/services/agent-rest.ts:12-36 | combining the stored messages of well-formed segments gives their transcript, each call answered |
| HistoryFixture.SegmentTranscriptAt | src/server/controllers/v1/agent.ts:218-427 | entry `i` is segment `i`'s message, answered for a call |
| HistoryFixture.TranscriptWithoutTools | src/frontend/services/agent-rest.ts:15-16 | the transcript holds no tool message |
| HistoryFixture.HistorySegments | src/server/controllers/v1/agent.ts:218-427 | the history is eleven segments |
| HistoryFixture.HandleHistoryGet | src/server/controllers/v1/agent.ts:210-432 | any thread but the known one gets `[]` |
| HistoryFixture.HistoryAsks | src/server/controllers/v1/agent.ts:218-427 | segments 1-4 and 7-9 are the calls |
| HistoryFixture.HistoryWellFormed | src/server/controllers/v1/agent.ts:233-419 | the seven call ids are usable and pairwise different, and no other message is a tool message or calls a tool |
| HistoryFixture.HistoryLength | src/server/controllers/v1/agent.ts:218-427 | the known thread stores eighteen messages |
| HistoryFixture.HistoryCombined | src/server/controllers/v1/agent.ts:217-432 | combined, the known thread shows eleven messages, none a tool message, the first question first |
| HistoryFixture.HistoryCallAnswered | src/server/controllers/v1/agent.ts:227-419 | call `i` carries its result and keeps its name, id and arguments |
| HistoryFixture.HistoryLoaded | src/frontend/contexts/ChatContext.tsx:104-118 | for a thread object carrying its messages under `messages` (not the bare array the endpoint sends), loading the known thread gives one chat titled and previewed with the first question and its eleven combined messages |
| HistoryFixture.OtherThreadEmpty | src/server/controllers/v1/agent.ts:429-431 | any other thread combines to nothing |
| RefreshableToken.FloorDiv | src/frontend/hooks/useRefreshableToken.tsx:9-12 | `Math.floor(x / k)`: the quotient rounded down |
| RefreshableToken.TokenStatus | src/frontend/hooks/useRefreshableToken.tsx:3-34 | no date shows "no token", a NaN date shows `NaN` days, and "expired" shows exactly when under one second is left; both of those are red |
| RefreshableToken.RefreshDue | src/frontend/hooks/useRefreshableToken.tsx:48-51 | a refresh is due only for a valid date at most thirty seconds away |
| RefreshableToken.Bands | src/frontend/hooks/useRefreshableToken.tsx:9-33 | in seconds left, exactly one band applies, and each label carries the whole count of its unit within the band's range |
| RefreshableToken.Colors | src/frontend/hooks/useRefreshableToken.tsx:14-33 | red when expired or 1-15 minutes are left, yellow under a minute or from 15 minutes to 2 hours, green from 2 hours on |
| RefreshableToken.UrgencyNotMonotone | src/frontend/hooks/useRefreshableToken.tsx:16-22 | thirty seconds left shows yellow, five minutes left shows red |
| RefreshableToken.UnreadableDates | src/frontend/hooks/useRefreshableToken.tsx:3-34 | a missing date shows no token in red; an unparsable date falls through to days left in green |
| RefreshableToken.DueWithinThirtySeconds | src/frontend/hooks/useRefreshableToken.tsx:48-51 | a refresh is due once fewer than thirty whole seconds are left, never while more than thirty are, and only while the status shows seconds or expired |
| RefreshableToken.Accepted | src/frontend/hooks/useRefreshableToken.tsx:56-59 | no contract of its own; its properties are TokenHook.Tick: only a `RefreshedToken` reply installs the new token and expiry |
| RefreshableToken.TokenHook.constructor | src/frontend/hooks/useRefreshableToken.tsx:37-39 | the hook starts from the page's token and expiry, showing no token in red |
| RefreshableToken.TokenHook.UpdateStatus | src/frontend/hooks/useRefreshableToken.tsx:42-44 | the status is recomputed from the expiry; nothing else changes |
| RefreshableToken.TokenHook.Tick | src/frontend/hooks/useRefreshableToken.tsx:47-63 | a refresh is asked exactly when now + 30000 reaches the expiry; token and expiry change only on a `RefreshedToken` reply |
| Text.SplitOn | src/frontend/hooks/useDataStream.tsx:125 | `split` on a string separator yields at least one piece |
| Text.SplitJoin | src/frontend/hooks/useDataStream.tsx:125 | the pieces join back to the text and none holds the separator |
| Text.JoinSplit | src/frontend/hooks/useDataStream.tsx:125 | joining the pieces with the separator gives back the text |
| Text.SplitPiecesFree | src/frontend/hooks/useDataStream.tsx:125 | no piece contains the separator |
| Text.SplitAppend | src/frontend/hooks/useDataStream.tsx:123-127 | appending text affects only the last piece |
| Text.TrimSpec | src/frontend/hooks/useDataStream.tsx:130 | `trim` removes white space at both ends only, and is empty exactly for all-space text |
| Text.TrimIdempotent | src/frontend/contexts/ChatContext.tsx:66 | trimming twice is trimming once |

## Left out

- `JSON.parse` and `JSON.stringify` are parameters or datatypes. A parsed block is `Parsed`, with a `Malformed` case. Storage holds serialized chats as `StoredChat` values. Fixture payloads such as results and arguments are opaque `Json` labels, and the fixture's token texts are parameters.
- `fetch`, `ReadableStream`, `TextDecoder` and `AbortController` are foreign. A response is a `Response` value: a rejection, a bad status, no body, or an already-decoded sequence of reads followed by `done` or a rejected read. Abort is a flag on a controller object.
- React state, effects, callbacks and scheduling run as plain sequential updates. Functional `setMessages` updaters apply immediately.
- The `setInterval` cadence, the `delay()` pacing, the response headers and all logging are left out.
- Fresh values are parameters: message ids from `Date.now()` and `Math.random()` become the counter-based `MessageId.Fresh`, and `uuidv4` ids and the current time are passed in.
- The hook's calls into chat storage are not composed with the hook: the initial load at line 38, and the saves at lines 55 and 81 of `useDataStream.tsx`. `ChatStorage` models those operations on their own.
- `streamEvents` is only cleared. It is never filled in the hook's code.
- Tool-call objects shared between the input and the output are not modelled as aliases. Writing a result is a value update.
- Concurrent `submit` calls are left out, beyond aborting the previous controller.
- `localStorage` quota failure is the parameter `fits`, which decides each write.
- `getStorageInfo` is a debugging report over the same slot; it is not modelled.
- `updateChatActivities`, `clearError`, `setError` and `getChatById` of the chat context only dispatch actions already modelled; they are not modelled themselves.
- Labels of the token status are kept as a datatype. Number-to-text formatting is not modelled.
- NaN dates are modelled only as the `NaN` time value and the `Invalid` stamp. Date parsing is the parameter `parseDate`.
- The history endpoint answers with a bare array. The client reads `.messages` from it and sets `.id`. The model gives each thread its messages as the loader expects and does not model the mismatch.
- `streamToolCall` differs from `streamTokens` only in its pauses. Both are `StreamLines`.
- TranscriptReducer.AppendToLast: appending a token when the list is empty throws in JavaScript inside a React updater; the model leaves the list unchanged.
- A structured value's string form (what `+` makes of it, `[object Object]` for a plain object) is the `shown` field of `Json`, given with the value rather than computed.
- Characters are Dafny `char`s, not UTF-16 code units. For text outside the Basic Multilingual Plane, the 40-character title cut of `generateChatTitle` and the 60-character preview cut count differently from JavaScript, which may cut inside a surrogate pair.
- The effect at lines 92-96 of `ChatContext.tsx`, which saves the list to storage whenever a non-empty list changes, is not composed with the reducer. The save itself is `ChatStorage.ChatStorageService.SaveChats`.
- Chunk ids are modelled as optional integers. Non-numeric ids are not modelled.
- An accepted refresh reply is modelled with its `token.access_token` and `token.expires_at` present. A reply missing `data.token` is not modelled.
- The UI components that only render are not modelled.
- `StreamScenario.FixtureTranscript`: the run lengths and the call ids are the fixture's, but the token texts and the payloads are parameters, not the literal strings.
