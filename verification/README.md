# A verified model of the proxy's streaming, reliability, storage and routing core

The proxy translates between model APIs. Most of it moves bytes; the hard part is a handful of small state machines.
This project models those state machines in Dafny and proves what they promise over whole runs. Go objects that update
their fields are classes whose methods are proved against functions on values; the theorems are lemmas about those
functions, over every input, every cutting into chunks and every reachable state unless a condition is named. Where a
promise does not hold of the code, the exact condition under which it does is proved.

| group | files |
|---|---|
| Thinking-tag parser, streaming and batch | `Strings`, `Tags`, `Normalizer`, `Reference`, `Refinement`, `ChunkedStream`, `CutTags`, `StrayText`, `StreamGuarantees`, `BatchNormalizer`, `BatchAgreement` |
| Anthropic event stream | `Chunks`, `AnthropicStream`, `AnthropicTrace`, `AnthropicContent`, `AnthropicTyping`, `AnthropicOrder`, `AnthropicEnding`, `Heard`, `AnthropicSequence`, `AnthropicEnvelope` |
| Responses event stream | `ResponsesStream`, `ResponsesTranslator`, `ResponsesSnapshot`, `ResponsesItems`, `ResponsesCustom`, `ResponsesEnding`, `ResponsesSequence`, `ResponsesFrames`, `ResponsesEnvelope` |
| Streamed against buffered, Gemini | `SseBuffer`, `ToolAgreement`, `BufferedAgreement`, `EndToEnd`, `GeminiStream` |
| Durable response store | `StoreModel`, `StoreRecovery`, `StoreLifetimes`, `StoreGrowth`, `StoreFaults`, `FileStore` |
| Circuit breaker, retries, failover | `CircuitBreaker`, `BreakerRuns`, `Executor`, `Failover`, `FailoverRuns` |
| Rate limiter | `RateLimiter`, `RateRuns` |
| Router | `ModelPattern`, `Rotation`, `Router` |

## What turned out not to hold as one might expect

- A closing tag cut by a chunk boundary is missed; the blocks come out right if and only if no closing tag that closes a
  block is cut (`BlocksIffUncut`). The comments on the buffers only speak of opening tags.
- Text in front of a stray closing tag in the same buffer is thrown away (`ContentComplete` says exactly when).
- `Flush` drops the withheld opening fragment together with the whole buffer it came in (`CompleteStream`,
  `TrailingFragmentLosesBuffer`).
- A finish chunk does not flush the Anthropic and Responses normalisers, and later chunks are still translated, so events
  may follow `message_stop` and `response.completed`: `StopLastIff` and `CompletedLastIff` give the exact condition on what
  the run does, `StopLastOnChunks` and `CompletedLastOnChunks` on what upstream sends; one chunk cut off inside a think block
  is enough (`CutOffThinking`). A tool call behind the first finish is in the buffered answer but in no closing event
  (`LateToolCall`).
- A text delta may land in an open tool block. `TypedIff` gives the exact order of actions, `OrderlyTypedIff` what upstream
  has to keep chunk by chunk, with the one late flush that still spoils it.
- Arguments that arrive after reasoning has closed the tool_use block go out under another block's index and are lost to a
  client that reads blocks by index (`AnthropicCalls`, `CallsAtEnd`, `ToolCallsAgree`).
- A second finish chunk makes the Gemini translator start over, so its calls differ from the buffered ones unless the
  earlier ones are superseded (`GeminiMatchesBufferedIff`).
- The batch parser leaves a trailing block that never ends in the content, where the stream sends it as reasoning
  (`StreamMatchesBatch`, `BufferedMatchesStreamed`); and it removes an opening tag that dropping a stray closing tag has
  put together (`StrayTagsRemoved`, `JoinedTagRemoved`).
- A tool call that interrupts reasoning leaves it without `response.reasoning_text.done` (`ReasoningEndsIff`); at a finish
  behind text that event carries the output index behind the one of its deltas (`Frames`).
- Custom-tool deltas of JSON arguments in several fragments are spoiled by the raw text streamed first (`FaithfulIff`,
  `FinalIff`, `JsonInTwoFragments`).
- `response.output_item.added` indices of tools go stale when text starts after the first tool (`AddedIndicesOfRun`).
- The rate bound and the invisibility of clean-ups need burst <= 5 * requests per minute (`RateBoundIff`,
  `CleanupInvisibleIff`).
- The log is compacted by counting evictions, so stores that repeat an id below the capacity let it grow without end
  (`GrowthLaw`, `OneIdGrows`).
- A failed append goes unnoticed: memory shows the store, a restart need not (`FailedAppends` says what it shows,
  `UnwrittenLookup` when it does).
- Two stores of an id with the same time: whether the second one is recovered is decided by `TieRecoveredIff` and
  `TieLookupIff`.
- One-star patterns accept overlapping prefix and suffix (`OneStar`, `OverlapAccepted`).
- After 2^63 calls the router can panic (`PanicIff`).
- All backends share one breaker, so failing targets can shut out a healthy one in the middle of a failover
  (`ReachedIff`); a plain 500 never opens the circuit on the non-streaming path (`PlainServerErrors`).
- With the default settings the 37th retry and later ones need not wait at all (`WaitsIff`, `DefaultBackoffOverflows`).

## Model

| member | source | states |
|---|---|---|
| Tags.FindClosingTag | internal/translator/normalize.go:127-142 | The position returned holds a closing tag of that length and none starts earlier; -1 means that there is none. |
| Tags.FindOpeningTag | internal/translator/normalize.go:145-161 | The same for opening tags. |
| Tags.StandaloneClosingTag | internal/translator/normalize.go:163-196 | True exactly if the first closing tag has no opening tag before it; the offset is its end. |
| Tags.IncompleteOpenTagIff | internal/translator/normalize.go:298-317 | The listed fragments are exactly the suffixes that more text could complete to an opening tag. |
| Normalizer.StreamNormalizer.ProcessChunk | internal/translator/normalize.go:199-215 | One delta: state, callbacks in order and accumulated reasoning are those of the step function; `contentBuffer` stays empty. |
| Normalizer.StreamNormalizer.ProcessContentChunk | internal/translator/normalize.go:218-294 | The scanning loop computes the recursive scan of the withheld fragment and the chunk. |
| Normalizer.StreamNormalizer.Flush | internal/translator/normalize.go:320-330 | An unfinished block goes out as reasoning; a withheld fragment stays where it is. |
| ChunkedStream.ChunkRefinement | internal/translator/normalize.go:218-294 | For any text and any chunking that cuts no closing tag, opening tags cut anywhere: blocks, open block, mode, stray tags and outside text equal those of a whole-text parser, and texts and blocks come in the order in which it reads them. |
| CutTags.BlocksIffUncut | internal/translator/normalize.go:226-231 | On every text, stray closing tags or not, the stream finds the right blocks if and only if no chunk boundary falls inside a closing tag that closes a block. |
| CutTags.WithoutStrays | internal/translator/normalize.go:226-231 | Without stray closing tags that means that no closing tag is cut at all. |
| ChunkedStream.ContentIff | internal/translator/normalize.go:245-248 | If no closing tag is cut: content is the outside text exactly if no text was discarded, in particular if there is no stray closing tag. |
| StrayText.ContentComplete | internal/translator/normalize.go:243-248 | If no closing tag is cut, the same as a condition on the input: every stray closing tag stands at the front of the buffer it is read in or right behind another tag. |
| StreamGuarantees.WithholdsIff | internal/translator/normalize.go:250-262 | After any chunks, text is withheld exactly if the stream is outside a block and the text so far ends like an unfinished opening tag. |
| StreamGuarantees.CompleteStream | internal/translator/normalize.go:218-330 | If no closing tag is cut, with the flush: all blocks including the unfinished one; without stray closing tags also the whole outside text if and only if the text does not end, outside a block, in an unfinished opening tag. |
| StreamGuarantees.TrailingFragmentLosesBuffer | internal/translator/normalize.go:320-330 | A whole single-chunk text ending in `<` is lost at the flush. |
| StreamGuarantees.StreamNoLeak | internal/translator/normalize.go:218-294 | For every text and chunking no content fragment holds a complete tag, and no opening tag spans successive fragments unless a block was removed in between. |
| StreamGuarantees.JoinedFragments | internal/translator/normalize.go:218-294 | So a client that joins adjacent fragments never reads an opening tag. |
| StreamGuarantees.NonInterference | internal/translator/normalize.go:199-330 | Content and parser state depend only on the content arguments and the flushes, never on the reasoning arguments. |
| StreamGuarantees.BackendReasoningWins | internal/translator/normalize.go:199-330 | After the first reasoning argument, the reasoning that comes out is exactly the reasoning arguments. |
| StreamGuarantees.ReasoningLeads | internal/translator/normalize.go:199-215 | Every run: what a delta with reasoning makes come out is that reasoning first and content alone behind it; from that delta on, itself included, the reasoning that comes out is exactly the reasoning arguments. |
| StreamGuarantees.InOrder | internal/translator/normalize.go:218-330 | Without backend reasoning, stray tags and cut closing tags: content and reasoning together spell the text in the order in which the whole-text parser reads it, but for what is withheld at the end. |
| BatchAgreement.BatchOnTidy | internal/translator/normalize.go:27-90 | NormalizeContent on text whose tags match in kind, stray closing tags and a block that never ends included, no `<think>` block starting with `<thinking>`, where the text without blocks and tags spells no tag: that text, trimmed, the unfinished block included; and the trimmed non-empty closed blocks joined by newlines, or the reasoning of the backend if there is any. |
| BatchAgreement.StrayTagsRemoved | internal/translator/normalize.go:86-90 | Text without an opening tag: no reasoning, and the content is the trimmed outside text of the whole-text parser if and only if dropping the stray closing tags puts no opening tag together. |
| BatchAgreement.JoinedTagRemoved | internal/translator/normalize.go:86-90 | A text where it is not: `<thi</think>nk>y`. |
| BatchAgreement.StreamMatchesBatch | internal/translator/normalize.go:27-90 | On such text, for every chunking that cuts no closing tag: streaming and batch agree on the reasoning if and only if no block that is not blank is left open; without stray tags they agree on the trimmed content under the same condition if the text ends in a block, and otherwise if and only if it does not end in an unfinished opening tag. |
| BatchNormalizer.TrimLaw | internal/translator/normalize.go:86-90 | Trimming cuts off all spaces at both ends and nothing else. |
| BatchNormalizer.JoinAppend | internal/translator/normalize.go:79-81 | Joining puts the newline between any two neighbours. |
| AnthropicStream.StreamTranslator.ProcessChunk | internal/translator/stream.go:48-122 | One chunk appends to the trace, and changes the state, as the list of its actions does. |
| AnthropicStream.StreamTranslator.HandleNormalizedContent | internal/translator/stream.go:125-151 | Closes a thinking block, opens a text block unless one is open, and sends one text delta into the open block, whatever its kind. |
| AnthropicStream.StreamTranslator.HandleNormalizedReasoning | internal/translator/stream.go:154-176 | Opens a thinking block when not yet thinking, and sends one thinking delta; nothing if thinking is skipped. |
| AnthropicStream.StreamTranslator.HandleToolCalls | internal/translator/stream.go:85-111 | Each fragment with an id starts a block, each with arguments sends a delta into the open block. |
| AnthropicStream.StreamTranslator.Flush | internal/translator/stream.go:24-35 | Flushes the normaliser, then ends the message unless it has ended. |
| AnthropicTrace.TraceShape | internal/translator/stream.go:24-186 | Every run ended by Flush: one message_delta with message_stop right behind it, every block started before them stopped before them, blocks alternate with indices 0, 1, 2, ..., message_start first and once, or just the two closing events if no chunk with choices came. |
| AnthropicContent.Conservation | internal/translator/stream.go:80-177 | Every run: text deltas concatenate to the normaliser's content, thinking deltas to its reasoning (or to nothing if skipped), JSON deltas to all argument fragments. |
| Heard.ThoughtFirst | internal/translator/normalize.go:204-214 | A delta that brings reasoning makes a thought seen first, then text alone. |
| AnthropicSequence.InSequence | internal/translator/stream.go:80-177 | Every run: the text and thinking deltas, tool starts and argument deltas of the trace are, in order, what the chunks call for: chunk by chunk the speech of the normaliser before the tools, the flush last. |
| AnthropicEnvelope.Envelope | internal/translator/stream.go:62-121 | Every run: message_start has the id and model of the first chunk acted on; the message ends with the finish reason and usage of the first chunk that finishes it, or with end_turn and the usage of the last chunk that carried nothing else. |
| AnthropicTyping.TypedIff | internal/translator/stream.go:86-150 | Every delta of a run fits the kind of the open block if and only if the speech that the normaliser passes on, tool starts, arguments and finishes come in the order that `Proper` spells out. |
| AnthropicOrder.OrderlyTypedIff | internal/translator/stream.go:80-177 | On the chunks: if no text or reasoning comes in a chunk after the first tool call or finish, and arguments only while a tool call is open, every delta fits the kind of its block, unless the flush still holds an unfinished thinking block, a tool call or finish has come, and reasoning was the last thing said; exactly then not. |
| AnthropicOrder.ShutIff | internal/translator/stream.go:85-121 | A tool call or a finish has come exactly if some chunk carries a tool fragment with an id or a finish reason. |
| AnthropicEnding.StopLastIff | internal/translator/stream.go:114-121 | Every run: message_stop is the last event if and only if, behind the first finish, nothing is said and no tool call is started or continued, the final flush included. |
| AnthropicEnding.StopLastOnChunks | internal/translator/stream.go:24-35 | The same on the chunks: if and only if no chunk finishes the message, or the normaliser yields nothing for the chunks behind the first one that does (nothing but reasoning if thinking is skipped), those chunks bring no tool ids and no arguments, and no thinking block is unfinished at the end. |
| AnthropicEnding.FinishThenStop | internal/translator/stream.go:24-35 | If no chunk with choices comes behind the first finish: message_stop is last exactly unless a thinking block is unfinished at the finish. |
| AnthropicEnding.FlushStaysLast | internal/handler/handler.go:368 | In any finished state that ends in message_stop, the flush sends nothing behind it if and only if the normaliser holds no unfinished thinking block that would be sent. |
| AnthropicEnding.CutOffThinking | internal/translator/stream.go:24-35 | A run that goes on behind message_stop: one finish chunk, cut off inside a think block. |
| ResponsesTranslators.ResponsesStreamTranslator.ProcessChunk | internal/translator/responses_stream.go:67-118 | One chunk appends to the trace, and changes the state, as the list of its actions does. |
| ResponsesTranslators.ResponsesStreamTranslator.HandleText | internal/translator/responses_stream.go:294-345 | Ends reasoning, adds the message item before the first text, accumulates the text and sends it. |
| ResponsesTranslators.ResponsesStreamTranslator.HandleReasoning | internal/translator/responses_stream.go:256-292 | Adds a message item when reasoning starts, accumulates and sends the reasoning. |
| ResponsesTranslators.ResponsesStreamTranslator.HandleToolCalls | internal/translator/responses_stream.go:170-254 | Fragments with an id add a call; arguments go to the latest call whatever index they carry. |
| ResponsesTranslators.ResponsesStreamTranslator.Finish | internal/translator/responses_stream.go:347-478 | Closes text, reasoning and every call in order, then completes with the final output and marks the stream finished; the callers check that mark. |
| ResponsesTranslators.ResponsesStreamTranslator.Flush | internal/translator/responses_stream.go:44-49 | Flushes the normaliser, then finishes. |
| ResponsesSnapshot.FoldFacts | internal/translator/responses_stream.go:215-252 | A function call's arguments and its deltas are its fragments joined; a custom call has streamed at least as much as its final input is long. |
| ResponsesSnapshot.SnapshotTheorem | internal/translator/responses_stream.go:337-524 | Every run ended by Flush: one response.completed, its text and its function calls are the deltas before it joined, its calls are those added, the done items are its output, each with its position as index, its usage is that of the first finish, and the trace up to it is the finish of everything the run did before. |
| ResponsesSequence.InSequence | internal/translator/responses_stream.go:97-113 | Every run: the text and reasoning deltas and the tool starts of the trace are, in order, what the chunks call for, the flush last. |
| ResponsesSequence.Conservation | internal/translator/responses_stream.go:256-345 | Every run: over the whole trace the text deltas join to the content of the normaliser and the reasoning deltas to its reasoning. |
| ResponsesFrames.Frames | internal/translator/responses_stream.go:256-475 | Every run: up to response.completed all message events, announcements, deltas and ends, with their output and content indices, and the closing events of text, reasoning and calls in order, are fixed by the texts, the reasoning and the tool calls before the first finish. |
| ResponsesFrames.ReasoningEndsIff | internal/translator/responses_stream.go:170-174 | Every run: before the closing events each message event belongs to item 0 and to the part counted by the ends of reasoning before it; one part is announced for each beginning of reasoning and one for the text; every beginning has its end before the completion if and only if no tool call came while reasoning was open. |
| ResponsesEnvelope.Envelope | internal/translator/responses_stream.go:84-102 | Every run: created and completed once with the model of the first chunk acted on, completed with the usage of the first chunk that finishes it, or of the last one that carried nothing else. |
| ResponsesItems.ItemIdsOfRun | internal/translator/responses_stream.go:148-252 | Every run: until the message is completed, each delta of arguments or input carries the item id and the output index of its call, so with distinct item ids a client that goes by them reads the same texts. |
| ResponsesItems.SameById | internal/translator/responses_stream.go:152-164 | Reading such a trace by item id or by order gives the same calls, if the ids are distinct. |
| ResponsesCustom.StreamedLength | internal/translator/responses_stream.go:220-241 | For any extraction: what is streamed of a custom call is as long as the longest input extracted so far. |
| ResponsesCustom.FaithfulIff | internal/translator/responses_stream.go:220-241 | The deltas spell the extracted input at every moment if and only if extraction is prefix-monotone on the arguments seen. |
| ResponsesCustom.FinalIff | internal/translator/responses_stream.go:401-419 | At the end they spell input.done if and only if every extracted input that was longer than all before it added, beyond their length, what the final input has there. |
| ResponsesCustom.JsonInTwoFragments | internal/translator/responses.go:311-335 | Two fragments, the first not yet JSON: the stream is right only if the input begins with that raw text. |
| ResponsesCustom.CustomCallsOfRun | internal/translator/responses_stream.go:220-241 | In the trace of a run, each custom call's deltas and final item are those of its fragments. |
| ResponsesCustom.AddedIndicesOfRun | internal/translator/responses_stream.go:170-214 | Every run: in the output of response.completed each tool call stands under the index that it was added with if and only if there is no tool call, or no text, or text started before the first tool call. |
| ResponsesEnding.CompletedLastIff | internal/translator/responses_stream.go:67-118 | Every run: response.completed is the last event if and only if, behind the first finish, nothing is said, no tool call is started, and arguments that still come belong to no call or lengthen no extracted input of a custom tool, the final flush included. |
| ResponsesEnding.CompletedLastOnChunks | internal/translator/responses_stream.go:44-49 | The same on the chunks: if and only if no chunk finishes the message, or behind the first one that does the normaliser yields nothing, no unfinished block is left, no fragment has an id, and arguments come before any call or lengthen no extracted input of a custom tool. |
| ResponsesEnding.CutOffThinking | internal/translator/responses_stream.go:44-49 | A run that goes on behind response.completed: one finish chunk, cut off inside a think block. |
| SseBuffer.ParseChunks | internal/handler/sse_compat.go:54-151 | The accumulation loop computes the fold over all chunks; nothing if there is no chunk. |
| SseBuffer.Fragments | internal/handler/sse_compat.go:104-124 | Fragments are merged into the call of their index, new indices keep their order of arrival. |
| SseBuffer.ListCalls | internal/handler/sse_compat.go:138-142 | The calls come in the order of their first fragments. |
| SseBuffer.AnswerFields | internal/handler/sse_compat.go:57-149 | Every input: id and model are those of the last chunk, usage and finish reason those of the last chunk that has one. |
| ToolAgreement.AnthropicCalls | internal/translator/stream.go:85-111 | Every run, whole trace: the tool_use blocks, each with the JSON deltas of its index, are the calls obtained by giving each fragment to the call started last if and only if the arguments land: once a call has started, they come behind a tool start with no first finish, no start of reasoning and no text that ends reasoning in between. |
| ToolAgreement.CallsAtEnd | internal/translator/stream.go:85-121 | Every run, up to the end of the message: they are the calls of the chunks up to and including the first finish if the arguments before it land, and otherwise as many calls with arguments missing. |
| ToolAgreement.ReasoningLosesArguments | internal/translator/stream.go:154-176 | A run where that fails: a call, then reasoning, then its arguments. |
| ToolAgreement.OrderlyLands | internal/translator/stream.go:80-111 | If upstream keeps the order of `OrderlyTypedIff`, all arguments land. |
| ToolAgreement.CallsAtCompletion | internal/translator/responses_stream.go:489-524 | Every run: the tool items of the completed response are the final items of the calls of the chunks up to and including the first finish, each fragment given to the call started last. |
| ToolAgreement.ResponsesCalls | internal/translator/responses_stream.go:176-252 | Every run: the `toolCalls` slice after the flush holds the calls of all chunks. |
| BufferedAgreement.SameThroughoutIff | internal/handler/sse_compat.go:104-124 | The buffered calls, keyed by index, equal the streamed ones after every fragment if and only if each call is opened by the only id it carries, keeps its name and gets its arguments before the next call starts. |
| BufferedAgreement.ToolCallsAgree | internal/handler/sse_compat.go:104-142 | On such fragments, with no tools in keepalive chunks: what a client of the Anthropic stream reads until the message ends is the list of calls of the buffered answer if and only if no tool id or arguments come behind the first finish and the arguments before it land; the completed response holds the items of that list if and only if none come behind the first finish, or only arguments that leave the extracted input of a custom tool as it was. |
| BufferedAgreement.OrderlyToolCallsAgree | internal/handler/sse_compat.go:104-142 | If upstream also keeps the order, all three agree whenever no tool id or arguments come behind the first finish; the Anthropic stream exactly then. |
| BufferedAgreement.LateToolCall | internal/handler/handler.go:540-541 | A run where they differ: a chunk that only finishes, then a tool call; the buffered answer has it, the closing events of both streams do not. |
| EndToEnd.BufferedText | internal/handler/sse_compat.go:97-102 | For every input the buffered content is all content deltas joined, keepalives included, and the buffered reasoning all reasoning deltas joined. |
| EndToEnd.BufferedMatchesStreamed | internal/translator/response.go:25-47 | The same chunks, buffered and normalised as a whole or streamed chunk by chunk: without stray tags the same trimmed text if and only if an unfinished block is blank, or outside a block the text does not end in an unfinished opening tag, whatever reasoning the backend sends; if it sends none, the reasoning is the streamed blocks, trimmed and joined, if and only if an unfinished block is blank. |
| GeminiStream.GeminiStreamTranslator.ProcessChunk | internal/translator/gemini_stream.go:32-84 | One chunk: the client has seen the texts and thoughts of the normaliser on the inputs so far, marked as what they are; at a finish all speech stands before each named call of the buffered answer to the chunks since the finish before, once each, then the finish; the maps start over. |
| GeminiStream.GeminiStreamTranslator.Flush | internal/translator/gemini_stream.go:115-117 | Sends what the normaliser holds; nothing if a finish was the last thing with choices. |
| GeminiStream.Translate | internal/handler/handler.go:983-1007 | The loop over a whole stream and the flush: text parts and thought parts, in order, are what comes out of the normaliser, flushed at each finish and at the end; joined they are its contents and its reasoning. |
| GeminiStream.GeminiStreamTranslator.EmitCalls | internal/translator/gemini_stream.go:60-75 | The walk over the map sends each call exactly once. |
| GeminiStream.GeminiCalls | internal/translator/gemini_stream.go:45-77 | For every run the calls sent at a finish are the named calls of the buffered answer to the chunks since the finish before, with the same indices and arguments. |
| GeminiStream.GeminiMatchesBufferedIff | internal/translator/gemini_stream.go:76-77 | They are those of the buffered answer to the whole run if and only if every index gathered earlier has no arguments from then if it was named since, and no name from then otherwise. |
| GeminiStream.SecondFinishForgets | internal/translator/gemini_stream.go:76-77 | A run where they differ: two finish chunks, a tool call in the first only. |
| StoreModel.ViewInsert | internal/store/file.go:179-210 | What readers see after a store with eviction depends only on what they saw before it. |
| StoreModel.SnapshotReplays | internal/store/file.go:227-266 | Replaying the compacted log gives the unexpired part of the map it was written from, whatever the times. |
| StoreModel.SnapshotIs | internal/store/file.go:236-252 | The compacted log has one record for each entry, in the order of their times. |
| StoreRecovery.CompactionHeals | internal/store/file.go:227-266 | A successful compaction makes the log recover memory, whatever the log held. |
| StoreRecovery.CrashRecovers | internal/store/file.go:70-75 | A crash at any point of Store leaves a file that recovers to the map before or after it, and which one is decided by the point alone. |
| StoreRecovery.Recovery | internal/store/file.go:116-149 | After any history of stores, clean-ups, compactions that succeed or fail, restarts and crashes, with increasing store times, a restart at any later time shows exactly what memory shows; ids may repeat. |
| StoreRecovery.LookupsSurvive | internal/store/store.go:62-131 | Every lookup answers like an in-memory store that saw the surviving stores and never cleaned up, restarted or crashed. |
| StoreLifetimes.LookupLaw | internal/store/file.go:77-85 | After any timely history a lookup gives the response of the last store of the id that no crash lost, if it is no older than the time to live and not evicted, which it is once other ids, one fewer than the capacity, have come and another store follows; otherwise nothing. |
| StoreLifetimes.KeptIffFresh | internal/store/file.go:151-177 | A clean-up, and a restart on a log that recovers memory, keep exactly the entries no older than the time to live. |
| StoreLifetimes.ReloadFresh | internal/store/file.go:139-142 | No log at all loads an entry older than the time to live. |
| StoreGrowth.GrowthLaw | internal/store/file.go:179-189 | While a process runs, a compaction is tried at every capacity-th store that finds the store full; if compactions succeed, the log has no more lines than entries, evictions since the last one, one, and stores under an id that was there already. |
| StoreGrowth.LogBound | internal/store/file.go:179-189 | So without such stores a log begun empty stays within twice the capacity. |
| StoreGrowth.OneIdGrows | internal/store/file.go:179-189 | Storing one id again and again, with room for two, leaves one entry and a line for every store. |
| StoreRecovery.TieRecoveredIff | internal/store/file.go:143-145 | One more store at a time not before the entries: a restart shows what memory shows if and only if the id is not there with that very time, or a compaction wrote it, or all is expired, or the response is the same and nothing still visible was evicted for it. |
| StoreRecovery.TieLookupIff | internal/store/file.go:143-145 | The lookup of the stored id alone survives unless it is tied, no compaction wrote it, and the response there is another. |
| StoreRecovery.LogsLoad | internal/store/file.go:116-149 | The log of every such history satisfies what loading it into the class requires. |
| StoreModel.UnloadableRecord | internal/store/file.go:137-139 | A record without id or response changes no replay, wherever it stands in the log. |
| StoreFaults.FailedAppends | internal/store/file.go:70-75 | After any history as in `Recovery` in which appends fail anywhere, a restart at any later time shows what an in-memory store shows that saw the written stores and took over all of memory at each compaction that succeeded; the log satisfies what loading requires. |
| StoreFaults.SyncedRecovers | internal/store/file.go:70-75 | It shows what memory shows if no append has failed since the last successful compaction, restart or crash. |
| StoreFaults.UnwrittenLookup | internal/store/file.go:70-75 | After a store whose append fails, memory shows it, and a restart does if and only if a compaction fell due and succeeded, or the written map has that very response under the id. |
| FileStores.FileStore.constructor | internal/store/file.go:116-149 | Loading is the replay of all records, newest per id, expired ones dropped, with eviction. |
| FileStores.FileStore.EvictOldestLocked | internal/store/file.go:198-210 | The scan, in any map order, removes one entry or none; without an entry under the empty id an oldest one, and with distinct times the oldest. |
| FileStores.FileStore.StoreLocked | internal/store/file.go:179-189 | Evicts at capacity, stores, and compacts after as many evictions as the capacity. |
| FileStores.FileStore.Store | internal/store/file.go:70-75 | Stores in memory, then appends the record. |
| FileStores.FileStore.Get | internal/store/file.go:77-85 | The response of an entry that is present and no older than the time to live, or nothing. |
| FileStores.FileStore.Cleanup | internal/store/file.go:151-177 | Keeps exactly the entries no older than the time to live and compacts if any was older. |
| FileStores.FileStore.CompactLocked | internal/store/file.go:227-266 | Replaces the file by the entries in order of their times. |
| CircuitBreakers.CircuitBreaker.Allow | internal/reliability/circuit.go:49-67 | Admits when closed or disabled, and one probe per cooldown otherwise. |
| CircuitBreakers.CircuitBreaker.RecordSuccess | internal/reliability/circuit.go:69-80 | Closes the circuit and forgets the failures. |
| CircuitBreakers.CircuitBreaker.RecordFailure | internal/reliability/circuit.go:82-96 | Counts, and opens at the threshold or from half open. |
| BreakerRuns.BreakerState | internal/reliability/circuit.go:49-96 | For any interleaving of requests and health reports: closed exactly below threshold failures since the last success, half open exactly while a probe is active, and then the admitted probe has not reported. |
| BreakerRuns.RefusedIff | internal/reliability/circuit.go:49-67 | A request is refused exactly during the cooldown or while a probe is out; with nothing in flight and the cooldown over the next one goes out. |
| BreakerRuns.AdmissionsSpaced | internal/reliability/circuit.go:58-96 | From opening until the next success, admissions are at least a cooldown apart, late failures included. |
| BreakerRuns.AdmissionBound | internal/reliability/circuit.go:58-96 | So a span T admits at most T / cooldown + 1 requests. |
| Executors.Decisive | internal/reliability/retry.go:59-93 | The attempt that decides is the first whose status is not retryable, or the last one. |
| Executors.AttemptsLaw | internal/reliability/retry.go:37-111 | As many attempts as configured, three if that is no positive number, one without retries; the last one made is the first whose status is not 429, 502, 503 or 504, or the last allowed; success exactly in the first case. |
| Executors.WaitLaw | internal/reliability/retry.go:44-130 | The k-th wait is the configured initial backoff doubled k - 1 times, no more than the configured maximum, with the defaults for numbers that are not positive. |
| Executors.BackendExecutor.Do | internal/reliability/retry.go:30-94 | Refused: circuit error, no call, no report. Admitted: the decisive outcome is returned, with exactly one matching report and the delays of the attempts before it. |
| Executors.SleepBound | internal/reliability/retry.go:123-130 | n delays never exceed n times the maximum, whatever an overflow yields. |
| Executors.SleepDoubles | internal/reliability/retry.go:123-130 | Below the maximum the delays add up to initial * 2^n - initial. |
| Executors.WaitsIff | internal/reliability/retry.go:123-130 | Where overflow yields no positive duration, all n retries wait if and only if initial * 2^(n-1) < 2^63. |
| Executors.DefaultBackoffOverflows | internal/reliability/retry.go:123-130 | With the defaults the 36th retry still waits, the 37th need not. |
| Failovers.Handler.DoBackendTargets | internal/handler/backend.go:94-120 | The loop asks the targets as the recursive account does and returns the last reply; an error for no targets. |
| Failovers.Handler.DoStreamingBackendTargets | internal/handler/backend.go:122-162 | The same on the streaming path, with the look into the first bytes of a 2xx body. |
| Failovers.Handler.IsFailoverStatus | internal/handler/backend.go:168-175 | Whether the status is configured. |
| Failovers.Handler.PrepareStreamingResponse | internal/handler/backend.go:177-201 | With patterns configured and a 2xx status: failure exactly if the body cannot be read, failover exactly if its first bytes show a configured non-empty pattern; otherwise neither. |
| Failovers.Handler.DoStreamingBackendRequest | internal/handler/reliability.go:21-40 | One call, one report; statuses from 500 on and 429 are failures. |
| FailoverRuns.FailoverResult | internal/handler/backend.go:94-162 | Targets are tried in order, each at most once; the result is the first acceptable reply, or a request that cannot be built, or else the last target's outcome. |
| FailoverRuns.PassedOnIff | internal/handler/backend.go:168-199 | With targets left, a reply is passed on exactly if it is a response under a status that is not listed and, when streaming with patterns and a 2xx status, its body can be read and holds no pattern but the empty one. |
| FailoverRuns.ReachedIff | internal/handler/handler.go:61-75 | With the one shared breaker, target i behind i failing ones is asked if and only if failures + i < threshold; otherwise it is refused. |
| FailoverRuns.ReportsDifferIff | internal/handler/reliability.go:32-38 | The two paths judge an outcome differently exactly for statuses from 500 on that the executor does not retry. |
| FailoverRuns.PlainServerErrors | internal/reliability/retry.go:64-69 | A backend that always answers so never opens the circuit by plain calls, but does by streaming calls after as many as the threshold leaves. |
| FailoverRuns.RequestIsARun | internal/reliability/retry.go:30-94 | A request on either path, run alone, is one admission and at most one report. |
| FailoverRuns.InterleavedIsARun | internal/handler/reliability.go:21-40 | Requests on both paths, interleaved in any way, take the shared breaker through a possible run of its events, so the results on runs hold of them. |
| RateLimiters.RateLimiter.Allow | internal/reliability/ratelimit.go:50-75 | One decision and one changed bucket: refill up to the burst, take one token if there is one. |
| RateLimiters.RateLimiter.Cleanup | internal/reliability/ratelimit.go:77-89 | Forgets exactly the clients not seen for five minutes. |
| RateRuns.CleanupInvisible | internal/reliability/ratelimit.go:50-89 | With burst <= 5 * perMinute, clean-ups at any moments change no decision and no bucket a request leaves. |
| RateRuns.CleanupInvisibleIff | internal/reliability/ratelimit.go:50-89 | That holds of every history if and only if burst <= 5 * perMinute. |
| RateRuns.RateBound | internal/reliability/ratelimit.go:58-74 | Then any window of length T lets at most burst + rate * T requests of a client through. |
| RateRuns.RateBoundIff | internal/reliability/ratelimit.go:58-89 | The bound holds of every history and client if and only if burst <= 5 * perMinute. |
| RateRuns.SpacedNeverRefused | internal/reliability/ratelimit.go:58-74 | A client that keeps 60 / perMinute seconds between requests is never refused, clean-ups or not. |
| RateRuns.Configured | internal/reliability/ratelimit.go:28-34 | The same in the configured numbers, 60 for a missing rate and the rate for a missing burst: a new client gets exactly the burst through at one moment, the bound on windows, and one request per interval always passes. |
| RateRuns.OverrunAdmits | internal/reliability/ratelimit.go:77-89 | A history with a larger burst: 2 * burst requests pass with a clean-up, burst + 5 * perMinute without. |
| ModelPatterns.MatchModel | internal/backend/router.go:201-228 | The loop decides the matching function. |
| ModelPatterns.GreedyComplete | internal/backend/router.go:216-228 | Leftmost search finds the pieces if and only if they occur in order without overlap at all. |
| ModelPatterns.ManyStars | internal/backend/router.go:201-228 | Two or more stars: glob matching with a star at both ends. |
| ModelPatterns.OneStar | internal/backend/router.go:212-215 | One star: glob matching exactly for models at least as long as prefix and suffix together. |
| ModelPatterns.NoStar | internal/backend/router.go:201-211 | No star: equality, but for the empty pattern, which accepts everything. |
| ModelPatterns.GlobAccepted | internal/backend/router.go:201-228 | Every anchored glob match is accepted, for every pattern. |
| ModelPatterns.OverlapAccepted | internal/backend/router.go:212-215 | `ab*ba` accepts `aba`, which no glob does. |
| Rotations.WeightedOrder | internal/backend/router.go:145-167 | Dropping repeats from the rotated expansion leaves a cyclic rotation of the list, led by the backend whose block the offset hits. |
| Routers.Router.constructor | internal/backend/router.go:46-83 | Enabled backends with defaults filled in, sorted stably by priority. |
| Routers.KeptIff | internal/backend/router.go:46-74 | Exactly the backends that are not disabled are kept, each with its own settings, all models if none are given and weight one if it is below one. |
| Routers.Router.Candidates | internal/backend/router.go:93-112 | The eligible backends in the order for the counter, cut to the limit; the counter moves on if there is a choice. |
| Routers.LimitLaw | internal/backend/router.go:104-106 | The first `limit` candidates, or all if the limit is not positive. |
| Routers.Router.Order | internal/backend/router.go:122-143 | The order for the counter value, which wraps at 2^64. |
| Routers.EligibleSorted | internal/backend/router.go:93-104 | The matches keep the priority order and are exactly the backends serving the model. |
| Routers.OrderIsRotation | internal/backend/router.go:145-178 | Below 2^63 calls every order is a cyclic rotation of the sorted matches, led by the backend whose turn it is. |
| Routers.PanicIff | internal/backend/router.go:169-178 | Rotation panics exactly past 2^63 when the negative offset is no multiple of the length. |
| Routers.WeightedFairness | internal/backend/router.go:145-178 | In any W consecutive calls below 2^63 each backend leads exactly `weight` times. |
| Routers.ConfiguredFairness | internal/backend/router.go:46-74 | Weighted fairness in the configured weights: in any W consecutive calls below 2^63 each enabled backend that serves the model leads as often as its configured weight says, a disabled one is never tried. |
| Routers.RoundRobinFairness | internal/backend/router.go:122-143 | In any n consecutive calls each of n backends leads once. |

## Left out

- HTTP plumbing: handlers, headers, SSE line scanning, timeouts, logging, metrics, authentication. Chunks arrive decoded; outcomes of HTTP calls are parameters.
- JSON text: records and chunks are datatypes. `extractCustomToolInput` is an arbitrary function that maps no arguments to no input; the parsing of Gemini call arguments is not modelled.
- The file system below the log: append and rename are atomic, the cross-device copy, the scanner's line limit and fsync are missing. A compaction or an append may fail as a whole; a record written in part is missing.
- FileStores.FileStore.Store: requires a non-empty id and a time different from those of all other ids. A tie between two ids leaves the next eviction to the map order, which the functions on values do not follow; the same id may be tied.
- FileStores.FileStore.StoreLocked: the same.
- FileStores.FileStore.CompactLocked: requires distinct times, since the order of tied entries in the new log is the sort's choice.
- FileStores.FileStore.constructor: requires that no two ids share a time in the log, which `LogsLoad` proves of the logs of timely histories.
- Clocks: times are parameters, integers in the store, breaker and executor, reals in the rate limiter; monotonicity is an assumption wherever a run needs it, although the rate limiter reads the clock before it locks.
- Floating point: tokens are reals; `retryDelay` is exact below 2^63, so the rounding of initial backoffs above 2^53 nanoseconds is missing.
- Mutexes and goroutines: each locked section is one step. The breaker is proved for every interleaving of such steps; within the class method Do no other request touches the breaker; `InterleavedIsARun` covers that on values.
- Executors.BackendExecutor.Do: a nil executor or client, and failures to clone the request, which do not occur, are missing; the texts of the recorded errors are not tracked.
- Failovers.Handler.PrepareStreamingResponse: that the bytes looked at are put back in front of the body is not modelled; a body is what its first read yields.
- The `least_connections` strategy: without callers of IncActive it is a static sort.
- BatchAgreement.StreamMatchesBatch: only texts whose tags match in kind and whose text without blocks and tags spells no tag; a `<think>` block starting with `<thinking>` is excluded because the batch parser strips both tags; chunkings that cut no closing tag; the content only without stray closing tags. The regular expression is modelled as the leftmost block search it performs.
- BatchAgreement.BatchOnTidy: under the same conditions on the text; `StrayTagsRemoved` has none but the absence of opening tags.
- StreamGuarantees.InOrder: without stray closing tags and backend reasoning; the orders of content and of reasoning for themselves are stated without these conditions.
- EndToEnd.BufferedMatchesStreamed: under the same conditions on the text as StreamMatchesBatch; keepalive chunks must carry no text, since the buffer reads it and the stream does not; nothing is said about the reasoning when the backend sends some of its own.
- References to backends are modelled as records with an address; strings are sequences of characters.
- Callbacks of the normaliser and of the translators are modelled as lists of what they receive, in order.
- Finish-reason tables, usage details beyond the three counts, creation times, message ids and item ids that only name things: constants or parameters.
- Request translation, the Gemini request and response mappers, `mergeAssistantToolCalls`, `dedupeOpenAITools`, model listing and configuration defaults would only add easy members.
- The order in which Gemini calls go out: the map order is arbitrary, and only that each goes out once is stated.
