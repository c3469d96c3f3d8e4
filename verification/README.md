# Conversation engine

A model of the conversation engine of an AI coding agent, with proofs of what it promises. The engine owns a
message history, compresses it, streams bounded excerpts of stored output back into requests, decides when a
provider-side response may be continued, and runs batches of tool calls. Each file is one module:

- `Text`: ASCII text, trimming, searching and lines.
- `Excerpt`, `Shrink`, `Scanner`, `ActiveContext`: stored output. A scanner reads a byte stream in arbitrary chunks with
  bounded memory and prints an excerpt around the first hint; excerpts are printed, parsed and shrunk to a token
  budget; a ledger says which required outputs a request carries.
- `History`, `Compression`, `PlanMode`: cutting a history without tearing tool-call turns, replacing its prefix by
  a summary, and the Plan Mode checkpoint through feedback, failure and in-turn compression.
- `Prompt`, `Continuation`, `ContinuationAgent`: the response ID in the provider, the agent and the saved session,
  as a state machine on values with the safety theorem, and as objects updated in place that refine it.
- `Chunks`, `ParallelPhase`, `ReadBatch`, `ToolExecution`: one turn of tool calls, with the worker phase as
  interleaved events under a semaphore and a cancellation.
- `ResponseParser`: the explanation and the JSON of a tool call in a response.
- `Tokens`: the estimate of how many tokens a text costs.
- `HistoryCompact`, `Directives`, `AutoCompress`: old tool results, the directive queue, and the decision to
  compress.

Where the source changes state step by step, the model has a class or a method with a loop, proved against a
function on values; the theorems are about those functions. `dafny verify dfyconfig.toml` checks everything.

## What the proofs found

- `adjustSplitForFCPairs` steps back once too often. `History.TornExactly` says exactly when that separates a call
  from its results; `History.TearsParallelResults` is an instance and `History.CorrectedNeverTears` a repair.
- An investigation whose context is cancelled just after an in-turn compression returns before the checkpoint is
  rebased. `PlanMode.TornRunExactly` says for whole runs, and `PlanMode.StaleRestoreExactly` for one restore, when
  history and session are still exact; `PlanMode.CutShortLeavesPrompt` shows a planning prompt left in the history,
  and `PlanMode.CutShortLeavesRequest` a cancelled request left in the session where the history is exact.
- A rerun whose request the restored session already ends with is not recorded, and the next capture leaves that
  older message out, unless a compression rebuilds the session first: `PlanMode.SessionExactly`,
  `PlanMode.EchoLosesMessage`.
- After a token-limit error the old index no longer fits the compressed history: `PlanMode.TokenLimitLeaves`.
- Continuation safety needs a runtime with all three names, and no less: `Continuation.NamesAreExact`. What was
  recorded without a name takes the next runtime's (`Continuation.UnnamedModelLeaks`), and an ID follows a switch
  that loses the config key (`Continuation.LostKeyContinues`).
- Compacting old results settles for every history only if an empty head is counted as a line:
  `HistoryCompact.SettlesExactly`, with `HistoryCompact.TightNeverSettles` as the history that does not.
- A shrunk excerpt miscounts when its matched line is cut without holding the term, or when what is left of the line
  is not read back as a line: `Shrink.ShrinkOfPrinted` says when it adds up, `Shrink.ShrinkAddsUp` what to check
  beforehand, and `Shrink.MiscountInput` is one that does not.
- What is kept of a matched line over 32 KiB depends on where the chunks end: `Scanner.DifferentFragments`, and
  `Scanner.FragmentsAgreeExactly` for when it does not.
- With prices that fall back to that of an empty context the compression decision has gaps:
  `AutoCompress.NoGapExactly`, `AutoCompress.FallingPricesLeaveAGap`.

## Reading the statements

- Token estimates are an arbitrary function of the text, of which `Tokens.Estimate` is the program's. Text is ASCII, one character a byte.
- `Scanner.Reports` is what a scan must report, written without a scanner, and `Scanner.Renders` the part of it that
  does not depend on the hints; `Shrink.AddsUp` reads an excerpt back and counts its lines; `PlanMode.Leaves` is
  how a run ends; `Continuation.Sound` is the invariant of the continuation; `ParallelPhase.Outcome` is what the
  worker phase leaves; `ReadBatch.Pointwise` says that reading a list of paths is reading each of them.
- The provider, the tools, the user and the file system are parameters: a script of steps, a function from a
  call to its result, a store of chunks. A provider never returns an ID twice and a switch goes to a runtime with a
  name (`Continuation.Legal`).
- Identity values in `Continuation` are in their normalized form, and a fingerprint stands for its hash: equal
  hashes are taken to mean equal canonical prompts.

## Model

| member | source | states |
|---|---|---|
| Scanner.ContextScanner.constructor | internal/agent/provider_history_raw_output_stream.go:35-48 | a new scanner has seen nothing, and its buffer cap is eight bytes a token, between 32 and 256 KiB |
| Scanner.ContextScanner.Scan | internal/agent/provider_history_raw_output_stream.go:50-64 | a chunk is appended to the bytes seen; the buffer holds all of them or, once they exceed the cap, nothing |
| Scanner.ContextScanner.ScanLines | internal/agent/provider_history_raw_output_stream.go:119-133 | the lines seen so far, glued to the lines of the chunk, are the lines seen afterwards; the remainder is the kept tail of the open line |
| Scanner.ContextScanner.StoreLineRemainder | internal/agent/provider_history_raw_output_stream.go:146-153 | the open line grows by the new bytes and the remainder is its last 32 KiB |
| Scanner.ContextScanner.ScanOpenLineFragment | internal/agent/provider_history_raw_output_stream.go:155-164 | a line too long to keep is searched as it grows; a first match records 32 KiB around the term of what has arrived so far, and nothing else changes |
| Scanner.ContextScanner.ScanCompleteLine | internal/agent/provider_history_raw_output_stream.go:166-182 | the open line becomes the next complete line, however much of it was kept |
| Scanner.ContextScanner.ScanLine | internal/agent/provider_history_raw_output_stream.go:184-202 | one complete line is taken: a first match, a line after it, or one more line before it |
| Scanner.ContextScanner.RecordMatchedLine | internal/agent/provider_history_raw_output_stream.go:204-211 | a match keeps the previous lines, the matched fragment, its term and its place |
| Scanner.ContextScanner.Finalize | internal/agent/provider_history_raw_output_stream.go:135-144 | an open line is closed once; a second call changes nothing |
| Scanner.ContextScanner.Body | internal/agent/provider_history_raw_output_stream.go:66-83 | the trimmed bytes when they fitted, nothing and a reason when nothing matched, else the excerpt of the field window, never empty |
| Scanner.ContextScanner.RenderMatchedExcerpt | internal/agent/provider_history_raw_output_stream.go:85-117 | the widest window that fits the budget, else the half-budget line |
| Scanner.ContextScanner.MemoryBounds | internal/agent/provider_history_raw_output_stream.go:35-64 | after every scan of any bytes for any hints: the size limits of buffer, remainder, previous and window lines, a match offset inside the window, and a term of at most 16 KiB still visible in the fragment kept of its line |
| Scanner.ContextScanner.FieldsDetermined | internal/agent/provider_history_raw_output_stream.go:184-211 | after a whole scan for usable hints the match, its place and its window are those of the lines, found without a scanner; only the fragment of a matched line over 32 KiB is not settled by them |
| Scanner.HoldsAcross | internal/agent/provider_history_raw_output_stream.go:146-164 | a hint split between what was kept of a long line and what follows is found exactly when the whole line holds it |
| Scanner.AroundTermSlice | internal/agent/provider_history_raw_output_stream.go:233-251 | what is cut from a long line around its term is 32 KiB of that line, with the term inside when it is at most 16 KiB |
| Scanner.ScanAll | internal/agent/provider_history_raw_output_stream.go:50-144 | a scan of any list of chunks for any hints renders the bytes, or the window it holds, within the overflow rule; for usable hints it reports what the concatenated bytes determine |
| Scanner.ChunkIndependence | internal/agent/provider_history_raw_output_stream.go:50-211 | two ways of cutting the same bytes give the same overflow, line count, reason, match, window start and window lines, except for the matched line when it is over 32 KiB; otherwise also the same term and body |
| Scanner.ScanLongLine | internal/agent/provider_history_raw_output_stream.go:50-164 | a scan of one long line that arrives in two chunks, the first holding a hint, keeps what is cut out of the first chunk around the term |
| Scanner.DifferentFragments | internal/agent/provider_history_raw_output_stream.go:50-164 | two scans of the very same bytes that report different windows |
| Scanner.FragmentsAgreeExactly | internal/agent/provider_history_raw_output_stream.go:233-251 | the two fragments are cut at the same place if and only if nothing more arrives or half a fragment was there behind the term; otherwise they agree only if those two pieces of the line are equal |
| Scanner.StreamingRefinesBatch | internal/agent/provider_history_raw_output_stream.go:85-117 | when the batch excerpt of a body succeeds, an overflowed scan of that body prints the same excerpt |
| Excerpt.UnquoteQuote | internal/agent/provider_history_raw_output_excerpt.go:176-199 | a quoted term is read back as it was |
| Excerpt.RoundTrip | internal/agent/provider_history_raw_output_excerpt.go:141-264 | parsing a rendered excerpt recovers term, line, total, start and lines |
| Excerpt.HintPrints | internal/agent/provider_history_raw_output_excerpt.go:176-221 | every search hint is a term the header can carry |
| Excerpt.TrimMatchedLineKeepsTerm | internal/agent/provider_history_raw_output_excerpt.go:266-308 | a term without blank ends stays visible in its line, left whole or cut to at least twice the length of the term |
| Excerpt.FitRadius | internal/agent/provider_history_raw_output_excerpt.go:69-80 | the radius loop finds the largest radius whose text fits, or none when none fits |
| Excerpt.MatchedBodyExcerpt | internal/agent/provider_history_raw_output_excerpt.go:59-82 | the batch excerpt is the widest fitting window around the first line that holds a hint |
| Excerpt.LocateMatch | internal/agent/provider_history_raw_output_excerpt.go:100-117 | the match is where the excerpt says, or at the first line holding its term or a hint |
| Excerpt.ShrinkMatchedExcerpt | internal/agent/provider_history_raw_output_excerpt.go:92-139 | the shrunk excerpt is the parsed window at its widest fit, else its half-budget line if that fits |
| Shrink.ShrunkWindowShows | internal/agent/provider_history_raw_output_excerpt.go:118-139 | what a window shrinks to fits the budget and stands for a run of its lines around the match |
| Shrink.ShrinkOfPrinted | internal/agent/provider_history_raw_output_excerpt.go:92-264 | shrinking a printed excerpt, when it succeeds, stays in budget and keeps term, line and total; it reads back as the run it stands for, its omitted and shown lines adding up to the total, if and only if that run is shown whole or is the matched line alone, cut around its term or left whole and read back as a line |
| Shrink.ShrinkMiscounts | internal/agent/provider_history_raw_output_excerpt.go:266-300 | a line that is cut without holding its term is shown as three lines of a total of one |
| Shrink.ShrinkAddsUp | internal/agent/provider_history_raw_output_excerpt.go:92-264 | when the matched line holds the term and its trimming reads as a line, every excerpt it shrinks to reads back and adds up |
| Shrink.MiscountInput | internal/agent/provider_history_raw_output_excerpt.go:12-33 | one concrete excerpt that miscounts, under the program's own estimate of tokens |
| Tokens.EstimateTokenCount | internal/token/limits.go:45-107 | the loop and its flushes compute the estimate that is defined on the text |
| History.AdjustSplitForFCPairs | internal/agent/compress_history_split.go:55-91 | the loops compute the adjusted index defined on the history |
| History.StaysInside | internal/agent/compress_history_split.go:55-91 | an index strictly inside stays strictly inside, unless the whole history is one tool-call turn, and then it is 0 |
| History.TornExactly | internal/agent/compress_history_split.go:60-69 | a call is separated from its results if and only if the turn at the index directly follows a turn with two results or more |
| History.NeverTornWhenSingle | internal/agent/compress_history_split.go:60-69 | where no turn followed directly by another has more than one result, no index is torn |
| History.TearsParallelResults | internal/agent/compress_history_split.go:65-67 | a well-formed history and a harmless index that the adjustment turns into a torn one |
| History.CorrectedNeverTears | internal/agent/compress_history_split.go:55-91 | without the second step back no well-formed history is torn, and inside still stays inside |
| Compression.SplitHistoryBeforeIndex | internal/agent/compress_history_split.go:30-49 | both sides of the split, and the persisted side, are cut at the adjusted and clamped index |
| Compression.SplitHistoryForInTurnCompression | internal/agent/compress_history_split.go:15-28 | the in-turn split is asked for before the current turn and the recent messages, whichever is earlier |
| Compression.CutBeforeTurn | internal/agent/compress_history_split.go:15-49 | a turn that starts at a message other than a tool result is never cut into |
| Compression.RebasedExactly | internal/agent/compress.go:84-97 | from the computed start on the new history is the old current turn, exactly when the cut is not past it; before it stand the summary and the kept messages |
| Compression.StripNormalModePrompt | internal/agent/compression_persistence.go:28-39 | the loop takes the suffix off every user message that ends with it and changes nothing else |
| Compression.Persistable | internal/agent/compression_persistence.go:11-59 | the copy has the length of the history and matches it message by message |
| Compression.PlanPersistable | internal/agent/plan_auto_compress.go:25-72 | the copy a planning turn persists has the length of the history and matches it but for the request in place of the planning prompt |
| Compression.PersistHistoryForPlan | internal/agent/compress.go:67-82 | whatever copy is offered, the one that is cut has the length of the history |
| PlanMode.PlanModeRequest.CaptureCheckpoint | internal/agent/plan_mode_checkpoint.go:23-53 | the checkpoint marks the end of the history and of the session without the request being planned |
| PlanMode.PlanModeRequest.RestoreConversationState | internal/agent/plan_mode_checkpoint.go:55-96 | restoring truncates history and session to the checkpoint and puts the prompt back, once |
| PlanMode.PlanModeRequest.RebaseAfterInTurnCompression | internal/agent/plan_mode_checkpoint.go:105-120 | the checkpoint moves to the clamped start of the current turn |
| PlanMode.PlanModeRequest.MaybeCompress | internal/agent/auto_compress.go:131-203 | one in-turn attempt a turn; the checkpoint is rebased after a success unless the context was cancelled first |
| PlanMode.PlanModeRequest.RunInvestigation | internal/agent/plan_investigation.go:98-130 | the loop takes the steps in order until one stops it |
| PlanMode.PlanModeRequest.RecordRerunRequest | internal/agent/plan_request.go:270-288 | the rerun request is recorded unless the session ends with it |
| PlanMode.PlanModeRequest.ApplyExitPolicy | internal/agent/plan_request.go:110-128 | the exit restores the conversation or only the prompt |
| PlanMode.PlanModeRequest.Prepare | internal/agent/plan_request.go:130-157 | a request captures, switches the prompt and appends the investigation prompt |
| PlanMode.PlanModeRequest.HandleInvestigationResult | internal/agent/plan_request.go:179-221 | each answer of the review, feedback included, leaves the agent where the specification of the rest of the run says |
| PlanMode.PlanModeRequest.Run | internal/agent/plan_request.go:61-128 | a whole request, its reruns included, leaves the agent where the specification says |
| PlanMode.Agent.CompressHistory | internal/agent/compress.go:110-208 | the prefix is replaced by the summary in the history and in the session |
| PlanMode.InvestigationKeeps | internal/agent/plan_investigation.go:98-255 | an investigation leaves the base it started from with the one cut its own steps make, all it said behind it and the checkpoint at its end; it is cut short exactly when a compressing step finds its context cancelled, and the restore then leaves of the session what the old count leaves |
| PlanMode.InvestigationTells | internal/agent/plan_investigation.go:98-130 | the session a finished investigation leaves: what it found and the entries it logged or, after a compression, a copy of its turn behind the shortened base and the entries logged since |
| PlanMode.RunLeaves | internal/agent/plan_request.go:61-128 | for every run with any number of reruns, the base being the pre-run history with the one cut the run makes: history and session back at the base when it failed, was cancelled or approved, less what reruns echoed since the cut; the last investigation alone behind them when it ended without steps; cut short exactly when a compression finds its context cancelled, the history then exact if and only if one message was replaced and the session if and only if as many entries were captured as the shortened base has messages; the pre-run prompt always |
| PlanMode.TornRunExactly | internal/agent/plan_mode_checkpoint.go:55-96 | a run cut short is left at the shortened history and the session that tells it if and only if the cut replaced one message and as many entries were captured as there were messages |
| PlanMode.SessionExactly | internal/agent/plan_request.go:270-288 | a restored run that compressed nothing ends with the session as captured if and only if no rerun found its own request at its end; otherwise with a proper prefix of it (with a compression: the session clause of RunLeaves) |
| PlanMode.EchoLosesMessage | internal/agent/plan_request.go:270-288 | a run that loses a session message that way |
| PlanMode.StaleRestoreExactly | internal/agent/plan_mode_checkpoint.go:71-96 | restoring a checkpoint that was not rebased after a compression: the history is exact if and only if one message was summarized, the session if and only if the old count is its length, and what each is left with otherwise |
| PlanMode.CutShortLeavesPrompt | internal/agent/plan_investigation.go:237-255 | a run cancelled just after a compression that leaves its planning prompt in the history |
| PlanMode.CutShortLeavesRequest | internal/history/session.go:203-215 | a run cancelled just after one message was summarized that leaves the cancelled request in the session, because of an audit entry |
| PlanMode.TokenLimitLeaves | internal/agent/plan_request.go:239-251 | how much of the planning turn the old index leaves after a token-limit compression, for every cut |
| Prompt.CanonicalPrompt | internal/agent/response_prompt_fingerprint.go:23-47 | the loop computes the canonical form |
| Prompt.CanonicalIsCanonical | internal/agent/response_prompt_fingerprint.go:23-47 | a canonical prompt has no carriage return, no trailing blanks, no blank line at either end and never two in a row |
| Prompt.CanonicalFixed | internal/agent/response_prompt_fingerprint.go:23-47 | exactly the canonical texts are left alone, so canonical twice is canonical once |
| Prompt.EndingsDoNotMatter | internal/agent/response_prompt_fingerprint.go:23-27 | the line ending a prompt is written with does not change its fingerprint |
| Prompt.BlanksDoNotMatter | internal/agent/response_prompt_fingerprint.go:29-42 | blanks at the end of a line and further blank lines next to a blank one do not matter |
| Continuation.PreparedKeeps | internal/agent/response_prompt_fingerprint.go:49-68 | an ID that survives the check before a request was issued to a chat request on this runtime for this prompt |
| Continuation.StepKeeps | internal/agent/conversation_state.go:14-324 | every operation keeps the invariant that a remembered response with a fingerprint was issued under the identity and fingerprint remembered with it |
| Continuation.ContinuationSafety | internal/agent/response_prompt_fingerprint.go:49-112 | in every reachable state the ID a request is sent with was issued to a chat request under the same model, provider, config key and fingerprint, never to a compression or a review |
| Continuation.NamesAreExact | internal/agent/response_prompt_fingerprint.go:49-112 | a start with all three names is exactly what safety of every run needs: from a runtime without one of them some run sends an ID to another runtime |
| Continuation.NamesAreNeeded | internal/agent/response_context_snapshot.go:18-42 | exactly on a runtime with all three names no switch to another named runtime continues what was recorded |
| Continuation.SwitchContinuesExactly | internal/agent/provider_model_service.go:283-352 | after a recorded and saved request, for any two runtimes, when a provider switch sends the old ID to the new runtime and when it sends none |
| Continuation.LostKeyContinues | internal/agent/provider_model_service.go:342-362 | from a named runtime the one switch that carries the ID elsewhere is to the same model and provider without a config key |
| Continuation.NextRequestContinues | internal/agent/response_prompt_fingerprint.go:70-90 | the ID a request returned is what the next one is sent with when the prompt is the same, and nothing is when it is not |
| Continuation.ResumedSessionContinues | internal/agent/conversation_state.go:104-128 | a session saved after a request and resumed later, from any state that still has it stored, continues the same response whenever the runtime lands where it was, by a provider switch or without one |
| Continuation.CheckpointContinues | internal/agent/plan_mode_checkpoint.go:122-135 | a restored checkpoint sends exactly what would have been sent when it was captured |
| Continuation.CompressionContinuesNothing | internal/agent/conversation_state.go:282-324 | a failed local compression changes nothing but the record of issued IDs; after a successful one nothing is continued, nor remembered by a persisted session |
| Continuation.UnnamedModelLeaks | internal/agent/response_context_snapshot.go:18-42 | without a model name safety fails: the response is sent to the model selected next |
| ContinuationAgent.Provider.Chat | internal/api/providers/openai_responses/response_id_chain.go:17-75 | which previous ID goes out, and what the provider keeps after success, failure and a dropped ID |
| ContinuationAgent.SavedSession.ApplyResponseContext | internal/history/response_context_metadata.go:24-48 | a context is remembered with the session identity in place of what it lacks, or forgotten when it has no ID |
| ContinuationAgent.Agent.Current | internal/agent/response_prompt_fingerprint.go:92-112 | what is known of the ID held: the agent context, the session, or only the runtime, in that order |
| ContinuationAgent.Agent.SyncSavedResponseContext | internal/agent/agent_session_identity.go:70-85 | the session takes over what is known of the held ID, or forgets when persisting is off |
| ContinuationAgent.Agent.PersistSession | internal/agent/agent_persistence.go:49-60 | saving first brings identity and response context up to date |
| ContinuationAgent.Agent.RestoreProviderResponseID | internal/agent/conversation_state.go:253-266 | provider and agent context after restoring an ID |
| ContinuationAgent.Agent.ClearResponseContinuationContext | internal/agent/conversation_state.go:268-280 | provider, agent and saved session all forget |
| ContinuationAgent.Agent.ClearProviderAndSavedResponseContext | internal/agent/response_context_snapshot.go:104-113 | the three places forget without saving |
| ContinuationAgent.Agent.InvalidateSavedResponseContext | internal/agent/agent_session_identity.go:87-108 | a saved context of another runtime is forgotten |
| ContinuationAgent.Agent.RestoreSessionResponseID | internal/agent/agent_session_identity.go:110-142 | the saved ID is restored to the provider only on the runtime it belongs to |
| ContinuationAgent.Agent.Reconcile | internal/agent/agent_session_identity.go:27-34 | identity first, then the saved ID |
| ContinuationAgent.Agent.SelectModel | internal/agent/provider_model_service.go:324-336 | selecting a model clears or reconciles |
| ContinuationAgent.Agent.SwitchProvider | internal/agent/provider_model_service.go:283-352 | a provider switch installs a provider without an ID and then selects the model |
| ContinuationAgent.Agent.PrepareForPrompt | internal/agent/response_prompt_fingerprint.go:49-68 | an ID that does not belong to this runtime and prompt is dropped everywhere and the chain disabled |
| ContinuationAgent.Agent.RecordForPrompt | internal/agent/response_prompt_fingerprint.go:70-90 | a successful request records what its ID belongs to |
| ContinuationAgent.Agent.Request | internal/agent/headless_request.go:28-36 | one request, from the check to the record, and the ID it is sent with |
| ContinuationAgent.Agent.CompressLocally | internal/agent/conversation_state.go:298-324 | suspend, ask, finish |
| ContinuationAgent.Agent.CaptureCheckpoint | internal/agent/plan_mode_checkpoint.go:29-53 | what the checkpoint remembers of the response |
| ContinuationAgent.Agent.RestoreCheckpoint | internal/agent/plan_mode_checkpoint.go:61-135 | provider, agent context and session after a restore |
| ContinuationAgent.Agent.LoadConversation | internal/agent/conversation_state.go:14-35 | what a loaded session brings with it |
| ContinuationAgent.Agent.StartNewSession | internal/agent/conversation_state.go:71-101 | the old session is saved, the new one starts empty |
| ContinuationAgent.Agent.ResumeSession | internal/agent/conversation_state.go:104-251 | save, detach, move the runtime, load and reconcile |
| ContinuationAgent.Agent.ResetConversation | internal/agent/conversation_state.go:37-58 | a reset forgets in all places and rewrites the session |
| ContinuationAgent.Agent.Perform | internal/agent/conversation_state.go:14-324 | any operation on the objects takes the abstract state where the operation on values takes it, and tells the ID a request was sent with |
| ContinuationAgent.Agent.RunAll | internal/agent/response_prompt_fingerprint.go:49-112 | any legal run of the agent itself: every ID a request is really sent with was issued to a chat request on the runtime it is sent on, for the prompt it is sent with |
| Chunks.NextPathBudgetChunk | internal/agent/agent_tool_parallel_batch_chunks.go:16-30 | the chunk takes calls as long as it can and stops at the first it cannot take |
| Chunks.GreedyCovers | internal/agent/agent_tool_parallel_batch_chunks.go:16-30 | the chunks cover every call once in order and keep to the limit |
| Chunks.GreedyIsOptimal | internal/agent/agent_tool_parallel_batch_chunks.go:16-30 | no way of cutting the calls in order within the limit uses fewer chunks |
| ParallelPhase.ExecuteParallelSafeTools | internal/agent/agent_tool_parallel_executor.go:70-103 | whatever the schedule, the slots of the parallel entries end with their own results or as part of a refused suffix, and no other slot changes |
| ParallelPhase.StepKeeps | internal/agent/agent_tool_parallel_executor.go:76-100 | every event keeps the invariant of dispatcher, semaphore and slots |
| ParallelPhase.NeverStuck | internal/agent/agent_tool_parallel_executor.go:76-101 | until the phase is over someone can move |
| ParallelPhase.EveryInterleaving | internal/agent/agent_tool_parallel_executor.go:70-103 | for every interleaving and cancel point: at most four workers hold the semaphore, at most six events a call and one cancellation, and each slot is written exactly once with the right result |
| ParallelPhase.OutcomeUnique | internal/agent/agent_tool_parallel_executor.go:70-103 | without a cancellation the results are the same for all schedules |
| ReadBatch.SegmentReadFileBatches | internal/toolruntime/optimizer.go:69-101 | segments are ascending, disjoint, free of file changes among their calls, and complete |
| ReadBatch.MergeChunk | internal/agent/agent_tool_parallel_batch_read_file.go:30-64 | the sections of one merged read are handed to the calls of the chunk in order |
| ReadBatch.MergeSegment | internal/agent/agent_tool_parallel_batch_read_file.go:18-65 | a segment is merged chunk by chunk with the paths of each chunk |
| ReadBatch.ExecuteReadFileBatchMerge | internal/agent/agent_tool_parallel_batch_read_file.go:11-67 | the arrays end as merging all segments defines |
| ReadBatch.MergingPreservesMeaning | internal/agent/agent_tool_parallel_batch_read_file.go:11-67 | if reading a list is reading each path, every call that became batched holds exactly what it would get run alone, and every other call keeps status and result |
| ReadBatch.ChunkKeeps | internal/agent/agent_tool_parallel_batch_read_file.go:37-64 | a chunk of two or more calls whose read gives a section a path is batched as a whole |
| ReadBatch.SlicesAreAll | internal/agent/agent_tool_parallel_batch_read_file.go:43-74 | the section slices handed out are the sections of the merged read, none lost and none twice |
| ToolExecution.CallState.constructor | internal/toolruntime/parallel.go:52-59 | a new state has one entry and one result for each call and no loop |
| ToolExecution.CallState.PlanCalls | internal/toolruntime/parallel.go:62-88 | calls before the first loop are executed or skipped, that one and all after it given up |
| ToolExecution.CallState.Partition | internal/toolruntime/parallel.go:91-105 | the two lists are the calls to execute, each once, in order, by parallel safety |
| ToolExecution.Chosen | internal/toolruntime/parallel.go:91-105 | exactly the executed calls of one kind, ascending |
| ToolExecution.CallState.ExecuteSequentialTools | internal/agent/agent_tool_parallel_executor.go:113-127 | each remaining call has its own result, or is in the suffix refused after a cancellation |
| ToolExecution.CallState.DeliverAll | internal/agent/agent_tool_parallel_executor_delivery.go:29-33 | the log is the deliveries of all calls in order |
| ToolExecution.CallState.DeliverAt | internal/agent/agent_tool_parallel_executor_delivery.go:35-64 | what each status delivers |
| ToolExecution.CallState.ExecuteToolCalls | internal/agent/agent_tool_parallel_executor.go:28-51 | if batch reads are pointwise and nothing is cancelled, what is delivered is each planned call with the result it gets alone, whatever was merged and however it was scheduled |
| ToolExecution.AnsweredOnce | internal/agent/agent_tool_parallel_executor_delivery.go:29-64 | every function call is answered exactly once |
| ToolExecution.CallbacksInOrder | internal/agent/agent_tool_parallel_executor_delivery.go:29-64 | the callback sees exactly the executed and batched calls, each once, in order |
| ResponseParser.FirstPattern | internal/agent/agent_response_parser.go:30-37 | the loop finds the first place of any pattern |
| ResponseParser.ExtractExplanationAndTool | internal/agent/agent_response_parser.go:28-84 | the loop computes the specified split |
| ResponseParser.ValuePasses | internal/agent/agent_response_parser.go:47-80 | the brace scanner passes over every JSON value, strings and escapes included, without ending |
| ResponseParser.ExtractsTheObject | internal/agent/agent_response_parser.go:28-84 | a tool object is found exactly, whatever follows it, if and only if no pattern occurs before it |
| ResponseParser.ExtractsTheRest | internal/agent/agent_response_parser.go:82-83 | an object cut off anywhere is returned as far as it goes |
| ResponseParser.NoToolNoJSON | internal/agent/agent_response_parser.go:39-42 | no pattern means all explanation and no JSON, and a pattern means some JSON |
| ActiveContext.AppendRequiredRefs | internal/agent/provider_history_raw_output_refs.go:55-74 | the required refs are the first ones of each ID |
| ActiveContext.RequiredIsFirsts | internal/agent/provider_history_raw_output_refs.go:55-74 | IDs are distinct and none is empty or lost |
| ActiveContext.BodyCoverageExcerpt | internal/agent/provider_history_raw_output_excerpt.go:35-57 | the whole body, a smaller excerpt of an excerpt, or an excerpt around a hint |
| ActiveContext.CoverageFits | internal/agent/provider_history_raw_output_excerpt.go:35-57 | whatever is excerpted fits the budget it was excerpted for |
| ActiveContext.IndentBody | internal/agent/provider_history_raw_output_render.go:60-66 | every line of the trimmed body is indented |
| ActiveContext.RenderContextEntry | internal/agent/provider_history_raw_output_render.go:11-37 | the loop that takes three quarters of the budget ends and computes the specified entry |
| ActiveContext.EntryFits | internal/agent/provider_history_raw_output_render.go:11-37 | an entry that is produced fits and shows a coverage excerpt of the body; otherwise there is a reason |
| ActiveContext.Consider | internal/agent/provider_history_raw_output_active_context.go:67-100 | what must become of one ref with the tokens that are left, whatever the hints |
| ActiveContext.BuildActiveContext | internal/agent/provider_history_raw_output_active_context.go:42-115 | whatever the hints: required is injected plus missing plus insufficient on every path, the result is the ledger of what became of every required ref, and the tokens counted are within the budget once anything is injected |
| ActiveContext.LedgerBalances | internal/agent/provider_history_raw_output_active_context.go:31-33 | required is injected plus missing plus insufficient, so the three tests agree, and none fails exactly when every ref was injected and none was missing from the start |
| ActiveContext.EachFateRight | internal/agent/provider_history_raw_output_active_context.go:67-105 | what becomes of any ref is settled by its own scan and the entries injected before it |
| ActiveContext.InjectedShowsItsBody | internal/agent/provider_history_raw_output_active_context.go:67-105 | an injected ref is not sensitive, was read, and its entry shows a coverage excerpt of what a scan of its bytes renders, and for usable hints reports |
| HistoryCompact.CompressFailedPair | internal/agent/history_compact.go:72-118 | a failed call that is called again before the next user message becomes one line |
| HistoryCompact.TruncateToolResult | internal/agent/history_compact.go:161-195 | errors keep their first line, long results their head and tail |
| HistoryCompact.CompactOldToolResults | internal/agent/history_compact.go:29-67 | the pass computes, message by message on the original, what each becomes, and counts it |
| HistoryCompact.KeepsTheRest | internal/agent/history_compact.go:29-67 | length, roles, calls and IDs are kept, and everything from the last assistant message on |
| HistoryCompact.ErrorAgain | internal/agent/history_compact.go:122-157 | what the second and third pass make of an error |
| HistoryCompact.CutLines | internal/agent/history_compact.go:178-189 | the lines of a truncated result are its head, the notice and its tail; an empty head leaves an empty line |
| HistoryCompact.TruncatedAgain | internal/agent/history_compact.go:161-195 | within the limits a truncated result is left alone by the next pass |
| HistoryCompact.PassesSettle | internal/agent/history_compact.go:29-195 | the third pass changes nothing, and the second changes nothing if and only if no kept error line ends in blanks |
| HistoryCompact.TightSettles | internal/agent/history_compact.go:161-195 | without head lines and with a limit of one more than the tail, a text truncated twice is left alone exactly when it names the tokens it has |
| HistoryCompact.TightNeverSettles | internal/agent/history_compact.go:29-195 | under such limits a well-formed history that the third pass still changes |
| HistoryCompact.SettlesExactly | internal/agent/history_compact.go:29-195 | where head, notice and tail fit the limit, every history settles after two passes if and only if they still fit with an empty head counted as a line |
| Directives.Agent.Queue | internal/agent/normal_mode_runtime_directive.go:11-20 | a directive is queued trimmed, a blank one not at all |
| Directives.Agent.MarkDelivered | internal/agent/normal_mode_runtime_directive.go:29-49 | the nested loops take each delivered directive off once |
| Directives.Agent.Request | internal/agent/headless_request.go:9-37 | the snapshot goes with the request and is taken off when it succeeds |
| Directives.MarkRemovesOnce | internal/agent/normal_mode_runtime_directive.go:34-47 | each delivered directive removes exactly one equal pending one |
| Directives.SnapshotRemoved | internal/agent/normal_mode_runtime_directive.go:29-49 | delivering a snapshot leaves exactly what was queued after it, in order |
| Directives.PendingIsUndelivered | internal/agent/normal_mode_runtime_directive.go:11-49 | in every run what is pending is everything queued since the snapshot of the last successful delivery |
| AutoCompress.CliffIsOneTest | internal/agent/auto_compress_pricing_cliff.go:23-43 | where prices are never below that of an empty context and stay above it once they are, the two tests of the cliff are one |
| AutoCompress.MoreTokensStillRun | internal/agent/auto_compress_decision.go:40-113 | once some tokens start a compression, more tokens do |
| AutoCompress.CascadeIsOneThreshold | internal/agent/auto_compress_decision.go:40-113 | for such prices the cascade equals one threshold, or never runs |
| AutoCompress.NoGapExactly | internal/agent/auto_compress_pricing_cliff.go:23-43 | for prices never below that of an empty context, more tokens still run under all rules if and only if prices stay above it once they are |
| AutoCompress.FallingPricesLeaveAGap | internal/agent/auto_compress_pricing_cliff.go:35-40 | any price that comes back down leaves a gap: rules under which the larger context is not compressed while the smaller one is |
| AutoCompress.NotRunningLeavesHeadroom | internal/agent/auto_compress_local_thresholds.go:14-50 | on the local path, not compressing leaves room for the whole output |

## Left out

- Provider calls, tools, sub-processes, the file system, encryption, storage formats and the terminal: parameters or absent.
- Storage failures: saving and rewriting a session always succeed; a failed save before a resume or a feedback rerun is modelled only as `FeedbackNotSaved`.
- Unicode case folding, wide characters, secret redaction and multi-byte boundaries: text is ASCII and redaction is the identity.
- Excerpt.UnquoteQuote: reads the escapes quoting can produce for ASCII text, not back-quoted, rune or `\u` literals, because no rendered header holds them.
- Scanner.ChunkIndependence: says nothing about the printed body when the matched line is longer than 32 KiB, because the fragment kept of such a line depends on where the chunks end (Scanner.DifferentFragments).
- Scanner.ScanAll: which line matches is stated for hints that are not blank and at most 32 KiB long; whether a longer one is found depends on how much of its line a chunk brings, and whether a blank one is depends on the blanks of a line that were dropped.
- Excerpt.TrimMatchedLineKeepsTerm: a term longer than half the cut is itself cut, so nothing is said of it.
- PlanMode.RunLeaves: the retry after a token-limit error is not a step of a run; PlanMode.TokenLimitLeaves states what that path leaves instead.
- Continuation.ContinuationSafety: hash collisions between canonical prompts, response IDs with outer blanks, and sessions written by older versions of the program are not modelled.
- ToolExecution.CallState.ExecuteToolCalls: merging search_code calls is not modelled, because its result depends on a text splitter outside the core, nor is forEachIndexChunk, which only serves it; the statement about results assumes that a read does not depend on when in the turn it is made.
- ReadBatch.SegmentReadFileBatches: which calls are parallel-safe or batchable, and their paths, are fields of the call.
- ResponseParser.ExtractsTheObject: the order of digits, signs and exponents in a number is not checked, so it covers more texts than RFC 8259 allows.
- ActiveContext.BuildActiveContext: the fields that head an entry are one given text; how the refs are found in a projection report is not modelled.
- AutoCompress.CascadeIsOneThreshold: prices are a function on tokens, with availability that does not depend on them; the message printed and the summary request are not modelled.
- Dollar costs, usage statistics, spinners, display and status texts, project map and prompt assembly: easy members or plumbing.
