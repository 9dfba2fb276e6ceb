# Verification model of the inference engine

A Dafny model of the parts of the Qwen inference engine whose correctness is not numeric: speculative decoding
inside the scheduler, event delivery, the prefix cache, forced closing of thinking sections, the streaming text
splitter and stop guard, both key-value caches, and the kernels whose meaning is exactly algebraic (online
softmax, the Q8 product, head permutation views, the GGUF layout and top-k selection).

Conventions used throughout:

* A float is a real number. The neural network is a collection of unspecified per-row functions that may fail;
  a failure stands for every rejected shape, range or non-finite value. A model is any number of blocks, each an
  attention layer (a growing list of key and value rows) or a recurrent layer (any state).
* Structures that the program updates in place are classes whose methods are proved against functions on their
  values (`View`), and the theorems about whole runs are stated on those functions.
* Errors are `None` or a `false` result; an error's message is not modelled. Integers are unbounded.
* The clock, cancellation, the event channel and thread scheduling are an environment (`Delivery.World`) that
  may change its answer between any two observations. The tokenizer's decode, tool JSON parsing, the sampler's
  random draw and the exponential are parameters about which only what the text below says is known.

The files, from the bottom up:

* `Wrappers`, `Nonlinear`, `Fold`: options, products and quotients, folds over rows.
* `Network`, `Forward`, `Chunks`: the model, one forward call, and calls split into chunks.
* `Mtp`, `Lockstep`, `Greedy`, `Speculative`: the draft layer, its alignment with the target, greedy decoding,
  one speculative round.
* `Thinking`, `Decode`, `Overlap`, `Closure`, `LeftOpen`, `Equivalence`: the thinking controller, one decoding
  step, when two markers overlap, and the theorems about whole runs.
* `PrefixCache`, `Scheduler`, `Delivery`, `History`: cached prefixes, one active request, the worker loop and its
  events, and what a request has published at any moment.
* `TextSearch`, `Splitter`, `SplitterChunks`, `SplitterConflict`, `SplitterReading`, `StopGuard`: streaming text.
* `PagedKv`, `StridedKv`: the two key-value caches.
* `Lanes`, `Attention`, `GpuAttention`, `Words`, `Q8`, `HeadViews`, `Gguf`, `TopK`: kernels, layouts, selection.

## Model

| member | source | states |
|---|---|---|
| Network.LayerwiseIsRowwise | src/model/native.rs:272-283 | running every layer over a whole chunk gives the same rows and layer states as pushing one row through all layers at a time, including which inputs fail |
| Forward.StagedIsRowwise | src/model/native.rs:526-562 | a block that normalises, mixes and finishes a whole chunk in stages equals the block applied row by row |
| Forward.AttentionForward | src/model/native.rs:598-647 | the attention layer succeeds exactly when the chunk fits the cache, every key can be placed and every row's attention succeeds; then the cache is the old rows followed by one placed key and value per input row, and output i has attended to the old rows, the rows of the chunk before it and itself |
| Forward.GdnForward | src/model/native.rs:704-744 | matrix and convolution history go through the rows one after the other, each row's output coming from its own step; this is the causal fold of the row step |
| Forward.BlockForward | src/model/native.rs:526-562 | every row is normalised, mixed over the whole chunk by the layer's closed form and finished with its own residual; this equals the block applied row by row |
| Forward.ForwardedTrace | src/model/native.rs:251-312 | a successful call is a run of the rows through every block in order, then the final norm, then the head on every row or only the last; it commits each layer's state, the length within the window, the last hidden row, and the least next position after every row so far |
| Forward.ForwardEmbeddings | src/model/native.rs:251-312 | a forward call commits layers, length, next position and last hidden together, exactly as the row-wise specification says, and on any failure leaves the state untouched |
| Forward.ForwardText | src/model/native.rs:231-248 | a text call rejects out-of-range tokens and otherwise is the embedding call at consecutive positions |
| Chunks.ChunkInvariance | src/model/native.rs:251-312 | for every split of an input into non-empty chunks, the chunked calls succeed exactly when one call does, with the same state, hidden rows and all logits |
| Chunks.ChunkInvarianceLast | src/model/native.rs:251-312 | for calls that project only their last row: the chunked calls succeed if and only if every row goes through and the head accepts the last row of each chunk, and then they equal one call |
| Chunks.TextTwoLast | src/model/native.rs:231-312 | two consecutive text calls succeed if and only if all rows of the joined tokens go through and the head accepts the last row of each part, and then they end in the state and last logits of one call |
| Mtp.RunRows | src/model/mtp.rs:230-289 | the draft layer over fused token and hidden rows is one row-wise call, and a refused call leaves the state alone |
| Mtp.Prefill | src/model/mtp.rs:297-382 | prefill feeds exactly the right-shifted rows, keeps the last target hidden row and position as the tail, and changes nothing on failure |
| Mtp.ChunkedPrefillIsRightShift | src/model/mtp.rs:297-382 | for any chunking of the prompt, the rows fed are (token i, hidden i-1, position i-1) for i from 1, and the tail is the last target row |
| Mtp.ChunkedPrefillIsPrefill | src/model/mtp.rs:297-382 | chunked prefill and one prefill leave the same draft state |
| Mtp.StepWithHidden | src/model/mtp.rs:390-421 | one draft step consumes a token at the tail position with the tail or a given hidden row; afterwards the tail is the draft layer's own hidden row |
| Mtp.Replay | src/model/mtp.rs:427-459 | a successful replay leaves the sequence and logits of one call on the rows (token 0, tail, tail position), (token i, target row i-1, position + i), and its tail is the draft layer's own last row at the next position; it fails as a whole |
| Mtp.ReplayIsShift | src/model/mtp.rs:427-459 | token by token and in one call on those shifted rows, a replay leaves the same sequence and logits |
| Mtp.SeedFromTarget | src/model/mtp.rs:462-484 | seeding sets the tail from the target's last row only when there is none |
| Lockstep.SeedIsPrefillTail | src/model/mtp.rs:462-484 | seeding a draft that was never prefilled gives it the tail row and position that prefilling the same tokens would have left |
| Lockstep.PrefillAligns | src/model/mtp.rs:297-382 | after a prompt chunk the draft state is one row behind the target and its tail one position behind |
| Lockstep.ReplayKeepsAligned | src/model/mtp.rs:427-459 | replaying n tokens advances a draft state by n rows and n positions, so one row behind stays one row behind |
| Lockstep.StepHasRoom | src/model/mtp.rs:390-421 | a draft state one row behind a target that has room for another token has room and a valid position for its own step |
| Lockstep.ReplayHasRoom | src/model/mtp.rs:427-459 | no step of a replay that fits the window can fail for lack of a row or a position |
| Greedy.Argmax | src/frontend/sampling.rs:181-189 | the result is a maximum and the first of equal maxima |
| Greedy.ArgmaxLoop | src/engine/speculative.rs:268-276 | the speculative argmax picks the same index as plain greedy sampling, ties included |
| Greedy.ArgmaxRestricted | src/engine/speculative.rs:278-305 | the loop returns the restricted choice: over an allowed subset it beats every other allowed token, of equal ones the smaller index, whatever the order of the subset; an empty or out-of-range subset is refused |
| Greedy.Restricted | src/engine/speculative.rs:278-305 | that choice is allowed, beats every allowed token, and is refused exactly for an empty subset or a token outside the vocabulary |
| Greedy.VerifiedIsGreedy | src/engine/speculative.rs:200-217 | proposals each of which is the argmax after the ones before it are the greedy continuation, and one verification call computes the state and logits of decoding them one at a time |
| Greedy.GreedySplit | src/engine/speculative.rs:143-266 | greedy decoding of a + b tokens is greedy decoding of a, then of b from there |
| Speculative.Policy.DraftBudget | src/engine/speculative.rs:71-86 | the draft budget is the least of configured drafts, hard limit, tokens still wanted and share of the active requests; all of it at an acceptance rate from 0.75, half of it rounded up from 0.4, at most one below |
| Speculative.Propose | src/engine/speculative.rs:182-198 | the draft loop returns exactly the draft run of its budget, failures included |
| Speculative.DraftsWellProposed | src/engine/speculative.rs:182-198 | the draft run begins with the greedy token, stays within the budget, and only its last token can be an EOS |
| Speculative.DraftsFollow | src/engine/speculative.rs:188-198 | every later proposal is the restricted argmax of the draft after it has run all proposals before it |
| Speculative.RoundHasRoom | src/engine/speculative.rs:155-198 | in lockstep with a target that has room, no draft step within the round budget and no replay step of what fits the window is refused for lack of a row or a position |
| Speculative.Accept | src/engine/speculative.rs:209-223 | the accepted prefix is the longest whose tokens the verifier's logits confirm, and the correction is the argmax after it |
| Speculative.CommitIsGreedy | src/engine/speculative.rs:224-240 | accepted proposals plus correction, cut to budget and room, are the target's greedy continuation |
| Speculative.CommittedShape | src/engine/speculative.rs:224-240 | what is committed already fits the token budget and the room, so neither truncation cuts anything, and only its last token can be an EOS |
| Speculative.DecodeRound | src/engine/speculative.rs:143-266 | for every draft model, budget and draft vocabulary: a round verifies the draft run of its budget, commits between one and the allowed number of greedy tokens, only the last may be EOS, state and logits are the target's after exactly those tokens, the draft has run exactly those tokens behind the target's hidden rows from its seeded tail, lockstep is kept, and on any error both states are untouched |
| Thinking.ThinkingController.Observe | src/frontend/mod.rs:397-427 | one observed token updates mode, count, force flag and recent window, and reports the transition, as the specification function says |
| Thinking.ThinkingController.TakeForceClose | src/frontend/mod.rs:372-394 | a close is requested once, exactly inside a section whose budget is used up |
| Thinking.ObserveTracks | src/frontend/mod.rs:397-433 | for every token sequence the controller's bounded window decides the mode and the count that a scan of the whole text would decide |
| Closure.StepKeeps | src/engine/scheduler.rs:758-817 | one decoding step, whatever the sampler draws, keeps enough room to finish a start marker begun unchecked and to close the section, and keeps a half-sent end marker accounted for |
| Closure.ThinkingAlwaysCloses | src/engine/scheduler.rs:422-445 | over any run of an accepted request with a thinking budget whose markers do not overlap: output never exceeds its limit, no section is longer than budget plus end marker, and a request that ended by Stop or Length is outside thinking |
| Overlap.SentEndCloses | src/engine/scheduler.rs:759-775 | a whole end marker sent in an open section leaves it closed even where it closed early, unless the markers overlap |
| Overlap.EndBeginsNothing | src/engine/scheduler.rs:776-797 | text that ends with the end marker has not begun a start marker whose rest the check never sees, unless the markers meet |
| Overlap.SeparateMarkers | src/engine/scheduler.rs:776-797 | markers never overlap when the first start token is not in the end marker and the end marker does not end in the start marker before its last token |
| LeftOpen.OverlapHasPlan | src/engine/scheduler.rs:758-817 | from every overlap of plain markers, a text whose publication the checks let pass and that ends inside thinking |
| LeftOpen.WorkingPlanEndsOpen | src/engine/scheduler.rs:422-445 | such a text is published by a request that submit accepts, from a prefilled state, and the request then ends by Length inside thinking |
| LeftOpen.ClosesExactly | src/engine/scheduler.rs:758-817 | the exact condition: for plain markers every accepted request with a thinking budget ends outside thinking, whatever network, sampler and budgets, if and only if the markers do not overlap |
| LeftOpen.SimpleCondition | src/engine/scheduler.rs:758-817 | for a start marker that does not repeat its first token and an end marker that does not overlap itself, that is so if and only if no proper beginning of the start marker and the end marker are ends of one another |
| LeftOpen.SharedTokenLeavesOpen | src/engine/scheduler.rs:758-817 | start marker 2 3 and end marker 1 2: three tokens are enough to end by Length inside thinking |
| Equivalence.OutcomeSplit | src/engine/scheduler.rs:723-817 | the published outcome of greedy decoding is unchanged by cutting it after any number of greedy tokens none of which is an EOS |
| Equivalence.PlainRunReaches | src/engine/scheduler.rs:758-817 | the plain temperature-0 path publishes exactly the target's greedy outcome and ends within its token budget |
| Equivalence.RoundFollows | src/engine/scheduler.rs:723-757 | each published round is a non-empty piece of that same outcome, with EOS ending the request unpublished |
| Equivalence.SpeculativeRunsEnd | src/engine/scheduler.rs:723-757 | every round that does not end the request publishes a token, so a run has at most as many rounds as tokens left |
| Equivalence.SpeculativeEqualsPlain | src/engine/scheduler.rs:723-817 | whenever a speculative run completes, the plain run from the same state and logits completes with the same tokens, token events, completion count and Stop or Length reason |
| PrefixCache.PrefillExtends | src/engine/scheduler.rs:686-722 | prefilling more tokens from a prefilled state is prefilling the joined tokens from the start |
| PrefixCache.ResumeEqualsScratch | src/engine/scheduler.rs:589-598 | resuming from a cached prefix and prefilling from nothing, each with any chunk sizes, reach the same state and logits |
| PrefixCache.Cache.Lookup | src/engine/scheduler.rs:502-519 | the hit is the longest stored prefix of the prompt, becomes the most recently used entry, and nothing else changes |
| PrefixCache.Cache.Insert | src/engine/scheduler.rs:520-549 | inserting keeps keys distinct, the used bytes equal to the sum of the entries and within capacity, drops the old version, and evicts oldest entries only while the rest would not fit |
| PrefixCache.Cache.Evict | src/engine/scheduler.rs:535-541 | eviction removes a front segment, and keeping its last entry would exceed the capacity |
| Scheduler.Active.constructor | src/engine/scheduler.rs:572-635 | a new request starts from an empty state or from a faithful hit that is a prefix of its prompt, uses the draft layer only for greedy text requests without a thinking budget, and establishes the promise that every step keeps |
| Scheduler.Active.StepPlain | src/engine/scheduler.rs:758-817 | one plain step is the specified step: forced tokens first, late start markers end the request, an EOS inside thinking is replaced by the end marker, failures push nothing |
| Scheduler.Active.StepSpeculative | src/engine/scheduler.rs:723-757 | one speculative step publishes one round with its states and new acceptance rate, keeps the rate a rate and the draft in lockstep, and changes nothing exactly when the round has no outcome |
| Scheduler.Active.StepPrefill | src/engine/scheduler.rs:686-722 | one prefill step advances by one chunk, feeds the target the tokens or exactly the embeddings of that stretch and the draft layer the same tokens, stores the whole prompt with this state in the cache exactly when it is prefilled on the plain text path and asks for it, and fails only when target or draft refuses the chunk |
| Scheduler.Active.Step | src/engine/scheduler.rs:677-818 | a step is exactly one chunk, one plain step or one speculative round with the states, tokens and acceptance rate of that round, and it fails only when target or draft refuses the chunk or the round or plain step has no outcome; it keeps every cache entry faithful; while prefilling target and draft are those of the prompt so far, afterwards the request is a trail of specified steps from the prefilled state with the draft in lockstep; a failed step has pushed no event |
| Scheduler.NextRate | src/engine/scheduler.rs:742-745 | the smoothed rate stays a rate, keeps four fifths of itself when no draft was accepted and of its distance to one when all were |
| Scheduler.PrefillPromised | src/engine/scheduler.rs:686-722 | one more chunk of any size keeps that promise, and at the end of the prompt starts the trail |
| Scheduler.DecodePromised | src/engine/scheduler.rs:723-817 | one plain or speculative step extends the trail and keeps lockstep |
| Scheduler.PrefillKeepsSound | src/engine/scheduler.rs:686-722 | after each chunk, target state and logits are those of one call on the tokens so far and the draft is one row behind |
| Scheduler.MtpRequestEqualsPlainRequest | src/engine/scheduler.rs:677-818 | two admitted requests alike, one decoded speculatively and one plainly, with any chunk sizes and possibly a cached prefix: once the first has completed, no step of the second can fail, and when it has completed history, token events, completion count and reason are the same |
| Delivery.ReadShape | src/engine/scheduler.rs:636-676 | a readable trace is tokens 0, 1, 2, … then at most one error, then at most two terminal events of which a second is an interrupt, and Stop or Length count exactly the tokens before them |
| Delivery.PlainStepReads | src/engine/scheduler.rs:758-829 | whatever a plain step pushes keeps the trace readable; it publishes a token or ends the request |
| Delivery.SpeculativeStepReads | src/engine/scheduler.rs:723-757 | whatever a published round pushes keeps the trace readable; it publishes at least one token or ends the request |
| Delivery.MoveReads | src/engine/scheduler.rs:677-829 | every successful step, whichever of the three, lowers the measure of prompt left, tokens left and events waiting |
| Delivery.InterruptIfNeeded | src/engine/scheduler.rs:657-676 | an interrupt happens once, replaces everything unsent by one terminal event that says Cancelled when the cancel flag is up and otherwise Deadline, and is the second terminal event exactly when one had already been delivered |
| Delivery.SendAll | src/engine/scheduler.rs:899-923 | under any channel answers the delivered events are a readable prefix in order; the loop ends with nothing waiting or at an answer other than sent, and drops the request exactly when the channel is closed or has been full too long since the last event sent; a second terminal event arises if and only if the first was waiting, everything waiting was sent while no flag was up, and one was up at the check that follows |
| Delivery.LateFlagHappens | src/engine/scheduler.rs:899-923 | for any number of waiting events there is an environment with flags that never go down in which that happens, so one terminal event per request is not guaranteed |
| Delivery.Turn | src/engine/scheduler.rs:875-931 | one turn steps its request exactly when the channel is open, no flag is up, nothing waits and nothing has ended it: it then makes one chunk, one plain step or one round, or pushes exactly Error and the failed terminal event; whenever the channel takes the first event the measure of work left goes down; the stream stays readable, the promise and the cache faithful, and the request leaves only dropped or with everything delivered |
| Delivery.Activate | src/engine/scheduler.rs:855-868 | every admitted request starts at a longest stored prefix of its prompt if it may use the cache and there is one, else from nothing, with a readable stream and a promise that holds; one admitted too late has exactly the Deadline event waiting; the cache stays faithful |
| Delivery.Worker.Admit | src/engine/scheduler.rs:845-868 | admission keeps the gauge equal to the queue length and within the limit, appends the new request as activated with bounded work left, and keeps every request's promise and the cache faithful |
| Delivery.Worker.FrontTurn | src/engine/scheduler.rs:872-931 | the front request takes one turn, which steps it whenever it can and lowers its work unless its channel did not take an event, and goes to the back or leaves with its promise kept; no other request is touched, the others keep their order, and the gauge follows |
| Delivery.Worker.Pass | src/engine/scheduler.rs:870-932 | every request queued at the start of a pass gets exactly one turn and gets on unless its channel did not take an event; survivors keep their order, one that leaves is done or was blocked, the gauge equals the queue length again, the cache stays faithful, and no two requests share state |
| Delivery.Worker.Serve | src/engine/scheduler.rs:842-936 | while no job arrives and channels take events, every pass lowers every queued request's work, so after as many passes as any request had work left the queue is empty, every client has received all events of its request, and a request that completed by itself has the log of its trail |
| Delivery.ClientsAgree | src/engine/scheduler.rs:677-932 | two clients of the same text request, one served speculatively and one plainly in any environments, receive the same tokens and reason once both have completed by themselves |
| History.PlainStepRecounts | src/engine/scheduler.rs:758-829 | a plain step keeps: state and logits are those of one call on prompt and published tokens, every published token was drawn there or belongs to a budgeted end marker, and the log is these tokens in order |
| History.SpeculativeStepRecounts | src/engine/scheduler.rs:723-757 | a published speculative round keeps the same account |
| History.RequestRecounts | src/engine/scheduler.rs:677-829 | between any two turns of a decoding text request, whatever its chunks, cache hit and drafts, that account holds |
| History.ClientReceives | src/engine/scheduler.rs:677-932 | the client of a request that completed by itself has received tokens each of which the sampler drew on the logits of one call on everything before it, then the terminal event that counts them: Stop after drawing an EOS, Length at the token limit; only a budgeted end marker is not drawn |
| TextSearch.LongestStopPrefixSuffix | src/frontend/decoder.rs:199-215 | the result is the longest end of the text that begins one of the patterns |
| TextSearch.StraddleHolds | src/frontend/decoder.rs:199-215 | a pattern that straddles a cut has left its beginning at the end of the first part |
| Splitter.DrainConserves | src/frontend/decoder.rs:345-387 | the pieces a drain cuts off, with their markers put back, followed by what it keeps, are the pending text |
| Splitter.OutputSplitter.DoDrain | src/frontend/decoder.rs:345-387 | the drain loop emits exactly the events of the pieces that the specification cuts, parsing tool JSON when a tool section closes; what these events are is fixed by `SplitterReading` |
| Splitter.OutputSplitter.PushText | src/frontend/decoder.rs:329-333 | a push appends text and drains all but a possible marker beginning |
| Splitter.OutputSplitter.Finish | src/frontend/decoder.rs:334-344 | finishing drains everything, appends Finished, and rejects an unterminated tool section |
| Splitter.SaidBefore | src/frontend/decoder.rs:329-344 | a push and the end keep the events said before and depend on nothing of them |
| SplitterChunks.NextShift | src/frontend/decoder.rs:401-458 | holding back the longest possible marker beginning finds the same next marker as searching the whole text |
| SplitterChunks.StreamingEqualsBatch | src/frontend/decoder.rs:329-458 | without a conflicting marker pair, every chunking of every text gives the events, joined per channel, or the failure, of one push plus finish |
| SplitterConflict.StreamConserves | src/frontend/decoder.rs:329-458 | for every chunking, re-inserting the consumed markers in order reproduces the input |
| SplitterConflict.ConflictBreaksStreaming | src/frontend/decoder.rs:401-437 | the condition is exact: as soon as one content marker lies strictly inside the other without beginning it, some text and chunking differ from one push |
| SplitterReading.ReadingExists | src/frontend/decoder.rs:345-437 | every text divides, from every state, into text outside sections and thinking and tool sections, each ended by the first marker that can end it |
| SplitterReading.StreamSays | src/frontend/decoder.rs:329-399 | without a conflicting marker pair, for every chunking: the stream fails exactly when a tool section is left open or a closed one does not parse, and otherwise its joined events are, in order, those of the sections of the text and Finished |
| SplitterReading.StreamChannels | src/frontend/decoder.rs:329-399 | then the content said is the text outside every section, the thinking said is the text inside the thinking sections, and the calls are the tool sections with their parsed values |
| SplitterReading.CutChannels | src/frontend/decoder.rs:329-399 | for all markers and every chunking: the input is cut into sections with the markers between them, and every stretch is said on the channel that its markers open |
| StopGuard.FindStop | src/frontend/decoder.rs:187-197 | the loop over stops finds the earliest occurrence, of equal starts the shortest stop |
| StopGuard.FirstStop | src/frontend/decoder.rs:187-197 | the result occurs, no stop begins earlier, and none is missed |
| StopGuard.TokenDecoder.FlushPending | src/frontend/decoder.rs:118-152 | flushing cuts at the first stop, or returns all but what may begin a stop or still be rewritten, within the byte limit; the returned text is exactly what is added to the emitted text, and a stop is told exactly when the pending text contains one, the first |
| StopGuard.TokenDecoder.Push | src/frontend/decoder.rs:77-103 | a token extends the decode; a decode that contradicts emitted text is refused; a finished decoder ignores tokens; the returned text is what is added to the emitted text |
| StopGuard.PushKeeps | src/frontend/decoder.rs:77-152 | one more token keeps emitted plus pending equal to the decode with no stop able to begin in the emitted text, or stops exactly before the first stop |
| StopGuard.StreamIsGuarded | src/frontend/decoder.rs:77-166 | for every stream of extending decodes: until a stop completes nothing of any stop, complete or to come, has been emitted; once one does, exactly the text before the first stop has been; the returned texts add up to the emitted text, and exactly the push that completes a stop tells it; and the byte limit holds |
| StopGuard.StreamReturns | src/frontend/decoder.rs:77-166 | on the returned chunks alone: if no decode so far contains a stop, their texts add up to a beginning of the decode in which no stop can begin, what is held back begins a stop or is a final U+FFFD, and none tells an end; else one push tells the first stop, nothing follows it, and the texts add up to exactly the text before that stop |
| StopGuard.FinishedStreamReturns | src/frontend/decoder.rs:77-152 | a whole stream without a stop, finish included, returns exactly its decode |
| StopGuard.FinishEmitsAll | src/frontend/decoder.rs:106-152 | finishing without a stop emits everything held back, or fails exactly when the whole text exceeds the byte limit |
| StopGuard.HeldIsEnough | src/frontend/decoder.rs:138-145 | what is held back is safe against every decode that keeps the stable part if and only if the stable part does not end in a longer beginning of a stop |
| StopGuard.StablePushKeeps | src/frontend/decoder.rs:77-152 | one more token of a stream whose decodes keep the stable part stops exactly before the first stop, or leaves nothing of a stop emitted if and only if enough was held back |
| StopGuard.StableStreamIsGuarded | src/frontend/decoder.rs:77-152 | for every stream whose decodes keep the stable part: if enough is held back at every push, nothing that can belong to a stop, now or after any rewriting, is ever emitted or returned |
| StopGuard.RewriteLeaks | src/frontend/decoder.rs:84-103 | when the second character of a stop arrives byte by byte, the rewritten U+FFFD lets the beginning of the stop out and the stop is never reported |
| PagedKv.PagedKvCache.MakeMut | src/engine/state.rs:67-67 | after copy-on-write no other handle holds the last page, counts equal holders, and the content is the same |
| PagedKv.PagedKvCache.Append | src/engine/state.rs:52-84 | a valid row is added at the end of this handle and no other handle changes; width, room and finiteness decide acceptance |
| PagedKv.PagedKvCache.Truncate | src/engine/state.rs:99-119 | exactly the first n rows remain in this handle and no other handle changes; extending is refused |
| PagedKv.PagedKvCache.Snapshot | src/engine/state.rs:19-20 | a clone shares pages, holds the same rows, and every reference count is again the number of holders |
| PagedKv.PagedKvCache.Drop | src/engine/state.rs:19-26 | dropping a handle gives back its references and leaves the others sound |
| PagedKv.PagedKvCache.Get | src/engine/state.rs:86-96 | a token's page slice is its row, and an index past the end is refused |
| PagedKv.PagedKvCache.ResidentBytes | src/engine/state.rs:121-126 | reserved bytes cover the stored rows and never exceed eight bytes per float column of a full context, also after clones shrank buffers |
| PagedKv.Interleave | src/engine/state.rs:52-126 | after any interleaving of appends, truncations, clones and drops over any number of handles, each handle holds exactly the rows of an unshared list |
| StridedKv.CopyHeads | src/engine/cache.rs:59-68 | copying per head writes each head's block into its strip and nothing else |
| StridedKv.KVCacheLayer.EnsureCapacity | src/engine/cache.rs:38-73 | growth keeps every head's contents, never passes the limit, and succeeds exactly when the length fits |
| StridedKv.KVCache.Append | src/engine/cache.rs:118-193 | an accepted block is appended to every head of one layer; a rejected one changes no contents but may leave a new empty layer |
| StridedKv.KVCache.AppendDecodeOneRaw | src/engine/cache.rs:195-258 | the one-row append does to the cache what the block append of one row does |
| StridedKv.KVCache.Get | src/engine/cache.rs:280-312 | the compact tensors hold, head by head, exactly the rows appended so far |
| StridedKv.KVCache.Restore | src/engine/cache.rs:352-382 | restoring succeeds exactly when every length fits its layer, and cuts each layer to that length |
| StridedKv.AppendAll | src/engine/cache.rs:118-258 | after any run of appends of both kinds, accepted or refused, the contents are those of the same run on lists of rows per head |
| StridedKv.SpeculateAndRestore | src/engine/cache.rs:341-382 | after any run of appends of both kinds, restoring an earlier snapshot succeeds and gives back every layer's contents; layers created since are empty |
| Lanes.TreeReduce | src/gpu.rs:679-689 | the halving loop with one barrier per step leaves the total of all 64 slots in slot 0 |
| Lanes.LanesThenTree | src/gpu.rs:442-467 | folding in 64 strided lanes and then over the lanes is folding in order, for every length |
| Attention.AnyReference | src/model/math.rs:126-154 | the softmax of a column does not depend on the reference score |
| Attention.AttendHead | src/model/math.rs:126-154 | the rescaling loop gives, per output, the exponentially weighted sum of values over the sum of weights, and touches no other head |
| Attention.KvOffset | src/model/math.rs:128-128 | the grouped head's columns lie inside the key-value row |
| Attention.ColumnsServed | src/model/math.rs:128-128 | query heads are shared out evenly and in order, and a head reads the columns of the key-value head that serves its group |
| Attention.CausalAttention | src/model/math.rs:102-155 | valid geometry and a non-empty cache give softmax attention for every head; anything else is refused |
| GpuAttention.SerialHead | src/gpu.rs:521-570 | the serial kernel gives the same softmax although its maximum starts at a finite number |
| GpuAttention.ScorePass | src/gpu.rs:416-446 | the first pass stores every score and finds their maximum |
| GpuAttention.WeightPass | src/gpu.rs:448-472 | the second pass replaces scores by weights and finds their sum |
| GpuAttention.TwoPassHead | src/gpu.rs:392-483 | the 64-lane kernel gives the same softmax for every context it accepts |
| GpuAttention.DecodeAttention | src/gpu.rs:3408-3470 | over all heads: every query head attends to the cache of its key-value head, with the exact refusals, whichever kernel the context length selects |
| GpuAttention.CacheServed | src/gpu.rs:408-411 | a query head reads the cache strip of the key-value head that serves its group |
| GpuAttention.SameCache | src/gpu.rs:408-423 | a flat head-major cache that holds the paged rows has their scores and columns |
| GpuAttention.KernelsAgree | src/gpu.rs:401-423 | over a head-major cache that holds the same tokens, the GPU kernels and the CPU attention give the same output for every query, or both refuse |
| Words.OrLane | src/gpu.rs:6265-6272 | or-ing a shifted byte into an empty lane of a word sets that lane and no other |
| Words.PackRow | src/gpu.rs:6265-6272 | packing puts every signed byte of a row in its lane and writes no other row's words |
| Words.CastPacks | src/gpu.rs:6113-6120 | reading bytes as little-endian words packs every row that begins at a word |
| Words.UnpackPacked | src/gpu.rs:628-635 | unpacking a packed lane gives the signed byte back |
| Q8.KernelsAgree | src/gpu.rs:735-738 | the scalar and the vec4 kernel weigh a byte alike if and only if it is not -128 |
| Q8.LaneWords | src/gpu.rs:650-659 | one lane adds the products of its own words, four at a time |
| Q8.RowKernel | src/gpu.rs:639-694 | lanes, tail, tree and scale compute the scaled product of the row, for every width |
| Q8.RowChunks | src/gpu.rs:4263-4278 | chunks follow one another over all rows and each fits the buffer limit |
| Q8.CoveredOnce | src/gpu.rs:4263-4278 | every output row belongs to exactly one chunk |
| Q8.Matvec | src/gpu.rs:4240-4278 | every output is the scaled product of its row, whatever the width, row count and chunk limit, and the refusals are exact |
| Q8.BatchedProduct | src/backend/wgpu_q8.rs:131-147 | every output of every input row is the scaled product of that input row and its weight row, summed product by product |
| Q8.SameProduct | src/backend/wgpu_q8.rs:131-147 | without the byte -128, which the quantiser never produces, batch, scalar and vec4 forms give the same product |
| Q8.QuantizeRow | src/backend/wgpu_q8.rs:98-104 | the clamp never bites, -128 is never produced, and each weight is off by at most half a step |
| Q8.ProductNear | src/backend/wgpu_q8.rs:86-105 | a product with quantised weights is within half a step per unit of input of the exact one |
| Q8.Linear | src/backend/wgpu_q8.rs:86-147 | quantising every row and multiplying, one input row on the GPU or several in a batch, is per output within scale/2 times the sum of the absolute inputs of the exact product |
| HeadViews.Bijection | src/model/gguf.rs:460-491 | the grouped-to-tiled index map and the tile-major order are inverse bijections for all head counts and widths |
| HeadViews.VHeadPermutation | src/model/gguf.rs:460-491 | the nested loops build exactly that map, and reject exactly the zero or indivisible head counts |
| HeadViews.HeadOrderIsPermutation | src/model/gguf.rs:460-491 | the map repeats no index and misses none |
| HeadViews.QkvPermutation | src/model/gguf.rs:531-543 | queries and keys stay in place and the value heads are permuted behind them, as a permutation of all rows |
| HeadViews.ComposeViewMap | src/artifact/mod.rs:455-478 | composing with an existing map reads through both and refuses indices outside |
| HeadViews.NestedRows | src/artifact/mod.rs:228-257 | a row view of a row view reads row m1[m2[i]] |
| HeadViews.NestedColumns | src/artifact/mod.rs:259-286 | a column view of a column view reads column m1[m2[j]] |
| HeadViews.ViewsCommute | src/artifact/mod.rs:228-286 | row and column views in either order are the same tensor |
| HeadViews.ReadRow | src/artifact/mod.rs:314-361 | reading a row gives the logical row through both maps |
| HeadViews.VRows | src/model/gguf.rs:493-509 | the row view shows each logical head row from its tiled place, and refuses a wrong row count |
| HeadViews.VRowsQkv | src/model/gguf.rs:511-544 | the combined view keeps query and key rows, shows each value row from its tiled place, and refuses a wrong row count |
| HeadViews.VColumns | src/model/gguf.rs:568-583 | the column view does the same for columns |
| HeadViews.VVector | src/model/gguf.rs:556-566 | the vector view does the same for a single row of one column per head, and refuses any other shape |
| HeadViews.TileMajor | src/model/gguf.rs:460-491 | writing tile by tile, and in each tile one head per key head, puts at every place the logical index that the map inverts |
| HeadViews.TiledRowsRoundTrip | src/model/gguf.rs:493-509 | rows written in tiled order and read through the row view are the logical rows |
| HeadViews.TiledColumnsRoundTrip | src/model/gguf.rs:568-583 | columns written in tiled order and read through the column view are the logical columns |
| Gguf.MeasureTensor | src/artifact/mod.rs:1051-1077 | exactly the well-formed tensors are measured, and their length is that of their blocks |
| Gguf.BlockBytes | src/artifact/quant.rs:22-39 | a block holds its weights at the format's bits each and its scales |
| Gguf.RowsExact | src/artifact/mod.rs:411-439 | length over rows is exact and is the length the format's row decoder demands |
| Gguf.RowSlices | src/artifact/mod.rs:418-429 | row slices lie inside the tensor, do not overlap, and reach its end |
| Gguf.RowSlice | src/artifact/mod.rs:411-439 | a row read hands the decoder exactly that slice, or is refused |
| Gguf.NoOverlap | src/artifact/mod.rs:1097-1106 | sorting by start and comparing neighbours accepts exactly the pairwise disjoint tables |
| Gguf.ParseTable | src/artifact/mod.rs:1043-1131 | a table is accepted if and only if every tensor is well-formed, lies between data start and end of file, and no two overlap |
| TopK.SelectsUnique | src/engine/sampler.rs:93-167 | the k best indices, by value and then by smaller index, are one set however they are found |
| TopK.InsertionTopK | src/engine/sampler.rs:93-110 | the bounded insertion list holds the k best, best first |
| TopK.HeapTopK | src/engine/sampler.rs:149-167 | the heap form holds the k best, ordered by value |
| TopK.TopKIndices | src/engine/sampler.rs:93-110 | whichever form is chosen, the result is the k best without repetition, in order of value |
| TopK.FormsAgree | src/engine/sampler.rs:93-167 | both forms keep the same indices, and in the same order when values differ |

## Left out

* Floating point: rounding, overflow, NaN and the accuracy of exp; rows are real vectors and a non-finite row is a failed row function.
* Error messages, and which of several errors is reported first; every error is `None`, `false` or one `Error` event.
* Overflow of `usize` arithmetic and allocation failure.
* The counters for completed, failed, cancelled, queued and generated tokens; only the active gauge is kept.
* Temperature sampling, repetition penalty and random number generation: the sampler's draw is any function of logits and history.
* Tokenizer, templates, JSON parsing, image input and request size limits; the splitter's tool parser and the decoder's decode are parameters.
* HTTP, authentication, command line, device setup, native plugins, file mapping and GGUF metadata parsing.
* The numeric content of the layers (rotary embedding, convolution, gated delta rule, norms): unspecified row functions.
* The decoding of quantised blocks into numbers: only the row lengths that the decoders demand are modelled.
* The decision whether a Q8 weight is kept resident within the byte budget.
* Scheduler.Active.StepPrefill: the bytes that a cached state occupies are a parameter of the configuration rather than computed from the pages of `PagedKv`.
* LeftOpen.ClosesExactly: both directions are proved where the start marker does not repeat its first token or the end marker ends in it at most once; outside that, markers that do not overlap still always close, but some that overlap may be safe, because a first end marker inside the start marker can close the section before the second one.
* Equivalence.SpeculativeEqualsPlain: says nothing about a speculative run that fails, because a draft step may be refused where the target alone would not be.
* Mtp.Replay: the tail after replay holds the draft layer's own hidden row, so no equality with prefill is claimed for the tail.
* StopGuard.StreamIsGuarded: stated for decodes that extend one another; `StableStreamIsGuarded` and `RewriteLeaks` say what happens when a final U+FFFD is rewritten.
* StopGuard.TokenDecoder.FlushPending: text is a sequence of characters, so cutting at a byte that is not a character boundary cannot arise; lengths are still counted in UTF-8 bytes.
* Delivery.Worker.Serve: the loop runs a given number of passes with no new job; the stop flag, and jobs admitted between passes, are `Worker.Admit` and the environment's.
* Delivery.Turn: the request that is being stepped when the worker stops, and the worker's sleep, are not modelled.
* Delivery.Worker.Admit: a request whose state cannot be created gets one error event and never joins the queue; that branch is not modelled.
* GpuAttention.TwoPassHead: lanes between two barriers run one after another (so do those of `Q8.RowKernel`); the positions they touch are disjoint, which is what makes the order irrelevant.
* TopK.HeapTopK: the binary heap and the unstable sort are library code, represented by the set of candidates and by any ordering that sorts by value.
* PagedKv.PagedKvCache.MakeMut: weak references do not occur, and a page with no holders is simply unreachable.
