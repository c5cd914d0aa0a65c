# Dressage in Dafny

Dressage sits between an agent and a model server and records exactly which tokens the model saw and
produced; those tokens become training data. This project models the parts where that is hard to get
right and proves what they promise, for all inputs, all runs and all interleavings. The parts meet in
`Provenance.TrainedTokensAreOnPolicy`: every trained token is what the weights named beside it produce from
exactly the tokens the training record holds before it.

| module | what it models |
|---|---|
| `Lineages`, `Routing`, `Recorder`, `Recordings`, `ProxySession` | the token recorder: choosing a lineage for a request, building its prompt incrementally, recording the step; what a run of requests leaves behind; the session object in its imperative form |
| `Segments`, `Finalize`, `Provenance` | cutting lineages into segments and turning them into training records; where every trained token comes from |
| `Stitching`, `GenerationOutcome`, `SglangClient` | generation that survives preemption, how it ends, and the aligned arrays it starts from |
| `RoutedExperts`, `StepExperts`, `RowCounts` | selecting routed-expert rows, the targets the server computes for a step, and the rows counted over a segment |
| `PauseProtocol` | the pause, resume, version and shutdown protocol of the generation controller |
| `VersionGuards` | the epoch and version guards of a trajectory |
| `TurnLedger` | the turn ledger of a blackbox session |
| `SseFraming`, `AnthropicStream`, `ResponsesStream` | incremental event framing and the two stream translators |
| `TrajectoryStore` | the double index of finalized segments |
| `HookKeys` | the lazily pruned idempotency keys of tool-call hooks |
| `MixtureScheduler`, `ConvertSamples` | smooth weighted round-robin; loss denominators and rollout ids |
| `Wrappers`, `Sequences`, `Strings` | shared helpers |

Objects that the original updates in place are classes whose methods are proved to do exactly what a
function on values says (`View() == Step(old(View()), ...)`, `Valid()`); the laws are then proved about
those functions. Concurrent code is a state machine whose actions are the stretches of code that run
under one lock without suspension. Tokenizers, chat templates, the model and the decoder are parameters
that may fail.

`dafny verify dfyconfig.toml` checks everything.

## What turned out to be conditional

Each of these is a law the code meets only under a condition. The condition is proved exact, and an
input outside it is given.

- A remembered rendering is keyed by the tools with their JSON keys sorted, but was made from the tools as
  they came. It is the fresh rendering exactly when both lists render that conversation alike
  (`Routing.CachedIsFreshIff`, `Routing.CachedRenderingsAreFreshIff`); for all conversations that is a
  property of the key (`Routing.CacheIsExactIffKeyRenders`). Otherwise a request whose tools are only
  written differently opens a lineage of its own (`Recorder.RewrittenToolsSplitTheLineage`). What is
  recorded stays exact either way: no result about recorded tokens depends on it.
- A response that had already ended when it was marked interrupted is generated past its end if token
  budget is left (`Stitching.SameAsUninterrupted`, `Stitching.LateAbortOverruns`).
- A pause after a shutdown clears the event that waiting generations need to see the shutdown
  (`PauseProtocol.WaitersSeeShutdownUnlessPaused`, `PauseProtocol.PauseAfterShutdownHidesIt`).
- `read_batch` leaves the trajectory index stale unless every trajectory is the greatest of some drained
  instance exactly when nothing of it is left: the `else` there belongs to the `for`
  (`TrajectoryStore.ReadBatchAgreesIff`, `TrajectoryStore.TwoTrajectoriesDisagree`). A later pop then hands
  out drained items again (`TrajectoryStore.StaleItemsAreHandedOutAgain`) or returns nothing although items
  are left (`TrajectoryStore.DroppedItemsAreLost`).
- Draining the keepalive prelude loses a frame that opens with a comment but also has a data line
  (`SseFraming.PreludeIsInvisible`, `SseFraming.CommentedDataIsLost`).
- Routed-expert row counts of a segment make up its token count minus one unless its first step recorded
  no token and a later one did (`Segments.SegmentRowCounts`, `RowCounts.EmptyPromptMiscounts`). It never
  happens with a tokenizer that gives every conversation a token
  (`RowCounts.SegmentRowsAreTokensMinusOne`, `RowCounts.StepRowsAreCounted`).
- The streamed and the plain Responses form differ for unstripped reasoning and for blank content beside
  tool calls (`ResponsesStream.StreamedItemsArePlainIff`, `ResponsesStream.UnstrippedReasoningDiffers`,
  `ResponsesStream.BlankContentDiffers`); the proxy's own normalisation rules both out
  (`ResponsesStream.EmittedCompletionsStreamAlike`).
- An Anthropic stream is well formed exactly when the chunks never return to a tool call after something
  else began (`AnthropicStream.WellFormedIffInOrder`, `AnthropicStream.ReturningBreaksTheStream`).

A session's remembered rollout epoch may be older than its first step's, when the request that set it
failed; a second step is let in only if they agree, so `VersionGuards.OneEpochPerSession` holds all the same.

## Model

| member | source | states |
|---|---|---|
| `Lineages.Merge` | dressage/proxy/tito/tito_tokenizer.py:192-213 | the tokenized prefix, one newline where an end marker lacks it, and the tokens of the added messages, nothing else; it fails only where those do not tokenize |
| `Lineages.AlignVersions` | dressage/proxy/server.py:1748-1751 | one version per response token whatever came back; given versions are kept when the count fits |
| `Lineages.StepsOf` | dressage/proxy/server.py:1642 | the loop collects the lineage's steps in order |
| `Lineages.FindTail` | dressage/proxy/server.py:1643-1646 | the loop finds where the last segment of a lineage starts |
| `Lineages.SegmentIsTail` | dressage/proxy/server.py:1641-1651 | tokens since the last boundary, read off the whole session, are the tokens of the lineage's last segment |
| `Lineages.PromptContinuesSegment` | dressage/proxy/server.py:1666-1729 | a prompt either continues the lineage's current segment token for token or starts a new one in full, on append, branch, create, boundary and tokenization failure alike |
| `Lineages.PromptIsBuiltFrom` | dressage/proxy/server.py:1666-1729 | with a base step that no boundary cuts off and added messages that tokenize, the prompt is all the base saw and said, continued; only otherwise is it the whole conversation tokenized, marked failed exactly when there was such a base |
| `Lineages.SegmentIsLatestStep` | dressage/proxy/server.py:1641-1651 | a lineage's current segment is everything its newest step saw and said |
| `Lineages.MadeStepIsExact` | dressage/proxy/server.py:2396-2437 | the recorded step completes the segment to prompt plus response, overflow included |
| `Lineages.MadeStepIsMasked` | dressage/proxy/server.py:1731-1766 | context carries mask 0 and the input version, each response token mask 1, itself and its own version |
| `Lineages.RecordKeepsInv` | dressage/proxy/session_manager.py:416-569 | recording keeps ids increasing, lineage heads current, lineages chains, tokens exact, prompts extending their base and masks aligned |
| `Routing.CachedIsFreshIff` | dressage/proxy/server.py:981-998 | a remembered rendering is the fresh one if and only if it is unusable, its key differs, or both tool lists render the conversation alike |
| `Routing.CacheIsExactIffKeyRenders` | dressage/proxy/server.py:456-487 | remembering is invisible for all conversations and tools if and only if tools with one key render alike, which sorting JSON keys does not ensure |
| `Routing.CachedRenderingsAreFreshIff` | dressage/proxy/server.py:1012-1026 | the selection reads fresh renderings if and only if that holds of every recorded step |
| `Routing.FineKeyReadsFresh` | dressage/proxy/server.py:981-998 | with a key that is fine enough the selection always reads fresh renderings |
| `Routing.StaleRenderingOpensLineage` | dressage/proxy/server.py:981-1084 | a stale rendering makes a request open a lineage where a fresh one would append |
| `Routing.PrefixIndex.Insert` | dressage/proxy/session_manager.py:70-74 | an inserted step is listed and filed under its messages, and nothing else changes |
| `Routing.PrefixIndex.Candidates` | dressage/proxy/session_manager.py:76-91 | every inserted step exactly once, those filed under a prefix of the request first, whatever order the sets are read in |
| `Routing.BestExists` | dressage/proxy/server.py:1029-1040 | among any nonempty set of candidates one beats all others |
| `Routing.BestIsUnique` | dressage/proxy/server.py:1029-1040 | that candidate is unique, so the order of iteration cannot matter |
| `Routing.SortAscends` | dressage/proxy/server.py:1040 | sorting by the key puts each candidate before everything it beats |
| `Routing.ChoiceIsLongestPrefix` | dressage/proxy/server.py:1012-1084 | the chosen step is, of the renderings as read, the longest prefix of the request, a lineage's newest before others, the most recent of those; a lineage differing by tools only when no rendering matches |
| `Routing.RouteIsToThePreferred` | dressage/proxy/server.py:1029-1084 | the route goes on from the best match, appending if it is its lineage's newest step and branching if not; with no match it appends to the best lineage that differs by tools; it creates a lineage exactly when there is neither |
| `Routing.RouteForIsOk` | dressage/proxy/server.py:1005-1084 | an append only ever extends a lineage's newest step; a branch or create opens a lineage of its own |
| `Recorder.RouteRequestIsOk` | dressage/proxy/server.py:2010-2035 | the same holds of the safety reset after a rendering failure |
| `Recorder.ResetGoesOnFromNewest` | dressage/proxy/server.py:2010-2035 | after a rendering failure a request that continues the newest step appends to it, and any other creates a lineage |
| `Recorder.ApplyKeepsInv` | dressage/proxy/server.py:1988-2108 | one request, whatever fails in it, keeps the session invariant |
| `Recorder.RunKeepsInv` | dressage/proxy/server.py:1988-2108 | so does every run of requests |
| `Recorder.RecordIsWhatTheModelSaw` | dressage/proxy/server.py:1641-1766 | in every reachable session and for every recorded step, the lineage's tokens since its last boundary are prompt plus response |
| `Recorder.LineageIsAChain` | dressage/proxy/session_manager.py:561-567 | each later step of a lineage appends to the one before it and, unless a boundary intervenes, its prompt continues all that step saw and said |
| `Recorder.LineageStartsFresh` | dressage/proxy/session_manager.py:561-567 | the first step of a lineage is no append |
| `Recorder.RecordedStepsStay` | dressage/proxy/session_manager.py:561-562 | requests only add steps; recorded ones never change |
| `Recorder.SegmentHasOneToolSet` | dressage/proxy/server.py:2051-2092 | steps of a lineage with no boundary between them were offered the same tools |
| `Recorder.StepCompletesGeneration` | dressage/proxy/server.py:2446-2464 | the segment before a step and what it records make up the whole generation, which is what the routed-expert targets are computed from |
| `Recorder.RewrittenToolsSplitTheLineage` | dressage/proxy/server.py:981-1084 | for any key that gives two ways of writing the tools the same value, a template and two requests at which the selected route differs from the fresh one |
| `Recordings.RequestIsTraced` | dressage/proxy/server.py:2390-2531 | a request whose prompt is built and answered adds one step with that prompt, the generated response unless it overflowed, and its versions; any other adds none |
| `Recordings.RunIsTraced` | dressage/proxy/server.py:1988-2531 | over every run, recorded requests and steps correspond one to one, in order |
| `Recordings.BoundaryIff` | dressage/proxy/server.py:2051-2108 | a step after the first of its lineage starts a segment if and only if rendering failed, its tools differ from the step before, or its added messages did not tokenize |
| `Recordings.UndisturbedLineageIsOneSegment` | dressage/proxy/server.py:670-703 | a lineage of one tool set without such failures is one segment |
| `Recordings.LineagesRememberTheirBranch` | dressage/proxy/server.py:1066-1084 | a lineage names the step its first step branched off, and none if that was created |
| `Recordings.TrainedIsWhatWasGenerated` | dressage/proxy/server.py:2390-2392 | over all records of every run, as many positions are trained as its recorded generations that did not overflow have tokens |
| `ProxySession.ProxySession.LineagePrefix` | dressage/proxy/server.py:1641-1651 | the three loops compute the tokens since the lineage's last boundary |
| `ProxySession.ProxySession.CandidateRendered` | dressage/proxy/server.py:981-998 | a usable remembered rendering or a fresh one, which is then remembered; the answer is fresh exactly when the remembered tools render alike |
| `ProxySession.ProxySession.CandidatePositions` | dressage/proxy/session_manager.py:76-91 | candidates cover every recorded step once |
| `ProxySession.ProxySession.RenderCandidates` | dressage/proxy/server.py:1014-1026 | the loop finds exactly the candidates whose rendering, as read, is a prefix, or reports a rendering failure |
| `ProxySession.ProxySession.SelectRoute` | dressage/proxy/server.py:1000-1084 | the selection picks the specified route for the renderings it reads, fresh ones under a fine enough key, and opens at most its lineage; it fails exactly when something does not render |
| `ProxySession.ProxySession.BuildPromptTokens` | dressage/proxy/server.py:1666-1729 | the imperative form builds the specified prompt |
| `ProxySession.ProxySession.RecordStep` | dressage/proxy/session_manager.py:561-569 | the step is appended, indexed and made its lineage's newest, and nothing else changes |
| `ProxySession.ProxySession.ChatCompletion` | dressage/proxy/server.py:1988-2531 | a whole request refines the recorder's step for the renderings the session remembers |
| `Segments.GroupsPartition` | dressage/proxy/server.py:670-703 | cutting a lineage at its boundaries loses no step and keeps the order |
| `Segments.GroupsCutAtBoundaries` | dressage/proxy/server.py:695-702 | a segment has no boundary inside and every later segment starts at one |
| `Segments.SegmentsPartitionLineages` | dressage/proxy/server.py:670-703 | the segments read in order are the lineages read in order |
| `Segments.SegmentsConserve` | dressage/proxy/server.py:670-703 | whatever is counted over steps, the segments hold exactly what the session holds |
| `Segments.EveryStepInOneSegment` | dressage/proxy/server.py:670-703 | every recorded step is in exactly one segment, once |
| `Segments.SegmentTokensAreSteps` | dressage/proxy/server.py:1534-1538 | in every segment the tokens recorded up to any step are all that step saw and said |
| `Segments.SegmentTokensAreLastStep` | dressage/proxy/server.py:1534-1538 | every segment's tokens are all its last step saw and said |
| `Segments.RecordIsLabelled` | dressage/proxy/server.py:1534-1605 | tokens, mask and versions are aligned; mask 1 marks exactly the response tokens, each with its own version |
| `Segments.RecordsAreFaithful` | dressage/proxy/server.py:1509-1639 | both, for every record of a reachable session |
| `Segments.TrainedExactlyOnce` | dressage/proxy/server.py:1509-1639 | every recorded response token is trained in exactly one record and nothing else is, however often a branch repeats it |
| `Segments.SegmentRowCounts` | dressage/proxy/server.py:1267-1275 | when the row counts of a segment sum to its token count minus one, exactly |
| `Segments.RecordedRowsAreCounted` | dressage/proxy/server.py:2446-2464 | the rows recorded with a step are the rows counted for it unless it continues an empty segment |
| `RowCounts.SegmentRowsAreTokensMinusOne` | dressage/proxy/server.py:1267-1275 | if the tokenizer never gives a conversation no token, the row counts of every segment of every reached session sum to its token count minus one |
| `RowCounts.StepRowsAreCounted` | dressage/proxy/server.py:2446-2464 | and the rows recorded with every step are the rows counted for it |
| `RowCounts.PrefixIsRecordedBefore` | dressage/proxy/server.py:2446-2457 | the prefix a step's target is computed from is what its segment recorded before it |
| `RowCounts.TargetsAreAdjacent` | dressage/proxy/server.py:2446-2464 | in every segment of every reached session each step's target rows start where those of the step before it end |
| `RowCounts.TargetsSpanTheRecord` | dressage/proxy/server.py:2446-2464 | the first of them start at row 0 and the last end at the token count minus one, so together they are the rows of the record in order |
| `RowCounts.EmptyPromptMiscounts` | dressage/proxy/server.py:1267-1275 | a reached session in which an empty first step makes both wrong |
| `Segments.SplitLineage` | dressage/proxy/server.py:679-702 | the flushing loop computes the specified cut |
| `Segments.SplitIntoSegments` | dressage/proxy/server.py:670-703 | the splitter computes the specified segments |
| `Segments.BuildRecord` | dressage/proxy/server.py:1534-1605 | the record builder computes the specified arrays and never raises on a recorded segment |
| `Finalize.BuildBatch` | dressage/proxy/server.py:2800-2831 | the loops of finalize build the specified batch and records |
| `Finalize.FinalizeBuildsValidBatch` | dressage/proxy/server.py:2800-2887 | a batch built by finalize always passes the complete-0..N-1 check, with distinct uids |
| `Finalize.FinalizedRunIsFaithful` | dressage/proxy/server.py:2800-2814 | from any run of requests to training data: every record is prompt plus response of its last step, masked on responses alone, and every response token is trained exactly once |
| `Provenance.TrainedTokensAreOnPolicy` | dressage/proxy/server.py:1988-2531 | for every run whose generations came out of the stitching loop against honest backends, under any preemptions, resumes and weight updates: in every record every trained token of known version is what the weights of that version produce from exactly the tokens the record holds before it |
| `Provenance.ServedStepsAreRecorded` | dressage/proxy/server.py:2390-2437 | in every run of requests the stitching loop served, each step records what the loop returned for its own prompt, versions included; an overflowing response is dropped |
| `Provenance.RecordedIsOwn` | dressage/proxy/generation_controller.py:201-446 | a step recorded from an honest backend has one version per token, and each token of known version follows from the prompt and the response before it |
| `Provenance.StepsAreOwn` | dressage/proxy/server.py:2396-2437 | the same of every recorded step of every such run |
| `Provenance.TrainedEntry` | dressage/proxy/server.py:1534-1605 | a position with mask 1 is the response token right after its step's prompt and the responses before it, with its version |
| `Provenance.SegmentIsOnPolicy` | dressage/proxy/server.py:1534-1605 | steps whose responses are the model's own make a record whose trained tokens are |
| `Stitching.GeneratePreemptible` | dressage/proxy/generation_controller.py:201-446 | the loop computes the specified outcome |
| `GenerationOutcome.OneEffect` | dressage/proxy/generation_controller.py:223-412 | every reply resumes the loop, finishes it, or is the cause of exactly one error |
| `GenerationOutcome.AdvanceFollowsReply` | dressage/proxy/generation_controller.py:223-412 | one turn of the loop does that, and joins the reply's arrays to those held; an accepted abort without a payload resumes |
| `GenerationOutcome.GenerationEndsAsReplied` | dressage/proxy/generation_controller.py:201-446 | every outcome from the replies alone: how many were cut short and asked on from, and whether the limit, the last attempt, a finishing reply or the cause of an error ended it; ids, logprobs, versions and expert data are the replies', joined |
| `GenerationOutcome.NeverPreemptedWithPartialRollout` | dressage/proxy/generation_controller.py:380-384 | with partial rollout no number of interruptions raises |
| `GenerationOutcome.CooperativeNeverRaises` | dressage/proxy/generation_controller.py:253-412 | if nothing refuses, stops or fails but by abort, an unpinned generation is done, or every attempt was cut short |
| `Stitching.StitchedTokensAreFaithful` | dressage/proxy/generation_controller.py:201-446 | for any interleaving of preemptions and resumes each token and its logprob are what the weights of its recorded version produce from exactly the tokens before it; arrays stay aligned; the token limit is never exceeded |
| `Stitching.CompletionUnique` | dressage/proxy/generation_controller.py:201-446 | the uninterrupted answer is determined by weights, prompt and limit |
| `Stitching.SameAsUninterrupted` | dressage/proxy/generation_controller.py:252-257 | under one version the stitched answer is the uninterrupted one if and only if no ended answer was marked interrupted with token budget left |
| `Stitching.UnexhaustedGrows` | dressage/proxy/generation_controller.py:404-412 | with budget left a generation that finishes without overflow has appended something |
| `Stitching.NoLateAbortWhenCutsAreReal` | dressage/proxy/generation_controller.py:337-345 | that never happens when aborts cut unfinished answers only |
| `Stitching.OverflowIsReal` | dressage/proxy/generation_controller.py:386-402 | a reported overflow means the uninterrupted answer overflows too |
| `Stitching.PreemptionIsTransparent` | dressage/proxy/generation_controller.py:201-446 | then preemption is invisible: same tokens, same overflow |
| `Stitching.LateAbortOverruns` | dressage/proxy/generation_controller.py:252-257 | the answer that is continued past its end after a late abort |
| `Stitching.OneRegistration` | dressage/proxy/generation_controller.py:223-231 | without partial rollout a result comes from one registration, one epoch and one version |
| `SglangClient.NormalizeLogprobs` | dressage/proxy/sglang_client.py:82-99 | exactly the expected length, reported values kept, and marked invalid exactly when something is missing |
| `SglangClient.CoerceResponse` | dressage/proxy/sglang_client.py:669-747 | every array has the length of the ids it describes |
| `SglangClient.ValidMeansPaired` | dressage/proxy/sglang_client.py:699-712 | logprobs not marked invalid belong entry by entry to the output's tokens |
| `RoutedExperts.GenerationTiles` | dressage/proxy/generation_controller.py:356-364 | if every answer carries expert data the chunk row ranges tile [0, total - 1) without gap or overlap |
| `RoutedExperts.TiledSelection` | dressage/proxy/routed_experts.py:37-45 | tiling chunks contribute exactly as many rows as the target overlaps |
| `RoutedExperts.SelectionIsTarget` | dressage/proxy/routed_experts.py:37-82 | the selected bytes are exactly the target rows in order |
| `RoutedExperts.WordReadsBack` | dressage/proxy/routed_experts.py:66-82 | four payload bytes are one signed little-endian 32-bit id |
| `RoutedExperts.SelectFrom` | dressage/proxy/routed_experts.py:37-82 | one chunk contributes its overlap with the target, or a size, alignment, width or id error |
| `RoutedExperts.FitsIffStoredWhole` | dressage/proxy/routed_experts.py:69-79 | an id fits exactly when storing it in the narrower type keeps it |
| `RoutedExperts.MeasureRow` | dressage/proxy/routed_experts.py:47-60 | a payload has whole, int32-aligned rows of the width seen before, or the one error that says which of these fails |
| `RoutedExperts.CanonicalizeRoutedExperts` | dressage/proxy/routed_experts.py:23-95 | on tiling chunks the coverage error is never raised, and clean payloads yield exactly the target rows; whatever comes out fits its type and covers the target; when the range, type and coverage errors come |
| `RoutedExperts.DoneHasChunks` | dressage/proxy/generation_controller.py:356-364 | a generation of a prompt that fits the window does not finish without a chunk |
| `StepExperts.ServerTargetsAreTiled` | dressage/proxy/server.py:2446-2464 | for every step of every reached session the chunks of its generation tile the rows and the server's target lies inside, ending with the last row unless the response overflowed |
| `StepExperts.ServedTargetsAreTiled` | dressage/proxy/server.py:2446-2464 | so it is in every run that backends with expert data served |
| `StepExperts.CountPrefix` | dressage/proxy/server.py:2447-2457 | the prefix the target is computed from is what the lineage's segment holds before the step |
| `StepExperts.RecordRows` | dressage/proxy/server.py:2446-2476 | canonicalizing at the server's target never raises the coverage error and emits exactly the target rows of clean payloads |
| `PauseProtocol.NothingEntersWhilePaused` | dressage/proxy/generation_controller.py:223-231 | no request enters between a pause and the next successful resume |
| `PauseProtocol.PausedIff` | dressage/proxy/generation_controller.py:460-464 | the controller is paused exactly from a pause or shutdown until a ready resume with no shutdown before it |
| `PauseProtocol.ActiveIff` | dressage/proxy/generation_controller.py:223-239 | a request is active, for its owner, exactly from a registration that found the controller running in its epoch until it is settled or fails |
| `PauseProtocol.VersionIsLastAnnounced` | dressage/proxy/generation_controller.py:556-629 | the current version is the last one named by an answer, a resume that released, or a synchronization at rest |
| `PauseProtocol.QuiescedPauseIsComplete` | dressage/proxy/generation_controller.py:448-554 | a pause that reports quiesced, whatever its filter: from then on none of the captured requests is active, across later releases too, and each is in its prefix or ended in error; until the next release only requests the filter left out can be active, none if there is no filter |
| `PauseProtocol.LostStaysActive` | dressage/proxy/generation_controller.py:253-265 | a cancelled generation leaves its entry behind, and a pause that captured it never reports quiesced |
| `PauseProtocol.EpochCountsChanges` | dressage/proxy/generation_controller.py:556-629 | the epoch counts exactly the paused-to-running resumes and version switches |
| `PauseProtocol.EpochMovesWhen` | dressage/proxy/generation_controller.py:556-629 | one action moves the epoch by one if it is a ready resume of a paused controller or a synchronization at rest to another version, and not otherwise |
| `PauseProtocol.EpochNeverDecreases` | dressage/proxy/generation_controller.py:556-629 | the epoch never decreases |
| `PauseProtocol.ShutdownIsFinal` | dressage/proxy/generation_controller.py:631-656 | after a shutdown nothing is registered, released or synchronized again |
| `PauseProtocol.WaitersSeeShutdownUnlessPaused` | dressage/proxy/generation_controller.py:631-673 | waiting generations find the event set exactly as long as no pause followed |
| `PauseProtocol.PauseAfterShutdownHidesIt` | dressage/proxy/generation_controller.py:448-656 | the run in which they do not |
| `PauseProtocol.GenerationController.RegisterRequest` | dressage/proxy/generation_controller.py:223-231 | the registering lock section refines its step |
| `PauseProtocol.GenerationController.CollectChunk` | dressage/proxy/generation_controller.py:337-368 | collecting a chunk refines its step |
| `PauseProtocol.GenerationController.SettleRequest` | dressage/proxy/generation_controller.py:370-378 | the settling lock section refines its step |
| `PauseProtocol.GenerationController.PauseSection` | dressage/proxy/generation_controller.py:460-472 | the pausing lock section refines its step |
| `PauseProtocol.GenerationController.ResumeSection` | dressage/proxy/generation_controller.py:556-601 | the resuming lock section refines its step |
| `PauseProtocol.GenerationController.SynchronizeVersion` | dressage/proxy/generation_controller.py:603-629 | the version lock section refines its step |
| `PauseProtocol.GenerationController.ShutdownSection` | dressage/proxy/generation_controller.py:631-656 | the shutdown lock section refines its step |
| `VersionGuards.SessionRealVersions` | dressage/proxy/server.py:265-275 | the loops collect exactly the session's real versions |
| `VersionGuards.OrderedRealVersions` | dressage/proxy/server.py:278-287 | the length of the list is the number of distinct real versions |
| `VersionGuards.RegistrationIsNotBefore` | dressage/proxy/server.py:2207-2211 | a later request of a non-partial session is registered in the epoch it was admitted in |
| `VersionGuards.OneEpochPerSession` | dressage/proxy/server.py:385-416 | all recorded steps of a non-partial session were registered in one rollout epoch |
| `VersionGuards.OneVersionPerSession` | dressage/proxy/server.py:343-382 | and they name at most one real weight version |
| `VersionGuards.SpanIsBounded` | dressage/proxy/server.py:297-339 | a partial session with limit m records at most m + 1 real versions |
| `VersionGuards.RecordedIffItFits` | dressage/proxy/server.py:297-416 | a finished generation is recorded if and only if it fits: the session's epoch and no new version, or with partial rollout the span; the guards refuse nothing more |
| `TurnLedger.StepKeepsInv` | blackbox_server/core/server.py:448-532 | every action, with or without the lock, keeps the ledger invariant |
| `TurnLedger.RunKeepsInv` | blackbox_server/core/server.py:448-972 | so does every interleaving |
| `TurnLedger.AtMostOneLiveTurn` | blackbox_server/core/server.py:494-508 | at most one turn is queued or in flight |
| `TurnLedger.HistoryIsCommittedTurns` | blackbox_server/core/server.py:675-690 | turn_count is the number of committed turns, within the limit, and the history is the system prompt and exactly their inputs and outputs in order |
| `TurnLedger.SettledTurnsNeverChange` | blackbox_server/core/server.py:591-703 | turns are never removed, settled ones never change, and the session only moves active, desynced, aborted |
| `TurnLedger.UnknownTurnEndsTheSession` | blackbox_server/core/server.py:1077-1152 | an unknown turn means the session is no longer active, stays the last turn and is the only unknown one for life |
| `TurnLedger.GeneratedIdMeansOneTurn` | blackbox_server/core/server.py:1207-1242 | a session that generated its turn id never holds a second turn |
| `TurnLedger.ActionsMoveTurns` | blackbox_server/core/server.py:591-703 | what each action does to every turn: queued, started, committed with its outputs, unknown, cancelled, or lost to an abort that leaves none live |
| `TurnLedger.SubmitIsAdmittedIff` | blackbox_server/core/server.py:448-508 | a submit goes on if and only if the session is active and below its limit, no turn is live and its id is new; the first id fixes the mode |
| `TurnLedger.UnusableIdIsRefused` | blackbox_server/core/server.py:1207-1242 | an id the mode does not allow changes nothing |
| `TurnLedger.ActiveUntilEnded` | blackbox_server/core/server.py:928-972 | a session is active exactly until an abort, a turn whose outcome is unknown or a fresh backend error |
| `TurnLedger.AbortedIffAborted` | blackbox_server/core/server.py:956 | it is aborted from the first abort on, and never without one |
| `TurnLedger.ShutdownIffStarted` | blackbox_server/core/server.py:1077-1108 | interruptions count as unknown exactly from the first shutdown on |
| `TurnLedger.BlackboxSession.ResolveTurnId` | blackbox_server/core/server.py:1207-1242 | the id and the turn mode after each kind of request |
| `TurnLedger.BlackboxSession.SubmitTurn` | blackbox_server/core/server.py:448-508 | proceeds exactly when admitted; a replay answers for an equal request of the same id |
| `TurnLedger.BlackboxSession.FinishSubmit` | blackbox_server/core/server.py:510-532 | queues the turn or marks the backend error |
| `TurnLedger.BlackboxSession.StartTurn` | blackbox_server/core/server.py:591-597 | starts a queued turn and no other |
| `TurnLedger.BlackboxSession.CommitTurn` | blackbox_server/core/server.py:675-690 | commits an inflight turn and no other, with history and count |
| `TurnLedger.BlackboxSession.LoseTurn` | blackbox_server/core/server.py:1125-1150 | an inflight turn that failed becomes unknown and the session is desynced |
| `TurnLedger.BlackboxSession.InterruptTurn` | blackbox_server/core/server.py:1077-1108 | an interrupted live turn is cancelled, or unknown during shutdown |
| `TurnLedger.BlackboxSession.CancelTurn` | blackbox_server/core/server.py:767-796 | a queued turn is cancelled, an inflight one only asked to stop |
| `TurnLedger.BlackboxSession.AbortSession` | blackbox_server/core/server.py:928-972 | nothing happens to an aborted session; any other is aborted and its live turns become unknown, lock or no lock |
| `TurnLedger.BlackboxSession.SettleAbort` | blackbox_server/core/server.py:956-972 | the part after the suspension, whatever happened in between |
| `TurnLedger.BlackboxSession.MarkBackendError` | blackbox_server/store/session_store.py:70-75 | a backend error desyncs a session that is not aborted, once |
| `SseFraming.FramesExtend` | blackbox_server/proxy/rollout_llm_proxy.py:3105-3114 | splitting the rest together with what comes next is splitting everything at once |
| `SseFraming.IncrementalIsWhole` | blackbox_server/proxy/rollout_llm_proxy.py:3100-3117 | incremental framing gives the payloads of the whole stream |
| `SseFraming.ChunkingIsInvisible` | blackbox_server/proxy/rollout_llm_proxy.py:3100-3117 | any two ways of cutting the same bytes give the same payloads |
| `SseFraming.IterPayloads` | blackbox_server/proxy/rollout_llm_proxy.py:3100-3117 | the loops compute the payloads of the whole stream |
| `SseFraming.PayloadIffData` | blackbox_server/proxy/rollout_llm_proxy.py:3120-3128 | an event carries a payload exactly when one of its lines is a data line |
| `SseFraming.JoinedLinesReadBack` | blackbox_server/proxy/rollout_llm_proxy.py:3120-3128 | the lines of a payload are the data lines of its event, in order |
| `SseFraming.DrainPrelude` | blackbox_server/proxy/rollout_llm_proxy.py:1378-1398 | what the drain returns, with the chunks left unread, is the stream without its keepalive prelude |
| `SseFraming.PreludePayloads` | blackbox_server/proxy/rollout_llm_proxy.py:1391-1397 | dropping the prelude loses exactly the payloads of the dropped frames |
| `SseFraming.PreludeIsInvisible` | blackbox_server/proxy/rollout_llm_proxy.py:1391-1397 | nothing is lost if and only if no dropped frame has a data line |
| `SseFraming.KeepalivesAreInvisible` | blackbox_server/proxy/rollout_llm_proxy.py:1378-1398 | with blank and comment-only frames in the prelude, draining and then framing yields the payloads of the whole stream |
| `SseFraming.CommentedDataIsLost` | blackbox_server/proxy/rollout_llm_proxy.py:1391-1397 | the family of frames that are dropped with their data |
| `SseFraming.FramingRoundTrip` | dressage/proxy/server.py:1863-1875 | events as the proxy sends them are read back one for one |
| `AnthropicStream.WellFormedIffInOrder` | blackbox_server/proxy/rollout_llm_proxy.py:2137-2193 | one start, blocks numbered 0, 1, 2, ... each opened and closed once with at most one open, deltas only to the open block, one final delta and stop: exactly when the chunks never return to a tool call after something else began |
| `AnthropicStream.ContiguousIsWellFormed` | blackbox_server/proxy/rollout_llm_proxy.py:3193-3226 | contiguous deltas per tool index always give a well-formed stream |
| `AnthropicStream.ReturningBreaksTheStream` | blackbox_server/proxy/rollout_llm_proxy.py:3193-3226 | arguments of one tool, another, and the first again never do |
| `AnthropicStream.ContentIsPreserved` | blackbox_server/proxy/rollout_llm_proxy.py:3159-3226 | text, thinking and each tool's argument deltas come out as they went in |
| `AnthropicStream.WordsArePreserved` | blackbox_server/proxy/rollout_llm_proxy.py:2157-2186 | concatenated text and thinking deltas equal the chunks' up to the first finish reason |
| `AnthropicStream.FinalDeltaIsFirstFinish` | blackbox_server/proxy/rollout_llm_proxy.py:3087-3097 | the stream ends with one message delta and a stop; the delta has the reason, in Anthropic's words, and the output tokens of the first chunk with a finish reason |
| `AnthropicStream.ToolBlocksAreFirstCalls` | blackbox_server/proxy/rollout_llm_proxy.py:3193-3226 | each tool's block is opened once, when the tool first appears, under the id and name it appears with |
| `AnthropicStream.StreamState.StopActiveBlock` | blackbox_server/proxy/rollout_llm_proxy.py:3244-3252 | closes the open block if there is one |
| `AnthropicStream.StreamState.EmitTextLikeBlock` | blackbox_server/proxy/rollout_llm_proxy.py:3159-3191 | refines the specified emission |
| `AnthropicStream.StreamState.EmitToolCallDelta` | blackbox_server/proxy/rollout_llm_proxy.py:3193-3226 | refines the specified emission |
| `AnthropicStream.StreamState.Close` | blackbox_server/proxy/rollout_llm_proxy.py:3228-3242 | finishes once, closing the open block first |
| `AnthropicStream.TranslateStream` | blackbox_server/proxy/rollout_llm_proxy.py:2137-2193 | the translator computes the specified events |
| `ResponsesStream.CutInPieces` | dressage/proxy/server.py:1890-1902 | the loop cuts a text into pieces of eight characters |
| `ResponsesStream.PiecesJoin` | dressage/proxy/server.py:1890-1902 | cutting and joining is the identity |
| `ResponsesStream.PseudoStreamChunks` | dressage/proxy/server.py:1850-1921 | the generator computes the specified chunks |
| `ResponsesStream.TranslateStream` | blackbox_server/proxy/rollout_llm_proxy.py:1972-2075 | the translator assembles its items from what the chunks gathered, calls in index order |
| `ResponsesStream.StreamCompletion` | blackbox_server/proxy/rollout_llm_proxy.py:1972-2075 | end to end, the streamed items and usage are the plain ones exactly under those conditions |
| `ResponsesStream.SortedKeys` | blackbox_server/proxy/rollout_llm_proxy.py:2674 | the indices in increasing order, each once |
| `ResponsesStream.StreamGathers` | blackbox_server/proxy/rollout_llm_proxy.py:1994-2022 | from a pseudo-stream the translator gathers the completion's reasoning, text, calls and usage, whole |
| `ResponsesStream.StreamedItemsArePlainIff` | blackbox_server/proxy/rollout_llm_proxy.py:1938-2075 | streamed items are the plain items if and only if reasoning is stripped and no blank content sits beside tool calls |
| `ResponsesStream.PlainItemsRead` | dressage/proxy/server.py:593-612 | read back, the plain items are the stripped reasoning, the content unless blank beside calls, and each call with its own id, name and arguments, in this order and nothing else |
| `ResponsesStream.StreamedItemsRead` | blackbox_server/proxy/rollout_llm_proxy.py:1994-2075 | read back, the streamed items are the completion's reasoning, content and calls as they are |
| `ResponsesStream.PublicContentIsUnmarked` | dressage/proxy/server.py:615-623 | stop markers go from the end of the content; unmarked content stays as it is |
| `ResponsesStream.UnstrippedReasoningDiffers` | dressage/proxy/server.py:603-607 | reasoning that starts with white space streams differently |
| `ResponsesStream.BlankContentDiffers` | dressage/proxy/server.py:599-601 | so does blank content beside a tool call |
| `ResponsesStream.EmittedCompletionsStreamAlike` | dressage/proxy/server.py:593-623 | every completion the proxy emits streams as it reads plainly |
| `ResponsesStream.StreamedUsageIsPlainIff` | blackbox_server/proxy/rollout_llm_proxy.py:2694-2708 | the streamed usage is the plain one when included, otherwise only for empty counts |
| `TrajectoryStore.Store.WriteItems` | dressage/proxy/trajectory_store.py:231-284 | the whole batch or nothing, wherever an index or time-stamp update raises |
| `TrajectoryStore.Store.WriteMany` | dressage/proxy/trajectory_store.py:289-295 | a batch that does not validate changes nothing |
| `TrajectoryStore.Store.PopTrajectory` | dressage/proxy/trajectory_store.py:367-420 | hands out what the trajectory index holds; on agreeing indexes exactly the trajectory's items, of one instance if asked, taken from both; time stamps of the instances it touches are renewed or dropped with them |
| `TrajectoryStore.Store.ReadBatch` | dressage/proxy/trajectory_store.py:438-482 | hands out the instances' items sorted; the instance index agrees, the trajectory index if and only if the drain was clean |
| `TrajectoryStore.FiledInstances` | dressage/proxy/trajectory_store.py:262-263 | filing a batch item by item keeps the instance index exact |
| `TrajectoryStore.RestByInstance` | dressage/proxy/trajectory_store.py:402-415 | removing by uid removes exactly the popped items |
| `TrajectoryStore.ReadBatchAgreesIff` | dressage/proxy/trajectory_store.py:452-465 | the exact condition under which the indexes agree after read_batch |
| `TrajectoryStore.SortSorts` | dressage/proxy/trajectory_store.py:452-455 | a handed-out group is ordered by trajectory, segment and time and holds the instance's items |
| `TrajectoryStore.OrderIsLexicographic` | dressage/proxy/trajectory_store.py:452-455 | and that order is by trajectory, then segment, then time |
| `TrajectoryStore.OneToOneIsClean` | dressage/proxy/trajectory_store.py:452-465 | it holds when each drained instance holds one trajectory living nowhere else |
| `TrajectoryStore.TwoTrajectoriesDisagree` | dressage/proxy/trajectory_store.py:457-465 | it fails when an instance alone holds two |
| `TrajectoryStore.StaleItemsAreHandedOutAgain` | dressage/proxy/trajectory_store.py:457-465 | after an unclean drain a later pop of the trajectory hands out drained items again |
| `TrajectoryStore.DroppedItemsAreLost` | dressage/proxy/trajectory_store.py:457-465 | a trajectory dropped by a drain is gone from its index, items left or not, so a later pop returns nothing |
| `TrajectoryStore.NumberedBatchIsValid` | dressage/proxy/trajectory_store.py:298-348 | numbered views of one trajectory, instance and finalization pass the check |
| `TrajectoryStore.ValidBatchIff` | dressage/proxy/trajectory_store.py:298-348 | a marked batch passes the check if and only if it is of one trajectory, instance and completed finalization and each view's records are numbered 0..N-1, each once, and say N |
| `HookKeys.PruningIsInvisible` | dressage/proxy/tool_call_hooks.py:374-398 | a pruned cache still simulates the store that never prunes |
| `HookKeys.HookChain.MaybePrune` | dressage/proxy/tool_call_hooks.py:374-398 | pruning removes expired keys only, for any scan budget |
| `HookKeys.HookChain.ClaimIdempotency` | dressage/proxy/tool_call_hooks.py:354-372 | every claim answers as the store that never prunes |
| `HookKeys.HookChain.PurgeSession` | dressage/proxy/tool_call_hooks.py:330-338 | a purge forgets the session's keys and counts them |
| `HookKeys.GrantedIffNoLiveGrant` | dressage/proxy/tool_call_hooks.py:354-372 | a claim is granted exactly when no unexpired, unpurged grant of the key precedes it |
| `HookKeys.EmptyKeyIsFree` | dressage/proxy/tool_call_hooks.py:354-358 | a claim without a key is always granted and leaves nothing behind |
| `HookKeys.OneGrantPerWindow` | dressage/proxy/tool_call_hooks.py:354-372 | without a purge two grants of a key are at least one lifetime apart |
| `MixtureScheduler.CreditsBalance` | dressage/rollout/data_source.py:259-266 | the credits sum to zero and every pick is counted |
| `MixtureScheduler.CreditIsShareMinusServed` | dressage/rollout/data_source.py:256-267 | after n picks a credit is n times the weight minus picks served times the total |
| `MixtureScheduler.CreditAboveMinusTotal` | dressage/rollout/data_source.py:256-267 | no credit falls to minus the total |
| `MixtureScheduler.NeverAFullPickAhead` | dressage/rollout/data_source.py:256-267 | no dataset is ever a full pick ahead of its share |
| `MixtureScheduler.NeverAsFarBehindAsTheOthers` | dressage/rollout/data_source.py:256-267 | nor as many full picks behind it as there are other datasets |
| `MixtureScheduler.ServesExactShares` | dressage/rollout/data_source.py:256-267 | with integer weights every W picks serve each dataset its weight and return to the zero state |
| `MixtureScheduler.EqualWeightsTakeTurns` | dressage/rollout/data_source.py:260-265 | equal weights serve the datasets in their order, the earliest of equal credits first |
| `MixtureScheduler.Serve` | dressage/rollout/data_source.py:268-281 | each pass over a dataset visits every row once |
| `MixtureScheduler.MixtureSource.SelectDataset` | dressage/rollout/data_source.py:256-267 | one turn of the scheduler refines the specification |
| `MixtureScheduler.MixtureSource.NextSample` | dressage/rollout/data_source.py:256-281 | a pick serves one row of the picked dataset and leaves the others alone |
| `ConvertSamples.CountMasks` | dressage/rollout/convert_samples.py:46-75 | the loop counts masks per prompt and live prompts |
| `ConvertSamples.PromptEqualMaskSums` | dressage/rollout/convert_samples.py:77-86 | the denominators of the prompt-equal scheme |
| `ConvertSamples.EveryPromptWeighsTheSame` | dressage/rollout/convert_samples.py:46-86 | every live prompt with nonzero mask weighs the batch size over the number of prompts, however it was split |
| `ConvertSamples.BatchWeighsGlobalBatchSize` | dressage/rollout/convert_samples.py:46-86 | the prompts together weigh the global batch size when none has zero mask |
| `ConvertSamples.FillRolloutIds` | dressage/rollout/convert_samples.py:98-106 | given ids are kept and missing ones filled in place, terminating |
| `ConvertSamples.FilledIdIsFresh` | dressage/rollout/convert_samples.py:98-106 | every filled id is a natural that was not given |
| `ConvertSamples.FilledIdsAreDistinct` | dressage/rollout/convert_samples.py:98-106 | no two filled ids are equal |

## Left out

- Tokenizers, chat templates, reasoning and tool-call parsing, the backend and the UTF-8 decoder are parameters; only what is written in their types and hypotheses is known of them.
- HTTP handling, headers, authentication, logging, redaction, configuration, engine rebalancing, the transfer queue and the staleness tracker.
- Token build mode "snapshot", and the timeline boundaries and reasons, which change no token of a lineage record.
- Wall-clock deadlines and pause credit: a timeout is an action that may happen at any moment.
- Logprobs of training records, labels, hook metadata and the other descriptive fields of a record.
- Floating point: weights, credits, masks and logprobs are exact reals.
- Case folding beyond ASCII when a version is compared with the placeholder names.
- Hashes and uuids: fingerprints are the messages they hash, tool hashes the canonical text they hash (a parameter), generated ids are new.
- The session stores' creation, eviction and expiry, and the turn ids of the proxy's sessions.
- Adapters, sandboxes, paddocks and the command runner.
- `resolve_turn_id`, `_normalize_texts` and the message normalisation of the session manager: lookups and element-wise maps.
- Whether a request continues the latest conversation is given with the request; it matters only to the safety reset after a rendering failure.
- Item and response ids of the Responses translators, and the per-item progress events around each output item.
- Finalize.BuildBatch: timeline records are numbered and marked; their token arrays, which repeat each step's own, are not built.
- SglangClient.CoerceResponse: token texts, the finish reason and the routed-expert string are carried over unchanged and not modelled.
- TrajectoryStore.Store.WriteMany: takes converted items; a record that cannot be converted raises before anything is written.
- TrajectoryStore.Store.PopTrajectory: returns the items in writing order; the view filter and the sort by segment applied to the returned copies are not modelled.
- TrajectoryStore.Store.ReadBatch: takes the ready instances as given; readiness by group size or time-out and the default view filter on the handed-out copies are not modelled.
- TurnLedger.RunKeepsInv: suspensions inside a lock section other than the health check of a submit are treated as if they released the lock, which only adds runs.
- Stitching.GeneratePreemptible: leaves out input logprobs, token texts and meta information, and is followed for a given number of registrations; a generation that has not finished by then is reported as still waiting.
