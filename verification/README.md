# Verified models of the control plane's algorithms

A Dafny 4.11 model of the self-contained algorithms in a control plane for LLM
servers, with proofs of what they are for. Where the code updates state in place
the model does too: each such method is proved to take its state where a pure
function takes the old one, and the theorems are about runs of that function.
`dafny verify dfyconfig.toml` checks everything.

| part | modules | source |
|---|---|---|
| OpenAI to Anthropic event stream | `JsonValues`, `AnthropicEvents`, `EmitterModel` (the transitions), `Emitter` (the class), `EmitterProtocol` (well-formedness), `EmitterContent` (conservation), `ResponseTranslation`, `EmitterAgreement`, `EmitterOrder` and `EmitterUsage` (streaming against not streaming), `EmitterReplies` (the same from what the upstream says) | `stream.ts`, `response.ts`, `usage.ts` |
| Workload replay scheduler | `ReplayModel` (a state machine, one step per stretch between awaits), `ReplaySafety` (the invariant), `ReplayRuns` (whole runs, return), `ReplayTimes` (in the plan's own numbers), `ReplayEnding` (termination), `ReplaySpinning` (where it fails) | `replay-schedule.ts` |
| Benchmark analytics | `RealGrid`, `Occupancy`, `LoadTimeline`, `LoadReport` (in the requests' own fields), `Segmenter`, `SegmenterTotals`, `SegmentShares` (on the segments returned), `SegmentClasses` | `load-statistics.ts`, `segmenter.ts` |
| Line diff | `LineDiff` | `docs-source.ts` |
| Text formats | `TextSearch`, `Decimals`, `ConfigPaths`, `PortableTexts`, `ConfigNormalisation`, `SseFrames`, `GgufSplit`, `SplitNames` | `config-paths.ts`, `sse.ts`, `gguf-split.ts` |
| Class graph, memory estimate, config cache | `ClassFields`, `ContextParams`, `GpuPlacement`, `WeightPlacement` (by printed names), `MapSums`, `DirectoryStore`, `DirectoryStoreRuns` | `vllm.py`, `memory-estimate.ts`, `directory-store.ts` |

`Options`, `Numbers` and `SortedSets` hold what several parts share.

## Where the code falls short

Each of these is a lemma: a concrete input for which a property fails, the exact
condition under which it holds, or one of each.

- The event stream breaks when text arrives while tools are buffered and a
  thinking block is open: tools are flushed before the block is closed
  (`stream.ts`, lines 277-286). The stream is well formed if and only if no call
  does that (`StreamWellFormedExactly`, `ToolThenReasoningThenTextBreaks`).
- A delta that brings both text and a tool call comes out with the tool first, where
  the non-streaming translation has the text first (`stream.ts`, lines 256-286;
  `OneDeltaDisagrees`). Streaming and not streaming agree if and only if the message
  is complete and the deltas come in an order that `AgreeableByPosition` spells out
  (`StreamAgreesWithResponse`).
- Token counts part when prompt progress tells of cached tokens and the usage does not
  (`stream.ts`, lines 165-181; `ProgressCacheDisagrees`). They agree if and only if
  `CountsAgree` holds of the last counts reported (`UsageAgreesWithResponse`).
- A request rejected with null is not a failure to `failure ??= error`
  (`replay-schedule.ts`, line 129), so the schedule returns normally with work left
  undone. A normal return means everything was done if and only if that has not
  happened (`ReturnedRun`, `NullRejectionIsLost`). A rejection with undefined ends
  the loop when its head sees it, but a later null takes its place.
- After a null rejection the signal is aborted and the loop goes on, so every sleep
  ends at once: the loop can spin with no time passing (`NullRejectionSpins`). It can
  if and only if `CanSpin` holds at the loop head (`SpinsExactly`), which takes a null
  rejection or a cap below one (`SpinNeedsLoss`); otherwise every run ends
  (`RunsEnd`).
- Shard names match with `-OF-` in any case, but are printed with `-of-`. So shard 1
  in two spellings passes for a complete pair (`CapitalMarkerFoolsCompleteness`), and a
  whole split named with `-OF-` is reported incomplete (`OtherCaseNeverRight`).
  `CompleteInAnyCase` says when a group is reported complete; with lower-case markers
  the verdict is right (`CompleteExactly`).
- Shard names are grouped by their padding too: a split of ten shards or more
  whose index width is one digit falls into several groups, and that of its first
  shard is reported incomplete (`ShardsAreGrouped`).
- Beyond 256 sequences the context can fall short of the one requested
  (`ManySequencesFallShort`); `SplitFallsShort` is the exact condition.
- With a placeholder in a root directory's name, configurations can need a second pass
  to normalise (`DollarInRootBreaks`). `SettlesExactly` says which: those with a string
  that `IsUnsettled` describes. If every root's placeholder expands to that root's
  directory there are none (`NormalisedInOnePass`), as when no directory holds `${` or
  ends in `$` (`ClosedExpandToThemselves`).
- Renaming or removing a config deletes its file unchecked, an outside edit included
  (`RenameDropsOutsideEdit`, `RemovalDropsOutsideEdit`). What goes is what the store
  itself loaded or wrote if and only if the file still has the cached time
  (`RenameDeletes`, `RemovalDeletes`); otherwise it is what an outside edit left, or a
  file never read (`ForeignIsOutside`).
- Decode chunks outside the span from first token to end are not counted by the
  segmenter, and those are the only ones (`RequestConserved`).

## Model

| member | source | states |
|---|---|---|
| `EmitterProtocol.StreamWellFormedExactly` | packages/anthropic-openai-bridge/src/stream.ts:45-318 | Over every sequence of push, pushValue and finish calls, the stream is accepted by an independent protocol automaton (one message_start, blocks 0, 1, 2, … that open, carry deltas of their own kind and stop in turn, signature last in thinking, one message_delta and message_stop, nothing after) if and only if no call brings text while tools are buffered and a thinking block is open |
| `EmitterProtocol.RunWellFormed` | packages/anthropic-openai-bridge/src/stream.ts:186-316 | The same equivalence from any sound state, with the invariant kept by every guarded run |
| `EmitterProtocol.StepSound` | packages/anthropic-openai-bridge/src/stream.ts:186-316 | Every call outside the colliding case keeps the invariant that ties the automaton's phase to `started`, `finished`, `block` and `nextIndex` |
| `EmitterProtocol.CollisionBreaks` | packages/anthropic-openai-bridge/src/stream.ts:277-286 | In the colliding case the call always breaks the nesting: tools are flushed before the open thinking block is closed |
| `EmitterProtocol.BrokenForGood` | packages/anthropic-openai-bridge/src/stream.ts:45-319 | No later event repairs a broken stream |
| `EmitterProtocol.ToolThenReasoningThenTextBreaks` | packages/anthropic-openai-bridge/src/stream.ts:245-286 | A concrete run, tool call then reasoning then text, whose events are not a well-formed stream |
| `EmitterProtocol.FinishedStreamCloses` | packages/anthropic-openai-bridge/src/stream.ts:154-184 | A guarded run that is finished after its first chunk has closed every block and ends in message_stop, whatever is pushed afterwards |
| `EmitterProtocol.ReadChunkSound` | packages/anthropic-openai-bridge/src/stream.ts:186-299 | One whole chunk (reasoning, tool calls, text and finish reason together) keeps the invariant outside the colliding case |
| `EmitterProtocol.FinalizeSound` | packages/anthropic-openai-bridge/src/stream.ts:154-184 | Finishing leaves a closed stream from any sound state, and is silent when nothing was started or it has already happened |
| `EmitterProtocol.FlushToolsSound` | packages/anthropic-openai-bridge/src/stream.ts:96-118 | Between blocks, flushing emits only complete tool blocks with consecutive indices and empties the buffer |
| `EmitterProtocol.CloseBlockSound` | packages/anthropic-openai-bridge/src/stream.ts:61-77 | Closing ends a thinking block with its signature and any block with its own index, and leaves nothing open |
| `EmitterContent.ContentConserved` | packages/anthropic-openai-bridge/src/stream.ts:96-118 | For every run, in any order and colliding or not: text deltas concatenate to all content received, thinking deltas to all reasoning received, and for each tool index the partial JSON emitted in its blocks plus what is still buffered is all argument fragments received for it, in order; once the run is finished nothing is left buffered |
| `EmitterContent.RunContent` | packages/anthropic-openai-bridge/src/stream.ts:186-316 | Conservation from any state: a run adds exactly what its accepted chunks carry, and chunks after the finish add nothing |
| `EmitterContent.StepContent` | packages/anthropic-openai-bridge/src/stream.ts:301-316 | One call adds to emitted plus buffered content exactly what it carries |
| `EmitterContent.ReadChunkContent` | packages/anthropic-openai-bridge/src/stream.ts:245-292 | One chunk adds its reasoning, its argument fragments and its text once each |
| `EmitterContent.FlushToolsContent` | packages/anthropic-openai-bridge/src/stream.ts:96-118 | Flushing moves arguments from the buffer to the stream without loss or duplication |
| `EmitterAgreement.StreamAgreesWithResponse` | packages/anthropic-openai-bridge/src/stream.ts:186-299 | Every finished run with at least one accepted chunk, however the deltas are cut and whatever errors or malformed data come between, folds back to id, model, blocks, raw tool arguments and stop reason of the non-streaming translation of the whole message, if and only if the message is complete (some content, every tool with an id and a name) and the deltas are agreeable: no block comes out of order or is opened twice |
| `EmitterReplies.StreamOfReplies` | packages/anthropic-openai-bridge/src/stream.ts:186-299 | Starting from what the upstream says and not from its JSON: for any replies (reasoning, text, tool deltas with their indices, ids, names and fragments, finish reasons), written as chunks, pushed and finished, the stream folds to the message they make up, each tool index a tool of its own with the last id and name given for it and all its fragments, in index order, if and only if the replies are orderly |
| `EmitterReplies.ContentOfReplies` | packages/anthropic-openai-bridge/src/stream.ts:256-286 | In any order, the stream carries the replies' text and reasoning, and for each tool index the fragments of that index and no others |
| `EmitterReplies.RepliesAgreeWithResponse` | packages/anthropic-openai-bridge/src/response.ts:30-85 | The stream of replies agrees with the translation of the one response that holds their message if and only if they are complete (something is said, every tool has an id and a name) and orderly |
| `EmitterReplies.CountsOfReplies` | packages/anthropic-openai-bridge/src/stream.ts:206-236 | The counts a client is left with are those last reported, less what was cached, and those of the prompt progress where the usage reports none |
| `EmitterReplies.ExtensionsOfReply` | packages/anthropic-openai-bridge/src/stream.ts:213-230 | A call hands back the progress and the usage of its reply |
| `EmitterReplies.PingExactly` | packages/anthropic-openai-bridge/src/stream.ts:294-298 | A ping comes once the message has begun, for a reply that reports progress and emits nothing else, and is then all that the call emits; a reply with nothing to tell emits nothing |
| `EmitterReplies.ErrorsComeOut` | packages/anthropic-openai-bridge/src/stream.ts:198-211 | An error comes out as one error event with its own message, or the text it is, or a general message, and changes nothing else |
| `EmitterOrder.AgreeableByPosition` | packages/anthropic-openai-bridge/src/stream.ts:245-292 | Deltas are agreeable exactly when there is no text in or after a chunk with a tool call, no reasoning after text, no tool call or finish reason between two reasonings and no finish reason between two texts |
| `EmitterAgreement.OneDeltaDisagrees` | packages/anthropic-openai-bridge/src/stream.ts:256-286 | A complete message whose one delta brings both text and a tool call: the stream has the tool first, the translation the text |
| `EmitterAgreement.UnfitMisorders` | packages/anthropic-openai-bridge/src/stream.ts:245-286 | A chunk that breaks the order leaves blocks that no translation has, for the rest of the run |
| `EmitterAgreement.StreamedIsTranslated` | packages/anthropic-openai-bridge/src/response.ts:30-85 | The message a stream carries equals the translated one exactly for complete messages: an empty message, a tool without a name and a tool without an id are where the two translators part |
| `EmitterAgreement.RunFolds` | packages/anthropic-openai-bridge/src/stream.ts:186-316 | Every finished run folds to a message that depends only on the deltas put together, not on how they are cut, if they are agreeable, and to a misordered one if they are not |
| `EmitterAgreement.ReadChunkTracks` | packages/anthropic-openai-bridge/src/stream.ts:186-299 | After each fitting chunk the open block, the buffered tools and the folded message are those of the deltas so far |
| `ResponseTranslation.Translate` | packages/anthropic-openai-bridge/src/response.ts:30-85 | The loop over the tool calls builds exactly the blocks of `Translated`, the specification the agreement theorem compares with |
| `EmitterUsage.UsageAgreesWithResponse` | packages/anthropic-openai-bridge/src/stream.ts:154-184 | Every finished run, its deltas in any order, leaves its client with the input, output and cached token counts of the translated whole response, if and only if the counts last reported agree: cached tokens reported or no prompt progress, and prompt tokens reported or progress that comes to the same; with neither prompt nor completion tokens, nothing else reported either |
| `EmitterUsage.ProgressCacheDisagrees` | packages/anthropic-openai-bridge/src/stream.ts:165-181 | A run whose progress tells of cached tokens and whose usage does not: the stream reports them, the whole response does not |
| `EmitterUsage.RunCounts` | packages/anthropic-openai-bridge/src/stream.ts:186-236 | The counts at the end of any run are made of the last values reported, whichever chunks carried them, and message_start matters only for what was never reported |
| `EmitterUsage.StepKeeps` | packages/anthropic-openai-bridge/src/stream.ts:206-236 | After each call the counters hold the last value given for each |
| `Emitter.Emitter.constructor` | packages/anthropic-openai-bridge/src/stream.ts:45-60 | A new emitter has emitted nothing and is in the initial state |
| `Emitter.Emitter.CloseBlock` | packages/anthropic-openai-bridge/src/stream.ts:61-77 | The whole state after closing, including the events appended to this call's list, is that of the specification step |
| `Emitter.Emitter.StartBlock` | packages/anthropic-openai-bridge/src/stream.ts:79-88 | A block start takes the next index and nothing else changes |
| `Emitter.Emitter.PushDelta` | packages/anthropic-openai-bridge/src/stream.ts:90-94 | A delta goes to the last block opened |
| `Emitter.Emitter.FlushTools` | packages/anthropic-openai-bridge/src/stream.ts:96-118 | The tools leave in increasing index order, each as a whole block, and the buffer is empty |
| `Emitter.Emitter.EnsureStarted` | packages/anthropic-openai-bridge/src/stream.ts:120-152 | message_start is emitted once only |
| `Emitter.Emitter.Finalize` | packages/anthropic-openai-bridge/src/stream.ts:154-184 | The whole state after finishing; a second finish emits nothing |
| `Emitter.Emitter.BufferTools` | packages/anthropic-openai-bridge/src/stream.ts:256-275 | The loop over the tool calls updates the buffer in place as the recursive specification does |
| `Emitter.Emitter.Reasoning` | packages/anthropic-openai-bridge/src/stream.ts:245-254 | The reasoning branch as a state transition |
| `Emitter.Emitter.Text` | packages/anthropic-openai-bridge/src/stream.ts:277-286 | The text branch as a state transition, in the order the code has: flush first, close afterwards |
| `Emitter.Emitter.PushValue` | packages/anthropic-openai-bridge/src/stream.ts:186-299 | The whole state after one value, the events returned and the extensions returned |
| `Emitter.Emitter.Push` | packages/anthropic-openai-bridge/src/stream.ts:301-316 | The whole state after one datum, the events and the extensions returned; `[DONE]` finishes, and data after the finish change nothing |
| `ReplayRuns.ReachableKept` | apps/api/src/benchmark/replay-schedule.ts:95-168 | At every reachable state: running segments never exceed the cap, each segment has at most one request being sent, its records went out as 0, 1, 2, … without skip or repeat, and none before its virtual due time (arrival offset, or completion of the record before plus think time) |
| `ReplayTimes.DueInNumbers` | apps/api/src/benchmark/replay-schedule.ts:42-69 | The due times in the plan's own numbers: at every reachable state an idle segment with records left is due at its arrival (its recorded offset if positive and 0 otherwise, 0 when all come together, its place times the interval), or the completion of the record before plus the recorded time (0 if absent or negative) as it is, times the factor, up to the maximum, or 0; and no request went out before that |
| `ReplayTimes.StepLogs` | apps/api/src/benchmark/replay-schedule.ts:90-136 | What is sent and completed is logged at the time on the clock since the start plus what was skipped; only a round sends, only an answer completes |
| `ReplayTimes.RoundInNumbers` | apps/api/src/benchmark/replay-schedule.ts:142-160 | In the segments' own fields: a round sends the next record of segments that are due by that clock, each once; one left waiting is due no earlier than any it sends, and then the cap is reached |
| `ReplayTimes.TimersInNumbers` | apps/api/src/benchmark/replay-schedule.ts:161-198 | A sleep, a skip or a timer ends exactly at the earliest due time of the segments that wait; a race has a timer if and only if one waits and fewer run than the cap |
| `ReplayTimes.CapInNumbers` | apps/api/src/benchmark/replay-schedule.ts:95-96 | The requests being sent never exceed the cap of the arrival policy |
| `ReplayTimes.RunErrors` | apps/api/src/benchmark/replay-schedule.ts:128-131 | The failure of any run is the first error that is neither null nor undefined, or else the last of all; a null rejection counts as lost exactly when none before it lasts |
| `ReplayTimes.OutcomeInNumbers` | apps/api/src/benchmark/replay-schedule.ts:200-207 | How any run ends, from its labels alone: failed with that error, canceled after an abort, or returned, and then with every record of every segment sent and completed once and in order if and only if no null rejection was lost |
| `ReplaySafety.StepSafe` | apps/api/src/benchmark/replay-schedule.ts:108-207 | The invariant of the scheduler is kept by every step: a stretch of the loop, a request settling, a request leaving, a wake-up, the clock, an abort |
| `ReplaySafety.NeverPassedOver` | apps/api/src/benchmark/replay-schedule.ts:142-160 | What a round starts are distinct due segments within capacity, every due segment left out is due no earlier than each one started, and is left out only for want of capacity |
| `ReplaySafety.RoundSafe` | apps/api/src/benchmark/replay-schedule.ts:138-198 | One stretch from the loop head to the next await keeps the invariant |
| `ReplaySafety.BreakNeedsLostFailure` | apps/api/src/benchmark/replay-schedule.ts:169-183 | The break for "nothing due and nothing in flight" is reached only if a rejection left no failure behind |
| `ReplayRuns.StepWithinCap` | apps/api/src/benchmark/replay-schedule.ts:142-160 | No step, whichever comes next, makes the running segments exceed the cap |
| `ReplayRuns.NothingStartsOnceSeen` | apps/api/src/benchmark/replay-schedule.ts:138-141 | Once the loop head has seen a failure or an abort, no request starts for the rest of the run |
| `ReplayRuns.NothingStartsAfterStop` | apps/api/src/benchmark/replay-schedule.ts:138-141 | Nor does one start after an abort, a failure that is neither null nor undefined, or the end of the loop, seen or not |
| `ReplayRuns.StepVirtualTime` | apps/api/src/benchmark/replay-schedule.ts:170-183 | Virtual time never goes back; idle skipping happens only with nothing in flight and lands exactly on the earliest due time of a waiting segment |
| `ReplayRuns.ReturnedRun` | apps/api/src/benchmark/replay-schedule.ts:138-207 | Any run that returns normally without an abort has sent and completed every record of every segment exactly once and in order, if and only if no request was rejected with null while no lasting failure was recorded |
| `ReplayRuns.NormalReturn` | apps/api/src/benchmark/replay-schedule.ts:200-207 | The same for any state that satisfies the invariant |
| `ReplayRuns.NullRejectionIsLost` | apps/api/src/benchmark/replay-schedule.ts:128-131 | A concrete run: one request rejected with null, the schedule returns normally and nothing was completed, because `failure ??= error` keeps no null |
| `ReplayEnding.StepMeasure` | apps/api/src/benchmark/replay-schedule.ts:138-198 | Every step that is neither the clock nor an abort lowers a measure over records left, requests in flight and the wait the loop is in, unless it is a fruitless return to the loop head (nothing to start, no way out), which adds at most one; for any cap and any rejections |
| `ReplayEnding.StepTimed` | apps/api/src/benchmark/replay-schedule.ts:170-198 | With no null rejection and a cap of at least one, no step is fruitless: every timer is set for a time at which something can start |
| `ReplayEnding.RunsEnd` | apps/api/src/benchmark/replay-schedule.ts:138-207 | Any run takes at most eight steps of its own per record, four more and two per fruitless step, however requests settle and the clock advances; without a null rejection and with a cap of at least one there are no fruitless steps, so the run ends |
| `ReplaySpinning.SpinsExactly` | apps/api/src/benchmark/replay-schedule.ts:142-198 | At a loop head a round, with the wake-up that ends its wait at once, leads back to the same state if and only if nothing can start, something is waited for, and the wait is none: a timer under the aborted signal, or a due segment without capacity |
| `ReplaySpinning.SpinNeedsLoss` | apps/api/src/benchmark/replay-schedule.ts:128-131 | That takes a null rejection or a cap below one |
| `ReplaySpinning.SpinsForever` | apps/api/src/benchmark/replay-schedule.ts:138-198 | From such a state the loop can take any number of steps with no time passing and nothing settling |
| `ReplaySpinning.NullRejectionSpins` | apps/api/src/benchmark/replay-schedule.ts:128-198 | A run from the start: one segment rejected with null while another waits for 100 ms, and then as many turns of the loop as one likes at time 0 |
| `ReplayEnding.NeverStuck` | apps/api/src/benchmark/replay-schedule.ts:184-207 | Before the end some step is always possible once requests settle and time passes |
| `Occupancy.AverageOccupancy` | apps/api/src/benchmark/load-statistics.ts:49-80 | The difference-array form is the direct definition: average times duration is the sum of the overlaps of all spans with the bucket, the truncated last bucket and spans ending on the final boundary included |
| `Occupancy.FillDifferences` | apps/api/src/benchmark/load-statistics.ts:57-71 | The in-place loop leaves in each cell the sum of what each span puts there |
| `Occupancy.ShareIsOverlap` | apps/api/src/benchmark/load-statistics.ts:49-80 | For one span, its partial amount plus the duration of a bucket it crosses is its overlap with that bucket |
| `Occupancy.ChangesCount` | apps/api/src/benchmark/load-statistics.ts:72-80 | The running sum of the changes counts the spans that cross a bucket |
| `Occupancy.OccupancyConserved` | apps/api/src/benchmark/load-statistics.ts:49-80 | Overlaps summed over all buckets are the total length of all spans |
| `LoadTimeline.BenchmarkLoadCollector.Record` | apps/api/src/benchmark/load-statistics.ts:88-117 | After any sequence of records the token map is all chunks recorded bucketed directly at the current width, an unknown count absorbing, and the width is the first of 1000, 2000, 4000, … at which the end lies within 600 buckets |
| `LoadTimeline.BenchmarkLoadCollector.Widen` | apps/api/src/benchmark/load-statistics.ts:91-103 | One doubling in place gives the map that counting at twice the width gives |
| `LoadTimeline.BenchmarkLoadCollector.AddChunks` | apps/api/src/benchmark/load-statistics.ts:109-116 | The chunk loop adds each chunk of the request to its bucket once |
| `LoadTimeline.BenchmarkLoadCollector.Analyze` | apps/api/src/benchmark/load-statistics.ts:119-205 | At most 600 buckets, each with the direct definition of its bounds, output, completions, failures and average occupancies |
| `LoadReport.Report` | apps/api/src/benchmark/load-statistics.ts:119-205 | The timeline in the requests' own fields: buckets from 0 to the last end, all but the last of one length; in each, average active and average waiting times the duration are the time requests spend there between submission and end and between submission and first token (or end, without one), completions and failures are those whose end falls there, and the output is the shares of the chunks that fall there, null if one of them has no known share; over all buckets, never more than 600 and at the first width that allows it, the averages account for all active and all waiting time |
| `LoadReport.BucketReports` | apps/api/src/benchmark/load-statistics.ts:49-80 | One bucket: its two averages, its counts and its output, from times and counts of the requests |
| `LoadReport.TotalsConserved` | apps/api/src/benchmark/load-statistics.ts:49-80 | Average waiting times duration sums to first token (or end) less submission, average active to end less submission |
| `LoadReport.OutputByChunk` | apps/api/src/benchmark/load-statistics.ts:163-191 | A bucket's output, chunk by chunk: the sum of their weights, unknown once one is, the final boundary counting to the last bucket |
| `LoadTimeline.MergingIsRebucketing` | apps/api/src/benchmark/load-statistics.ts:91-103 | Merging pairs of cells is bucketing all chunks directly at twice the width |
| `LoadTimeline.MergePairs` | apps/api/src/benchmark/load-statistics.ts:91-103 | The merge over the map entries, in any order, yields the one map at twice the width |
| `LoadTimeline.OutputConserved` | apps/api/src/benchmark/load-statistics.ts:163-191 | With all counts known, output over the buckets sums to the completion tokens of the successful requests that produced chunks, and every bucket has a known output |
| `LoadTimeline.EachCompletedOnce` | apps/api/src/benchmark/load-statistics.ts:196-205 | Each request is completed in exactly one bucket, and each failed one fails in exactly one |
| `LoadTimeline.CountCompleted` | apps/api/src/benchmark/load-statistics.ts:196-205 | The counting loop against the per-bucket definition |
| `LoadTimeline.BuildTimeline` | apps/api/src/benchmark/load-statistics.ts:163-205 | The buckets of any measured requests, at any width that fits |
| `LoadTimeline.TimelineValid` | apps/api/src/benchmark/load-statistics.ts:163-181 | 600 buckets are enough, and the last bucket is never empty unless it is the only one |
| `SegmenterTotals.RequestConserved` | apps/api/src/benchmark/segmenter.ts:68-163 | For a request with a first token before its end, solo plus contended time is the span between them, and solo plus contended tokens are (chunks − 1) × tokens per chunk (none without chunks) if and only if its decode chunks lie in that span or count no tokens |
| `SegmenterTotals.SweepConserves` | apps/api/src/benchmark/segmenter.ts:106-163 | For every request id, the sweep hands out exactly the tokens and time its phases owe |
| `SegmenterTotals.SweepCounts` | apps/api/src/benchmark/segmenter.ts:118-161 | Each segment's tokens, and each request's share, are what a scan of all chunks counts: the cursors lose and repeat nothing |
| `SegmenterTotals.SweepCountsPhase` | apps/api/src/benchmark/segmenter.ts:84-163 | Summed over all segments, each chunk of a phase is counted once and its time is covered once; a phase with no decode span gets nothing |
| `Segmenter.CursorIsScan` | apps/api/src/benchmark/segmenter.ts:84-104 | From a cursor that has passed only earlier chunks, counting on equals scanning all chunks, and the new cursor has passed only earlier ones again |
| `Segmenter.SegmentsTile` | apps/api/src/benchmark/segmenter.ts:106-163 | Segments tile the span from the first to the last boundary, and prefill and decode counts are constant inside each |
| `Segmenter.CountChunksThrough` | apps/api/src/benchmark/segmenter.ts:84-104 | The loop with its cursor, for chunk times in any order |
| `Segmenter.SortedBoundaries` | apps/api/src/benchmark/segmenter.ts:111-117 | The boundaries are exactly the phase times, strictly increasing |
| `Segmenter.BuildRepetitionSegments` | apps/api/src/benchmark/segmenter.ts:106-163 | The nested loops compute the sweep the conservation lemmas are about |
| `SegmentShares.ChargeRepetition` | apps/api/src/benchmark/segmenter.ts:106-163 | On the segments returned: each request id's solo tokens and time have grown by those of the segments inside its decode phases where nobody prefills and it alone decodes, its contended ones by those of its other decode segments; each segment counts the requests prefilling and decoding throughout it and the tokens of the chunks in it |
| `SegmentShares.OnlyRequestIsAlone` | apps/api/src/benchmark/segmenter.ts:143-149 | A request that has a repetition to itself has nothing contended |
| `SegmentShares.OnlyRequest` | apps/api/src/benchmark/segmenter.ts:106-163 | Such a request is charged its whole decode time and the tokens of its chunks in it, as solo |
| `SegmentShares.PhaseOfRequest` | apps/api/src/benchmark/segmenter.ts:60-82 | A request's phases in its own times: prefill begins at submission, or later if the prompt took less time than that before the first token; all chunks but the first are decode chunks, each with an equal share of the completion tokens, or one token |
| `Segmenter.VisitDecoding` | apps/api/src/benchmark/segmenter.ts:132-151 | One segment's pass over the decoding requests, updating cursors and shares |
| `SegmentClasses.ClassesConserve` | apps/api/src/benchmark/segmenter.ts:165-213 | Classes come out sorted with one entry per pair of counts, each with the wall time and tokens of its segments; wall times add up to the total and shares to one |
| `SegmentClasses.AggregateSegmentClasses` | apps/api/src/benchmark/segmenter.ts:165-213 | The loop and the sort return one class for every pair of counts that appears, by prefill and then decode count, with the sum of its segments' lengths and tokens, and the sum of all lengths |
| `LineDiff.DiffIsOptimal` | apps/api/src/arguments/docs-source.ts:308-347 | Equal lines of the result are a common subsequence, and no common subsequence is longer |
| `LineDiff.DiffLines` | apps/api/src/arguments/docs-source.ts:308-347 | Equal and remove lines rebuild the left text, equal and add lines the right text, with as many equal lines as the longest common subsequence has; no line is removed right after one was added |
| `LineDiff.FillTable` | apps/api/src/arguments/docs-source.ts:309-322 | Entry [i][j] is the longest common subsequence length of the two suffixes |
| `LineDiff.NoLongerCommonSubsequence` | apps/api/src/arguments/docs-source.ts:309-322 | The recurrence bounds every common subsequence |
| `LineDiff.EqualLinesAreCommon` | apps/api/src/arguments/docs-source.ts:323-346 | Equal lines of any list of ops are a subsequence of both sides it describes |
| `LineDiff.ReportsEmptyExactly` | apps/api/src/arguments/docs-source.ts:353-387 | The help diff and the list of changed lines are empty exactly when the two texts are equal |
| `LineDiff.ShownExactly` | apps/api/src/arguments/docs-source.ts:353-375 | The help diff shows, in order and each once, the lines at most three away from a change, each marked as added, removed or unchanged |
| `LineDiff.ChangedExactly` | apps/api/src/arguments/docs-source.ts:381-387 | The list of changed lines shows, in order and each once, the lines added or removed, marked |
| `ConfigNormalisation.SettlesExactly` | apps/api/src/config-paths.ts:43-118 | After one pass of expanding and printing, a JSON tree asks for another if and only if one of its strings is unsettled: its expanded form lies under a root, opens no placeholder behind that root, and the root's own placeholder expands to another directory |
| `ConfigNormalisation.StringSettlesExactly` | apps/api/src/config-paths.ts:43-118 | The same equivalence for a single string, for any roots |
| `ConfigNormalisation.NormalisedInOnePass` | apps/api/src/config-paths.ts:43-118 | When every root's placeholder expands to that root's directory, one pass leaves nothing to normalise in any JSON tree |
| `ConfigNormalisation.ClosedExpandToThemselves` | apps/api/src/config-paths.ts:53-62 | Roots whose directories neither hold `${` nor end in `$` are of that kind |
| `ConfigNormalisation.OneRootExpandsToItself` | apps/api/src/config-paths.ts:53-62 | So is a single root, whatever its directory holds |
| `ConfigNormalisation.FromPortableLeadsNone` | apps/api/src/config-paths.ts:53-62 | No expanded text starts with a known placeholder, whatever the directories hold |
| `ConfigNormalisation.DollarInRootBreaks` | apps/api/src/config-paths.ts:53-118 | Concrete roots, one holding the placeholder of another in its name, for which one pass is not enough |
| `ConfigPaths.FromPortableExpands` | apps/api/src/config-paths.ts:53-62 | For such closed directories expanding leaves no known placeholder anywhere in the text |
| `ConfigPaths.ExpandingSettles` | apps/api/src/config-paths.ts:43-62 | And printing and expanding once more changes nothing |
| `ConfigPaths.RoundTrip` | apps/api/src/config-paths.ts:43-62 | Expanding the portable form of a path gives the path back, for every path without a known placeholder |
| `ConfigPaths.RootIsLongest` | apps/api/src/config-paths.ts:30-41 | The root chosen encloses the path and no other enclosing root is longer |
| `ConfigPaths.ContainingRoot` | apps/api/src/config-paths.ts:30-41 | The loop picks that root |
| `PortableTexts.PrintedExactly` | apps/api/src/config-paths.ts:30-51 | A text is printed under the longest directory that it is or lies in, the first of those as long, as that one's placeholder and the rest; a text that is not absolute or lies in none is left as it is |
| `PortableTexts.ReplacedExactly` | apps/api/src/config-paths.ts:58-60 | Replacing is cutting the text at every occurrence of the placeholder, from left to right, and joining the pieces with the directory |
| `PortableTexts.ExpandedExactly` | apps/api/src/config-paths.ts:53-62 | Expanding goes through one text per root, each the one before with that root's placeholder replaced |
| `PortableTexts.RootsExactly` | apps/api/src/config-paths.ts:7-24 | The roots are exactly the absolute directories other than the top, in order, each under its own token |
| `ConfigPaths.FromPortablePath` | apps/api/src/config-paths.ts:53-62 | The replacement loop, root by root, from the result of the one before |
| `ConfigPaths.MapFields` | apps/api/src/config-paths.ts:71-77 | The loop over an object's entries maps every field and keeps every key but `__proto__`, whose assignment sets the prototype |
| `ConfigPaths.ReplacingOnlyRemoves` | apps/api/src/config-paths.ts:53-62 | Replacing one placeholder makes no other placeholder appear, and removes every occurrence of its own |
| `ConfigPaths.ConfiguredRootsArePortable` | apps/api/src/config-paths.ts:1-28 | What is assumed of roots elsewhere holds of those built from any configured directories |
| `SseFrames.ChunkingDoesNotMatter` | packages/core/src/sse.ts:12-22 | However the text is cut into pushes, frames and pending rest are those of one push of the whole |
| `SseFrames.SplitInTwo` | packages/core/src/sse.ts:12-22 | Splitting in two pushes is splitting at once, also when the cut falls inside a separator |
| `SseFrames.SplitRebuilds` | packages/core/src/sse.ts:6-22 | Frames with their separators and the rest rebuild the input; no frame and not the rest holds a separator |
| `SseFrames.SplitExactly` | packages/core/src/sse.ts:6-22 | The splitting without its scan: it is the one way to cut a text at two line ends in a row, each with or without a carriage return, every cut at the first place where such a pair begins |
| `SseFrames.SseFrameBuffer.Push` | packages/core/src/sse.ts:12-22 | The loop returns the frames and keeps the rest of pending text plus chunk |
| `SseFrames.SseFrameBuffer.Flush` | packages/core/src/sse.ts:23-26 | The rest is handed out unless it is blank |
| `ClassFields.ResolveField` | scripts/extract-args/vllm.py:147-166 | A field is found exactly when some class reachable through bases declares it, cycles and missing bases included, and then in the first such class in depth-first order, by a worklist that knows nothing of the recursion |
| `ClassFields.InheritedFields` | scripts/extract-args/vllm.py:169-181 | The fields listed are exactly those, each once, those of bases before those of the class, in the order a worklist visits the classes |
| `ClassFields.FrontendOptions` | scripts/extract-args/vllm.py:412-436 | The unresolved branch never runs: every listed field resolves, to the first class in depth-first order that declares it, and the options follow the order of the listing |
| `ClassFields.ResolveSeen` | scripts/extract-args/vllm.py:147-166 | The search with its shared, mutated set: the result is that of a depth-first worklist, without a result everything newly seen is explored and declares no such field, and it terminates on the classes not yet seen |
| `ClassFields.InheritedSeen` | scripts/extract-args/vllm.py:169-181 | The listing with its shared set: exactly the fields of the classes newly seen, all of them reachable, in worklist order; dropping repeats at every level is dropping them once at the end |
| `ClassFields.ClosedHoldsReached` | scripts/extract-args/vllm.py:147-181 | A set closed under bases holds every class reachable from it |
| `GgufSplit.CompleteExactly` | packages/core/src/gguf-split.ts:54-83 | With lower-case markers, a split group is reported complete exactly when its files are all of shards 1..count, each once |
| `GgufSplit.CompleteInAnyCase` | packages/core/src/gguf-split.ts:71-81 | A split group, whatever the case of its markers, is reported complete if and only if it has as many different files as there are shards and every index in it is also that of a file with lower-case markers |
| `GgufSplit.OtherCaseNeverRight` | packages/core/src/gguf-split.ts:71-81 | With a marker in another case a group is never both reported complete and all shards once, so all shards once, one of them in another case, are reported incomplete |
| `GgufSplit.CapitalMarkerFoolsCompleteness` | packages/core/src/gguf-split.ts:71-81 | A concrete group reported complete without its shard 2 |
| `GgufSplit.MatchIsUnique` | packages/core/src/gguf-split.ts:9-13 | The pattern matches a name in one way only, so greedy matching decides nothing |
| `GgufSplit.ParsedExactly` | packages/core/src/gguf-split.ts:9-46 | Character by character, what parses: a non-empty prefix on one line, a hyphen, digits, -of- and digits and .gguf with their letters in either case, and an index from 1 to a count of at least 2; to the prefix, numbers and widths read there |
| `GgufSplit.ParsePrinted` | packages/core/src/gguf-split.ts:9-46 | Parsing a printed shard name gives the split back, widths included as far as the numbers fit them |
| `GgufSplit.PrintParsed` | packages/core/src/gguf-split.ts:9-46 | Printing a parsed name gives it back exactly when its markers are in lower case |
| `GgufSplit.SameKey` | packages/core/src/gguf-split.ts:58-67 | Two files share a group exactly when they differ in index only, paddings included |
| `GgufSplit.GroupByKey` | packages/core/src/gguf-split.ts:58-67 | The map loop keeps every file, in order, in the group of its key, and the keys in order of first appearance |
| `GgufSplit.GroupGgufFiles` | packages/core/src/gguf-split.ts:54-83 | One group per key, in order of first appearance, holding all files of that key sorted by the given collation, each with its verdict, which is that of the files unsorted |
| `GgufSplit.VerdictKept` | packages/core/src/gguf-split.ts:69-81 | The verdict on a group is the same in every order of its files |
| `GgufSplit.CollatedShape` | packages/core/src/gguf-split.ts:69-71 | Sorting a group keeps each file as often as it was there and leaves them in collation order |
| `SplitNames.ShardsAreGrouped` | packages/core/src/gguf-split.ts:48-83 | The names printed for a split are grouped again as one complete group if and only if the index width holds the highest index; unpadded names with ten shards or more fall apart |
| `SplitNames.OneKeyExactly` | packages/core/src/gguf-split.ts:48-67 | Under that condition all printed names share a key, otherwise the last does not share the first one's |
| `SplitNames.AllNamesOnce` | packages/core/src/gguf-split.ts:48-52 | The printed names are shards 1..count, each once |
| `GpuPlacement.LayersInOrder` | packages/core/src/memory-estimate.ts:309-324 | The host takes the first layers and the GPU index never decreases as the layer grows |
| `GpuPlacement.LayerWithinShare` | packages/core/src/memory-estimate.ts:309-324 | An in-range layer goes to the GPU whose part of the split holds its position, so never to one without a share; with split mode none all layers go to the main GPU |
| `GpuPlacement.GpuPoolForLayer` | packages/core/src/memory-estimate.ts:309-324 | The loop finds the first GPU whose cumulative share exceeds the position, or the last |
| `GpuPlacement.TensorSplitShape` | packages/core/src/instance-resources.ts:202-229 | A split has one share per GPU, none negative, not all zero |
| `GpuPlacement.AccumulateWeights` | packages/core/src/memory-estimate.ts:675-699 | Pool weights are the bytes of the tensors placed there and sum to all tensor bytes plus the one duplicated tied embedding |
| `WeightPlacement.WeighPools` | packages/core/src/memory-estimate.ts:333-356 | On printed names and the numbers of the split: the bytes of blk.<layer>.<rest> are on the host if the rest holds an expert part and the layer is below the layers whose experts stay there, and in the pool of the layer otherwise; names whose first word is output or output_norm are in the pool of the last layer, all others on the host; a tied embedding is counted once more in the pool of the last layer |
| `WeightPlacement.LayerGoes` | packages/core/src/memory-estimate.ts:390-403 | The pool of a layer: the host below the last nGpu layers or without a GPU, the main GPU unsplit, else the GPU between whose cumulated shares the layer's position lies, the last one behind them all |
| `WeightPlacement.EveryNamePrinted` | packages/core/src/memory-estimate.ts:271-288 | Every tensor name is one of a layer or one of the model, so the theorem covers all tensor lists |
| `WeightPlacement.TensorSplitExactly` | packages/core/src/instance-resources.ts:202-229 | Each GPU's share is the number given for it, negative ones and those that are no numbers skipped, 0 behind the last; if no GPU has a positive one that way, all have the same |
| `GpuPlacement.DivideCache` | packages/core/src/memory-estimate.ts:494-520 | Each GPU's cache is as many whole bytes as it can use and its share of the budget holds, an equal share if no GPU has any, and all together never exceed the budget |
| `ContextParams.ContextBound` | packages/core/src/memory-estimate.ts:171-195 | nCtx and nCtxSeq are multiples of 256, and nCtx is at least the requested context if and only if the cache is unified or the per-sequence split does not fall short |
| `ContextParams.ContextIsEnough` | packages/core/src/memory-estimate.ts:171-195 | Up to 256 sequences nCtx always reaches the requested context |
| `ContextParams.ManySequencesFallShort` | packages/core/src/memory-estimate.ts:171-195 | 66048 tokens over 257 sequences give 65792 |
| `ContextParams.SplitPadding` | packages/core/src/memory-estimate.ts:180-195 | When dividing over sequences and padding each part falls below the whole |
| `ContextParams.BatchAndWindowBound` | packages/core/src/memory-estimate.ts:197-228 | nUbatch never exceeds nBatch, and the sliding-window cache is a multiple of 256 and never larger than the full one |
| `ContextParams.ContextExactly` | packages/core/src/memory-estimate.ts:171-195 | The context of one sequence: unified, the one requested up to the next multiple of 256; split, the least multiple of 256 that holds the sequence's part of that, rounded down; all sequences together have that many times as much |
| `ContextParams.BatchExactly` | packages/core/src/memory-estimate.ts:197-228 | The batch is the configured one, for causal attention no more than the context requested; the micro-batch is the configured one within the batch, and the batch shrinks to it for embeddings and reranking |
| `ContextParams.WindowExactly` | packages/core/src/memory-estimate.ts:1671-1686 | The window cache is the window of every sequence that shares it plus a micro-batch, up to the next multiple of 256, unless the full cache is smaller |
| `DirectoryStoreRuns.CacheIsFresh` | apps/api/src/config-store/directory-store.ts:68-149 | With files named by their key and no outside edits, after any run of writes, renames, removals and resets the cached values and times are what a fresh load gives |
| `DirectoryStoreRuns.WriteReplacesOnlyKnown` | apps/api/src/config-store/directory-store.ts:108-118 | With outside edits that change the modification time, a write that goes through creates its file or replaces content the store itself loaded or wrote, never a quarantined file |
| `DirectoryStoreRuns.ConflictsExactly` | apps/api/src/config-store/directory-store.ts:112-114 | Over any run, a write conflicts if and only if its file is foreign (the store has neither loaded nor written what is in it) or is gone although its time is cached |
| `DirectoryStoreRuns.RenameDeletes` | apps/api/src/config-store/directory-store.ts:120-127 | Over any run, a rename deletes the old file; its time is the cached one if and only if the store itself loaded or wrote what goes, and otherwise foreign content goes |
| `DirectoryStoreRuns.RemovalDeletes` | apps/api/src/config-store/directory-store.ts:132-145 | The same for a removal, which checks nothing |
| `DirectoryStoreRuns.ForeignIsOutside` | apps/api/src/config-store/directory-store.ts:68-149 | Foreign content is what an outside edit of the run left, untouched since, or what was there before the run and has not been read |
| `DirectoryStoreRuns.FreshGuarded` | apps/api/src/config-store/directory-store.ts:48-56 | A store just created over any directory satisfies what these theorems ask of their start |
| `DirectoryStoreRuns.ActCurrent` | apps/api/src/config-store/directory-store.ts:108-149 | Each operation keeps the cache equal to the directory |
| `DirectoryStoreRuns.ActGuarded` | apps/api/src/config-store/directory-store.ts:68-149 | Each operation, and each outside edit, keeps the link between cached times and what the store has loaded or written |
| `DirectoryStoreRuns.LoadIsFresh` | apps/api/src/config-store/directory-store.ts:68-94 | A load in any listing order gives the values and times of the valid files |
| `DirectoryStoreRuns.BrokenAreListed` | apps/api/src/config-store/directory-store.ts:68-94 | A load lists exactly the JSON files that hold no record |
| `DirectoryStoreRuns.WriteLeaves` | apps/api/src/config-store/directory-store.ts:108-130 | A write that goes through leaves its record in <key>.json and under its key in the cache, deletes the file and the entry of a key it replaces, and touches no other file; one that conflicts touches none |
| `DirectoryStoreRuns.RemovalLeaves` | apps/api/src/config-store/directory-store.ts:132-145 | A removal deletes the file of the record and no other, and forgets it |
| `DirectoryStoreRuns.RenameDropsOutsideEdit` | apps/api/src/config-store/directory-store.ts:120-127 | A run of a store just created, for any record and any edit: load, outside edit, rename; the edit is deleted without a conflict, since the check covers the target only |
| `DirectoryStoreRuns.RemovalDropsOutsideEdit` | apps/api/src/config-store/directory-store.ts:132-145 | The same run ending in a removal |
| `DirectoryStore.JsonDirectoryStore.constructor` | apps/api/src/config-store/directory-store.ts:48-56 | A new store has loaded nothing and knows nothing of its directory |
| `DirectoryStore.JsonDirectoryStore.EnsureLoaded` | apps/api/src/config-store/directory-store.ts:68-94 | Loading fills the cache from the directory, once |
| `DirectoryStore.JsonDirectoryStore.WriteValue` | apps/api/src/config-store/directory-store.ts:108-130 | The whole state of cache and disk after a write; on a conflict nothing changes |
| `DirectoryStore.JsonDirectoryStore.RemoveValue` | apps/api/src/config-store/directory-store.ts:132-145 | The whole state after a removal, and whether there was anything to remove |
| `DirectoryStore.JsonDirectoryStore.ResetState` | apps/api/src/config-store/directory-store.ts:147-149 | The cache is dropped and the disk stays |

## Left out

- Floating point: times, rates and weights are reals, token and byte counts integers; rounding, the 2^53 limit and shard numbers of more than 308 digits are not modelled.
- JSON: numbers are integers or infinite, so fractional tool indices do not occur; what JSON.parse makes of a datum is a parameter of `Push`.
- EmitterReplies.StreamOfReplies: is about chunks as an upstream means them; chunks with fields missing or of another type are covered by `EmitterAgreement.StreamAgreesWithResponse`.
- `parseToolArguments`: the agreement theorem compares the raw argument strings that it would read, not the parsed input.
- The scheduler is a state machine over its stretches between awaits and not a class: promises, AbortController and Promise.race appear as steps and flags, and `send` is taken not to throw before it returns a promise. A rejected null or undefined is modelled, any other error is a text. A sleep under an aborted signal ends at once, as that of the real clock does.
- Percentiles, groups, client decode rates, topic summaries and the headline of `analyze`, and the ordering of requests by submission, which no bucket depends on.
- LoadTimeline.BenchmarkLoadCollector.Analyze: asks for requests whose times are ordered and whose chunks lie before the end.
- LoadReport.Report: asks the same.
- Occupancy.AverageOccupancy: asks for spans inside the timeline, which `LoadTimeline.SpansInside` proves of those `analyze` passes.
- SegmentShares.ChargeRepetition: asks for chunk times in order.
- SegmenterTotals.RequestConserved: chunk times are taken to be in order and request ids to be unique within a repetition; the repetition number of a segment and its rate are left out, and a pair of counts stands for the class key text.
- The labels, joining and splitting into lines around the diff of help texts.
- `TextDecoder`: the frame buffer takes decoded text, and `Flush` the decoder's last piece.
- Regular expressions are written out as functions over the text; text is a sequence of characters where the source has UTF-16 code units.
- ConfigPaths.MapFields: an entry `__proto__` is lost as in the code; the prototype that its assignment sets is not modelled.
- The environment the portable roots come from is a parameter; only `/` is a path separator.
- Options built from vLLM fields beyond finding the field (flags, groups, types, defaults).
- GgufSplit.GroupGgufFiles: files are their paths, and how two paths compare in the locale is a parameter, any order with ties.
- The key-value cache, compute buffers, draft models and warnings of the memory estimate; `GpuPlacement.DivideCache` starts from the devices and their wanted bytes, without the reasons for which the cache is rejected.
- WeightPlacement.WeighPools: asks for at least one layer, which the code counts even for no blocks, and for a split as `GpuPlacement.TensorSplitShape` proves it.
- The main GPU of a placement without a split is given, not looked up among the pools.
- ContextParams.ContextBound: asks for a positive context, requested or trained.
- Listing, reading one config, quarantine reports and the registry of stores; writing a record and reading it back is taken to give the record, keys hold no `/`, and portable paths inside records are modelled in `ConfigPaths` only.
- DirectoryStoreRuns.CacheIsFresh: compares values and times, not the list of quarantined files, which keeps a file that a rename removed until the next reset.
