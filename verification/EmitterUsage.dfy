/**
 The token counts of a stream against those of the whole response. A client of the
 stream takes the counts of message_start and lets message_delta override them.
 */
module EmitterUsage {
  import opened Options
  import opened JsonValues
  import opened AnthropicEvents
  import opened SortedSets
  import opened EmitterModel
  import opened EmitterContent
  import EmitterAgreement
  import opened Numbers

  datatype Counts = Counts(input: int, output: int, cacheRead: Option<int>)

  function FoldCounts(events: seq<Event>): Counts {
    if events == [] then Counts(0, 0, None)
    else AddCounts(FoldCounts(events[..|events| - 1]), events[|events| - 1])
  }

  function AddCounts(c: Counts, e: Event): Counts {
    match e
    case MessageStart(_, _, input, cacheRead) => Counts(input, 0, cacheRead)
    case MessageDelta(_, output, input, cacheRead) =>
      Counts(input.GetOr(c.input), output, Coalesce(cacheRead, c.cacheRead))
    case _ => c
  }

  // The last value each count was given, over the chunks of a run.

  function PromptOf(chunk: Json): Option<int> { NumberOrNull(Field(UsageOf(chunk), "prompt_tokens")) }

  function CompletionOf(chunk: Json): Option<int> { NumberOrNull(Field(UsageOf(chunk), "completion_tokens")) }

  function CachedOf(chunk: Json): Option<int> {
    NumberOrNull(Field(AsObject(Field(UsageOf(chunk), "prompt_tokens_details")), "cached_tokens"))
  }

  function TotalOf(chunk: Json): Option<int> {
    var progress := KnownProgress(ProgressOf(chunk));
    if progress.Some? then Some(progress.value.total) else None
  }

  function ProgressCacheOf(chunk: Json): Option<int> {
    var progress := KnownProgress(ProgressOf(chunk));
    if progress.Some? then Some(progress.value.cache) else None
  }

  function Last(chunks: seq<Json>, read: Json -> Option<int>): Option<int> {
    if chunks == [] then None else Coalesce(read(chunks[|chunks| - 1]), Last(chunks[..|chunks| - 1], read))
  }

  function UsageIn(chunks: seq<Json>): Usage {
    Usage(Last(chunks, PromptOf), Last(chunks, CachedOf), Last(chunks, CompletionOf),
          Last(chunks, TotalOf), Last(chunks, ProgressCacheOf))
  }

  // The usage of the whole response, and how it is translated.

  function OptionalNumber(key: string, value: Option<int>): map<string, Json> {
    if value.Some? then map[key := Number(value.value)] else map[]
  }

  function WholeUsage(chunks: seq<Json>): Json {
    var u := UsageIn(chunks);
    Obj(OptionalNumber("prompt_tokens", u.promptTokens)
        + OptionalNumber("completion_tokens", u.completionTokens)
        + map["prompt_tokens_details" := Obj(OptionalNumber("cached_tokens", u.cachedTokens))])
  }

  /** `openAiUsageToAnthropic`, with the zeros that a response without usage gets. */
  function TranslatedUsage(value: Option<Json>): Counts {
    var usage := AsObject(value);
    var prompt := Coalesce(NumberOrNull(Field(usage, "prompt_tokens")), NumberOrNull(Field(usage, "input_tokens")));
    var completion :=
      Coalesce(NumberOrNull(Field(usage, "completion_tokens")), NumberOrNull(Field(usage, "output_tokens")));
    var details := Coalesce(AsObject(Field(usage, "prompt_tokens_details")),
                            AsObject(Field(usage, "input_tokens_details")));
    var cached := NumberOrNull(Field(details, "cached_tokens"));
    if prompt.None? && completion.None? then Counts(0, 0, None)
    else Counts(Max(0, prompt.GetOr(0) - cached.GetOr(0)), completion.GetOr(0), cached)
  }

  lemma CountsAppend(events: seq<Event>, e: Event)
    ensures FoldCounts(events + [e]) == AddCounts(FoldCounts(events), e)
  {
    assert (events + [e])[..|events|] == events;
  }

  // What the handlers leave alone.

  predicate Uncounted(s: State, t: State) {
    t.usage == s.usage && FoldCounts(t.events) == FoldCounts(s.events) && SamePace(s, t)
  }

  lemma CloseBlockUncounted(s: State)
    ensures Uncounted(s, CloseBlock(s))
  {
    hide FoldCounts;
    var index := s.nextIndex - 1;
    CountsAppend(s.events, BlockDelta(index, SignatureDelta));
    CountsAppend(s.events, BlockStop(index));
    CountsAppend(s.events + [BlockDelta(index, SignatureDelta)], BlockStop(index));
  }

  lemma StartBlockUncounted(s: State, contentBlock: ContentBlock, owner: Option<int>)
    ensures Uncounted(s, StartBlock(s, contentBlock, owner))
  {
    hide FoldCounts;
    CountsAppend(s.events, BlockStart(s.nextIndex, contentBlock));
  }

  lemma PushDeltaUncounted(s: State, delta: Delta)
    ensures Uncounted(s, PushDelta(s, delta))
  {
    hide FoldCounts;
    CountsAppend(s.events, BlockDelta(s.nextIndex - 1, delta));
  }

  lemma FlushToolUncounted(s: State, t: int, tool: BufferedTool)
    ensures Uncounted(s, FlushTool(s, t, tool))
  {
    hide FoldCounts, StartBlock, PushDelta;
    var begun := StartBlock(s, ToolBlock(t, tool), Some(t));
    StartBlockUncounted(s, ToolBlock(t, tool), Some(t));
    PushDeltaUncounted(begun, InputJsonDelta(tool.arguments));
    var filled := if tool.arguments == "" then begun else PushDelta(begun, InputJsonDelta(tool.arguments));
    CountsAppend(filled.events, BlockStop(filled.nextIndex - 1));
  }

  lemma {:induction false} FlushFirstUncounted(s: State, tools: map<int, BufferedTool>, order: seq<int>, n: nat)
    requires n <= |order|
    ensures Uncounted(s, FlushFirst(s, tools, order, n))
  {
    hide FoldCounts, FlushTool;
    if n > 0 {
      FlushFirstUncounted(s, tools, order, n - 1);
      FlushToolUncounted(FlushFirst(s, tools, order, n - 1), order[n - 1], BufferedAt(tools, order[n - 1]));
    }
  }

  lemma FlushToolsUncounted(s: State)
    ensures Uncounted(s, FlushTools(s))
  {
    hide FoldCounts;
    var order := SortedKeys(s.tools.Keys);
    FlushFirstUncounted(s, s.tools, order, |order|);
  }

  lemma ReasoningUncounted(s: State, reasoning: string)
    ensures Uncounted(s, ReasoningStep(s, reasoning))
  {
    hide FoldCounts, CloseBlock, StartBlock, PushDelta;
    CloseBlockUncounted(s);
    StartBlockUncounted(CloseBlock(s), ThinkingBlock, None);
    var ready := if s.block == Some(OpenThinking) then s
                 else StartBlock(CloseBlock(s), ThinkingBlock, None).(block := Some(OpenThinking));
    PushDeltaUncounted(ready, ThinkingDelta(reasoning));
  }

  lemma {:induction false} ToolsUncounted(s: State, calls: seq<Json>)
    ensures Uncounted(s, ToolsStep(s, calls))
    decreases |calls|
  {
    hide FoldCounts, CloseBlock;
    if calls != [] {
      ToolsUncounted(s, calls[..|calls| - 1]);
      CloseBlockUncounted(ToolsStep(s, calls[..|calls| - 1]));
    }
  }

  lemma TextUncounted(s: State, text: string)
    ensures Uncounted(s, TextStep(s, text))
  {
    hide FoldCounts, CloseBlock, StartBlock, PushDelta, FlushTools;
    FlushToolsUncounted(s);
    var flushed := FlushTools(s);
    CloseBlockUncounted(flushed);
    StartBlockUncounted(CloseBlock(flushed), TextBlock, None);
    var ready := if flushed.block == Some(OpenText) then flushed
                 else StartBlock(CloseBlock(flushed), TextBlock, None).(block := Some(OpenText));
    PushDeltaUncounted(ready, TextDelta(text));
  }

  lemma ReasonUncounted(s: State, reason: string)
    ensures Uncounted(s, ReasonStep(s, reason))
  {
    hide FoldCounts, CloseBlock;
    CloseBlockUncounted(s.(finishReason := Some(reason)));
  }

  lemma HandlersUncounted(s: State, chunk: Json)
    ensures var reasoned := ReasoningStep(s, ReasoningOf(chunk));
            Uncounted(s, ReasonStep(TextStep(ToolsStep(reasoned, ToolCallsOf(chunk)), TextOf(chunk)), ReasonOf(chunk)))
  {
    hide FoldCounts, ReasoningStep, ToolsStep, TextStep, ReasonStep, ReasoningOf, ToolCallsOf, TextOf, ReasonOf;
    var reasoned := ReasoningStep(s, ReasoningOf(chunk));
    ReasoningUncounted(s, ReasoningOf(chunk));
    var buffered := ToolsStep(reasoned, ToolCallsOf(chunk));
    ToolsUncounted(reasoned, ToolCallsOf(chunk));
    var texted := TextStep(buffered, TextOf(chunk));
    TextUncounted(buffered, TextOf(chunk));
    ReasonUncounted(texted, ReasonOf(chunk));
  }

  // The invariant: the counts kept are the last ones given.

  predicate Keeps(s: State, chunks: seq<Json>) {
    && !s.finished
    && (s.started <==> chunks != [])
    && s.usage == UsageIn(chunks)
    && (FoldCounts(s.events).cacheRead.Some? ==> s.usage.progressCache.Some?)
    && (FoldCounts(s.events).input != 0 ==> s.usage.progressTotal.Some?)
  }

  lemma LastAppend(chunks: seq<Json>, chunk: Json, read: Json -> Option<int>)
    ensures Last(chunks + [chunk], read) == Coalesce(read(chunk), Last(chunks, read))
  {
    assert (chunks + [chunk])[..|chunks|] == chunks;
  }

  lemma AbsorbsLast(chunks: seq<Json>, chunk: Json)
    ensures Absorb(UsageIn(chunks), chunk) == UsageIn(chunks + [chunk])
  {
    hide Last, KnownProgress, UsageOf, ProgressOf;
    LastAppend(chunks, chunk, PromptOf);
    LastAppend(chunks, chunk, CachedOf);
    LastAppend(chunks, chunk, CompletionOf);
    LastAppend(chunks, chunk, TotalOf);
    LastAppend(chunks, chunk, ProgressCacheOf);
  }

  lemma BeginKeeps(s: State, chunks: seq<Json>, chunk: Json, prefix: string)
    requires Keeps(s, chunks)
    ensures Keeps(Begin(s, chunk, prefix), chunks + [chunk])
  {
    hide FoldCounts, Absorb, UsageIn;
    AbsorbsLast(chunks, chunk);
    var u := Absorb(s.usage, chunk);
    ProgressStays(s.usage, chunk);
    if !s.started {
      CountsAppend(s.events, Begin(s, chunk, prefix).events[|s.events|]);
    }
  }

  lemma ProgressStays(u: Usage, chunk: Json)
    ensures u.progressCache.Some? ==> Absorb(u, chunk).progressCache.Some?
    ensures u.progressTotal.Some? ==> Absorb(u, chunk).progressTotal.Some?
  {
  }

  lemma StepKeeps(s: State, chunks: seq<Json>, call: Call, prefix: string)
    requires Keeps(s, chunks) && !IsFinish(call)
    ensures Keeps(Step(s, call, prefix), chunks + Heard(call))
  {
    hide FoldCounts, Begin, ReasoningStep, ToolsStep, TextStep, ReasonStep, UsageIn;
    assert chunks + [] == chunks;
    if ValueOf(call).Some? && ValueOf(call).value.Obj? {
      var value := ValueOf(call).value;
      if IsError(value) {
        CountsAppend(s.events, Error(ErrorMessage(value.fields["error"])));
      } else {
        assert Heard(call) == [value];
        BeginKeeps(s, chunks, value, prefix);
        HandlersUncounted(Begin(s, value, prefix), value);
        CountsAppend(ReadChunk(s, value, prefix).events, Ping);
      }
    }
  }

  /** The counts a finished stream leaves with its client. */
  function FinalCounts(u: Usage, begun: Counts): Counts {
    Counts(
      if u.promptTokens.Some? then NetOf(u.promptTokens.value, u.cachedTokens)
      else if u.progressTotal.Some? then NetOf(u.progressTotal.value, u.progressCache)
      else begun.input,
      u.completionTokens.GetOr(0),
      Coalesce(u.cachedTokens, u.progressCache))
  }

  lemma FinalizeCounts(s: State, chunks: seq<Json>)
    requires Keeps(s, chunks) && chunks != []
    ensures FoldCounts(Finalize(s).events) == FinalCounts(UsageIn(chunks), FoldCounts(s.events))
  {
    hide FoldCounts, CloseBlock, FlushTools, UsageIn;
    var closed := CloseBlock(s.(finished := true));
    CloseBlockUncounted(s.(finished := true));
    FlushToolsUncounted(closed);
    var flushed := FlushTools(closed);
    var summary := Summary(s.finishReason, s.sawTool, s.usage);
    CountsAppend(flushed.events, summary);
    CountsAppend(flushed.events + [summary], MessageStop);
  }

  lemma {:induction false} RunCounts(s: State, past: seq<Json>, calls: seq<Call>, prefix: string)
    requires Keeps(s, past) && exists call <- calls :: IsFinish(call)
    requires past + Received(calls) != []
    ensures var all := past + Received(calls);
            exists begun: Counts ::
              && FoldCounts(Run(s, calls, prefix).events) == FinalCounts(UsageIn(all), begun)
              && (begun.cacheRead.Some? ==> UsageIn(all).progressCache.Some?)
              && (begun.input != 0 ==> UsageIn(all).progressTotal.Some?)
    decreases |calls|
  {
    hide FoldCounts, UsageIn, Step, FinalCounts, Finalize;
    var next := Step(s, calls[0], prefix);
    if IsFinish(calls[0]) {
      assert past + [] == past;
      EmitterAgreement.StepFinishes(s, calls[0], prefix);
      FinalizeCounts(s, past);
      EmitterAgreement.FinishedStays(next, calls[1..], prefix);
    } else {
      assert past + Received(calls) == past + Heard(calls[0]) + Received(calls[1..]);
      StepKeeps(s, past, calls[0], prefix);
      RunCounts(next, past + Heard(calls[0]), calls[1..], prefix);
    }
  }

  lemma TranslatedCounts(chunks: seq<Json>)
    ensures var u := UsageIn(chunks);
            TranslatedUsage(Some(WholeUsage(chunks)))
            == if u.promptTokens.None? && u.completionTokens.None? then Counts(0, 0, None)
               else Counts(NetOf(u.promptTokens.GetOr(0), u.cachedTokens), u.completionTokens.GetOr(0), u.cachedTokens)
  {
    hide Last;
  }

  lemma {:induction false} ProgressTogether(chunks: seq<Json>)
    ensures UsageIn(chunks).progressTotal.Some? <==> UsageIn(chunks).progressCache.Some?
    decreases |chunks|
  {
    hide KnownProgress, ProgressOf, UsageOf;
    if chunks != [] { ProgressTogether(chunks[..|chunks| - 1]); }
  }

  /** The input tokens that the progress of the prompt stands in for. */
  function ProgressInput(u: Usage): int {
    if u.progressTotal.Some? then NetOf(u.progressTotal.value, u.progressCache) else 0
  }

  /**
   When the last counts reported make the two agree. Cached tokens must be reported, or
   the cache of the progress stands in for them; so must prompt tokens, unless the
   progress comes to the same. Without either count the response reports nothing.
   */
  predicate CountsAgree(u: Usage) {
    if u.promptTokens.None? && u.completionTokens.None? then u.cachedTokens.None? && u.progressTotal.None?
    else
      && (u.cachedTokens.Some? || u.progressTotal.None?)
      && (u.promptTokens.Some? || ProgressInput(u) == NetOf(0, u.cachedTokens))
  }

  /** The agreement of the counts, over every finished run. */
  lemma UsageAgreesWithResponse(calls: seq<Call>, prefix: string)
    requires exists call <- calls :: IsFinish(call)
    requires Received(calls) != []
    ensures FoldCounts(Run(INITIAL, calls, prefix).events) == TranslatedUsage(Some(WholeUsage(Received(calls))))
            <==> CountsAgree(UsageIn(Received(calls)))
  {
    hide FoldCounts, Run, TranslatedUsage, WholeUsage, Received, UsageIn;
    var chunks := Received(calls);
    assert [] + chunks == chunks;
    assert Keeps(INITIAL, []) by { InitialKeeps(); }
    RunCounts(INITIAL, [], calls, prefix);
    TranslatedCounts(chunks);
    ProgressTogether(chunks);
  }

  lemma InitialKeeps()
    ensures Keeps(INITIAL, [])
  {
  }

  // Progress that tells of cached tokens where the usage does not.
  const CACHED_PROGRESS := Obj(map[
    "prompt_progress" := Obj(map["total" := Number(10), "processed" := Number(10), "cache" := Number(4)]),
    "usage" := Obj(map["prompt_tokens" := Number(10), "completion_tokens" := Number(1)])])

  lemma CachedProgressCounts()
    ensures IsAccepted(CACHED_PROGRESS)
    ensures PromptOf(CACHED_PROGRESS) == Some(10) && CachedOf(CACHED_PROGRESS) == None
        && TotalOf(CACHED_PROGRESS) == Some(10)
  {
  }

  lemma LastOfOne(chunk: Json, read: Json -> Option<int>)
    ensures Last([chunk], read) == read(chunk)
  {
    assert [chunk][..0] == [];
  }

  /** The stream then tells its client of cached tokens, and the whole response does not. */
  lemma ProgressCacheDisagrees(prefix: string)
    ensures var calls := [PushValue(CACHED_PROGRESS), Finish];
            && Received(calls) == [CACHED_PROGRESS]
            && FoldCounts(Run(INITIAL, calls, prefix).events) != TranslatedUsage(Some(WholeUsage([CACHED_PROGRESS])))
  {
    hide FoldCounts, Run, TranslatedUsage, WholeUsage, Last, PromptOf, CachedOf, TotalOf, IsAccepted;
    var calls := [PushValue(CACHED_PROGRESS), Finish];
    CachedProgressCounts();
    LastOfOne(CACHED_PROGRESS, PromptOf);
    LastOfOne(CACHED_PROGRESS, CachedOf);
    LastOfOne(CACHED_PROGRESS, TotalOf);
    assert calls[1..] == [Finish] && Received([Finish]) == [] && Received(calls) == [CACHED_PROGRESS] + [];
    assert calls[1] in calls;
    UsageAgreesWithResponse(calls, prefix);
  }
}
