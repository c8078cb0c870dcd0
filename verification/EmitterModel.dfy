/**
 The streaming emitter as a function on states: what each handler of
 `createAnthropicSseEmitter` does to the closure variables and which events it
 adds. `Emitter.dfy` proves the imperative emitter against it; the properties are
 proved about it in the `Emitter*` modules.
 */
module EmitterModel {
  import opened Options
  import opened JsonValues
  import opened AnthropicEvents
  import Decimals
  import opened SortedSets
  import opened Numbers

  datatype OpenBlock = OpenThinking | OpenText

  datatype BufferedTool = BufferedTool(id: string, name: string, arguments: string)

  datatype Usage = Usage(
    promptTokens: Option<int>,
    cachedTokens: Option<int>,
    completionTokens: Option<int>,
    progressTotal: Option<int>,
    progressCache: Option<int>)

  // `events` is everything emitted so far, over all calls. `owners` names, for each
  // block, the buffered tool it carries; it is history that no handler reads.
  datatype State = State(
    started: bool,
    finished: bool,
    nextIndex: int,
    block: Option<OpenBlock>,
    tools: map<int, BufferedTool>,
    sawTool: bool,
    finishReason: Option<string>,
    usage: Usage,
    events: seq<Event>,
    owners: seq<Option<int>>)

  const INITIAL := State(false, false, 0, None, map[], false, None,
                         Usage(None, None, None, None, None), [], [])

  // One call on the emitter. `parsed` is what JSON.parse makes of the data, if anything.
  datatype Call =
    | Push(data: string, parsed: Option<Json>)
    | PushValue(value: Json)
    | Finish

  function Emit(s: State, e: Event): State {
    s.(events := s.events + [e])
  }

  function CloseBlock(s: State): State {
    match s.block
    case None => s
    case Some(OpenThinking) =>
      Emit(Emit(s, BlockDelta(s.nextIndex - 1, SignatureDelta)), BlockStop(s.nextIndex - 1)).(block := None)
    case Some(OpenText) =>
      Emit(s, BlockStop(s.nextIndex - 1)).(block := None)
  }

  function StartBlock(s: State, contentBlock: ContentBlock, owner: Option<int>): State {
    Emit(s, BlockStart(s.nextIndex, contentBlock)).(nextIndex := s.nextIndex + 1, owners := s.owners + [owner])
  }

  function PushDelta(s: State, delta: Delta): State {
    Emit(s, BlockDelta(s.nextIndex - 1, delta))
  }

  function ToolBlock(toolIndex: int, tool: BufferedTool): ContentBlock {
    ToolUseBlock(if tool.id == "" then "toolu_" + Decimals.FromInt(toolIndex) else tool.id, tool.name)
  }

  function FlushTool(s: State, toolIndex: int, tool: BufferedTool): State {
    var begun := StartBlock(s, ToolBlock(toolIndex, tool), Some(toolIndex));
    var filled := if tool.arguments == "" then begun else PushDelta(begun, InputJsonDelta(tool.arguments));
    Emit(filled, BlockStop(filled.nextIndex - 1))
  }

  function FlushFirst(s: State, tools: map<int, BufferedTool>, order: seq<int>, n: nat): State
    requires n <= |order|
  {
    if n == 0 then s
    else FlushTool(FlushFirst(s, tools, order, n - 1), order[n - 1], BufferedAt(tools, order[n - 1]))
  }

  function FlushTools(s: State): State {
    var order := SortedKeys(s.tools.Keys);
    FlushFirst(s, s.tools, order, |order|).(tools := map[])
  }

  function NetOf(total: int, cache: Option<int>): int {
    Max(0, total - cache.GetOr(0))
  }

  function EnsureStarted(s: State, id: Option<Json>, model: Option<Json>, prefix: string): State {
    if s.started then s
    else
      var inputTokens := if s.usage.progressTotal.Some?
          then NetOf(s.usage.progressTotal.value, s.usage.progressCache) else 0;
      Emit(s.(started := true),
           MessageStart(MessageId(id, prefix), AsString(model).GetOr("unknown"), inputTokens, s.usage.progressCache))
  }

  function Summary(reason: Option<string>, sawTool: bool, u: Usage): Event {
    var inputTokens :=
      if u.promptTokens.Some? then Some(NetOf(u.promptTokens.value, u.cachedTokens))
      else if u.progressTotal.Some? then Some(NetOf(u.progressTotal.value, u.progressCache))
      else None;
    MessageDelta(MapFinishReason(reason, sawTool), u.completionTokens.GetOr(0), inputTokens,
                 Coalesce(u.cachedTokens, u.progressCache))
  }

  function Finalize(s: State): State {
    if !s.started || s.finished then s.(finished := true)
    else
      var flushed := FlushTools(CloseBlock(s.(finished := true)));
      Emit(Emit(flushed, Summary(s.finishReason, s.sawTool, s.usage)), MessageStop)
  }

  function ReasoningStep(s: State, reasoning: string): State {
    if reasoning == "" then s
    else
      var ready :=
        if s.block == Some(OpenThinking) then s
        else StartBlock(CloseBlock(s), ThinkingBlock, None).(block := Some(OpenThinking));
      PushDelta(ready, ThinkingDelta(reasoning))
  }

  function ToolIndexOf(call: Json): int {
    NumberOrNull(Field(Some(call), "index")).GetOr(0)
  }

  function ToolId(call: Json): Option<string> { AsString(Field(Some(call), "id")) }

  function ToolFunction(call: Json): Option<Json> { AsObject(Field(Some(call), "function")) }

  function ToolName(call: Json): Option<string> { AsString(Field(ToolFunction(call), "name")) }

  function ToolArguments(call: Json): Option<string> { AsString(Field(ToolFunction(call), "arguments")) }

  function BufferedAt(tools: map<int, BufferedTool>, toolIndex: int): BufferedTool {
    if toolIndex in tools then tools[toolIndex] else BufferedTool("", "", "")
  }

  function ToolStep(s: State, call: Json): State {
    if !call.Obj? then s
    else
      var toolIndex := ToolIndexOf(call);
      var existing := BufferedAt(s.tools, toolIndex);
      var updated := BufferedTool(ToolId(call).GetOr(existing.id), ToolName(call).GetOr(existing.name),
                                  existing.arguments + ToolArguments(call).GetOr(""));
      CloseBlock(s).(tools := s.tools[toolIndex := updated], sawTool := true)
  }

  function ToolsStep(s: State, calls: seq<Json>): State {
    if calls == [] then s
    else ToolStep(ToolsStep(s, calls[..|calls| - 1]), calls[|calls| - 1])
  }

  function TextStep(s: State, text: string): State {
    if text == "" then s
    else
      var flushed := FlushTools(s);
      var ready :=
        if flushed.block == Some(OpenText) then flushed
        else StartBlock(CloseBlock(flushed), TextBlock, None).(block := Some(OpenText));
      PushDelta(ready, TextDelta(text))
  }

  function ReasonStep(s: State, reason: string): State {
    if reason == "" then s else CloseBlock(s.(finishReason := Some(reason)))
  }

  // The parts of a chunk that pushValue reads.

  function ChoiceOf(chunk: Json): Option<Json> { AsObject(First(AsArray(Field(Some(chunk), "choices")))) }

  function DeltaOf(chunk: Json): Option<Json> { AsObject(Field(ChoiceOf(chunk), "delta")) }

  function ReasoningOf(chunk: Json): string {
    Coalesce(AsString(Field(DeltaOf(chunk), "reasoning_content")),
        AsString(Field(DeltaOf(chunk), "reasoning"))).GetOr("")
  }

  function ToolCallsOf(chunk: Json): seq<Json> { AsArray(Field(DeltaOf(chunk), "tool_calls")).GetOr([]) }

  function TextOf(chunk: Json): string { AsString(Field(DeltaOf(chunk), "content")).GetOr("") }

  function ReasonOf(chunk: Json): string { AsString(Field(ChoiceOf(chunk), "finish_reason")).GetOr("") }

  function ProgressOf(chunk: Json): Option<Json> { AsObject(Field(Some(chunk), "prompt_progress")) }

  function UsageOf(chunk: Json): Option<Json> { AsObject(Field(Some(chunk), "usage")) }

  datatype Progress = Progress(total: int, processed: int, cache: int)

  datatype Extensions = Extensions(progress: Option<Progress>, timings: Option<Json>, usage: Option<Json>)

  const NO_EXTENSIONS := Extensions(None, None, None)

  function KnownProgress(progress: Option<Json>): Option<Progress> {
    var total, processed := NumberOrNull(Field(progress, "total")), NumberOrNull(Field(progress, "processed"));
    if total.Some? && processed.Some?
    then Some(Progress(total.value, processed.value, NumberOrNull(Field(progress, "cache")).GetOr(0)))
    else None
  }

  function Absorb(u: Usage, chunk: Json): Usage {
    var progress := KnownProgress(ProgressOf(chunk));
    var u1 := if progress.Some?
              then u.(progressTotal := Some(progress.value.total), progressCache := Some(progress.value.cache))
              else u;
    var usage := UsageOf(chunk);
    if usage.None? then u1
    else u1.(
      promptTokens := Coalesce(NumberOrNull(Field(usage, "prompt_tokens")), u1.promptTokens),
      completionTokens := Coalesce(NumberOrNull(Field(usage, "completion_tokens")), u1.completionTokens),
      cachedTokens := Coalesce(NumberOrNull(Field(AsObject(Field(usage, "prompt_tokens_details")), "cached_tokens")),
                               u1.cachedTokens))
  }

  function ExtensionsOf(chunk: Json): Extensions {
    Extensions(KnownProgress(ProgressOf(chunk)), AsObject(Field(Some(chunk), "timings")), UsageOf(chunk))
  }

  function ErrorMessage(error: Json): string {
    Coalesce(AsString(Field(AsObject(Some(error)), "message")), AsString(Some(error))).GetOr("Upstream stream error.")
  }

  predicate IsError(value: Json) { value.Obj? && "error" in value.fields }

  predicate IsAccepted(value: Json) { value.Obj? && !IsError(value) }

  function Begin(s: State, chunk: Json, prefix: string): State {
    EnsureStarted(s.(usage := Absorb(s.usage, chunk)), Field(Some(chunk), "id"), Field(Some(chunk), "model"), prefix)
  }

  function ReadChunk(s: State, chunk: Json, prefix: string): State {
    var reasoned := ReasoningStep(Begin(s, chunk, prefix), ReasoningOf(chunk));
    var buffered := ToolsStep(reasoned, ToolCallsOf(chunk));
    ReasonStep(TextStep(buffered, TextOf(chunk)), ReasonOf(chunk))
  }

  function PushValueStep(s: State, value: Json, prefix: string): State {
    if s.finished || !value.Obj? then s
    else if IsError(value) then Emit(s, Error(ErrorMessage(value.fields["error"])))
    else
      var done := ReadChunk(s, value, prefix);
      if s.started && |done.events| == |s.events| && ProgressOf(value).Some? then Emit(done, Ping) else done
  }

  predicate IsFinish(call: Call) { call.Finish? || (call.Push? && call.data == "[DONE]") }

  /** The value a call hands to pushValue, if it does. */
  function ValueOf(call: Call): Option<Json> {
    match call
    case Finish => None
    case PushValue(value) => Some(value)
    case Push(data, parsed) => if data == "[DONE]" then None else parsed
  }

  function Step(s: State, call: Call, prefix: string): State {
    if IsFinish(call) then (if call.Push? && s.finished then s else Finalize(s))
    else
      match ValueOf(call)
      case None => s
      case Some(value) => PushValueStep(s, value, prefix)
  }

  function Run(s: State, calls: seq<Call>, prefix: string): State
    decreases |calls|
  {
    if calls == [] then s else Run(Step(s, calls[0], prefix), calls[1..], prefix)
  }
}
