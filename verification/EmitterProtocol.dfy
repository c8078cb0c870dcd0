/**
 The event stream is well formed. The protocol is an acceptor that knows nothing
 of the emitter: one message_start first, blocks numbered 0, 1, 2, … that open,
 carry deltas of their own kind and stop before the next opens, a signature delta
 last in each thinking block, one message_delta and message_stop after every block
 has stopped, and nothing afterwards. Error events may come at any time before that.
 */
module EmitterProtocol {
  import opened Options
  import opened JsonValues
  import opened AnthropicEvents
  import opened EmitterModel
  import opened SortedSets

  datatype Phase =
    | Before
    | Between(next: int)
    | Open(index: int, contentBlock: ContentBlock)
    | Signed(index: int)
    | Closing
    | Closed
    | Broken

  predicate OfKind(delta: Delta, contentBlock: ContentBlock) {
    match delta
    case ThinkingDelta(_) => contentBlock.ThinkingBlock?
    case SignatureDelta => contentBlock.ThinkingBlock?
    case TextDelta(_) => contentBlock.TextBlock?
    case InputJsonDelta(_) => contentBlock.ToolUseBlock?
  }

  function Accept(phase: Phase, e: Event): Phase {
    match e
    case Error(_) => if phase.Closing? || phase.Closed? then Broken else phase
    case Ping => if phase.Between? || phase.Open? then phase else Broken
    case MessageStart(_, _, _, _) => if phase.Before? then Between(0) else Broken
    case BlockStart(index, contentBlock) =>
      if phase == Between(index) then Open(index, contentBlock) else Broken
    case BlockDelta(index, delta) =>
      if phase.Open? && phase.index == index && OfKind(delta, phase.contentBlock)
      then (if delta.SignatureDelta? then Signed(index) else phase)
      else Broken
    case BlockStop(index) =>
      if phase == Signed(index) || (phase.Open? && phase.index == index && !phase.contentBlock.ThinkingBlock?)
      then Between(index + 1)
      else Broken
    case MessageDelta(_, _, _, _) => if phase.Between? then Closing else Broken
    case MessageStop => if phase.Closing? then Closed else Broken
  }

  function Reached(events: seq<Event>): Phase {
    if events == [] then Before
    else Accept(Reached(events[..|events| - 1]), events[|events| - 1])
  }

  predicate WellFormed(events: seq<Event>) { !Reached(events).Broken? }

  lemma ReachedAppend(events: seq<Event>, e: Event)
    ensures Reached(events + [e]) == Accept(Reached(events), e)
  {
    assert (events + [e])[..|events|] == events;
  }

  /** No continuation repairs a broken stream. */
  lemma {:induction false} BrokenForGood(events: seq<Event>, more: seq<Event>)
    requires Reached(events) == Broken
    ensures Reached(events + more) == Broken
  {
    if more == [] {
      assert events + more == events;
    } else {
      var last := |more| - 1;
      BrokenForGood(events, more[..last]);
      ReachedAppend(events + more[..last], more[last]);
      assert events + more == events + more[..last] + [more[last]];
    }
  }

  // Where a well-formed stream stands when the emitter is in state s.
  function PhaseOf(s: State): Phase {
    if !s.started then Before
    else if s.finished then Closed
    else
      match s.block
      case None => Between(s.nextIndex)
      case Some(OpenThinking) => Open(s.nextIndex - 1, ThinkingBlock)
      case Some(OpenText) => Open(s.nextIndex - 1, TextBlock)
  }

  /** The invariant of every run that has stayed inside the guard. */
  predicate Sound(s: State) {
    && Reached(s.events) == PhaseOf(s)
    && (s.block == Some(OpenText) ==> s.tools == map[])
    && (!s.started ==> s.block.None? && s.tools == map[] && s.nextIndex == 0)
    && (s.finished ==> s.block.None? && s.tools == map[])
  }

  predicate Live(s: State) { s.started && !s.finished && Sound(s) }

  lemma CloseBlockSound(s: State)
    requires Live(s)
    ensures Live(CloseBlock(s)) && CloseBlock(s).block.None? && CloseBlock(s).tools == s.tools
    ensures CloseBlock(s.(finished := true)) == CloseBlock(s).(finished := true)
  {
    hide Reached;
    match s.block {
      case None =>
      case Some(OpenThinking) =>
        ReachedAppend(s.events, BlockDelta(s.nextIndex - 1, SignatureDelta));
        ReachedAppend(s.events + [BlockDelta(s.nextIndex - 1, SignatureDelta)], BlockStop(s.nextIndex - 1));
      case Some(OpenText) =>
        ReachedAppend(s.events, BlockStop(s.nextIndex - 1));
    }
  }

  lemma FlushToolSound(s: State, toolIndex: int, tool: BufferedTool)
    requires Reached(s.events) == Between(s.nextIndex)
    ensures var t := FlushTool(s, toolIndex, tool);
            && Reached(t.events) == Between(t.nextIndex)
            && t == s.(events := t.events, nextIndex := t.nextIndex, owners := t.owners)
  {
    hide Reached;
    var begun := StartBlock(s, ToolBlock(toolIndex, tool), Some(toolIndex));
    ReachedAppend(s.events, BlockStart(s.nextIndex, ToolBlock(toolIndex, tool)));
    var filled := if tool.arguments == "" then begun else PushDelta(begun, InputJsonDelta(tool.arguments));
    ReachedAppend(begun.events, BlockDelta(begun.nextIndex - 1, InputJsonDelta(tool.arguments)));
    ReachedAppend(filled.events, BlockStop(filled.nextIndex - 1));
  }

  lemma {:induction false} FlushFirstSound(s: State, tools: map<int, BufferedTool>, order: seq<int>, n: nat)
    requires n <= |order|
    requires Reached(s.events) == Between(s.nextIndex)
    ensures var t := FlushFirst(s, tools, order, n);
            && Reached(t.events) == Between(t.nextIndex)
            && t == s.(events := t.events, nextIndex := t.nextIndex, owners := t.owners)
  {
    hide Reached, FlushTool;
    if n > 0 {
      FlushFirstSound(s, tools, order, n - 1);
      FlushToolSound(FlushFirst(s, tools, order, n - 1), order[n - 1], BufferedAt(tools, order[n - 1]));
    }
  }

  lemma FlushToolsSound(s: State)
    requires Reached(s.events) == Between(s.nextIndex)
    ensures var t := FlushTools(s);
            && Reached(t.events) == Between(t.nextIndex)
            && t == s.(events := t.events, nextIndex := t.nextIndex, owners := t.owners, tools := map[])
  {
    var order := SortedKeys(s.tools.Keys);
    FlushFirstSound(s, s.tools, order, |order|);
  }

  /** Flushing nothing changes nothing. */
  lemma FlushNothing(s: State)
    requires s.tools == map[]
    ensures FlushTools(s) == s
  {
  }

  lemma BeginSound(s: State, chunk: Json, prefix: string)
    requires Sound(s) && !s.finished
    ensures var t := Begin(s, chunk, prefix);
            Live(t) && t.tools == s.tools && t.block == s.block
  {
    hide Reached, Absorb;
    if !s.started {
      ReachedAppend(s.events, Begin(s, chunk, prefix).events[|s.events|]);
    }
  }

  lemma StartBlockSound(s: State, kind: OpenBlock)
    requires Live(s) && s.block.None? && (kind.OpenText? ==> s.tools == map[])
    ensures var b := if kind.OpenThinking? then ThinkingBlock else TextBlock;
            Live(StartBlock(s, b, None).(block := Some(kind)))
  {
    hide Reached;
    ReachedAppend(s.events, BlockStart(s.nextIndex, if kind.OpenThinking? then ThinkingBlock else TextBlock));
  }

  lemma ReasoningSound(s: State, reasoning: string)
    requires Live(s)
    ensures Live(ReasoningStep(s, reasoning))
    ensures ReasoningStep(s, reasoning).tools == s.tools
    ensures ReasoningStep(s, reasoning).block == if reasoning == "" then s.block else Some(OpenThinking)
  {
    hide Reached, CloseBlock;
    if reasoning != "" {
      CloseBlockSound(s);
      if s.block != Some(OpenThinking) {
        StartBlockSound(CloseBlock(s), OpenThinking);
      }
      var ready := if s.block == Some(OpenThinking) then s
                   else StartBlock(CloseBlock(s), ThinkingBlock, None).(block := Some(OpenThinking));
      ReachedAppend(ready.events, BlockDelta(ready.nextIndex - 1, ThinkingDelta(reasoning)));
    }
  }

  predicate HasToolCall(calls: seq<Json>) { exists call <- calls :: call.Obj? }

  lemma {:induction false} ToolsSound(s: State, calls: seq<Json>)
    requires Live(s)
    ensures Live(ToolsStep(s, calls))
    ensures HasToolCall(calls) ==> ToolsStep(s, calls).block.None?
    ensures !HasToolCall(calls) ==> ToolsStep(s, calls) == s
    decreases |calls|
  {
    hide Reached, CloseBlock;
    if calls != [] {
      var prefix, call := calls[..|calls| - 1], calls[|calls| - 1];
      ToolsSound(s, prefix);
      CloseBlockSound(ToolsStep(s, prefix));
      assert forall c :: c in calls <==> c in prefix || c == call;
    }
  }

  lemma TextSound(s: State, text: string)
    requires Live(s)
    requires !(text != "" && s.block == Some(OpenThinking) && s.tools != map[])
    ensures Live(TextStep(s, text))
  {
    hide Reached, CloseBlock, FlushTools;
    if text != "" {
      if s.tools == map[] { FlushNothing(s); } else { FlushToolsSound(s); }
      var flushed := FlushTools(s);
      if flushed.block != Some(OpenText) {
        CloseBlockSound(flushed);
        StartBlockSound(CloseBlock(flushed), OpenText);
      }
      var ready := if flushed.block == Some(OpenText) then flushed
                   else StartBlock(CloseBlock(flushed), TextBlock, None).(block := Some(OpenText));
      ReachedAppend(ready.events, BlockDelta(ready.nextIndex - 1, TextDelta(text)));
    }
  }

  lemma FinalizeSound(s: State)
    requires Sound(s)
    ensures Sound(Finalize(s))
  {
    hide Reached, CloseBlock, FlushTools;
    if s.started && !s.finished {
      CloseBlockSound(s);
      var closed := CloseBlock(s.(finished := true));
      FlushToolsSound(closed);
      var flushed := FlushTools(closed);
      var summary := Summary(s.finishReason, s.sawTool, s.usage);
      ReachedAppend(flushed.events, summary);
      ReachedAppend(flushed.events + [summary], MessageStop);
    }
  }

  /**
   What breaks the nesting, as a caller can see it before the call: text arrives
   while tools are buffered, with a thinking block open (or opened by the same
   chunk) and no tool call in the chunk to close it.
   */
  predicate ChunkCollides(s: State, chunk: Json) {
    && TextOf(chunk) != ""
    && s.tools != map[]
    && (s.block == Some(OpenThinking) || ReasoningOf(chunk) != "")
    && !HasToolCall(ToolCallsOf(chunk))
  }

  predicate Collides(s: State, call: Call) {
    && !IsFinish(call)
    && !s.finished
    && ValueOf(call).Some?
    && IsAccepted(ValueOf(call).value)
    && ChunkCollides(s, ValueOf(call).value)
  }

  lemma StepSound(s: State, call: Call, prefix: string)
    requires Sound(s) && !Collides(s, call)
    ensures Sound(Step(s, call, prefix))
  {
    hide Reached, ReadChunk, Finalize, ChunkCollides;
    if IsFinish(call) {
      FinalizeSound(s);
    } else if ValueOf(call).Some? && !s.finished && ValueOf(call).value.Obj? {
      var value := ValueOf(call).value;
      if IsError(value) {
        ReachedAppend(s.events, Error(ErrorMessage(value.fields["error"])));
      } else {
        ReadChunkSound(s, value, prefix);
        var done := ReadChunk(s, value, prefix);
        ReachedAppend(done.events, Ping);
      }
    }
  }

  lemma ReasonSound(s: State, reason: string)
    requires Live(s)
    ensures Live(ReasonStep(s, reason))
  {
    hide Reached, CloseBlock;
    CloseBlockSound(s.(finishReason := Some(reason)));
  }

  lemma ReadChunkSound(s: State, chunk: Json, prefix: string)
    requires Sound(s) && !s.finished && !ChunkCollides(s, chunk)
    ensures Live(ReadChunk(s, chunk, prefix))
  {
    hide Reached, Begin, ReasoningStep, ToolsStep, TextStep, ReasonStep, PhaseOf;
    var begun := Begin(s, chunk, prefix);
    BeginSound(s, chunk, prefix);
    ReasoningSound(begun, ReasoningOf(chunk));
    var reasoned := ReasoningStep(begun, ReasoningOf(chunk));
    ToolsSound(reasoned, ToolCallsOf(chunk));
    var buffered := ToolsStep(reasoned, ToolCallsOf(chunk));
    TextSound(buffered, TextOf(chunk));
    ReasonSound(TextStep(buffered, TextOf(chunk)), ReasonOf(chunk));
  }

  // The other half: a collision does break the stream.

  predicate Extends(s: State, t: State) { s.events <= t.events }

  lemma {:induction false} FlushFirstExtends(s: State, tools: map<int, BufferedTool>, order: seq<int>, n: nat)
    requires n <= |order|
    ensures Extends(s, FlushFirst(s, tools, order, n))
    ensures n > 0 ==> |s.events| < |FlushFirst(s, tools, order, n).events|
                      && FlushFirst(s, tools, order, n).events[|s.events|].BlockStart?
  {
    hide FlushTool;
    if n > 0 {
      FlushFirstExtends(s, tools, order, n - 1);
      FlushToolExtends(FlushFirst(s, tools, order, n - 1), order[n - 1], BufferedAt(tools, order[n - 1]));
    }
  }

  lemma FlushToolExtends(s: State, toolIndex: int, tool: BufferedTool)
    ensures var u := FlushTool(s, toolIndex, tool);
            Extends(s, u) && |s.events| < |u.events| && u.events[|s.events|].BlockStart?
  {
  }

  lemma {:induction false} ToolsExtends(s: State, calls: seq<Json>)
    ensures Extends(s, ToolsStep(s, calls))
    decreases |calls|
  {
    if calls != [] {
      ToolsExtends(s, calls[..|calls| - 1]);
    }
  }

  lemma FlushToolsExtends(s: State)
    ensures Extends(s, FlushTools(s))
  {
    var order := SortedKeys(s.tools.Keys);
    FlushFirstExtends(s, s.tools, order, |order|);
  }

  lemma TextExtends(s: State, text: string)
    ensures Extends(FlushTools(s), TextStep(s, text)) || text == ""
    ensures Extends(s, TextStep(s, text))
  {
    hide FlushTools;
    FlushToolsExtends(s);
  }

  lemma ReasoningExtends(s: State, reasoning: string)
    ensures Extends(s, ReasoningStep(s, reasoning))
  {
  }

  lemma BeginExtends(s: State, chunk: Json, prefix: string)
    ensures Extends(s, Begin(s, chunk, prefix))
  {
    hide Absorb;
  }

  lemma ReadChunkExtends(s: State, chunk: Json, prefix: string)
    ensures Extends(s, ReadChunk(s, chunk, prefix))
    ensures Extends(TextStep(ToolsStep(ReasoningStep(Begin(s, chunk, prefix), ReasoningOf(chunk)), ToolCallsOf(chunk)),
        TextOf(chunk)),
                    ReadChunk(s, chunk, prefix))
  {
    hide ReasoningStep, ToolsStep, TextStep, Absorb, FlushTools, EnsureStarted, ReasoningOf, ToolCallsOf, TextOf,
        ReasonOf, Begin;
    var begun := Begin(s, chunk, prefix);
    BeginExtends(s, chunk, prefix);
    ReasoningExtends(begun, ReasoningOf(chunk));
    var reasoned := ReasoningStep(begun, ReasoningOf(chunk));
    ToolsExtends(reasoned, ToolCallsOf(chunk));
    TextExtends(ToolsStep(reasoned, ToolCallsOf(chunk)), TextOf(chunk));
  }

  lemma StepExtends(s: State, call: Call, prefix: string)
    ensures Extends(s, Step(s, call, prefix))
  {
    hide ReadChunk, FlushTools;
    if IsFinish(call) {
      FlushToolsExtends(CloseBlock(s.(finished := true)));
    } else if ValueOf(call).Some? && IsAccepted(ValueOf(call).value) && !s.finished {
      ReadChunkExtends(s, ValueOf(call).value, prefix);
    }
  }

  lemma {:induction false} RunExtends(s: State, calls: seq<Call>, prefix: string)
    ensures Extends(s, Run(s, calls, prefix))
    decreases |calls|
  {
    if calls != [] {
      StepExtends(s, calls[0], prefix);
      RunExtends(Step(s, calls[0], prefix), calls[1..], prefix);
    }
  }

  lemma ExtendsBroken(s: State, t: State)
    requires Reached(s.events) == Broken && Extends(s, t)
    ensures Reached(t.events) == Broken
  {
    BrokenForGood(s.events, t.events[|s.events|..]);
    assert t.events == s.events + t.events[|s.events|..];
  }

  lemma OrderIsEmpty(tools: map<int, BufferedTool>)
    ensures SortedKeys(tools.Keys) == [] ==> tools == map[]
  {
    if SortedKeys(tools.Keys) == [] {
      assert forall k :: k in tools ==> k in SortedKeys(tools.Keys);
    }
  }

  /** Flushing into an open block starts a block inside it. */
  lemma FlushInsideBreaks(s: State)
    requires Reached(s.events).Open? && s.tools != map[]
    ensures Reached(FlushTools(s).events) == Broken
  {
    hide FlushFirst;
    var order := SortedKeys(s.tools.Keys);
    OrderIsEmpty(s.tools);
    FlushFirstExtends(s, s.tools, order, |order|);
    var events := FlushTools(s).events;
    var first := events[|s.events|];
    ReachedAppend(s.events, first);
    BrokenForGood(s.events + [first], events[|s.events| + 1..]);
    assert events == s.events + [first] + events[|s.events| + 1..];
  }

  lemma CollisionBreaks(s: State, call: Call, prefix: string)
    requires Sound(s) && Collides(s, call)
    ensures Reached(Step(s, call, prefix).events) == Broken
  {
    hide Reached, Begin, ReasoningStep, ToolsStep, TextStep, ReadChunk, FlushTools, ReasoningOf, ToolCallsOf, TextOf;
    var chunk := ValueOf(call).value;
    var begun := Begin(s, chunk, prefix);
    BeginSound(s, chunk, prefix);
    ReasoningSound(begun, ReasoningOf(chunk));
    var reasoned := ReasoningStep(begun, ReasoningOf(chunk));
    ToolsSound(reasoned, ToolCallsOf(chunk));
    FlushInsideBreaks(reasoned);
    TextExtends(reasoned, TextOf(chunk));
    var texted := TextStep(reasoned, TextOf(chunk));
    ExtendsBroken(FlushTools(reasoned), texted);
    ReadChunkExtends(s, chunk, prefix);
    ExtendsBroken(texted, ReadChunk(s, chunk, prefix));
    ExtendsBroken(ReadChunk(s, chunk, prefix), Step(s, call, prefix));
  }

  /** No call of the run collides. */
  predicate Guarded(s: State, calls: seq<Call>, prefix: string)
    decreases |calls|
  {
    calls == [] || (!Collides(s, calls[0]) && Guarded(Step(s, calls[0], prefix), calls[1..], prefix))
  }

  lemma {:induction false} RunWellFormed(s: State, calls: seq<Call>, prefix: string)
    requires Sound(s)
    ensures WellFormed(Run(s, calls, prefix).events) <==> Guarded(s, calls, prefix)
    ensures Guarded(s, calls, prefix) ==> Sound(Run(s, calls, prefix))
    decreases |calls|
  {
    if calls != [] {
      var next := Step(s, calls[0], prefix);
      if Collides(s, calls[0]) {
        CollisionBreaks(s, calls[0], prefix);
        RunExtends(next, calls[1..], prefix);
        ExtendsBroken(next, Run(next, calls[1..], prefix));
      } else {
        StepSound(s, calls[0], prefix);
        RunWellFormed(next, calls[1..], prefix);
      }
    }
  }

  /**
   The main theorem: over every sequence of calls, the stream is well formed
   exactly when no call collides.
   */
  lemma StreamWellFormedExactly(calls: seq<Call>, prefix: string)
    ensures WellFormed(Run(INITIAL, calls, prefix).events) <==> Guarded(INITIAL, calls, prefix)
  {
    RunWellFormed(INITIAL, calls, prefix);
  }

  /** A guarded run that is finished after its first chunk ends in message_stop, whatever follows. */
  lemma FinishedStreamCloses(calls: seq<Call>, prefix: string)
    requires Guarded(INITIAL, calls, prefix)
    ensures var s := Run(INITIAL, calls, prefix);
            s.started && s.finished ==> Reached(s.events) == Closed
  {
    RunWellFormed(INITIAL, calls, prefix);
  }

  function DeltaChunk(delta: map<string, Json>): Json {
    Obj(map["choices" := Arr([Obj(map["delta" := Obj(delta)])])])
  }

  const TOOL_CHUNK := DeltaChunk(map["tool_calls" := Arr([Obj(map["index" := Number(0)])])])
  const REASONING_CHUNK := DeltaChunk(map["reasoning" := Str("r")])
  const TEXT_CHUNK := DeltaChunk(map["content" := Str("t")])

  lemma ChunkParts()
    ensures IsAccepted(TOOL_CHUNK) && IsAccepted(REASONING_CHUNK) && IsAccepted(TEXT_CHUNK)
    ensures ToolCallsOf(TOOL_CHUNK) == [Obj(map["index" := Number(0)])]
    ensures ReasoningOf(TOOL_CHUNK) == TextOf(TOOL_CHUNK) == ReasonOf(TOOL_CHUNK) == ""
    ensures ReasoningOf(REASONING_CHUNK) == "r" && ToolCallsOf(REASONING_CHUNK) == []
    ensures TextOf(REASONING_CHUNK) == ReasonOf(REASONING_CHUNK) == ""
    ensures TextOf(TEXT_CHUNK) == "t" && ToolCallsOf(TEXT_CHUNK) == []
    ensures ProgressOf(TOOL_CHUNK).None? && ProgressOf(REASONING_CHUNK).None?
  {
  }

  /** After the tool call, a tool is buffered. */
  lemma AfterToolChunk(prefix: string)
    ensures var s := Step(INITIAL, PushValue(TOOL_CHUNK), prefix);
            Sound(s) && !s.finished && s.started && s.tools != map[]
  {
    hide Reached, CloseBlock, Begin, ToolCallsOf, ReasoningOf, TextOf, ReasonOf, ProgressOf, IsAccepted;
    ChunkParts();
    SoundInitially();
    BeginSound(INITIAL, TOOL_CHUNK, prefix);
    var begun, call := Begin(INITIAL, TOOL_CHUNK, prefix), Obj(map["index" := Number(0)]);
    assert [call][..0] == [] && ToolsStep(begun, [call]) == ToolStep(begun, call);
    assert 0 in ReadChunk(INITIAL, TOOL_CHUNK, prefix).tools;
    ReadChunkSound(INITIAL, TOOL_CHUNK, prefix);
  }

  /** After reasoning, it still is, and a thinking block is open. */
  lemma AfterReasoningChunk(s: State, prefix: string)
    requires Sound(s) && !s.finished && s.started && s.tools != map[]
    ensures var t := Step(s, PushValue(REASONING_CHUNK), prefix);
            Sound(t) && !t.finished && t.tools != map[] && t.block == Some(OpenThinking)
  {
    hide Reached, Begin, ToolCallsOf, ReasoningOf, TextOf, ReasonOf, ReasoningStep, ProgressOf, IsAccepted;
    ChunkParts();
    BeginSound(s, REASONING_CHUNK, prefix);
    ReasoningSound(Begin(s, REASONING_CHUNK, prefix), "r");
    ReadChunkSound(s, REASONING_CHUNK, prefix);
  }

  /** The order that breaks it: a tool call, then reasoning, then text. */
  lemma ToolThenReasoningThenTextBreaks(prefix: string)
    ensures var calls := [PushValue(TOOL_CHUNK), PushValue(REASONING_CHUNK), PushValue(TEXT_CHUNK)];
            !WellFormed(Run(INITIAL, calls, prefix).events)
  {
    hide Reached, Step, ToolCallsOf, ReasoningOf, TextOf, IsAccepted, Sound, Run;
    var calls := [PushValue(TOOL_CHUNK), PushValue(REASONING_CHUNK), PushValue(TEXT_CHUNK)];
    ChunkParts();
    AfterToolChunk(prefix);
    var s1 := Step(INITIAL, calls[0], prefix);
    AfterReasoningChunk(s1, prefix);
    var s2 := Step(s1, calls[1], prefix);
    assert Collides(s2, calls[2]);
    assert calls[1..] == [calls[1], calls[2]] && calls[1..][1..] == [calls[2]];
    assert !Guarded(s2, [calls[2]], prefix);
    assert !Guarded(s1, calls[1..], prefix);
    StreamWellFormedExactly(calls, prefix);
  }

  lemma SoundInitially()
    ensures Sound(INITIAL)
  {
  }
}
