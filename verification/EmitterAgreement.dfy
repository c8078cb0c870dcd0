/**
 Streaming and not streaming agree. The deltas of a run are put together into one
 complete message, as a client of the upstream API would; the emitted events are
 folded back into a message, as a client of the downstream API would; and that
 message is the translation of the complete one, however the deltas are cut.
 */
module EmitterAgreement {
  import opened Options
  import opened JsonValues
  import opened AnthropicEvents
  import opened SortedSets
  import opened EmitterModel
  import opened EmitterContent
  import opened EmitterProtocol
  import opened ResponseTranslation

  // Folding the events back.

  function EmptyPart(contentBlock: ContentBlock): Part {
    match contentBlock
    case ThinkingBlock => Part.Thinking("")
    case TextBlock => Part.Text("")
    case ToolUseBlock(id, name) => Part.ToolUse(id, name, "")
  }

  function AddDelta(part: Part, delta: Delta): Part {
    match (part, delta)
    case (Thinking(thinking), ThinkingDelta(more)) => Part.Thinking(thinking + more)
    case (Text(text), TextDelta(more)) => Part.Text(text + more)
    case (ToolUse(id, name, arguments), InputJsonDelta(more)) => Part.ToolUse(id, name, arguments + more)
    case _ => part
  }

  function FoldEvent(m: Message, e: Event): Message {
    match e
    case MessageStart(id, model, _, _) => m.(id := id, model := model)
    case BlockStart(_, contentBlock) => m.(content := m.content + [EmptyPart(contentBlock)])
    case BlockDelta(index, delta) =>
      if 0 <= index < |m.content| then m.(content := m.content[index := AddDelta(m.content[index], delta)]) else m
    case MessageDelta(stopReason, _, _, _) => m.(stopReason := stopReason)
    case _ => m
  }

  function Fold(events: seq<Event>): Message {
    if events == [] then Message("", "", [], "")
    else FoldEvent(Fold(events[..|events| - 1]), events[|events| - 1])
  }

  // Putting the deltas together.

  function ReasoningIn(chunks: seq<Json>): string {
    if chunks == [] then "" else ReasoningIn(chunks[..|chunks| - 1]) + ReasoningOf(chunks[|chunks| - 1])
  }

  function TextIn(chunks: seq<Json>): string {
    if chunks == [] then "" else TextIn(chunks[..|chunks| - 1]) + TextOf(chunks[|chunks| - 1])
  }

  function CallsIn(chunks: seq<Json>): seq<Json> {
    if chunks == [] then [] else CallsIn(chunks[..|chunks| - 1]) + ToolCallsOf(chunks[|chunks| - 1])
  }

  /** The last finish reason given, "" if none was. */
  function ReasonIn(chunks: seq<Json>): string {
    if chunks == [] then ""
    else
      var last := ReasonOf(chunks[|chunks| - 1]);
      if last != "" then last else ReasonIn(chunks[..|chunks| - 1])
  }

  predicate IsFor(call: Json, t: int) { call.Obj? && ToolIndexOf(call) == t }

  /** The tool call with index t, put together: last id and name given, all argument fragments. */
  function WholeTool(calls: seq<Json>, t: int): BufferedTool {
    if calls == [] then BufferedTool("", "", "")
    else
      var call := calls[|calls| - 1];
      var earlier := WholeTool(calls[..|calls| - 1], t);
      if IsFor(call, t)
      then BufferedTool(ToolId(call).GetOr(earlier.id), ToolName(call).GetOr(earlier.name), CarriedByCalls(calls, t))
      else earlier
  }

  function IndicesIn(calls: seq<Json>): set<int> {
    set call | call in calls && call.Obj? :: ToolIndexOf(call)
  }

  function ToolOrder(calls: seq<Json>): seq<int> { SortedKeys(IndicesIn(calls)) }

  function ToolJson(tool: BufferedTool): Json {
    Obj(map["id" := Str(tool.id), "function" := Obj(map["name" := Str(tool.name), "arguments" := Str(tool.arguments)])])
  }

  function ToolJsons(calls: seq<Json>, n: nat): seq<Json>
    requires n <= |ToolOrder(calls)|
  {
    seq(n, i requires 0 <= i < n => ToolJson(WholeTool(calls, ToolOrder(calls)[i])))
  }

  function Optional(key: string, value: Option<Json>): map<string, Json> {
    if value.Some? then map[key := value.value] else map[]
  }

  /** The response the upstream would have sent without streaming. */
  function WholeBody(chunks: seq<Json>): Json
    requires chunks != []
  {
    var calls := CallsIn(chunks);
    var message := Obj(map[
      "reasoning_content" := Str(ReasoningIn(chunks)),
      "content" := Str(TextIn(chunks)),
      "tool_calls" := Arr(ToolJsons(calls, |ToolOrder(calls)|))]);
    Obj(map["choices" := Arr([Obj(map["message" := message, "finish_reason" := Str(ReasonIn(chunks))])])]
        + Optional("id", Field(Some(chunks[0]), "id"))
        + Optional("model", Field(Some(chunks[0]), "model")))
  }

  // Which runs of deltas come out as one message: the blocks open in the order of a
  // complete message, and none is opened twice.

  /** The block that the deltas so far leave open. */
  function BlockAfter(chunks: seq<Json>): Option<OpenBlock> {
    if chunks == [] then None
    else
      var chunk := chunks[|chunks| - 1];
      if ReasonOf(chunk) != "" then None
      else if TextOf(chunk) != "" then Some(OpenText)
      else if HasToolCall(ToolCallsOf(chunk)) then None
      else if ReasoningOf(chunk) != "" then Some(OpenThinking)
      else BlockAfter(chunks[..|chunks| - 1])
  }

  /**
   Reasoning comes before any text and goes on in the block it opened; text comes
   before any tool call, one in the same chunk included, and goes on in its block.
   */
  predicate Fits(past: seq<Json>, chunk: Json) {
    && (ReasoningOf(chunk) != "" ==>
          TextIn(past) == "" && (ReasoningIn(past) == "" || BlockAfter(past) == Some(OpenThinking)))
    && (TextOf(chunk) != "" ==>
          !HasToolCall(CallsIn(past) + ToolCallsOf(chunk))
              && (TextIn(past) == "" || BlockAfter(past) == Some(OpenText)))
  }

  predicate Agreeable(chunks: seq<Json>) {
    forall k | 0 <= k < |chunks| :: Fits(chunks[..k], chunks[k])
  }

  lemma AgreeableAppend(past: seq<Json>, chunk: Json)
    ensures Agreeable(past + [chunk]) <==> Agreeable(past) && Fits(past, chunk)
  {
    hide Fits;
    var all := past + [chunk];
    assert all[..|past|] == past && all[|past|] == chunk;
    assert forall k | 0 <= k < |past| :: all[..k] == past[..k] && all[k] == past[k];
    if Agreeable(all) {
      forall k | 0 <= k < |past| ensures Fits(past[..k], past[k]) {
        assert Fits(all[..k], all[k]);
      }
      assert Fits(all[..|past|], all[|past|]);
    }
  }

  lemma AgreeablePrefix(past: seq<Json>, more: seq<Json>)
    requires Agreeable(past + more)
    ensures Agreeable(past)
  {
    hide Fits;
    var all := past + more;
    forall k | 0 <= k < |past| ensures Fits(past[..k], past[k]) {
      assert all[..k] == past[..k] && Fits(all[..k], all[k]);
    }
  }

  /** What the open block says of an agreeable past. */
  lemma {:induction false} AgreeableBlock(chunks: seq<Json>)
    requires Agreeable(chunks)
    ensures BlockAfter(chunks) == Some(OpenThinking) ==> ReasoningIn(chunks) != "" && TextIn(chunks) == ""
    ensures BlockAfter(chunks) == Some(OpenText) ==> TextIn(chunks) != ""
    ensures ReasoningIn(chunks) == TextIn(chunks) == "" ==> BlockAfter(chunks) == None
    decreases |chunks|
  {
    hide ReasoningOf, TextOf, ToolCallsOf, ReasonOf, HasToolCall, CallsIn;
    if chunks != [] {
      var past, chunk := chunks[..|chunks| - 1], chunks[|chunks| - 1];
      assert chunks == past + [chunk];
      AgreeableAppend(past, chunk);
      AgreeableBlock(past);
    }
  }

  // What each handler does to the folded message.

  lemma FoldAppend(events: seq<Event>, e: Event)
    ensures Fold(events + [e]) == FoldEvent(Fold(events), e)
  {
    assert (events + [e])[..|events|] == events;
  }

  predicate Indexed(s: State) { s.nextIndex == |Fold(s.events).content| }

  lemma CloseBlockFold(s: State)
    ensures Fold(CloseBlock(s).events) == Fold(s.events)
    ensures CloseBlock(s) == s.(events := CloseBlock(s).events, block := None)
  {
    hide Fold;
    var index := s.nextIndex - 1;
    FoldAppend(s.events, BlockDelta(index, SignatureDelta));
    FoldAppend(s.events, BlockStop(index));
    FoldAppend(s.events + [BlockDelta(index, SignatureDelta)], BlockStop(index));
  }

  lemma StartBlockFold(s: State, contentBlock: ContentBlock, owner: Option<int>)
    requires Indexed(s)
    ensures var u := StartBlock(s, contentBlock, owner);
            Indexed(u) && Fold(u.events)
                == Fold(s.events).(content := Fold(s.events).content + [EmptyPart(contentBlock)])
  {
    hide Fold;
    FoldAppend(s.events, BlockStart(s.nextIndex, contentBlock));
  }

  lemma PushDeltaFold(s: State, delta: Delta, before: seq<Part>, last: Part)
    requires Indexed(s) && Fold(s.events).content == before + [last]
    ensures var u := PushDelta(s, delta);
            Indexed(u) && Fold(u.events) == Fold(s.events).(content := before + [AddDelta(last, delta)])
  {
    hide Fold;
    FoldAppend(s.events, BlockDelta(s.nextIndex - 1, delta));
    assert (before + [last])[|before| := AddDelta(last, delta)] == before + [AddDelta(last, delta)];
  }

  function ToolPart(t: int, tool: BufferedTool): Part {
    Part.ToolUse(ToolBlock(t, tool).id, tool.name, tool.arguments)
  }

  lemma FlushToolFold(s: State, t: int, tool: BufferedTool)
    requires Indexed(s)
    ensures var u := FlushTool(s, t, tool);
            && Indexed(u)
            && Fold(u.events) == Fold(s.events).(content := Fold(s.events).content + [ToolPart(t, tool)])
  {
    hide Fold;
    var begun := StartBlock(s, ToolBlock(t, tool), Some(t));
    StartBlockFold(s, ToolBlock(t, tool), Some(t));
    var filled := if tool.arguments == "" then begun else PushDelta(begun, InputJsonDelta(tool.arguments));
    if tool.arguments != "" {
      PushDeltaFold(begun, InputJsonDelta(tool.arguments), Fold(s.events).content, EmptyPart(ToolBlock(t, tool)));
      assert "" + tool.arguments == tool.arguments;
    }
    FoldAppend(filled.events, BlockStop(filled.nextIndex - 1));
  }

  function ToolParts(tools: map<int, BufferedTool>, order: seq<int>, n: nat): seq<Part>
    requires n <= |order|
  {
    seq(n, i requires 0 <= i < n => ToolPart(order[i], BufferedAt(tools, order[i])))
  }

  lemma {:induction false} FlushFirstFold(s: State, tools: map<int, BufferedTool>, order: seq<int>, n: nat)
    requires Indexed(s) && n <= |order|
    ensures var u := FlushFirst(s, tools, order, n);
            && Indexed(u)
            && Fold(u.events) == Fold(s.events).(content := Fold(s.events).content + ToolParts(tools, order, n))
  {
    hide Fold, FlushTool;
    if n > 0 {
      FlushFirstFold(s, tools, order, n - 1);
      FlushToolFold(FlushFirst(s, tools, order, n - 1), order[n - 1], BufferedAt(tools, order[n - 1]));
      assert ToolParts(tools, order, n)
          == ToolParts(tools, order, n - 1) + [ToolPart(order[n - 1], BufferedAt(tools, order[n - 1]))];
    } else {
      assert Fold(s.events).content + [] == Fold(s.events).content;
    }
  }

  // The tools put together are the tools buffered.

  lemma {:induction false} WholeToolArguments(calls: seq<Json>, t: int)
    ensures WholeTool(calls, t).arguments == CarriedByCalls(calls, t)
    ensures t !in IndicesIn(calls) ==> WholeTool(calls, t) == BufferedTool("", "", "")
    decreases |calls|
  {
    if calls != [] {
      WholeToolArguments(calls[..|calls| - 1], t);
    }
  }

  predicate Buffers(s: State, calls: seq<Json>) {
    && s.tools.Keys == IndicesIn(calls)
    && (forall t <- s.tools :: s.tools[t] == WholeTool(calls, t))
    && (s.sawTool <==> IndicesIn(calls) != {})
  }

  lemma WholeToolAppend(past: seq<Json>, call: Json, t: int)
    ensures WholeTool(past + [call], t)
            == if IsFor(call, t)
               then BufferedTool(ToolId(call).GetOr(WholeTool(past, t).id),
                   ToolName(call).GetOr(WholeTool(past, t).name),
                                 WholeTool(past, t).arguments + ToolArguments(call).GetOr(""))
               else WholeTool(past, t)
  {
    assert (past + [call])[..|past|] == past;
    WholeToolArguments(past, t);
  }

  lemma IndicesAppend(past: seq<Json>, call: Json)
    ensures IndicesIn(past + [call]) == IndicesIn(past) + (if call.Obj? then {ToolIndexOf(call)} else {})
  {
    assert call in past + [call];
  }

  lemma ToolStepBuffers(s: State, past: seq<Json>, call: Json)
    requires Buffers(s, past)
    ensures Buffers(ToolStep(s, call), past + [call])
  {
    hide CloseBlock, WholeTool, IndicesIn, ToolIndexOf, ToolId, ToolName, ToolArguments, Fold;
    CloseBlockFold(s);
    IndicesAppend(past, call);
    if call.Obj? {
      WholeToolArguments(past, ToolIndexOf(call));
    }
    var u := ToolStep(s, call);
    forall t | t in u.tools ensures u.tools[t] == WholeTool(past + [call], t) {
      WholeToolAppend(past, call, t);
    }
  }

  lemma {:induction false} ToolsStepBuffers(s: State, past: seq<Json>, calls: seq<Json>)
    requires Buffers(s, past)
    ensures var u := ToolsStep(s, calls);
            && Buffers(u, past + calls)
            && Fold(u.events) == Fold(s.events) && u.nextIndex == s.nextIndex && u.finishReason == s.finishReason
            && u.block == (if HasToolCall(calls) then None else s.block) && SamePace(s, u)
    decreases |calls|
  {
    hide Fold, CloseBlock, Buffers;
    if calls == [] {
      assert past + calls == past;
    } else {
      var prefix, call := calls[..|calls| - 1], calls[|calls| - 1];
      ToolsStepBuffers(s, past, prefix);
      CloseBlockFold(ToolsStep(s, prefix));
      ToolStepBuffers(ToolsStep(s, prefix), past + prefix, call);
      assert past + calls == past + prefix + [call];
      assert forall c :: c in calls <==> c in prefix || c == call;
    }
  }

  // Where the emitter stands: the message folded so far, the tools put together, the
  // open block and the last finish reason.

  predicate At(s: State, message: Message, calls: seq<Json>, block: Option<OpenBlock>, reason: string) {
    && s.started && !s.finished
    && Indexed(s)
    && Fold(s.events) == message
    && Buffers(s, calls)
    && s.block == block
    && s.finishReason.GetOr("") == reason
  }

  /** The message of the deltas so far, before any tool has gone out. */
  function Opening(chunks: seq<Json>, prefix: string): Message {
    if chunks == [] then Message("", "", [], "")
    else
      Message(
        MessageId(Field(Some(chunks[0]), "id"), prefix),
        AsString(Field(Some(chunks[0]), "model")).GetOr("unknown"),
        Leading(ReasoningIn(chunks), TextIn(chunks)),
        "")
  }

  /** The invariant: after the chunks so far, the emitter and the message put together agree. */
  predicate Tracks(s: State, chunks: seq<Json>, prefix: string) {
    && !s.finished
    && (s.started <==> chunks != [])
    && At(s.(started := true), Opening(chunks, prefix), CallsIn(chunks), BlockAfter(chunks), ReasonIn(chunks))
  }

  lemma BeginAt(s: State, chunks: seq<Json>, chunk: Json, prefix: string)
    requires Tracks(s, chunks, prefix)
    ensures At(Begin(s, chunk, prefix), Opening(chunks + [chunk], prefix).(content := Opening(chunks, prefix).content),
               CallsIn(chunks), BlockAfter(chunks), ReasonIn(chunks))
  {
    hide Fold, Absorb, MessageId, Buffers, Field, Leading, ReasoningIn, TextIn, CallsIn, BlockAfter, ReasonIn;
    var u := Begin(s, chunk, prefix);
    if !s.started {
      FoldAppend(s.events, u.events[|s.events|]);
    }
    BuffersFrame(s.(started := true), u, CallsIn(chunks));
  }

  lemma ReasoningAt(s: State, m: Message, calls: seq<Json>, block: Option<OpenBlock>, reason: string,
      before: string, reasoning: string)
    requires At(s, m, calls, block, reason)
    requires reasoning != "" ==> m.content == Leading(before, "")
    requires reasoning != "" ==> block == if before == "" then None else Some(OpenThinking)
    ensures At(ReasoningStep(s, reasoning),
               if reasoning == "" then m else m.(content := Leading(before + reasoning, "")),
               calls, if reasoning == "" then block else Some(OpenThinking), reason)
  {
    hide Fold, CloseBlock, Buffers;
    if reasoning != "" {
      CloseBlockFold(s);
      var ready := s;
      if before == "" {
        StartBlockFold(CloseBlock(s), ThinkingBlock, None);
        ready := StartBlock(CloseBlock(s), ThinkingBlock, None).(block := Some(OpenThinking));
      }
      PushDeltaFold(ready, ThinkingDelta(reasoning), [], Part.Thinking(before));
      BuffersFrame(s, ReasoningStep(s, reasoning), calls);
    }
  }

  lemma ToolsAt(s: State, m: Message, calls: seq<Json>, block: Option<OpenBlock>, reason: string, more: seq<Json>)
    requires At(s, m, calls, block, reason)
    ensures At(ToolsStep(s, more), m, calls + more, if HasToolCall(more) then None else block, reason)
  {
    hide Fold, ToolsStep, Buffers, HasToolCall;
    ToolsStepBuffers(s, calls, more);
  }

  lemma TextAt(s: State, m: Message, calls: seq<Json>, block: Option<OpenBlock>, reason: string,
      reasoning: string, before: string, text: string)
    requires At(s, m, calls, block, reason)
    requires text != "" ==> !HasToolCall(calls) && m.content == Leading(reasoning, before)
    requires text != "" ==> (block == Some(OpenText) <==> before != "")
    ensures At(TextStep(s, text), if text == "" then m else m.(content := Leading(reasoning, before + text)),
               calls, if text == "" then block else Some(OpenText), reason)
  {
    hide Fold, CloseBlock, FlushTools, Buffers;
    if text != "" {
      NoTools(s, calls);
      FlushNothing(s);
      CloseBlockFold(s);
      var ready := s;
      if before == "" {
        StartBlockFold(CloseBlock(s), TextBlock, None);
        ready := StartBlock(CloseBlock(s), TextBlock, None).(block := Some(OpenText));
      }
      PushDeltaFold(ready, TextDelta(text), Leading(reasoning, ""), Part.Text(before));
      BuffersFrame(s, TextStep(s, text), calls);
    }
  }

  lemma ReasonAt(s: State, m: Message, calls: seq<Json>, block: Option<OpenBlock>, earlier: string, reason: string)
    requires At(s, m, calls, block, earlier)
    ensures At(ReasonStep(s, reason), m, calls,
               if reason == "" then block else None, if reason == "" then earlier else reason)
  {
    hide Fold, CloseBlock, Buffers;
    if reason != "" {
      CloseBlockFold(s.(finishReason := Some(reason)));
      BuffersFrame(s, ReasonStep(s, reason), calls);
    }
  }

  /** What one more chunk adds to the message put together. */
  lemma OneMore(chunks: seq<Json>, chunk: Json)
    ensures var all := chunks + [chunk];
            && ReasoningIn(all) == ReasoningIn(chunks) + ReasoningOf(chunk)
            && TextIn(all) == TextIn(chunks) + TextOf(chunk)
            && CallsIn(all) == CallsIn(chunks) + ToolCallsOf(chunk)
            && ReasonIn(all) == (if ReasonOf(chunk) != "" then ReasonOf(chunk) else ReasonIn(chunks))
            && BlockAfter(all) == (if ReasonOf(chunk) != "" then None
                                   else if TextOf(chunk) != "" then Some(OpenText)
                                   else if HasToolCall(ToolCallsOf(chunk)) then None
                                   else if ReasoningOf(chunk) != "" then Some(OpenThinking)
                                   else BlockAfter(chunks))
            && all[0] == (if chunks == [] then chunk else chunks[0])
  {
    assert (chunks + [chunk])[..|chunks|] == chunks;
  }

  lemma OpeningGrows(chunks: seq<Json>, chunk: Json, prefix: string)
    ensures var all := chunks + [chunk];
            && Opening(all, prefix).content
               == Leading(ReasoningIn(chunks) + ReasoningOf(chunk), TextIn(chunks) + TextOf(chunk))
            && Opening(chunks, prefix).content == Leading(ReasoningIn(chunks), TextIn(chunks))
  {
    hide ReasoningOf, TextOf, MessageId;
    OneMore(chunks, chunk);
  }

  lemma ReadChunkTracks(s: State, chunks: seq<Json>, chunk: Json, prefix: string)
    requires Tracks(s, chunks, prefix) && Agreeable(chunks) && Fits(chunks, chunk)
    ensures Tracks(ReadChunk(s, chunk, prefix), chunks + [chunk], prefix)
  {
    hide Begin, ReasoningStep, ToolsStep, TextStep, ReasonStep, At, HasToolCall, Opening, Leading,
         ReasoningOf, ToolCallsOf, TextOf, ReasonOf, ReasoningIn, TextIn, CallsIn, ReasonIn, BlockAfter, Agreeable;
    var all := chunks + [chunk];
    var r0, t0, calls, reason := ReasoningIn(chunks), TextIn(chunks), CallsIn(chunks), ReasonIn(chunks);
    var r, t, more := ReasoningOf(chunk), TextOf(chunk), ToolCallsOf(chunk);
    OneMore(chunks, chunk);
    OpeningGrows(chunks, chunk, prefix);
    AgreeableBlock(chunks);
    assert t0 + "" == t0 && r0 + "" == r0;

    var m0 := Opening(all, prefix).(content := Leading(r0, t0));
    BeginAt(s, chunks, chunk, prefix);
    ReasoningAt(Begin(s, chunk, prefix), m0, calls, BlockAfter(chunks), reason, r0, r);
    var reasoned, m1, b1 := ReasoningStep(Begin(s, chunk, prefix), r), m0.(content := Leading(r0 + r, t0)),
        if r == "" then BlockAfter(chunks) else Some(OpenThinking);
    assert At(reasoned, m1, calls, b1, reason);
    ToolsAt(reasoned, m1, calls, b1, reason, more);
    var b2 := if HasToolCall(more) then None else b1;
    if t != "" { CallsJoin(calls, more); }
    TextAt(ToolsStep(reasoned, more), m1, calls + more, b2, reason, r0 + r, t0, t);
    var b3 := if t == "" then b2 else Some(OpenText);
    ReasonAt(TextStep(ToolsStep(reasoned, more), t), Opening(all, prefix), calls + more, b3, reason, ReasonOf(chunk));
    Arrives(ReadChunk(s, chunk, prefix), all, prefix);
  }

  lemma Arrives(s: State, chunks: seq<Json>, prefix: string)
    requires chunks != [] && At(s, Opening(chunks, prefix), CallsIn(chunks), BlockAfter(chunks), ReasonIn(chunks))
    ensures Tracks(s, chunks, prefix)
  {
    hide Fold, Buffers, Opening, CallsIn, BlockAfter, ReasonIn;
    assert s.(started := true) == s;
  }

  lemma CallsJoin(calls: seq<Json>, more: seq<Json>)
    ensures HasToolCall(calls + more) <==> HasToolCall(calls) || HasToolCall(more)
  {
    if HasToolCall(calls) { var call :| call in calls && call.Obj?; assert call in calls + more; }
    if HasToolCall(more) { var call :| call in more && call.Obj?; assert call in calls + more; }
  }

  lemma BuffersFrame(s: State, u: State, calls: seq<Json>)
    requires Buffers(s, calls) && u.tools == s.tools && u.sawTool == s.sawTool
    ensures Buffers(u, calls)
  {
  }

  lemma NoTools(s: State, calls: seq<Json>)
    requires Buffers(s, calls)
    ensures HasToolCall(calls) <==> s.tools != map[]
  {
    if HasToolCall(calls) {
      var call :| call in calls && call.Obj?;
      assert ToolIndexOf(call) in IndicesIn(calls);
    }
  }

  // Closing the stream.

  function WholeToolParts(calls: seq<Json>): seq<Part> {
    var order := ToolOrder(calls);
    seq(|order|, i requires 0 <= i < |order| => ToolPart(order[i], WholeTool(calls, order[i])))
  }

  /** The message the stream folds to. */
  function Streamed(chunks: seq<Json>, prefix: string): Message
    requires chunks != []
  {
    var calls := CallsIn(chunks);
    Message(
      MessageId(Field(Some(chunks[0]), "id"), prefix),
      AsString(Field(Some(chunks[0]), "model")).GetOr("unknown"),
      Leading(ReasoningIn(chunks), TextIn(chunks)) + WholeToolParts(calls),
      MapFinishReason(Some(ReasonIn(chunks)), IndicesIn(calls) != {}))
  }

  lemma FlushToolsFold(s: State, calls: seq<Json>)
    requires Indexed(s) && Buffers(s, calls)
    ensures Fold(FlushTools(s).events) == Fold(s.events).(content := Fold(s.events).content + WholeToolParts(calls))
  {
    hide Fold, FlushFirst;
    var order := SortedKeys(s.tools.Keys);
    FlushFirstFold(s, s.tools, order, |order|);
    assert forall k <- order :: k in s.tools;
    assert ToolParts(s.tools, order, |order|) == WholeToolParts(calls);
  }

  lemma FinalizeFold(s: State, chunks: seq<Json>, prefix: string)
    requires Tracks(s, chunks, prefix) && chunks != []
    ensures Fold(Finalize(s).events) == Streamed(chunks, prefix) && Finalize(s).finished
  {
    hide Fold, CloseBlock, FlushTools, WholeToolParts, IndicesIn, MessageId, ReasonIn;
    var closing := s.(finished := true);
    CloseBlockFold(closing);
    var closed := CloseBlock(closing);
    BuffersFrame(s, closed, CallsIn(chunks));
    FlushToolsFold(closed, CallsIn(chunks));
    var flushed := FlushTools(closed);
    assert flushed.finished by { FlushToolsFrame(closed); }
    var summary := Summary(s.finishReason, s.sawTool, s.usage);
    FoldAppend(flushed.events, summary);
    FoldAppend(flushed.events + [summary], MessageStop);
  }

  lemma FlushToolsFrame(s: State)
    ensures FlushTools(s).finished == s.finished && FlushTools(s).block == s.block
  {
    var order := SortedKeys(s.tools.Keys);
    FlushFirstFrame(s, s.tools, order, |order|);
  }

  lemma {:induction false} FlushFirstFrame(s: State, tools: map<int, BufferedTool>, order: seq<int>, n: nat)
    requires n <= |order|
    ensures FlushFirst(s, tools, order, n).finished == s.finished && FlushFirst(s, tools, order, n).block == s.block
  {
    hide FlushTool;
    if n > 0 {
      FlushFirstFrame(s, tools, order, n - 1);
      FlushToolFrame(FlushFirst(s, tools, order, n - 1), order[n - 1], BufferedAt(tools, order[n - 1]));
    }
  }

  lemma FlushToolFrame(s: State, t: int, tool: BufferedTool)
    ensures FlushTool(s, t, tool).finished == s.finished && FlushTool(s, t, tool).block == s.block
  {
  }

  /** Nothing moves a finished emitter. */
  lemma {:induction false} FinishedStays(s: State, calls: seq<Call>, prefix: string)
    requires s.finished
    ensures Run(s, calls, prefix) == s
    decreases |calls|
  {
    if calls != [] {
      assert Step(s, calls[0], prefix) == s;
      FinishedStays(s, calls[1..], prefix);
    }
  }

  lemma TracksFrame(s: State, u: State, chunks: seq<Json>, prefix: string)
    requires Tracks(s, chunks, prefix) && u == s.(events := u.events) && Fold(u.events) == Fold(s.events)
    ensures Tracks(u, chunks, prefix)
  {
    hide Fold, Opening, BlockAfter, CallsIn, ReasonIn;
    BuffersFrame(s.(started := true), u.(started := true), CallsIn(chunks));
  }

  lemma StepTracks(s: State, chunks: seq<Json>, call: Call, prefix: string)
    requires Tracks(s, chunks, prefix) && Agreeable(chunks) && !IsFinish(call)
    requires forall chunk <- Heard(call) :: Fits(chunks, chunk)
    ensures Tracks(Step(s, call, prefix), chunks + Heard(call), prefix)
  {
    hide Fold, Tracks, ReadChunk, Fits, Agreeable;
    assert Tracks(s, chunks, prefix) ==> !s.finished by { TracksUnfinished(s, chunks, prefix); }
    assert chunks + [] == chunks;
    if ValueOf(call).Some? && ValueOf(call).value.Obj? {
      var value := ValueOf(call).value;
      if IsError(value) {
        var e := Error(ErrorMessage(value.fields["error"]));
        FoldAppend(s.events, e);
        TracksFrame(s, Emit(s, e), chunks, prefix);
      } else {
        assert Heard(call) == [value];
        ReadChunkTracks(s, chunks, value, prefix);
        var done := ReadChunk(s, value, prefix);
        FoldAppend(done.events, Ping);
        TracksFrame(done, Emit(done, Ping), chunks + [value], prefix);
      }
    }
  }

  lemma TracksUnfinished(s: State, chunks: seq<Json>, prefix: string)
    requires Tracks(s, chunks, prefix)
    ensures !s.finished && (chunks == [] ==> !s.started)
  {
  }

  // What does not fit leaves a mark: a block that is out of order, or opened twice.

  function Rank(p: Part): nat {
    match p
    case Thinking(_) => 0
    case Text(_) => 1
    case ToolUse(_, _, _) => 2
  }

  predicate OutOfPlace(parts: seq<Part>, i: nat, j: nat) {
    i < j < |parts| && Rank(parts[j]) < 2 && Rank(parts[j]) <= Rank(parts[i])
  }

  ghost predicate Misordered(parts: seq<Part>) { exists i, j :: OutOfPlace(parts, i, j) }

  lemma {:induction false} FoldGrows(events: seq<Event>, more: seq<Event>)
    ensures var parts, all := Fold(events).content, Fold(events + more).content;
            |parts| <= |all| && forall i | 0 <= i < |parts| :: Rank(all[i]) == Rank(parts[i])
    decreases |more|
  {
    hide Fold;
    if more == [] {
      assert events + more == events;
    } else {
      var init, last := more[..|more| - 1], more[|more| - 1];
      FoldGrows(events, init);
      assert events + more == events + init + [last];
      FoldAppend(events + init, last);
    }
  }

  lemma MisorderedStays(s: State, u: State)
    requires Misordered(Fold(s.events).content) && Extends(s, u)
    ensures Misordered(Fold(u.events).content)
  {
    hide Fold;
    FoldGrows(s.events, u.events[|s.events|..]);
    assert u.events == s.events + u.events[|s.events|..];
    var i, j :| OutOfPlace(Fold(s.events).content, i, j);
    assert OutOfPlace(Fold(u.events).content, i, j);
  }

  /** Reasoning with no thinking block open starts one. */
  lemma ReasoningOpens(s: State, reasoning: string)
    requires Indexed(s) && reasoning != "" && s.block != Some(OpenThinking)
    ensures Fold(ReasoningStep(s, reasoning).events).content == Fold(s.events).content + [Part.Thinking(reasoning)]
  {
    hide Fold, CloseBlock;
    CloseBlockFold(s);
    StartBlockFold(CloseBlock(s), ThinkingBlock, None);
    var ready := StartBlock(CloseBlock(s), ThinkingBlock, None).(block := Some(OpenThinking));
    PushDeltaFold(ready, ThinkingDelta(reasoning), Fold(s.events).content, Part.Thinking(""));
    assert "" + reasoning == reasoning;
  }

  /** Text with no text block open starts one, behind the tools that were waiting. */
  lemma TextOpens(s: State, calls: seq<Json>, text: string)
    requires Indexed(s) && Buffers(s, calls) && text != "" && s.block != Some(OpenText)
    ensures Fold(TextStep(s, text).events).content
            == Fold(s.events).content + WholeToolParts(calls) + [Part.Text(text)]
  {
    hide Fold, CloseBlock, FlushTools, WholeToolParts, Buffers;
    FlushToolsFold(s, calls);
    var flushed := FlushTools(s);
    FlushToolsIndexed(s);
    CloseBlockFold(flushed);
    StartBlockFold(CloseBlock(flushed), TextBlock, None);
    var ready := StartBlock(CloseBlock(flushed), TextBlock, None).(block := Some(OpenText));
    PushDeltaFold(ready, TextDelta(text), Fold(flushed.events).content, Part.Text(""));
    assert "" + text == text;
  }

  lemma FlushToolsIndexed(s: State)
    requires Indexed(s)
    ensures Indexed(FlushTools(s)) && FlushTools(s).block == s.block
  {
    hide Fold, FlushFirst;
    var order := SortedKeys(s.tools.Keys);
    FlushFirstFold(s, s.tools, order, |order|);
    FlushToolsFrame(s);
  }

  lemma LeadingIsText(reasoning: string, text: string)
    requires text != ""
    ensures var parts := Leading(reasoning, text); |parts| > 0 && Rank(parts[|parts| - 1]) == 1
  {
  }

  lemma ToolsNotEmpty(calls: seq<Json>)
    requires HasToolCall(calls)
    ensures var parts := WholeToolParts(calls); |parts| > 0 && Rank(parts[|parts| - 1]) == 2
  {
    hide WholeTool;
    NoIndices(calls);
    var call :| call in calls && call.Obj?;
    assert ToolIndexOf(call) in IndicesIn(calls);
  }

  lemma LastTwoMisordered(parts: seq<Part>, last: Part)
    requires |parts| > 0 && Rank(last) < 2 && Rank(last) <= Rank(parts[|parts| - 1])
    ensures Misordered(parts + [last])
  {
    assert OutOfPlace(parts + [last], |parts| - 1, |parts|);
  }

  lemma FirstAndLastMisordered(parts: seq<Part>)
    requires |parts| > 0
    ensures Misordered(parts + [Part.Thinking("")]) && forall r :: Misordered(parts + [Part.Thinking(r)])
  {
    forall r ensures Misordered(parts + [Part.Thinking(r)]) {
      assert OutOfPlace(parts + [Part.Thinking(r)], 0, |parts|);
    }
  }

  lemma UnfitReasoning(s: State, m: Message, calls: seq<Json>, block: Option<OpenBlock>, reason: string,
      reasoning: string)
    requires At(s, m, calls, block, reason) && reasoning != "" && m.content != [] && block != Some(OpenThinking)
    ensures Misordered(Fold(ReasoningStep(s, reasoning).events).content)
  {
    hide Fold, ReasoningStep, Misordered, Buffers;
    ReasoningOpens(s, reasoning);
    FirstAndLastMisordered(m.content);
  }

  lemma UnfitText(s: State, m: Message, calls: seq<Json>, block: Option<OpenBlock>, reason: string,
      reasoning: string, before: string, text: string)
    requires At(s, m, calls, block, reason) && text != "" && block != Some(OpenText)
    requires HasToolCall(calls) || (before != "" && m.content == Leading(reasoning, before))
    ensures Misordered(Fold(TextStep(s, text).events).content)
  {
    hide Fold, TextStep, Misordered, Buffers, WholeToolParts, Leading, HasToolCall;
    TextOpens(s, calls, text);
    if HasToolCall(calls) {
      ToolsNotEmpty(calls);
    } else {
      LeadingIsText(reasoning, before);
      NoToolParts(calls);
    }
    LastTwoMisordered(m.content + WholeToolParts(calls), Part.Text(text));
  }

  lemma NoToolParts(calls: seq<Json>)
    requires !HasToolCall(calls)
    ensures WholeToolParts(calls) == []
  {
    hide WholeTool;
    assert IndicesIn(calls) == {};
  }

  /** A chunk that does not fit misorders the message for good. */
  lemma UnfitMisorders(s: State, chunks: seq<Json>, chunk: Json, prefix: string)
    requires Tracks(s, chunks, prefix) && Agreeable(chunks) && !Fits(chunks, chunk)
    ensures Misordered(Fold(ReadChunk(s, chunk, prefix).events).content)
  {
    hide Begin, ReasoningStep, ToolsStep, TextStep, ReasonStep, At, HasToolCall, Opening, Leading, ReadChunk,
         Misordered, ReasoningOf, ToolCallsOf, TextOf, ReasonOf, ReasoningIn, TextIn, CallsIn, ReasonIn, BlockAfter,
         Agreeable, Fold;
    var r0, t0, calls, reason := ReasoningIn(chunks), TextIn(chunks), CallsIn(chunks), ReasonIn(chunks);
    var r, t, more := ReasoningOf(chunk), TextOf(chunk), ToolCallsOf(chunk);
    OpeningGrows(chunks, chunk, prefix);
    AgreeableBlock(chunks);
    var m0 := Opening(chunks + [chunk], prefix).(content := Leading(r0, t0));
    var begun := Begin(s, chunk, prefix);
    BeginAt(s, chunks, chunk, prefix);
    var reasoned := ReasoningStep(begun, r);
    var texted := TextStep(ToolsStep(reasoned, more), t);
    ChunkExtends(s, chunk, prefix);
    if r != "" && !(t0 == "" && (r0 == "" || BlockAfter(chunks) == Some(OpenThinking))) {
      LeadingNotEmpty(r0, t0);
      UnfitReasoning(begun, m0, calls, BlockAfter(chunks), reason, r);
      MisorderedStays(reasoned, ReadChunk(s, chunk, prefix));
    } else {
      ReasoningAt(begun, m0, calls, BlockAfter(chunks), reason, r0, r);
      var m1, b1 := m0.(content := Leading(r0 + r, t0)), if r == "" then BlockAfter(chunks) else Some(OpenThinking);
      assert r0 + "" == r0;
      ToolsAt(reasoned, m1, calls, b1, reason, more);
      CallsJoin(calls, more);
      TextNotOpen(calls, more, chunks);
      var b2 := if HasToolCall(more) then None else b1;
      UnfitText(ToolsStep(reasoned, more), m1, calls + more, b2, reason, r0 + r, t0, t);
      MisorderedStays(texted, ReadChunk(s, chunk, prefix));
    }
  }

  lemma LeadingNotEmpty(reasoning: string, text: string)
    ensures reasoning != "" || text != "" ==> Leading(reasoning, text) != []
  {
  }

  lemma ChunkExtends(s: State, chunk: Json, prefix: string)
    ensures var reasoned := ReasoningStep(Begin(s, chunk, prefix), ReasoningOf(chunk));
            && Extends(reasoned, ReadChunk(s, chunk, prefix))
            && Extends(TextStep(ToolsStep(reasoned, ToolCallsOf(chunk)), TextOf(chunk)), ReadChunk(s, chunk, prefix))
  {
    hide ReasoningStep, ToolsStep, TextStep, FlushTools, ReasoningOf, ToolCallsOf, TextOf, ReasonOf, Begin, ReadChunk;
    var reasoned := ReasoningStep(Begin(s, chunk, prefix), ReasoningOf(chunk));
    ToolsExtends(reasoned, ToolCallsOf(chunk));
    TextExtends(ToolsStep(reasoned, ToolCallsOf(chunk)), TextOf(chunk));
    ReadChunkExtends(s, chunk, prefix);
  }

  /** Text before a tool call closes its block for good, so a text block is open only while there is no tool call. */
  lemma {:induction false} OpenTextHasNoCalls(chunks: seq<Json>)
    requires Agreeable(chunks) && BlockAfter(chunks) == Some(OpenText)
    ensures !HasToolCall(CallsIn(chunks))
    decreases |chunks|
  {
    hide ReasoningOf, TextOf, ToolCallsOf, ReasonOf, HasToolCall, ReasoningIn, TextIn;
    var past, chunk := chunks[..|chunks| - 1], chunks[|chunks| - 1];
    assert chunks == past + [chunk];
    AgreeableAppend(past, chunk);
    if TextOf(chunk) == "" {
      OpenTextHasNoCalls(past);
      CallsJoin(CallsIn(past), ToolCallsOf(chunk));
    }
  }

  lemma TextNotOpen(calls: seq<Json>, more: seq<Json>, chunks: seq<Json>)
    requires Agreeable(chunks) && calls == CallsIn(chunks)
    ensures HasToolCall(calls + more) ==> HasToolCall(more) || BlockAfter(chunks) != Some(OpenText)
  {
    hide HasToolCall, CallsIn, BlockAfter, Agreeable;
    CallsJoin(calls, more);
    if BlockAfter(chunks) == Some(OpenText) { OpenTextHasNoCalls(chunks); }
  }

  lemma StepAfterChunk(s: State, call: Call, prefix: string)
    requires !s.finished && Heard(call) != []
    ensures Extends(ReadChunk(s, Heard(call)[0], prefix), Step(s, call, prefix))
  {
    hide ReadChunk;
  }

  /** The message of a finished run: the deltas put together, or a message no translation gives. */
  lemma {:induction false} RunFolds(s: State, past: seq<Json>, calls: seq<Call>, prefix: string)
    requires Tracks(s, past, prefix) && Agreeable(past)
    requires past + Received(calls) != [] && exists call <- calls :: IsFinish(call)
    ensures var all, message := past + Received(calls), Fold(Run(s, calls, prefix).events);
            if Agreeable(all) then message == Streamed(all, prefix) else Misordered(message.content)
    decreases |calls|
  {
    hide Fold, Tracks, Step, Streamed, Fits, Agreeable, Misordered;
    TracksUnfinished(s, past, prefix);
    var next := Step(s, calls[0], prefix);
    var heard := Heard(calls[0]);
    if IsFinish(calls[0]) {
      assert past + [] == past;
      StepFinishes(s, calls[0], prefix);
      FinalizeFold(s, past, prefix);
      FinishedStays(next, calls[1..], prefix);
    } else {
      var all := past + Received(calls);
      assert all == past + heard + Received(calls[1..]);
      if heard != [] {
        AgreeableAppend(past, heard[0]);
        assert heard == [heard[0]];
      } else {
        assert past + heard == past;
      }
      if heard != [] && !Fits(past, heard[0]) {
        if Agreeable(all) { AgreeablePrefix(past + heard, Received(calls[1..])); }
        UnfitMisorders(s, past, heard[0], prefix);
        StepAfterChunk(s, calls[0], prefix);
        MisorderedStays(ReadChunk(s, heard[0], prefix), next);
        RunExtends(next, calls[1..], prefix);
        MisorderedStays(next, Run(next, calls[1..], prefix));
      } else {
        StepTracks(s, past, calls[0], prefix);
        RunFolds(next, past + heard, calls[1..], prefix);
      }
    }
  }

  lemma StepFinishes(s: State, call: Call, prefix: string)
    requires IsFinish(call) && !s.finished
    ensures Step(s, call, prefix) == Finalize(s) && Finalize(s).finished
  {
    FlushToolsFrame(CloseBlock(s.(finished := true)));
  }

  lemma TracksInitially(prefix: string)
    ensures Tracks(INITIAL, [], prefix)
  {
  }

  // The folded stream against the translation of the complete message.

  /** Every tool call has a name and an id, and there is something to say. */
  predicate Complete(chunks: seq<Json>) {
    var calls := CallsIn(chunks);
    && (forall t <- IndicesIn(calls) :: WholeTool(calls, t).id != "" && WholeTool(calls, t).name != "")
    && (ReasoningIn(chunks) != "" || TextIn(chunks) != "" || IndicesIn(calls) != {})
  }

  lemma {:induction false} AddCallsParts(leading: seq<Part>, calls: seq<Json>, n: nat)
    requires n <= |ToolOrder(calls)|
    ensures var order := ToolOrder(calls);
            var parts := AddCalls(leading, ToolJsons(calls, n));
            && |parts| <= |leading| + n
            && (|parts| == |leading| + n <==> forall i | 0 <= i < n :: WholeTool(calls, order[i]).name != "")
            && (|parts| == |leading| + n ==>
                  parts == leading + seq(n, i requires 0 <= i < n =>
                             var tool := WholeTool(calls, order[i]); Part.ToolUse(tool.id, tool.name, tool.arguments)))
  {
    hide WholeTool, ToolOrder, ToolJson, ToolId, ToolName, ToolArguments;
    var jsons := ToolJsons(calls, n);
    if n > 0 {
      AddCallsParts(leading, calls, n - 1);
      assert jsons[..|jsons| - 1] == ToolJsons(calls, n - 1);
      var tool := WholeTool(calls, ToolOrder(calls)[n - 1]);
      ToolJsonReads(tool);
    } else {
      assert jsons == [];
    }
  }

  lemma ToolJsonReads(tool: BufferedTool)
    ensures ToolJson(tool).Obj? && ToolId(ToolJson(tool)) == Some(tool.id)
    ensures ToolName(ToolJson(tool)) == Some(tool.name) && ToolArguments(ToolJson(tool)) == Some(tool.arguments)
  {
  }

  lemma BodyReads(chunks: seq<Json>)
    requires chunks != []
    ensures var body := WholeBody(chunks);
            var choice := ChoiceOf(body);
            var message := MessageOf(choice);
            && AsString(Field(message, "reasoning_content")) == Some(ReasoningIn(chunks))
            && AsString(Field(message, "content")) == Some(TextIn(chunks))
            && AsArray(Field(message, "tool_calls"))
               == Some(ToolJsons(CallsIn(chunks), |ToolOrder(CallsIn(chunks))|))
            && AsString(Field(choice, "finish_reason")) == Some(ReasonIn(chunks))
            && Field(Some(body), "id") == Field(Some(chunks[0]), "id")
            && Field(Some(body), "model") == Field(Some(chunks[0]), "model")
  {
    hide ReasoningIn, TextIn, CallsIn, ReasonIn, ToolJsons, ToolOrder;
  }

  function TranslatedParts(chunks: seq<Json>): seq<Part> {
    var calls := CallsIn(chunks);
    AddCalls(Leading(ReasoningIn(chunks), TextIn(chunks)), ToolJsons(calls, |ToolOrder(calls)|))
  }

  lemma TranslatedReads(chunks: seq<Json>, prefix: string)
    requires chunks != []
    ensures var translated, parts := Translated(WholeBody(chunks), prefix), TranslatedParts(chunks);
            && translated.content == (if parts == [] then [Part.Text("")] else parts)
            && translated.id == MessageId(Field(Some(chunks[0]), "id"), prefix)
            && translated.model == AsString(Field(Some(chunks[0]), "model")).GetOr("unknown")
            && translated.stopReason
               == MapFinishReason(Some(ReasonIn(chunks)), exists p <- translated.content :: p.ToolUse?)
  {
    hide ReasoningIn, TextIn, CallsIn, ReasonIn, ToolJsons, ToolOrder, WholeBody, MessageId, AddCalls, MapFinishReason,
         Leading, ChoiceOf, MessageOf;
    BodyReads(chunks);
  }

  /** A complete message: the parts translated are the parts streamed. */
  lemma CompleteParts(chunks: seq<Json>)
    requires Complete(chunks)
    ensures TranslatedParts(chunks) == Leading(ReasoningIn(chunks), TextIn(chunks)) + WholeToolParts(CallsIn(chunks))
    ensures TranslatedParts(chunks) != []
  {
    hide ReasoningIn, TextIn, CallsIn, ToolJsons, WholeTool, AddCalls, IndicesIn;
    var calls := CallsIn(chunks);
    AddCallsParts(Leading(ReasoningIn(chunks), TextIn(chunks)), calls, |ToolOrder(calls)|);
    OrderIsIndices(calls);
    NoIndices(calls);
  }

  lemma OrderIsIndices(calls: seq<Json>)
    ensures forall i | 0 <= i < |ToolOrder(calls)| :: ToolOrder(calls)[i] in IndicesIn(calls)
    ensures forall t <- IndicesIn(calls) :: exists i | 0 <= i < |ToolOrder(calls)| :: ToolOrder(calls)[i] == t
  {
    hide IndicesIn;
    assert forall i | 0 <= i < |ToolOrder(calls)| :: ToolOrder(calls)[i] in ToolOrder(calls);
    forall t | t in IndicesIn(calls) ensures exists i | 0 <= i < |ToolOrder(calls)| :: ToolOrder(calls)[i] == t {
      assert t in ToolOrder(calls);
    }
  }

  /** And a message whose parts come out the same is complete. */
  lemma SamePartsComplete(chunks: seq<Json>)
    requires var parts := TranslatedParts(chunks);
             Leading(ReasoningIn(chunks), TextIn(chunks)) + WholeToolParts(CallsIn(chunks))
             == if parts == [] then [Part.Text("")] else parts
    ensures Complete(chunks)
  {
    hide ReasoningIn, TextIn, CallsIn, ToolJsons, WholeTool, AddCalls, IndicesIn, ToolOrder;
    var calls := CallsIn(chunks);
    var order, leading := ToolOrder(calls), Leading(ReasoningIn(chunks), TextIn(chunks));
    var parts, streamed := TranslatedParts(chunks), leading + WholeToolParts(calls);
    NoEmptyText(ReasoningIn(chunks), TextIn(chunks), calls);
    AddCallsParts(leading, calls, |order|);
    OrderIsIndices(calls);
    assert |parts| == |leading| + |order|;
    forall t | t in IndicesIn(calls)
      ensures WholeTool(calls, t).id != "" && WholeTool(calls, t).name != ""
    {
      var i :| 0 <= i < |order| && order[i] == t;
      assert streamed[|leading| + i] == parts[|leading| + i];
      assert streamed[|leading| + i] == ToolPart(t, WholeTool(calls, t));
    }
    if order != [] {
      assert order[0] in IndicesIn(calls);
    }
  }

  lemma StreamedIsTranslated(chunks: seq<Json>, prefix: string)
    requires chunks != []
    ensures Streamed(chunks, prefix) == Translated(WholeBody(chunks), prefix) <==> Complete(chunks)
  {
    hide ReasoningIn, TextIn, CallsIn, ReasonIn, WholeBody, MessageId, MapFinishReason, Translated, TranslatedParts,
         WholeToolParts, IndicesIn, Complete;
    TranslatedReads(chunks, prefix);
    if Complete(chunks) {
      CompleteParts(chunks);
      HasTools(Leading(ReasoningIn(chunks), TextIn(chunks)), CallsIn(chunks));
    } else if Streamed(chunks, prefix) == Translated(WholeBody(chunks), prefix) {
      SamePartsComplete(chunks);
    }
  }

  lemma NoIndices(calls: seq<Json>)
    ensures ToolOrder(calls) == [] ==> IndicesIn(calls) == {}
  {
    if ToolOrder(calls) == [] {
      assert forall t :: t in IndicesIn(calls) ==> t in ToolOrder(calls);
    }
  }

  lemma NoEmptyText(reasoning: string, text: string, calls: seq<Json>)
    ensures Leading(reasoning, text) + WholeToolParts(calls) != [Part.Text("")]
  {
    var parts := Leading(reasoning, text) + WholeToolParts(calls);
    if |parts| > 0 && parts[0].Text? {
      assert parts[0].text != "";
    }
  }

  lemma HasTools(leading: seq<Part>, calls: seq<Json>)
    requires forall p <- leading :: !p.ToolUse?
    ensures (exists p <- leading + WholeToolParts(calls) :: p.ToolUse?) <==> IndicesIn(calls) != {}
  {
    hide WholeTool;
    NoIndices(calls);
    var parts := leading + WholeToolParts(calls);
    if WholeToolParts(calls) != [] {
      assert parts[|leading|].ToolUse? && ToolOrder(calls)[0] in IndicesIn(calls);
    }
  }

  lemma {:induction false} AddCallsOrdered(parts: seq<Part>, calls: seq<Json>)
    requires !Misordered(parts)
    ensures !Misordered(AddCalls(parts, calls))
    decreases |calls|
  {
    hide Misordered;
    if calls != [] {
      AddCallsOrdered(parts, calls[..|calls| - 1]);
      AddCallOrdered(AddCalls(parts, calls[..|calls| - 1]), calls[|calls| - 1]);
    }
  }

  lemma AddCallOrdered(parts: seq<Part>, call: Json)
    requires !Misordered(parts)
    ensures !Misordered(AddCall(parts, call))
  {
    hide ToolName, ToolId, ToolArguments;
    var more := AddCall(parts, call);
    forall i, j ensures !OutOfPlace(more, i, j) {
      assert !OutOfPlace(parts, i, j);
    }
  }

  /** The translator never misorders. */
  lemma TranslatedInOrder(body: Json, prefix: string)
    ensures !Misordered(Translated(body, prefix).content)
  {
    hide AddCalls, MessageOf, ChoiceOf, MapFinishReason, MessageId;
    var message := MessageOf(ChoiceOf(body));
    var reasoning :=
      Coalesce(AsString(Field(message, "reasoning_content")), AsString(Field(message, "reasoning"))).GetOr("");
    var leading := Leading(reasoning, AsString(Field(message, "content")).GetOr(""));
    assert forall i, j :: !OutOfPlace(leading, i, j);
    AddCallsOrdered(leading, AsArray(Field(message, "tool_calls")).GetOr([]));
  }

  /**
   The agreement theorem, over every finished run: however the deltas are cut and
   whatever errors, pings and malformed data come between, the stream folds back to
   the translation of the whole exactly when the whole is complete and the deltas
   come so that no block is out of order or opened twice.
   */
  lemma StreamAgreesWithResponse(calls: seq<Call>, prefix: string)
    requires exists call <- calls :: IsFinish(call)
    requires Received(calls) != []
    ensures Fold(Run(INITIAL, calls, prefix).events) == Translated(WholeBody(Received(calls)), prefix)
            <==> Complete(Received(calls)) && Agreeable(Received(calls))
  {
    hide Run, Fold, Translated, WholeBody, Complete, Fits, Received, Streamed, Misordered;
    var chunks := Received(calls);
    TracksInitially(prefix);
    assert [] + chunks == chunks;
    RunFolds(INITIAL, [], calls, prefix);
    StreamedIsTranslated(chunks, prefix);
    TranslatedInOrder(WholeBody(chunks), prefix);
  }

  const ONE_CALL := Obj(map["index" := Number(0), "id" := Str("a"),
                            "function" := Obj(map["name" := Str("f"), "arguments" := Str("{}")])])

  const ONE_DELTA := DeltaChunk(map["content" := Str("t"), "tool_calls" := Arr([ONE_CALL])])

  lemma OneDeltaParts()
    ensures IsAccepted(ONE_DELTA) && TextOf(ONE_DELTA) == "t" && ToolCallsOf(ONE_DELTA) == [ONE_CALL]
  {
  }

  lemma OneCallIsWhole()
    ensures IndicesIn([ONE_CALL]) == {0} && WholeTool([ONE_CALL], 0).id == "a" && WholeTool([ONE_CALL], 0).name == "f"
  {
    hide CarriedByCalls;
    assert ToolIndexOf(ONE_CALL) == 0 && ToolId(ONE_CALL) == Some("a") && ToolName(ONE_CALL) == Some("f");
    assert [ONE_CALL][..0] == [];
  }

  lemma OneDeltaWhole()
    ensures CallsIn([ONE_DELTA]) == [ONE_CALL] && Complete([ONE_DELTA])
  {
    hide ToolCallsOf, TextOf, IsAccepted, IndicesIn, WholeTool, ReasoningIn, TextIn;
    OneDeltaParts();
    OneCallIsWhole();
    assert [ONE_DELTA][..0] == [];
    assert CallsIn([ONE_DELTA]) == [] + [ONE_CALL];
  }

  lemma OneDeltaUnfit()
    ensures !Agreeable([ONE_DELTA])
  {
    hide ToolCallsOf, TextOf, ReasoningOf, IsAccepted, ReasoningIn, TextIn;
    OneDeltaParts();
    assert [ONE_DELTA][..0] == [];
    assert CallsIn([]) + [ONE_CALL] == [ONE_CALL] && ONE_CALL in [ONE_CALL];
    assert !Fits([], ONE_DELTA);
  }

  lemma OneDeltaRun(prefix: string)
    ensures var calls := [PushValue(ONE_DELTA), Finish];
            && Received(calls) == [ONE_DELTA] && Guarded(INITIAL, calls, prefix) && IsFinish(calls[1])
  {
    hide ToolCallsOf, TextOf, ReasoningOf, IsAccepted, Step;
    var calls := [PushValue(ONE_DELTA), Finish];
    OneDeltaParts();
    assert calls[1..] == [Finish] && [Finish][1..] == [];
    assert Received([Finish]) == [] && Received(calls) == [ONE_DELTA] + [];
    assert !Collides(INITIAL, calls[0]) && Guarded(Step(INITIAL, calls[0], prefix), [Finish], prefix);
  }

  /** The tool comes out before the text when one delta brings both, however complete the message. */
  lemma OneDeltaDisagrees(prefix: string)
    ensures var calls := [PushValue(ONE_DELTA), Finish];
            && Received(calls) == [ONE_DELTA] && Complete([ONE_DELTA]) && Guarded(INITIAL, calls, prefix)
            && Fold(Run(INITIAL, calls, prefix).events) != Translated(WholeBody([ONE_DELTA]), prefix)
  {
    hide Fold, Run, Translated, WholeBody, Complete, Agreeable, Guarded, Received;
    var calls := [PushValue(ONE_DELTA), Finish];
    OneDeltaWhole();
    OneDeltaUnfit();
    OneDeltaRun(prefix);
    assert calls[1] in calls;
    StreamAgreesWithResponse(calls, prefix);
  }
}
