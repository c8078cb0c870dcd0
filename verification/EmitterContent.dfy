/**
 Nothing is lost and nothing is made up: over every run, in any order of deltas
 and inside or outside the guard of `EmitterProtocol`, the deltas of the emitted
 blocks concatenate to exactly what the accepted chunks carried.
 */
module EmitterContent {
  import opened Options
  import opened JsonValues
  import opened AnthropicEvents
  import opened SortedSets
  import opened EmitterModel

  /** The chunks a run reads: accepted values up to the first finish. */
  function Received(calls: seq<Call>): seq<Json> {
    if calls == [] || IsFinish(calls[0]) then [] else Heard(calls[0]) + Received(calls[1..])
  }

  /** The chunk one call brings, if any. */
  function Heard(call: Call): seq<Json> {
    if !IsFinish(call) && ValueOf(call).Some? && IsAccepted(ValueOf(call).value) then [ValueOf(call).value] else []
  }

  datatype Content = Content(text: string, thinking: string, json: string) {
    function Plus(other: Content): Content {
      Content(text + other.text, thinking + other.thinking, json + other.json)
    }
  }

  const NOTHING := Content("", "", "")

  lemma PlusAssociates(a: Content, b: Content, c: Content)
    ensures a.Plus(b).Plus(c) == a.Plus(b.Plus(c))
  {
    assert a.text + b.text + c.text == a.text + (b.text + c.text);
    assert a.thinking + b.thinking + c.thinking == a.thinking + (b.thinking + c.thinking);
    assert a.json + b.json + c.json == a.json + (b.json + c.json);
  }

  lemma NothingIsUnit(a: Content)
    ensures a.Plus(NOTHING) == a && NOTHING.Plus(a) == a
  {
  }

  /** What the chunks carried, with the argument fragments of tool t. */
  function CarriedByCalls(toolCalls: seq<Json>, t: int): string {
    if toolCalls == [] then ""
    else
      var call := toolCalls[|toolCalls| - 1];
      CarriedByCalls(toolCalls[..|toolCalls| - 1], t)
      + (if call.Obj? && ToolIndexOf(call) == t then ToolArguments(call).GetOr("") else "")
  }

  function CarriedBy(chunk: Json, t: int): Content {
    Content(TextOf(chunk), ReasoningOf(chunk), CarriedByCalls(ToolCallsOf(chunk), t))
  }

  function Carried(chunks: seq<Json>, t: int): Content {
    if chunks == [] then NOTHING else CarriedBy(chunks[0], t).Plus(Carried(chunks[1..], t))
  }

  /** What one event adds, counting the tool blocks opened for tool t. */
  function EventContent(e: Event, owners: seq<Option<int>>, t: int): Content {
    if !e.BlockDelta? then NOTHING
    else
      match e.delta
      case TextDelta(text) => Content(text, "", "")
      case ThinkingDelta(thinking) => Content("", thinking, "")
      case SignatureDelta => NOTHING
      case InputJsonDelta(json) =>
        if 0 <= e.index < |owners| && owners[e.index] == Some(t) then Content("", "", json) else NOTHING
  }

  function ContentIn(events: seq<Event>, owners: seq<Option<int>>, t: int): Content {
    if events == [] then NOTHING
    else ContentIn(events[..|events| - 1], owners, t).Plus(EventContent(events[|events| - 1], owners, t))
  }

  lemma ContentAppend(events: seq<Event>, e: Event, owners: seq<Option<int>>, t: int)
    ensures ContentIn(events + [e], owners, t) == ContentIn(events, owners, t).Plus(EventContent(e, owners, t))
  {
    assert (events + [e])[..|events|] == events;
  }

  predicate IndicesBelow(events: seq<Event>, n: int) {
    forall i | 0 <= i < |events| && events[i].BlockDelta? :: events[i].index < n
  }

  lemma {:induction false} ContentKeepsOwners(events: seq<Event>, owners: seq<Option<int>>, owner: Option<int>, t: int)
    requires IndicesBelow(events, |owners|)
    ensures ContentIn(events, owners + [owner], t) == ContentIn(events, owners, t)
    decreases |events|
  {
    if events != [] {
      ContentKeepsOwners(events[..|events| - 1], owners, owner, t);
    }
  }

  predicate SamePace(s: State, u: State) { u.started == s.started && u.finished == s.finished }

  predicate Counted(s: State) {
    s.nextIndex == |s.owners| && IndicesBelow(s.events, |s.owners|)
  }

  /** What the state holds: emitted content, and the arguments still buffered for tool t. */
  function Held(s: State, t: int): Content {
    ContentIn(s.events, s.owners, t).Plus(Content("", "", BufferedAt(s.tools, t).arguments))
  }

  lemma EmitContent(s: State, e: Event, t: int)
    requires Counted(s) && (e.BlockDelta? ==> e.index < |s.owners|)
    ensures Counted(Emit(s, e))
    ensures ContentIn(Emit(s, e).events, s.owners, t)
        == ContentIn(s.events, s.owners, t).Plus(EventContent(e, s.owners, t))
  {
    ContentAppend(s.events, e, s.owners, t);
  }

  lemma CloseBlockContent(s: State, t: int)
    requires Counted(s)
    ensures Counted(CloseBlock(s))
    ensures ContentIn(CloseBlock(s).events, s.owners, t) == ContentIn(s.events, s.owners, t)
    ensures CloseBlock(s) == s.(events := CloseBlock(s).events, block := None)
  {
    hide ContentIn;
    var index := s.nextIndex - 1;
    if s.block == Some(OpenThinking) {
      EmitContent(s, BlockDelta(index, SignatureDelta), t);
      EmitContent(Emit(s, BlockDelta(index, SignatureDelta)), BlockStop(index), t);
    } else {
      EmitContent(s, BlockStop(index), t);
    }
  }

  lemma StartBlockContent(s: State, contentBlock: ContentBlock, owner: Option<int>, t: int)
    requires Counted(s)
    ensures var u := StartBlock(s, contentBlock, owner);
            && Counted(u) && ContentIn(u.events, u.owners, t) == ContentIn(s.events, s.owners, t)
            && u == s.(events := u.events, nextIndex := u.nextIndex, owners := u.owners)
  {
    hide ContentIn;
    var e := BlockStart(s.nextIndex, contentBlock);
    EmitContent(s, e, t);
    ContentKeepsOwners(Emit(s, e).events, s.owners, owner, t);
  }

  lemma FlushToolContent(s: State, toolIndex: int, tool: BufferedTool, t: int)
    requires Counted(s)
    ensures var u := FlushTool(s, toolIndex, tool);
            && Counted(u)
            && ContentIn(u.events, u.owners, t)
               == ContentIn(s.events, s.owners, t).Plus(Content("", "", if toolIndex == t then tool.arguments else ""))
            && u == s.(events := u.events, nextIndex := u.nextIndex, owners := u.owners)
  {
    hide ContentIn;
    var begun := StartBlock(s, ToolBlock(toolIndex, tool), Some(toolIndex));
    StartBlockContent(s, ToolBlock(toolIndex, tool), Some(toolIndex), t);
    var filled := if tool.arguments == "" then begun else PushDelta(begun, InputJsonDelta(tool.arguments));
    EmitContent(begun, BlockDelta(begun.nextIndex - 1, InputJsonDelta(tool.arguments)), t);
    EmitContent(filled, BlockStop(filled.nextIndex - 1), t);
  }

  lemma {:induction false} FlushFirstContent(s: State, tools: map<int, BufferedTool>, order: seq<int>, n: nat, t: int)
    requires Counted(s) && n <= |order|
    requires forall i, j :: 0 <= i < j < |order| ==> order[i] < order[j]
    ensures var u := FlushFirst(s, tools, order, n);
            && Counted(u)
            && ContentIn(u.events, u.owners, t)
               == ContentIn(s.events, s.owners, t)
                  .Plus(Content("", "", if t in order[..n] then BufferedAt(tools, t).arguments else ""))
            && u == s.(events := u.events, nextIndex := u.nextIndex, owners := u.owners)
  {
    hide ContentIn, FlushTool;
    if n > 0 {
      FlushFirstContent(s, tools, order, n - 1, t);
      FlushToolContent(FlushFirst(s, tools, order, n - 1), order[n - 1], BufferedAt(tools, order[n - 1]), t);
      assert order[..n] == order[..n - 1] + [order[n - 1]];
    }
  }

  lemma FlushToolsContent(s: State, t: int)
    requires Counted(s)
    ensures var u := FlushTools(s);
            && Counted(u) && Held(u, t) == Held(s, t)
            && u == s.(events := u.events, nextIndex := u.nextIndex, owners := u.owners, tools := map[])
  {
    hide ContentIn, FlushFirst, Content.Plus;
    var order := SortedKeys(s.tools.Keys);
    FlushFirstContent(s, s.tools, order, |order|, t);
    assert order[..|order|] == order;
    var flushed := FlushTools(s);
    NothingIsUnit(ContentIn(flushed.events, flushed.owners, t));
  }

  lemma ReasoningContent(s: State, reasoning: string, t: int)
    requires Counted(s)
    ensures var u := ReasoningStep(s, reasoning);
            Counted(u) && Held(u, t) == Held(s, t).Plus(Content("", reasoning, "")) && SamePace(s, u)
  {
    hide ContentIn, CloseBlock, StartBlock;
    CloseBlockContent(s, t);
    StartBlockContent(CloseBlock(s), ThinkingBlock, None, t);
    if reasoning != "" {
      var ready := if s.block == Some(OpenThinking) then s
                   else StartBlock(CloseBlock(s), ThinkingBlock, None).(block := Some(OpenThinking));
      EmitContent(ready, BlockDelta(ready.nextIndex - 1, ThinkingDelta(reasoning)), t);
    }
  }

  lemma {:induction false} ToolsContent(s: State, calls: seq<Json>, t: int)
    requires Counted(s)
    ensures var u := ToolsStep(s, calls);
            Counted(u) && Held(u, t) == Held(s, t).Plus(Content("", "", CarriedByCalls(calls, t))) && SamePace(s, u)
    decreases |calls|
  {
    hide ContentIn, CloseBlock, ToolIndexOf, ToolId, ToolName, ToolArguments;
    if calls != [] {
      var prefix, call := calls[..|calls| - 1], calls[|calls| - 1];
      ToolsContent(s, prefix, t);
      var u := ToolsStep(s, prefix);
      CloseBlockContent(u, t);
      var added := if call.Obj? && ToolIndexOf(call) == t then ToolArguments(call).GetOr("") else "";
      assert Held(ToolStep(u, call), t) == Held(u, t).Plus(Content("", "", added));
      PlusAssociates(Held(s, t), Content("", "", CarriedByCalls(prefix, t)), Content("", "", added));
    }
  }

  lemma TextContent(s: State, text: string, t: int)
    requires Counted(s)
    ensures var u := TextStep(s, text);
            Counted(u) && Held(u, t) == Held(s, t).Plus(Content(text, "", "")) && SamePace(s, u)
  {
    hide ContentIn, CloseBlock, FlushTools;
    if text != "" {
      FlushToolsContent(s, t);
      var flushed := FlushTools(s);
      CloseBlockContent(flushed, t);
      StartBlockContent(CloseBlock(flushed), TextBlock, None, t);
      var ready := if flushed.block == Some(OpenText) then flushed
                   else StartBlock(CloseBlock(flushed), TextBlock, None).(block := Some(OpenText));
      EmitContent(ready, BlockDelta(ready.nextIndex - 1, TextDelta(text)), t);
    }
  }

  lemma BeginContent(s: State, chunk: Json, prefix: string, t: int)
    requires Counted(s)
    ensures var u := Begin(s, chunk, prefix);
            Counted(u) && Held(u, t) == Held(s, t) && u.started && u.finished == s.finished
  {
    hide ContentIn, Absorb;
    var e := if s.started then Ping else Begin(s, chunk, prefix).events[|s.events|];
    EmitContent(s, e, t);
  }

  lemma ReasonContent(s: State, reason: string, t: int)
    requires Counted(s)
    ensures var u := ReasonStep(s, reason);
            Counted(u) && Held(u, t) == Held(s, t) && SamePace(s, u)
  {
    hide ContentIn, CloseBlock;
    CloseBlockContent(s.(finishReason := Some(reason)), t);
  }

  lemma ReadChunkContent(s: State, chunk: Json, prefix: string, t: int)
    requires Counted(s)
    ensures var u := ReadChunk(s, chunk, prefix);
            && Counted(u) && Held(u, t) == Held(s, t).Plus(CarriedBy(chunk, t))
            && u.started && u.finished == s.finished
  {
    hide ContentIn, CloseBlock, Begin, ReasoningStep, ToolsStep, TextStep, CarriedByCalls, Held;
    var begun := Begin(s, chunk, prefix);
    BeginContent(s, chunk, prefix, t);
    ReasoningContent(begun, ReasoningOf(chunk), t);
    var reasoned := ReasoningStep(begun, ReasoningOf(chunk));
    ToolsContent(reasoned, ToolCallsOf(chunk), t);
    var buffered := ToolsStep(reasoned, ToolCallsOf(chunk));
    TextContent(buffered, TextOf(chunk), t);
    ReasonContent(TextStep(buffered, TextOf(chunk)), ReasonOf(chunk), t);
  }

  lemma FinalizeContent(s: State, t: int)
    requires Counted(s) && (!s.started ==> s.tools == map[])
    ensures Counted(Finalize(s)) && Held(Finalize(s), t) == Held(s, t)
    ensures Finalize(s).finished && (!s.finished ==> Finalize(s).tools == map[])
    ensures Finalize(s).started == s.started && (s.finished ==> Finalize(s) == s)
  {
    hide ContentIn, CloseBlock, FlushTools;
    if s.started && !s.finished {
      var closing := s.(finished := true);
      CloseBlockContent(closing, t);
      FlushToolsContent(CloseBlock(closing), t);
      var flushed := FlushTools(CloseBlock(closing));
      var summary := Summary(s.finishReason, s.sawTool, s.usage);
      EmitContent(flushed, summary, t);
      EmitContent(Emit(flushed, summary), MessageStop, t);
    }
  }

  // started, finished and tools move together.
  predicate Paced(s: State) {
    (!s.started ==> s.tools == map[]) && (s.finished ==> s.tools == map[])
  }

  /** One call adds to the state exactly what it carries. */
  lemma StepContent(s: State, call: Call, prefix: string, t: int)
    requires Counted(s) && Paced(s)
    ensures var u := Step(s, call, prefix);
            && Counted(u) && Paced(u) && (s.finished || IsFinish(call) <==> u.finished)
            && Held(u, t) == if s.finished then Held(s, t) else Held(s, t).Plus(Carried(Heard(call), t))
  {
    hide ContentIn, ReadChunk, Finalize, CarriedBy, Content.Plus;
    NothingIsUnit(Held(s, t));
    if IsFinish(call) {
      FinalizeContent(s, t);
    } else if ValueOf(call).Some? && !s.finished && ValueOf(call).value.Obj? {
      var value := ValueOf(call).value;
      if IsError(value) {
        EmitContent(s, Error(ErrorMessage(value.fields["error"])), t);
        NothingIsUnit(ContentIn(s.events, s.owners, t));
      } else {
        ReadChunkContent(s, value, prefix, t);
        var done := ReadChunk(s, value, prefix);
        EmitContent(done, Ping, t);
        NothingIsUnit(ContentIn(done.events, done.owners, t));
        assert Heard(call) == [value];
        NothingIsUnit(CarriedBy(value, t));
      }
    }
  }

  lemma {:induction false} CarriedConcat(a: seq<Json>, b: seq<Json>, t: int)
    ensures Carried(a + b, t) == Carried(a, t).Plus(Carried(b, t))
  {
    hide CarriedBy, Content.Plus;
    if a == [] {
      assert a + b == b;
      NothingIsUnit(Carried(b, t));
    } else {
      assert (a + b)[1..] == a[1..] + b;
      CarriedConcat(a[1..], b, t);
      PlusAssociates(CarriedBy(a[0], t), Carried(a[1..], t), Carried(b, t));
    }
  }

  lemma {:induction false} RunContent(s: State, calls: seq<Call>, prefix: string, t: int)
    requires Counted(s) && Paced(s)
    ensures var u := Run(s, calls, prefix);
            && Counted(u) && Paced(u)
            && (s.finished || (exists call <- calls :: IsFinish(call)) ==> u.finished)
            && Held(u, t) == if s.finished then Held(s, t) else Held(s, t).Plus(Carried(Received(calls), t))
    decreases |calls|
  {
    hide ContentIn, Step, CarriedBy, Content.Plus, Held, Counted, Paced;
    NothingIsUnit(Held(s, t));
    if calls != [] {
      var next := Step(s, calls[0], prefix);
      StepContent(s, calls[0], prefix, t);
      RunContent(next, calls[1..], prefix, t);
      if !s.finished && !IsFinish(calls[0]) {
        assert Received(calls) == Heard(calls[0]) + Received(calls[1..]);
        CarriedConcat(Heard(calls[0]), Received(calls[1..]), t);
        PlusAssociates(Held(s, t), Carried(Heard(calls[0]), t), Carried(Received(calls[1..]), t));
      } else if !s.finished {
        assert Heard(calls[0]) == [];
      }
    }
  }

  /**
   The conservation theorem. At every moment what has been emitted for tool t,
   followed by what is buffered for it, is what has been received for it; text and
   reasoning are emitted at once; and once a finish has come, nothing is buffered.
   */
  lemma ContentConserved(calls: seq<Call>, prefix: string, t: int)
    ensures var s := Run(INITIAL, calls, prefix);
            var emitted := ContentIn(s.events, s.owners, t);
            var received := Carried(Received(calls), t);
            && emitted.text == received.text
            && emitted.thinking == received.thinking
            && emitted.json + BufferedAt(s.tools, t).arguments == received.json
            && ((exists call <- calls :: IsFinish(call)) ==> emitted.json == received.json)
  {
    hide Run, Received, Carried;
    RunContent(INITIAL, calls, prefix, t);
    NothingIsUnit(Carried(Received(calls), t));
  }
}
