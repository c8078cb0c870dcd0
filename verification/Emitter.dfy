/** The emitter itself: closure variables updated in place, events appended to the list of the current call. */
module Emitter {
  import opened Options
  import opened JsonValues
  import opened AnthropicEvents
  import opened SortedSets
  import M = EmitterModel
  import opened Numbers

  class Emitter {
    const prefix: string
    var started: bool
    var finished: bool
    var nextIndex: int
    var block: Option<M.OpenBlock>
    var bufferedTools: map<int, M.BufferedTool>
    var sawToolBlock: bool
    var finishReason: Option<string>
    var usage: M.Usage
    ghost var emitted: seq<Event>
    ghost var owners: seq<Option<int>>

    ghost function State(): M.State
      reads this
    {
      M.State(started, finished, nextIndex, block, bufferedTools, sawToolBlock, finishReason, usage, emitted, owners)
    }

    constructor (prefix: string)
      ensures State() == M.INITIAL && this.prefix == prefix
    {
      this.prefix := prefix;
      started, finished, nextIndex, block := false, false, 0, None;
      bufferedTools, sawToolBlock, finishReason := map[], false, None;
      usage := M.Usage(None, None, None, None, None);
      emitted, owners := [], [];
    }

    /** `events.push(e)`. The events of this call follow those of the calls before it. */
    method Append(events: seq<Event>, e: Event, ghost before: seq<Event>) returns (out: seq<Event>)
      requires emitted == before + events
      modifies this`emitted
      ensures emitted == before + out
      ensures State() == M.Emit(old(State()), e)
    {
      out := events + [e];
      emitted := emitted + [e];
      assert before + (events + [e]) == before + events + [e];
    }

    method CloseBlock(events: seq<Event>, ghost before: seq<Event>) returns (out: seq<Event>)
      requires emitted == before + events
      modifies this`emitted, this`block
      ensures emitted == before + out
      ensures State() == M.CloseBlock(old(State()))
    {
      out := events;
      if block.None? {
        return;
      }
      var index := nextIndex - 1;
      if block.value.OpenThinking? {
        out := Append(out, BlockDelta(index, SignatureDelta), before);
      }
      out := Append(out, BlockStop(index), before);
      block := None;
    }

    method StartBlock(events: seq<Event>, contentBlock: ContentBlock, ghost owner: Option<int>,
        ghost before: seq<Event>)
      returns (out: seq<Event>)
      requires emitted == before + events
      modifies this`emitted, this`nextIndex, this`owners
      ensures emitted == before + out
      ensures State() == M.StartBlock(old(State()), contentBlock, owner)
    {
      out := Append(events, BlockStart(nextIndex, contentBlock), before);
      nextIndex := nextIndex + 1;
      owners := owners + [owner];
    }

    method PushDelta(events: seq<Event>, delta: Delta, ghost before: seq<Event>) returns (out: seq<Event>)
      requires emitted == before + events
      modifies this`emitted
      ensures emitted == before + out
      ensures State() == M.PushDelta(old(State()), delta)
    {
      out := Append(events, BlockDelta(nextIndex - 1, delta), before);
    }

    /** One turn of the loop in `flushTools`. */
    method FlushTool(events: seq<Event>, toolIndex: int, tool: M.BufferedTool, ghost before: seq<Event>)
      returns (out: seq<Event>)
      requires emitted == before + events
      modifies this`emitted, this`nextIndex, this`owners
      ensures emitted == before + out
      ensures State() == M.FlushTool(old(State()), toolIndex, tool)
    {
      out := StartBlock(events, M.ToolBlock(toolIndex, tool), Some(toolIndex), before);
      if tool.arguments != "" {
        out := PushDelta(out, InputJsonDelta(tool.arguments), before);
      }
      out := Append(out, BlockStop(nextIndex - 1), before);
    }

    /** The loop in `flushTools`, over the sorted tool indices. */
    method FlushEach(events: seq<Event>, order: seq<int>, ghost before: seq<Event>) returns (out: seq<Event>)
      requires emitted == before + events
      modifies this`emitted, this`nextIndex, this`owners
      ensures emitted == before + out
      ensures State() == M.FlushFirst(old(State()), old(bufferedTools), order, |order|)
    {
      out := events;
      for i := 0 to |order|
        invariant emitted == before + out
        invariant State() == M.FlushFirst(old(State()), old(bufferedTools), order, i)
      {
        out := FlushTool(out, order[i], M.BufferedAt(bufferedTools, order[i]), before);
      }
    }

    method FlushTools(events: seq<Event>, ghost before: seq<Event>) returns (out: seq<Event>)
      requires emitted == before + events
      modifies this`emitted, this`nextIndex, this`owners, this`bufferedTools
      ensures emitted == before + out
      ensures State() == M.FlushTools(old(State()))
    {
      out := FlushEach(events, SortedKeys(bufferedTools.Keys), before);
      bufferedTools := map[];
    }

    method EnsureStarted(events: seq<Event>, id: Option<Json>, model: Option<Json>, ghost before: seq<Event>)
      returns (out: seq<Event>)
      requires emitted == before + events
      modifies this`emitted, this`started
      ensures emitted == before + out
      ensures State() == M.EnsureStarted(old(State()), id, model, prefix)
    {
      out := events;
      if started {
        return;
      }
      started := true;
      var inputTokens := 0;
      if usage.progressTotal.Some? {
        inputTokens := Max(0, usage.progressTotal.value - usage.progressCache.GetOr(0));
      }
      out := Append(out, MessageStart(MessageId(id, prefix), AsString(model).GetOr("unknown"),
                                      inputTokens, usage.progressCache), before);
    }

    /** `finish`, and what `push` does on the closing marker. */
    method Finalize() returns (events: seq<Event>)
      modifies this
      ensures State() == M.Finalize(old(State()))
      ensures emitted == old(emitted) + events
    {
      events := [];
      if !started || finished {
        finished := true;
        return;
      }
      ghost var before := emitted;
      finished := true;
      assert emitted == before + events;
      events := CloseBlock(events, before);
      events := FlushTools(events, before);
      events := Append(events, M.Summary(finishReason, sawToolBlock, usage), before);
      events := Append(events, MessageStop, before);
    }

    /** The loop over `delta.tool_calls`. */
    method BufferTools(events: seq<Event>, calls: seq<Json>, ghost before: seq<Event>) returns (out: seq<Event>)
      requires emitted == before + events
      modifies this`emitted, this`block, this`bufferedTools, this`sawToolBlock
      ensures emitted == before + out
      ensures State() == M.ToolsStep(old(State()), calls)
    {
      out := events;
      ghost var s := State();
      for i := 0 to |calls|
        invariant emitted == before + out
        invariant State() == M.ToolsStep(s, calls[..i])
      {
        assert calls[..i + 1][..i] == calls[..i];
        var call := calls[i];
        if call.Obj? {
          var toolIndex := M.ToolIndexOf(call);
          out := CloseBlock(out, before);
          var existing := M.BufferedAt(bufferedTools, toolIndex);
          bufferedTools := bufferedTools[toolIndex := M.BufferedTool(
            M.ToolId(call).GetOr(existing.id),
            M.ToolName(call).GetOr(existing.name),
            existing.arguments + M.ToolArguments(call).GetOr(""))];
          sawToolBlock := true;
        }
      }
      assert calls[..|calls|] == calls;
    }

    /** `if (reasoning)`. */
    method Reasoning(events: seq<Event>, reasoning: string, ghost before: seq<Event>) returns (out: seq<Event>)
      requires emitted == before + events
      modifies this`emitted, this`block, this`nextIndex, this`owners
      ensures emitted == before + out
      ensures State() == M.ReasoningStep(old(State()), reasoning)
    {
      out := events;
      if reasoning == "" {
        return;
      }
      if block != Some(M.OpenThinking) {
        out := CloseBlock(out, before);
        out := StartBlock(out, ThinkingBlock, None, before);
        block := Some(M.OpenThinking);
      }
      out := PushDelta(out, ThinkingDelta(reasoning), before);
    }

    /** `if (text)`: buffered tools go out before the open block is closed. */
    method Text(events: seq<Event>, text: string, ghost before: seq<Event>) returns (out: seq<Event>)
      requires emitted == before + events
      modifies this`emitted, this`block, this`nextIndex, this`owners, this`bufferedTools
      ensures emitted == before + out
      ensures State() == M.TextStep(old(State()), text)
    {
      out := events;
      if text == "" {
        return;
      }
      out := FlushTools(out, before);
      if block != Some(M.OpenText) {
        out := CloseBlock(out, before);
        out := StartBlock(out, TextBlock, None, before);
        block := Some(M.OpenText);
      }
      out := PushDelta(out, TextDelta(text), before);
    }

    /** `if (reason)`. */
    method Reason(events: seq<Event>, reason: string, ghost before: seq<Event>) returns (out: seq<Event>)
      requires emitted == before + events
      modifies this`emitted, this`block, this`finishReason
      ensures emitted == before + out
      ensures State() == M.ReasonStep(old(State()), reason)
    {
      out := events;
      if reason == "" {
        return;
      }
      finishReason := Some(reason);
      out := CloseBlock(out, before);
    }

    method PushValue(value: Json) returns (events: seq<Event>, extensions: M.Extensions)
      modifies this
      ensures State() == M.PushValueStep(old(State()), value, prefix)
      ensures emitted == old(emitted) + events
      ensures extensions == if old(finished) || !M.IsAccepted(value) then M.NO_EXTENSIONS else M.ExtensionsOf(value)
    {
      events, extensions := [], M.NO_EXTENSIONS;
      ghost var before := emitted;
      if finished || !value.Obj? {
        return;
      }
      if "error" in value.fields {
        events := Append(events, Error(M.ErrorMessage(value.fields["error"])), before);
        return;
      }
      usage := M.Absorb(usage, value);
      extensions := M.ExtensionsOf(value);

      var wasStarted := started;
      assert emitted == before + events;
      events := EnsureStarted(events, Field(Some(value), "id"), Field(Some(value), "model"), before);

      events := Reasoning(events, M.ReasoningOf(value), before);
      events := BufferTools(events, M.ToolCallsOf(value), before);
      events := Text(events, M.TextOf(value), before);
      events := Reason(events, M.ReasonOf(value), before);
      assert State() == M.ReadChunk(old(State()), value, prefix);
      if wasStarted && events == [] && M.ProgressOf(value).Some? {
        events := Append(events, Ping, before);
      }
    }

    /** `push`: `parsed` is what JSON.parse makes of `data`, None when it throws. */
    method Push(data: string, parsed: Option<Json>) returns (events: seq<Event>, extensions: M.Extensions)
      modifies this
      ensures State() == M.Step(old(State()), M.Push(data, parsed), prefix)
      ensures emitted == old(emitted) + events
      ensures extensions == if old(finished) || data == "[DONE]" || parsed.None? || !M.IsAccepted(parsed.value)
                            then M.NO_EXTENSIONS else M.ExtensionsOf(parsed.value)
    {
      events, extensions := [], M.NO_EXTENSIONS;
      if finished {
        return;
      }
      if data == "[DONE]" {
        events := Finalize();
      } else if parsed.Some? {
        events, extensions := PushValue(parsed.value);
      }
    }
  }
}
