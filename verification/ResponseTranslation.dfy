/** The non-streaming translator, `translateOpenAiResponse`. */
module ResponseTranslation {
  import opened Options
  import opened JsonValues
  import opened AnthropicEvents
  import Decimals
  import opened EmitterModel

  // Tool input is kept as the raw argument string that parseToolArguments reads.
  datatype Part =
    | Thinking(thinking: string)
    | Text(text: string)
    | ToolUse(id: string, name: string, arguments: string)

  datatype Message = Message(id: string, model: string, content: seq<Part>, stopReason: string)

  function AddCall(parts: seq<Part>, call: Json): seq<Part> {
    var name := ToolName(call).GetOr("");
    if !call.Obj? || name == "" then parts
    else parts + [ToolUse(ToolId(call).GetOr("toolu_" + Decimals.FromNat(|parts|)), name,
        ToolArguments(call).GetOr(""))]
  }

  function AddCalls(parts: seq<Part>, calls: seq<Json>): seq<Part> {
    if calls == [] then parts else AddCall(AddCalls(parts, calls[..|calls| - 1]), calls[|calls| - 1])
  }

  function Leading(reasoning: string, text: string): seq<Part> {
    (if reasoning == "" then [] else [Thinking(reasoning)]) + (if text == "" then [] else [Text(text)])
  }

  function MessageOf(choice: Option<Json>): Option<Json> { AsObject(Field(choice, "message")) }

  function Translated(body: Json, prefix: string): Message {
    var choice := ChoiceOf(body);
    var message := MessageOf(choice);
    var reasoning := Coalesce(AsString(Field(message, "reasoning_content")),
        AsString(Field(message, "reasoning"))).GetOr("");
    var text := AsString(Field(message, "content")).GetOr("");
    var parts := AddCalls(Leading(reasoning, text), AsArray(Field(message, "tool_calls")).GetOr([]));
    var content := if parts == [] then [Text("")] else parts;
    Message(
      MessageId(Field(Some(body), "id"), prefix),
      AsString(Field(Some(body), "model")).GetOr("unknown"),
      content,
      MapFinishReason(AsString(Field(choice, "finish_reason")), exists p <- content :: p.ToolUse?))
  }

  method Translate(body: Json, prefix: string) returns (translated: Message)
    ensures translated == Translated(body, prefix)
  {
    hide Decimals.FromNat, MessageId, ToolId, ToolName, ToolArguments, MapFinishReason;
    var choice := ChoiceOf(body);
    var message := MessageOf(choice);

    var blocks: seq<Part> := [];
    var reasoning := Coalesce(AsString(Field(message, "reasoning_content")), AsString(Field(message, "reasoning")));
    if reasoning.GetOr("") != "" {
      blocks := blocks + [Thinking(reasoning.value)];
    }
    var text := AsString(Field(message, "content"));
    if text.GetOr("") != "" {
      blocks := blocks + [Text(text.value)];
    }
    ghost var leading := blocks;
    assert leading == Leading(reasoning.GetOr(""), text.GetOr(""));
    var calls := AsArray(Field(message, "tool_calls")).GetOr([]);
    for i := 0 to |calls|
      invariant blocks == AddCalls(leading, calls[..i])
    {
      assert calls[..i + 1][..i] == calls[..i];
      var call := calls[i];
      var name := ToolName(call).GetOr("");
      if call.Obj? && name != "" {
        blocks := blocks + [ToolUse(ToolId(call).GetOr("toolu_" + Decimals.FromNat(|blocks|)), name,
            ToolArguments(call).GetOr(""))];
      }
    }
    assert calls[..|calls|] == calls;
    if |blocks| == 0 {
      blocks := blocks + [Text("")];
    }
    var hasToolUse := exists p <- blocks :: p.ToolUse?;
    translated := Message(
      MessageId(Field(Some(body), "id"), prefix),
      AsString(Field(Some(body), "model")).GetOr("unknown"),
      blocks,
      MapFinishReason(AsString(Field(choice, "finish_reason")), hasToolUse));
  }
}
