/** The Anthropic events the bridge emits, and the two small mappings both translators share. */
module AnthropicEvents {
  import opened Options
  import opened JsonValues

  datatype ContentBlock =
    | ThinkingBlock
    | TextBlock
    | ToolUseBlock(id: string, name: string)

  datatype Delta =
    | ThinkingDelta(thinking: string)
    | SignatureDelta
    | TextDelta(text: string)
    | InputJsonDelta(partialJson: string)

  datatype Event =
    | MessageStart(id: string, model: string, startInputTokens: int, startCacheRead: Option<int>)
    | Ping
    | BlockStart(index: int, contentBlock: ContentBlock)
    | BlockDelta(index: int, delta: Delta)
    | BlockStop(index: int)
    | MessageDelta(stopReason: string, outputTokens: int, inputTokens: Option<int>, cacheRead: Option<int>)
    | MessageStop
    | Error(message: string)

  function MapFinishReason(reason: Option<string>, hasToolUse: bool): string {
    if reason == Some("tool_calls") then "tool_use"
    else if reason == Some("length") then "max_tokens"
    else if reason == Some("content_filter") then "refusal"
    else if hasToolUse then "tool_use"
    else "end_turn"
  }

  function MessageId(id: Option<Json>, prefix: string): string {
    var value := AsString(id).GetOr("");
    if value == "" then prefix + "unknown"
    else if prefix <= value then value
    else prefix + value
  }

}
