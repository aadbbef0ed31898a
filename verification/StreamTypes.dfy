/** Messages and streaming events of anthropic/anthropic.go. Tool arguments are
    of any type A, with a total-or-failing JSON encoding. */
module StreamTypes {
  import opened Results

  datatype ToolCall<A> = ToolCall(id: string, name: string, args: A)

  datatype Metrics = Metrics(promptEvalCount: int, promptEvalCachedCount: Option<int>, evalCount: int)

  /** One api.ChatResponse, as far as the converters read it. */
  datatype Chunk<A> = Chunk(
    thinking: string, content: string, toolCalls: seq<ToolCall<A>>,
    done: bool, doneReason: string, metrics: Metrics)

  datatype Usage = Usage(inputTokens: int, cacheRead: Option<int>, outputTokens: int)

  datatype StartedBlock = ThinkingStart | TextStart | ToolUseStart(id: string, name: string)

  datatype Delta = ThinkingDelta(text: string) | TextDelta(text: string) | InputJsonDelta(text: string)

  datatype Event =
    | MessageStart(id: string, model: string, usage: Usage)
    | BlockStart(index: int, block: StartedBlock)
    | BlockDelta(index: int, delta: Delta)
    | BlockStop(index: int)
    | MessageDelta(stopReason: string, usage: Usage)
    | MessageStop

  /** A finished content block; a tool's input is its JSON text. */
  datatype Block = Thinking(text: string) | Text(text: string) | ToolUse(id: string, name: string, json: string)

  function Max(a: int, b: int): int { if a < b then b else a }

  function Min(a: int, b: int): int { if a < b then a else b }

  function IntValue(v: Option<int>): int {
    match v case None => 0 case Some(n) => n
  }

  /** Splits the prompt tokens into uncached and cache-read ones: the two always
      add up to the total, and neither is negative. */
  function UsageFromMetrics(m: Metrics): (u: Usage)
    ensures u.inputTokens + IntValue(u.cacheRead) == Max(0, m.promptEvalCount)
    ensures u.inputTokens >= 0 && IntValue(u.cacheRead) >= 0
    ensures u.cacheRead.Some? <==> m.promptEvalCachedCount.Some?
    ensures u.outputTokens == m.evalCount
  {
    var total := Max(0, m.promptEvalCount);
    var cached := match m.promptEvalCachedCount
      case None => None
      case Some(n) => Some(Min(Max(0, n), total));
    Usage(total - IntValue(cached), cached, m.evalCount)
  }

  function MapStopReason(reason: string, hasToolCalls: bool): string {
    if hasToolCalls then "tool_use"
    else if reason == "stop" then "end_turn"
    else if reason == "length" then "max_tokens"
    else if reason != "" then "stop_sequence"
    else ""
  }
}
