/** The single-body Messages response and its parser (`parse_response` of `src/llm/anthropic.rs`). */
module MessagesReply {
  import opened Prelude
  import opened Json
  import opened Reply

  const U64_MAX := 0xFFFF_FFFF_FFFF_FFFF

  datatype MessagesUsage = MessagesUsage(
    inputTokens: nat,
    outputTokens: nat,
    cacheCreationInputTokens: nat,
    cacheReadInputTokens: nat,
    thinkingTokens: Option<nat>)

  datatype MessagesResponse = MessagesResponse(
    kind: Option<string>,
    content: seq<Value>,
    stopReason: Option<string>,
    usage: Option<MessagesUsage>,
    error: Option<Value>)

  /** `stop_reason` in the vocabulary the agent loop reads. */
  function FinishReason(stopReason: string): string {
    if stopReason == "end_turn" || stopReason == "stop_sequence" then "stop"
    else if stopReason == "max_tokens" || stopReason == "model_context_window_exceeded" then "length"
    else if stopReason == "tool_use" then "tool_calls"
    else stopReason
  }

  function SaturatingAdd(a: nat, b: nat): (sum: nat)
    ensures a <= U64_MAX && b <= U64_MAX ==> Max(a, b) <= sum <= U64_MAX
    ensures sum == a + b <==> a + b <= U64_MAX
  {
    Min(a + b, U64_MAX)
  }

  function UsageOf(usage: Option<MessagesUsage>): TokenUsage {
    match usage
    case None => NO_USAGE
    case Some(u) =>
      var prompt := SaturatingAdd(SaturatingAdd(u.inputTokens, u.cacheCreationInputTokens), u.cacheReadInputTokens);
      TokenUsage(
        prompt, u.outputTokens, SaturatingAdd(prompt, u.outputTokens),
        match u.thinkingTokens case Some(n) => n case None => 0,
        u.cacheReadInputTokens, u.cacheCreationInputTokens)
  }

  predicate IsBlock(block: Value, kind: string) {
    StringOf(block, "type") == Some(kind)
  }

  function BlockText(block: Value): string {
    if IsBlock(block, "text") then OrEmpty(StringOf(block, "text")) else ""
  }

  function BlockThinking(block: Value): seq<string> {
    if IsBlock(block, "thinking") && OrEmpty(StringOf(block, "thinking")) != "" then
      [OrEmpty(StringOf(block, "thinking"))]
    else []
  }

  function BlockReplay(block: Value): seq<Value> {
    if IsBlock(block, "thinking") || IsBlock(block, "redacted_thinking") then [block] else []
  }

  function CallOf(render: Value -> string, block: Value): RequestedToolCall {
    RequestedToolCall(
      OrEmpty(StringOf(block, "id")), OrEmpty(StringOf(block, "name")),
      match Get(block, "input") case Some(input) => render(input) case None => "{}")
  }

  function BlockCalls(render: Value -> string, block: Value): seq<RequestedToolCall> {
    if IsBlock(block, "tool_use") then [CallOf(render, block)] else []
  }

  /** The part of a reply that the content blocks decide, in block order. */
  datatype Gathered = Gathered(output: string, thinking: seq<string>, replay: seq<Value>, calls: seq<RequestedToolCall>)

  function Gather(render: Value -> string, content: seq<Value>): Gathered {
    if content == [] then Gathered("", [], [], [])
    else
      var g, last := Gather(render, content[..|content| - 1]), content[|content| - 1];
      Gathered(
        g.output + BlockText(last), g.thinking + BlockThinking(last),
        g.replay + BlockReplay(last), g.calls + BlockCalls(render, last))
  }

  function ErrorOf(resp: MessagesResponse): Option<GatewayError> {
    if resp.kind == Some("error") || (resp.error.Some? && resp.error.value != Null) then
      Some(ErrorBody(match resp.error case Some(error) => error case None => Null))
    else None
  }

  function ReplyOf(render: Value -> string, resp: MessagesResponse): Result<LlmReply, GatewayError> {
    var g := Gather(render, resp.content);
    if ErrorOf(resp).Some? then Err(ErrorOf(resp).value)
    else if resp.stopReason == Some("refusal") then
      Err(Refused(if g.output == "" then "stop_reason: refusal" else g.output))
    else
      Ok(LlmReply(
        Join(g.thinking, "\n"), g.output,
        match resp.stopReason case Some(reason) => Some(FinishReason(reason)) case None => None,
        g.calls, UsageOf(resp.usage), g.replay))
  }

  /** One content block. */
  method GatherBlock(render: Value -> string, before: Gathered, block: Value) returns (g: Gathered)
    ensures g == Gathered(before.output + BlockText(block), before.thinking + BlockThinking(block),
                   before.replay + BlockReplay(block), before.calls + BlockCalls(render, block))
  {
    var output, thinking, replay, toolCalls := before.output, before.thinking, before.replay, before.calls;
    match StringOf(block, "type") {
      case Some("text") =>
        if StringOf(block, "text").Some? {
          output := output + StringOf(block, "text").value;
        }
      case Some("thinking") =>
        var text := StringOf(block, "thinking");
        if text.Some? && text.value != "" {
          thinking := thinking + [text.value];
        }
        replay := replay + [block];
      case Some("redacted_thinking") =>
        replay := replay + [block];
      case Some("tool_use") =>
        toolCalls := toolCalls + [CallOf(render, block)];
      case _ =>
    }
    g := Gathered(output, thinking, replay, toolCalls);
  }

  method ParseResponse(render: Value -> string, resp: MessagesResponse) returns (r: Result<LlmReply, GatewayError>)
    ensures r == ReplyOf(render, resp)
  {
    hide BlockText, BlockThinking, BlockReplay, BlockCalls, UsageOf, FinishReason, Join;
    if resp.kind == Some("error") || (resp.error.Some? && resp.error.value != Null) {
      return Err(ErrorBody(match resp.error case Some(error) => error case None => Null));
    }
    var g := Gathered("", [], [], []);
    for i := 0 to |resp.content|
      invariant g == Gather(render, resp.content[..i])
    {
      assert resp.content[..i + 1][..i] == resp.content[..i];
      g := GatherBlock(render, g, resp.content[i]);
    }
    assert resp.content[..|resp.content|] == resp.content;
    if resp.stopReason == Some("refusal") {
      return Err(Refused(if g.output == "" then "stop_reason: refusal" else g.output));
    }
    r := Ok(LlmReply(
      Join(g.thinking, "\n"), g.output,
      match resp.stopReason case Some(reason) => Some(FinishReason(reason)) case None => None,
      g.calls, UsageOf(resp.usage), g.replay));
  }
}
