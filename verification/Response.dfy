/** The single-body OpenAI response and its parser (`src/llm/response.rs`). */
module Response {
  import opened Prelude
  import opened Json
  import opened Reply

  datatype ToolFunction = ToolFunction(name: Option<string>, arguments: Option<string>)

  datatype ToolCall = ToolCall(id: Option<string>, function_: Option<ToolFunction>)

  datatype ResponseMessage = ResponseMessage(
    content: Option<string>,
    refusal: Option<string>,
    reasoningContent: Option<string>,
    reasoning: Option<string>,
    reasoningDetails: seq<Option<string>>,
    toolCalls: seq<ToolCall>)

  datatype Choice = Choice(message: ResponseMessage, finishReason: Option<string>)

  datatype ResponseUsage = ResponseUsage(
    promptTokens: nat,
    completionTokens: nat,
    totalTokens: nat,
    reasoningTokens: Option<nat>,
    cachedTokens: Option<nat>,
    cacheReadInputTokens: Option<nat>)

  datatype ChatResponse = ChatResponse(
    choices: seq<Choice>,
    usage: Option<ResponseUsage>,
    error: Option<Value>)

  function UsageOf(usage: Option<ResponseUsage>): (tokens: TokenUsage)
    ensures usage.None? ==> tokens == NO_USAGE
    ensures usage.Some? ==>
              var u := usage.value;
              && tokens.promptTokens == u.promptTokens && tokens.completionTokens == u.completionTokens
              && tokens.totalTokens == u.totalTokens && tokens.cacheCreationPromptTokens == 0
              && tokens.reasoningTokens == OrZero(u.reasoningTokens)
              && OrZero(u.cachedTokens) <= tokens.cachedPromptTokens
              && OrZero(u.cacheReadInputTokens) <= tokens.cachedPromptTokens
              && tokens.cachedPromptTokens in {OrZero(u.cachedTokens), OrZero(u.cacheReadInputTokens)}
  {
    match usage
    case None => NO_USAGE
    case Some(u) =>
      TokenUsage(
        u.promptTokens, u.completionTokens, u.totalTokens, OrZero(u.reasoningTokens),
        Max(OrZero(u.cachedTokens), OrZero(u.cacheReadInputTokens)), 0)
  }

  function OrZero(n: Option<nat>): nat {
    match n case Some(k) => k case None => 0
  }

  function Texts(parts: seq<Option<string>>): seq<string> {
    seq(|parts|, i requires 0 <= i < |parts| => OrEmpty(parts[i]))
  }

  /** The thinking of a message: its non-empty parts, one per line. */
  function ThinkingOf(message: ResponseMessage): string {
    Join(Pieces(Texts([message.reasoningContent, message.reasoning] + message.reasoningDetails)), "\n")
  }

  lemma ThinkingJoinsParts(message: ResponseMessage)
    ensures ThinkingOf(message)
         == Join(
              Pieces([OrEmpty(message.reasoningContent), OrEmpty(message.reasoning)] + Texts(message.reasoningDetails)),
              "\n")
  {
    var scalars := [message.reasoningContent, message.reasoning];
    assert Texts(scalars + message.reasoningDetails)
        == [OrEmpty(message.reasoningContent), OrEmpty(message.reasoning)] + Texts(message.reasoningDetails);
  }

  /** One text under another on a line of its own; an empty one takes no line. */
  function Under(above: string, below: string): string {
    if below == "" then above else if above == "" then below else above + "\n" + below
  }

  lemma {:induction false} FirstPiece(parts: seq<string>)
    ensures Pieces(parts) != [] ==> Pieces(parts)[0] != ""
  {
    if parts != [] {
      FirstPiece(parts[1..]);
    }
  }

  lemma JoinUnder(parts: seq<string>, last: string)
    ensures Join(Pieces(parts + [last]), "\n") == Under(Join(Pieces(parts), "\n"), last)
  {
    PiecesAppend(parts, [last]);
    FirstPiece(parts);
    var pieces := Pieces(parts);
    assert Pieces([last]) == if last == "" then [] else [last];
    hide Pieces;
    if last == "" {
      assert pieces + [] == pieces;
    } else if pieces == [] {
      assert pieces + [last] == [last];
    } else {
      JoinSnoc(pieces, "\n", last);
    }
  }

  /**
   Thinking is reasoning under reasoning content, and each detail block under what came before
   it, so empty texts leave no line and no text is lost or moved.
   */
  lemma ThinkingGrows(message: ResponseMessage, detail: Option<string>)
    ensures ThinkingOf(message.(reasoningDetails := []))
         == Under(OrEmpty(message.reasoningContent), OrEmpty(message.reasoning))
    ensures ThinkingOf(message.(reasoningDetails := message.reasoningDetails + [detail]))
         == Under(ThinkingOf(message), OrEmpty(detail))
  {
    var content, reasoning := OrEmpty(message.reasoningContent), OrEmpty(message.reasoning);
    var scalars := [message.reasoningContent, message.reasoning];
    var parts := scalars + message.reasoningDetails;
    assert scalars + [] == scalars && Texts(scalars) == [content] + [reasoning];
    JoinUnder([], content);
    JoinUnder([] + [content], reasoning);
    assert [] + [content] == [content];
    assert parts + [detail] == scalars + (message.reasoningDetails + [detail]);
    assert Texts(parts + [detail]) == Texts(parts) + [OrEmpty(detail)];
    JoinUnder(Texts(parts), OrEmpty(detail));
    hide Pieces;
  }

  function RequestedCall(call: ToolCall): RequestedToolCall {
    var (name, arguments) := match call.function_
      case Some(f) => (f.name, f.arguments)
      case None => (None, None);
    RequestedToolCall(
      OrEmpty(call.id), OrEmpty(name), match arguments case Some(text) => text case None => "{}")
  }

  function RequestedCalls(calls: seq<ToolCall>): seq<RequestedToolCall> {
    seq(|calls|, i requires 0 <= i < |calls| => RequestedCall(calls[i]))
  }

  /** The reply a single body stands for. */
  function ReplyOf(resp: ChatResponse): Result<LlmReply, GatewayError> {
    if resp.error.Some? && resp.error.value != Null then Err(ErrorBody(resp.error.value))
    else if resp.choices == [] then Err(EmptyChoices)
    else
      var Choice(message, finishReason) := resp.choices[0];
      if OrEmpty(message.refusal) != "" then Err(Refused(OrEmpty(message.refusal)))
      else
        Ok(LlmReply(
          ThinkingOf(message), OrEmpty(message.content), finishReason,
          RequestedCalls(message.toolCalls), UsageOf(resp.usage), []))
  }

  method ParseReply(resp: ChatResponse) returns (r: Result<LlmReply, GatewayError>)
    ensures r == ReplyOf(resp)
  {
    hide Texts, Pieces, Join, RequestedCalls, UsageOf;
    if resp.error.Some? && resp.error.value != Null {
      return Err(ErrorBody(resp.error.value));
    }
    if resp.choices == [] {
      return Err(EmptyChoices);
    }
    var Choice(message, finishReason) := resp.choices[0];
    if message.refusal.Some? && message.refusal.value != "" {
      return Err(Refused(message.refusal.value));
    }
    var calls := CollectCalls(message.toolCalls);
    var parts := AddParts([], [message.reasoningContent, message.reasoning]);
    parts := AddParts(parts, message.reasoningDetails);
    PartsAppend([message.reasoningContent, message.reasoning], message.reasoningDetails);
    r := Ok(LlmReply(
      Join(parts, "\n"), OrEmpty(message.content), finishReason, calls, UsageOf(resp.usage), []));
  }

  lemma PartsAppend(a: seq<Option<string>>, b: seq<Option<string>>)
    ensures [] + Pieces(Texts(a)) + Pieces(Texts(b)) == Pieces(Texts(a + b))
  {
    hide Pieces;
    PiecesAppend(Texts(a), Texts(b));
    assert Texts(a + b) == Texts(a) + Texts(b);
  }

  method CollectCalls(calls: seq<ToolCall>) returns (requested: seq<RequestedToolCall>)
    ensures requested == RequestedCalls(calls)
  {
    requested := [];
    for i := 0 to |calls|
      invariant |requested| == i && forall k :: 0 <= k < i ==> requested[k] == RequestedCall(calls[k])
    {
      requested := requested + [RequestedCall(calls[i])];
    }
  }

  method AddParts(parts: seq<string>, more: seq<Option<string>>) returns (out: seq<string>)
    ensures out == parts + Pieces(Texts(more))
  {
    out := parts;
    for i := 0 to |more|
      invariant out == parts + Pieces(Texts(more[..i]))
    {
      PiecesAppend(Texts(more[..i]), [OrEmpty(more[i])]);
      assert Texts(more[..i + 1]) == Texts(more[..i]) + [OrEmpty(more[i])];
      assert Pieces([OrEmpty(more[i])]) == if OrEmpty(more[i]) == "" then [] else [OrEmpty(more[i])];
      if more[i].Some? && more[i].value != "" {
        out := out + [more[i].value];
      }
    }
    assert more[..|more|] == more;
  }
}
