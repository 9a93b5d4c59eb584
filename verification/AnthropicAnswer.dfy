/**
 What an Anthropic body or stream answers (`src/llm/anthropic.rs`, `src/llm/stream/anthropic.rs`),
 told of its content blocks and of the events that built them.
 */
module AnthropicAnswer {
  import opened Prelude
  import opened Json
  import opened Reply
  import opened MessagesReply
  import opened AnthropicStream

  // ----- The single body -----

  /** The reasons to stop in the loop's words; one it does not know stays as it is. */
  lemma {:induction false} ReasonsTranslate(reason: string)
    ensures FinishReason(reason) == "stop" <==> reason in {"end_turn", "stop_sequence", "stop"}
    ensures FinishReason(reason) == "length" <==>
              reason in {"max_tokens", "model_context_window_exceeded", "length"}
    ensures FinishReason(reason) == "tool_calls" <==> reason in {"tool_use", "tool_calls"}
    ensures FinishReason(reason) in {"stop", "length", "tool_calls", reason}
  {
  }

  /**
   The prompt is the input with what was written to and read from the cache, and the total adds
   the output: exact while they fit 64 bits, and the greatest such number otherwise.
   */
  lemma {:induction false} UsageTells(u: MessagesUsage)
    ensures var tokens, prompt := UsageOf(Some(u)), u.inputTokens + u.cacheCreationInputTokens + u.cacheReadInputTokens;
            && tokens.promptTokens == (if prompt <= U64_MAX then prompt else U64_MAX)
            && tokens.totalTokens
               == (if prompt + u.outputTokens <= U64_MAX then prompt + u.outputTokens else U64_MAX)
            && tokens.completionTokens == u.outputTokens && tokens.cachedPromptTokens == u.cacheReadInputTokens
            && tokens.cacheCreationPromptTokens == u.cacheCreationInputTokens
            && (u.thinkingTokens.Some? ==> tokens.reasoningTokens == u.thinkingTokens.value)
            && (u.thinkingTokens.None? ==> tokens.reasoningTokens == 0)
    ensures UsageOf(None) == TokenUsage(0, 0, 0, 0, 0, 0)
  {
  }

  /** The pieces that the blocks of a body bring, in block order. */
  function Brought<T>(content: seq<Value>, pick: Value -> seq<T>): seq<T> {
    Flatten(seq(|content|, i requires 0 <= i < |content| => pick(content[i])))
  }

  lemma {:induction false} BroughtSnoc<T>(content: seq<Value>, last: Value, pick: Value -> seq<T>)
    ensures Brought(content + [last], pick) == Brought(content, pick) + pick(last)
    ensures Brought([], pick) == []
  {
    var earlier := seq(|content|, i requires 0 <= i < |content| => pick(content[i]));
    FlattenSnoc(earlier, pick(last));
    var grown := content + [last];
    assert seq(|grown|, i requires 0 <= i < |grown| => pick(grown[i])) == earlier + [pick(last)];
  }

  /** The text under a key of an object, if there is one. */
  predicate Holds(value: Value, key: string, text: string) {
    value.Object? && key in value.fields && value.fields[key] == Str(text)
  }

  function TextUnder(value: Value, key: string): string {
    if value.Object? && key in value.fields && value.fields[key].Str? then value.fields[key].text else ""
  }

  function SaidText(block: Value): string {
    if Holds(block, "type", "text") then TextUnder(block, "text") else ""
  }

  function SaidThought(block: Value): seq<string> {
    var thought := TextUnder(block, "thinking");
    if Holds(block, "type", "thinking") && thought != "" then [thought] else []
  }

  function Echoed(block: Value): seq<Value> {
    if Holds(block, "type", "thinking") || Holds(block, "type", "redacted_thinking") then [block] else []
  }

  function Called(render: Value -> string, block: Value): seq<RequestedToolCall> {
    if !Holds(block, "type", "tool_use") then []
    else
      [RequestedToolCall(TextUnder(block, "id"), TextUnder(block, "name"),
        if "input" in block.fields then render(block.fields["input"]) else "{}")]
  }

  /** A body's texts, thoughts, echoed blocks and calls are those of its blocks, in block order. */
  lemma {:induction false} BlocksTell(render: Value -> string, content: seq<Value>)
    ensures var g := Gather(render, content);
            && g.output == Brought(content, SaidText) && g.thinking == Brought(content, SaidThought)
            && g.replay == Brought(content, Echoed)
            && g.calls == Brought(content, (block: Value) => Called(render, block))
  {
    hide Brought, SaidText, SaidThought, Echoed, Called, BlockText, BlockThinking, BlockReplay, BlockCalls;
    var calls := (block: Value) => Called(render, block);
    if content == [] {
      BroughtSnoc(content, Null, SaidText);
      BroughtSnoc(content, Null, SaidThought);
      BroughtSnoc(content, Null, Echoed);
      BroughtSnoc(content, Null, calls);
    } else {
      var n := |content| - 1;
      BlocksTell(render, content[..n]);
      assert content == content[..n] + [content[n]];
      BroughtSnoc(content[..n], content[n], SaidText);
      BroughtSnoc(content[..n], content[n], SaidThought);
      BroughtSnoc(content[..n], content[n], Echoed);
      BroughtSnoc(content[..n], content[n], calls);
      OneBlock(render, content[n]);
    }
  }

  lemma {:induction false} OneBlock(render: Value -> string, block: Value)
    ensures BlockText(block) == SaidText(block) && BlockThinking(block) == SaidThought(block)
    ensures BlockReplay(block) == Echoed(block) && BlockCalls(render, block) == Called(render, block)
  {
  }

  /** A body is an error, a refusal with what was said of it, or a reply with what its blocks hold. */
  lemma {:induction false} BodyTells(render: Value -> string, resp: MessagesResponse)
    ensures var reply, said := ReplyOf(render, resp), Brought(resp.content, SaidText);
            var failed := resp.kind == Some("error") || (resp.error.Some? && resp.error.value != Null);
            var refused := !failed && resp.stopReason == Some("refusal");
            && (reply.Ok? <==> !failed && !refused)
            && (failed ==> reply == Err(ErrorBody(if resp.error.Some? then resp.error.value else Null)))
            && (refused ==> reply == Err(Refused(if said == "" then "stop_reason: refusal" else said)))
            && (reply.Ok? ==>
                  && reply.value.output == said
                  && reply.value.thinking == Join(Brought(resp.content, SaidThought), "\n")
                  && reply.value.replay == Brought(resp.content, Echoed)
                  && reply.value.toolCalls == Brought(resp.content, (block: Value) => Called(render, block))
                  && (reply.value.finishReason.None? <==> resp.stopReason.None?)
                  && (resp.stopReason.Some? ==>
                        reply.value.finishReason == Some(FinishReason(resp.stopReason.value)))
                  && reply.value.usage == UsageOf(resp.usage))
  {
    BlocksTell(render, resp.content);
    hide Brought, Gather, FinishReason, UsageOf, Join;
  }

  // ----- The end of a stream -----

  /** A stream without `message_stop` and without a reason to stop was cut, and a retry may mend it. */
  lemma {:induction false} CutMeans(codec: Codec, steps: seq<Step>)
    ensures AnswerOf(codec, steps) == Err(CUT) <==>
              forall k :: 0 <= k < |steps| ==> !steps[k].Stopped? && !steps[k].Reason?
    ensures CUT.IsRetryable()
  {
    LastReasonTells(steps);
    assert (exists k :: 0 <= k < |steps| && steps[k].Stopped?) <==> Stopped in steps;
    hide LastReason, DecodeUsage, ReplyOf, CallsOf, SlotsAfter, CountersAfter;
    var decoded := DecodeUsage(codec, CountersAfter(steps));
    if decoded.Ok? {
      BodyTells(codec.render, MessageOf(codec, SlotsAfter(steps), LastReason(steps), decoded.value));
    }
  }

  lemma {:induction false} LastReasonTells(steps: seq<Step>)
    ensures LastReason(steps).None? <==> forall k :: 0 <= k < |steps| ==> !steps[k].Reason?
    ensures LastReason(steps).Some? ==>
              exists k :: 0 <= k < |steps| && steps[k] == Reason(LastReason(steps).value)
                && forall i :: k < i < |steps| ==> !steps[i].Reason?
  {
    if steps != [] {
      var n := |steps| - 1;
      LastReasonTells(steps[..n]);
      assert steps == steps[..n] + [steps[n]];
    }
  }

  // ----- The reply of a stream -----

  /** What the slots of a kind hold under a key, in the order they were opened. */
  function Fields(slots: seq<Slot>, kind: Kind, key: string): seq<string> {
    Flatten(seq(|slots|, p requires 0 <= p < |slots| =>
      if slots[p].kind == kind then [TextUnder(slots[p].block, key)] else []))
  }

  lemma {:induction false} FieldsSnoc(slots: seq<Slot>, last: Slot, kind: Kind, key: string)
    ensures Fields(slots + [last], kind, key)
         == Fields(slots, kind, key) + if last.kind == kind then [TextUnder(last.block, key)] else []
    ensures Fields([], kind, key) == []
  {
    var earlier := seq(|slots|, p requires 0 <= p < |slots| =>
      if slots[p].kind == kind then [TextUnder(slots[p].block, key)] else []);
    var piece := if last.kind == kind then [TextUnder(last.block, key)] else [];
    FlattenSnoc(earlier, piece);
    var grown := slots + [last];
    assert seq(|grown|, p requires 0 <= p < |grown| =>
      if grown[p].kind == kind then [TextUnder(grown[p].block, key)] else []) == earlier + [piece];
  }

  /** The blocks that the next request echoes: those of thinking, open or redacted, whole. */
  function Thoughts(slots: seq<Slot>): seq<Value> {
    if slots == [] then []
    else
      var last := slots[|slots| - 1];
      Thoughts(slots[..|slots| - 1])
      + if last.kind in {ThinkingKind, RedactedKind} then [last.block] else []
  }

  lemma {:induction false} FinalBlockTells(codec: Codec, slot: Slot)
    requires KindOf(slot.block) == Some(slot.kind)
    ensures var block := FinalBlock(codec, slot);
            && SaidText(block) == (if slot.kind == TextKind then TextUnder(slot.block, "text") else "")
            && SaidThought(block)
               == (if slot.kind == ThinkingKind && TextUnder(slot.block, "thinking") != "" then
                     [TextUnder(slot.block, "thinking")]
                   else [])
            && Echoed(block) == (if slot.kind in {ThinkingKind, RedactedKind} then [slot.block] else [])
  {
    if slot.kind.ToolKind? {
      FinalBlockKeepsType(codec, slot);
      assert |"input"| != |"type"|;
    }
  }

  lemma {:induction false} PiecesSnoc(parts: seq<string>, last: string)
    ensures Pieces(parts + [last]) == Pieces(parts) + if last == "" then [] else [last]
    ensures Pieces([]) == []
  {
    PiecesAppend(parts, [last]);
    assert [last][1..] == [];
  }

  /** What the finished blocks say is what the slots hold. */
  lemma {:induction false} SlotsSay(codec: Codec, slots: seq<Slot>)
    requires SlotsSound(slots)
    ensures var content := FinalBlocks(codec, slots);
            && Brought(content, SaidText) == Flatten(Fields(slots, TextKind, "text"))
            && Brought(content, SaidThought) == Pieces(Fields(slots, ThinkingKind, "thinking"))
            && Brought(content, Echoed) == Thoughts(slots)
  {
    if slots == [] {
      NoSlotsSay(codec);
    } else {
      var n := |slots| - 1;
      EarlierSound(slots);
      hide *;
      assert slots == slots[..n] + [slots[n]];
      SlotsSay(codec, slots[..n]);
      BlocksSnoc(codec, slots[..n], slots[n]);
      SlotSays(codec, FinalBlocks(codec, slots[..n]), slots[..n], slots[n]);
    }
  }

  lemma {:induction false} NoSlotsSay(codec: Codec)
    ensures FinalBlocks(codec, []) == [] && Thoughts([]) == []
    ensures Brought([], SaidText) == Flatten(Fields([], TextKind, "text"))
    ensures Brought([], SaidThought) == Pieces(Fields([], ThinkingKind, "thinking"))
    ensures Brought([], Echoed) == []
  {
    FieldsSnoc([], Slot(TextKind, 0, Null, ""), TextKind, "text");
    FieldsSnoc([], Slot(TextKind, 0, Null, ""), ThinkingKind, "thinking");
    PiecesSnoc([], "");
    BroughtSnoc([], Null, SaidText);
    BroughtSnoc([], Null, SaidThought);
    BroughtSnoc([], Null, Echoed);
    hide Fields, Brought, Pieces;
    assert Flatten<char>([]) == [];
    assert FinalBlocks(codec, []) == [];
  }

  lemma {:induction false} BlocksSnoc(codec: Codec, earlier: seq<Slot>, last: Slot)
    ensures FinalBlocks(codec, earlier + [last]) == FinalBlocks(codec, earlier) + [FinalBlock(codec, last)]
    ensures Thoughts(earlier + [last])
         == Thoughts(earlier) + if last.kind in {ThinkingKind, RedactedKind} then [last.block] else []
  {
    hide FinalBlock;
    assert (earlier + [last])[..|earlier|] == earlier;
  }

  lemma {:induction false} SlotSays(codec: Codec, content: seq<Value>, earlier: seq<Slot>, last: Slot)
    requires KindOf(last.block) == Some(last.kind)
    ensures var grown, texts, thoughts :=
              content + [FinalBlock(codec, last)], Fields(earlier, TextKind, "text"),
              Fields(earlier, ThinkingKind, "thinking");
            && (Brought(content, SaidText) == Flatten(texts) ==>
                  Brought(grown, SaidText) == Flatten(Fields(earlier + [last], TextKind, "text")))
            && (Brought(content, SaidThought) == Pieces(thoughts) ==>
                  Brought(grown, SaidThought) == Pieces(Fields(earlier + [last], ThinkingKind, "thinking")))
            && Brought(grown, Echoed)
               == Brought(content, Echoed) + if last.kind in {ThinkingKind, RedactedKind} then [last.block] else []
  {
    hide Brought, Fields, SaidText, SaidThought, Echoed, FinalBlock, Pieces, Flatten;
    FinalBlockTells(codec, last);
    BroughtSnoc(content, FinalBlock(codec, last), SaidText);
    BroughtSnoc(content, FinalBlock(codec, last), SaidThought);
    BroughtSnoc(content, FinalBlock(codec, last), Echoed);
    FieldsSnoc(earlier, last, TextKind, "text");
    FieldsSnoc(earlier, last, ThinkingKind, "thinking");
    if last.kind == TextKind {
      FlattenSnoc(Fields(earlier, TextKind, "text"), TextUnder(last.block, "text"));
    }
    if last.kind == ThinkingKind {
      PiecesSnoc(Fields(earlier, ThinkingKind, "thinking"), TextUnder(last.block, "thinking"));
    }
    assert Flatten(Fields(earlier, TextKind, "text")) + "" == Flatten(Fields(earlier, TextKind, "text"));
    assert Fields(earlier, TextKind, "text") + [] == Fields(earlier, TextKind, "text");
    assert Fields(earlier, ThinkingKind, "thinking") + [] == Fields(earlier, ThinkingKind, "thinking");
    assert Brought(content, SaidThought) + [] == Brought(content, SaidThought);
  }

  /** A counter the reply can use: absent or null, or an integer of 64 bits. */
  predicate IsUsable(counter: Option<Value>) {
    counter.None? || counter.value.Null? || (counter.value.Num? && counter.value.number.U64?)
  }

  function CountOf(counter: Option<Value>): nat {
    if counter.Some? && counter.value.Num? && counter.value.number.U64? then counter.value.number.n else 0
  }

  /** The counts of a reply are the counters as they ended. */
  predicate CountsTell(steps: seq<Step>, usage: TokenUsage) {
    var input, output := Counter(steps, "input_tokens"), Counter(steps, "output_tokens");
    var creation, read := Counter(steps, "cache_creation_input_tokens"), Counter(steps, "cache_read_input_tokens");
    var prompt := CountOf(input) + CountOf(creation) + CountOf(read);
    && IsUsable(input) && IsUsable(output) && IsUsable(creation) && IsUsable(read)
    && usage.completionTokens == CountOf(output) && usage.cachedPromptTokens == CountOf(read)
    && usage.cacheCreationPromptTokens == CountOf(creation)
    && usage.promptTokens == (if prompt <= U64_MAX then prompt else U64_MAX)
    && usage.totalTokens
       == (if prompt + CountOf(output) <= U64_MAX then prompt + CountOf(output) else U64_MAX)
  }

  /** Every counter is usable, and the details of the output too. */
  predicate AllUsable(codec: Codec, steps: seq<Step>) {
    var details := Counter(steps, "output_tokens_details");
    && IsUsable(Counter(steps, "input_tokens")) && IsUsable(Counter(steps, "output_tokens"))
    && IsUsable(Counter(steps, "cache_creation_input_tokens"))
    && IsUsable(Counter(steps, "cache_read_input_tokens"))
    && (details.None? || details.value.Null? || codec.outputDetails(details.value).Ok?)
  }

  lemma {:induction false} UsableDecode(codec: Codec, steps: seq<Step>)
    ensures DecodeUsage(codec, CountersAfter(steps)).Ok? <==> AllUsable(codec, steps)
  {
    hide Counter;
  }

  lemma {:induction false} CountersTell(codec: Codec, steps: seq<Step>, usage: MessagesUsage)
    requires DecodeUsage(codec, CountersAfter(steps)) == Ok(usage)
    ensures CountsTell(steps, UsageOf(Some(usage)))
  {
    UsageTells(usage);
    hide Counter, UsageOf;
  }

  /** What a reply holds, by the slots, the last reason to stop and the counters of its stream. */
  predicate ReplyTells(codec: Codec, reply: LlmReply, slots: seq<Slot>, reason: Option<string>, said: string) {
    && reason != Some("refusal") && reply.output == said
    && reply.thinking == Join(Pieces(Fields(slots, ThinkingKind, "thinking")), "\n")
    && reply.replay == Thoughts(slots) && reply.toolCalls == CallsOf(codec, slots)
    && (reply.finishReason.None? <==> reason.None?)
    && (reason.Some? ==> reply.finishReason == Some(FinishReason(reason.value)))
  }

  /**
   The answer of a stream that came to its end: a counter that is no count is an error; a refusal
   has the text that was said; and a reply has the texts and thoughts of its blocks in the order
   they were opened, one call for each tool block, the last reason to stop and the counts.
   */
  lemma {:induction false} AnswerTells(codec: Codec, steps: seq<Step>)
    requires Registered(steps) && AnswerOf(codec, steps) != Err(CUT)
    ensures var answer, slots, reason := AnswerOf(codec, steps), SlotsAfter(steps), LastReason(steps);
            var said := Flatten(Fields(slots, TextKind, "text"));
            && (answer.Err? && answer.error.Parse? <==> !AllUsable(codec, steps))
            && (answer.Ok? <==> AllUsable(codec, steps) && reason != Some("refusal"))
            && (AllUsable(codec, steps) && reason == Some("refusal") ==>
                  answer == Err(Refused(if said == "" then "stop_reason: refusal" else said)))
            && (answer.Ok? ==>
                  ReplyTells(codec, answer.value, slots, reason, said) && CountsTell(steps, answer.value.usage))
  {
    UsableDecode(codec, steps);
    SlotsAreSound(steps);
    SlotsSay(codec, SlotsAfter(steps));
    hide LastReason, DecodeUsage, ReplyOf, CallsOf, SlotsAfter, Fields, Thoughts, Brought, FinishReason, Join;
    hide FinalBlocks, Pieces, Flatten, UsageOf, Registered, SlotsSound, CountersAfter, CountsTell, AllUsable;
    var decoded := DecodeUsage(codec, CountersAfter(steps));
    if decoded.Ok? {
      BodyTells(codec.render, MessageOf(codec, SlotsAfter(steps), LastReason(steps), decoded.value));
      CountersTell(codec, steps, decoded.value);
    }
  }

  /** The arguments of a call are its input when that is no JSON, and else what it stands for, nothing being `{}`. */
  lemma {:induction false} ArgumentsTell(codec: Codec, input: string)
    ensures codec.trim(input) == "" ==> ArgumentsText(codec, input) == codec.render(Object(map[]))
    ensures codec.trim(input) != "" && codec.json(input).Some? ==>
              ArgumentsText(codec, input) == codec.render(codec.json(input).value)
    ensures codec.trim(input) != "" && codec.json(input).None? ==> ArgumentsText(codec, input) == input
  {
  }

  // ----- The events of the wire -----

  /** What a payload does to the stream, by the event it decodes to. */
  lemma {:induction false} FlowTells(codec: Codec, payload: string)
    ensures var text, flow := codec.trim(payload), FlowOf(codec, payload);
            && (text == "" ==> flow == Ok(More) && StepsOf(codec, payload) == [])
            && (text != "" ==>
                  match codec.event(text)
                  case Err(detail) => flow == Err(Parse(detail)) && StepsOf(codec, payload) == []
                  case Ok(event) =>
                    && StepsOf(codec, payload) == EventSteps(event)
                    && (flow == Ok(Done) <==> event.kind == Some("message_stop"))
                    && (flow.Err? <==> event.kind == Some("error"))
                    && (flow.Err? ==> flow.error == ErrorBody(if event.error.Some? then event.error.value else Null)))
  {
    hide EventSteps;
  }

  /** Which events of the wire the assembler keeps, and as what. */
  lemma {:induction false} EventTells(event: StreamEvent)
    ensures var steps := EventSteps(event);
            && (Stopped in steps <==> event.kind == Some("message_stop"))
            && (forall index: nat, kind, block :: Start(index, kind, block) in steps <==>
                  event.kind == Some("content_block_start") && event.index == Some(index)
                  && event.contentBlock == Some(block) && KindOf(block) == Some(kind))
            && (forall index: nat, delta :: DeltaAt(index, delta) in steps <==>
                  event.kind == Some("content_block_delta") && event.index == Some(index)
                  && event.delta == Some(delta))
            && (forall reason :: Reason(reason) in steps <==>
                  event.kind == Some("message_delta") && event.delta.Some?
                  && Holds(event.delta.value, "stop_reason", reason) && reason != "")
            && (forall fields :: UsageReport(fields) in steps <==>
                  || (event.kind == Some("message_delta") && event.usage == Some(Object(fields)))
                  || (event.kind == Some("message_start") && event.message.Some?
                      && Get(event.message.value, "usage") == Some(Object(fields))))
  {
    hide KindOf;
  }

  /** The fragments of a delta: text, thinking and input when there is any, a signature even when empty. */
  lemma {:induction false} FragmentTells(delta: Value, text: string)
    ensures FragmentOf(delta, TextDelta) == Some(text) <==>
              Holds(delta, "type", "text_delta") && Holds(delta, "text", text) && text != ""
    ensures FragmentOf(delta, ThinkingDelta) == Some(text) <==>
              Holds(delta, "type", "thinking_delta") && Holds(delta, "thinking", text) && text != ""
    ensures FragmentOf(delta, InputDelta) == Some(text) <==>
              Holds(delta, "type", "input_json_delta") && Holds(delta, "partial_json", text) && text != ""
    ensures FragmentOf(delta, SignatureDelta) == Some(text) <==>
              Holds(delta, "type", "signature_delta") && Holds(delta, "signature", text)
  {
  }

  // ----- What is shown while a stream arrives -----

  /** The fragment of a step that reaches a block of the kind, if it is one. */
  function Reaching(before: seq<Step>, step: Step, kind: Kind, channel: Channel): string {
    if !step.DeltaAt? then ""
    else
      match Target(Starts(before), step.index)
      case None => ""
      case Some(position) =>
        if Starts(before)[position].kind == kind then OrEmpty(FragmentOf(step.delta, channel)) else ""
  }

  function ReachingAll(steps: seq<Step>, kind: Kind, channel: Channel): string {
    Flatten(seq(|steps|, k requires 0 <= k < |steps| => Reaching(steps[..k], steps[k], kind, channel)))
  }

  lemma {:induction false} ReachingSnoc(steps: seq<Step>, last: Step, kind: Kind, channel: Channel)
    ensures ReachingAll(steps + [last], kind, channel)
         == ReachingAll(steps, kind, channel) + Reaching(steps, last, kind, channel)
    ensures ReachingAll([], kind, channel) == ""
  {
    hide Reaching;
    var grown := steps + [last];
    var earlier := seq(|steps|, k requires 0 <= k < |steps| => Reaching(steps[..k], steps[k], kind, channel));
    assert forall k :: 0 <= k < |steps| ==> grown[..k] == steps[..k] && grown[k] == steps[k];
    assert grown[..|steps|] == steps && grown[|steps|] == last;
    FlattenSnoc(earlier, Reaching(steps, last, kind, channel));
    assert seq(|grown|, k requires 0 <= k < |grown| => Reaching(grown[..k], grown[k], kind, channel))
        == earlier + [Reaching(steps, last, kind, channel)];
  }

  /** The text events of a stream carry the text fragments that reach a text block, in order of arrival. */
  lemma {:induction false} EventsCarryText(steps: seq<Step>)
    ensures TextOf(EventsOf(steps)) == ReachingAll(steps, TextKind, TextDelta)
  {
    hide ReachingAll, StepEvents, TextOf, Reaching;
    if steps == [] {
      ReachingSnoc(steps, Stopped, TextKind, TextDelta);
      NoText();
    } else {
      var n := |steps| - 1;
      EventsCarryText(steps[..n]);
      assert steps == steps[..n] + [steps[n]];
      ReachingSnoc(steps[..n], steps[n], TextKind, TextDelta);
      TextOfAppend(EventsOf(steps[..n]), StepEvents(steps[..n], steps[n]));
      StepText(steps[..n], steps[n]);
    }
  }

  /** The thinking events of a stream carry the thinking fragments that reach a thinking block. */
  lemma {:induction false} EventsCarryThinking(steps: seq<Step>)
    ensures ThoughtOf(EventsOf(steps)) == ReachingAll(steps, ThinkingKind, ThinkingDelta)
  {
    hide ReachingAll, StepEvents, ThoughtOf, Reaching;
    if steps == [] {
      ReachingSnoc(steps, Stopped, ThinkingKind, ThinkingDelta);
      OneThought(Text(""));
    } else {
      var n := |steps| - 1;
      EventsCarryThinking(steps[..n]);
      assert steps == steps[..n] + [steps[n]];
      ReachingSnoc(steps[..n], steps[n], ThinkingKind, ThinkingDelta);
      ThoughtAppend(EventsOf(steps[..n]), StepEvents(steps[..n], steps[n]));
      StepThought(steps[..n], steps[n]);
    }
  }

  lemma {:induction false} StepThought(before: seq<Step>, step: Step)
    ensures ThoughtOf(StepEvents(before, step)) == Reaching(before, step, ThinkingKind, ThinkingDelta)
  {
    hide Starts, Target, CallCount, Routed, FragmentOf, BlockAfter, InputAfter, ThoughtOf;
    var events := StepEvents(before, step);
    OneThought(Text(""));
    if events != [] {
      assert events == [events[0]];
      OneThought(events[0]);
    }
  }

  lemma {:induction false} NoText()
    ensures TextOf([]) == ""
  {
  }

  lemma {:induction false} StepText(before: seq<Step>, step: Step)
    ensures TextOf(StepEvents(before, step)) == Reaching(before, step, TextKind, TextDelta)
  {
    hide Starts, Target, CallCount, Routed, FragmentOf, BlockAfter, InputAfter;
    var events := StepEvents(before, step);
    NoText();
    if events != [] {
      assert events == [events[0]] && events[1..] == [];
      if events[0].Text? {
        assert events[0].fragment + "" == events[0].fragment;
      }
    }
  }

  // ----- Which block a fragment reaches -----

  /** A wire index means the newest block that was opened under it. */
  lemma {:induction false} TargetTells(starts: seq<Opened>, index: nat)
    ensures Target(starts, index).None? <==> forall p :: 0 <= p < |starts| ==> starts[p].index != index
    ensures Target(starts, index).Some? ==>
              var position := Target(starts, index).value;
              && position < |starts| && starts[position].index == index
              && forall p :: position < p < |starts| ==> starts[p].index != index
  {
    if starts != [] {
      var n := |starts| - 1;
      TargetTells(starts[..n], index);
      assert starts == starts[..n] + [starts[n]];
    }
  }

  /** What one step brings to the block at a position. */
  function BroughtBy(before: seq<Step>, step: Step, position: nat, channel: Channel): string {
    if step.DeltaAt? && Target(Starts(before), step.index) == Some(position) then
      OrEmpty(FragmentOf(step.delta, channel))
    else ""
  }

  function BroughtTo(steps: seq<Step>, position: nat, channel: Channel): string {
    Flatten(seq(|steps|, k requires 0 <= k < |steps| => BroughtBy(steps[..k], steps[k], position, channel)))
  }

  lemma {:induction false} BroughtToSnoc(steps: seq<Step>, last: Step, position: nat, channel: Channel)
    ensures BroughtTo(steps + [last], position, channel)
         == BroughtTo(steps, position, channel) + BroughtBy(steps, last, position, channel)
    ensures BroughtTo([], position, channel) == ""
  {
    hide BroughtBy;
    var grown := steps + [last];
    var earlier := seq(|steps|, k requires 0 <= k < |steps| => BroughtBy(steps[..k], steps[k], position, channel));
    assert forall k :: 0 <= k < |steps| ==> grown[..k] == steps[..k] && grown[k] == steps[k];
    assert grown[..|steps|] == steps && grown[|steps|] == last;
    FlattenSnoc(earlier, BroughtBy(steps, last, position, channel));
    assert seq(|grown|, k requires 0 <= k < |grown| => BroughtBy(grown[..k], grown[k], position, channel))
        == earlier + [BroughtBy(steps, last, position, channel)];
  }

  /** The text of a block is what was brought to it, whichever blocks the fragments between were for. */
  lemma {:induction false} GluedIsBrought(steps: seq<Step>, position: nat, channel: Channel)
    ensures OrEmpty(Glued(Routed(steps, position), channel)) == BroughtTo(steps, position, channel)
  {
    hide BroughtTo, FragmentOf, Target, Starts;
    if steps == [] {
      BroughtToSnoc(steps, Stopped, position, channel);
      NothingGlued(channel);
    } else {
      var n := |steps| - 1;
      var before, last := steps[..n], steps[n];
      GluedIsBrought(before, position, channel);
      assert steps == before + [last];
      BroughtToSnoc(before, last, position, channel);
      var routed := Routed(before, position);
      if last.DeltaAt? && Target(Starts(before), last.index) == Some(position) {
        assert Routed(steps, position) == routed + [last.delta];
        GluedOneMore(routed, last.delta, channel);
      } else {
        assert Routed(steps, position) == routed + [] == routed;
      }
      hide Glued, Routed;
    }
  }

  lemma {:induction false} NothingGlued(channel: Channel)
    ensures Glued([], channel) == None
  {
  }

  lemma {:induction false} GluedOneMore(deltas: seq<Value>, delta: Value, channel: Channel)
    ensures OrEmpty(Glued(deltas + [delta], channel))
         == OrEmpty(Glued(deltas, channel)) + OrEmpty(FragmentOf(delta, channel))
  {
    hide FragmentOf;
    assert (deltas + [delta])[..|deltas|] == deltas;
    assert OrEmpty(Glued(deltas, channel)) + "" == OrEmpty(Glued(deltas, channel));
  }

  /**
   What a block holds at the end: its start with the fragments brought to it glued on, and the
   raw input of a tool call with nothing of its start.
   */
  lemma {:induction false} SlotTells(steps: seq<Step>, p: nat)
    requires p < |Starts(steps)| && Starts(steps)[p].block.Object?
    ensures var start, slot := Starts(steps)[p], SlotsAfter(steps)[p];
            && slot.kind == start.kind
            && (start.kind == TextKind ==>
                  TextUnder(slot.block, "text") == TextUnder(start.block, "text") + BroughtTo(steps, p, TextDelta))
            && (start.kind == ThinkingKind ==>
                  TextUnder(slot.block, "thinking")
                  == TextUnder(start.block, "thinking") + BroughtTo(steps, p, ThinkingDelta))
            && (start.kind == ThinkingKind ==>
                  TextUnder(slot.block, "signature")
                  == TextUnder(start.block, "signature") + BroughtTo(steps, p, SignatureDelta))
            && (start.kind == ToolKind ==> slot.block == start.block && slot.input == BroughtTo(steps, p, InputDelta))
            && (start.kind == RedactedKind ==> slot.block == start.block)
  {
    hide Starts, Routed, BroughtTo, Glued;
    GluedIsBrought(steps, p, TextDelta);
    GluedIsBrought(steps, p, ThinkingDelta);
    GluedIsBrought(steps, p, SignatureDelta);
    GluedIsBrought(steps, p, InputDelta);
    var deltas, block := Routed(steps, p), Starts(steps)[p].block;
    BlockTells(block, deltas);
    hide BlockAfter, TextUnder;
  }

  lemma {:induction false} BlockTells(block: Value, deltas: seq<Value>)
    requires block.Object?
    ensures TextUnder(BlockAfter(TextKind, block, deltas), "text")
         == TextUnder(block, "text") + OrEmpty(Glued(deltas, TextDelta))
    ensures TextUnder(BlockAfter(ThinkingKind, block, deltas), "thinking")
         == TextUnder(block, "thinking") + OrEmpty(Glued(deltas, ThinkingDelta))
    ensures TextUnder(BlockAfter(ThinkingKind, block, deltas), "signature")
         == TextUnder(block, "signature") + OrEmpty(Glued(deltas, SignatureDelta))
    ensures BlockAfter(ToolKind, block, deltas) == BlockAfter(RedactedKind, block, deltas) == block
  {
    hide Glued;
    var thought := Extended(block, "thinking", Glued(deltas, ThinkingDelta));
    ExtendedTells(block, "text", Glued(deltas, TextDelta), "text");
    ExtendedTells(block, "thinking", Glued(deltas, ThinkingDelta), "thinking");
    ExtendedTells(block, "thinking", Glued(deltas, ThinkingDelta), "signature");
    ExtendedTells(thought, "signature", Glued(deltas, SignatureDelta), "signature");
    ExtendedTells(thought, "signature", Glued(deltas, SignatureDelta), "thinking");
    assert |"thinking"| != |"signature"|;
    hide Extended, TextUnder;
  }

  lemma {:induction false} ExtendedTells(block: Value, key: string, more: Option<string>, other: string)
    requires block.Object?
    ensures Extended(block, key, more).Object?
    ensures TextUnder(Extended(block, key, more), other)
         == TextUnder(block, other) + if other == key then OrEmpty(more) else ""
  {
    assert TextUnder(block, other) + "" == TextUnder(block, other);
  }
}
