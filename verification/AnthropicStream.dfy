/**
 Messages stream assembly (`src/llm/stream/anthropic.rs`).

 As for the other format, a stream is read as a history of steps and the
 assembler's fields are proved to be projections of it: which block a delta
 reaches, what a block's fields end as, which call an event names, what the
 merged usage holds.
 */
module AnthropicStream {
  import opened Prelude
  import opened Json
  import opened Reply
  import opened MessagesReply

  // ----- The wire -----

  datatype StreamEvent = StreamEvent(
    kind: Option<string>,
    message: Option<Value>,
    index: Option<nat>,
    contentBlock: Option<Value>,
    delta: Option<Value>,
    usage: Option<Value>,
    error: Option<Value>)

  /** The standard library's `trim` and the JSON library, as functions of their input. */
  datatype Codec = Codec(
    trim: string -> string,
    event: string -> Result<StreamEvent, string>,
    json: string -> Option<Value>,
    render: Value -> string,
    outputDetails: Value -> Result<Option<nat>, string>)

  datatype Kind = TextKind | ThinkingKind | RedactedKind | ToolKind

  /** The kinds of block the reply keeps. */
  function KindOf(block: Value): Option<Kind> {
    match StringOf(block, "type")
    case Some("text") => Some(TextKind)
    case Some("thinking") => Some(ThinkingKind)
    case Some("redacted_thinking") => Some(RedactedKind)
    case Some("tool_use") => Some(ToolKind)
    case _ => None
  }

  /** What `feed` answers: it depends on the payload alone. */
  function FlowOf(codec: Codec, payload: string): Result<Flow, GatewayError> {
    var text := codec.trim(payload);
    if text == "" then Ok(More)
    else
      match codec.event(text)
      case Err(detail) => Err(Parse(detail))
      case Ok(event) =>
        if event.kind == Some("message_stop") then Ok(Done)
        else if event.kind == Some("error") then
          Err(ErrorBody(match event.error case Some(error) => error case None => Null))
        else Ok(More)
  }

  // ----- The history of a stream -----

  datatype Step =
    | Start(index: nat, kind: Kind, block: Value)
    | DeltaAt(index: nat, delta: Value)
    | UsageReport(fields: map<string, Value>)
    | Reason(reason: string)
    | Stopped

  function UsageSteps(usage: Option<Value>): seq<Step> {
    match usage
    case Some(Object(fields)) => [UsageReport(fields)]
    case _ => []
  }

  function ReasonSteps(delta: Option<Value>): seq<Step> {
    if delta.None? then []
    else
      match NonEmpty(StringOf(delta.value, "stop_reason"))
      case Some(reason) => [Reason(reason)]
      case None => []
  }

  function StartSteps(event: StreamEvent): seq<Step> {
    if event.index.Some? && event.contentBlock.Some? && KindOf(event.contentBlock.value).Some? then
      [Start(event.index.value, KindOf(event.contentBlock.value).value, event.contentBlock.value)]
    else []
  }

  function DeltaSteps(event: StreamEvent): seq<Step> {
    if event.index.Some? && event.delta.Some? then [DeltaAt(event.index.value, event.delta.value)] else []
  }

  function EventSteps(event: StreamEvent): seq<Step> {
    match event.kind
    case Some("message_start") => if event.message.Some? then UsageSteps(Get(event.message.value, "usage")) else []
    case Some("content_block_start") => StartSteps(event)
    case Some("content_block_delta") => DeltaSteps(event)
    case Some("message_delta") => ReasonSteps(event.delta) + UsageSteps(event.usage)
    case Some("message_stop") => [Stopped]
    case _ => []
  }

  /** What one payload contributes. */
  function StepsOf(codec: Codec, payload: string): seq<Step> {
    var text := codec.trim(payload);
    if text == "" then []
    else match codec.event(text) case Err(_) => [] case Ok(event) => EventSteps(event)
  }

  // ----- Projections of a history -----

  datatype Opened = Opened(index: nat, kind: Kind, block: Value)

  /** The kept blocks as announced, in wire order. */
  function Starts(steps: seq<Step>): seq<Opened> {
    if steps == [] then []
    else
      var before, last := Starts(steps[..|steps| - 1]), steps[|steps| - 1];
      if last.Start? then before + [Opened(last.index, last.kind, last.block)] else before
  }

  /** The block a wire index names: the last one announced under it. */
  function Target(starts: seq<Opened>, index: nat): (position: Option<nat>)
    ensures position.Some? ==> position.value < |starts| && starts[position.value].index == index
  {
    if starts == [] then None
    else if starts[|starts| - 1].index == index then Some(|starts| - 1)
    else Target(starts[..|starts| - 1], index)
  }

  /** The deltas that reach the block at `position`, in order. */
  function Routed(steps: seq<Step>, position: nat): seq<Value> {
    if steps == [] then []
    else
      var before, last := steps[..|steps| - 1], steps[|steps| - 1];
      Routed(before, position)
      + if last.DeltaAt? && Target(Starts(before), last.index) == Some(position) then [last.delta] else []
  }

  /** How many tool calls open among the given blocks. */
  function CallCount(starts: seq<Opened>): nat {
    if starts == [] then 0
    else CallCount(starts[..|starts| - 1]) + if starts[|starts| - 1].kind.ToolKind? then 1 else 0
  }

  datatype Channel = TextDelta | ThinkingDelta | SignatureDelta | InputDelta

  /** The fragment a delta brings on a channel; only a signature may be empty. */
  function FragmentOf(delta: Value, channel: Channel): Option<string> {
    var kind := StringOf(delta, "type");
    match channel
    case TextDelta => if kind == Some("text_delta") then NonEmpty(StringOf(delta, "text")) else None
    case ThinkingDelta => if kind == Some("thinking_delta") then NonEmpty(StringOf(delta, "thinking")) else None
    case SignatureDelta => if kind == Some("signature_delta") then StringOf(delta, "signature") else None
    case InputDelta => if kind == Some("input_json_delta") then NonEmpty(StringOf(delta, "partial_json")) else None
  }

  /** A channel's fragments glued in order; `None` when it brought none. */
  function Glued(deltas: seq<Value>, channel: Channel): Option<string> {
    if deltas == [] then None
    else
      var earlier, fragment := Glued(deltas[..|deltas| - 1], channel), FragmentOf(deltas[|deltas| - 1], channel);
      if fragment.None? then earlier else Some(OrEmpty(earlier) + fragment.value)
  }

  /** A block whose string field `key` is its start value followed by `more`. */
  function Extended(block: Value, key: string, more: Option<string>): Value {
    if block.Object? && more.Some? then
      Object(block.fields[key := Str(OrEmpty(StringOf(block, key)) + more.value)])
    else block
  }

  /** A block after the deltas that reached it. */
  function BlockAfter(kind: Kind, block: Value, deltas: seq<Value>): Value {
    match kind
    case TextKind => Extended(block, "text", Glued(deltas, TextDelta))
    case ThinkingKind =>
      Extended(Extended(block, "thinking", Glued(deltas, ThinkingDelta)), "signature", Glued(deltas, SignatureDelta))
    case RedactedKind => block
    case ToolKind => block
  }

  /** The raw argument text of a tool call. */
  function InputAfter(kind: Kind, deltas: seq<Value>): string {
    if kind.ToolKind? then OrEmpty(Glued(deltas, InputDelta)) else ""
  }

  datatype Slot = Slot(kind: Kind, call: nat, block: Value, input: string)

  function SlotAt(steps: seq<Step>, position: nat): Slot
    requires position < |Starts(steps)|
  {
    var start, deltas := Starts(steps)[position], Routed(steps, position);
    Slot(
      start.kind, CallCount(Starts(steps)[..position]),
      BlockAfter(start.kind, start.block, deltas), InputAfter(start.kind, deltas))
  }

  function SlotsAfter(steps: seq<Step>): (slots: seq<Slot>)
    ensures |slots| == |Starts(steps)|
  {
    seq(|Starts(steps)|, p requires 0 <= p < |Starts(steps)| => SlotAt(steps, p))
  }

  function LastReason(steps: seq<Step>): Option<string> {
    if steps == [] then None
    else if steps[|steps| - 1].Reason? then Some(steps[|steps| - 1].reason)
    else LastReason(steps[..|steps| - 1])
  }

  /** `as_u64().unwrap_or(0)`: a negative, fractional or larger number counts as zero. */
  function OrNought(number: Number): nat {
    match number case U64(n) => n case OtherNumber(_) => 0
  }

  /** Whether a reported value leaves the current one: `null` always, a number no larger than the current. */
  predicate Keeps(current: Option<Value>, value: Value) {
    value.Null? ||
    (current.Some? && current.value.Num? && value.Num? && OrNought(current.value.number) >= OrNought(value.number))
  }

  function Lookup<K(==), V>(entries: map<K, V>, key: K): Option<V> {
    if key in entries then Some(entries[key]) else None
  }

  /** What a counter holds after every report of it. */
  function Counter(steps: seq<Step>, key: string): Option<Value> {
    if steps == [] then None
    else
      var current, last := Counter(steps[..|steps| - 1], key), steps[|steps| - 1];
      if last.UsageReport? && key in last.fields && !Keeps(current, last.fields[key]) then Some(last.fields[key])
      else current
  }

  // ----- The events a history emits -----

  function CallEvent(call: nat, block: Value, fragment: string): LlmEvent {
    ToolArgs(call, StringOf(block, "id"), StringOf(block, "name"), fragment)
  }

  function DeltaEvents(slot: Slot, delta: Value): seq<LlmEvent> {
    match slot.kind
    case TextKind => (match FragmentOf(delta, TextDelta) case Some(s) => [Text(s)] case None => [])
    case ThinkingKind => (match FragmentOf(delta, ThinkingDelta) case Some(s) => [Thinking(s)] case None => [])
    case RedactedKind => []
    case ToolKind =>
      match FragmentOf(delta, InputDelta) case Some(s) => [CallEvent(slot.call, slot.block, s)] case None => []
  }

  function StepEvents(before: seq<Step>, step: Step): seq<LlmEvent> {
    match step
    case Start(_, ToolKind, block) => [CallEvent(CallCount(Starts(before)), block, "")]
    case DeltaAt(index, delta) =>
      var position := Target(Starts(before), index);
      if position.Some? then DeltaEvents(SlotAt(before, position.value), delta) else []
    case _ => []
  }

  function EventsOf(steps: seq<Step>): seq<LlmEvent> {
    if steps == [] then []
    else
      var before := steps[..|steps| - 1];
      EventsOf(before) + StepEvents(before, steps[|steps| - 1])
  }

  // ----- How projections grow -----

  lemma ExtendedTwice(block: Value, key: string, more: Option<string>, fragment: string)
    ensures Extended(Extended(block, key, more), key, Some(fragment)) ==
              Extended(block, key, Some(OrEmpty(more) + fragment))
  {
    if block.Object? && more.Some? {
      ConcatAssociates(OrEmpty(StringOf(block, key)), more.value, fragment);
      assert block.fields[key := Str(OrEmpty(StringOf(block, key)) + more.value)]
           [key := Str(OrEmpty(StringOf(block, key)) + (more.value + fragment))]
          == block.fields[key := Str(OrEmpty(StringOf(block, key)) + (more.value + fragment))];
    } else {
      assert OrEmpty(more) + fragment == fragment || more.Some?;
    }
  }

  lemma ExtendedCommutes(block: Value, a: string, x: Option<string>, b: string, y: Option<string>)
    requires a != b
    ensures Extended(Extended(block, a, x), b, y) == Extended(Extended(block, b, y), a, x)
  {
    if block.Object? && x.Some? && y.Some? {
      var u, v := Str(OrEmpty(StringOf(block, a)) + x.value), Str(OrEmpty(StringOf(block, b)) + y.value);
      assert block.fields[a := u][b := v] == block.fields[b := v][a := u];
    }
  }

  lemma GluedSnoc(deltas: seq<Value>, delta: Value, channel: Channel)
    ensures Glued(deltas + [delta], channel) ==
              if FragmentOf(delta, channel).None? then Glued(deltas, channel)
              else Some(OrEmpty(Glued(deltas, channel)) + FragmentOf(delta, channel).value)
  {
    assert (deltas + [delta])[..|deltas|] == deltas;
  }

  /** One more delta, as the assembler folds it into a slot. */
  function Folded(slot: Slot, delta: Value): Slot {
    match slot.kind
    case TextKind => slot.(block := Extended(slot.block, "text", FragmentOf(delta, TextDelta)))
    case ThinkingKind =>
      slot.(block :=
        Extended(Extended(slot.block, "thinking", FragmentOf(delta, ThinkingDelta)),
                 "signature", FragmentOf(delta, SignatureDelta)))
    case RedactedKind => slot
    case ToolKind => slot.(input := slot.input + OrEmpty(FragmentOf(delta, InputDelta)))
  }

  lemma BlockAfterSnoc(kind: Kind, call: nat, block: Value, deltas: seq<Value>, delta: Value)
    ensures Slot(kind, call, BlockAfter(kind, block, deltas + [delta]), InputAfter(kind, deltas + [delta])) ==
              Folded(Slot(kind, call, BlockAfter(kind, block, deltas), InputAfter(kind, deltas)), delta)
  {
    hide Glued, FragmentOf, Extended;
    match kind {
      case TextKind =>
        GluedSnoc(deltas, delta, TextDelta);
        ExtendStep(block, "text", Glued(deltas, TextDelta), FragmentOf(delta, TextDelta));
      case ThinkingKind =>
        GluedSnoc(deltas, delta, ThinkingDelta);
        GluedSnoc(deltas, delta, SignatureDelta);
        var thought, signed := Glued(deltas, ThinkingDelta), Glued(deltas, SignatureDelta);
        var more, sign := FragmentOf(delta, ThinkingDelta), FragmentOf(delta, SignatureDelta);
        var inner := Extended(block, "thinking", thought);
        ExtendedCommutes(inner, "signature", signed, "thinking", more);
        ExtendStep(block, "thinking", thought, more);
        ExtendStep(Extended(inner, "thinking", more), "signature", signed, sign);
      case RedactedKind =>
      case ToolKind =>
        GluedSnoc(deltas, delta, InputDelta);
        assert InputAfter(kind, deltas) + "" == InputAfter(kind, deltas);
    }
  }

  lemma ExtendStep(block: Value, key: string, more: Option<string>, fragment: Option<string>)
    ensures Extended(Extended(block, key, more), key, fragment) ==
              Extended(block, key, if fragment.None? then more else Some(OrEmpty(more) + fragment.value))
  {
    if fragment.Some? {
      ExtendedTwice(block, key, more, fragment.value);
    }
  }

  lemma StepSplits(steps: seq<Step>, step: Step)
    ensures (steps + [step])[..|steps + [step]| - 1] == steps && (steps + [step])[|steps|] == step
  {
  }

  /** No delta reaches a block before it opens. */
  lemma {:induction false} UnopenedUntouched(steps: seq<Step>, position: nat)
    requires |Starts(steps)| <= position
    ensures Routed(steps, position) == []
  {
    if steps != [] {
      UnopenedUntouched(steps[..|steps| - 1], position);
    }
  }

  lemma StartGrows(steps: seq<Step>, start: Step)
    requires start.Start?
    ensures SlotsAfter(steps + [start]) ==
              SlotsAfter(steps) + [Slot(start.kind, CallCount(Starts(steps)), start.block, "")]
  {
    var longer, added := steps + [start], Opened(start.index, start.kind, start.block);
    StepSplits(steps, start);
    assert Starts(longer) == Starts(steps) + [added];
    UnopenedUntouched(steps, |Starts(steps)|);
    forall p | 0 <= p < |Starts(longer)|
      ensures Routed(longer, p) == Routed(steps, p)
      ensures p < |Starts(steps)| ==> Starts(longer)[..p] == Starts(steps)[..p]
    {
      assert Routed(steps, p) + [] == Routed(steps, p);
    }
    assert Starts(longer)[..|Starts(steps)|] == Starts(steps);
    NoDeltas(start.kind, start.block);
  }

  lemma NoDeltas(kind: Kind, block: Value)
    ensures BlockAfter(kind, block, []) == block && InputAfter(kind, []) == ""
  {
  }

  lemma DeltaGrows(steps: seq<Step>, index: nat, delta: Value)
    ensures var target := Target(Starts(steps), index);
            SlotsAfter(steps + [DeltaAt(index, delta)]) ==
              if target.None? then SlotsAfter(steps)
              else SlotsAfter(steps)[target.value := Folded(SlotsAfter(steps)[target.value], delta)]
  {
    hide BlockAfter, InputAfter, Folded, CallCount, Target;
    var step := DeltaAt(index, delta);
    var longer := steps + [step];
    StepSplits(steps, step);
    assert Starts(longer) == Starts(steps);
    forall p | 0 <= p < |Starts(steps)|
      ensures SlotAt(longer, p) ==
                if Target(Starts(steps), index) == Some(p) then Folded(SlotAt(steps, p), delta) else SlotAt(steps, p)
    {
      var at := Starts(steps)[p];
      assert Routed(steps, p) + [] == Routed(steps, p);
      BlockAfterSnoc(at.kind, CallCount(Starts(steps)[..p]), at.block, Routed(steps, p), delta);
    }
  }

  lemma OtherGrows(steps: seq<Step>, step: Step)
    requires !step.Start? && !step.DeltaAt?
    ensures Starts(steps + [step]) == Starts(steps)
    ensures SlotsAfter(steps + [step]) == SlotsAfter(steps)
    ensures EventsOf(steps + [step]) == EventsOf(steps)
  {
    var longer := steps + [step];
    StepSplits(steps, step);
    assert EventsOf(steps) + [] == EventsOf(steps);
    forall p | 0 <= p < |Starts(steps)|
      ensures SlotAt(longer, p) == SlotAt(steps, p)
    {
      assert Routed(steps, p) + [] == Routed(steps, p);
    }
  }

  predicate Registered(steps: seq<Step>) {
    forall k :: 0 <= k < |steps| && steps[k].Start? ==> KindOf(steps[k].block) == Some(steps[k].kind)
  }

  lemma MarksGrow(steps: seq<Step>, step: Step)
    ensures LastReason(steps + [step]) == if step.Reason? then Some(step.reason) else LastReason(steps)
    ensures Stopped in steps + [step] <==> Stopped in steps || step == Stopped
    ensures forall key :: Counter(steps + [step], key) ==
              if step.UsageReport? && key in step.fields && !Keeps(Counter(steps, key), step.fields[key]) then
                Some(step.fields[key])
              else Counter(steps, key)
    ensures Registered(steps) && (step.Start? ==> KindOf(step.block) == Some(step.kind)) ==> Registered(steps + [step])
  {
    StepSplits(steps, step);
  }

  // ----- The message and the answer a history stands for -----

  /** The `input` of a tool call: an empty object when no argument text came or it is not JSON. */
  function InputValue(codec: Codec, input: string): Value {
    if codec.trim(input) == "" then Object(map[])
    else match codec.json(input) case Some(value) => value case None => Object(map[])
  }

  predicate IsRaw(codec: Codec, input: string) {
    codec.trim(input) != "" && codec.json(input).None?
  }

  function WithInput(block: Value, input: Value): Value {
    if block.Object? then Object(block.fields["input" := input]) else block
  }

  function FinalBlock(codec: Codec, slot: Slot): Value {
    if slot.kind.ToolKind? then WithInput(slot.block, InputValue(codec, slot.input)) else slot.block
  }

  function FinalBlocks(codec: Codec, slots: seq<Slot>): seq<Value> {
    seq(|slots|, p requires 0 <= p < |slots| => FinalBlock(codec, slots[p]))
  }

  /** A requested call's arguments: its input rendered, or the raw text when that is not JSON. */
  function ArgumentsText(codec: Codec, input: string): string {
    if IsRaw(codec, input) then input else codec.render(InputValue(codec, input))
  }

  /** The tool calls of a reply: one per tool block, in block order. */
  function CallsOf(codec: Codec, slots: seq<Slot>): seq<RequestedToolCall> {
    if slots == [] then []
    else
      var last := slots[|slots| - 1];
      CallsOf(codec, slots[..|slots| - 1])
      + if last.kind.ToolKind? then
          [RequestedToolCall(
            OrEmpty(StringOf(last.block, "id")), OrEmpty(StringOf(last.block, "name")),
            ArgumentsText(codec, last.input))]
        else []
  }

  /** What the usage object holds under the keys the reply reads. */
  datatype Counters = Counters(
    input: Option<Value>,
    output: Option<Value>,
    creation: Option<Value>,
    read: Option<Value>,
    details: Option<Value>)

  function CountersAfter(steps: seq<Step>): Counters {
    Counters(
      Counter(steps, "input_tokens"), Counter(steps, "output_tokens"),
      Counter(steps, "cache_creation_input_tokens"), Counter(steps, "cache_read_input_tokens"),
      Counter(steps, "output_tokens_details"))
  }

  /** A counter as the single-body decoder reads it: absent or `null` is 0, anything but a `u64` an error. */
  function DecodeCounter(counter: Option<Value>): Result<nat, string> {
    if counter.None? || counter.value.Null? then Ok(0)
    else if counter.value.Num? && counter.value.number.U64? then Ok(counter.value.number.n)
    else Err("invalid type: expected u64")
  }

  function DecodeUsage(codec: Codec, c: Counters): Result<MessagesUsage, string> {
    var input, output, creation, read :=
      DecodeCounter(c.input), DecodeCounter(c.output), DecodeCounter(c.creation), DecodeCounter(c.read);
    var details := if c.details.None? || c.details.value.Null? then Ok(None) else codec.outputDetails(c.details.value);
    if input.Err? then Err(input.error)
    else if output.Err? then Err(output.error)
    else if creation.Err? then Err(creation.error)
    else if read.Err? then Err(read.error)
    else if details.Err? then Err(details.error)
    else Ok(MessagesUsage(input.value, output.value, creation.value, read.value, details.value))
  }

  const CUT := Transport("stream ended before message_stop or a stop_reason (cut mid-body)")

  /** The single body the slots and marks of a stream stand for. */
  function MessageOf(codec: Codec, slots: seq<Slot>, reason: Option<string>, usage: MessagesUsage): MessagesResponse {
    MessagesResponse(Some("message"), FinalBlocks(codec, slots), reason, Some(usage), None)
  }

  /** The single-body parser's answer with the raw argument texts put back; a cut stream has none. */
  function AnswerOf(codec: Codec, steps: seq<Step>): Result<LlmReply, GatewayError> {
    if LastReason(steps).None? && Stopped !in steps then Err(CUT)
    else
      match DecodeUsage(codec, CountersAfter(steps))
      case Err(detail) => Err(Parse(detail))
      case Ok(decoded) =>
        match ReplyOf(codec.render, MessageOf(codec, SlotsAfter(steps), LastReason(steps), decoded))
        case Err(error) => Err(error)
        case Ok(reply) => Ok(reply.(toolCalls := CallsOf(codec, SlotsAfter(steps))))
  }

  // ----- Putting raw texts back -----

  /** A slot's block still has the type its kind was read from, and its call number counts the calls before it. */
  predicate SlotsSound(slots: seq<Slot>) {
    forall p :: 0 <= p < |slots| ==>
      && KindOf(slots[p].block) == Some(slots[p].kind)
      && slots[p].call == ToolCount(slots[..p])
  }

  function ToolCount(slots: seq<Slot>): nat {
    if slots == [] then 0 else ToolCount(slots[..|slots| - 1]) + if slots[|slots| - 1].kind.ToolKind? then 1 else 0
  }

  function RawInputs(codec: Codec, slots: seq<Slot>): seq<(nat, string)> {
    if slots == [] then []
    else
      var last := slots[|slots| - 1];
      RawInputs(codec, slots[..|slots| - 1])
      + if last.kind.ToolKind? && IsRaw(codec, last.input) then [(last.call, last.input)] else []
  }

  function Patch(calls: seq<RequestedToolCall>, raw: (nat, string)): seq<RequestedToolCall> {
    if raw.0 < |calls| then calls[raw.0 := calls[raw.0].(arguments := raw.1)] else calls
  }

  function PatchAll(calls: seq<RequestedToolCall>, raws: seq<(nat, string)>): seq<RequestedToolCall> {
    if raws == [] then calls else Patch(PatchAll(calls, raws[..|raws| - 1]), raws[|raws| - 1])
  }

  lemma PatchBefore(calls: seq<RequestedToolCall>, more: seq<RequestedToolCall>, raw: (nat, string))
    requires raw.0 < |calls|
    ensures |Patch(calls, raw)| == |calls| && Patch(calls + more, raw) == Patch(calls, raw) + more
  {
  }

  lemma {:induction false} PatchAllBefore(
    calls: seq<RequestedToolCall>, more: seq<RequestedToolCall>, raws: seq<(nat, string)>)
    requires forall k :: 0 <= k < |raws| ==> raws[k].0 < |calls|
    ensures |PatchAll(calls, raws)| == |calls|
    ensures PatchAll(calls + more, raws) == PatchAll(calls, raws) + more
  {
    hide Patch;
    if raws != [] {
      var n := |raws| - 1;
      PatchAllBefore(calls, more, raws[..n]);
      PatchBefore(PatchAll(calls, raws[..n]), more, raws[n]);
    }
  }

  lemma {:induction false} RawInputsBounded(codec: Codec, slots: seq<Slot>)
    requires SlotsSound(slots)
    ensures forall k :: 0 <= k < |RawInputs(codec, slots)| ==> RawInputs(codec, slots)[k].0 < ToolCount(slots)
  {
    if slots != [] {
      var earlier := slots[..|slots| - 1];
      EarlierSound(slots);
      RawInputsBounded(codec, earlier);
    }
  }

  lemma EarlierSound(slots: seq<Slot>)
    requires slots != [] && SlotsSound(slots)
    ensures SlotsSound(slots[..|slots| - 1])
    ensures var last := slots[|slots| - 1];
            KindOf(last.block) == Some(last.kind) && last.call == ToolCount(slots[..|slots| - 1])
  {
    hide KindOf, ToolCount;
    var earlier := slots[..|slots| - 1];
    forall p | 0 <= p < |earlier|
      ensures earlier[..p] == slots[..p] && earlier[p] == slots[p]
    {
    }
  }

  lemma FinalBlockKeepsType(codec: Codec, slot: Slot)
    requires KindOf(slot.block) == Some(slot.kind)
    ensures KindOf(FinalBlock(codec, slot)) == Some(slot.kind)
    ensures BlockCalls(codec.render, FinalBlock(codec, slot)) ==
              if slot.kind.ToolKind? then
                [RequestedToolCall(
                  OrEmpty(StringOf(slot.block, "id")), OrEmpty(StringOf(slot.block, "name")),
                  codec.render(InputValue(codec, slot.input)))]
              else []
  {
    assert StringOf(FinalBlock(codec, slot), "type") == StringOf(slot.block, "type");
    assert IsBlock(FinalBlock(codec, slot), "tool_use") <==> slot.kind.ToolKind?;
  }

  /** What the last slot adds to each list made of the slots. */
  lemma {:induction false} SlotSnoc(codec: Codec, earlier: seq<Slot>, last: Slot)
    ensures Gather(codec.render, FinalBlocks(codec, earlier + [last])).calls
         == Gather(codec.render, FinalBlocks(codec, earlier)).calls + BlockCalls(codec.render, FinalBlock(codec, last))
    ensures ToolCount(earlier + [last]) == ToolCount(earlier) + if last.kind.ToolKind? then 1 else 0
    ensures RawInputs(codec, earlier + [last])
         == RawInputs(codec, earlier)
            + if last.kind.ToolKind? && IsRaw(codec, last.input) then [(last.call, last.input)] else []
    ensures CallsOf(codec, earlier + [last])
         == CallsOf(codec, earlier)
            + if last.kind.ToolKind? then
                [RequestedToolCall(
                  OrEmpty(StringOf(last.block, "id")), OrEmpty(StringOf(last.block, "name")),
                  ArgumentsText(codec, last.input))]
              else []
  {
    hide BlockCalls, FinalBlock, ArgumentsText, IsRaw, StringOf, BlockText, BlockThinking, BlockReplay;
    var slots := earlier + [last];
    assert slots[..|earlier|] == earlier && slots[|earlier|] == last;
    var blocks := FinalBlocks(codec, slots);
    assert blocks[..|earlier|] == FinalBlocks(codec, earlier) && blocks[|earlier|] == FinalBlock(codec, last);
  }

  lemma NoSlots(codec: Codec)
    ensures Gather(codec.render, FinalBlocks(codec, [])).calls == [] && ToolCount([]) == 0
    ensures RawInputs(codec, []) == [] && CallsOf(codec, []) == [] && PatchAll([], []) == []
  {
    assert FinalBlocks(codec, []) == [];
  }

  /** Patching by call number turns the parser's calls into the reply's: each raw text lands on its own call. */
  lemma {:induction false} PatchesLand(codec: Codec, slots: seq<Slot>)
    requires SlotsSound(slots)
    ensures |Gather(codec.render, FinalBlocks(codec, slots)).calls| == ToolCount(slots)
    ensures PatchAll(Gather(codec.render, FinalBlocks(codec, slots)).calls, RawInputs(codec, slots)) ==
              CallsOf(codec, slots)
  {
    if slots == [] {
      NoSlots(codec);
    } else {
      var earlier, last := slots[..|slots| - 1], slots[|slots| - 1];
      EarlierSound(slots);
      hide *;
      assert slots == earlier + [last];
      SlotSnoc(codec, earlier, last);
      PatchesLand(codec, earlier);
      RawInputsBounded(codec, earlier);
      var calls, raws := Gather(codec.render, FinalBlocks(codec, earlier)).calls, RawInputs(codec, earlier);
      var more := BlockCalls(codec.render, FinalBlock(codec, last));
      FinalBlockKeepsType(codec, last);
      PatchAllBefore(calls, more, raws);
      LastPatch(codec, calls, raws, last);
    }
  }

  lemma LastPatch(codec: Codec, calls: seq<RequestedToolCall>, raws: seq<(nat, string)>, last: Slot)
    requires KindOf(last.block) == Some(last.kind)
    requires last.call == |calls| == |PatchAll(calls, raws)|
    requires var more := BlockCalls(codec.render, FinalBlock(codec, last));
             PatchAll(calls + more, raws) == PatchAll(calls, raws) + more
    ensures var more := BlockCalls(codec.render, FinalBlock(codec, last));
            var raw := if last.kind.ToolKind? && IsRaw(codec, last.input) then [(last.call, last.input)] else [];
            PatchAll(calls + more, raws + raw) == PatchAll(calls, raws)
              + if last.kind.ToolKind? then
                  [RequestedToolCall(
                    OrEmpty(StringOf(last.block, "id")), OrEmpty(StringOf(last.block, "name")),
                    ArgumentsText(codec, last.input))]
                else []
  {
    hide InputValue, KindOf, StringOf;
    FinalBlockKeepsType(codec, last);
    var more := BlockCalls(codec.render, FinalBlock(codec, last));
    if last.kind.ToolKind? && IsRaw(codec, last.input) {
      assert (raws + [(last.call, last.input)])[..|raws|] == raws;
    } else {
      assert raws + [] == raws;
    }
  }

  // ----- Slots stay sound -----

  lemma ExtendedKeepsType(block: Value, key: string, more: Option<string>)
    requires key != "type"
    ensures KindOf(Extended(block, key, more)) == KindOf(block)
    ensures key != "id" ==> StringOf(Extended(block, key, more), "id") == StringOf(block, "id")
  {
  }

  lemma {:induction false} StartsRegistered(steps: seq<Step>, p: nat)
    requires Registered(steps) && p < |Starts(steps)|
    ensures KindOf(Starts(steps)[p].block) == Some(Starts(steps)[p].kind)
  {
    var before := steps[..|steps| - 1];
    if p < |Starts(before)| {
      StartsRegistered(before, p);
    }
  }

  lemma {:induction false} CountsAgree(steps: seq<Step>, n: nat)
    requires n <= |Starts(steps)|
    ensures CallCount(Starts(steps)[..n]) == ToolCount(SlotsAfter(steps)[..n])
  {
    hide BlockAfter, InputAfter, Routed;
    if n > 0 {
      assert SlotsAfter(steps)[n - 1].kind == Starts(steps)[n - 1].kind;
      CountsAgree(steps, n - 1);
      assert Starts(steps)[..n][..n - 1] == Starts(steps)[..n - 1];
      assert SlotsAfter(steps)[..n][..n - 1] == SlotsAfter(steps)[..n - 1];
    }
  }

  lemma SlotsAreSound(steps: seq<Step>)
    requires Registered(steps)
    ensures SlotsSound(SlotsAfter(steps))
  {
    var slots := SlotsAfter(steps);
    forall p | 0 <= p < |slots|
      ensures KindOf(slots[p].block) == Some(slots[p].kind) && slots[p].call == ToolCount(slots[..p])
    {
      hide KindOf, Extended, Glued, Routed;
      StartsRegistered(steps, p);
      CountsAgree(steps, p);
      var start, deltas := Starts(steps)[p], Routed(steps, p);
      ExtendedKeepsType(start.block, "text", Glued(deltas, TextDelta));
      var thought := Extended(start.block, "thinking", Glued(deltas, ThinkingDelta));
      ExtendedKeepsType(start.block, "thinking", Glued(deltas, ThinkingDelta));
      ExtendedKeepsType(thought, "signature", Glued(deltas, SignatureDelta));
    }
  }

  // ----- The assembler -----

  class Assembler {
    const codec: Codec
    var slots: seq<Slot>
    var byIndex: map<nat, nat>
    var calls: nat
    var stopReason: Option<string>
    var usage: map<string, Value>
    var stopped: bool
    /** Everything kept so far. */
    ghost var steps: seq<Step>

    ghost predicate BlocksHold()
      reads this
    {
      && slots == SlotsAfter(steps)
      && (forall i :: Lookup(byIndex, i) == Target(Starts(steps), i))
      && calls == CallCount(Starts(steps))
    }

    ghost predicate MarksHold()
      reads this
    {
      && stopReason == LastReason(steps)
      && stopped == (Stopped in steps)
      && forall key :: Lookup(usage, key) == Counter(steps, key)
    }

    ghost predicate Valid()
      reads this
    {
      Registered(steps) && BlocksHold() && MarksHold()
    }

    constructor (codec: Codec)
      ensures Valid() && steps == [] && this.codec == codec
    {
      this.codec := codec;
      slots, byIndex, calls, stopReason, usage, stopped, steps := [], map[], 0, None, map[], false, [];
    }

    method Feed(payload: string) returns (flow: Result<Flow, GatewayError>, events: seq<LlmEvent>)
      requires Valid()
      modifies this
      ensures Valid() && steps == old(steps) + StepsOf(codec, payload)
      ensures flow == FlowOf(codec, payload)
      ensures EventsOf(steps) == EventsOf(old(steps)) + events
    {
      hide Valid, EventsOf, UsageSteps, ReasonSteps, KindOf;
      events := [];
      flow := Ok(More);
      var text := codec.trim(payload);
      if text == "" {
        return;
      }
      var decoded := codec.event(text);
      if decoded.Err? {
        return Err(Parse(decoded.error)), [];
      }
      var event := decoded.value;
      match event.kind {
        case Some("message_start") =>
          if event.message.Some? {
            MergeUsage(Get(event.message.value, "usage"));
          }
        case Some("content_block_start") =>
          if event.index.Some? && event.contentBlock.Some? {
            events := StartBlock(event.index.value, event.contentBlock.value);
          }
        case Some("content_block_delta") =>
          if event.index.Some? && event.delta.Some? {
            events := ApplyDelta(event.index.value, event.delta.value);
          }
        case Some("message_delta") =>
          ConcatAssociates(steps, ReasonSteps(event.delta), UsageSteps(event.usage));
          TakeReason(event.delta);
          MergeUsage(event.usage);
        case Some("message_stop") =>
          Stop();
          flow := Ok(Done);
        case Some("error") =>
          flow := Err(ErrorBody(match event.error case Some(error) => error case None => Null));
        case _ =>
      }
    }

    method Stop()
      requires Valid()
      modifies this`stopped, this`steps
      ensures Valid() && steps == old(steps) + [Stopped] && EventsOf(steps) == EventsOf(old(steps))
    {
      hide Registered, SlotsAfter, EventsOf, Starts, LastReason, Counter;
      OtherGrows(steps, Stopped);
      MarksGrow(steps, Stopped);
      stopped, steps := true, steps + [Stopped];
    }

    method TakeReason(delta: Option<Value>)
      requires Valid()
      modifies this`stopReason, this`steps
      ensures Valid() && steps == old(steps) + ReasonSteps(delta) && EventsOf(steps) == EventsOf(old(steps))
    {
      hide Registered, SlotsAfter, EventsOf, Starts, LastReason, Counter;
      if delta.Some? {
        var reason := StringOf(delta.value, "stop_reason");
        if reason.Some? && reason.value != "" {
          OtherGrows(steps, Reason(reason.value));
          MarksGrow(steps, Reason(reason.value));
          stopReason, steps := reason, steps + [Reason(reason.value)];
        }
      }
    }

    /** Fold a usage report in: only a larger number replaces a number, one outside 64 bits counting as zero. */
    method MergeUsage(report: Option<Value>)
      requires Valid()
      modifies this`usage, this`steps
      ensures Valid() && steps == old(steps) + UsageSteps(report) && EventsOf(steps) == EventsOf(old(steps))
    {
      hide Registered, SlotsAfter, EventsOf, Starts, LastReason, Counter;
      if report.None? || !report.value.Object? {
        return;
      }
      var fields := report.value.fields;
      var todo := fields.Keys;
      while todo != {}
        invariant todo <= fields.Keys
        invariant forall key :: Lookup(usage, key) ==
                    var current := Lookup(old(usage), key);
                    if key in fields && key !in todo && !Keeps(current, fields[key]) then Some(fields[key]) else current
        invariant steps == old(steps)
        decreases |todo|
      {
        var key :| key in todo;
        if !Keeps(Lookup(usage, key), fields[key]) {
          usage := usage[key := fields[key]];
        }
        todo := todo - {key};
      }
      OtherGrows(steps, UsageReport(fields));
      MarksGrow(steps, UsageReport(fields));
      steps := steps + [UsageReport(fields)];
    }

    method StartBlock(index: nat, block: Value) returns (events: seq<LlmEvent>)
      requires Valid()
      modifies this`slots, this`byIndex, this`calls, this`steps
      ensures Valid()
      ensures steps == old(steps) + if KindOf(block).Some? then [Start(index, KindOf(block).value, block)] else []
      ensures EventsOf(steps) == EventsOf(old(steps)) + events
    {
      hide Registered, SlotsAfter, KindOf, LastReason, Counter, Starts, Target, CallCount, EventsOf, Lookup;
      events := [];
      if KindOf(block).None? {
        return;
      }
      var kind := KindOf(block).value;
      var call := calls;
      ghost var start := Start(index, kind, block);
      StartGrows(steps, start);
      StartNumbers(steps, start, byIndex);
      MarksGrow(steps, start);
      if kind.ToolKind? {
        calls := calls + 1;
        events := [CallEvent(call, block, "")];
      }
      byIndex := byIndex[index := |slots|];
      slots := slots + [Slot(kind, call, block, "")];
      steps := steps + [start];
    }

    method ApplyDelta(index: nat, delta: Value) returns (events: seq<LlmEvent>)
      requires Valid()
      modifies this`slots, this`steps
      ensures Valid() && steps == old(steps) + [DeltaAt(index, delta)]
      ensures EventsOf(steps) == EventsOf(old(steps)) + events
    {
      hide Registered, KindOf, LastReason, Counter, CallCount, SlotAt, FragmentOf;
      events := [];
      ghost var step := DeltaAt(index, delta);
      DeltaGrows(steps, index, delta);
      MarksGrow(steps, step);
      StepSplits(steps, step);
      steps := steps + [step];
      assert Lookup(byIndex, index) == Target(Starts(old(steps)), index);
      if index in byIndex {
        var slot := slots[byIndex[index]];
        slot, events := Fold(slot, delta);
        slots := slots[byIndex[index] := slot];
      }
    }

    /** Fold one delta into its slot; a delta of another kind than the block's is dropped. */
    method Fold(slot: Slot, delta: Value) returns (folded: Slot, events: seq<LlmEvent>)
      ensures folded == Folded(slot, delta)
      ensures events == DeltaEvents(slot, delta)
    {
      folded, events := slot, [];
      match (StringOf(delta, "type"), slot.kind) {
        case (Some("text_delta"), TextKind) =>
          var text := NonEmpty(StringOf(delta, "text"));
          if text.Some? {
            folded := slot.(block := Extended(slot.block, "text", text));
            events := [Text(text.value)];
          }
        case (Some("thinking_delta"), ThinkingKind) =>
          var text := NonEmpty(StringOf(delta, "thinking"));
          if text.Some? {
            folded := slot.(block := Extended(slot.block, "thinking", text));
            events := [Thinking(text.value)];
          }
        case (Some("signature_delta"), ThinkingKind) =>
          folded := slot.(block := Extended(slot.block, "signature", StringOf(delta, "signature")));
        case (Some("input_json_delta"), ToolKind) =>
          var fragment := NonEmpty(StringOf(delta, "partial_json"));
          if fragment.Some? {
            folded := slot.(input := slot.input + fragment.value);
            events := [CallEvent(slot.call, slot.block, fragment.value)];
          }
        case _ =>
      }
      assert slot.input + "" == slot.input;
    }

    method Finish() returns (r: Result<LlmReply, GatewayError>)
      requires Valid()
      ensures r == AnswerOf(codec, steps)
    {
      hide SlotsAfter, Counter, LastReason, Starts, Registered,
        FinalBlocks, RawInputs, Gather, DecodeUsage, CallsOf, PatchAll, SlotsSound;
      if stopReason.None? && !stopped {
        return Err(CUT);
      }
      var content, raws := Collect();
      var counters := Counters(
        Lookup(usage, "input_tokens"), Lookup(usage, "output_tokens"),
        Lookup(usage, "cache_creation_input_tokens"), Lookup(usage, "cache_read_input_tokens"),
        Lookup(usage, "output_tokens_details"));
      assert counters == CountersAfter(steps);
      var decoded := DecodeUsage(codec, counters);
      if decoded.Err? {
        return Err(Parse(decoded.error));
      }
      var message := MessagesResponse(Some("message"), content, stopReason, Some(decoded.value), None);
      var parsed := ParseResponse(codec.render, message);
      if parsed.Err? {
        return parsed;
      }
      SlotsAreSound(steps);
      PatchesLand(codec, slots);
      var toolCalls := PatchRaws(parsed.value.toolCalls, raws);
      r := Ok(parsed.value.(toolCalls := toolCalls));
    }

    static method PatchRaws(calls: seq<RequestedToolCall>, raws: seq<(nat, string)>)
      returns (patched: seq<RequestedToolCall>)
      ensures patched == PatchAll(calls, raws)
    {
      patched := calls;
      for i := 0 to |raws|
        invariant patched == PatchAll(calls, raws[..i])
      {
        assert raws[..i + 1][..i] == raws[..i];
        if raws[i].0 < |patched| {
          patched := patched[raws[i].0 := patched[raws[i].0].(arguments := raws[i].1)];
        }
      }
      assert raws[..|raws|] == raws;
    }

    /** The final content blocks, and the argument texts that are not JSON with the call each belongs to. */
    method Collect() returns (content: seq<Value>, raws: seq<(nat, string)>)
      ensures content == FinalBlocks(codec, slots)
      ensures raws == RawInputs(codec, slots)
    {
      content, raws := [], [];
      for p := 0 to |slots|
        invariant content == FinalBlocks(codec, slots[..p])
        invariant raws == RawInputs(codec, slots[..p])
      {
        assert slots[..p + 1][..p] == slots[..p];
        var slot := slots[p];
        var block := slot.block;
        if slot.kind.ToolKind? {
          var input;
          if codec.trim(slot.input) == "" {
            input := Object(map[]);
          } else if codec.json(slot.input).Some? {
            input := codec.json(slot.input).value;
          } else {
            raws := raws + [(slot.call, slot.input)];
            input := Object(map[]);
          }
          block := WithInput(block, input);
        }
        content := content + [block];
      }
      assert slots[..|slots|] == slots;
    }
  }

  /** The index, the call number and the event of a block that opens. */
  lemma StartNumbers(steps: seq<Step>, start: Step, byIndex: map<nat, nat>)
    requires start.Start?
    requires forall i :: Lookup(byIndex, i) == Target(Starts(steps), i)
    ensures forall i :: Lookup(byIndex[start.index := |Starts(steps)|], i) == Target(Starts(steps + [start]), i)
    ensures CallCount(Starts(steps + [start])) == CallCount(Starts(steps)) + if start.kind.ToolKind? then 1 else 0
    ensures EventsOf(steps + [start]) == EventsOf(steps)
              + if start.kind.ToolKind? then [CallEvent(CallCount(Starts(steps)), start.block, "")] else []
  {
    var opening := Opened(start.index, start.kind, start.block);
    StepSplits(steps, start);
    assert (Starts(steps) + [opening])[..|Starts(steps)|] == Starts(steps);
    forall i: nat
      ensures Lookup(byIndex[start.index := |Starts(steps)|], i) == Target(Starts(steps + [start]), i)
    {
      TargetSnoc(Starts(steps), opening, i);
      assert Lookup(byIndex, i) == Target(Starts(steps), i);
    }
  }

  lemma TargetSnoc(starts: seq<Opened>, opening: Opened, index: nat)
    ensures Target(starts + [opening], index)
       == if opening.index == index then Some(|starts|) else Target(starts, index)
  {
    var longer := starts + [opening];
    assert longer[..|longer| - 1] == starts;
    assert longer[|longer| - 1] == opening;
  }

  // ----- What the reply and the events say -----

  /** The string a block ends with under `key`: its start value followed by its fragments. */
  lemma FieldsFollowFragments(block: Value, deltas: seq<Value>)
    requires block.Object?
    ensures Glued(deltas, TextDelta).Some? ==>
              StringOf(BlockAfter(TextKind, block, deltas), "text") ==
                Some(OrEmpty(StringOf(block, "text")) + Glued(deltas, TextDelta).value)
    ensures Glued(deltas, ThinkingDelta).Some? ==>
              StringOf(BlockAfter(ThinkingKind, block, deltas), "thinking") ==
                Some(OrEmpty(StringOf(block, "thinking")) + Glued(deltas, ThinkingDelta).value)
    ensures Glued(deltas, SignatureDelta).Some? ==>
              StringOf(BlockAfter(ThinkingKind, block, deltas), "signature") ==
                Some(OrEmpty(StringOf(block, "signature")) + Glued(deltas, SignatureDelta).value)
    ensures forall kind, key :: key !in {"text", "thinking", "signature"} ==>
              Get(BlockAfter(kind, block, deltas), key) == Get(block, key)
  {
    hide Glued;
  }

  function ToolSlots(slots: seq<Slot>): seq<Slot> {
    if slots == [] then []
    else
      var last := slots[|slots| - 1];
      ToolSlots(slots[..|slots| - 1]) + if last.kind.ToolKind? then [last] else []
  }

  function RequestOf(codec: Codec, slot: Slot): RequestedToolCall {
    RequestedToolCall(
      OrEmpty(StringOf(slot.block, "id")), OrEmpty(StringOf(slot.block, "name")), ArgumentsText(codec, slot.input))
  }

  lemma {:induction false} CallsAreToolSlots(codec: Codec, slots: seq<Slot>)
    ensures |CallsOf(codec, slots)| == |ToolSlots(slots)|
    ensures forall k :: 0 <= k < |ToolSlots(slots)| ==>
              CallsOf(codec, slots)[k] == RequestOf(codec, ToolSlots(slots)[k])
  {
    if slots != [] {
      CallsAreToolSlots(codec, slots[..|slots| - 1]);
    }
  }

  lemma {:induction false} ToolSlotsCounted(slots: seq<Slot>)
    ensures |ToolSlots(slots)| == ToolCount(slots)
  {
    if slots != [] {
      ToolSlotsCounted(slots[..|slots| - 1]);
    }
  }

  /** Splitting the slots splits the tool slots. */
  lemma {:induction false} ToolSlotsSplit(a: seq<Slot>, b: seq<Slot>)
    ensures ToolSlots(a + b) == ToolSlots(a) + ToolSlots(b)
  {
    if b == [] {
      assert a + b == a;
    } else {
      var earlier := b[..|b| - 1];
      assert (a + b)[..|a + b| - 1] == a + earlier;
      ToolSlotsSplit(a, earlier);
    }
  }

  lemma ToolSlotsAround(before: seq<Slot>, slot: Slot, after: seq<Slot>)
    ensures ToolSlots(before + [slot] + after) ==
              ToolSlots(before) + (if slot.kind.ToolKind? then [slot] else []) + ToolSlots(after)
  {
    hide ToolSlots;
    ToolSlotsSplit(before, [slot]);
    ToolSlotsSplit(before + [slot], after);
    OneToolSlot(slot);
  }

  /** A tool slot's call number is its position among the tool slots, and replacing the slot replaces that one. */
  lemma ToolSlotAtItsCall(slots: seq<Slot>, p: nat, with: Slot)
    requires p < |slots| && slots[p].call == ToolCount(slots[..p]) && with.kind == slots[p].kind
    ensures slots[p].kind.ToolKind? ==>
              && slots[p].call < |ToolSlots(slots)|
              && ToolSlots(slots)[slots[p].call] == slots[p]
              && ToolSlots(slots[p := with]) == ToolSlots(slots)[slots[p].call := with]
    ensures !slots[p].kind.ToolKind? ==> ToolSlots(slots[p := with]) == ToolSlots(slots)
  {
    hide ToolSlots, ToolCount;
    var before, after := slots[..p], slots[p + 1..];
    ToolSlotsCounted(before);
    ToolSlotsAround(before, slots[p], after);
    ToolSlotsAround(before, with, after);
    assert slots == before + [slots[p]] + after;
    assert slots[p := with] == before + [with] + after;
  }

  lemma OneToolSlot(slot: Slot)
    ensures ToolSlots([slot]) == if slot.kind.ToolKind? then [slot] else []
  {
    assert ToolSlots([slot][..0]) == [];
  }

  /** What an argument event says of its call: the position in the reply, the id and the name. */
  predicate PointsAtCall(event: LlmEvent, calls: seq<Slot>) {
    event.ToolArgs? ==>
      && event.index < |calls|
      && event.id == StringOf(calls[event.index].block, "id")
      && event.name == StringOf(calls[event.index].block, "name")
  }

  /** An event of one slot points at that slot's place among the calls, and folding the delta keeps ids and names. */
  lemma DeltaPoints(slots: seq<Slot>, p: nat, delta: Value)
    requires SlotsSound(slots) && p < |slots|
    ensures forall event :: event in DeltaEvents(slots[p], delta) ==> PointsAtCall(event, ToolSlots(slots))
    ensures |ToolSlots(slots[p := Folded(slots[p], delta)])| == |ToolSlots(slots)|
    ensures forall k :: 0 <= k < |ToolSlots(slots)| ==>
              ToolSlots(slots[p := Folded(slots[p], delta)])[k].block == ToolSlots(slots)[k].block
  {
    hide ToolSlots, ToolCount, FragmentOf, KindOf;
    ToolSlotAtItsCall(slots, p, Folded(slots[p], delta));
  }

  lemma StartPoints(slots: seq<Slot>, started: Slot)
    requires started.call == ToolCount(slots)
    ensures ToolSlots(slots + [started]) == ToolSlots(slots) + if started.kind.ToolKind? then [started] else []
    ensures started.kind.ToolKind? ==>
              PointsAtCall(CallEvent(started.call, started.block, ""), ToolSlots(slots + [started]))
  {
    hide ToolSlots, ToolCount;
    ToolSlotsSplit(slots, [started]);
    OneToolSlot(started);
    ToolSlotsCounted(slots);
  }

  lemma PointsStillAtCall(event: LlmEvent, calls: seq<Slot>, later: seq<Slot>)
    requires PointsAtCall(event, calls) && |calls| <= |later|
    requires forall k :: 0 <= k < |calls| ==> later[k].block == calls[k].block
    ensures PointsAtCall(event, later)
  {
  }

  /**
   Whatever the wire block indices, every argument event names the position its call has in
   the reply, with the id and the name the reply gives that call.
   */
  lemma {:induction false} EventsPointAtCalls(steps: seq<Step>)
    requires Registered(steps)
    ensures forall event :: event in EventsOf(steps) ==> PointsAtCall(event, ToolSlots(SlotsAfter(steps)))
  {
    if steps != [] {
      hide ToolSlots, ToolCount, SlotsAfter, Starts, CallCount, Folded, DeltaEvents,
        Registered, PointsAtCall, SlotsSound, SlotAt, Target;
      var before, last := steps[..|steps| - 1], steps[|steps| - 1];
      assert steps == before + [last];
      RegisteredBefore(before, last);
      EventsPointAtCalls(before);
      StepPoints(before, last);
      var earlier, later := ToolSlots(SlotsAfter(before)), ToolSlots(SlotsAfter(steps));
      forall event | event in EventsOf(steps)
        ensures PointsAtCall(event, later)
      {
        if event in EventsOf(before) {
          PointsStillAtCall(event, earlier, later);
        } else {
          assert event in StepEvents(before, last);
        }
      }
    }
  }

  lemma RegisteredBefore(before: seq<Step>, last: Step)
    requires Registered(before + [last])
    ensures Registered(before)
  {
    var steps := before + [last];
    assert forall k :: 0 <= k < |before| ==> before[k] == steps[k];
  }

  lemma StepPoints(before: seq<Step>, last: Step)
    requires Registered(before + [last])
    ensures var earlier, later := ToolSlots(SlotsAfter(before)), ToolSlots(SlotsAfter(before + [last]));
            && |earlier| <= |later|
            && (forall k :: 0 <= k < |earlier| ==> later[k].block == earlier[k].block)
            && forall event :: event in StepEvents(before, last) ==> PointsAtCall(event, later)
  {
    hide ToolSlots, ToolCount, SlotsAfter, Starts, CallCount, Folded, DeltaEvents, Registered, SlotsSound, Target;
    RegisteredBefore(before, last);
    SlotsAreSound(before);
    var slots := SlotsAfter(before);
    if last.Start? {
      StartGrows(before, last);
      CountsAgreeAll(before);
      StartPoints(slots, Slot(last.kind, CallCount(Starts(before)), last.block, ""));
    } else if last.DeltaAt? {
      DeltaGrows(before, last.index, last.delta);
      var target := Target(Starts(before), last.index);
      if target.Some? {
        SlotsListed(before, target.value);
        DeltaPoints(slots, target.value, last.delta);
      }
    } else {
      OtherGrows(before, last);
    }
  }

  lemma CountsAgreeAll(steps: seq<Step>)
    ensures CallCount(Starts(steps)) == ToolCount(SlotsAfter(steps))
  {
    CountsAgree(steps, |Starts(steps)|);
    assert Starts(steps)[..|Starts(steps)|] == Starts(steps);
    assert SlotsAfter(steps)[..|Starts(steps)|] == SlotsAfter(steps);
  }

  lemma SlotsListed(steps: seq<Step>, p: nat)
    requires p < |Starts(steps)|
    ensures SlotsAfter(steps)[p] == SlotAt(steps, p)
  {
  }

  /** The raw argument text of the call at position `k`, empty when there is none. */
  function InputOf(calls: seq<Slot>, k: nat): string {
    if k < |calls| then calls[k].input else ""
  }

  lemma DeltaArguments(slots: seq<Slot>, p: nat, delta: Value, k: nat)
    requires SlotsSound(slots) && p < |slots|
    ensures InputOf(ToolSlots(slots[p := Folded(slots[p], delta)]), k) ==
              InputOf(ToolSlots(slots), k) + ArgsOf(DeltaEvents(slots[p], delta), k)
  {
    hide ToolSlots, ToolCount, FragmentOf, KindOf;
    ToolSlotAtItsCall(slots, p, Folded(slots[p], delta));
    OneEventArgs(DeltaEvents(slots[p], delta), k);
    assert InputOf(ToolSlots(slots), k) + "" == InputOf(ToolSlots(slots), k);
  }

  lemma OneEventArgs(events: seq<LlmEvent>, k: nat)
    requires |events| <= 1
    ensures ArgsOf(events, k) ==
              if events != [] && events[0].ToolArgs? && events[0].index == k then events[0].fragment else ""
  {
    if events != [] {
      assert events[1..] == [];
      assert (if events[0].ToolArgs? && events[0].index == k then events[0].fragment else "") + ""
          == if events[0].ToolArgs? && events[0].index == k then events[0].fragment else "";
    }
  }

  lemma StepArguments(before: seq<Step>, last: Step, k: nat)
    requires Registered(before + [last])
    ensures InputOf(ToolSlots(SlotsAfter(before + [last])), k) ==
              InputOf(ToolSlots(SlotsAfter(before)), k) + ArgsOf(StepEvents(before, last), k)
  {
    hide ToolSlots, ToolCount, SlotsAfter, Starts, CallCount, Folded, DeltaEvents, Registered,
      SlotsSound, Target, ArgsOf;
    RegisteredBefore(before, last);
    SlotsAreSound(before);
    var slots := SlotsAfter(before);
    var events := StepEvents(before, last);
    assert InputOf(ToolSlots(slots), k) + "" == InputOf(ToolSlots(slots), k);
    if last.Start? {
      StartGrows(before, last);
      CountsAgreeAll(before);
      StartPoints(slots, Slot(last.kind, CallCount(Starts(before)), last.block, ""));
      OneEventArgs(events, k);
    } else if last.DeltaAt? {
      DeltaGrows(before, last.index, last.delta);
      var target := Target(Starts(before), last.index);
      if target.Some? {
        SlotsListed(before, target.value);
        DeltaArguments(slots, target.value, last.delta, k);
      } else {
        OneEventArgs(events, k);
      }
    } else {
      OtherGrows(before, last);
      OneEventArgs(events, k);
    }
  }

  /** The argument events that name a position carry exactly the raw text of the call there. */
  lemma {:induction false} EventsCarryArguments(steps: seq<Step>, k: nat)
    requires Registered(steps)
    ensures ArgsOf(EventsOf(steps), k) == InputOf(ToolSlots(SlotsAfter(steps)), k)
  {
    if steps == [] {
      assert SlotsAfter(steps) == [];
    } else {
      hide ToolSlots, SlotsAfter, Registered, InputOf, ArgsOf, StepEvents;
      var before, last := steps[..|steps| - 1], steps[|steps| - 1];
      assert steps == before + [last];
      RegisteredBefore(before, last);
      EventsCarryArguments(before, k);
      StepArguments(before, last, k);
      ArgsOfAppend(EventsOf(before), StepEvents(before, last), k);
    }
  }

  // ----- The usage counters -----

  /**
   The largest number reported under `key` since the last report that was neither a number nor
   `null`, as the code reads numbers.
   */
  function LargestReport(steps: seq<Step>, key: string): Option<nat> {
    if steps == [] then None
    else
      var earlier, last := LargestReport(steps[..|steps| - 1], key), steps[|steps| - 1];
      if !last.UsageReport? || key !in last.fields || last.fields[key].Null? then earlier
      else if last.fields[key].Num? then
        var n := OrNought(last.fields[key].number);
        if earlier.None? then Some(n) else Some(Max(earlier.value, n))
      else None
  }

  /** A counter that ends as a number is the largest one since any report of another type, and itself when not zero. */
  lemma {:induction false} CounterIsLargest(steps: seq<Step>, key: string)
    ensures LargestReport(steps, key).Some? <==> IsCount(Counter(steps, key))
    ensures LargestReport(steps, key).Some? ==>
              var n := LargestReport(steps, key).value;
              && OrNought(Counter(steps, key).value.number) == n
              && (n > 0 ==> Counter(steps, key) == Some(Num(U64(n))))
  {
    if steps != [] {
      CounterIsLargest(steps[..|steps| - 1], key);
    }
  }

  predicate IsCount(counter: Option<Value>) {
    counter.Some? && counter.value.Num?
  }

  /** What a number is worth; `sizes` reads the text of one that is not an integer of 64 bits. */
  function Size(sizes: string -> real, number: Number): real {
    match number case U64(n) => n as real case OtherNumber(text) => sizes(text)
  }

  /** The number a step reports under `key`, if it reports one. */
  function Reported(step: Step, key: string): Option<Number> {
    if step.UsageReport? && key in step.fields && step.fields[key].Num? then Some(step.fields[key].number) else None
  }

  /** A report that is neither a number nor `null`. */
  predicate Resets(step: Step, key: string) {
    step.UsageReport? && key in step.fields && !step.fields[key].Null? && !step.fields[key].Num?
  }

  /** A count of 64 bits below the fractional or larger number that is held: it replaces it all the same. */
  predicate Shrinks(sizes: string -> real, held: Number, reported: Number) {
    held.OtherNumber? && reported.U64? && 0 < reported.n && reported.n as real < sizes(held.text)
  }

  /** A number that is larger than the one held and is dropped: it is outside 64 bits, or zero over a negative one. */
  predicate Missed(sizes: string -> real, held: Number, reported: Number) {
    (reported.OtherNumber? || (held.OtherNumber? && reported.n == 0)) && Size(sizes, held) < Size(sizes, reported)
  }

  /**
   When a step leaves a number a number that is no smaller: exactly when it is not a report of
   another type and does not put a smaller count in place of a number outside 64 bits. So a
   count of 64 bits stays one and does not fall, exactly when no report of another type comes.
   */
  lemma CountNeverFalls(sizes: string -> real, steps: seq<Step>, step: Step, key: string)
    requires IsCount(Counter(steps, key))
    ensures var before, after := Counter(steps, key), Counter(steps + [step], key);
            && (IsCount(after) && Size(sizes, after.value.number) >= Size(sizes, before.value.number) <==>
                  && !Resets(step, key)
                  && !(Reported(step, key).Some? && Shrinks(sizes, before.value.number, Reported(step, key).value)))
            && (before.value.number.U64? ==>
                  (IsCount(after) && after.value.number.U64? && after.value.number.n >= before.value.number.n
                   <==> !Resets(step, key)))
  {
    CounterSnoc(steps, step, key);
    hide Counter;
  }

  lemma CounterSnoc(steps: seq<Step>, step: Step, key: string)
    ensures var before := Counter(steps, key);
            Counter(steps + [step], key)
            == if step.UsageReport? && key in step.fields && !Keeps(before, step.fields[key]) then
                 Some(step.fields[key])
               else before
  {
    assert (steps + [step])[..|steps|] == steps;
  }

  /** The size of the largest number ever reported under `key`. */
  function LargestEver(sizes: string -> real, steps: seq<Step>, key: string): Option<real> {
    if steps == [] then None
    else
      var earlier, reported := LargestEver(sizes, steps[..|steps| - 1], key), Reported(steps[|steps| - 1], key);
      if reported.None? then earlier
      else
        var size := Size(sizes, reported.value);
        if earlier.Some? && size <= earlier.value then earlier else Some(size)
  }

  /** Once a number was reported the counter is the largest one reported so far. */
  predicate HoldsLargest(sizes: string -> real, steps: seq<Step>, key: string) {
    var largest, counter := LargestEver(sizes, steps, key), Counter(steps, key);
    largest.Some? ==> IsCount(counter) && Size(sizes, counter.value.number) == largest.value
  }

  /** Whether a step, after a number was reported, resets the counter or orders it wrongly against its own number. */
  predicate Misleads(sizes: string -> real, steps: seq<Step>, step: Step, key: string) {
    var counter, reported := Counter(steps, key), Reported(step, key);
    || (Resets(step, key) && LargestEver(sizes, steps, key).Some?)
    || (reported.Some? && IsCount(counter)
        && (Shrinks(sizes, counter.value.number, reported.value)
            || Missed(sizes, counter.value.number, reported.value)))
  }

  lemma {:induction false} CountsAreReported(sizes: string -> real, steps: seq<Step>, key: string)
    ensures IsCount(Counter(steps, key)) ==> LargestEver(sizes, steps, key).Some?
  {
    if steps != [] {
      CountsAreReported(sizes, steps[..|steps| - 1], key);
    }
  }

  lemma LargestSnoc(sizes: string -> real, steps: seq<Step>, step: Step, key: string)
    ensures var earlier, reported := LargestEver(sizes, steps, key), Reported(step, key);
            LargestEver(sizes, steps + [step], key)
            == if reported.None? then earlier
               else if earlier.Some? && Size(sizes, reported.value) <= earlier.value then earlier
               else Some(Size(sizes, reported.value))
  {
    assert (steps + [step])[..|steps|] == steps;
  }

  /** One step keeps the counter the largest exactly when it does not mislead. */
  lemma LargestStep(sizes: string -> real, steps: seq<Step>, step: Step, key: string)
    requires HoldsLargest(sizes, steps, key)
    ensures HoldsLargest(sizes, steps + [step], key) <==> !Misleads(sizes, steps, step, key)
  {
    CountsAreReported(sizes, steps, key);
    CounterSnoc(steps, step, key);
    LargestSnoc(sizes, steps, step, key);
    hide Counter, LargestEver;
  }

  /** At every moment of the stream the counter is the largest number reported so far. */
  predicate AlwaysLargest(sizes: string -> real, steps: seq<Step>, key: string) {
    forall i :: 0 <= i <= |steps| ==> HoldsLargest(sizes, steps[..i], key)
  }

  predicate NeverMisled(sizes: string -> real, steps: seq<Step>, key: string) {
    forall k :: 0 <= k < |steps| ==> !Misleads(sizes, steps[..k], steps[k], key)
  }

  lemma AlwaysSnoc(sizes: string -> real, steps: seq<Step>, step: Step, key: string)
    ensures AlwaysLargest(sizes, steps + [step], key) <==>
              AlwaysLargest(sizes, steps, key) && HoldsLargest(sizes, steps + [step], key)
    ensures AlwaysLargest(sizes, steps, key) ==> HoldsLargest(sizes, steps, key)
  {
    hide HoldsLargest;
    var grown := steps + [step];
    assert forall i :: 0 <= i <= |steps| ==> grown[..i] == steps[..i];
    assert grown[..|grown|] == grown && steps[..|steps|] == steps;
  }

  lemma NeverSnoc(sizes: string -> real, steps: seq<Step>, step: Step, key: string)
    ensures NeverMisled(sizes, steps + [step], key) <==>
              NeverMisled(sizes, steps, key) && !Misleads(sizes, steps, step, key)
  {
    hide Misleads;
    var grown := steps + [step];
    assert forall k :: 0 <= k < |steps| ==> grown[..k] == steps[..k] && grown[k] == steps[k];
    assert grown[..|steps|] == steps && grown[|steps|] == step;
  }

  /**
   At every moment of a stream the counter is the largest number reported so far, exactly when
   no step misleads: resets a counter that had a number, puts a smaller count in place of a
   number outside 64 bits, or brings a larger number that is dropped.
   */
  lemma {:induction false} CounterIsLargestEver(sizes: string -> real, steps: seq<Step>, key: string)
    ensures AlwaysLargest(sizes, steps, key) <==> NeverMisled(sizes, steps, key)
  {
    if steps == [] {
      assert steps[..0] == [] && HoldsLargest(sizes, [], key);
    } else {
      hide *;
      var before, last := steps[..|steps| - 1], steps[|steps| - 1];
      assert steps == before + [last];
      CounterIsLargestEver(sizes, before, key);
      AlwaysSnoc(sizes, before, last, key);
      NeverSnoc(sizes, before, last, key);
      if AlwaysLargest(sizes, before, key) {
        LargestStep(sizes, before, last, key);
      }
    }
  }

  function ReportOf(key: string, value: Value): Step {
    UsageReport(map[key := value])
  }

  /** One report, then another: the counter, and the largest of the two numbers. */
  lemma TwoReports(sizes: string -> real, first: Value, second: Value, key: string)
    ensures var one, two := [ReportOf(key, first)], [ReportOf(key, first), ReportOf(key, second)];
            && (!first.Null? ==> Counter(one, key) == Some(first))
            && Counter(two, key) == (if Keeps(Counter(one, key), second) then Counter(one, key) else Some(second))
            && (first.Num? && second.Num? ==>
                  var x, y := Size(sizes, first.number), Size(sizes, second.number);
                  LargestEver(sizes, two, key) == Some(if y <= x then x else y))
            && (first.Num? && !second.Num? ==> LargestEver(sizes, two, key) == Some(Size(sizes, first.number)))
  {
    var a, b := ReportOf(key, first), ReportOf(key, second);
    assert [] + [a] == [a] && [a] + [b] == [a, b];
    CounterSnoc([], a, key);
    CounterSnoc([a], b, key);
    LargestSnoc(sizes, [], a, key);
    LargestSnoc(sizes, [a], b, key);
  }

  /** Two streams of numbers alone that break it: 1000.0 then 1 leaves 1, and -3 then 0 leaves -3. */
  lemma OtherNumbersMislead(sizes: string -> real, key: string)
    requires sizes("1000.0") == 1000.0 && sizes("-3") == -3.0
    ensures var falls := [ReportOf(key, Num(OtherNumber("1000.0"))), ReportOf(key, Num(U64(1)))];
            && Counter(falls, key) == Some(Num(U64(1))) && LargestEver(sizes, falls, key) == Some(1000.0)
    ensures var stays := [ReportOf(key, Num(OtherNumber("-3"))), ReportOf(key, Num(U64(0)))];
            && Counter(stays, key) == Some(Num(OtherNumber("-3"))) && LargestEver(sizes, stays, key) == Some(0.0)
  {
    TwoReports(sizes, Num(OtherNumber("1000.0")), Num(U64(1)), key);
    TwoReports(sizes, Num(OtherNumber("-3")), Num(U64(0)), key);
    hide Counter, LargestEver;
  }

  /** A stream that resets: 5, a string, then 1. The counter ends at 1, the largest report is 5. */
  lemma StringForgetsCount(sizes: string -> real, key: string)
    ensures var reports := [ReportOf(key, Num(U64(5))), ReportOf(key, Str("?")), ReportOf(key, Num(U64(1)))];
            && Counter(reports, key) == Some(Num(U64(1))) && LargestEver(sizes, reports, key) == Some(5.0)
            && Misleads(sizes, reports[..1], reports[1], key)
  {
    var five, text, one := ReportOf(key, Num(U64(5))), ReportOf(key, Str("?")), ReportOf(key, Num(U64(1)));
    TwoReports(sizes, Num(U64(5)), Str("?"), key);
    assert [five, text] + [one] == [five, text, one] && [five, text, one][..1] == [] + [five];
    CounterSnoc([five, text], one, key);
    LargestSnoc(sizes, [five, text], one, key);
    LargestSnoc(sizes, [], five, key);
    hide Counter, LargestEver;
  }

  /**
   A stream of usage reports and end markers opens no block, gives no reason and counts
   nothing it does not report.
   */
  lemma {:induction false} OnlyReports(steps: seq<Step>, key: string)
    requires forall k :: 0 <= k < |steps| ==> steps[k].UsageReport? || steps[k].Stopped?
    ensures Starts(steps) == [] && LastReason(steps).None?
    ensures (forall k :: 0 <= k < |steps| && steps[k].UsageReport? ==> key !in steps[k].fields) ==>
              Counter(steps, key).None?
  {
    if steps != [] {
      OnlyReports(steps[..|steps| - 1], key);
    }
  }

  lemma StopCountsNothing(sizes: string -> real, steps: seq<Step>, key: string)
    ensures Counter(steps + [Stopped], key) == Counter(steps, key)
    ensures LargestEver(sizes, steps + [Stopped], key) == LargestEver(sizes, steps, key)
  {
    assert (steps + [Stopped])[..|steps|] == steps;
  }

  /** And it reaches the reply: such a stream ends in one that counts 1 completion token. */
  lemma ReplyForgetsCount(codec: Codec, sizes: string -> real)
    ensures var key := "output_tokens";
            var steps :=
              [ReportOf(key, Num(U64(5))), ReportOf(key, Str("?")), ReportOf(key, Num(U64(1)))] + [Stopped];
            && LargestEver(sizes, steps, key) == Some(5.0)
            && AnswerOf(codec, steps).Ok? && AnswerOf(codec, steps).value.usage.completionTokens == 1
  {
    var key := "output_tokens";
    var reports := [ReportOf(key, Num(U64(5))), ReportOf(key, Str("?")), ReportOf(key, Num(U64(1)))];
    var steps := reports + [Stopped];
    StringForgetsCount(sizes, key);
    StopCountsNothing(sizes, reports, key);
    assert steps[3] == Stopped;
    OtherCountersEmpty(steps);
    hide Counter, Starts, LastReason, LargestEver, SlotAt, Gather, Misleads, DecodeUsage, ReplyOf;
    OnlyOutput(codec);
    ReplyCounts(codec, SlotsAfter(steps), MessagesUsage(0, 1, 0, 0, None));
  }

  lemma OtherCountersEmpty(steps: seq<Step>)
    requires forall k :: 0 <= k < |steps| ==>
               steps[k].Stopped? || (steps[k].UsageReport? && steps[k].fields.Keys == {"output_tokens"})
    ensures LastReason(steps).None?
    ensures Counter(steps, "input_tokens").None? && Counter(steps, "cache_creation_input_tokens").None?
    ensures Counter(steps, "cache_read_input_tokens").None? && Counter(steps, "output_tokens_details").None?
  {
    assert |"input_tokens"| != |"output_tokens"| && |"cache_creation_input_tokens"| != |"output_tokens"|;
    assert |"cache_read_input_tokens"| != |"output_tokens"| && |"output_tokens_details"| != |"output_tokens"|;
    OnlyReports(steps, "input_tokens");
    OnlyReports(steps, "cache_creation_input_tokens");
    OnlyReports(steps, "cache_read_input_tokens");
    OnlyReports(steps, "output_tokens_details");
    hide Counter, LastReason, Starts;
  }

  lemma OnlyOutput(codec: Codec)
    ensures DecodeUsage(codec, Counters(None, Some(Num(U64(1))), None, None, None))
         == Ok(MessagesUsage(0, 1, 0, 0, None))
  {
  }

  lemma ReplyCounts(codec: Codec, slots: seq<Slot>, usage: MessagesUsage)
    ensures var reply := ReplyOf(codec.render, MessageOf(codec, slots, None, usage));
            reply.Ok? && reply.value.usage.completionTokens == usage.outputTokens
  {
    hide Gather, FinalBlocks;
    assert |"message"| != |"error"|;
  }
}
