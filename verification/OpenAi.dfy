/**
 Chat Completions chunk assembly (`src/llm/stream/openai.rs`).

 A stream is read as a history of steps, one per fragment the assembler keeps;
 every part of the reply is a projection of that history. The assembler's
 fields are proved to be those projections, and its result to be what the
 single-body parser gives for the body the projections form.
 */
module OpenAi {
  import opened Prelude
  import opened Json
  import opened Reply
  import opened Response

  // ----- The wire -----

  datatype DeltaToolCall = DeltaToolCall(index: Option<nat>, id: Option<string>, function_: Option<ToolFunction>)

  datatype Delta = Delta(
    content: Option<string>,
    refusal: Option<string>,
    reasoningContent: Option<string>,
    reasoning: Option<string>,
    reasoningDetails: seq<Option<string>>,
    toolCalls: seq<DeltaToolCall>)

  datatype ChunkChoice = ChunkChoice(index: Option<nat>, delta: Delta, finishReason: Option<string>)

  datatype Chunk = Chunk(choices: seq<ChunkChoice>, usage: Option<ResponseUsage>, error: Option<Value>)

  /** The standard library's `trim` and the JSON decoder, as functions of their input. */
  datatype Codec = Codec(trim: string -> string, chunk: string -> Result<Chunk, string>)

  const DONE_MARKER := "[DONE]"

  /** What `feed` answers: it depends on the payload alone. */
  function FlowOf(codec: Codec, payload: string): Result<Flow, GatewayError> {
    var text := codec.trim(payload);
    if text == "" then Ok(More)
    else if text == DONE_MARKER then Ok(Done)
    else
      match codec.chunk(text)
      case Err(detail) => Err(Parse(detail))
      case Ok(chunk) =>
        if chunk.error.Some? && chunk.error.value != Null then Err(ErrorBody(chunk.error.value)) else Ok(More)
  }

  // ----- The history of a stream -----

  /** One thing the assembler keeps: a delta of choice 0, a usage report, the end marker. */
  datatype Step = DeltaSeen(choice: ChunkChoice) | UsageSeen(usage: ResponseUsage) | DoneSeen

  /** The deltas of choice 0; every other choice is ignored. */
  function ChoiceSteps(choices: seq<ChunkChoice>): seq<Step> {
    if choices == [] then []
    else
      var last := choices[|choices| - 1];
      ChoiceSteps(choices[..|choices| - 1])
      + if last.index == None || last.index == Some(0) then [DeltaSeen(last)] else []
  }

  lemma NoChoices()
    ensures ChoiceSteps([]) == []
  {
  }

  lemma {:induction false} ChoiceSnoc(choices: seq<ChunkChoice>, last: ChunkChoice)
    ensures ChoiceSteps(choices + [last])
         == ChoiceSteps(choices) + if last.index == None || last.index == Some(0) then [DeltaSeen(last)] else []
  {
    assert (choices + [last])[..|choices|] == choices;
  }

  /** What one payload contributes, in the order the assembler meets it. */
  function StepsOf(codec: Codec, payload: string): seq<Step> {
    var text := codec.trim(payload);
    match FlowOf(codec, payload)
    case Err(_) => []
    case Ok(Done) => [DoneSeen]
    case Ok(More) =>
      if text == "" then []
      else
        var chunk := codec.chunk(text).value;
        (if chunk.usage.Some? then [UsageSeen(chunk.usage.value)] else []) + ChoiceSteps(chunk.choices)
  }

  // ----- Projections of a history -----

  /** The five text fields of a delta. */
  datatype Field = Content | Refusal | ReasoningContent | Reasoning | Details

  function TextIn(delta: Delta, field: Field): string {
    match field
    case Content => OrEmpty(delta.content)
    case Refusal => OrEmpty(delta.refusal)
    case ReasoningContent => OrEmpty(delta.reasoningContent)
    case Reasoning => OrEmpty(delta.reasoning)
    case Details => GlueDetails(delta.reasoningDetails)
  }

  function GlueDetails(details: seq<Option<string>>): string {
    if details == [] then "" else GlueDetails(details[..|details| - 1]) + OrEmpty(details[|details| - 1])
  }

  /** The fragments of one field, glued in order. */
  function Glue(steps: seq<Step>, field: Field): string {
    if steps == [] then ""
    else
      var last := steps[|steps| - 1];
      Glue(steps[..|steps| - 1], field) + if last.DeltaSeen? then TextIn(last.choice.delta, field) else ""
  }

  /** The last non-empty finish reason. */
  function FinishReason(steps: seq<Step>): Option<string> {
    if steps == [] then None
    else
      var last := steps[|steps| - 1];
      if last.DeltaSeen? && NonEmpty(last.choice.finishReason).Some? then last.choice.finishReason
      else FinishReason(steps[..|steps| - 1])
  }

  function LastUsage(steps: seq<Step>): Option<ResponseUsage> {
    if steps == [] then None
    else
      var last := steps[|steps| - 1];
      if last.UsageSeen? then Some(last.usage) else LastUsage(steps[..|steps| - 1])
  }

  predicate SawChoice(steps: seq<Step>) {
    exists i :: 0 <= i < |steps| && steps[i].DeltaSeen?
  }

  /** Every call fragment, in order of arrival. */
  function CallsIn(steps: seq<Step>): seq<DeltaToolCall> {
    if steps == [] then []
    else
      var last := steps[|steps| - 1];
      CallsIn(steps[..|steps| - 1]) + if last.DeltaSeen? then last.choice.delta.toolCalls else []
  }

  /** A call fragment with the call it belongs to. */
  datatype Placed = Placed(index: nat, call: DeltaToolCall)

  function CallName(call: DeltaToolCall): Option<string> {
    match call.function_ case Some(f) => NonEmpty(f.name) case None => None
  }

  function CallArguments(call: DeltaToolCall): string {
    match call.function_ case Some(f) => OrEmpty(f.arguments) case None => ""
  }

  function Indices(placed: seq<Placed>): set<nat> {
    if placed == [] then {} else Indices(placed[..|placed| - 1]) + {placed[|placed| - 1].index}
  }

  /** A fragment without an `index` continues the last call unless its `id` opens a new one. */
  function Place(before: seq<Placed>, call: DeltaToolCall): nat {
    match call.index
    case Some(index) => index
    case None =>
      if NonEmpty(call.id).None? && before != [] then before[|before| - 1].index else |Indices(before)|
  }

  function PlaceAll(calls: seq<DeltaToolCall>): seq<Placed> {
    if calls == [] then []
    else
      var before, last := PlaceAll(calls[..|calls| - 1]), calls[|calls| - 1];
      before + [Placed(Place(before, last), last)]
  }

  function PlacedCalls(steps: seq<Step>): seq<Placed> {
    PlaceAll(CallsIn(steps))
  }

  /** The first non-empty id given to call `index`. */
  function IdOf(placed: seq<Placed>, index: nat): Option<string> {
    if placed == [] then None
    else
      var earlier, last := IdOf(placed[..|placed| - 1], index), placed[|placed| - 1];
      if earlier.None? && last.index == index then NonEmpty(last.call.id) else earlier
  }

  /** The first non-empty name given to call `index`. */
  function NameOf(placed: seq<Placed>, index: nat): Option<string> {
    if placed == [] then None
    else
      var earlier, last := NameOf(placed[..|placed| - 1], index), placed[|placed| - 1];
      if earlier.None? && last.index == index then CallName(last.call) else earlier
  }

  /** The argument fragments of call `index`, glued in order. */
  function ArgumentsOf(placed: seq<Placed>, index: nat): string {
    if placed == [] then ""
    else
      var earlier, last := ArgumentsOf(placed[..|placed| - 1], index), placed[|placed| - 1];
      if last.index == index then earlier + CallArguments(last.call) else earlier
  }

  // ----- The single body a history stands for -----

  function BodyCall(placed: seq<Placed>, index: nat): ToolCall {
    var arguments := ArgumentsOf(placed, index);
    ToolCall(
      IdOf(placed, index),
      Some(ToolFunction(NameOf(placed, index), if arguments == "" then None else Some(arguments))))
  }

  function BodyCalls(placed: seq<Placed>): seq<ToolCall> {
    var keys := SortedKeys(Indices(placed));
    seq(|keys|, i requires 0 <= i < |keys| => BodyCall(placed, keys[i]))
  }

  function MessageOf(steps: seq<Step>): ResponseMessage {
    ResponseMessage(
      Some(Glue(steps, Content)), Some(Glue(steps, Refusal)),
      Some(Glue(steps, ReasoningContent)), Some(Glue(steps, Reasoning)),
      [Some(Glue(steps, Details))], BodyCalls(PlacedCalls(steps)))
  }

  /** Each field's fragments glued into one; no choice when choice 0 never came. */
  function BodyOf(steps: seq<Step>): ChatResponse {
    ChatResponse(
      if SawChoice(steps) then [Choice(MessageOf(steps), FinishReason(steps))] else [],
      LastUsage(steps), None)
  }

  const CUT := Transport("stream ended before a finish_reason or [DONE] (cut mid-body)")

  predicate IsComplete(steps: seq<Step>) {
    FinishReason(steps).Some? || DoneSeen in steps
  }

  /** The single-body parser's answer, unless the stream was cut. */
  function AnswerOf(steps: seq<Step>): Result<LlmReply, GatewayError> {
    if IsComplete(steps) then ReplyOf(BodyOf(steps)) else Err(CUT)
  }

  // ----- The events a history emits -----

  function TextEvents(text: string): seq<LlmEvent> {
    if text == "" then [] else [Text(text)]
  }

  function ThinkingEvents(text: string): seq<LlmEvent> {
    if text == "" then [] else [Thinking(text)]
  }

  function DetailEvents(details: seq<Option<string>>): seq<LlmEvent> {
    if details == [] then []
    else DetailEvents(details[..|details| - 1]) + ThinkingEvents(OrEmpty(details[|details| - 1]))
  }

  lemma NoDetailsSaid()
    ensures GlueDetails([]) == "" && DetailEvents([]) == []
  {
  }

  lemma {:induction false} DetailSnoc(details: seq<Option<string>>, last: Option<string>)
    ensures GlueDetails(details + [last]) == GlueDetails(details) + OrEmpty(last)
    ensures DetailEvents(details + [last]) == DetailEvents(details) + ThinkingEvents(OrEmpty(last))
  {
    assert (details + [last])[..|details|] == details;
  }

  /** A fragment is announced when it names the call or brings argument text. */
  function CallEvents(before: seq<Placed>, call: DeltaToolCall): seq<LlmEvent> {
    var index := Place(before, call);
    var after := before + [Placed(index, call)];
    var announced := IdOf(after, index) != IdOf(before, index) || NameOf(after, index) != NameOf(before, index);
    if announced || CallArguments(call) != "" then
      [ToolArgs(index, IdOf(after, index), NameOf(after, index), CallArguments(call))]
    else []
  }

  function CallsEvents(before: seq<DeltaToolCall>, calls: seq<DeltaToolCall>): seq<LlmEvent> {
    if calls == [] then []
    else
      var earlier := calls[..|calls| - 1];
      CallsEvents(before, earlier) + CallEvents(PlaceAll(before + earlier), calls[|calls| - 1])
  }

  function ScalarEvents(d: Delta): seq<LlmEvent> {
    TextEvents(OrEmpty(d.content)) + ThinkingEvents(OrEmpty(d.reasoningContent)) + ThinkingEvents(OrEmpty(d.reasoning))
  }

  function DeltaEvents(before: seq<DeltaToolCall>, d: Delta): seq<LlmEvent> {
    ScalarEvents(d) + DetailEvents(d.reasoningDetails) + CallsEvents(before, d.toolCalls)
  }

  function EventsOf(steps: seq<Step>): seq<LlmEvent> {
    if steps == [] then []
    else
      var before, last := steps[..|steps| - 1], steps[|steps| - 1];
      if last.DeltaSeen? then
        EventsOf(before) + DeltaEvents(CallsIn(before), last.choice.delta)
      else EventsOf(before)
  }

  // ----- The assembler -----

  datatype PartialCall = PartialCall(id: Option<string>, name: Option<string>, arguments: Option<string>)

  function SomeText(text: string): Option<string> {
    if text == "" then None else Some(text)
  }

  /** The assembler's fields other than its calls. */
  datatype Held = Held(
    output: string,
    refusal: string,
    reasoningContent: string,
    reasoning: string,
    reasoningDetails: string,
    finishReason: Option<string>,
    usage: Option<ResponseUsage>,
    sawChoice: bool,
    done: bool)

  /** What the assembler holds after a history. */
  function HeldAfter(steps: seq<Step>): Held {
    Held(
      Glue(steps, Content), Glue(steps, Refusal), Glue(steps, ReasoningContent), Glue(steps, Reasoning),
      Glue(steps, Details), FinishReason(steps), LastUsage(steps), SawChoice(steps), DoneSeen in steps)
  }

  lemma {:induction false} GlueSnoc(steps: seq<Step>, step: Step, field: Field)
    ensures Glue(steps + [step], field) ==
              Glue(steps, field) + if step.DeltaSeen? then TextIn(step.choice.delta, field) else ""
  {
    assert (steps + [step])[..|steps|] == steps;
  }

  /** What one more delta does to every projection. */
  lemma {:induction false} DeltaGrows(steps: seq<Step>, choice: ChunkChoice)
    ensures var h, d := HeldAfter(steps), choice.delta;
            HeldAfter(steps + [DeltaSeen(choice)]) == h.(
              output := h.output + OrEmpty(d.content),
              refusal := h.refusal + OrEmpty(d.refusal),
              reasoningContent := h.reasoningContent + OrEmpty(d.reasoningContent),
              reasoning := h.reasoning + OrEmpty(d.reasoning),
              reasoningDetails := h.reasoningDetails + GlueDetails(d.reasoningDetails),
              finishReason := if NonEmpty(choice.finishReason).Some? then choice.finishReason else h.finishReason,
              sawChoice := true)
    ensures CallsIn(steps + [DeltaSeen(choice)]) == CallsIn(steps) + choice.delta.toolCalls
  {
    var step := DeltaSeen(choice);
    GlueSnoc(steps, step, Content);
    GlueSnoc(steps, step, Refusal);
    GlueSnoc(steps, step, ReasoningContent);
    GlueSnoc(steps, step, Reasoning);
    GlueSnoc(steps, step, Details);
    assert (steps + [step])[..|steps|] == steps;
    assert (steps + [step])[|steps|] == step;
  }

  /** A usage report or the end marker touches nothing else. */
  lemma {:induction false} MarkGrows(steps: seq<Step>, step: Step)
    requires !step.DeltaSeen?
    ensures var h := HeldAfter(steps);
            HeldAfter(steps + [step]) == h.(
              usage := if step.UsageSeen? then Some(step.usage) else h.usage,
              done := h.done || step.DoneSeen?)
    ensures CallsIn(steps + [step]) == CallsIn(steps)
    ensures EventsOf(steps + [step]) == EventsOf(steps)
  {
    var longer := steps + [step];
    GlueSnoc(steps, step, Content);
    GlueSnoc(steps, step, Refusal);
    GlueSnoc(steps, step, ReasoningContent);
    GlueSnoc(steps, step, Reasoning);
    GlueSnoc(steps, step, Details);
    assert longer[..|steps|] == steps;
    assert forall i :: 0 <= i < |steps| ==> longer[i] == steps[i];
  }

  lemma {:induction false} EventsSnoc(steps: seq<Step>, choice: ChunkChoice)
    ensures EventsOf(steps + [DeltaSeen(choice)]) ==
              EventsOf(steps) + DeltaEvents(CallsIn(steps), choice.delta)
  {
    assert (steps + [DeltaSeen(choice)])[..|steps|] == steps;
  }

  lemma {:induction false} AbsentIsEmpty(placed: seq<Placed>, index: nat)
    ensures index !in Indices(placed) ==>
              IdOf(placed, index) == None && NameOf(placed, index) == None && ArgumentsOf(placed, index) == ""
  {
    if placed != [] {
      AbsentIsEmpty(placed[..|placed| - 1], index);
    }
  }

  function PartialOf(placed: seq<Placed>, index: nat): PartialCall {
    PartialCall(IdOf(placed, index), NameOf(placed, index), SomeText(ArgumentsOf(placed, index)))
  }

  predicate Records(calls: map<nat, PartialCall>, lastCall: Option<nat>, placed: seq<Placed>) {
    && lastCall == (if placed == [] then None else Some(placed[|placed| - 1].index))
    && calls.Keys == Indices(placed)
    && forall i :: i in calls ==> calls[i] == PartialOf(placed, i)
  }

  lemma {:induction false} PlacedSnoc(placed: seq<Placed>, p: Placed, index: nat)
    ensures Indices(placed + [p]) == Indices(placed) + {p.index}
    ensures index != p.index ==> PartialOf(placed + [p], index) == PartialOf(placed, index)
    ensures index == p.index ==>
              && IdOf(placed + [p], index) ==
                   (if IdOf(placed, index).None? then NonEmpty(p.call.id) else IdOf(placed, index))
              && NameOf(placed + [p], index) ==
                   (if NameOf(placed, index).None? then CallName(p.call) else NameOf(placed, index))
              && ArgumentsOf(placed + [p], index) == ArgumentsOf(placed, index) + CallArguments(p.call)
  {
    assert (placed + [p])[..|placed|] == placed;
  }

  /** What one more fragment makes of its call: first id and name stand, arguments are glued. */
  function Grown(entry: PartialCall, call: DeltaToolCall): PartialCall {
    PartialCall(
      if entry.id.None? then NonEmpty(call.id) else entry.id,
      if entry.name.None? then CallName(call) else entry.name,
      if CallArguments(call) == "" then entry.arguments
      else Some(OrEmpty(entry.arguments) + CallArguments(call)))
  }

  lemma EntryGrows(placed: seq<Placed>, call: DeltaToolCall)
    ensures var index := Place(placed, call);
            var entry, grown := PartialOf(placed, index), Grown(PartialOf(placed, index), call);
            && PartialOf(placed + [Placed(index, call)], index) == grown
            && CallEvents(placed, call)
               == if grown.id != entry.id || grown.name != entry.name || CallArguments(call) != "" then
                    [ToolArgs(index, grown.id, grown.name, CallArguments(call))]
                  else []
  {
    var index := Place(placed, call);
    var p := Placed(index, call);
    hide IdOf, NameOf, ArgumentsOf, Place, CallName, CallArguments;
    PlacedSnoc(placed, p, index);
    assert ArgumentsOf(placed, index) + "" == ArgumentsOf(placed, index);
  }

  lemma {:induction false} RecordsTell(
    calls: map<nat, PartialCall>, lastCall: Option<nat>, placed: seq<Placed>, index: nat)
    requires Records(calls, lastCall, placed)
    ensures |calls| == |Indices(placed)|
    ensures PartialOf(placed, index) == if index in calls then calls[index] else PartialCall(None, None, None)
    ensures lastCall.Some? <==> placed != []
    ensures lastCall.Some? ==> lastCall.value == placed[|placed| - 1].index
  {
    assert |calls| == |calls.Keys|;
    AbsentIsEmpty(placed, index);
  }

  /** Updating the entry of one call keeps the record of every call. */
  lemma {:induction false} RecordsSnoc(
    calls: map<nat, PartialCall>, lastCall: Option<nat>, placed: seq<Placed>, p: Placed, entry: PartialCall)
    requires Records(calls, lastCall, placed)
    requires entry == PartialOf(placed + [p], p.index)
    ensures Records(calls[p.index := entry], Some(p.index), placed + [p])
  {
    var after := calls[p.index := entry];
    PlacedSnoc(placed, p, p.index);
    forall i | i in after
      ensures after[i] == PartialOf(placed + [p], i)
    {
      PlacedSnoc(placed, p, i);
    }
  }

  lemma ThreeThoughts(message: ResponseMessage, content: string, reasoning: string, details: string)
    requires message.reasoningContent == Some(content) && message.reasoning == Some(reasoning)
    requires message.reasoningDetails == [Some(details)]
    ensures ThinkingOf(message) == Join(Pieces([content, reasoning, details]), "\n")
  {
    hide Pieces, Join;
    ThinkingJoinsParts(message);
    assert Texts([Some(details)]) == [details];
    assert [content, reasoning] + [details] == [content, reasoning, details];
  }

  /** The entries in order of index are the calls of the single body, as requested. */
  lemma CallsAreRequested(
    calls: map<nat, PartialCall>, lastCall: Option<nat>, placed: seq<Placed>, requested: seq<RequestedToolCall>)
    requires Records(calls, lastCall, placed) && |requested| == |SortedKeys(calls.Keys)|
    requires forall i :: 0 <= i < |requested| ==> requested[i] == Requested(calls[SortedKeys(calls.Keys)[i]])
    ensures requested == RequestedCalls(BodyCalls(placed))
  {
    hide IdOf, NameOf, ArgumentsOf, Indices, SortedKeys;
    var keys := SortedKeys(calls.Keys);
    forall i | 0 <= i < |requested|
      ensures requested[i] == RequestedCall(BodyCall(placed, keys[i]))
    {
      assert calls[keys[i]] == PartialOf(placed, keys[i]);
    }
  }

  class Assembler {
    const codec: Codec
    var output: string
    var refusal: string
    var reasoningContent: string
    var reasoning: string
    var reasoningDetails: string
    var calls: map<nat, PartialCall>
    var lastCall: Option<nat>
    var finishReason: Option<string>
    var usage: Option<ResponseUsage>
    var sawChoice: bool
    var done: bool
    /** Everything kept so far. */
    ghost var steps: seq<Step>

    ghost function Now(): Held
      reads this
    {
      Held(output, refusal, reasoningContent, reasoning, reasoningDetails, finishReason, usage, sawChoice, done)
    }

    ghost predicate Valid()
      reads this
    {
      Now() == HeldAfter(steps) && Records(calls, lastCall, PlacedCalls(steps))
    }

    constructor (codec: Codec)
      ensures Valid() && steps == [] && this.codec == codec
    {
      this.codec := codec;
      output, refusal, reasoningContent, reasoning, reasoningDetails := "", "", "", "", "";
      calls, lastCall, finishReason, usage := map[], None, None, None;
      sawChoice, done, steps := false, false, [];
    }

    method Feed(payload: string) returns (flow: Result<Flow, GatewayError>, events: seq<LlmEvent>)
      requires Valid()
      modifies this
      ensures Valid() && steps == old(steps) + StepsOf(codec, payload)
      ensures flow == FlowOf(codec, payload)
      ensures EventsOf(steps) == EventsOf(old(steps)) + events
    {
      hide Records, HeldAfter, PlacedCalls, ChoiceSteps, EventsOf;
      var text := codec.trim(payload);
      if text == "" {
        return Ok(More), [];
      }
      if text == DONE_MARKER {
        Keep(DoneSeen);
        return Ok(Done), [];
      }
      var decoded := codec.chunk(text);
      if decoded.Err? {
        return Err(Parse(decoded.error)), [];
      }
      var chunk := decoded.value;
      if chunk.error.Some? && chunk.error.value != Null {
        return Err(ErrorBody(chunk.error.value)), [];
      }
      if chunk.usage.Some? {
        ConcatAssociates(steps, [UsageSeen(chunk.usage.value)], ChoiceSteps(chunk.choices));
        Keep(UsageSeen(chunk.usage.value));
      }
      events := FeedChoices(chunk.choices);
      flow := Ok(More);
    }

    /** Keep a usage report or the end marker. */
    method Keep(step: Step)
      requires Valid() && !step.DeltaSeen?
      modifies this
      ensures Valid() && steps == old(steps) + [step]
      ensures EventsOf(steps) == EventsOf(old(steps))
    {
      hide Records, HeldAfter, PlaceAll, EventsOf;
      MarkGrows(steps, step);
      if step.UsageSeen? {
        usage := Some(step.usage);
      } else {
        done := true;
      }
      steps := steps + [step];
    }

    method FeedChoices(choices: seq<ChunkChoice>) returns (events: seq<LlmEvent>)
      requires Valid()
      modifies this
      ensures Valid() && steps == old(steps) + ChoiceSteps(choices)
      ensures EventsOf(steps) == EventsOf(old(steps)) + events
    {
      hide ChoiceSteps, EventsOf, Records, HeldAfter, PlacedCalls;
      events := [];
      NoChoices();
      assert choices[..0] == [];
      for i := 0 to |choices|
        invariant Valid() && steps == old(steps) + ChoiceSteps(choices[..i])
        invariant EventsOf(steps) == EventsOf(old(steps)) + events
      {
        assert choices[..i + 1] == choices[..i] + [choices[i]];
        ChoiceSnoc(choices[..i], choices[i]);
        if choices[i].index == None || choices[i].index == Some(0) {
          ConcatAssociates(old(steps), ChoiceSteps(choices[..i]), [DeltaSeen(choices[i])]);
          var more := Apply(choices[i]);
          ConcatAssociates(EventsOf(old(steps)), events, more);
          events := events + more;
        } else {
          assert ChoiceSteps(choices[..i]) + [] == ChoiceSteps(choices[..i]);
        }
      }
      assert choices[..|choices|] == choices;
    }

    /** Keep one delta of choice 0. */
    method Apply(choice: ChunkChoice) returns (events: seq<LlmEvent>)
      requires Valid()
      modifies this
      ensures Valid() && steps == old(steps) + [DeltaSeen(choice)]
      ensures EventsOf(steps) == EventsOf(old(steps)) + events
    {
      hide Records, HeldAfter, CallsEvents, PlaceAll, ScalarEvents, DetailEvents, GlueDetails, CallsIn, EventsOf;
      var d := choice.delta;
      sawChoice := true;
      events := ApplyTexts(d);
      var more := ApplyDetails(d.reasoningDetails);
      events := events + more;
      more := ApplyCalls(d.toolCalls, CallsIn(steps));
      events := events + more;
      if choice.finishReason.Some? && choice.finishReason.value != "" {
        finishReason := choice.finishReason;
      }
      DeltaGrows(steps, choice);
      EventsSnoc(steps, choice);
      steps := steps + [DeltaSeen(choice)];
    }

    method ApplyTexts(d: Delta) returns (events: seq<LlmEvent>)
      modifies this`output, this`refusal, this`reasoningContent, this`reasoning
      ensures output == old(output) + OrEmpty(d.content)
      ensures refusal == old(refusal) + OrEmpty(d.refusal)
      ensures reasoningContent == old(reasoningContent) + OrEmpty(d.reasoningContent)
      ensures reasoning == old(reasoning) + OrEmpty(d.reasoning)
      ensures events == ScalarEvents(d)
    {
      events := [];
      if d.content.Some? && d.content.value != "" {
        output := output + d.content.value;
        events := events + [Text(d.content.value)];
      }
      assert events == TextEvents(OrEmpty(d.content));
      if d.refusal.Some? && d.refusal.value != "" {
        refusal := refusal + d.refusal.value;
      }
      if d.reasoningContent.Some? && d.reasoningContent.value != "" {
        reasoningContent := reasoningContent + d.reasoningContent.value;
        events := events + [Thinking(d.reasoningContent.value)];
      }
      assert events == TextEvents(OrEmpty(d.content)) + ThinkingEvents(OrEmpty(d.reasoningContent));
      hide TextEvents;
      if d.reasoning.Some? && d.reasoning.value != "" {
        reasoning := reasoning + d.reasoning.value;
        events := events + [Thinking(d.reasoning.value)];
      }
    }

    method ApplyDetails(details: seq<Option<string>>) returns (events: seq<LlmEvent>)
      modifies this`reasoningDetails
      ensures reasoningDetails == old(reasoningDetails) + GlueDetails(details)
      ensures events == DetailEvents(details)
    {
      hide GlueDetails, DetailEvents;
      events := [];
      NoDetailsSaid();
      assert details[..0] == [];
      for i := 0 to |details|
        invariant reasoningDetails == old(reasoningDetails) + GlueDetails(details[..i])
        invariant events == DetailEvents(details[..i])
      {
        assert details[..i + 1] == details[..i] + [details[i]];
        DetailSnoc(details[..i], details[i]);
        ConcatAssociates(old(reasoningDetails), GlueDetails(details[..i]), OrEmpty(details[i]));
        if details[i].Some? && details[i].value != "" {
          reasoningDetails := reasoningDetails + details[i].value;
          events := events + [Thinking(details[i].value)];
        }
      }
      assert details[..|details|] == details;
    }

    method ApplyCalls(fragments: seq<DeltaToolCall>, ghost before: seq<DeltaToolCall>) returns (events: seq<LlmEvent>)
      requires Records(calls, lastCall, PlaceAll(before))
      modifies this`calls, this`lastCall
      ensures Records(calls, lastCall, PlaceAll(before + fragments))
      ensures events == CallsEvents(before, fragments)
    {
      hide Records, CallEvents, Place;
      events := [];
      assert before + fragments[..0] == before;
      for i := 0 to |fragments|
        invariant Records(calls, lastCall, PlaceAll(before + fragments[..i]))
        invariant events == CallsEvents(before, fragments[..i])
      {
        assert fragments[..i + 1] == fragments[..i] + [fragments[i]];
        assert fragments[..i + 1][..i] == fragments[..i];
        ghost var now := before + fragments[..i];
        ConcatAssociates(before, fragments[..i], [fragments[i]]);
        assert (now + [fragments[i]])[..|now|] == now;
        var more := ApplyCall(fragments[i], PlaceAll(now));
        events := events + more;
      }
      assert fragments[..|fragments|] == fragments;
    }

    method ApplyCall(call: DeltaToolCall, ghost placed: seq<Placed>) returns (events: seq<LlmEvent>)
      requires Records(calls, lastCall, placed)
      modifies this`calls, this`lastCall
      ensures Records(calls, lastCall, placed + [Placed(Place(placed, call), call)])
      ensures events == CallEvents(placed, call)
    {
      hide Records, Indices, PartialOf, CallEvents, CallName, CallArguments;
      var id := NonEmpty(call.id);
      var name := CallName(call);
      RecordsTell(calls, lastCall, placed, 0);
      var index: nat;
      if call.index.Some? {
        index := call.index.value;
      } else if id.None? && lastCall.Some? {
        index := lastCall.value;
      } else {
        index := |calls|;
      }
      assert index == Place(placed, call);
      hide Place;
      RecordsTell(calls, lastCall, placed, index);
      EntryGrows(placed, call);
      var entry := if index in calls then calls[index] else PartialCall(None, None, None);
      var announced := false;
      if entry.id.None? && id.Some? {
        entry := entry.(id := id);
        announced := true;
      }
      if entry.name.None? && name.Some? {
        entry := entry.(name := name);
        announced := true;
      }
      var fragment := CallArguments(call);
      if fragment != "" {
        entry := entry.(arguments := Some(OrEmpty(entry.arguments) + fragment));
      }
      assert entry == Grown(PartialOf(placed, index), call);
      RecordsSnoc(calls, lastCall, placed, Placed(index, call), entry);
      calls, lastCall := calls[index := entry], Some(index);
      events := if announced || fragment != "" then [ToolArgs(index, entry.id, entry.name, fragment)] else [];
    }

    method Finish() returns (r: Result<LlmReply, GatewayError>)
      requires Valid()
      ensures r == AnswerOf(steps)
    {
      hide Records, BodyCalls, RequestedCalls, ThinkingOf, UsageOf, Join, Pieces;
      hide Glue, FinishReason, LastUsage, SawChoice;
      if finishReason.None? && !done {
        return Err(CUT);
      }
      if !sawChoice {
        return Err(EmptyChoices);
      }
      if refusal != "" {
        return Err(Refused(refusal));
      }
      var keys, partials := SortedKeys(calls.Keys), calls;
      var toolCalls := seq(|keys|, i requires 0 <= i < |keys| && keys[i] in partials => Requested(partials[keys[i]]));
      var thinking := Join(Pieces([reasoningContent, reasoning, reasoningDetails]), "\n");
      ThreeThoughts(MessageOf(steps), reasoningContent, reasoning, reasoningDetails);
      CallsAreRequested(calls, lastCall, PlacedCalls(steps), toolCalls);
      hide PlacedCalls;
      return Ok(LlmReply(thinking, output, finishReason, toolCalls, UsageOf(usage), []));
    }
  }

  function Requested(call: PartialCall): RequestedToolCall {
    RequestedToolCall(OrEmpty(call.id), OrEmpty(call.name),
      match call.arguments case Some(text) => text case None => "{}")
  }

  // ----- What the events carry -----

  lemma {:induction false} DetailEventsCarry(details: seq<Option<string>>, index: nat)
    ensures TextOf(DetailEvents(details)) == "" && ArgsOf(DetailEvents(details), index) == ""
  {
    if details != [] {
      var earlier := details[..|details| - 1];
      DetailEventsCarry(earlier, index);
      TextOfAppend(DetailEvents(earlier), ThinkingEvents(OrEmpty(details[|details| - 1])));
      ArgsOfAppend(DetailEvents(earlier), ThinkingEvents(OrEmpty(details[|details| - 1])), index);
    }
  }

  lemma CallEventsCarry(placed: seq<Placed>, call: DeltaToolCall, index: nat)
    ensures TextOf(CallEvents(placed, call)) == ""
    ensures ArgsOf(CallEvents(placed, call), index) == if Place(placed, call) == index then CallArguments(call) else ""
  {
    hide IdOf, NameOf, Place;
    var events := CallEvents(placed, call);
    if events != [] {
      assert events[1..] == [];
      assert CallArguments(call) + "" == CallArguments(call);
    }
  }

  lemma {:induction false} CallsEventsCarry(before: seq<DeltaToolCall>, calls: seq<DeltaToolCall>, index: nat)
    ensures TextOf(CallsEvents(before, calls)) == ""
    ensures ArgumentsOf(PlaceAll(before + calls), index) ==
              ArgumentsOf(PlaceAll(before), index) + ArgsOf(CallsEvents(before, calls), index)
  {
    hide TextOf, ArgsOf, ArgumentsOf, CallEvents, Place;
    EmptyCarries(index);
    if calls == [] {
      assert before + calls == before;
    } else {
      var earlier, last := calls[..|calls| - 1], calls[|calls| - 1];
      CallsEventsCarry(before, earlier, index);
      assert (before + calls)[..|before + calls| - 1] == before + earlier;
      assert CallsEvents(before, calls) == CallsEvents(before, earlier) + CallEvents(PlaceAll(before + earlier), last);
      CallsEventsStep(before, earlier, last, index);
      ConcatAssociates(
        ArgumentsOf(PlaceAll(before), index), ArgsOf(CallsEvents(before, earlier), index),
        ArgsOf(CallEvents(PlaceAll(before + earlier), last), index));
    }
  }

  lemma CallsEventsStep(before: seq<DeltaToolCall>, earlier: seq<DeltaToolCall>, last: DeltaToolCall, index: nat)
    ensures var placed := PlaceAll(before + earlier);
            var events := CallEvents(placed, last);
            && TextOf(CallsEvents(before, earlier) + events) == TextOf(CallsEvents(before, earlier))
            && ArgsOf(CallsEvents(before, earlier) + events, index) ==
                 ArgsOf(CallsEvents(before, earlier), index) + ArgsOf(events, index)
            && ArgumentsOf(placed + [Placed(Place(placed, last), last)], index) ==
                 ArgumentsOf(placed, index) + ArgsOf(events, index)
  {
    hide TextOf, ArgsOf, CallEvents, CallsEvents, Place, PlaceAll, ArgumentsOf, IdOf, NameOf;
    var placed := PlaceAll(before + earlier);
    var events := CallEvents(placed, last);
    TextOfAppend(CallsEvents(before, earlier), events);
    ArgsOfAppend(CallsEvents(before, earlier), events, index);
    CallEventsCarry(placed, last, index);
    PlacedSnoc(placed, Placed(Place(placed, last), last), index);
    assert ArgumentsOf(placed, index) + "" == ArgumentsOf(placed, index);
    assert TextOf(CallsEvents(before, earlier)) + "" == TextOf(CallsEvents(before, earlier));
  }

  lemma DeltaEventsCarry(before: seq<DeltaToolCall>, d: Delta, index: nat)
    ensures TextOf(DeltaEvents(before, d)) == OrEmpty(d.content)
    ensures ArgumentsOf(PlaceAll(before + d.toolCalls), index) ==
              ArgumentsOf(PlaceAll(before), index) + ArgsOf(DeltaEvents(before, d), index)
  {
    hide TextOf, ArgsOf, CallsEvents, DetailEvents, ScalarEvents, PlaceAll, ArgumentsOf;
    var scalars, details, calls := ScalarEvents(d), DetailEvents(d.reasoningDetails), CallsEvents(before, d.toolCalls);
    ScalarsCarry(d, index);
    DetailEventsCarry(d.reasoningDetails, index);
    CallsEventsCarry(before, d.toolCalls, index);
    TextOfAppend(scalars, details);
    TextOfAppend(scalars + details, calls);
    ArgsOfAppend(scalars, details, index);
    ArgsOfAppend(scalars + details, calls, index);
    assert OrEmpty(d.content) + "" + "" == OrEmpty(d.content);
    assert "" + "" + ArgsOf(calls, index) == ArgsOf(calls, index);
  }

  /** The text events concatenate to the reply's output, and the argument events of a call to its arguments. */
  lemma {:induction false} EventsCarryReply(steps: seq<Step>, index: nat)
    ensures TextOf(EventsOf(steps)) == Glue(steps, Content)
    ensures ArgsOf(EventsOf(steps), index) == ArgumentsOf(PlacedCalls(steps), index)
  {
    hide TextOf, ArgsOf, DeltaEvents, PlaceAll, ArgumentsOf;
    if steps == [] {
      EmptyCarries(index);
    } else {
      var before, last := steps[..|steps| - 1], steps[|steps| - 1];
      EventsCarryReply(before, index);
      assert CallsIn(before) + [] == CallsIn(before) && Glue(before, Content) + "" == Glue(before, Content);
      if last.DeltaSeen? {
        DeltaEventsCarry(CallsIn(before), last.choice.delta, index);
        TextOfAppend(EventsOf(before), DeltaEvents(CallsIn(before), last.choice.delta));
        ArgsOfAppend(EventsOf(before), DeltaEvents(CallsIn(before), last.choice.delta), index);
      }
    }
  }

  lemma {:induction false} EmptyCarries(index: nat)
    ensures TextOf([]) == "" && ArgsOf([], index) == "" && ArgumentsOf(PlaceAll([]), index) == ""
  {
  }

  lemma {:induction false} PieceCarries(text: string, index: nat)
    ensures TextOf(TextEvents(text)) == text && TextOf(ThinkingEvents(text)) == ""
    ensures ArgsOf(TextEvents(text), index) == "" && ArgsOf(ThinkingEvents(text), index) == ""
  {
    if text != "" {
      assert [Text(text)][1..] == [] && [Thinking(text)][1..] == [];
      assert text + TextOf([]) == text;
    }
  }

  lemma {:induction false} ScalarsCarry(d: Delta, index: nat)
    ensures TextOf(ScalarEvents(d)) == OrEmpty(d.content) && ArgsOf(ScalarEvents(d), index) == ""
  {
    hide TextOf, ArgsOf, TextEvents, ThinkingEvents;
    var text, first, second :=
      TextEvents(OrEmpty(d.content)), ThinkingEvents(OrEmpty(d.reasoningContent)), ThinkingEvents(OrEmpty(d.reasoning));
    PieceCarries(OrEmpty(d.content), index);
    PieceCarries(OrEmpty(d.reasoningContent), index);
    PieceCarries(OrEmpty(d.reasoning), index);
    TextOfAppend(text, first);
    TextOfAppend(text + first, second);
    ArgsOfAppend(text, first, index);
    ArgsOfAppend(text + first, second, index);
    assert OrEmpty(d.content) + "" + "" == OrEmpty(d.content);
  }

  // ----- Interleaving and re-splitting -----

  predicate AllIndexed(calls: seq<DeltaToolCall>) {
    forall k :: 0 <= k < |calls| ==> calls[k].index.Some?
  }

  /** The fragments of one call alone, in their own order. */
  function Fragments(calls: seq<DeltaToolCall>, index: nat): seq<DeltaToolCall> {
    if calls == [] then []
    else
      var last := calls[|calls| - 1];
      Fragments(calls[..|calls| - 1], index) + if last.index == Some(index) then [last] else []
  }

  function FirstId(fragments: seq<DeltaToolCall>): Option<string> {
    if fragments == [] then None
    else if NonEmpty(fragments[0].id).Some? then fragments[0].id
    else FirstId(fragments[1..])
  }

  function FirstName(fragments: seq<DeltaToolCall>): Option<string> {
    if fragments == [] then None
    else if CallName(fragments[0]).Some? then CallName(fragments[0])
    else FirstName(fragments[1..])
  }

  function GluedArguments(fragments: seq<DeltaToolCall>): string {
    if fragments == [] then "" else CallArguments(fragments[0]) + GluedArguments(fragments[1..])
  }

  lemma {:induction false} FirstsSnoc(fragments: seq<DeltaToolCall>, last: DeltaToolCall)
    ensures FirstId(fragments + [last]) ==
              if FirstId(fragments).None? then NonEmpty(last.id) else FirstId(fragments)
    ensures FirstName(fragments + [last]) ==
              if FirstName(fragments).None? then CallName(last) else FirstName(fragments)
    ensures GluedArguments(fragments + [last]) == GluedArguments(fragments) + CallArguments(last)
  {
    if fragments == [] {
      assert fragments + [last] == [last];
    } else {
      assert (fragments + [last])[1..] == fragments[1..] + [last];
      assert (fragments + [last])[0] == fragments[0];
      FirstsSnoc(fragments[1..], last);
      ConcatAssociates(CallArguments(fragments[0]), GluedArguments(fragments[1..]), CallArguments(last));
    }
  }

  /** With an index on every fragment, a call is what its own fragments say, wherever others fall. */
  lemma {:induction false} CallIsItsFragments(calls: seq<DeltaToolCall>, index: nat)
    requires AllIndexed(calls)
    ensures index in Indices(PlaceAll(calls)) <==> Fragments(calls, index) != []
    ensures IdOf(PlaceAll(calls), index) == FirstId(Fragments(calls, index))
    ensures NameOf(PlaceAll(calls), index) == FirstName(Fragments(calls, index))
    ensures ArgumentsOf(PlaceAll(calls), index) == GluedArguments(Fragments(calls, index))
  {
    if calls != [] {
      hide IdOf, NameOf, ArgumentsOf, Indices, FirstId, FirstName, GluedArguments;
      var earlier, last := calls[..|calls| - 1], calls[|calls| - 1];
      CallIsItsFragments(earlier, index);
      PlacedSnoc(PlaceAll(earlier), Placed(last.index.value, last), index);
      FirstsSnoc(Fragments(earlier, index), last);
      assert Fragments(earlier, index) + [] == Fragments(earlier, index);
    }
  }

  /** Two fragment lists that tell the same of call `index`. */
  predicate SameCall(a: seq<DeltaToolCall>, b: seq<DeltaToolCall>, index: nat) {
    var x, y := Fragments(a, index), Fragments(b, index);
    && (x == [] <==> y == [])
    && FirstId(x) == FirstId(y) && FirstName(x) == FirstName(y) && GluedArguments(x) == GluedArguments(y)
  }

  /** Two placements that say the same of every call. */
  ghost predicate Agree(p: seq<Placed>, q: seq<Placed>) {
    && Indices(p) == Indices(q)
    && forall index: nat ::
         IdOf(p, index) == IdOf(q, index) && NameOf(p, index) == NameOf(q, index)
         && ArgumentsOf(p, index) == ArgumentsOf(q, index)
  }

  /** The answer looks at the calls only through what their placements say. */
  lemma AgreementDecides(a: seq<Step>, b: seq<Step>)
    requires HeldAfter(a) == HeldAfter(b) && Agree(PlacedCalls(a), PlacedCalls(b))
    ensures AnswerOf(a) == AnswerOf(b)
  {
    hide IdOf, NameOf, ArgumentsOf, Indices, PlaceAll, ReplyOf, Glue;
    var p, q := PlacedCalls(a), PlacedCalls(b);
    forall index: nat
      ensures BodyCall(p, index) == BodyCall(q, index)
    {
    }
    assert BodyCalls(p) == BodyCalls(q);
  }

  /**
   Cutting fragments elsewhere or interleaving the calls differently changes nothing: the
   answer depends only on the glued text of each field and on what each call's own
   fragments say.
   */
  lemma AnswerIgnoresInterleaving(a: seq<Step>, b: seq<Step>)
    requires HeldAfter(a) == HeldAfter(b)
    requires AllIndexed(CallsIn(a)) && AllIndexed(CallsIn(b))
    requires forall index :: SameCall(CallsIn(a), CallsIn(b), index)
    ensures AnswerOf(a) == AnswerOf(b)
  {
    hide Fragments, FirstId, FirstName, GluedArguments, IdOf, NameOf, ArgumentsOf, Indices,
      PlaceAll, AnswerOf, HeldAfter;
    var p, q := PlacedCalls(a), PlacedCalls(b);
    forall index: nat
      ensures index in Indices(p) <==> index in Indices(q)
      ensures IdOf(p, index) == IdOf(q, index) && NameOf(p, index) == NameOf(q, index)
      ensures ArgumentsOf(p, index) == ArgumentsOf(q, index)
    {
      assert SameCall(CallsIn(a), CallsIn(b), index);
      CallIsItsFragments(CallsIn(a), index);
      CallIsItsFragments(CallsIn(b), index);
    }
    AgreementDecides(a, b);
  }
}
