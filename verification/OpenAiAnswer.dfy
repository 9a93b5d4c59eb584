/**
 What a Chat Completions stream answers (`src/llm/stream/openai.rs`), told of its chunks: when a
 stream was cut, refused or empty, and else what the reply holds.
 */
module OpenAiAnswer {
  import opened Prelude
  import opened Json
  import opened Reply
  import opened Response
  import opened OpenAi
  import opened OpenAiCuts

  // ----- One payload -----

  /** What a payload does to the stream, by what it decodes to. */
  lemma {:induction false} FlowTells(codec: Codec, payload: string)
    ensures var text, flow := codec.trim(payload), FlowOf(codec, payload);
            && (flow == Ok(Done) <==> text == "[DONE]")
            && (text == "" ==> flow == Ok(More) && StepsOf(codec, payload) == [])
            && (text == "[DONE]" ==> StepsOf(codec, payload) == [DoneSeen])
            && (text != "" && text != "[DONE]" ==>
                  match codec.chunk(text)
                  case Err(detail) => flow == Err(Parse(detail)) && StepsOf(codec, payload) == []
                  case Ok(chunk) =>
                    var failed := chunk.error.Some? && chunk.error.value != Null;
                    && (failed ==> flow == Err(ErrorBody(chunk.error.value)) && StepsOf(codec, payload) == [])
                    && (!failed ==>
                          && flow == Ok(More)
                          && StepsOf(codec, payload)
                             == (match chunk.usage case Some(usage) => [UsageSeen(usage)] case None => [])
                                + FirstChoice(chunk.choices)))
  {
    hide ChoiceSteps, FirstChoice;
    var text := codec.trim(payload);
    if text != "" && text != "[DONE]" && codec.chunk(text).Ok? {
      ChoicesTell(codec.chunk(text).value.choices);
    }
  }

  /** The deltas that speak for choice 0: those that say so and those that name no choice. */
  function FirstChoice(choices: seq<ChunkChoice>): seq<Step> {
    Flatten(seq(|choices|, i requires 0 <= i < |choices| =>
      if choices[i].index.None? || choices[i].index.value == 0 then [DeltaSeen(choices[i])] else []))
  }

  lemma {:induction false} ChoicesTell(choices: seq<ChunkChoice>)
    ensures ChoiceSteps(choices) == FirstChoice(choices)
  {
    if choices != [] {
      var n := |choices| - 1;
      ChoicesTell(choices[..n]);
      var earlier := seq(n, i requires 0 <= i < n =>
        if choices[..n][i].index.None? || choices[..n][i].index.value == 0 then [DeltaSeen(choices[..n][i])] else []);
      var last := if choices[n].index.None? || choices[n].index.value == 0 then [DeltaSeen(choices[n])] else [];
      FlattenSnoc(earlier, last);
      hide Flatten;
      assert seq(|choices|, i requires 0 <= i < |choices| =>
        if choices[i].index.None? || choices[i].index.value == 0 then [DeltaSeen(choices[i])] else [])
        == earlier + [last];
    }
  }

  // ----- What was said -----

  /** The pieces that the deltas of a stream bring, one after the other. */
  function Told<T>(steps: seq<Step>, pick: Delta -> seq<T>): seq<T> {
    Flatten(seq(|steps|, k requires 0 <= k < |steps| =>
      if steps[k].DeltaSeen? then pick(steps[k].choice.delta) else []))
  }

  lemma {:induction false} ToldSnoc<T>(steps: seq<Step>, last: Step, pick: Delta -> seq<T>)
    ensures Told(steps + [last], pick)
         == Told(steps, pick) + if last.DeltaSeen? then pick(last.choice.delta) else []
    ensures Told([], pick) == []
  {
    var grown := steps + [last];
    var earlier := seq(|steps|, k requires 0 <= k < |steps| =>
      if steps[k].DeltaSeen? then pick(steps[k].choice.delta) else []);
    var piece := if last.DeltaSeen? then pick(last.choice.delta) else [];
    FlattenSnoc(earlier, piece);
    assert seq(|grown|, k requires 0 <= k < |grown| =>
      if grown[k].DeltaSeen? then pick(grown[k].choice.delta) else []) == earlier + [piece];
  }

  lemma {:induction false} GlueIsTold(steps: seq<Step>, field: Field, pick: Delta -> string)
    requires forall d :: TextIn(d, field) == pick(d)
    ensures Glue(steps, field) == Told(steps, pick)
  {
    hide Told, TextIn;
    if steps == [] {
      ToldSnoc(steps, DoneSeen, pick);
    } else {
      var n := |steps| - 1;
      GlueIsTold(steps[..n], field, pick);
      ToldSnoc(steps[..n], steps[n], pick);
      assert steps == steps[..n] + [steps[n]];
    }
  }

  lemma {:induction false} CallsAreTold(steps: seq<Step>)
    ensures CallsIn(steps) == Told(steps, (d: Delta) => d.toolCalls)
  {
    var pick := (d: Delta) => d.toolCalls;
    hide Told;
    if steps == [] {
      ToldSnoc(steps, DoneSeen, pick);
    } else {
      var n := |steps| - 1;
      CallsAreTold(steps[..n]);
      ToldSnoc(steps[..n], steps[n], pick);
      assert steps == steps[..n] + [steps[n]];
    }
  }

  function InOrder(details: seq<Option<string>>): string {
    Flatten(seq(|details|, i requires 0 <= i < |details| => OrEmpty(details[i])))
  }

  function DetailText(d: Delta): string {
    InOrder(d.reasoningDetails)
  }

  lemma {:induction false} DetailsAreGlued(details: seq<Option<string>>)
    ensures GlueDetails(details) == InOrder(details)
  {
    if details == [] {
      assert Flatten<char>([]) == [];
    } else {
      var n := |details| - 1;
      DetailsAreGlued(details[..n]);
      var earlier := seq(n, i requires 0 <= i < n => OrEmpty(details[..n][i]));
      FlattenSnoc(earlier, OrEmpty(details[n]));
      hide Flatten;
      assert seq(|details|, i requires 0 <= i < |details| => OrEmpty(details[i])) == earlier + [OrEmpty(details[n])];
    }
  }

  /** Each text of the assembler is what the deltas brought for it, in order of arrival. */
  lemma {:induction false} TextsAreTold(steps: seq<Step>)
    ensures Glue(steps, Content) == Told(steps, (d: Delta) => OrEmpty(d.content))
    ensures Glue(steps, Refusal) == Told(steps, (d: Delta) => OrEmpty(d.refusal))
    ensures Glue(steps, ReasoningContent) == Told(steps, (d: Delta) => OrEmpty(d.reasoningContent))
    ensures Glue(steps, Reasoning) == Told(steps, (d: Delta) => OrEmpty(d.reasoning))
    ensures Glue(steps, Details) == Told(steps, DetailText)
  {
    hide Glue, Told;
    GlueIsTold(steps, Content, (d: Delta) => OrEmpty(d.content));
    GlueIsTold(steps, Refusal, (d: Delta) => OrEmpty(d.refusal));
    GlueIsTold(steps, ReasoningContent, (d: Delta) => OrEmpty(d.reasoningContent));
    GlueIsTold(steps, Reasoning, (d: Delta) => OrEmpty(d.reasoning));
    forall d: Delta
      ensures TextIn(d, Details) == DetailText(d)
    {
      DetailsAreGlued(d.reasoningDetails);
    }
    GlueIsTold(steps, Details, DetailText);
  }

  // ----- The end of a stream -----

  /** A delta that names why the model stopped. */
  predicate Gives(step: Step, reason: string) {
    step.DeltaSeen? && step.choice.finishReason == Some(reason) && reason != ""
  }

  /** The reason a reply has is the last one given. */
  lemma {:induction false} ReasonTells(steps: seq<Step>)
    ensures FinishReason(steps).None? <==> forall k, reason :: 0 <= k < |steps| ==> !Gives(steps[k], reason)
    ensures FinishReason(steps).Some? ==>
              exists k :: 0 <= k < |steps| && Gives(steps[k], FinishReason(steps).value)
                && forall i, reason :: k < i < |steps| ==> !Gives(steps[i], reason)
  {
    if steps != [] {
      var n := |steps| - 1;
      var earlier := steps[..n];
      ReasonTells(earlier);
      assert steps == earlier + [steps[n]];
      if steps[n].DeltaSeen? && NonEmpty(steps[n].choice.finishReason).Some? {
        assert Gives(steps[n], steps[n].choice.finishReason.value);
      } else {
        forall reason: string
          ensures !Gives(steps[n], reason)
        {
        }
        if FinishReason(earlier).Some? {
          var k :| 0 <= k < n && Gives(earlier[k], FinishReason(earlier).value)
                   && forall i, reason :: k < i < n ==> !Gives(earlier[i], reason);
          assert Gives(steps[k], FinishReason(steps).value);
        }
      }
    }
  }

  /** The usage a reply has is the last one reported. */
  lemma {:induction false} UsageTells(steps: seq<Step>)
    ensures LastUsage(steps).None? <==> forall k :: 0 <= k < |steps| ==> !steps[k].UsageSeen?
    ensures LastUsage(steps).Some? ==>
              exists k :: 0 <= k < |steps| && steps[k] == UsageSeen(LastUsage(steps).value)
                && forall i :: k < i < |steps| ==> !steps[i].UsageSeen?
  {
    if steps != [] {
      var n := |steps| - 1;
      UsageTells(steps[..n]);
      assert steps == steps[..n] + [steps[n]];
    }
  }

  /** Whether the stream came to its end: the end marker, or a reason to stop. */
  ghost predicate CameToItsEnd(steps: seq<Step>) {
    DoneSeen in steps || exists k, reason :: 0 <= k < |steps| && Gives(steps[k], reason)
  }

  /** A stream without an end is the one error a retry may mend, and never half a reply. */
  lemma {:induction false} CutMeans(steps: seq<Step>)
    ensures AnswerOf(steps) == Err(CUT) <==> !CameToItsEnd(steps)
    ensures CUT.IsRetryable()
  {
    ReasonTells(steps);
    hide FinishReason, BodyOf, Gives;
    RepliesAreNotCut(BodyOf(steps));
    hide ReplyOf;
  }

  lemma {:induction false} RepliesAreNotCut(body: ChatResponse)
    ensures ReplyOf(body) != Err(CUT)
  {
    hide ThinkingOf, RequestedCalls, UsageOf;
  }

  /**
   A stream that came to its end is no choice at all, a refusal, or a reply: the content that was
   said, the reasoning under one another, the last reason to stop and the last usage.
   */
  lemma {:induction false} AnswerTells(steps: seq<Step>)
    requires CameToItsEnd(steps)
    ensures var answer := AnswerOf(steps);
            var refusal := Told(steps, (d: Delta) => OrEmpty(d.refusal));
            var silent := forall k :: 0 <= k < |steps| ==> !steps[k].DeltaSeen?;
            && (answer == Err(EmptyChoices) <==> silent)
            && (answer == Err(Refused(refusal)) <==> !silent && refusal != "")
            && (answer.Ok? <==> !silent && refusal == "")
            && (answer.Ok? ==>
                  var reply := answer.value;
                  && reply.output == Told(steps, (d: Delta) => OrEmpty(d.content))
                  && reply.thinking
                     == Under(
                          Under(Told(steps, (d: Delta) => OrEmpty(d.reasoningContent)),
                            Told(steps, (d: Delta) => OrEmpty(d.reasoning))),
                          Told(steps, DetailText))
                  && reply.finishReason == FinishReason(steps) && reply.usage == UsageOf(LastUsage(steps))
                  && reply.toolCalls == RequestedCalls(BodyCalls(PlacedCalls(steps))) && reply.replay == [])
  {
    ReasonTells(steps);
    TextsAreTold(steps);
    hide Told, Glue, FinishReason, LastUsage, Gives, BodyCalls, PlacedCalls, UsageOf, RequestedCalls, ThinkingOf;
    if exists k :: 0 <= k < |steps| && steps[k].DeltaSeen? {
      assert SawChoice(steps);
      ThinkingTells(MessageOf(steps), Glue(steps, Details));
    }
  }

  lemma {:induction false} ThinkingTells(message: ResponseMessage, details: string)
    requires message.reasoningDetails == [Some(details)]
    ensures ThinkingOf(message)
         == Under(Under(OrEmpty(message.reasoningContent), OrEmpty(message.reasoning)), details)
  {
    hide ThinkingOf;
    var bare := message.(reasoningDetails := []);
    ThinkingGrows(bare, Some(details));
    assert bare.(reasoningDetails := []) == bare;
    assert message == bare.(reasoningDetails := bare.reasoningDetails + [Some(details)]);
  }

  // ----- The calls of a reply -----

  /** With wire indices, a call of the reply has the first id and name its fragments gave and all their arguments. */
  lemma {:induction false} CallTells(steps: seq<Step>, x: nat)
    requires AllIndexed(CallsIn(steps)) && Fragments(CallsIn(steps), x) != [] && AnswerOf(steps).Ok?
    ensures var own, calls := Fragments(CallsIn(steps), x), AnswerOf(steps).value.toolCalls;
            && PositionOf(steps, x) < |calls|
            && calls[PositionOf(steps, x)]
               == RequestedToolCall(
                    OrEmpty(FirstId(own)), OrEmpty(FirstName(own)),
                    if GluedArguments(own) == "" then "{}" else GluedArguments(own))
  {
    hide *;
    CallIsItsFragments(CallsIn(steps), x);
    PlacedAre(steps);
    RepliesListEveryIndex(steps);
    RepliesHoldTheCalls(steps);
    RequestedAt(BodyCalls(PlacedCalls(steps)), PositionOf(steps, x));
    BodyCallRequested(PlacedCalls(steps), x);
  }

  lemma {:induction false} RequestedAt(calls: seq<ToolCall>, i: nat)
    requires i < |calls|
    ensures |RequestedCalls(calls)| == |calls| && RequestedCalls(calls)[i] == RequestedCall(calls[i])
  {
  }

  lemma {:induction false} BodyCallRequested(placed: seq<Placed>, x: nat)
    ensures RequestedCall(BodyCall(placed, x))
         == RequestedToolCall(
              OrEmpty(IdOf(placed, x)), OrEmpty(NameOf(placed, x)),
              if ArgumentsOf(placed, x) == "" then "{}" else ArgumentsOf(placed, x))
  {
    hide IdOf, NameOf, ArgumentsOf;
  }

  /** Whether a fragment without an index opens a call: it has an id, or there is none to continue. */
  predicate Opens(call: DeltaToolCall, first: bool) {
    NonEmpty(call.id).Some? || first
  }

  /** How many calls the fragments of a stream without wire indices open. */
  function Opened(calls: seq<DeltaToolCall>): nat {
    if calls == [] then 0
    else
      var n := |calls| - 1;
      Opened(calls[..n]) + if Opens(calls[n], n == 0) then 1 else 0
  }

  predicate NoneIndexed(calls: seq<DeltaToolCall>) {
    forall k :: 0 <= k < |calls| ==> calls[k].index.None?
  }

  /** Without wire indices calls are numbered as they open, and a fragment belongs to the last one opened. */
  lemma {:induction false} OpenedInOrder(calls: seq<DeltaToolCall>)
    requires NoneIndexed(calls)
    ensures |PlaceAll(calls)| == |calls| && (calls != [] ==> Opened(calls) > 0)
    ensures forall x: nat :: x in Indices(PlaceAll(calls)) <==> x < Opened(calls)
    ensures |Indices(PlaceAll(calls))| == Opened(calls)
    ensures calls != [] ==> PlaceAll(calls)[|calls| - 1] == Placed(Opened(calls) - 1, calls[|calls| - 1])
  {
    if calls != [] {
      var n := |calls| - 1;
      var earlier, last := calls[..n], calls[n];
      OpenedInOrder(earlier);
      assert calls == earlier + [last];
      PlaceAllSnoc(earlier, last);
      var placed := PlaceAll(earlier);
      var p := Placed(Place(placed, last), last);
      PlacedSnoc(placed, p, 0);
      hide Indices, PlaceAll, IdOf, NameOf, ArgumentsOf;
      if Opens(last, n == 0) {
        assert p.index == Opened(earlier);
        assert p.index !in Indices(placed);
      } else {
        assert p.index == Opened(earlier) - 1;
        assert Indices(placed) + {p.index} == Indices(placed);
      }
    }
  }

  // ----- Thoughts as events -----

  /** What one delta adds to the reasoning shown while the stream arrives. */
  function ThoughtIn(d: Delta): string {
    OrEmpty(d.reasoningContent) + OrEmpty(d.reasoning) + DetailText(d)
  }

  lemma {:induction false} TextsAreNoThought(text: string)
    ensures ThoughtOf(TextEvents(text)) == "" && ThoughtOf(ThinkingEvents(text)) == text
  {
    OneThought(Text(text));
    OneThought(Thinking(text));
    hide ThoughtOf;
  }

  lemma {:induction false} DetailThoughts(details: seq<Option<string>>)
    ensures ThoughtOf(DetailEvents(details)) == GlueDetails(details)
  {
    hide ThoughtOf, ThinkingEvents;
    OneThought(Text(""));
    if details != [] {
      var n := |details| - 1;
      DetailThoughts(details[..n]);
      TextsAreNoThought(OrEmpty(details[n]));
      ThoughtAppend(DetailEvents(details[..n]), ThinkingEvents(OrEmpty(details[n])));
    }
  }

  lemma {:induction false} CallThoughts(before: seq<DeltaToolCall>, calls: seq<DeltaToolCall>)
    ensures ThoughtOf(CallsEvents(before, calls)) == ""
  {
    hide ThoughtOf, PlaceAll, Place, IdOf, NameOf;
    OneThought(Text(""));
    if calls != [] {
      var n := |calls| - 1;
      CallThoughts(before, calls[..n]);
      var events := CallEvents(PlaceAll(before + calls[..n]), calls[n]);
      if events != [] {
        OneThought(events[0]);
        assert events == [events[0]];
      }
      ThoughtAppend(CallsEvents(before, calls[..n]), events);
    }
  }

  lemma {:induction false} DeltaThoughts(before: seq<DeltaToolCall>, d: Delta)
    ensures ThoughtOf(DeltaEvents(before, d)) == ThoughtIn(d)
  {
    hide ThoughtOf, TextEvents, ThinkingEvents, DetailEvents, CallsEvents;
    var text, first, second :=
      TextEvents(OrEmpty(d.content)), ThinkingEvents(OrEmpty(d.reasoningContent)), ThinkingEvents(OrEmpty(d.reasoning));
    TextsAreNoThought(OrEmpty(d.content));
    TextsAreNoThought(OrEmpty(d.reasoningContent));
    TextsAreNoThought(OrEmpty(d.reasoning));
    DetailThoughts(d.reasoningDetails);
    DetailsAreGlued(d.reasoningDetails);
    CallThoughts(before, d.toolCalls);
    ThoughtAppend(text, first);
    ThoughtAppend(text + first, second);
    ThoughtAppend(ScalarEvents(d), DetailEvents(d.reasoningDetails));
    ThoughtAppend(ScalarEvents(d) + DetailEvents(d.reasoningDetails), CallsEvents(before, d.toolCalls));
  }

  /** The thinking events of a stream carry every piece of reasoning, delta by delta. */
  lemma {:induction false} EventsCarryThoughts(steps: seq<Step>)
    ensures ThoughtOf(EventsOf(steps)) == Told(steps, ThoughtIn)
  {
    hide ThoughtOf, Told, DeltaEvents, ThoughtIn;
    if steps == [] {
      OneThought(Text(""));
      ToldSnoc(steps, DoneSeen, ThoughtIn);
    } else {
      var n := |steps| - 1;
      var before, last := steps[..n], steps[n];
      EventsCarryThoughts(before);
      ToldSnoc(before, last, ThoughtIn);
      assert steps == before + [last];
      if last.DeltaSeen? {
        DeltaThoughts(CallsIn(before), last.choice.delta);
        ThoughtAppend(EventsOf(before), DeltaEvents(CallsIn(before), last.choice.delta));
      } else {
        assert Told(before, ThoughtIn) + [] == Told(before, ThoughtIn);
      }
    }
  }

  // ----- The single body -----

  /** A call as the loop takes it: what is missing is empty, and missing arguments are an empty object. */
  predicate TakenAs(call: ToolCall, taken: RequestedToolCall) {
    && taken.id == (if call.id.Some? then call.id.value else "")
    && (match call.function_
        case None => taken.name == "" && taken.arguments == "{}"
        case Some(f) =>
          && taken.name == (if f.name.Some? then f.name.value else "")
          && taken.arguments == (if f.arguments.Some? then f.arguments.value else "{}"))
  }

  /** A body is an error, without a choice, a refusal, or a reply made of its first choice. */
  lemma {:induction false} BodyTells(resp: ChatResponse)
    ensures var reply, failed := ReplyOf(resp), resp.error.Some? && resp.error.value != Null;
            && (failed ==> reply == Err(ErrorBody(resp.error.value)))
            && (!failed && resp.choices == [] ==> reply == Err(EmptyChoices))
            && (!failed && resp.choices != [] ==>
                  var choice := resp.choices[0];
                  var message := choice.message;
                  var refused := message.refusal.Some? && message.refusal.value != "";
                  && (refused ==> reply == Err(Refused(message.refusal.value)))
                  && (!refused ==>
                        && reply.Ok? && reply.value.output == OrEmpty(message.content)
                        && reply.value.finishReason == choice.finishReason
                        && reply.value.thinking == ThinkingOf(message) && reply.value.usage == UsageOf(resp.usage)
                        && |reply.value.toolCalls| == |message.toolCalls|
                        && forall i :: 0 <= i < |message.toolCalls| ==>
                             TakenAs(message.toolCalls[i], reply.value.toolCalls[i])))
  {
    hide ThinkingOf, UsageOf;
  }

  // ----- Names in events -----

  /** What an argument event says of its call is what the call is known by in the end. */
  predicate Fits(placed: seq<Placed>, event: LlmEvent) {
    event.ToolArgs? ==>
      && (event.id.Some? ==> event.id == IdOf(placed, event.index))
      && (event.name.Some? ==> event.name == NameOf(placed, event.index))
  }

  /** Some event has told the id of a call, and some its name. */
  predicate IdTold(placed: seq<Placed>, events: seq<LlmEvent>, x: nat) {
    exists event :: event in events && event.ToolArgs? && event.index == x && event.id == IdOf(placed, x)
  }

  predicate NameTold(placed: seq<Placed>, events: seq<LlmEvent>, x: nat) {
    exists event :: event in events && event.ToolArgs? && event.index == x && event.name == NameOf(placed, x)
  }

  lemma {:induction false} KnownStays(placed: seq<Placed>, p: Placed, x: nat)
    ensures IdOf(placed, x).Some? ==> IdOf(placed + [p], x) == IdOf(placed, x)
    ensures NameOf(placed, x).Some? ==> NameOf(placed + [p], x) == NameOf(placed, x)
    ensures x != p.index ==> IdOf(placed + [p], x) == IdOf(placed, x) && NameOf(placed + [p], x) == NameOf(placed, x)
  {
    PlacedSnoc(placed, p, x);
    hide IdOf, NameOf, ArgumentsOf, Indices;
  }

  lemma {:induction false} KnownOnwards(calls: seq<DeltaToolCall>, more: seq<DeltaToolCall>, x: nat)
    ensures var before, after := PlaceAll(calls), PlaceAll(calls + more);
            && (IdOf(before, x).Some? ==> IdOf(after, x) == IdOf(before, x))
            && (NameOf(before, x).Some? ==> NameOf(after, x) == NameOf(before, x))
  {
    hide IdOf, NameOf, PlaceAll, Place;
    if more == [] {
      assert calls + more == calls;
    } else {
      var n := |more| - 1;
      KnownOnwards(calls, more[..n], x);
      assert calls + more == (calls + more[..n]) + [more[n]];
      PlaceAllSnoc(calls + more[..n], more[n]);
      var placed := PlaceAll(calls + more[..n]);
      KnownStays(placed, Placed(Place(placed, more[n]), more[n]), x);
    }
  }

  lemma {:induction false} OneCallTells(placed: seq<Placed>, call: DeltaToolCall, x: nat)
    ensures var after, events := placed + [Placed(Place(placed, call), call)], CallEvents(placed, call);
            && (forall event :: event in events ==> Fits(after, event))
            && (IdOf(after, x) != IdOf(placed, x) ==> IdTold(after, events, x))
            && (NameOf(after, x) != NameOf(placed, x) ==> NameTold(after, events, x))
  {
    hide IdOf, NameOf, Place;
    var index := Place(placed, call);
    KnownStays(placed, Placed(index, call), x);
    var events := CallEvents(placed, call);
    if x == index && events != [] {
      assert events[0] in events;
    }
  }

  /** The events of some call fragments fit what comes of them, and tell all that they made known. */
  lemma {:induction false} CallsTell(before: seq<DeltaToolCall>, calls: seq<DeltaToolCall>, x: nat)
    ensures var was, now, events := PlaceAll(before), PlaceAll(before + calls), CallsEvents(before, calls);
            && (forall event :: event in events ==> Fits(now, event))
            && (IdOf(now, x).Some? && IdOf(was, x).None? ==> IdTold(now, events, x))
            && (NameOf(now, x).Some? && NameOf(was, x).None? ==> NameTold(now, events, x))
  {
    hide IdOf, NameOf, PlaceAll, Place, CallEvents;
    if calls == [] {
      assert before + calls == before;
    } else {
      var n := |calls| - 1;
      var earlier, last := before + calls[..n], calls[n];
      CallsTell(before, calls[..n], x);
      assert before + calls == earlier + [last];
      PlaceAllSnoc(earlier, last);
      var placed, now := PlaceAll(earlier), PlaceAll(before + calls);
      var p := Placed(Place(placed, last), last);
      OneCallTells(placed, last, x);
      KnownStays(placed, p, x);
      var first, later := CallsEvents(before, calls[..n]), CallEvents(placed, last);
      assert CallsEvents(before, calls) == first + later;
      hide CallsEvents;
      forall event | event in first + later
        ensures Fits(now, event)
      {
        if event in first && event.ToolArgs? {
          KnownStays(placed, p, event.index);
        }
      }
      ToldStill(placed, now, first, later, x);
    }
  }

  lemma {:induction false} ToldStill(
    placed: seq<Placed>, now: seq<Placed>, first: seq<LlmEvent>, later: seq<LlmEvent>, x: nat)
    ensures IdTold(placed, first, x) && IdOf(now, x) == IdOf(placed, x) ==> IdTold(now, first + later, x)
    ensures NameTold(placed, first, x) && NameOf(now, x) == NameOf(placed, x) ==> NameTold(now, first + later, x)
    ensures IdTold(now, later, x) ==> IdTold(now, first + later, x)
    ensures NameTold(now, later, x) ==> NameTold(now, first + later, x)
  {
    hide IdOf, NameOf;
  }

  /**
   Whatever an argument event says of its call's id and name is what the reply has for it, and
   the id and the name of every call are told by some event.
   */
  lemma {:induction false} EventsTellNames(steps: seq<Step>, x: nat)
    ensures forall event :: event in EventsOf(steps) ==> Fits(PlacedCalls(steps), event)
    ensures IdOf(PlacedCalls(steps), x).Some? ==> IdTold(PlacedCalls(steps), EventsOf(steps), x)
    ensures NameOf(PlacedCalls(steps), x).Some? ==> NameTold(PlacedCalls(steps), EventsOf(steps), x)
  {
    hide PlaceAll, CallsEvents, DetailEvents, ScalarEvents, IdTold, NameTold;
    if steps == [] {
      NothingPlaced(x);
    } else {
      var n := |steps| - 1;
      var before, last := steps[..n], steps[n];
      EventsTellNames(before, x);
      assert steps == before + [last];
      if last.DeltaSeen? {
        var d, calls := last.choice.delta, CallsIn(before);
        assert CallsIn(steps) == calls + d.toolCalls;
        CallsTell(calls, d.toolCalls, x);
        KnownOnwards(calls, d.toolCalls, x);
        assert EventsOf(steps) == EventsOf(before) + DeltaEvents(calls, d);
        hide EventsOf, CallsIn, IdOf, NameOf;
        forall event | event in EventsOf(before)
          ensures Fits(PlaceAll(calls + d.toolCalls), event)
        {
          if event.ToolArgs? {
            KnownOnwards(calls, d.toolCalls, event.index);
          }
        }
        TextsHaveNoNames(d);
        var now := PlaceAll(calls + d.toolCalls);
        ToldStill(PlaceAll(calls), now, EventsOf(before), DeltaEvents(calls, d), x);
        ToldStill(now, now, ScalarEvents(d) + DetailEvents(d.reasoningDetails), CallsEvents(calls, d.toolCalls), x);
      } else {
        assert CallsIn(steps) == CallsIn(before) + [] == CallsIn(before);
      }
    }
  }

  lemma {:induction false} NothingPlaced(x: nat)
    ensures IdOf(PlacedCalls([]), x) == None && NameOf(PlacedCalls([]), x) == None
  {
  }

  lemma {:induction false} TextsHaveNoNames(d: Delta)
    ensures forall event :: event in ScalarEvents(d) + DetailEvents(d.reasoningDetails) ==> !event.ToolArgs?
  {
    DetailEventsAreTexts(d.reasoningDetails);
    hide DetailEvents;
  }
}
