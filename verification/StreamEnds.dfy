/**
 How a streamed call ends (`read_sse` of `src/llm/stream.rs`), told of its payloads: a failing
 payload, a silent or broken connection, and a body that closes before the model was done.
 */
module StreamEnds {
  import opened Prelude
  import opened Reply
  import opened Stream
  import OpenAi
  import OpenAiAnswer
  import AnthropicStream
  import AnthropicAnswer

  /** A payload in which the model says why it stops. */
  ghost predicate Finishes(codecs: Codecs, format: ApiFormat, payload: string) {
    match format
    case OpenaiFormat =>
      exists step, reason :: step in OpenAi.StepsOf(codecs.openai, payload) && OpenAiAnswer.Gives(step, reason)
    case AnthropicFormat =>
      exists step :: step in AnthropicStream.StepsOf(codecs.anthropic, payload) && step.Reason?
  }

  /** The error of a body that was cut, in the words of each format. */
  function Cut(format: ApiFormat): GatewayError {
    if format.OpenaiFormat? then OpenAi.CUT else AnthropicStream.CUT
  }

  lemma {:induction false} OpenaiStepOfPayload(codecs: Codecs, payloads: seq<string>, step: OpenAi.Step)
    ensures step in OpenaiSteps(codecs, payloads) <==>
              exists i :: 0 <= i < |payloads| && step in OpenAi.StepsOf(codecs.openai, payloads[i])
  {
    hide OpenAi.StepsOf;
    if payloads != [] {
      var n := |payloads| - 1;
      OpenaiStepOfPayload(codecs, payloads[..n], step);
      assert payloads == payloads[..n] + [payloads[n]];
    }
  }

  lemma {:induction false} AnthropicStepOfPayload(codecs: Codecs, payloads: seq<string>, step: AnthropicStream.Step)
    ensures step in AnthropicSteps(codecs, payloads) <==>
              exists i :: 0 <= i < |payloads| && step in AnthropicStream.StepsOf(codecs.anthropic, payloads[i])
  {
    hide AnthropicStream.StepsOf;
    if payloads != [] {
      var n := |payloads| - 1;
      AnthropicStepOfPayload(codecs, payloads[..n], step);
      assert payloads == payloads[..n] + [payloads[n]];
    }
  }

  /** A payload after which the stream goes on holds no end marker. */
  lemma {:induction false} GoingOnMarksNothing(codecs: Codecs, format: ApiFormat, payload: string)
    requires FlowOf(codecs, format, payload) == Ok(More)
    ensures format.OpenaiFormat? ==> OpenAi.DoneSeen !in OpenAi.StepsOf(codecs.openai, payload)
    ensures format.AnthropicFormat? ==> AnthropicStream.Stopped !in AnthropicStream.StepsOf(codecs.anthropic, payload)
  {
    match format {
      case OpenaiFormat =>
        var text := codecs.openai.trim(payload);
        OpenAiAnswer.FlowTells(codecs.openai, payload);
        if text != "" && text != "[DONE]" && codecs.openai.chunk(text).Ok? {
          OnlyDeltas(codecs.openai.chunk(text).value.choices);
        }
        hide OpenAi.StepsOf, OpenAi.FlowOf, OpenAiAnswer.FirstChoice;
      case AnthropicFormat =>
        var text := codecs.anthropic.trim(payload);
        AnthropicAnswer.FlowTells(codecs.anthropic, payload);
        if text != "" && codecs.anthropic.event(text).Ok? {
          AnthropicAnswer.EventTells(codecs.anthropic.event(text).value);
        }
        hide AnthropicStream.StepsOf, AnthropicStream.FlowOf, AnthropicStream.EventSteps;
    }
  }

  lemma {:induction false} OnlyDeltas(choices: seq<OpenAi.ChunkChoice>)
    ensures forall step :: step in OpenAiAnswer.FirstChoice(choices) ==> step.DeltaSeen?
  {
    OpenAiAnswer.ChoicesTell(choices);
    hide OpenAiAnswer.FirstChoice;
    ChoiceStepsAreDeltas(choices);
  }

  lemma {:induction false} ChoiceStepsAreDeltas(choices: seq<OpenAi.ChunkChoice>)
    ensures forall step :: step in OpenAi.ChoiceSteps(choices) ==> step.DeltaSeen?
  {
    if choices != [] {
      ChoiceStepsAreDeltas(choices[..|choices| - 1]);
    }
  }

  lemma {:induction false} StopsNowhere(codecs: Codecs, format: ApiFormat, payloads: seq<string>)
    ensures StopAt(codecs, format, payloads) == |payloads| <==>
              forall i :: 0 <= i < |payloads| ==> FlowOf(codecs, format, payloads[i]) == Ok(More)
  {
    hide FlowOf;
    if payloads != [] {
      StopsNowhere(codecs, format, payloads[1..]);
      assert forall i :: 1 <= i < |payloads| ==> payloads[i] == payloads[1..][i - 1];
      assert payloads == [payloads[0]] + payloads[1..];
    }
  }

  /**
   How a stream of any payloads ends when none of them ends or fails it: a silent connection is a
   timeout, a broken one its own error, and a body that just closes is cut exactly when the model
   never said why it stops, whatever was said until then.
   */
  lemma {:induction false} OpenEndsTell(codecs: Codecs, format: ApiFormat, payloads: seq<string>, ending: Ending)
    requires forall i :: 0 <= i < |payloads| ==> FlowOf(codecs, format, payloads[i]) == Ok(More)
    ensures var reply := ReadingOf(codecs, format, payloads, ending).reply;
            && (ending.Silent? ==> reply == Err(Timeout))
            && (ending.Broken? ==> reply == Err(ending.error))
            && (ending.Closed? ==>
                  (reply == Err(Cut(format)) <==>
                     forall i :: 0 <= i < |payloads| ==> !Finishes(codecs, format, payloads[i])))
    ensures Cut(format).IsRetryable()
  {
    hide FlowOf, AnswerOf, EventsOf, Finishes;
    StopsNowhere(codecs, format, payloads);
    hide StopAt;
    if ending.Closed? {
      if format.OpenaiFormat? {
        ClosedOpenai(codecs, payloads);
      } else {
        ClosedAnthropic(codecs, payloads);
      }
    }
    CutsAreRetryable();
  }

  lemma {:induction false} CutsAreRetryable()
    ensures OpenAi.CUT.IsRetryable() && AnthropicStream.CUT.IsRetryable()
  {
  }

  lemma {:induction false} ClosedOpenai(codecs: Codecs, payloads: seq<string>)
    requires forall i :: 0 <= i < |payloads| ==> FlowOf(codecs, OpenaiFormat, payloads[i]) == Ok(More)
    ensures AnswerOf(codecs, HistoryOf(codecs, OpenaiFormat, payloads)) == Err(Cut(OpenaiFormat)) <==>
              forall i :: 0 <= i < |payloads| ==> !Finishes(codecs, OpenaiFormat, payloads[i])
  {
    hide FlowOf, OpenAi.AnswerOf, OpenAi.StepsOf, OpenaiSteps, OpenAiAnswer.Gives;
    var steps := OpenaiSteps(codecs, payloads);
    OpenAiAnswer.CutMeans(steps);
    forall step
      ensures step in steps <==> exists i :: 0 <= i < |payloads| && step in OpenAi.StepsOf(codecs.openai, payloads[i])
    {
      OpenaiStepOfPayload(codecs, payloads, step);
    }
    forall i | 0 <= i < |payloads|
      ensures OpenAi.DoneSeen !in OpenAi.StepsOf(codecs.openai, payloads[i])
    {
      GoingOnMarksNothing(codecs, OpenaiFormat, payloads[i]);
    }
    assert forall k :: 0 <= k < |steps| ==> steps[k] in steps;
    if i, step, reason :| 0 <= i < |payloads| && step in OpenAi.StepsOf(codecs.openai, payloads[i])
                          && OpenAiAnswer.Gives(step, reason) {
      assert step in steps;
      var k :| 0 <= k < |steps| && steps[k] == step;
    }
  }

  lemma {:induction false} ClosedAnthropic(codecs: Codecs, payloads: seq<string>)
    requires forall i :: 0 <= i < |payloads| ==> FlowOf(codecs, AnthropicFormat, payloads[i]) == Ok(More)
    ensures AnswerOf(codecs, HistoryOf(codecs, AnthropicFormat, payloads)) == Err(Cut(AnthropicFormat)) <==>
              forall i :: 0 <= i < |payloads| ==> !Finishes(codecs, AnthropicFormat, payloads[i])
  {
    hide FlowOf, AnthropicStream.AnswerOf, AnthropicStream.StepsOf, AnthropicSteps;
    var steps := AnthropicSteps(codecs, payloads);
    AnthropicAnswer.CutMeans(codecs.anthropic, steps);
    forall step
      ensures step in steps <==>
                exists i :: 0 <= i < |payloads| && step in AnthropicStream.StepsOf(codecs.anthropic, payloads[i])
    {
      AnthropicStepOfPayload(codecs, payloads, step);
    }
    forall i | 0 <= i < |payloads|
      ensures AnthropicStream.Stopped !in AnthropicStream.StepsOf(codecs.anthropic, payloads[i])
    {
      GoingOnMarksNothing(codecs, AnthropicFormat, payloads[i]);
    }
    assert forall k :: 0 <= k < |steps| ==> steps[k] in steps;
    if i, step :| 0 <= i < |payloads| && step in AnthropicStream.StepsOf(codecs.anthropic, payloads[i])
                  && step.Reason? {
      assert step in steps;
      var k :| 0 <= k < |steps| && steps[k] == step;
    }
  }

  /** A payload that fails the stream is its error, whatever else the body holds and however it ends. */
  lemma {:induction false} FailuresEndTheStream(
    codecs: Codecs, format: ApiFormat, payloads: seq<string>, ending: Ending, k: nat)
    requires k < |payloads| && FlowOf(codecs, format, payloads[k]).Err?
    requires forall i :: 0 <= i < k ==> FlowOf(codecs, format, payloads[i]) == Ok(More)
    ensures ReadingOf(codecs, format, payloads, ending).reply == Err(FlowOf(codecs, format, payloads[k]).error)
  {
    hide FlowOf, AnswerOf, EventsOf, HistoryOf;
    FirstStop(codecs, format, payloads, k);
    hide StopAt;
  }

  lemma {:induction false} FirstStop(codecs: Codecs, format: ApiFormat, payloads: seq<string>, k: nat)
    requires k < |payloads| && FlowOf(codecs, format, payloads[k]) != Ok(More)
    requires forall i :: 0 <= i < k ==> FlowOf(codecs, format, payloads[i]) == Ok(More)
    ensures StopAt(codecs, format, payloads) == k
  {
    hide FlowOf;
    if k > 0 {
      assert forall i :: 0 <= i < k - 1 ==> payloads[1..][i] == payloads[i + 1];
      FirstStop(codecs, format, payloads[1..], k - 1);
    }
  }

  /** An end marker ends the stream there: the answer is that of the payloads up to it, however the body ends. */
  lemma {:induction false} MarkersEndTheStream(
    codecs: Codecs, format: ApiFormat, payloads: seq<string>, ending: Ending, k: nat)
    requires k < |payloads| && FlowOf(codecs, format, payloads[k]) == Ok(Done)
    requires forall i :: 0 <= i < k ==> FlowOf(codecs, format, payloads[i]) == Ok(More)
    ensures ReadingOf(codecs, format, payloads, ending)
         == Reading(AnswerOf(codecs, HistoryOf(codecs, format, payloads[..k + 1])),
              EventsOf(HistoryOf(codecs, format, payloads[..k + 1])))
  {
    hide FlowOf, AnswerOf, EventsOf, HistoryOf;
    FirstStop(codecs, format, payloads, k);
    hide StopAt;
  }
}
