/**
 The streaming reader (`src/llm/stream.rs`): network chunks in, one reply and
 the events of one attempt out.

 What it returns is a function of the whole body's payloads, so no way of
 cutting the body into chunks shows in the reply, the error or the events.
 */
module Stream {
  import opened Prelude
  import opened Reply
  import Sse
  import OpenAi
  import AnthropicStream

  datatype ApiFormat = OpenaiFormat | AnthropicFormat

  datatype Codecs = Codecs(lossy: Sse.Lossy, openai: OpenAi.Codec, anthropic: AnthropicStream.Codec)

  /** How the body ends once its last chunk arrived: closed, silent past the idle bound, or broken. */
  datatype Ending = Closed | Silent | Broken(error: GatewayError)

  // ----- What a body stands for -----

  datatype History = OpenaiHistory(openai: seq<OpenAi.Step>) | AnthropicHistory(anthropic: seq<AnthropicStream.Step>)

  function FlowOf(codecs: Codecs, format: ApiFormat, payload: string): Result<Flow, GatewayError> {
    match format
    case OpenaiFormat => OpenAi.FlowOf(codecs.openai, payload)
    case AnthropicFormat => AnthropicStream.FlowOf(codecs.anthropic, payload)
  }

  function OpenaiSteps(codecs: Codecs, payloads: seq<string>): seq<OpenAi.Step> {
    if payloads == [] then []
    else OpenaiSteps(codecs, payloads[..|payloads| - 1]) + OpenAi.StepsOf(codecs.openai, payloads[|payloads| - 1])
  }

  function AnthropicSteps(codecs: Codecs, payloads: seq<string>): seq<AnthropicStream.Step> {
    if payloads == [] then []
    else
      AnthropicSteps(codecs, payloads[..|payloads| - 1])
      + AnthropicStream.StepsOf(codecs.anthropic, payloads[|payloads| - 1])
  }

  function HistoryOf(codecs: Codecs, format: ApiFormat, payloads: seq<string>): History {
    match format
    case OpenaiFormat => OpenaiHistory(OpenaiSteps(codecs, payloads))
    case AnthropicFormat => AnthropicHistory(AnthropicSteps(codecs, payloads))
  }

  function AnswerOf(codecs: Codecs, history: History): Result<LlmReply, GatewayError> {
    match history
    case OpenaiHistory(steps) => OpenAi.AnswerOf(steps)
    case AnthropicHistory(steps) => AnthropicStream.AnswerOf(codecs.anthropic, steps)
  }

  function EventsOf(history: History): seq<LlmEvent> {
    match history
    case OpenaiHistory(steps) => OpenAi.EventsOf(steps)
    case AnthropicHistory(steps) => AnthropicStream.EventsOf(steps)
  }

  /** The first payload that ends the stream or fails it, or the number of payloads. */
  function StopAt(codecs: Codecs, format: ApiFormat, payloads: seq<string>): (k: nat)
    ensures k <= |payloads|
    ensures k < |payloads| ==> FlowOf(codecs, format, payloads[k]) != Ok(More)
  {
    if payloads == [] || FlowOf(codecs, format, payloads[0]) != Ok(More) then 0
    else 1 + StopAt(codecs, format, payloads[1..])
  }

  datatype Reading = Reading(reply: Result<LlmReply, GatewayError>, events: seq<LlmEvent>)

  /** The reply and the events of a body, from its payloads and the way it ends. */
  function ReadingOf(codecs: Codecs, format: ApiFormat, payloads: seq<string>, ending: Ending): Reading {
    var k := StopAt(codecs, format, payloads);
    var history := HistoryOf(codecs, format, if k < |payloads| then payloads[..k + 1] else payloads);
    var reply :=
      if k < |payloads| && FlowOf(codecs, format, payloads[k]).Err? then Err(FlowOf(codecs, format, payloads[k]).error)
      else if k == |payloads| && ending.Silent? then Err(Timeout)
      else if k == |payloads| && ending.Broken? then Err(ending.error)
      else AnswerOf(codecs, history);
    Reading(reply, EventsOf(history))
  }

  lemma {:induction false} StopAtAppend(codecs: Codecs, format: ApiFormat, a: seq<string>, b: seq<string>)
    ensures StopAt(codecs, format, a + b) ==
              if StopAt(codecs, format, a) < |a| then StopAt(codecs, format, a)
              else |a| + StopAt(codecs, format, b)
  {
    if a == [] {
      assert a + b == b;
    } else {
      assert (a + b)[1..] == a[1..] + b;
      StopAtAppend(codecs, format, a[1..], b);
    }
  }

  /** Once the stream has stopped, nothing after the stopping payload is read. */
  lemma StoppedReadsNoMore(
    codecs: Codecs, format: ApiFormat, fed: seq<string>, last: string, rest: seq<string>, ending: Ending)
    requires StopAt(codecs, format, fed) == |fed| && FlowOf(codecs, format, last) != Ok(More)
    ensures var history := HistoryOf(codecs, format, fed + [last]);
            ReadingOf(codecs, format, fed + [last] + rest, ending) ==
              Reading(
                if FlowOf(codecs, format, last).Err? then Err(FlowOf(codecs, format, last).error)
                else AnswerOf(codecs, history),
                EventsOf(history))
  {
    hide HistoryOf, AnswerOf, EventsOf, FlowOf;
    var payloads := fed + [last] + rest;
    StopAtAppend(codecs, format, fed, [last] + rest);
    assert payloads == fed + ([last] + rest);
    assert payloads[|fed|] == last;
    assert payloads[..|fed| + 1] == fed + [last];
  }

  // ----- The reader -----

  datatype Assembler = Openai(openai: OpenAi.Assembler) | Anthropic(anthropic: AnthropicStream.Assembler)

  /** The assembler has been fed exactly these payloads. */
  ghost predicate Fed(assembler: Assembler, codecs: Codecs, format: ApiFormat, payloads: seq<string>)
    reads match assembler case Openai(a) => {a as object} case Anthropic(a) => {a as object}
  {
    match assembler
    case Openai(a) => format.OpenaiFormat? && a.codec == codecs.openai
      && a.Valid() && a.steps == OpenaiSteps(codecs, payloads)
    case Anthropic(a) =>
      format.AnthropicFormat? && a.codec == codecs.anthropic && a.Valid() && a.steps == AnthropicSteps(codecs, payloads)
  }

  method NewAssembler(codecs: Codecs, format: ApiFormat) returns (assembler: Assembler)
    ensures Fed(assembler, codecs, format, [])
    ensures match assembler case Openai(a) => fresh(a) case Anthropic(a) => fresh(a)
  {
    if format.OpenaiFormat? {
      var a := new OpenAi.Assembler(codecs.openai);
      assembler := Openai(a);
    } else {
      var a := new AnthropicStream.Assembler(codecs.anthropic);
      assembler := Anthropic(a);
    }
  }

  method Feed(assembler: Assembler, codecs: Codecs, format: ApiFormat, payload: string, ghost payloads: seq<string>)
    returns (flow: Result<Flow, GatewayError>, events: seq<LlmEvent>)
    requires Fed(assembler, codecs, format, payloads)
    modifies match assembler case Openai(a) => {a as object} case Anthropic(a) => {a as object}
    ensures Fed(assembler, codecs, format, payloads + [payload])
    ensures flow == FlowOf(codecs, format, payload)
    ensures EventsOf(HistoryOf(codecs, format, payloads + [payload])) ==
              EventsOf(HistoryOf(codecs, format, payloads)) + events
  {
    assert (payloads + [payload])[..|payloads|] == payloads;
    match assembler {
      case Openai(a) =>
        flow, events := a.Feed(payload);
      case Anthropic(a) =>
        flow, events := a.Feed(payload);
    }
  }

  method Finish(assembler: Assembler, codecs: Codecs, format: ApiFormat, ghost payloads: seq<string>)
    returns (reply: Result<LlmReply, GatewayError>)
    requires Fed(assembler, codecs, format, payloads)
    ensures reply == AnswerOf(codecs, HistoryOf(codecs, format, payloads))
  {
    match assembler {
      case Openai(a) =>
        reply := a.Finish();
      case Anthropic(a) =>
        reply := a.Finish();
    }
  }

  /** Feed the payloads of one chunk; `stopped` as soon as one ends or fails the stream. */
  method FeedAll(
    assembler: Assembler, codecs: Codecs, format: ApiFormat, payloads: seq<string>, ghost before: seq<string>)
    returns (stopped: bool, reply: Result<LlmReply, GatewayError>, events: seq<LlmEvent>, ghost fed: seq<string>)
    requires Fed(assembler, codecs, format, before)
    requires StopAt(codecs, format, before) == |before|
    modifies match assembler case Openai(a) => {a as object} case Anthropic(a) => {a as object}
    ensures !stopped ==> Fed(assembler, codecs, format, before + payloads)
    ensures !stopped ==> StopAt(codecs, format, before + payloads) == |before + payloads|
    ensures !stopped ==> EventsOf(HistoryOf(codecs, format, before + payloads)) ==
                           EventsOf(HistoryOf(codecs, format, before)) + events
    ensures stopped ==> fed <= payloads && forall rest, ending ::
              ReadingOf(codecs, format, before + fed + rest, ending) ==
                Reading(reply, EventsOf(HistoryOf(codecs, format, before)) + events)
  {
    hide FlowOf, HistoryOf, AnswerOf, EventsOf, StopAt, ReadingOf, Fed;
    stopped, reply, events, fed := false, Err(Timeout), [], [];
    assert before + payloads[..0] == before;
    for i := 0 to |payloads|
      invariant Fed(assembler, codecs, format, before + payloads[..i])
      invariant StopAt(codecs, format, before + payloads[..i]) == |before + payloads[..i]|
      invariant EventsOf(HistoryOf(codecs, format, before + payloads[..i])) ==
                  EventsOf(HistoryOf(codecs, format, before)) + events
    {
      ghost var so := before + payloads[..i];
      assert payloads[..i + 1] == payloads[..i] + [payloads[i]];
      ConcatAssociates(before, payloads[..i], [payloads[i]]);
      var flow, more := Feed(assembler, codecs, format, payloads[i], so);
      ConcatAssociates(EventsOf(HistoryOf(codecs, format, before)), events, more);
      events := events + more;
      if flow != Ok(More) {
        stopped, fed := true, payloads[..i + 1];
        if flow.Err? {
          reply := Err(flow.error);
        } else {
          reply := Finish(assembler, codecs, format, so + [payloads[i]]);
        }
        forall rest, ending
          ensures ReadingOf(codecs, format, before + fed + rest, ending) ==
                    Reading(reply, EventsOf(HistoryOf(codecs, format, before)) + events)
        {
          StoppedReadsNoMore(codecs, format, so, payloads[i], rest, ending);
        }
        return;
      }
      OneMore(codecs, format, payloads[i]);
      StopAtAppend(codecs, format, so, [payloads[i]]);
    }
    assert payloads[..|payloads|] == payloads;
  }

  lemma OneMore(codecs: Codecs, format: ApiFormat, payload: string)
    requires FlowOf(codecs, format, payload) == Ok(More)
    ensures StopAt(codecs, format, [payload]) == 1
  {
    assert [payload][1..] == [];
  }

  lemma EmptyBody(codecs: Codecs, format: ApiFormat)
    ensures Flatten<byte>([]) == [] && Sse.Payloads(codecs.lossy, []) == []
    ensures StopAt(codecs, format, []) == 0
    ensures EventsOf(HistoryOf(codecs, format, [])) == []
  {
  }

  /** The payloads of the whole body start with those of the chunks read. */
  lemma RestOfBody(
    lossy: Sse.Lossy, chunks: seq<seq<byte>>, n: nat, before: seq<string>, payloads: seq<string>, fed: seq<string>)
    requires n <= |chunks| && fed <= payloads
    requires Sse.Payloads(lossy, Flatten(chunks[..n])) == before + payloads
    ensures exists rest :: Sse.Payloads(lossy, Flatten(chunks)) == before + fed + rest
  {
    hide Sse.Payloads, Flatten;
    assert chunks == chunks[..n] + chunks[n..];
    FlattenAppend(chunks[..n], chunks[n..]);
    Sse.PayloadsGrow(lossy, Flatten(chunks[..n]), Flatten(chunks[n..]));
    PrefixGoesOn(before, fed, payloads, Sse.Payloads(lossy, Flatten(chunks)));
  }

  lemma PrefixGoesOn<T>(a: seq<T>, b: seq<T>, c: seq<T>, whole: seq<T>)
    requires b <= c && a + c <= whole
    ensures exists rest :: whole == a + b + rest
  {
    assert (a + c)[..|a + b|] == a + b;
    assert whole == a + b + whole[|a + b|..];
  }

  /** A body no payload of which stops the stream is read to its end. */
  lemma WholeBody(codecs: Codecs, format: ApiFormat, payloads: seq<string>, ending: Ending)
    requires StopAt(codecs, format, payloads) == |payloads|
    ensures ReadingOf(codecs, format, payloads, ending) ==
              Reading(
                match ending
                case Closed => AnswerOf(codecs, HistoryOf(codecs, format, payloads))
                case Silent => Err(Timeout)
                case Broken(error) => Err(error),
                EventsOf(HistoryOf(codecs, format, payloads)))
  {
  }

  /** Read a body chunk by chunk. Only the concatenation of the chunks matters. */
  method ReadSse(codecs: Codecs, format: ApiFormat, chunks: seq<seq<byte>>, ending: Ending)
    returns (reply: Result<LlmReply, GatewayError>, events: seq<LlmEvent>)
    ensures Reading(reply, events) ==
              ReadingOf(codecs, format, Sse.Payloads(codecs.lossy, Flatten(chunks)), ending)
  {
    hide FlowOf, HistoryOf, AnswerOf, EventsOf, StopAt, ReadingOf,
      Fed, Flatten, Sse.Payloads, Sse.Added, Sse.SseParser.Valid;
    var parser := new Sse.SseParser(codecs.lossy);
    var assembler := NewAssembler(codecs, format);
    events := [];
    EmptyBody(codecs, format);
    for i := 0 to |chunks|
      invariant parser.Valid() && parser.lossy == codecs.lossy && parser.received == Flatten(chunks[..i])
      invariant fresh(parser) && match assembler case Openai(a) => fresh(a) case Anthropic(a) => fresh(a)
      invariant Fed(assembler, codecs, format, Sse.Payloads(codecs.lossy, parser.received))
      invariant StopAt(codecs, format, Sse.Payloads(codecs.lossy, parser.received)) ==
                  |Sse.Payloads(codecs.lossy, parser.received)|
      invariant EventsOf(HistoryOf(codecs, format, Sse.Payloads(codecs.lossy, parser.received))) == events
    {
      ghost var before := Sse.Payloads(codecs.lossy, parser.received);
      FlattenSnoc(chunks[..i], chunks[i]);
      assert chunks[..i + 1] == chunks[..i] + [chunks[i]];
      var payloads := parser.Push(chunks[i], []);
      assert Sse.Payloads(codecs.lossy, parser.received) == before + payloads;
      ghost var fed;
      var stopped, answer, more;
      stopped, answer, more, fed := FeedAll(assembler, codecs, format, payloads, before);
      events := events + more;
      if stopped {
        RestOfBody(codecs.lossy, chunks, i + 1, before, payloads, fed);
        return answer, events;
      }
    }
    assert chunks[..|chunks|] == chunks;
    match ending {
      case Closed => reply := Finish(assembler, codecs, format, Sse.Payloads(codecs.lossy, parser.received));
      case Silent => reply := Err(Timeout);
      case Broken(error) => reply := Err(error);
    }
    WholeBody(codecs, format, Sse.Payloads(codecs.lossy, parser.received), ending);
  }
}
