# Verification of the research agent

A command-line research agent asks a language model to answer a goal, lets it
search the web and fetch pages, and checks the answer it gives against the pages
it read. This project models the parts of it that hold state or do arithmetic and
proves what they promise. It is written in Dafny; `dafny verify dfyconfig.toml`
checks all of it.

The model keeps the form of the program. What the program updates in place is a
class, a loop is a loop with its invariants, and each is proved against a
specification written without the loop: the whole body instead of its chunks, the
whole run instead of one call, the set of legs instead of the order of a hash
map. The lemmas are about those specifications.

- **Streaming gateway** (`Sse`, `OpenAi`, `AnthropicStream`, `Stream`, with
  `Response` and `MessagesReply` as the single-body parsers; `SseFrames`,
  `OpenAiCuts`, `OpenAiAnswer`, `AnthropicAnswer` and `StreamEnds` say what the
  answers are in terms of the wire). A body of
  server-sent events gives the same payloads, events and reply however it is cut
  into chunks (the `data` part of section 9.2 of the WHATWG HTML standard, with
  only `\n` and `\r\n` as line breaks), and each assembler agrees with its
  single-body parser.
- **Retries and what is shown of them** (`Retry`, `Progress`). Tries, timeouts and
  sleeps are bounded in every run, and the progress line only ever shows the
  attempt in flight.
- **Agent loop** (`Budget`, `Dispatch`, `Runner`, `Transcript`, `MessagesRequest`,
  `FetchMemory`, `RunEvidence`, `Trace`). `Runner.RunLoop` is proved against an
  exact account of a run (`Follows`, `EndOf`) and, apart from it, to keep the
  invariants of `LogOk` in every run; `CallLaws` and `RunLaws` tell that account
  by the replies, the tools and the clock. Stored turns reach the Anthropic wire
  whole and paired, fetched pages are kept and reported once, and the trace
  rebuilds every request.
- **Rank fusion** (`Fusion`, `FusionGroups`, `FusionScores`). The merged list runs
  from the best score to the worst and is the same for every interleaving of the
  legs and every order of the hash maps, with scores of any ordered type added by
  any operation.
- **Kernels** (`Calendar`, `Timestamps`, `Codecs`, `Pages`, `Containers`, `Gate`)
  and the **grounding check** (`Verify`, `Grounding`).

What the program takes from elsewhere is a parameter, so the statements hold for
every behaviour of it: lossy UTF-8 decoding, JSON decoding and printing, URL
identity, the text tools of the grounding check, rendered results and prompt
texts, the network, the tools, the random jitter and every clock reading. Assumed
of them is only that the score order is a total order.

Where the code and its comments differ the model follows the code:

- The comments on `ToolResult::Fetch` (`src/research/agent_loop/result.rs:84-87`)
  and `ToolEvidence::page` (`src/research/agent_loop/types.rs:208-212`) say the
  first delivery of a page is the call that fetched it over the network. The page
  is an earlier call's exactly when it was known under its final URL
  (`FetchMemory.FirstOfEarlierFetch`). Then the first delivery may ask no network
  (`FetchMemory.PastEndThenMemory`, with its condition in
  `FetchMemory.FirstFromMemory`) or ask it for an alias of the page
  (`FetchMemory.AliasThenFirst`).
- The usage counters of an Anthropic stream are said only to grow
  (`src/llm/stream/anthropic.rs:236-239`). An integer of 64 bits does, exactly
  until a report that is neither a number nor null. Any other number counts as
  zero, so a smaller count can replace it and it can be dropped unseen
  (`AnthropicStream.CountNeverFalls` and `AnthropicStream.CounterIsLargestEver`
  have the exact conditions, `AnthropicStream.OtherNumbersMislead` and
  `AnthropicStream.ReplyForgetsCount` the streams where they show).
- A number in a bullet is meant to match the same number on the page, or a version
  it starts (`src/research/agent_loop/verify.rs:193-195`). The code looks at the
  digit groups and not at what separates them (`Verify.SeparatorsAreNotSeen`), so
  other numbers pass too: `Verify.NumberMatches` says exactly which, and
  `Verify.OtherNumbersPass` names three kinds.
- The fixed-width date sorts as text exactly up to the year 9999
  (`Calendar.StringsAscendUpTo9999`).
- The index of an argument event is said to be the call's position in the reply
  (`src/llm/stream.rs:34-36`). On the Chat Completions wire it is the wire index,
  which is that position exactly when every smaller index has a call
  (`OpenAiCuts.EventsPointAtCallsWhenDense`, `OpenAiCuts.LoneCallAtOne`); on the
  Anthropic wire it always is (`AnthropicStream.EventsPointAtCalls`).

## Model

| member | source | states |
|---|---|---|
| `Sse.SseParser.Push` | src/llm/stream/sse.rs:27-38 | Appends to the payloads exactly those the whole body read so far has beyond the ones it had, so any cut of a body into chunks gives the same payloads |
| `Sse.SseParser.TakeLine` | src/llm/stream/sse.rs:40-63 | One finished line either joins the open event or, when blank, dispatches it, as the whole-body reading of the lines does |
| `Sse.AddedInSteps` | src/llm/stream/sse.rs:27-63 | What two chunks add one after the other is what they add as one |
| `Sse.PayloadsGrow` | src/llm/stream/sse.rs:27-63 | More bytes never change or take back a payload already dispatched |
| `Sse.LinesAppend` | src/llm/stream/sse.rs:27-38 | The lines of two pieces of a body are those of the first, then those of its open line with the second |
| `Sse.EventsSnoc` | src/llm/stream/sse.rs:42-49 | A blank line dispatches the `data` lines since the last one, joined by newlines, and nothing when there were none |
| `Sse.SplitFindsData` | src/llm/stream/sse.rs:50-57 | Splitting at the first colon finds a `data` value exactly where the line grammar has one, less one leading space |
| `SseFrames.LinesReadBack` | src/llm/stream/sse.rs:27-63 | Lines written one after the other, each ended by a line break, are read back as they were, less a carriage return at their end |
| `SseFrames.EventsReadBack` | src/llm/stream/sse.rs:40-63 | Payloads framed as `data` lines and a blank line are read back, their lines joined |
| `SseFrames.FramesReadBack` | src/llm/stream/sse.rs:1-63 | A body of framed payloads, in any encoding that decodes back, gives exactly those payloads in order (section 9.2 of the WHATWG HTML standard) |
| `SseFrames.EitherBreakWillDo` | src/llm/stream/sse.rs:40-44 | A line break may be a line feed alone or after a carriage return |
| `SseFrames.OtherLinesAreSkipped` | src/llm/stream/sse.rs:50-61 | Comments and fields other than `data` change nothing |
| `Stream.ReadSse` | src/llm/stream.rs:103-127 | Reply or error and every event are a function of the whole body's payloads and the way the body ends, whatever the chunks |
| `Stream.StoppedReadsNoMore` | src/llm/stream.rs:121-125 | Payloads after the one that ended or failed the stream change neither the reply nor the events |
| `Stream.FeedAll` | src/llm/stream.rs:121-125 | Feeding payloads stops at the first that ends or fails the stream and emits the events of those up to it |
| `StreamEnds.OpenEndsTell` | src/llm/stream.rs:98-127 | When no payload ends or fails the stream: silence is a timeout, a broken connection its own error, and a body that closes is cut, which a retry may mend, exactly when no payload said why the model stops |
| `StreamEnds.FailuresEndTheStream` | src/llm/stream.rs:121-125 | The first payload that fails the stream is its error, whatever else the body holds and however it ends |
| `StreamEnds.MarkersEndTheStream` | src/llm/stream.rs:121-125 | An end marker ends the stream there: the answer is that of the payloads up to it |
| `OpenAi.Assembler.Feed` | src/llm/stream/openai.rs:103-131 | One payload extends the history by its steps and emits exactly their events; errors and end markers are classified as the wire says |
| `OpenAi.Assembler.ApplyCall` | src/llm/stream/openai.rs:164-211 | A call fragment lands on its index, else on the call last named, else on a new one; first id and name stand and arguments are glued |
| `OpenAi.Assembler.Finish` | src/llm/stream/openai.rs:216-254 | The assembled reply or error is the single-body parse of the message made of each field's glued fragments |
| `OpenAi.EventsCarryReply` | src/llm/stream/openai.rs:133-211 | Text events concatenate to the reply's output, and the argument events of an index to that call's arguments |
| `OpenAiAnswer.FlowTells` | src/llm/stream/openai.rs:103-131 | What a payload does by what it decodes to: the end marker, a decoding error, an error object, or the usage and the deltas of choice 0 |
| `OpenAiAnswer.CutMeans` | src/llm/stream/openai.rs:213-221 | The cut error, which is retryable, exactly when there was neither an end marker nor a finish reason: never half a reply |
| `OpenAiAnswer.AnswerTells` | src/llm/stream/openai.rs:222-254 | A stream that came to its end is without a choice, a refusal with all that was said of it, or a reply with each text in order of arrival, the last finish reason and the last usage |
| `OpenAiAnswer.ReasonTells` | src/llm/stream/openai.rs:158-161 | The finish reason is the last non-empty one |
| `OpenAiAnswer.CallTells` | src/llm/stream/openai.rs:164-251 | With wire indices a call of the reply has the first id and name its fragments gave and all their arguments, `{}` without any |
| `OpenAiAnswer.OpenedInOrder` | src/llm/stream/openai.rs:170-177 | Without wire indices calls are numbered as they open, and a fragment belongs to the last one opened |
| `OpenAiAnswer.EventsCarryThoughts` | src/llm/stream/openai.rs:138-156 | The thinking events carry every piece of reasoning, delta by delta |
| `OpenAiAnswer.EventsTellNames` | src/llm/stream/openai.rs:183-211 | The id and name in an argument event are those the call has in the reply, and every call's id and name are told by some event |
| `OpenAi.CallIsItsFragments` | src/llm/stream/openai.rs:164-211 | With an index on every fragment a call is its own fragments: first id, first name, arguments glued in order |
| `OpenAi.AnswerIgnoresInterleaving` | src/llm/stream/openai.rs:133-254 | Two streams with the same glued texts, whose calls' own fragments say the same, have the same reply or error |
| `OpenAiCuts.AnswerIgnoresCuts` | src/llm/stream/openai.rs:133-254 | One delta anywhere in any stream may come as two, cut inside a text, between calls or inside a call's arguments, with or without wire indices: reply and error stay |
| `OpenAiCuts.AnswerIgnoresSwaps` | src/llm/stream/openai.rs:133-254 | Fragments of two different indices may come in either order anywhere in a stream unless the next fragment continues the last of them |
| `OpenAiCuts.ContinuationsShowTheOrder` | src/llm/stream/openai.rs:167-182 | A continuation without index or id goes to the fragment before it, so there the order does show |
| `OpenAiCuts.RepliesListEveryIndex` | src/llm/stream/openai.rs:236-251 | The reply has one call for every index used, in ascending order of index |
| `OpenAiCuts.EventsPointAtCallsWhenDense` | src/llm/stream.rs:34-36 | Every argument event names a call of the reply; its index is that call's position exactly when every smaller index has a call |
| `OpenAiCuts.LoneCallAtOne` | src/llm/stream.rs:34-36 | A stream whose only call has wire index 1: the event says 1 and the reply has the call first |
| `Response.ParseReply` | src/llm/response.rs:132-182 | The first choice's texts, calls and usage, with error bodies, empty choices and refusals as errors in that order |
| `OpenAiAnswer.BodyTells` | src/llm/response.rs:132-182 | A single body is an error, without a choice, a refusal, or its first choice with every call as requested |
| `Response.ThinkingGrows` | src/llm/response.rs:147-171 | Thinking is reasoning under reasoning content and each detail block under all before it, each text on a line of its own and none for an empty one |
| `Response.UsageOf` | src/llm/response.rs:187-203 | Counts, reasoning tokens among them, are those reported, cached tokens the larger of the two shapes, and a missing block counts nothing |
| `MessagesReply.ParseResponse` | src/llm/anthropic.rs:284-364 | Output, thinking, replay blocks and calls are gathered from the blocks in block order; an error body or a refusal is an error |
| `AnthropicAnswer.BodyTells` | src/llm/anthropic.rs:284-364 | A body is an error, a refusal with what was said of it, or a reply with the texts, thoughts, echoed blocks and calls of its blocks in block order |
| `AnthropicAnswer.UsageTells` | src/llm/anthropic.rs:334-355 | The prompt counts the input and both kinds of cached tokens, the total the output too: exact while they fit 64 bits and the greatest such number otherwise |
| `AnthropicAnswer.ReasonsTranslate` | src/llm/anthropic.rs:263-273 | Which reasons to stop read as stop, length and tool calls; any other stays as it is |
| `MessagesReply.SaturatingAdd` | src/llm/anthropic.rs:334-355 | A token sum is exact when it fits 64 bits, stays within them and never falls below either part |
| `AnthropicStream.Assembler.Feed` | src/llm/stream/anthropic.rs:105-156 | One payload extends the history by its steps and emits exactly their events |
| `AnthropicStream.Assembler.StartBlock` | src/llm/stream/anthropic.rs:158-187 | A known block opens a slot under its wire index; a tool block takes the next call number whatever that index is |
| `AnthropicStream.Assembler.ApplyDelta` | src/llm/stream/anthropic.rs:189-234 | A fragment reaches the newest slot opened under its index, and none when there is none |
| `AnthropicStream.Assembler.MergeUsage` | src/llm/stream/anthropic.rs:240-256 | A usage report replaces a counter unless it is null or a smaller number |
| `AnthropicStream.Assembler.Finish` | src/llm/stream/anthropic.rs:261-305 | The assembled reply or error is the single-message parse of the finished blocks, with unreadable call inputs put back as raw text |
| `AnthropicStream.PatchesLand` | src/llm/stream/anthropic.rs:271-305 | Each raw input replaces the arguments of exactly the call whose input did not parse |
| `AnthropicStream.FieldsFollowFragments` | src/llm/stream/anthropic.rs:189-234 | Each text field of a block is its start value followed by its fragments in order |
| `AnthropicStream.CallsAreToolSlots` | src/llm/stream/anthropic.rs:261-305 | The reply's calls are the tool blocks in the order they started |
| `AnthropicAnswer.CutMeans` | src/llm/stream/anthropic.rs:258-266 | The cut error, which is retryable, exactly when there was neither `message_stop` nor a stop reason |
| `AnthropicAnswer.AnswerTells` | src/llm/stream/anthropic.rs:261-305 | A stream that came to its end is a decoding error exactly when a counter is no count, a refusal with the text said, or a reply with the texts and thoughts of its blocks, its calls, the last stop reason and the counts |
| `AnthropicAnswer.SlotTells` | src/llm/stream/anthropic.rs:189-234 | A block ends as its start with the fragments brought to it, whichever blocks those between were for; a call's input holds nothing of its start |
| `AnthropicAnswer.ArgumentsTell` | src/llm/stream/anthropic.rs:271-283 | A call's arguments are its input when that is no JSON, else what it stands for, an empty input being an empty object |
| `AnthropicAnswer.FragmentTells` | src/llm/stream/anthropic.rs:189-234 | Which deltas carry a fragment for which channel |
| `AnthropicAnswer.TargetTells` | src/llm/stream/anthropic.rs:158-196 | A wire index means the newest block opened under it |
| `AnthropicAnswer.FlowTells` | src/llm/stream/anthropic.rs:105-156 | What a payload does by the event it decodes to |
| `AnthropicAnswer.EventTells` | src/llm/stream/anthropic.rs:118-156 | Which wire events are kept, and as what |
| `AnthropicAnswer.EventsCarryText` | src/llm/stream/anthropic.rs:189-234 | Text events carry the text fragments that reach a text block, in order of arrival |
| `AnthropicAnswer.EventsCarryThinking` | src/llm/stream/anthropic.rs:189-234 | Thinking events carry the thinking fragments that reach a thinking block |
| `AnthropicStream.EventsPointAtCalls` | src/llm/stream/anthropic.rs:158-234 | The index in every argument event is the position of that call in the reply's calls, whatever the wire block indices |
| `AnthropicStream.EventsCarryArguments` | src/llm/stream/anthropic.rs:189-234 | The argument events of a call concatenate to the input text its block gathered |
| `AnthropicStream.CounterIsLargest` | src/llm/stream/anthropic.rs:240-256 | A counter ends as a number exactly when one was reported since the last report that was neither a number nor null; it is then the largest of those, a number outside 64 bits counting as zero, and when that is not zero the counter is that very number |
| `AnthropicStream.CountNeverFalls` | src/llm/stream/anthropic.rs:236-256 | A step leaves a number a number that is no smaller, exactly when it is not a report of another type and puts no smaller 64-bit count in place of a number outside 64 bits; a 64-bit count falls or is lost exactly on a report of another type |
| `AnthropicStream.CounterIsLargestEver` | src/llm/stream/anthropic.rs:236-256 | The counter is at every moment the largest number reported so far, exactly when no step resets it after a number, puts a smaller count in place of a number outside 64 bits, or brings a larger number that is dropped |
| `AnthropicStream.OtherNumbersMislead` | src/llm/stream/anthropic.rs:240-256 | Streams of numbers alone that break it: 1000.0 then 1 leaves 1, and -3 then 0 leaves -3 |
| `AnthropicStream.StringForgetsCount` | src/llm/stream/anthropic.rs:240-256 | A stream that resets: 5, then a string, then 1 leaves 1 |
| `AnthropicStream.ReplyForgetsCount` | src/llm/stream/anthropic.rs:240-305 | That stream ends in a reply, and the reply counts 1 completion token |
| `Retry.ChatObserved` | src/llm/client.rs:207-272 | The tries made, their events and the reply are exactly those of the attempts that went on, at most max(1, max_attempts) of them |
| `Retry.AtMostTwoTimeouts` | src/llm/client.rs:250-258 | However a run goes, at most two of its tries time out |
| `Retry.SleepsEndInTime` | src/llm/client.rs:260-263 | Every sleep begun is at most a minute, at most eight seconds without a Retry-After, and due to end before the deadline |
| `Retry.TriesEndInTime` | src/llm/client.rs:240-246 | Every try starts before the deadline and its limit ends by it |
| `Retry.CeilingsAreOneTwoFourEight` | src/llm/client.rs:463-466 | The backoff ceiling doubles from one second and stays at eight |
| `Retry.RetriesAreNumbered` | src/llm/client.rs:264-270 | The k-th retry event of a run carries k |
| `Retry.RetriesCountAttempts` | src/llm/client.rs:237-272 | After n attempts there is one retry event for each attempt that went on |
| `Retry.AttemptsAreFew` | src/llm/client.rs:233-258 | The attempt in flight never passes the configured number |
| `Retry.GoingOnTells` | src/llm/client.rs:250-263 | Another try follows exactly when the error can be mended, it is not the second timeout, tries are left and the wait ends before the deadline |
| `Retry.RetryableTells` | src/llm/client.rs:89-106 | Which errors another try may mend, and which carry the gateway's own wait |
| `Retry.WaitsTell` | src/llm/client.rs:468-480 | The gateway's wait is kept up to a minute; without one exactly the waits up to the ceiling can come |
| `Retry.TryLimitIsGreatest` | src/llm/client.rs:240-246 | A try may last as long as a request may and the run's time lasts, and no less |
| `Progress.Observer.Observe` | src/research/events/model.rs:77-122 | Each event is labelled with the attempt reached: one, then one past the last retry it was told of |
| `Progress.ObserverFollowsGateway` | src/research/events/model.rs:77-122 | At every moment of every run the observer's attempt is the gateway's |
| `Progress.FragmentsCarryTheirAttempt` | src/research/events/model.rs:77-122 | Every fragment in flight carries the attempt number the gateway is at |
| `Progress.Partial.Push` | src/research/events/progress/stream.rs:39-75 | Counts, name and tail tell of the fragments in flight alone; the tail ends their text and is as much of it as fits while the room stays the same |
| `Progress.Partial.Clear` | src/research/events/progress/stream.rs:28-36 | After a reset nothing is in flight |
| `Progress.Partial.Indicator` | src/research/events/progress/stream.rs:80-103 | Of text its end is shown, as much as the room has for it, with an ellipsis exactly when that is not all; of thoughts and arguments how much has come, and for which tool |
| `Progress.FlightIsSinceRetry` | src/research/events/progress.rs:176-187 | Whatever was drawn before, what is in flight is the text since the last retry |
| `Progress.Follow` | src/research/events/progress/stream.rs:28-75 | After any prefix of a call's events the tail is the last characters, control characters flattened, of the in-flight attempt's text alone, and the counts and the tool's name are those of its thoughts and arguments |
| `Calendar.CivilIsCounted` | src/web/fetch/evidence.rs:49-68 | For every day of the 64-bit range the closed formula gives the date reached by counting days from 1970-01-01 |
| `Calendar.CivilSteps` | src/web/fetch/evidence.rs:49-68 | Consecutive day numbers give consecutive calendar dates |
| `Calendar.DatesAreValid` | src/web/fetch/evidence.rs:49-68 | Every date is valid under the Gregorian leap rule (section 5.7 of RFC 3339) |
| `Calendar.DaysOfInvertsCivil` | src/web/fetch/evidence.rs:49-68 | Counting the days of a date gives back the day it came from |
| `Calendar.MarchDayIsSound` | src/web/fetch/evidence.rs:52-61 | Era, year and day of the formula are in range, obey the leap rule and count back to the day; no 64-bit step overflows |
| `Calendar.TimestampsAscend` | src/web/fetch/evidence.rs:49-68 | Up to the year 9999 a later second has a later string |
| `Calendar.StringsAscendUpTo9999` | src/web/fetch/evidence.rs:49-68 | The strings of all seconds up to the end of a year ascend exactly when that year is at most 9999 |
| `Calendar.YearTenThousand` | src/web/fetch/evidence.rs:49-68 | The two seconds around the year 10000, where the order first breaks |
| `Calendar.FiveDigitYearsSortEarly` | src/web/fetch/evidence.rs:62-68 | Dates of the years 10000 to 89999 sort before every date of the year 9999 |
| `Timestamps.TimestampsReadBack` | src/web/fetch/evidence.rs:49-68 | Up to the year 9999 a timestamp, read by the layout of section 5.6 of RFC 3339 and counted day by day, gives back its second |
| `Codecs.PercentEncode` | src/web/search/decode.rs:88-100 | The loop gives the encoding byte by byte |
| `Codecs.PercentDecode` | src/web/search/decode.rs:102-122 | The loop gives the decoding, malformed triples kept as they stand |
| `Codecs.PercentRoundTrip` | src/web/search/decode.rs:88-122 | Decoding undoes encoding on every byte string |
| `Codecs.EncodedIsSafe` | src/web/search/decode.rs:88-100 | Encoded text is unreserved characters, `+` and whole percent triples one after the other (section 2.1 of RFC 3986) |
| `Codecs.EncodedByteTells` | src/web/search/decode.rs:88-100 | A byte stands as it is when unreserved, as `+` for a space, and else as its two upper-case hexadecimal digits |
| `Codecs.UnreservedTells` | src/web/search/decode.rs:88-100 | Unreserved are letters, digits and four marks (section 2.3 of RFC 3986) |
| `Codecs.HexTells` | src/web/search/decode.rs:102-122 | A hexadecimal digit is read in either case, and nothing else is one |
| `Codecs.DecodedTells` | src/web/search/decode.rs:102-122 | A percent sign and two hexadecimal digits are their byte, `+` is a space, and anything else stays, a lone percent sign too |
| `Codecs.Base64urlDecode` | src/web/search/decode.rs:128-152 | The loop over a 32-bit accumulator gives the bytes of the sextets read, or nothing on a foreign character |
| `Codecs.ShiftIsExact` | src/web/search/decode.rs:141-150 | High bits dropped from the accumulator never show in an output byte |
| `Codecs.Base64urlRoundTrip` | src/web/search/decode.rs:128-152 | The unpadded base64url form (section 5 of RFC 4648) of every byte string decodes to it |
| `Codecs.FourLettersTell` | src/web/search/decode.rs:128-152 | Three bytes are four letters of six bits, first bits first (section 4 of RFC 4648) |
| `Codecs.LettersTell` | src/web/search/decode.rs:128-152 | The URL-safe alphabet in order (section 5 of RFC 4648) |
| `Codecs.OnlyLettersHaveValues` | src/web/search/decode.rs:128-152 | A character outside it has no value |
| `Codecs.PaddingIsIgnored` | src/web/search/decode.rs:141-143 | Stray `=` signs change nothing wherever they stand |
| `Pages.PageParts` | src/research/agent_loop/context.rs:104-126 | The loop gives the parts of the page for a part size of at least one |
| `Pages.PartsAreThePage` | src/research/agent_loop/context.rs:98-126 | The parts concatenate back to the page |
| `Pages.PartsAreSized` | src/research/agent_loop/context.rs:98-126 | Every part fits, every part but the last holds at least nine tenths, none is empty unless the page is |
| `Pages.ShortPartsEndLines` | src/research/agent_loop/context.rs:115-121 | A part that is neither last nor full ends at a line end |
| `Pages.PartsEndWell` | src/research/agent_loop/context.rs:98-126 | Each part is cut from what is left of the page: all of it when it fits, else after the last line end of its last tenth, and at its full size when there is none |
| `Pages.LastTenth` | src/research/agent_loop/context.rs:98-106 | The last tenth of a part starts where nine tenths of its size are full |
| `Pages.PartCountIsBounded` | src/research/agent_loop/context.rs:104-126 | (parts - 1) times nine tenths of the size is at most the page length |
| `Pages.PartSpans` | src/research/agent_loop/registry.rs:387-397 | The loop gives the byte spans of the parts laid end to end |
| `Pages.PartSpansTile` | src/research/agent_loop/registry.rs:387-397 | The spans tile the page's bytes contiguously and each covers exactly its part |
| `Containers.EscapeClosers` | src/research/agent_loop/result.rs:134-153 | The scan gives the text with a backslash after the `<` of every closer and nothing else changed |
| `Containers.NoCloserLeft` | src/research/agent_loop/result.rs:129-153 | The escaped text holds no `</page` or `</hit` in any letter case anywhere |
| `Containers.EscapedHoldsNoCloser` | src/research/agent_loop/result.rs:129-153 | Letter by letter, no `</page` or `</hit` in any case is left, and a text without one is left as it is |
| `Containers.DeletingInsertedRestores` | src/research/agent_loop/result.rs:134-153 | Deleting the inserted characters gives the text back |
| `Containers.OnlyBackslashesInserted` | src/research/agent_loop/result.rs:134-153 | Every inserted character is a backslash |
| `Containers.GrowthCountsClosers` | src/research/agent_loop/result.rs:134-153 | The text grows by the number of closers it held |
| `Containers.EscapedIsNotInjective` | src/research/agent_loop/result.rs:134-153 | The output alone does not tell an inserted backslash from one the text already had |
| `Gate.ApiGate.Wait` | src/web/crates_io.rs:49-61 | The slot reserved is the later of the arrival and the last slot plus the gap |
| `Gate.SlotCoversArrivals` | src/web/crates_io.rs:49-61 | No slot precedes any earlier arrival plus the gaps since |
| `Gate.SlotIsAttained` | src/web/crates_io.rs:49-61 | Some arrival plus the gaps since is the slot, so the slot is their maximum |
| `Gate.SlotsAreASchedule` | src/web/crates_io.rs:31-61 | Slots are at least a gap apart and none precedes its arrival |
| `Gate.SlotsAreEarliest` | src/web/crates_io.rs:31-61 | No first-come schedule that meets both gives any caller an earlier slot |
| `FetchMemory.ToolRegistry.Fetch` | src/research/agent_loop/registry.rs:208-276 | A fetch comes to what the run so far says; entries of the map are added and never changed, and aliases share one stored object |
| `FetchMemory.ToolRegistry.Deliver` | src/research/agent_loop/registry.rs:402-430 | The asked part with its span and the page's part count, or a failure past the end that leaves the page undelivered |
| `FetchMemory.KnownKeysAreNotAsked` | src/research/agent_loop/registry.rs:219-246 | A URL known as requested or as final URL never reaches the network again and is answered from the same page |
| `FetchMemory.EveryCallTells` | src/research/agent_loop/registry.rs:208-276 | What every call comes to: the network is asked exactly for an unknown URL; a pointer is given exactly for a known URL without a part whose page was shown before; every other call with a page gets its part or, past the end, the number of parts; and one without fails as its download did |
| `FetchMemory.FirstPartByDefault` | src/research/agent_loop/registry.rs:236-272 | Without a part the first is asked for |
| `FetchMemory.DeliveredPartTells` | src/research/agent_loop/registry.rs:385-430 | A delivered span covers the bytes of the asked part, for parts of the size of the run |
| `FetchMemory.EntriesNeverChange` | src/research/agent_loop/registry.rs:252-271 | What a key leads to after one call it leads to after every later one |
| `FetchMemory.PageIsKept` | src/research/agent_loop/registry.rs:252-271 | After a call served from a page both its keys lead to that page for the rest of the run |
| `FetchMemory.DeliveryIsThePart` | src/research/agent_loop/registry.rs:402-430 | A delivery is the asked part, or the first, of the page that served the call |
| `FetchMemory.AliasesShareParts` | src/research/agent_loop/registry.rs:252-271 | Deliveries of pages with one final key are of one page, and part k is the same slice under every URL |
| `FetchMemory.FirstDeliveryIsTheFirst` | src/research/agent_loop/registry.rs:376-430 | first_delivery is true on exactly the first delivery of a page; asking past its end does not use it up |
| `FetchMemory.PointersFollowDeliveries` | src/research/agent_loop/registry.rs:226-246 | The model is only pointed back to a page some part of which it was given |
| `FetchMemory.FirstOfEarlierFetch` | src/research/agent_loop/registry.rs:219-276 | The page a call delivers was fetched by an earlier call exactly when it was known under its final URL before; else this call's own download brought it. A first delivery is of an earlier call's page exactly when it was so known and no part of it had been delivered |
| `FetchMemory.FirstFromMemory` | src/research/agent_loop/registry.rs:219-276 | A first delivery asks no network exactly when the requested URL was known before the call and no part of its page had been delivered |
| `FetchMemory.PastEndThenMemory` | src/research/agent_loop/registry.rs:219-276 | Calls where it asks no network: part 2 of a one-part page, then the page without a part |
| `FetchMemory.AliasThenFirst` | src/research/agent_loop/registry.rs:247-276 | Calls where it asks the network and still delivers the earlier call's page: part 2 of a one-part page, then an unknown URL that ends at the same final URL with other text |
| `FetchMemory.EvidenceHoldsEachPageOnce` | src/research/agent_loop/registry.rs:402-430 | The first deliveries of a run hold each delivered page, and each once |
| `RunEvidence.RunPages` | src/research/agent_loop/dispatch.rs:236-287 | The pages in the evidence of a run are those its calls delivered for the first time, in call order across turns |
| `RunEvidence.ReportHoldsEachPageOnce` | src/research/agent_loop/dispatch.rs:274-287 | When the loop's deliveries are those of the memory, the report carries exactly the pages some part of which was delivered, each once, with distinct final URLs |
| `RunEvidence.RunDeliveries` | src/research/agent_loop/registry.rs:153-276 | They are: with each call of a run executed by the registry after the fetches before it, what the loop sees delivered is what the memory delivers |
| `RunEvidence.RegistryRunsReportEachPageOnce` | src/research/agent_loop/registry.rs:153-276 | So every run over such a registry that ends with an answer reports exactly the delivered pages, each once |
| `Transcript.TruncateHistory` | src/research/agent_loop/context.rs:133-149 | The loop drops the given number of oldest turns and keeps the rest |
| `Transcript.LongestSuffixIsKept` | src/research/agent_loop/context.rs:128-149 | What is kept is the longest run of newest turns that fits, never fewer than one |
| `Transcript.TurnsCountWhatTheyCarry` | src/research/agent_loop/context.rs:47-76 | A turn counts exactly the characters its messages carry, their ids, names and arguments among them, and the provider's blocks as they were sized |
| `Transcript.CallsCount` | src/research/agent_loop/context.rs:61-68 | A call counts its id, name and arguments |
| `Transcript.DropsOnlyGrow` | src/research/agent_loop/context.rs:133-149 | Appending a turn never decreases the number dropped |
| `Transcript.Assemble` | src/research/agent_loop/context.rs:157-200 | System message, goal, a note exactly when turns were dropped, then each kept turn's messages |
| `Transcript.NotesDiffer` | src/research/agent_loop/context.rs:170-174 | Truncation notes for different counts differ |
| `Transcript.NoteTells` | src/research/agent_loop/context.rs:170-174 | The note tells how many turns were left out |
| `MessagesRequest.MapMessages` | src/llm/anthropic.rs:81-142 | The loop gives the system blocks and the wire: each run of results as one user message, every other message for itself |
| `MessagesRequest.WireKeepsEveryBlock` | src/llm/anthropic.rs:81-142 | No non-blank text, call, result or replay block is lost, doubled or reordered, for any transcript |
| `MessagesRequest.TurnOnTheWire` | src/llm/anthropic.rs:81-142 | A stored turn becomes its own wire messages: replay, text, uses, then one message of results |
| `MessagesRequest.ToolTurnTells` | src/llm/anthropic.rs:81-142 | A tool turn block by block: the provider's blocks, the text if any, every call with an object for its input, then one result each |
| `MessagesRequest.SpeakersTell` | src/llm/anthropic.rs:81-142 | Answer texts are the assistant's; repairs, the goal and the note of dropped turns the user's; blank texts are not sent |
| `MessagesRequest.TextsTell` | src/llm/anthropic.rs:62-67 | A text is sent as one block, and not at all without a visible character |
| `MessagesRequest.RequestOnTheWire` | src/research/agent_loop/context.rs:157-200 | A request at any truncation level is the goal, the note and its turns, each translated by itself |
| `MessagesRequest.EveryToolUseIsAnswered` | src/llm/anthropic.rs:12-14 | Each message with tool_use blocks is followed at once by one user message of exactly their results in order, and results occur nowhere else |
| `Dispatch.ResolveCallIds` | src/research/agent_loop/dispatch.rs:87-101 | Calls keep their ids; a missing one becomes the call's turn and position |
| `Dispatch.ResolvingIsIdempotent` | src/research/agent_loop/dispatch.rs:76-101 | No resolved id is empty, names and arguments stay, and resolving again changes nothing |
| `Dispatch.ResolvedAt` | src/research/agent_loop/dispatch.rs:87-101 | Call by call, a given id stays and a missing one is named after its turn and place |
| `Dispatch.SynthesizedIdsDiffer` | src/research/agent_loop/dispatch.rs:87-101 | No two calls of a run are given the same name |
| `Dispatch.DispatchCall` | src/research/agent_loop/dispatch.rs:169-316 | One iteration adds to the turn exactly what its branch gives: over the cap, not allowed, timed out, succeeded or failed |
| `Dispatch.DispatchTurn` | src/research/agent_loop/dispatch.rs:147-330 | The turn's outcome is that of its calls in order, ids resolved |
| `Dispatch.OneResultPerCall` | src/research/agent_loop/dispatch.rs:136-139 | One result per call, under its id, in call order, whatever became of the call |
| `Dispatch.EachCallIsJudged` | src/research/agent_loop/dispatch.rs:169-316 | A call within the cap either succeeds or fails; one over it does neither and leaves no evidence |
| `Dispatch.SuccessIsSomeCalls` | src/research/agent_loop/dispatch.rs:269-287 | A turn succeeded exactly when some call did |
| `Dispatch.LastFailureWins` | src/research/agent_loop/dispatch.rs:139-142 | A turn failed exactly when some call did, and the last failure names the kind |
| `Dispatch.CapHolds` | src/research/agent_loop/dispatch.rs:157-180 | No more calls leave evidence than may run, and every search counted is one of them |
| `CallLaws.ContentTells` | src/research/agent_loop/dispatch.rs:157-316 | What the model is told of each call: a fetched part whole, any other result, timeout or refusal within the size of a part, and of a call over the cap that it did not run |
| `CallLaws.EvidenceTells` | src/research/agent_loop/dispatch.rs:225-310 | Exactly the calls that ran leave evidence, with what the model was told, the URL of a fetch and its page on the first delivery |
| `CallLaws.FailureTells` | src/research/agent_loop/dispatch.rs:181-316 | Why each call fails: unknown tool, time over, a failed result or a blocked search, with kind and reason |
| `CallLaws.TurnHolds` | src/research/agent_loop/dispatch.rs:147-330 | A turn's results, evidence and failures are those of its calls in call order |
| `CallLaws.SearchesTell` | src/research/agent_loop/dispatch.rs:256-273 | The searches counted are those that came back, and there were hits when one of them had some |
| `CallLaws.LastReasonStands` | src/research/agent_loop/dispatch.rs:139-142 | The reason of a turn's failure and the block it met are those of the last call that has one |
| `Budget.SaturationNeverShows` | src/research/agent_loop/types.rs:150-160 | The saturating turn budget equals the unbounded one: base plus five per search after the first, up to the cap |
| `Budget.BudgetsGrow` | src/research/agent_loop/types.rs:150-160 | The budget starts at the base, never falls as searches grow and never passes the cap |
| `Budget.EachSearchAddsFive` | src/research/agent_loop/types.rs:150-160 | The first search adds nothing, each later one five turns until the cap |
| `Budget.WindowsAreSized` | src/research/agent_loop/types.rs:112-139 | A budget exists exactly when 5334 tokens are left after the reply, and then eight parts of at least 2000 characters fit the context |
| `Budget.WindowTells` | src/research/agent_loop/types.rs:96-139 | The budget of a window field by field |
| `Budget.CutoffComesFirst` | src/research/agent_loop/types.rs:162-180 | The final reserve starts no later than the deadline |
| `Budget.ReserveMeans` | src/research/agent_loop/types.rs:162-174 | The final reserve is exactly the time from the reserve before the deadline on, or from the deadline when there is no such instant |
| `Runner.RunLoop` | src/research/agent_loop/runner.rs:63-308 | At most max_turns_cap gateway calls; the log is exactly the turns the replies and tools make, every row keeps the loop's invariants, and the result is the one the last turn calls for |
| `Runner.Conclude` | src/research/agent_loop/runner.rs:183-249 | A reply without calls, or any reply of a final turn, is the answer, a repair turn or the end, and no tool runs |
| `Runner.UseTools` | src/research/agent_loop/runner.rs:252-307 | A tool turn settles the counters, stores its calls with their results and ends the run when the repairs are spent |
| `Runner.TurnsStayInBudget` | src/research/agent_loop/runner.rs:104-127 | Turns count up within a budget that starts at the base, only grows and never passes the cap |
| `Runner.BetweenTurns` | src/research/agent_loop/runner.rs:208-249 | Between turns none was final, and consecutive_failures is within both max_repairs and failures_used |
| `Runner.RepairsCountFromLastSuccess` | src/research/agent_loop/runner.rs:262-272 | The repair counter is the number of failed turns since the last success |
| `Runner.HistoriesGrow` | src/research/agent_loop/runner.rs:238-298 | Every request extends one history by one stored turn at a time |
| `Runner.RequestsAreAnswered` | src/research/agent_loop/runner.rs:104-308 | On the Anthropic wire every request of every run answers each of its tool_use messages at once and in full |
| `RunLaws.StartTells` | src/research/agent_loop/runner.rs:63-88 | A run starts exactly with a goal, known tools, a turn within the cap and a context |
| `RunLaws.TurnTells` | src/research/agent_loop/runner.rs:104-307 | Every turn of every run: final by budget exactly when its number reaches the budget, else by deadline exactly inside the final reserve at its start; tools run exactly on a turn that is not final; a turn without tools fails unless it answers |
| `RunLaws.NextRequestTells` | src/research/agent_loop/runner.rs:165-298 | What the next request remembers of a turn: its calls and results with the turns left noted on the last, or its text and a repair message |
| `RunLaws.GleanedTells` | src/research/agent_loop/runner.rs:252-290 | The evidence of a run is that of its turns in order, and hits are remembered once any turn had some |
| `RunLaws.LastBlockIsKept` | src/research/agent_loop/runner.rs:286-288 | The search block remembered is the one of the last turn that met any |
| `RunLaws.EndTells` | src/research/agent_loop/runner.rs:141-307 | How a run ends with its last turn: an answer with all that was gathered, the gateway's error unless the key was missing or the time was over, spent repairs by the kind of the last failure, and a final turn without an answer by deadline exactly inside the reserve |
| `Trace.TraceState.ModelRow` | src/research/trace.rs:40-77 | The row is the first one, a delta of what the request adds, or the full request when it does not extend the last |
| `Trace.RowsRebuildRequests` | src/research/trace.rs:10-15 | Reading the rows by the rebuild rule gives back every request, its system message apart |
| `Trace.MessagesReadBack` | src/research/trace.rs:93-103 | A message as written tells the whole message |
| `Trace.MessageTells` | src/research/trace.rs:93-103 | Its fields stand under the names of the wire |
| `Trace.SystemIsWrittenOnce` | src/research/trace.rs:57-63 | The system prompt is on the first row and no other |
| `Trace.FullRowsMarkDrops` | src/research/trace.rs:10-15 | In the trace of a run a row is full exactly when more turns were dropped than for the request before |
| `Verify.VerifySynthesis` | src/research/agent_loop/verify.rs:31-67 | Bullets, counters and citations of the whole answer are those its claims give |
| `Verify.CheckPoint` | src/research/agent_loop/verify.rs:72-92 | A bullet takes the strongest support of the pages it links, and the map holds the best claim of each URL |
| `Verify.Grade` | src/research/agent_loop/verify.rs:117-127 | No quote, or one not on the page, supports nothing; a found quote is exact support exactly when every checkable fact is on the page |
| `Grounding.ContainsMeans` | src/research/agent_loop/verify.rs:117-120 | A text contains another exactly when it stands there at some place |
| `Grounding.HasMeans` | src/research/agent_loop/verify.rs:129-141 | A number is on the page by its digit groups, a code as a whole, an identifier at some place, whole or by its last segment |
| `Grounding.GradeMeans` | src/research/agent_loop/verify.rs:117-127 | Exact exactly when the non-empty quote stands at some place and every fact is there, partial when a fact is missing, none when the quote does not stand |
| `Grounding.AnswerTells` | src/research/agent_loop/verify.rs:31-67 | In the whole checked answer every bullet has the best support any page it links gives it, told by places and facts, and the counters count those bullets |
| `Verify.CountersAddUp` | src/research/agent_loop/verify.rs:38-55 | exact + partial + none = cited, at most the bullets, and the rest are the unchecked ones |
| `Verify.BulletSupportIsMax` | src/research/agent_loop/verify.rs:69-92 | A fresh bullet's support is the greatest any fetched page it links gives it, and unchecked without one |
| `Verify.BestIsTheFirstBest` | src/research/agent_loop/verify.rs:72-92 | The best claim on a URL is that of the first bullet linking it that its page supports best, and none without such a bullet |
| `Verify.CitationsStandOnBullets` | src/research/agent_loop/verify.rs:56-65 | In the verified answer a citation has the support and the quote of that bullet, and is untouched when no bullet links its URL to a fetched page |
| `Verify.ThemeCitationsStandOnBullets` | src/research/agent_loop/verify.rs:56-65 | So have the citations of every theme |
| `Verify.OnlySupportsChange` | src/research/agent_loop/verify.rs:15-18 | No bullet or citation is added, dropped, reordered or reworded |
| `Verify.FirstPageStays` | src/research/agent_loop/verify.rs:32-37 | The page checked under a key is the first one fetched under it |
| `Verify.SeparatorsDoNotMatter` | src/research/agent_loop/verify.rs:193-215 | A number matches itself with its thousands separators dropped, either way round |
| `Verify.NumberMatches` | src/research/agent_loop/verify.rs:193-215 | For every bullet number and page number: without separators it matches the whole numbers of its digits, however grouped; else the numbers whose groups start with its own and, when all its later groups have three digits, the whole numbers of its digits |
| `Verify.SeparatorsAreNotSeen` | src/research/agent_loop/verify.rs:193-215 | Two number texts that differ only in which separator stands where match each other, and match the same numbers |
| `Verify.WholeNumberMatches` | src/research/agent_loop/verify.rs:193-215 | A number written without separators matches exactly the whole numbers of its digits |
| `Verify.DecimalMatches` | src/research/agent_loop/verify.rs:193-215 | A decimal matches exactly the numbers whose groups start with its own two and, with three places, the whole numbers of the same digits |
| `Verify.OtherNumbersPass` | src/research/agent_loop/verify.rs:193-215 | So 1.75 passes on a page that only says 1,75,000, 3.125 on one that only says 3125, and 8192 on one that only says 8.192 |
| `Fusion.MergeScored` | src/web/search/dedup.rs:150-243 | The result has one scored entry for each non-blank key, strictly ordered, whatever order the hash maps give |
| `FusionScores.FusionRunsFromTheBest` | src/web/search/dedup.rs:140-147 | The merged list runs from the best score to the worst; of equal scores more queries, then the better rank, then the display URL first in text order |
| `FusionScores.ScoresAreLegSums` | src/web/search/dedup.rs:37-73 | On exact numbers a hit's score is the sum over the legs that returned its page, weight / (60 + best rank), times its factor |
| `FusionScores.ScoreIsTheSum` | src/web/search/dedup.rs:128-138 | Where addition is exact the sorting does not show |
| `FusionScores.SummedByRank` | src/web/search/dedup.rs:132-138 | Terms are summed in ascending order of rank, the lighter first |
| `FusionScores.VerticalWeightIsEnough` | src/web/search/dedup.rs:46-55 | A vertical's first rank outscores two engines at rank five, which one engine does not, ties with two at rank one and stays below three |
| `FusionScores.FoldOrderTells` | src/web/search/dedup.rs:62-80 | Rows are folded by engine priority and, within an engine, in query order |
| `FusionScores.EnginesInOrder` | src/web/search/dedup.rs:37-64 | The engines in the order their rows are folded, a vertical weighing twice an engine |
| `FusionScores.ByteLenTells` | src/web/search/dedup.rs:215-224 | A snippet's length is that of its UTF-8 bytes |
| `Fusion.MergeIgnoresInterleaving` | src/web/search/dedup.rs:75-104 | Given the order unlisted queries first appear in, the merged list depends only on each leg's own rows |
| `Fusion.ListedQueriesLeaveNothingOver` | src/web/search/dedup.rs:95-97 | With every query listed there is no such order left |
| `Fusion.UnlistedOrderShows` | src/web/search/dedup.rs:95-97 | Without that the rows' order does show: of two unlisted queries tied on rank the first seen names the hit |
| `Fusion.ScoreIgnoresOrder` | src/web/search/dedup.rs:128-138 | The score is a function of the multiset of (rank, weight) pairs, for any operation of addition |
| `Fusion.Score` | src/web/search/dedup.rs:132-138 | Sorting, then summing from the left, gives that score |
| `Fusion.BeforeIsStrict` | src/web/search/dedup.rs:140-147 | The comparison orders any two entries with different display URLs, strictly |
| `Fusion.BeforeIsTransitive` | src/web/search/dedup.rs:140-147 | The comparison is transitive |
| `Fusion.DisplayUrlKeepsKey` | src/web/search/dedup.rs:175-224 | A group's display URL keeps the group's own key, so no two groups share one |
| `Fusion.SplitLegs` | src/web/search/dedup.rs:151-168 | Each leg holds its own rows in arrival order; a query's number is its place in the list or its order of first sight |
| `Fusion.FoldRow` | src/web/search/dedup.rs:203-231 | One more row of a group: its leg's term, providers, queries, best rank, snippet, date and count |
| `FusionGroups.OneTermPerLeg` | src/web/search/dedup.rs:118-126 | Remembering only the last leg keeps exactly one term per leg, at that leg's best rank |
| `FusionGroups.MergedTerms` | src/web/search/dedup.rs:169-212 | So it is for every group of every merge, since rows are folded leg by leg |
| `FusionGroups.BestRowNamesTheHit` | src/web/search/dedup.rs:86-87 | Title, display URL and rank are those of the first row, in leg order, of the best rank |
| `FusionGroups.LongestSnippetIsKept` | src/web/search/dedup.rs:86-87 | The snippet is the first of the longest |
| `FusionScores.FirstDateIsKept` | src/web/search/dedup.rs:62-80 | The date is the first one the rows give, in leg order |
| `FusionGroups.WhoFoundIt` | src/web/search/dedup.rs:213-220 | Providers and queries are those of the rows, each once, in priority and in text order |
| `FusionGroups.HitsAddUp` | src/web/search/dedup.rs:170-231 | Hit counts sum to the rows with a non-blank key |

## Left out

- HTTP, TLS, DNS, subprocesses, files, signals and terminal output: effects without an internal property.
- Regular expressions, URL parsing, HTML scraping and JSON syntax: parameters of the modules that use them.
- Prompt texts, error display strings, message bounding and schema conversion: one branch each.
- The query-coverage factor: any function of the merged hit.
- Floating point: scores are values of any ordered type, so rounding is neither used nor modelled.
- Answer parsing, disk cache, tape replay, session retention and the evaluation driver.
- Error bodies carry the error value of the wire; the bounded message made of it is not modelled.
- Concurrent calls of one registry: the loop runs tool calls one after another, and so does the model.
- In-place update of the answer in the grounding check and of the rank list in the score: both are values that the loops rebuild.
- The per-turn usage total of a run: a saturating sum per field.
- The `tool_choice`, `tools` and `reply` fields of a trace row: copied as given.
- OpenAi.CallIsItsFragments: only for streams whose call fragments all carry an index, since one without it means the call before it.
- OpenAi.AnswerIgnoresInterleaving: same restriction; `OpenAiCuts.AnswerIgnoresCuts` has none.
- RunEvidence.ReportHoldsEachPageOnce: takes the agreement of loop and memory as its premise, which `RunEvidence.RunDeliveries` proves of the registry.
- AnthropicStream.CounterIsLargest: measures numbers as the code reads them, those outside 64 bits as zero; `AnthropicStream.CounterIsLargestEver` measures them by their value.
- Calendar.TimestampsAscend: up to the year 9999; `Calendar.StringsAscendUpTo9999` says it goes no further.
- Codecs.PercentRoundTrip: on byte strings; the decoder's lossy UTF-8 step after it is a parameter elsewhere.
- Fusion.MergeIgnoresInterleaving: asks for the same order of first mention of unlisted queries; `UnlistedOrderShows` shows why.
