/**
 What becomes of a gateway call's events (`src/research/events/model.rs`,
 `src/research/events/progress/stream.rs`): the observer labels every fragment
 with its attempt, and Progress keeps the tail of the text in flight.
 */
module Progress {
  import opened Prelude
  import opened Reply
  import opened Retry

  datatype Channel = TextChannel | ThinkingChannel | ArgsChannel

  datatype Delta = Delta(attempt: nat, channel: Channel, text: string, name: Option<string>)

  /** What reaches Progress: fragments, and the `turn.started`, `model.retry` and `model.replied` between them. */
  datatype Notice = Fragment(delta: Delta) | Boundary

  // ----- The observer -----

  function ChannelOf(event: LlmEvent): Channel
    requires !event.Retry?
  {
    match event
    case Text(_) => TextChannel
    case Thinking(_) => ThinkingChannel
    case ToolArgs(_, _, _, _) => ArgsChannel
  }

  function NoticeOf(event: LlmEvent, attempt: nat): Notice {
    if event.Retry? then Boundary
    else Fragment(Delta(attempt, ChannelOf(event), event.fragment, if event.ToolArgs? then event.name else None))
  }

  /** The attempt the observer has reached after `events`: one past the last retry it was told of. */
  function ObservedAttempt(events: seq<LlmEvent>): nat {
    if events == [] then 1
    else
      var last := events[|events| - 1];
      if last.Retry? then Min(last.attempt + 1, U32_MAX) else ObservedAttempt(events[..|events| - 1])
  }

  lemma ObservedStep(events: seq<LlmEvent>, event: LlmEvent)
    ensures ObservedAttempt(events + [event])
         == if event.Retry? then Min(event.attempt + 1, U32_MAX) else ObservedAttempt(events)
  {
    assert (events + [event])[..|events|] == events;
  }

  class Observer {
    var attempt: nat
    ghost var seen: seq<LlmEvent>

    ghost predicate Valid()
      reads this
    {
      attempt == ObservedAttempt(seen)
    }

    constructor ()
      ensures Valid() && seen == []
    {
      attempt, seen := 1, [];
    }

    method Observe(event: LlmEvent) returns (notice: Notice)
      requires Valid()
      modifies this
      ensures Valid() && seen == old(seen) + [event]
      ensures notice == NoticeOf(event, ObservedAttempt(old(seen)))
    {
      ObservedStep(seen, event);
      hide ObservedAttempt, NoticeOf;
      notice := NoticeOf(event, attempt);
      if event.Retry? {
        attempt := if event.attempt < U32_MAX then event.attempt + 1 else U32_MAX;
      }
      seen := seen + [event];
    }
  }

  /** At every moment of every run the observer's attempt is the gateway's. */
  lemma {:induction false} ObserverFollowsGateway(config: Config, world: World, n: nat, i: nat)
    requires config.maxAttempts <= U32_MAX && Made(config, world, n) && i <= |EventsThrough(config, world, n)|
    ensures ObservedAttempt(EventsThrough(config, world, n)[..i]) == GatewayAttempt(EventsThrough(config, world, n), i)
  {
    hide EventsThrough, GatewayAttempt, ObservedAttempt;
    var events := EventsThrough(config, world, n);
    AttemptsAreFew(config, world, n, i);
    if i == 0 {
      BothStartAtOne(events);
      assert events[..0] == [];
    } else {
      ObserverFollowsGateway(config, world, n, i - 1);
      RetriesAreNumbered(config, world, n, i - 1);
      AttemptStep(events, i - 1);
      assert events[..i] == events[..i - 1] + [events[i - 1]];
      ObservedStep(events[..i - 1], events[i - 1]);
    }
  }

  lemma BothStartAtOne(events: seq<LlmEvent>)
    ensures ObservedAttempt([]) == GatewayAttempt(events, 0)
  {
    assert events[..0] == [];
  }

  // ----- The text in flight -----

  /** A fragment as Progress drew it, with the room its line had. */
  datatype Drawn = Drawn(delta: Delta, room: nat)

  datatype Entry = Pushed(drawn: Drawn) | Reset

  /** The fragments of the attempt in flight: those since the last boundary or change of attempt. */
  function InFlight(history: seq<Entry>): seq<Drawn> {
    if history == [] || history[|history| - 1].Reset? then []
    else
      var earlier := InFlight(history[..|history| - 1]);
      var drawn := history[|history| - 1].drawn;
      (if earlier != [] && earlier[|earlier| - 1].delta.attempt == drawn.delta.attempt then earlier else []) + [drawn]
  }

  /** What one channel said. */
  function Said(flight: seq<Drawn>, channel: Channel): string {
    if flight == [] then ""
    else
      var delta := flight[|flight| - 1].delta;
      Said(flight[..|flight| - 1], channel) + if delta.channel == channel then delta.text else ""
  }

  /** The last tool name an argument fragment gave. */
  function NameSaid(flight: seq<Drawn>): Option<string> {
    if flight == [] then None
    else
      var delta := flight[|flight| - 1].delta;
      if delta.channel == ArgsChannel && NonEmpty(delta.name).Some? then delta.name
      else NameSaid(flight[..|flight| - 1])
  }

  predicate IsControl(c: char) {
    c as int <= 0x1F || 0x7F <= c as int <= 0x9F
  }

  /** Control characters flattened to spaces. */
  function Cleaned(text: string): string {
    if text == "" then "" else [if IsControl(text[0]) then ' ' else text[0]] + Cleaned(text[1..])
  }

  /** Control characters, the line breaks among them, become spaces, and nothing else changes. */
  lemma {:induction false} CleanedTells(text: string, i: nat)
    requires i < |text|
    ensures |Cleaned(text)| == |text|
    ensures Cleaned(text)[i]
         == if text[i] < ' ' || 127 <= text[i] as int < 160 then ' ' else text[i]
  {
    CleanedAppend(text, "");
    if i > 0 {
      CleanedTells(text[1..], i - 1);
    }
  }

  lemma {:induction false} CleanedLength(text: string)
    ensures |Cleaned(text)| == |text|
  {
    CleanedAppend(text, "");
  }

  lemma {:induction false} LastLength(text: string, n: nat)
    ensures |Last(text, n)| == Min(|text|, n) && (|text| <= n ==> Last(text, n) == text)
  {
  }

  lemma {:induction false} CleanedAppend(a: string, b: string)
    ensures Cleaned(a + b) == Cleaned(a) + Cleaned(b)
    ensures |Cleaned(a)| == |a|
  {
    if a == "" {
      assert a + b == b;
    } else {
      assert (a + b)[1..] == a[1..] + b;
      CleanedAppend(a[1..], b);
    }
  }

  /** The last `n` characters. */
  function Last(text: string, n: nat): string {
    if |text| <= n then text else text[|text| - n..]
  }

  predicate IsSuffix(end: string, text: string) {
    |end| <= |text| && text[|text| - |end|..] == end
  }

  lemma LastOfExtended(a: string, b: string, n: nat)
    ensures Last(Last(a, n) + b, n) == Last(a + b, n)
  {
  }

  lemma LastIsSuffix(end: string, a: string, b: string, n: nat)
    requires IsSuffix(end, a)
    ensures IsSuffix(Last(end + b, n), a + b)
  {
    assert (a + b)[|a| - |end|..] == end + b;
    var kept := Last(end + b, n);
    assert (a + b)[|a + b| - |kept|..] == (end + b)[|end + b| - |kept|..];
  }

  lemma EndOfSuffix(end: string, text: string, width: nat)
    requires IsSuffix(end, text)
    ensures IsSuffix(Last(end, width), text)
    ensures Last(end, width) == text <==> |end| <= width && |end| == |text|
    ensures end == text <==> |end| == |text|
  {
    var shown := Last(end, width);
    assert text[|text| - |shown|..] == text[|text| - |end|..][|end| - |shown|..];
    assert |end| == |text| ==> text[0..] == text;
  }

  predicate OneRoom(flight: seq<Drawn>, room: nat) {
    forall i :: 0 <= i < |flight| ==> flight[i].room == room
  }

  /** The tail ends the text in flight, and is as much of it as fits while the room did not change. */
  predicate TailTells(flight: seq<Drawn>, tail: string) {
    && IsSuffix(tail, Cleaned(Said(flight, TextChannel)))
    && (flight != [] && OneRoom(flight, flight[0].room) ==>
          tail == Last(Cleaned(Said(flight, TextChannel)), flight[0].room))
  }

  function Kept(flight: seq<Drawn>, attempt: nat): seq<Drawn> {
    if flight != [] && flight[|flight| - 1].delta.attempt == attempt then flight else []
  }

  lemma FlightGrows(history: seq<Entry>, drawn: Drawn)
    ensures InFlight(history + [Pushed(drawn)]) == Kept(InFlight(history), drawn.delta.attempt) + [drawn]
    ensures InFlight(history + [Reset]) == []
  {
    assert (history + [Pushed(drawn)])[..|history|] == history;
  }

  lemma SaidGrows(flight: seq<Drawn>, drawn: Drawn, channel: Channel)
    ensures Said(flight + [drawn], channel)
         == Said(flight, channel) + if drawn.delta.channel == channel then drawn.delta.text else ""
  {
    assert (flight + [drawn])[..|flight|] == flight;
  }

  lemma NameGrows(flight: seq<Drawn>, drawn: Drawn)
    ensures NameSaid(flight + [drawn])
         == if drawn.delta.channel == ArgsChannel && NonEmpty(drawn.delta.name).Some? then drawn.delta.name
            else NameSaid(flight)
  {
    assert (flight + [drawn])[..|flight|] == flight;
  }

  lemma TailGrows(flight: seq<Drawn>, tail: string, drawn: Drawn)
    requires TailTells(flight, tail)
    ensures TailTells(flight + [drawn],
              if drawn.delta.channel == TextChannel then Last(tail + Cleaned(drawn.delta.text), drawn.room) else tail)
  {
    var text, added := Said(flight, TextChannel), drawn.delta.text;
    SaidGrows(flight, drawn, TextChannel);
    if drawn.delta.channel == TextChannel {
      CleanedAppend(text, added);
      LastIsSuffix(tail, Cleaned(text), Cleaned(added), drawn.room);
      LastOfExtended(Cleaned(text), Cleaned(added), drawn.room);
    } else {
      assert text + "" == text;
    }
    hide Cleaned, Said;
    var grown := flight + [drawn];
    if OneRoom(grown, grown[0].room) && flight != [] {
      assert grown[|flight|].room == drawn.room;
      assert forall i :: 0 <= i < |flight| ==> grown[i] == flight[i];
    }
  }

  predicate LastTells(flight: seq<Drawn>, attempt: nat, latest: Option<Channel>) {
    && (flight != [] ==> attempt == flight[|flight| - 1].delta.attempt)
    && latest == if flight == [] then None else Some(flight[|flight| - 1].delta.channel)
  }

  predicate CountsTell(flight: seq<Drawn>, textChars: nat, thinkingChars: nat, argsChars: nat, argsName: Option<string>)
  {
    && textChars == |Said(flight, TextChannel)|
    && thinkingChars == |Said(flight, ThinkingChannel)|
    && argsChars == |Said(flight, ArgsChannel)|
    && argsName == NameSaid(flight)
  }

  lemma LastGrows(flight: seq<Drawn>, drawn: Drawn)
    ensures LastTells(flight + [drawn], drawn.delta.attempt, Some(drawn.delta.channel))
  {
  }

  lemma CountsGrow(
    flight: seq<Drawn>, textChars: nat, thinkingChars: nat, argsChars: nat, argsName: Option<string>, drawn: Drawn)
    requires CountsTell(flight, textChars, thinkingChars, argsChars, argsName)
    ensures
      var delta, chars := drawn.delta, |drawn.delta.text|;
      match delta.channel
      case TextChannel => CountsTell(flight + [drawn], textChars + chars, thinkingChars, argsChars, argsName)
      case ThinkingChannel => CountsTell(flight + [drawn], textChars, thinkingChars + chars, argsChars, argsName)
      case ArgsChannel =>
        CountsTell(flight + [drawn], textChars, thinkingChars, argsChars + chars,
          if NonEmpty(delta.name).Some? then delta.name else argsName)
  {
    SaidGrows(flight, drawn, TextChannel);
    SaidGrows(flight, drawn, ThinkingChannel);
    SaidGrows(flight, drawn, ArgsChannel);
    NameGrows(flight, drawn);
    hide Said, NameSaid;
  }

  class Partial {
    var attempt: nat
    var textChars: nat
    var tail: string
    var thinkingChars: nat
    var argsChars: nat
    var argsName: Option<string>
    var latest: Option<Channel>
    ghost var history: seq<Entry>

    /** The fields tell of `flight` alone. */
    ghost predicate Tells(flight: seq<Drawn>)
      reads this
    {
      && LastTells(flight, attempt, latest)
      && CountsTell(flight, textChars, thinkingChars, argsChars, argsName)
      && TailTells(flight, tail)
    }

    ghost predicate Valid()
      reads this
    {
      Tells(InFlight(history))
    }

    constructor ()
      ensures Valid() && history == []
    {
      attempt, textChars, tail, thinkingChars, argsChars, argsName, latest := 0, 0, "", 0, 0, None, None;
      history := [];
    }

    method Clear()
      modifies this
      ensures Valid() && history == old(history) + [Reset]
      ensures Tells([])
    {
      attempt, textChars, tail, thinkingChars, argsChars, argsName, latest := 0, 0, "", 0, 0, None, None;
      history := history + [Reset];
    }

    /** Another attempt's fragments are forgotten. */
    method Enter(next: nat)
      requires Valid()
      modifies this
      ensures Tells(Kept(InFlight(old(history)), next)) && attempt == next
    {
      hide InFlight;
      if next != attempt {
        Clear();
        attempt := next;
      }
    }

    /** Appends and drains from the front what no longer fits. */
    method AppendCleaned(text: string, room: nat)
      modifies this`tail
      ensures tail == Last(old(tail) + Cleaned(text), room)
    {
      tail := tail + Cleaned(text);
      var excess := if |tail| > room then |tail| - room else 0;
      tail := tail[excess..];
    }

    /** Counts one fragment of the attempt in flight. */
    method Count(delta: Delta, room: nat, ghost flight: seq<Drawn>)
      requires attempt == delta.attempt
      requires CountsTell(flight, textChars, thinkingChars, argsChars, argsName) && TailTells(flight, tail)
      modifies this
      ensures history == old(history) && attempt == old(attempt)
      ensures LastTells(flight + [Drawn(delta, room)], attempt, latest)
      ensures CountsTell(flight + [Drawn(delta, room)], textChars, thinkingChars, argsChars, argsName)
      ensures TailTells(flight + [Drawn(delta, room)], tail)
    {
      hide *;
      ghost var drawn := Drawn(delta, room);
      TailGrows(flight, tail, drawn);
      CountsGrow(flight, textChars, thinkingChars, argsChars, argsName, drawn);
      LastGrows(flight, drawn);
      match delta.channel {
        case TextChannel =>
          textChars := textChars + |delta.text|;
          AppendCleaned(delta.text, room);
        case ThinkingChannel =>
          thinkingChars := thinkingChars + |delta.text|;
        case ArgsChannel =>
          argsChars := argsChars + |delta.text|;
          if NonEmpty(delta.name).Some? {
            argsName := delta.name;
          }
      }
      latest := Some(delta.channel);
    }

    method Push(delta: Delta, room: nat)
      requires Valid()
      modifies this
      ensures Valid() && history == old(history) + [Pushed(Drawn(delta, room))]
    {
      ghost var before := history;
      FlightGrows(before, Drawn(delta, room));
      hide InFlight, Kept, CountsTell, TailTells;
      Enter(delta.attempt);
      Count(delta, room, Kept(InFlight(before), delta.attempt));
      history := before + [Pushed(Drawn(delta, room))];
    }

    /**
     What the status line shows of the latest stream. Of text its end, as much as the room has
     for it, with an ellipsis exactly when that is not all of it; of thoughts and of arguments
     how much has come, and for which tool.
     */
    method Indicator(room: nat) returns (shown: Option<Indication>)
      requires Valid()
      ensures shown.None? <==> latest.None?
      ensures var flight := InFlight(history);
              && (latest == Some(TextChannel) ==>
                    var text := Cleaned(Said(flight, TextChannel));
                    && shown.value.Writing? && IsSuffix(shown.value.end, text)
                    && |shown.value.end| == Min(|tail|, TextWidth(room))
                    && (!shown.value.cut <==> shown.value.end == text))
              && (latest == Some(ThinkingChannel) ==>
                    shown.value == ThinkingShown(|Said(flight, ThinkingChannel)|))
              && (latest == Some(ArgsChannel) ==>
                    shown.value == ArgsCounted(
                      if NameSaid(flight).Some? then NameSaid(flight).value else "tool", |Said(flight, ArgsChannel)|))
    {
      hide Cleaned, Said, InFlight, NameSaid, OneRoom, IsSuffix, Last;
      if latest.None? {
        return None;
      }
      match latest.value {
        case TextChannel =>
          ghost var text := Cleaned(Said(InFlight(history), TextChannel));
          CleanedLength(Said(InFlight(history), TextChannel));
          var width := if room < 15 + 3 + 8 then 8 else room - (15 + 3);
          assert width == TextWidth(room);
          EndOfSuffix(tail, text, width);
          LastLength(tail, width);
          if |tail| <= width && textChars == |tail| {
            shown := Some(Writing(false, tail));
          } else {
            shown := Some(Writing(true, Last(tail, width)));
          }
        case ThinkingChannel =>
          shown := Some(ThinkingShown(thinkingChars));
        case ArgsChannel =>
          shown := Some(ArgsCounted(if argsName.Some? then argsName.value else "tool", argsChars));
      }
    }
  }

  /** What the status line can show: the end of the text, perhaps after an ellipsis, or how much else has come. */
  datatype Indication =
    | Writing(cut: bool, end: string)
    | ThinkingShown(chars: nat)
    | ArgsCounted(tool: string, chars: nat)

  /** The room beside the label and an ellipsis, and never less than eight characters. */
  function TextWidth(room: nat): nat {
    Max(8, room - |"model writing: "| - |"..."|)
  }

  // ----- The two together, over a run -----

  /** The events since the last retry: those of the attempt in flight. */
  function SinceRetry(events: seq<LlmEvent>): seq<LlmEvent> {
    if events == [] || events[|events| - 1].Retry? then []
    else SinceRetry(events[..|events| - 1]) + [events[|events| - 1]]
  }

  lemma SinceRetryStep(events: seq<LlmEvent>, event: LlmEvent)
    ensures SinceRetry(events + [event]) == if event.Retry? then [] else SinceRetry(events) + [event]
  {
    assert (events + [event])[..|events|] == events;
  }

  /** What Progress is given for the events of one call. */
  function EntriesOf(events: seq<LlmEvent>, room: nat): seq<Entry> {
    if events == [] then []
    else
      var earlier := events[..|events| - 1];
      EntriesOf(earlier, room) + [EntryOf(NoticeOf(events[|events| - 1], ObservedAttempt(earlier)), room)]
  }

  function EntryOf(notice: Notice, room: nat): Entry {
    if notice.Boundary? then Reset else Pushed(Drawn(notice.delta, room))
  }

  lemma EntriesStep(events: seq<LlmEvent>, event: LlmEvent, room: nat)
    ensures EntriesOf(events + [event], room)
         == EntriesOf(events, room) + [EntryOf(NoticeOf(event, ObservedAttempt(events)), room)]
  {
    assert (events + [event])[..|events|] == events;
  }

  /** All argument text of a list of events, whichever call it is for. */
  function ArgsShown(events: seq<LlmEvent>): string {
    Flatten(seq(|events|, i requires 0 <= i < |events| => if events[i].ToolArgs? then events[i].fragment else ""))
  }

  lemma {:induction false} ArgsShownSnoc(events: seq<LlmEvent>, event: LlmEvent)
    ensures ArgsShown(events + [event]) == ArgsShown(events) + if event.ToolArgs? then event.fragment else ""
    ensures ArgsShown([]) == ""
  {
    var grown := events + [event];
    var earlier :=
      seq(|events|, i requires 0 <= i < |events| => if events[i].ToolArgs? then events[i].fragment else "");
    var last := if event.ToolArgs? then event.fragment else "";
    FlattenSnoc(earlier, last);
    assert seq(|grown|, i requires 0 <= i < |grown| => if grown[i].ToolArgs? then grown[i].fragment else "")
        == earlier + [last];
  }

  /** The last tool that was named. */
  function LastNamed(events: seq<LlmEvent>): Option<string> {
    if events == [] then None
    else
      var event := events[|events| - 1];
      if event.ToolArgs? && event.name.Some? && event.name.value != "" then event.name
      else LastNamed(events[..|events| - 1])
  }

  lemma {:induction false} LastNamedSnoc(events: seq<LlmEvent>, event: LlmEvent)
    ensures LastNamed(events + [event])
         == if event.ToolArgs? && event.name.Some? && event.name.value != "" then event.name else LastNamed(events)
    ensures LastNamed([]) == None
  {
    assert (events + [event])[..|events|] == events;
  }

  /** A flight of fragments is the given events, every one under the given attempt and drawn in the given room. */
  predicate FlightTells(flight: seq<Drawn>, since: seq<LlmEvent>, attempt: nat, room: nat) {
    && Said(flight, TextChannel) == TextOf(since)
    && Said(flight, ThinkingChannel) == ThoughtOf(since)
    && Said(flight, ArgsChannel) == ArgsShown(since) && NameSaid(flight) == LastNamed(since)
    && OneRoom(flight, room)
    && |flight| == |since|
    && (forall k :: 0 <= k < |flight| ==> flight[k].delta.attempt == attempt)
  }

  lemma {:induction false} FlightStep(
    flight: seq<Drawn>, since: seq<LlmEvent>, event: LlmEvent, attempt: nat, room: nat)
    requires FlightTells(flight, since, attempt, room) && !event.Retry?
    ensures var entry := EntryOf(NoticeOf(event, attempt), room);
            && entry.Pushed? && Kept(flight, entry.drawn.delta.attempt) == flight
            && FlightTells(flight + [entry.drawn], since + [event], attempt, room)
  {
    hide Said, NameSaid, TextOf, ThoughtOf, ArgsShown, LastNamed;
    var drawn := EntryOf(NoticeOf(event, attempt), room).drawn;
    SaidGrows(flight, drawn, TextChannel);
    SaidGrows(flight, drawn, ThinkingChannel);
    SaidGrows(flight, drawn, ArgsChannel);
    NameGrows(flight, drawn);
    TextOfAppend(since, [event]);
    OneText(event);
    ThoughtAppend(since, [event]);
    OneThought(event);
    ArgsShownSnoc(since, event);
    LastNamedSnoc(since, event);
  }

  lemma {:induction false} OneText(event: LlmEvent)
    ensures TextOf([event]) == if event.Text? then event.fragment else ""
  {
    assert [event][1..] == [];
    assert TextOf([event]) == (if event.Text? then event.fragment else "") + TextOf([]);
  }

  lemma {:induction false} NothingInFlight(attempt: nat, room: nat)
    ensures FlightTells([], [], attempt, room)
  {
    OneThought(Text(""));
    ArgsShownSnoc([], Text(""));
    hide ThoughtOf, ArgsShown;
  }

  /**
   Whatever Progress saw before the call, what is in flight is the text since the last retry, each fragment
   under the attempt the observer has reached.
   */
  lemma {:induction false} FlightIsSinceRetry(prior: seq<Entry>, events: seq<LlmEvent>, room: nat)
    requires prior != [] && prior[|prior| - 1].Reset?
    ensures FlightTells(InFlight(prior + EntriesOf(events, room)), SinceRetry(events), ObservedAttempt(events), room)
  {
    if events == [] {
      assert prior + [] == prior;
      NothingInFlight(ObservedAttempt(events), room);
      return;
    }
    var n := |events| - 1;
    var earlier, event := events[..n], events[n];
    assert events == earlier + [event];
    FlightIsSinceRetry(prior, earlier, room);
    SinceRetryStep(earlier, event);
    EntriesStep(earlier, event, room);
    ObservedStep(earlier, event);
    var history := prior + EntriesOf(earlier, room);
    var attempt := ObservedAttempt(earlier);
    var entry := EntryOf(NoticeOf(event, attempt), room);
    ConcatAssociates(prior, EntriesOf(earlier, room), [entry]);
    NothingInFlight(ObservedAttempt(events), room);
    hide EntriesOf, SinceRetry, ObservedAttempt, FlightTells, InFlight;
    if event.Retry? {
      FlightGrows(history, Drawn(Delta(0, TextChannel, "", None), 0));
    } else {
      FlightGrows(history, entry.drawn);
      FlightStep(InFlight(history), SinceRetry(earlier), event, attempt, room);
    }
  }

  /** Drives the observer and Progress over the events of a call, as the emitter does. */
  method Follow(partial: Partial, events: seq<LlmEvent>, room: nat)
    requires partial.Valid()
    modifies partial
    ensures partial.Valid()
    ensures var since := SinceRetry(events);
            && partial.tail == Last(Cleaned(TextOf(since)), room)
            && partial.textChars == |TextOf(since)| && partial.thinkingChars == |ThoughtOf(since)|
            && partial.argsChars == |ArgsShown(since)| && partial.argsName == LastNamed(since)
  {
    partial.Clear();
    ghost var prior := partial.history;
    var observer := new Observer();
    var i := 0;
    assert prior + EntriesOf([], room) == prior;
    while i < |events|
      invariant 0 <= i <= |events|
      invariant partial.Valid() && observer.Valid() && observer.seen == events[..i]
      invariant partial.history == prior + EntriesOf(events[..i], room)
    {
      hide EntriesOf, InFlight, ObservedAttempt;
      assert events[..i + 1] == events[..i] + [events[i]];
      EntriesStep(events[..i], events[i], room);
      ghost var entry := EntryOf(NoticeOf(events[i], ObservedAttempt(events[..i])), room);
      ConcatAssociates(prior, EntriesOf(events[..i], room), [entry]);
      var notice := observer.Observe(events[i]);
      match notice {
        case Fragment(delta) => partial.Push(delta, room);
        case Boundary => partial.Clear();
      }
      i := i + 1;
    }
    assert events[..i] == events;
    FlightIsSinceRetry(prior, events, room);
  }

  /** Every fragment of a run in flight carries the gateway's own attempt number. */
  lemma FragmentsCarryTheirAttempt(config: Config, world: World, n: nat, i: nat, prior: seq<Entry>, room: nat)
    requires config.maxAttempts <= U32_MAX && Made(config, world, n) && i <= |EventsThrough(config, world, n)|
    requires prior != [] && prior[|prior| - 1].Reset?
    ensures var events := EventsThrough(config, world, n);
            var flight := InFlight(prior + EntriesOf(events[..i], room));
            forall k :: 0 <= k < |flight| ==> flight[k].delta.attempt == GatewayAttempt(events, i)
  {
    var events := EventsThrough(config, world, n);
    ObserverFollowsGateway(config, world, n, i);
    FlightIsSinceRetry(prior, events[..i], room);
  }
}
