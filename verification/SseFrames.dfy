/**
 Server-sent events written and read back: the reading of `Sse` undoes the framing of section 9.2
 of the WHATWG HTML standard, whatever the payloads and whichever line break ends each line.
 */
module SseFrames {
  import opened Prelude
  import opened Sse

  // ----- Lines -----

  /** A body that holds the lines, each ended by a line break. */
  function Body(lines: seq<seq<byte>>): seq<byte> {
    if lines == [] then [] else lines[0] + [LF] + Body(lines[1..])
  }

  function Stripped(lines: seq<seq<byte>>): seq<seq<byte>> {
    seq(|lines|, i requires 0 <= i < |lines| => StripCr(lines[i]))
  }

  /** The lines of a body are read as they were written, less a carriage return at the end of each. */
  lemma {:induction false} LinesReadBack(lines: seq<seq<byte>>)
    requires forall i :: 0 <= i < |lines| ==> LF !in lines[i]
    ensures CompleteLines(Body(lines)) == Stripped(lines) && OpenLine(Body(lines)) == []
  {
    hide CompleteLines, OpenLine, StripCr, IndexOf;
    if lines == [] {
      NothingFramed();
    } else {
      var first, later := lines[0], lines[1..];
      var rest := Body(later);
      LinesReadBack(later);
      assert Body(lines) == first + ([LF] + rest);
      hide Body;
      FoundFirst(first, LF, rest);
      LinesUnfold(first + ([LF] + rest));
      assert lines == [first] + later;
      assert Stripped(lines) == [StripCr(first)] + Stripped(later);
    }
  }

  lemma {:induction false} NothingFramed()
    ensures CompleteLines([]) == [] && OpenLine([]) == [] && Body([]) == [] && EventPayloads([]) == []
  {
  }

  lemma {:induction false} FoundFirst<T>(a: seq<T>, x: T, rest: seq<T>)
    requires x !in a
    ensures var whole := a + ([x] + rest);
            IndexOf(whole, x) == |a| < |whole| && whole[..|a|] == a && whole[|a| + 1..] == rest
  {
    assert IndexOf([x] + rest, x) == 0;
    hide IndexOf;
    IndexOfAppend(a, [x] + rest, x);
    IndexOfIsFirst(a, x);
  }

  /** A line break may be a line feed alone or after a carriage return. */
  lemma {:induction false} EitherBreakWillDo(line: seq<byte>)
    requires line == [] || line[|line| - 1] != CR
    ensures StripCr(line) == StripCr(line + [CR]) == line
  {
    assert (line + [CR])[..|line|] == line;
  }

  // ----- Events -----

  function DataLines(lines: seq<string>): seq<string> {
    seq(|lines|, i requires 0 <= i < |lines| => "data: " + lines[i])
  }

  /** The lines of one event: a `data` line for each line of its payload, then a blank one. */
  function EventLines(lines: seq<string>): seq<string> {
    DataLines(lines) + [""]
  }

  function AllLines(events: seq<seq<string>>): seq<string> {
    if events == [] then [] else EventLines(events[0]) + AllLines(events[1..])
  }

  lemma {:induction false} DataReadsBack(lines: seq<string>)
    ensures DataValues(DataLines(lines)) == lines
    ensures "" !in DataLines(lines)
  {
    if lines != [] {
      DataReadsBack(lines[1..]);
      var first := "data: " + lines[0];
      assert DataLines(lines) == [first] + DataLines(lines[1..]);
      assert DataLines(lines)[1..] == DataLines(lines[1..]);
      OneDataLine(lines[0]);
      hide DataValue;
      assert lines == [lines[0]] + lines[1..];
    }
  }

  lemma {:induction false} OneDataLine(line: string)
    ensures DataValue("data: " + line) == Some(line)
  {
    var written := "data: " + line;
    assert written[..5] == "data:" && written[5..] == " " + line && written != "data";
    assert written[5..][1..] == line;
  }

  /** Comments and fields other than `data` change nothing. */
  lemma {:induction false} OtherLinesAreSkipped(line: string, rest: seq<string>)
    requires line != "data" && !("data:" <= line)
    ensures DataValues([line] + rest) == DataValues(rest)
  {
    assert ([line] + rest)[1..] == rest;
  }

  /** Every payload is read back: its lines, joined. */
  lemma {:induction false} EventsReadBack(events: seq<seq<string>>)
    requires forall i :: 0 <= i < |events| ==> events[i] != []
    ensures EventPayloads(AllLines(events))
         == seq(|events|, i requires 0 <= i < |events| => Join(events[i], "\n"))
  {
    hide EventPayloads, OpenEvent, DataLines, Dispatch, Join, IndexOf;
    if events == [] {
      NothingFramed();
    } else {
      var first, later := events[0], events[1..];
      var data, rest := DataLines(first), AllLines(later);
      EventsReadBack(later);
      DataReadsBack(first);
      ConcatAssociates(data, [""], rest);
      assert AllLines(events) == data + ([""] + rest);
      hide AllLines;
      FoundFirst(data, "", rest);
      EventsUnfold(data + ([""] + rest));
      OneDispatch(first);
      assert seq(|events|, i requires 0 <= i < |events| => Join(events[i], "\n"))
          == [Join(first, "\n")] + seq(|later|, i requires 0 <= i < |later| => Join(later[i], "\n"));
    }
  }

  lemma {:induction false} OneDispatch(lines: seq<string>)
    requires lines != []
    ensures Dispatch(DataLines(lines)) == [Join(lines, "\n")]
  {
    DataReadsBack(lines);
    hide DataValues, DataLines;
  }

  /**
   A body that holds the framed payloads, encoded in any way that decodes back, gives exactly
   those payloads in order.
   */
  lemma {:induction false} FramesReadBack(lossy: Lossy, events: seq<seq<string>>, raw: seq<seq<byte>>)
    requires forall i :: 0 <= i < |events| ==> events[i] != []
    requires forall i :: 0 <= i < |raw| ==> LF !in raw[i]
    requires Decode(lossy, Stripped(raw)) == AllLines(events)
    ensures Payloads(lossy, Body(raw))
         == seq(|events|, i requires 0 <= i < |events| => Join(events[i], "\n"))
  {
    LinesReadBack(raw);
    EventsReadBack(events);
    hide CompleteLines, OpenLine, EventPayloads, Body, AllLines, Stripped, Decode, Join;
  }
}
