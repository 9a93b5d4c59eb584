/**
 Server-Sent Events framing: the incremental decoder of `src/llm/stream/sse.rs`
 and the whole-body reading of the format it refines.

 `lossy` stands for the standard library's lossy UTF-8 decoding; nothing is
 assumed of it beyond being a function of the bytes of one line.
 */
module Sse {
  import opened Prelude

  const LF: byte := 10
  const CR: byte := 13

  type Lossy = seq<byte> -> string

  // ----- The whole-body reading -----

  function StripCr(line: seq<byte>): seq<byte> {
    if line != [] && line[|line| - 1] == CR then line[..|line| - 1] else line
  }

  /** The lines a body completes: each ends at a `\n`, with one `\r` before it removed. */
  function CompleteLines(body: seq<byte>): seq<seq<byte>>
    decreases |body|
  {
    var k := IndexOf(body, LF);
    if k == |body| then [] else [StripCr(body[..k])] + CompleteLines(body[k + 1..])
  }

  /** The bytes after the last `\n`. */
  function OpenLine(body: seq<byte>): seq<byte>
    decreases |body|
  {
    var k := IndexOf(body, LF);
    if k == |body| then body else OpenLine(body[k + 1..])
  }

  function Decode(lossy: Lossy, lines: seq<seq<byte>>): seq<string> {
    seq(|lines|, i requires 0 <= i < |lines| => lossy(lines[i]))
  }

  /** The value of a `data` line: `data` alone, or `data:` and a value less one leading space. */
  function DataValue(line: string): Option<string> {
    if line == "data" then Some("")
    else if "data:" <= line then
      var value := line[5..];
      Some(if value != "" && value[0] == ' ' then value[1..] else value)
    else None
  }

  function DataValues(lines: seq<string>): seq<string> {
    if lines == [] then []
    else
      match DataValue(lines[0])
      case None => DataValues(lines[1..])
      case Some(value) => [value] + DataValues(lines[1..])
  }

  /** What one blank line dispatches, given the lines since the previous blank one. */
  function Dispatch(event: seq<string>): seq<string> {
    var values := DataValues(event);
    if values == [] then [] else [Join(values, "\n")]
  }

  function EventPayloads(lines: seq<string>): seq<string>
    decreases |lines|
  {
    var k := IndexOf(lines, "");
    if k == |lines| then [] else Dispatch(lines[..k]) + EventPayloads(lines[k + 1..])
  }

  /** The lines of the event still open: those after the last blank line. */
  function OpenEvent(lines: seq<string>): seq<string>
    decreases |lines|
  {
    var k := IndexOf(lines, "");
    if k == |lines| then lines else OpenEvent(lines[k + 1..])
  }

  function TextLines(lossy: Lossy, body: seq<byte>): seq<string> {
    Decode(lossy, CompleteLines(body))
  }

  /** The payloads of a body: one per blank line that closes an event with data. */
  function Payloads(lossy: Lossy, body: seq<byte>): seq<string> {
    EventPayloads(TextLines(lossy, body))
  }

  // ----- How the reading grows with the body -----

  /** The first line a body completes, and the rest. */
  lemma {:induction false} LinesUnfold(body: seq<byte>)
    ensures var k := IndexOf(body, LF);
            && (k == |body| ==> CompleteLines(body) == [] && OpenLine(body) == body)
            && (k < |body| ==>
                  CompleteLines(body) == [StripCr(body[..k])] + CompleteLines(body[k + 1..])
                  && OpenLine(body) == OpenLine(body[k + 1..]))
  {
    hide StripCr, IndexOf;
  }

  lemma {:induction false} LinesAppend(a: seq<byte>, b: seq<byte>)
    ensures CompleteLines(a + b) == CompleteLines(a) + CompleteLines(OpenLine(a) + b)
    ensures OpenLine(a + b) == OpenLine(OpenLine(a) + b)
    decreases |a|
  {
    hide *;
    var k := IndexOf(a, LF);
    IndexOfAppend(a, b, LF);
    LinesUnfold(a);
    if k < |a| {
      var rest := a[k + 1..];
      LinesUnfold(a + b);
      assert (a + b)[..k] == a[..k];
      assert (a + b)[k + 1..] == rest + b;
      LinesAppend(rest, b);
      ConcatAssociates([StripCr(a[..k])], CompleteLines(rest), CompleteLines(OpenLine(rest) + b));
    }
  }

  lemma {:induction false} DataValuesAppend(a: seq<string>, b: seq<string>)
    ensures DataValues(a + b) == DataValues(a) + DataValues(b)
  {
    if a == [] {
      assert a + b == b;
    } else {
      assert (a + b)[1..] == a[1..] + b;
      DataValuesAppend(a[1..], b);
    }
  }

  /** The reading up to the first blank line, and the rest. */
  lemma {:induction false} EventsUnfold(lines: seq<string>)
    ensures var k := IndexOf(lines, "");
            && (k == |lines| ==> EventPayloads(lines) == [] && OpenEvent(lines) == lines)
            && (k < |lines| ==>
                  EventPayloads(lines) == Dispatch(lines[..k]) + EventPayloads(lines[k + 1..])
                  && OpenEvent(lines) == OpenEvent(lines[k + 1..]))
  {
    hide Dispatch, IndexOf;
  }

  lemma {:induction false} EventsAppend(a: seq<string>, b: seq<string>)
    ensures EventPayloads(a + b) == EventPayloads(a) + EventPayloads(OpenEvent(a) + b)
    ensures OpenEvent(a + b) == OpenEvent(OpenEvent(a) + b)
    decreases |a|
  {
    hide *;
    var k := IndexOf(a, "");
    IndexOfAppend(a, b, "");
    EventsUnfold(a);
    if k < |a| {
      var rest := a[k + 1..];
      EventsUnfold(a + b);
      assert (a + b)[..k] == a[..k];
      assert (a + b)[k + 1..] == rest + b;
      EventsAppend(rest, b);
      ConcatAssociates(Dispatch(a[..k]), EventPayloads(rest), EventPayloads(OpenEvent(rest) + b));
    }
  }

  lemma {:induction false} OpenEventHasNoBlank(lines: seq<string>)
    ensures "" !in OpenEvent(lines)
    decreases |lines|
  {
    var k := IndexOf(lines, "");
    IndexOfIsFirst(lines, "");
    if k < |lines| {
      OpenEventHasNoBlank(lines[k + 1..]);
    }
  }

  lemma EventsSnoc(lines: seq<string>, line: string)
    ensures line == "" ==>
              && EventPayloads(lines + [line]) == EventPayloads(lines) + Dispatch(OpenEvent(lines))
              && OpenEvent(lines + [line]) == []
    ensures line != "" ==>
              && EventPayloads(lines + [line]) == EventPayloads(lines)
              && OpenEvent(lines + [line]) == OpenEvent(lines) + [line]
  {
    assert IndexOf([line], "") == if line == "" then 0 else 1;
    hide *;
    var open := OpenEvent(lines);
    EventsAppend(lines, [line]);
    OpenEventHasNoBlank(lines);
    IndexOfIsFirst(open, "");
    IndexOfAppend(open, [line], "");
    EventsUnfold(open + [line]);
    if line == "" {
      assert (open + [line])[..|open|] == open;
      assert (open + [line])[|open| + 1..] == [];
      NoLines();
      assert Dispatch(open) + [] == Dispatch(open);
    } else {
      assert EventPayloads(lines) + [] == EventPayloads(lines);
    }
  }

  lemma NoLines()
    ensures EventPayloads([]) == [] && OpenEvent([]) == []
  {
  }

  /** A longer body only adds payloads: what was emitted is never revised. */
  lemma PayloadsGrow(lossy: Lossy, body: seq<byte>, more: seq<byte>)
    ensures Payloads(lossy, body) <= Payloads(lossy, body + more)
  {
    hide CompleteLines, OpenLine, EventPayloads, OpenEvent;
    LinesAppend(body, more);
    var rest := CompleteLines(OpenLine(body) + more);
    assert TextLines(lossy, body + more) == TextLines(lossy, body) + Decode(lossy, rest);
    hide *;
    EventsAppend(TextLines(lossy, body), Decode(lossy, rest));
    PayloadsAre(lossy, body);
    PayloadsAre(lossy, body + more);
  }

  lemma PayloadsAre(lossy: Lossy, body: seq<byte>)
    ensures Payloads(lossy, body) == EventPayloads(TextLines(lossy, body))
  {
  }

  /** The payloads that `more` adds to those of `body`. */
  function Added(lossy: Lossy, body: seq<byte>, more: seq<byte>): (added: seq<string>)
    ensures Payloads(lossy, body + more) == Payloads(lossy, body) + added
  {
    PayloadsGrow(lossy, body, more);
    Payloads(lossy, body + more)[|Payloads(lossy, body)|..]
  }

  lemma AddedInSteps(lossy: Lossy, body: seq<byte>, more: seq<byte>, next: seq<byte>)
    ensures Added(lossy, body, more + next) == Added(lossy, body, more) + Added(lossy, body + more, next)
  {
    assert body + (more + next) == body + more + next;
  }

  // ----- The incremental decoder -----

  function SplitOnce(line: string, c: char): (parts: (string, string))
  {
    var k := IndexOf(line, c);
    if k == |line| then (line, "") else (line[..k], line[k + 1..])
  }

  /** Splitting at the first colon finds the field `data` on exactly the `data` lines. */
  lemma SplitFindsData(line: string)
    ensures SplitOnce(line, ':').0 == "data" <==> DataValue(line).Some?
    ensures DataValue(line).Some? ==>
              var value := SplitOnce(line, ':').1;
              DataValue(line).value == if " " <= value then value[1..] else value
  {
    var k := IndexOf(line, ':');
    IndexOfIsFirst(line, ':');
    if k < |line| && line[..k] == "data" {
      assert line[..5] == line[..4] + [line[4]];
    }
    if "data:" <= line {
      assert line[0] == 'd' && line[1] == 'a' && line[2] == 't' && line[3] == 'a' && line[4] == ':';
      assert line[..4] == "data";
    }
    if line == "data" {
      assert ':' !in line;
    }
  }

  lemma {:induction false} OpenLineHasNoBreak(body: seq<byte>)
    ensures LF !in OpenLine(body)
    decreases |body|
  {
    var k := IndexOf(body, LF);
    IndexOfIsFirst(body, LF);
    if k < |body| {
      OpenLineHasNoBreak(body[k + 1..]);
    }
  }

  /** Bytes without a `\n` only lengthen the open line. */
  lemma OpenLineGrows(body: seq<byte>, segment: seq<byte>)
    requires LF !in segment
    ensures CompleteLines(body + segment) == CompleteLines(body)
    ensures OpenLine(body + segment) == OpenLine(body) + segment
  {
    LinesAppend(body, segment);
    OpenLineHasNoBreak(body);
    IndexOfIsFirst(OpenLine(body) + segment, LF);
    assert IndexOf(OpenLine(body) + segment, LF) == |OpenLine(body) + segment|;
  }

  lemma BreakCompletes(body: seq<byte>)
    ensures CompleteLines(body + [LF]) == CompleteLines(body) + [StripCr(OpenLine(body))]
    ensures OpenLine(body + [LF]) == []
  {
    var bytes := OpenLine(body);
    LinesAppend(body, [LF]);
    OpenLineHasNoBreak(body);
    IndexOfIsFirst(bytes, LF);
    IndexOfAppend(bytes, [LF], LF);
    assert (bytes + [LF])[..|bytes|] == bytes;
    assert (bytes + [LF])[|bytes| + 1..] == [];
  }

  /** What a `\n` after `body` does to the payloads, the open event and the open line. */
  lemma BreakEmits(lossy: Lossy, body: seq<byte>)
    ensures var text, event := lossy(StripCr(OpenLine(body))), OpenEvent(TextLines(lossy, body));
            && Added(lossy, body, [LF]) == (if text == "" then Dispatch(event) else [])
            && OpenEvent(TextLines(lossy, body + [LF])) == (if text == "" then [] else event + [text])
  {
    hide CompleteLines, OpenLine, StripCr;
    var text := lossy(StripCr(OpenLine(body)));
    BreakCompletes(body);
    assert TextLines(lossy, body + [LF]) == TextLines(lossy, body) + [text];
    hide *;
    EventsSnoc(TextLines(lossy, body), text);
    PayloadsAre(lossy, body);
    PayloadsAre(lossy, body + [LF]);
    var added := if text == "" then Dispatch(OpenEvent(TextLines(lossy, body))) else [];
    assert Payloads(lossy, body) + added == Payloads(lossy, body + [LF]);
  }

  lemma SplitAtBreak(read: seq<byte>, rest: seq<byte>, end: nat)
    requires end < |rest| && rest[end] == LF
    ensures read + rest == read + (rest[..end] + [LF]) + rest[end + 1..]
  {
    assert rest == rest[..end] + [LF] + rest[end + 1..];
  }

  class SseParser {
    const lossy: Lossy
    var line: seq<byte>
    var data: string
    var hasData: bool
    /** Every byte pushed so far. */
    ghost var received: seq<byte>

    /** The open line and the open event are those of the bytes received. */
    ghost predicate Valid()
      reads this
    {
      && line == OpenLine(received)
      && HoldsEvent(OpenEvent(TextLines(lossy, received)))
    }

    ghost predicate HoldsEvent(event: seq<string>)
      reads this
    {
      var values := DataValues(event);
      && hasData == (values != [])
      && data == Join(values, "\n")
    }

    constructor (lossy: Lossy)
      ensures Valid() && received == [] && this.lossy == lossy
    {
      this.lossy := lossy;
      line, data, hasData, received := [], "", false, [];
    }

    method Push(chunk: seq<byte>, payloads: seq<string>) returns (out: seq<string>)
      requires Valid()
      modifies this
      ensures Valid() && received == old(received) + chunk
      ensures out == payloads + Added(lossy, old(received), chunk)
    {
      ghost var before, read := received, [];
      var rest := chunk;
      out := payloads;
      var end := IndexOf(rest, LF);
      while end < |rest|
        invariant Valid() && received == before + read && chunk == read + rest
        invariant end == IndexOf(rest, LF)
        invariant out == payloads + Added(lossy, before, read)
        decreases |rest|
      {
        ghost var segment := rest[..end] + [LF];
        IndexOfIsFirst(rest, LF);
        SplitAtBreak(read, rest, end);
        ConcatAssociates(before, read, segment);
        AddedInSteps(lossy, before, read, segment);
        ConcatAssociates(payloads, Added(lossy, before, read), Added(lossy, received, segment));
        out := EndLine(rest[..end], out);
        rest := rest[end + 1..];
        read := read + segment;
        end := IndexOf(rest, LF);
      }
      IndexOfIsFirst(rest, LF);
      ConcatAssociates(before, read, rest);
      AddedInSteps(lossy, before, read, rest);
      assert Added(lossy, before, read) + [] == Added(lossy, before, read);
      Buffer(rest);
    }

    /** Keep bytes that end no line. */
    method Buffer(segment: seq<byte>)
      requires Valid() && LF !in segment
      modifies this
      ensures Valid() && received == old(received) + segment
      ensures Added(lossy, old(received), segment) == []
    {
      OpenLineGrows(received, segment);
      line, received := line + segment, received + segment;
    }

    /** A `\n` arrived after `segment`: drop one `\r` before it and take the line. */
    method EndLine(segment: seq<byte>, payloads: seq<string>) returns (out: seq<string>)
      requires Valid() && LF !in segment
      modifies this
      ensures Valid() && received == old(received) + (segment + [LF])
      ensures out == payloads + Added(lossy, old(received), segment + [LF])
    {
      hide Added, OpenLine, CompleteLines, TextLines, OpenEvent, DataValues, Join, Dispatch, Payloads;
      AddedInSteps(lossy, received, segment, [LF]);
      ConcatAssociates(received, segment, [LF]);
      Buffer(segment);
      BreakCompletes(received);
      BreakEmits(lossy, received);
      ghost var event := OpenEvent(TextLines(lossy, received));
      if line != [] && line[|line| - 1] == CR {
        line := line[..|line| - 1];
      }
      out := TakeLine(payloads, event);
      received := received + [LF];
    }

    /** Consume the buffered line; a blank one dispatches the open `event`. */
    method TakeLine(payloads: seq<string>, ghost event: seq<string>) returns (out: seq<string>)
      requires HoldsEvent(event)
      modifies this`line, this`data, this`hasData
      ensures line == []
      ensures var text := lossy(old(line));
              if text == "" then out == payloads + Dispatch(event) && HoldsEvent([])
              else out == payloads && HoldsEvent(event + [text])
    {
      var text := lossy(line);
      line := [];
      out := payloads;
      if text == "" {
        if hasData {
          out := payloads + [data];
          data, hasData := "", false;
        }
        return;
      }
      SplitFindsData(text);
      DataValuesAppend(event, [text]);
      assert DataValues([text]) == match DataValue(text) case None => [] case Some(v) => [v];
      assert DataValue(text).None? ==> DataValues(event + [text]) == DataValues(event);
      if text[0] == ':' {
        assert "data:"[0] == 'd' && "data"[0] == 'd';
        return;
      }
      var (field, value) := SplitOnce(text, ':');
      if field != "data" {
        return;
      }
      if " " <= value {
        value := value[1..];
      }
      if hasData {
        JoinSnoc(DataValues(event), "\n", value);
        data := data + "\n";
      }
      data := data + value;
      hasData := true;
    }
  }
}
