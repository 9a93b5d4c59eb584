/**
 A fetched page in parts: `page_parts` of `src/research/agent_loop/context.rs` and
 `part_spans` of `src/research/agent_loop/registry.rs`.
 */
module Pages {
  import opened Prelude

  // ----- Where a part is cut -----

  /** The last newline at or after `from`, if any. */
  function LastNewline(window: string, from: nat): (at: Option<nat>)
    ensures at.Some? ==> from <= at.value < |window| && window[at.value] == '\n'
    ensures at.Some? ==> forall i :: at.value < i < |window| ==> window[i] != '\n'
    ensures at.None? ==> forall i :: from <= i < |window| ==> window[i] != '\n'
  {
    if |window| <= from then None
    else if window[|window| - 1] == '\n' then Some(|window| - 1)
    else LastNewline(window[..|window| - 1], from)
  }

  /** The least a part that is not the last may hold. */
  function TailStart(partChars: nat): (n: nat)
    requires partChars >= 1
    ensures 1 <= n <= partChars
  {
    partChars - partChars / 10
  }

  /** After the last newline of the window's final tenth, or at the window's end. */
  function Cut(rest: string, partChars: nat): (cut: nat)
    requires 1 <= partChars < |rest|
    ensures TailStart(partChars) <= cut <= partChars
  {
    match LastNewline(rest[..partChars], TailStart(partChars))
    case Some(at) => at + 1
    case None => partChars
  }

  /** The parts of a page of at least one character each way. */
  function Parts(page: string, partChars: nat): (parts: seq<string>)
    requires partChars >= 1
    ensures parts != []
    decreases |page|
  {
    if |page| <= partChars then [page]
    else
      var cut := Cut(page, partChars);
      [page[..cut]] + Parts(page[cut..], partChars)
  }

  method PageParts(markdown: string, partChars: nat) returns (parts: seq<string>)
    ensures parts == Parts(markdown, Max(partChars, 1))
  {
    hide Parts, Cut;
    var size := Max(partChars, 1);
    var tailChars := size - size / 10;
    parts := [];
    var rest := markdown;
    assert [] + Parts(rest, size) == Parts(rest, size);
    while |rest| > size
      invariant parts + Parts(rest, size) == Parts(markdown, size)
      decreases |rest|
    {
      var window := rest[..size];
      var newline := LastNewline(window, tailChars);
      var cut := if newline.Some? then newline.value + 1 else size;
      PartsUnfold(rest, size);
      ConcatAssociates(parts, [rest[..cut]], Parts(rest[cut..], size));
      parts := parts + [rest[..cut]];
      rest := rest[cut..];
    }
    PartsUnfold(rest, size);
    parts := parts + [rest];
  }

  lemma {:induction false} PartsUnfold(rest: string, size: nat)
    requires size >= 1
    ensures |rest| <= size ==> Parts(rest, size) == [rest]
    ensures |rest| > size ==>
              var newline := LastNewline(rest[..size], size - size / 10);
              var cut := if newline.Some? then newline.value + 1 else size;
              1 <= cut <= size && Parts(rest, size) == [rest[..cut]] + Parts(rest[cut..], size)
  {
    hide LastNewline;
  }

  // ----- What the parts are -----

  /** The parts concatenate back to the page. */
  lemma {:induction false} PartsAreThePage(page: string, partChars: nat)
    requires partChars >= 1
    ensures Flatten(Parts(page, partChars)) == page
    decreases |page|
  {
    if |page| > partChars {
      var cut := Cut(page, partChars);
      var rest := Parts(page[cut..], partChars);
      PartsAreThePage(page[cut..], partChars);
      assert Parts(page, partChars) == [page[..cut]] + rest;
      hide Parts;
      assert ([page[..cut]] + rest)[1..] == rest;
      assert page == page[..cut] + page[cut..];
    } else {
      assert [page][1..] == [];
    }
  }

  /** Every part fits, every part but the last is nearly full, and none is empty unless the page is. */
  lemma {:induction false} PartsAreSized(page: string, partChars: nat, i: nat)
    requires partChars >= 1 && i < |Parts(page, partChars)|
    ensures var parts := Parts(page, partChars);
            && |parts[i]| <= partChars
            && (i < |parts| - 1 ==> TailStart(partChars) <= |parts[i]|)
            && (page != "" ==> parts[i] != "")
    decreases |page|
  {
    if |page| > partChars && i > 0 {
      var cut := Cut(page, partChars);
      PartsAreSized(page[cut..], partChars, i - 1);
    }
  }

  /** A part that is not the last and is not full ends at a line end. */
  lemma {:induction false} ShortPartsEndLines(page: string, partChars: nat, i: nat)
    requires partChars >= 1 && i < |Parts(page, partChars)| - 1
    ensures var part := Parts(page, partChars)[i];
            |part| < partChars ==> part != "" && part[|part| - 1] == '\n'
    decreases |page|
  {
    if |page| > partChars {
      var cut := Cut(page, partChars);
      if i > 0 {
        ShortPartsEndLines(page[cut..], partChars, i - 1);
      }
    }
  }

  /** How many parts a page can take. */
  lemma {:induction false} PartCountIsBounded(page: string, partChars: nat)
    requires partChars >= 1
    ensures (|Parts(page, partChars)| - 1) * TailStart(partChars) <= |page|
    decreases |page|
  {
    if |page| > partChars {
      var cut := Cut(page, partChars);
      PartCountIsBounded(page[cut..], partChars);
      OneTimesMore(|Parts(page[cut..], partChars)|, TailStart(partChars));
    }
  }

  lemma OneTimesMore(n: nat, size: nat)
    ensures n * size == (n - 1) * size + size
  {
  }
  /** The last tenth of a part starts where nine tenths of its size are full. */
  lemma {:induction false} LastTenth(partChars: nat)
    requires partChars >= 1
    ensures 9 * partChars <= 10 * TailStart(partChars) < 9 * partChars + 10
  {
  }

  /** Where a part ends, given what is left of the page: after the last line end of its last tenth, else when full. */
  predicate EndsWell(rest: string, partChars: nat, n: nat)
    requires 1 <= partChars < |rest|
  {
    && 1 <= n <= partChars
    && (if exists j :: TailStart(partChars) <= j < partChars && rest[j] == '\n' then
          TailStart(partChars) < n && rest[n - 1] == '\n' && forall j :: n <= j < partChars ==> rest[j] != '\n'
        else n == partChars)
  }

  lemma {:induction false} CutEndsWell(rest: string, partChars: nat)
    requires 1 <= partChars < |rest|
    ensures EndsWell(rest, partChars, Cut(rest, partChars))
  {
    var window := rest[..partChars];
    assert forall j :: 0 <= j < partChars ==> window[j] == rest[j];
  }

  /** Each part is cut from what is left of the page: all of it when it fits, and else where a part should end. */
  lemma {:induction false} PartsEndWell(page: string, partChars: nat, i: nat)
    requires partChars >= 1 && i < |Parts(page, partChars)|
    ensures var parts := Parts(page, partChars);
            var start := |Flatten(parts[..i])|;
            && start <= |page| && parts[i] <= page[start..]
            && (i == |parts| - 1 <==> |page| - start <= partChars)
            && (i == |parts| - 1 ==> parts[i] == page[start..])
            && (i < |parts| - 1 ==> EndsWell(page[start..], partChars, |parts[i]|))
    decreases |page|
  {
    hide Cut, EndsWell;
    var parts := Parts(page, partChars);
    if i == 0 {
      assert parts[..0] == [] && Flatten<char>([]) == [] && page[0..] == page;
      if |page| > partChars {
        CutEndsWell(page, partChars);
      }
    } else {
      var cut := Cut(page, partChars);
      var rest := page[cut..];
      PartsEndWell(rest, partChars, i - 1);
      assert parts == [page[..cut]] + Parts(rest, partChars);
      hide Parts;
      var earlier := Parts(rest, partChars)[..i - 1];
      assert parts[..i] == [page[..cut]] + earlier;
      FlattenAppend([page[..cut]], earlier);
      assert Flatten([page[..cut]]) == page[..cut] + Flatten([]) == page[..cut] by {
        assert [page[..cut]][1..] == [];
      }
      assert rest[|Flatten(earlier)|..] == page[cut + |Flatten(earlier)|..];
    }
  }

  // ----- Byte spans -----

  /** A character's bytes; the tiling holds for any encoding that works character by character. */
  type Encoding = char -> seq<int>

  function Bytes(encode: Encoding, text: string): seq<int> {
    if text == "" then [] else encode(text[0]) + Bytes(encode, text[1..])
  }

  datatype Span = Span(start: nat, end: nat)

  /** The spans of the parts laid end to end from `start`. */
  function Spans(encode: Encoding, parts: seq<string>, start: nat): (spans: seq<Span>)
    ensures |spans| == |parts|
  {
    if parts == [] then []
    else
      var end := start + |Bytes(encode, parts[0])|;
      [Span(start, end)] + Spans(encode, parts[1..], end)
  }

  method PartSpans(encode: Encoding, markdown: string, partChars: nat) returns (spans: seq<Span>)
    ensures spans == Spans(encode, Parts(markdown, Max(partChars, 1)), 0)
  {
    hide Spans, Parts, Bytes;
    var start: nat := 0;
    var parts := PageParts(markdown, partChars);
    spans := [];
    assert parts[0..] == parts && [] + Spans(encode, parts, 0) == Spans(encode, parts, 0);
    for i := 0 to |parts|
      invariant spans + Spans(encode, parts[i..], start) == Spans(encode, parts, 0)
    {
      var span := Span(start, start + |Bytes(encode, parts[i])|);
      SpansAt(encode, parts, i, start);
      ConcatAssociates(spans, [span], Spans(encode, parts[i + 1..], span.end));
      start := span.end;
      spans := spans + [span];
    }
    assert Spans(encode, parts[|parts|..], start) == [] && spans + [] == spans;
  }

  lemma {:induction false} SpansAt(encode: Encoding, parts: seq<string>, i: nat, start: nat)
    requires i < |parts|
    ensures var end := start + |Bytes(encode, parts[i])|;
            Spans(encode, parts[i..], start) == [Span(start, end)] + Spans(encode, parts[i + 1..], end)
  {
    hide Bytes;
    assert parts[i..][0] == parts[i] && parts[i..][1..] == parts[i + 1..];
  }

  lemma {:induction false} BytesAppend(encode: Encoding, a: string, b: string)
    ensures Bytes(encode, a + b) == Bytes(encode, a) + Bytes(encode, b)
  {
    if a == "" {
      assert a + b == b;
    } else {
      assert (a + b)[1..] == a[1..] + b;
      BytesAppend(encode, a[1..], b);
    }
  }

  /** Each span starts where the previous one ended and covers exactly its part's bytes. */
  lemma {:induction false} SpansTile(encode: Encoding, before: string, parts: seq<string>, i: nat)
    requires i < |parts|
    ensures var start := |Bytes(encode, before)|;
            var spans := Spans(encode, parts, start);
            var bytes := Bytes(encode, before + Flatten(parts));
            && spans[i].start == (if i == 0 then start else spans[i - 1].end)
            && spans[i].start <= spans[i].end <= |bytes|
            && bytes[spans[i].start..spans[i].end] == Bytes(encode, parts[i])
            && (i == |parts| - 1 ==> spans[i].end == |bytes|)
    decreases |parts|
  {
    var first, rest := parts[0], parts[1..];
    var grown := before + first;
    assert before + Flatten(parts) == grown + Flatten(rest);
    BytesAppend(encode, before, first);
    BytesAppend(encode, grown, Flatten(rest));
    if i == 0 {
      var start, end := |Bytes(encode, before)|, |Bytes(encode, grown)|;
      assert Bytes(encode, before + Flatten(parts))[start..end] == Bytes(encode, first);
    } else {
      SpansTile(encode, grown, rest, i - 1);
      assert rest[i - 1] == parts[i];
    }
  }

  /** The spans of a page's parts tile its bytes in order. */
  lemma PartSpansTile(encode: Encoding, page: string, partChars: nat, i: nat)
    requires partChars >= 1 && i < |Parts(page, partChars)|
    ensures var parts := Parts(page, partChars);
            var spans := Spans(encode, parts, 0);
            && spans[i].start == (if i == 0 then 0 else spans[i - 1].end)
            && spans[i].start <= spans[i].end <= |Bytes(encode, page)|
            && Bytes(encode, page)[spans[i].start..spans[i].end] == Bytes(encode, parts[i])
            && (i == |parts| - 1 ==> spans[i].end == |Bytes(encode, page)|)
  {
    PartsAreThePage(page, partChars);
    SpansTile(encode, "", Parts(page, partChars), i);
    assert "" + page == page;
  }
}
