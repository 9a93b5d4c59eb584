/**
 What a Chat Completions stream may do without changing its answer, and where its calls stand.

 The same answer may arrive cut anywhere: one delta may come as two, and the fragments of
 different calls may change places. The second half is about the index in an argument event.
 */
module OpenAiCuts {
  import opened Prelude
  import opened Reply
  import opened Response
  import opened OpenAi

  // ----- One cut, one swap -----

  /** Two placements whose last fragment, if any, is of the same call. */
  predicate EndAlike(p: seq<Placed>, q: seq<Placed>) {
    if p == [] then q == [] else q != [] && p[|p| - 1].index == q[|q| - 1].index
  }

  /** Whether a fragment finds its call without looking at the one before it. */
  predicate StandsAlone(call: DeltaToolCall) {
    call.index.Some? || NonEmpty(call.id).Some?
  }

  lemma AgreeSnoc(p: seq<Placed>, q: seq<Placed>, call: DeltaToolCall)
    requires Agree(p, q) && (EndAlike(p, q) || StandsAlone(call))
    ensures Place(p, call) == Place(q, call)
    ensures var x, y := p + [Placed(Place(p, call), call)], q + [Placed(Place(q, call), call)];
            Agree(x, y) && EndAlike(x, y)
  {
    assert Place(p, call) == Place(q, call);
    hide IdOf, NameOf, ArgumentsOf, Indices, Place;
    var added := Placed(Place(p, call), call);
    PlacedSnoc(p, added, added.index);
    PlacedSnoc(q, added, added.index);
    forall index: nat
      ensures IdOf(p + [added], index) == IdOf(q + [added], index)
      ensures NameOf(p + [added], index) == NameOf(q + [added], index)
      ensures ArgumentsOf(p + [added], index) == ArgumentsOf(q + [added], index)
    {
      PlacedSnocOther(p, added, index);
      PlacedSnocOther(q, added, index);
    }
  }

  lemma PlacedSnocOther(placed: seq<Placed>, p: Placed, index: nat)
    ensures index != p.index ==>
              && IdOf(placed + [p], index) == IdOf(placed, index)
              && NameOf(placed + [p], index) == NameOf(placed, index)
              && ArgumentsOf(placed + [p], index) == ArgumentsOf(placed, index)
  {
    assert (placed + [p])[..|placed|] == placed;
  }

  lemma PlaceAllSnoc(calls: seq<DeltaToolCall>, call: DeltaToolCall)
    ensures PlaceAll(calls + [call]) == PlaceAll(calls) + [Placed(Place(PlaceAll(calls), call), call)]
  {
    assert (calls + [call])[..|calls|] == calls;
  }

  /** What follows is placed alike after calls that agree, if it does not lean on the last of them. */
  lemma {:induction false} AgreeOnwards(a: seq<DeltaToolCall>, b: seq<DeltaToolCall>, after: seq<DeltaToolCall>)
    requires Agree(PlaceAll(a), PlaceAll(b))
    requires EndAlike(PlaceAll(a), PlaceAll(b)) || after == [] || StandsAlone(after[0])
    ensures Agree(PlaceAll(a + after), PlaceAll(b + after))
    ensures after != [] || EndAlike(PlaceAll(a), PlaceAll(b)) ==> EndAlike(PlaceAll(a + after), PlaceAll(b + after))
  {
    hide Agree, PlaceAll, Place;
    if after == [] {
      assert a + after == a && b + after == b;
    } else {
      var earlier, last := after[..|after| - 1], after[|after| - 1];
      AgreeOnwards(a, b, earlier);
      assert a + after == (a + earlier) + [last] && b + after == (b + earlier) + [last];
      PlaceAllSnoc(a + earlier, last);
      PlaceAllSnoc(b + earlier, last);
      AgreeSnoc(PlaceAll(a + earlier), PlaceAll(b + earlier), last);
    }
  }

  /**
   Whether `first` and then `second` say what `whole` says: its arguments cut anywhere, its id
   and name given once; without an index the id comes first, or the second would open a new call.
   */
  predicate IsCallCut(whole: DeltaToolCall, first: DeltaToolCall, second: DeltaToolCall) {
    && whole.index == first.index == second.index
    && (second.index.None? ==> NonEmpty(second.id).None?)
    && NonEmpty(whole.id) == (if NonEmpty(first.id).None? then NonEmpty(second.id) else NonEmpty(first.id))
    && CallName(whole) == (if CallName(first).None? then CallName(second) else CallName(first))
    && CallArguments(whole) == CallArguments(first) + CallArguments(second)
  }

  lemma CutAgrees(before: seq<DeltaToolCall>, whole: DeltaToolCall, first: DeltaToolCall, second: DeltaToolCall)
    requires IsCallCut(whole, first, second)
    ensures var p, q := PlaceAll(before + [whole]), PlaceAll(before + [first] + [second]);
            Agree(p, q) && EndAlike(p, q)
  {
    var placed := PlaceAll(before);
    PlaceAllSnoc(before, whole);
    PlaceAllSnoc(before, first);
    PlaceAllSnoc(before + [first], second);
    var at := Place(placed, whole);
    var x, y, z := Placed(at, whole), Placed(at, first), Placed(at, second);
    assert Place(placed, first) == at && Place(placed + [y], second) == at;
    hide IdOf, NameOf, ArgumentsOf, Indices, Place, PlaceAll, CallName, CallArguments;
    PlacedSnoc(placed, x, at);
    PlacedSnoc(placed, y, at);
    PlacedSnoc(placed + [y], z, at);
    ConcatAssociates(ArgumentsOf(placed, at), CallArguments(first), CallArguments(second));
    forall index: nat | index != at
      ensures IdOf(placed + [x], index) == IdOf(placed + [y] + [z], index)
      ensures NameOf(placed + [x], index) == NameOf(placed + [y] + [z], index)
      ensures ArgumentsOf(placed + [x], index) == ArgumentsOf(placed + [y] + [z], index)
    {
      PlacedSnocOther(placed, x, index);
      PlacedSnocOther(placed, y, index);
      PlacedSnocOther(placed + [y], z, index);
    }
  }

  /** Fragments of two different calls say the same in either order. */
  lemma SwapAgrees(before: seq<DeltaToolCall>, x: DeltaToolCall, y: DeltaToolCall)
    requires x.index.Some? && y.index.Some? && x.index != y.index
    ensures Agree(PlaceAll(before + [x] + [y]), PlaceAll(before + [y] + [x]))
  {
    PlaceAllSnoc(before, x);
    PlaceAllSnoc(before + [x], y);
    PlaceAllSnoc(before, y);
    PlaceAllSnoc(before + [y], x);
    var placed, p, q := PlaceAll(before), Placed(x.index.value, x), Placed(y.index.value, y);
    hide IdOf, NameOf, ArgumentsOf, Indices, PlaceAll, CallName, CallArguments;
    PlacedSnoc(placed, p, p.index);
    PlacedSnoc(placed, q, q.index);
    PlacedSnoc(placed + [p], q, q.index);
    PlacedSnoc(placed + [q], p, p.index);
    forall index: nat
      ensures IdOf(placed + [p] + [q], index) == IdOf(placed + [q] + [p], index)
      ensures NameOf(placed + [p] + [q], index) == NameOf(placed + [q] + [p], index)
      ensures ArgumentsOf(placed + [p] + [q], index) == ArgumentsOf(placed + [q] + [p], index)
    {
      PlacedSnocOther(placed, p, index);
      PlacedSnocOther(placed, q, index);
      PlacedSnocOther(placed + [p], q, index);
      PlacedSnocOther(placed + [q], p, index);
    }
  }

  lemma {:induction false} ProjectionsAppend(a: seq<Step>, b: seq<Step>, field: Field)
    ensures Glue(a + b, field) == Glue(a, field) + Glue(b, field)
    ensures FinishReason(a + b) == if FinishReason(b).None? then FinishReason(a) else FinishReason(b)
    ensures LastUsage(a + b) == if LastUsage(b).None? then LastUsage(a) else LastUsage(b)
    ensures CallsIn(a + b) == CallsIn(a) + CallsIn(b)
  {
    if b == [] {
      assert a + b == a;
    } else {
      var n, last := |b| - 1, b[|b| - 1];
      ProjectionsAppend(a, b[..n], field);
      assert (a + b)[..|a + b| - 1] == a + b[..n] && (a + b)[|a + b| - 1] == last;
      ConcatAssociates(Glue(a, field), Glue(b[..n], field),
        if last.DeltaSeen? then TextIn(last.choice.delta, field) else "");
      ConcatAssociates(CallsIn(a), CallsIn(b[..n]), if last.DeltaSeen? then last.choice.delta.toolCalls else []);
      hide TextIn;
    }
  }

  lemma SawAppend(a: seq<Step>, b: seq<Step>)
    ensures SawChoice(a + b) <==> SawChoice(a) || SawChoice(b)
  {
    var s := a + b;
    if SawChoice(a) {
      var i :| 0 <= i < |a| && a[i].DeltaSeen?;
      assert s[i].DeltaSeen?;
    }
    if SawChoice(b) {
      var i :| 0 <= i < |b| && b[i].DeltaSeen?;
      assert s[|a| + i].DeltaSeen?;
    }
  }

  /** Steps that hold the same hold the same between the same neighbours. */
  lemma HeldBetween(before: seq<Step>, a: seq<Step>, b: seq<Step>, after: seq<Step>)
    requires HeldAfter(a) == HeldAfter(b)
    ensures HeldAfter(before + a + after) == HeldAfter(before + b + after)
  {
    forall field: Field
      ensures Glue(before + a + after, field) == Glue(before + b + after, field)
      ensures FinishReason(before + a + after) == FinishReason(before + b + after)
      ensures LastUsage(before + a + after) == LastUsage(before + b + after)
    {
      assert Glue(a, field) == Glue(b, field) by {
        match field
        case Content =>
        case Refusal =>
        case ReasoningContent =>
        case Reasoning =>
        case Details =>
      }
      hide Glue, FinishReason, LastUsage;
      ProjectionsAppend(before + a, after, field);
      ProjectionsAppend(before, a, field);
      ProjectionsAppend(before + b, after, field);
      ProjectionsAppend(before, b, field);
    }
    hide Glue, FinishReason, LastUsage, SawChoice;
    SawAppend(before + a, after);
    SawAppend(before, a);
    SawAppend(before + b, after);
    SawAppend(before, b);
    assert FinishReason(before + a + after) == FinishReason(before + b + after) by {
      assert Glue(before + a + after, Content) == Glue(before + b + after, Content);
    }
  }

  lemma CallsBetween(before: seq<Step>, a: seq<Step>, after: seq<Step>)
    ensures CallsIn(before + a + after) == CallsIn(before) + CallsIn(a) + CallsIn(after)
  {
    ProjectionsAppend(before + a, after, Content);
    ProjectionsAppend(before, a, Content);
  }

  /** Whether two deltas, one after the other, bring the texts and the finish reason of one. */
  predicate IsTextCut(whole: ChunkChoice, first: ChunkChoice, second: ChunkChoice) {
    && (forall field: Field :: TextIn(whole.delta, field) == TextIn(first.delta, field) + TextIn(second.delta, field))
    && NonEmpty(whole.finishReason)
         == if NonEmpty(second.finishReason).Some? then second.finishReason else NonEmpty(first.finishReason)
  }

  lemma NothingHeld()
    ensures HeldAfter([]) == Held("", "", "", "", "", None, None, false, false)
    ensures CallsIn([]) == []
  {
  }

  lemma TextCutHolds(whole: ChunkChoice, first: ChunkChoice, second: ChunkChoice)
    requires IsTextCut(whole, first, second)
    ensures HeldAfter([DeltaSeen(whole)]) == HeldAfter([DeltaSeen(first), DeltaSeen(second)])
    ensures CallsIn([DeltaSeen(whole)]) == whole.delta.toolCalls
    ensures CallsIn([DeltaSeen(first), DeltaSeen(second)]) == first.delta.toolCalls + second.delta.toolCalls
  {
    hide HeldAfter, CallsIn, GlueDetails;
    assert [DeltaSeen(first)] + [DeltaSeen(second)] == [DeltaSeen(first), DeltaSeen(second)];
    assert [] + [DeltaSeen(whole)] == [DeltaSeen(whole)] && [] + [DeltaSeen(first)] == [DeltaSeen(first)];
    NothingHeld();
    DeltaGrows([], whole);
    DeltaGrows([], first);
    DeltaGrows([DeltaSeen(first)], second);
    TextCutFields(whole.delta, first.delta, second.delta);
  }

  lemma TextCutFields(whole: Delta, first: Delta, second: Delta)
    requires forall field: Field :: TextIn(whole, field) == TextIn(first, field) + TextIn(second, field)
    ensures "" + OrEmpty(whole.content) == "" + OrEmpty(first.content) + OrEmpty(second.content)
    ensures "" + OrEmpty(whole.refusal) == "" + OrEmpty(first.refusal) + OrEmpty(second.refusal)
    ensures "" + OrEmpty(whole.reasoningContent)
         == "" + OrEmpty(first.reasoningContent) + OrEmpty(second.reasoningContent)
    ensures "" + OrEmpty(whole.reasoning) == "" + OrEmpty(first.reasoning) + OrEmpty(second.reasoning)
    ensures "" + GlueDetails(whole.reasoningDetails)
         == "" + GlueDetails(first.reasoningDetails) + GlueDetails(second.reasoningDetails)
  {
    hide GlueDetails;
    assert TextIn(whole, Content) == TextIn(first, Content) + TextIn(second, Content);
    assert TextIn(whole, Refusal) == TextIn(first, Refusal) + TextIn(second, Refusal);
    assert TextIn(whole, ReasoningContent) == TextIn(first, ReasoningContent) + TextIn(second, ReasoningContent);
    assert TextIn(whole, Reasoning) == TextIn(first, Reasoning) + TextIn(second, Reasoning);
    assert TextIn(whole, Details) == TextIn(first, Details) + TextIn(second, Details);
  }

  /** Where a delta's calls are cut: between two fragments, or inside one. */
  predicate AreCallsCut(whole: seq<DeltaToolCall>, first: seq<DeltaToolCall>, second: seq<DeltaToolCall>) {
    || whole == first + second
    || (&& first != [] && second != [] && |whole| == |first| + |second| - 1
        && whole[..|first| - 1] == first[..|first| - 1] && whole[|first|..] == second[1..]
        && IsCallCut(whole[|first| - 1], first[|first| - 1], second[0]))
  }

  lemma CutCallsAgree(
    before: seq<DeltaToolCall>, whole: seq<DeltaToolCall>,
    first: seq<DeltaToolCall>, second: seq<DeltaToolCall>, after: seq<DeltaToolCall>)
    requires AreCallsCut(whole, first, second)
    ensures Agree(PlaceAll(before + whole + after), PlaceAll(before + (first + second) + after))
  {
    hide PlaceAll, IsCallCut;
    if whole == first + second {
      hide Indices, IdOf, NameOf, ArgumentsOf;
      assert Agree(PlaceAll(before + whole + after), PlaceAll(before + whole + after));
    } else {
      hide Agree, EndAlike;
      var n := |first| - 1;
      var start, rest := before + whole[..n], second[1..] + after;
      CutAgrees(start, whole[n], first[n], second[0]);
      AgreeOnwards(start + [whole[n]], start + [first[n]] + [second[0]], rest);
      assert before + whole + after == start + [whole[n]] + rest;
      assert before + (first + second) + after == start + [first[n]] + [second[0]] + rest;
    }
  }

  /**
   Cutting one delta of any stream in two, in the middle of any text, argument or list of
   calls, changes neither the reply nor the error, with or without wire indices.
   */
  lemma AnswerIgnoresCuts(
    before: seq<Step>, whole: ChunkChoice, first: ChunkChoice, second: ChunkChoice, after: seq<Step>)
    requires IsTextCut(whole, first, second)
    requires AreCallsCut(whole.delta.toolCalls, first.delta.toolCalls, second.delta.toolCalls)
    ensures AnswerOf(before + [DeltaSeen(whole)] + after)
         == AnswerOf(before + [DeltaSeen(first), DeltaSeen(second)] + after)
  {
    hide *;
    var a, b := [DeltaSeen(whole)], [DeltaSeen(first), DeltaSeen(second)];
    TextCutHolds(whole, first, second);
    HeldBetween(before, a, b, after);
    CallsBetween(before, a, after);
    CallsBetween(before, b, after);
    CutCallsAgree(
      CallsIn(before), whole.delta.toolCalls, first.delta.toolCalls, second.delta.toolCalls, CallsIn(after));
    PlacedAre(before + a + after);
    PlacedAre(before + b + after);
    AgreementDecides(before + a + after, before + b + after);
  }

  lemma PlacedAre(steps: seq<Step>)
    ensures PlacedCalls(steps) == PlaceAll(CallsIn(steps))
  {
  }

  const EMPTY_DELTA := Delta(None, None, None, None, [], [])

  /** A delta that brings one call fragment and nothing else. */
  function CallDelta(call: DeltaToolCall): Step {
    DeltaSeen(ChunkChoice(None, EMPTY_DELTA.(toolCalls := [call]), None))
  }

  lemma CallDeltasHold(x: DeltaToolCall, y: DeltaToolCall)
    ensures HeldAfter([CallDelta(x), CallDelta(y)]) == HeldAfter([]).(sawChoice := true)
    ensures CallsIn([CallDelta(x), CallDelta(y)]) == [x] + [y]
  {
    CallDeltaIs(x);
    CallDeltaIs(y);
    hide *;
    var a, b := CallDelta(x).choice, CallDelta(y).choice;
    assert [DeltaSeen(a)] + [DeltaSeen(b)] == [CallDelta(x), CallDelta(y)] && [] + [DeltaSeen(a)] == [DeltaSeen(a)];
    NothingHeld();
    DeltaGrows([], a);
    DeltaGrows([DeltaSeen(a)], b);
  }

  /**
   Fragments of two different calls may arrive in either order, as long as the next fragment
   of the stream does not continue the call the last of them was for.
   */
  lemma AnswerIgnoresSwaps(before: seq<Step>, x: DeltaToolCall, y: DeltaToolCall, after: seq<Step>)
    requires x.index.Some? && y.index.Some? && x.index != y.index
    requires CallsIn(after) == [] || StandsAlone(CallsIn(after)[0])
    ensures AnswerOf(before + [CallDelta(x), CallDelta(y)] + after)
         == AnswerOf(before + [CallDelta(y), CallDelta(x)] + after)
  {
    hide *;
    var a, b := [CallDelta(x), CallDelta(y)], [CallDelta(y), CallDelta(x)];
    CallDeltasHold(x, y);
    CallDeltasHold(y, x);
    HeldBetween(before, a, b, after);
    CallsBetween(before, a, after);
    CallsBetween(before, b, after);
    var calls := CallsIn(before);
    SwapAgrees(calls, x, y);
    AgreeOnwards(calls + [x] + [y], calls + [y] + [x], CallsIn(after));
    ConcatAssociates(calls, [x], [y]);
    ConcatAssociates(calls, [y], [x]);
    PlacedAre(before + a + after);
    PlacedAre(before + b + after);
    AgreementDecides(before + a + after, before + b + after);
  }

  /** A continuation goes to whichever fragment came last, so before one the order shows. */
  lemma ContinuationsShowTheOrder(x: DeltaToolCall, y: DeltaToolCall, z: DeltaToolCall)
    requires x.index.Some? && y.index.Some? && x.index != y.index && !StandsAlone(z)
    ensures var at := y.index.value;
            && ArgumentsOf(PlaceAll([] + [x] + [y] + [z]), at) == CallArguments(y) + CallArguments(z)
            && ArgumentsOf(PlaceAll([] + [y] + [x] + [z]), at) == CallArguments(y)
  {
    PlaceAllSnoc([], x);
    PlaceAllSnoc([] + [x], y);
    PlaceAllSnoc([] + [x] + [y], z);
    PlaceAllSnoc([], y);
    PlaceAllSnoc([] + [y], x);
    PlaceAllSnoc([] + [y] + [x], z);
    var at, other := y.index.value, x.index.value;
    var p, q := Placed(other, x), Placed(at, y);
    assert ArgumentsOf([], at) == "" && PlaceAll([]) == [];
    assert Place([p] + [q], z) == at && Place([q] + [p], z) == other;
    hide PlaceAll, ArgumentsOf, CallArguments, Indices, Place;
    PlacedSnoc([] + [p], q, at);
    PlacedSnoc([p] + [q], Placed(at, z), at);
    PlacedSnocOther([], p, at);
    PlacedSnoc([], q, at);
    PlacedSnocOther([q], p, at);
    PlacedSnocOther([q] + [p], Placed(other, z), at);
    assert [] + [p] == [p] && [] + [q] == [q];
    assert "" + CallArguments(y) == CallArguments(y);
  }

  // ----- Positions -----

  /** The position of wire index `x` among the reply's calls. */
  function PositionOf(steps: seq<Step>, x: nat): nat {
    IndexOf(SortedKeys(Indices(PlacedCalls(steps))), x)
  }

  /** The reply has one call for every wire index, in ascending order of index. */
  lemma RepliesListEveryIndex(steps: seq<Step>)
    ensures var keys := SortedKeys(Indices(PlacedCalls(steps)));
            && Ascending(keys) && (forall x: nat :: x in keys <==> x in Indices(PlacedCalls(steps)))
            && |BodyCalls(PlacedCalls(steps))| == |keys|
            && forall x: nat :: x in keys ==>
                 && PositionOf(steps, x) < |keys|
                 && BodyCalls(PlacedCalls(steps))[PositionOf(steps, x)] == BodyCall(PlacedCalls(steps), x)
  {
    hide Indices, PlacedCalls, BodyCall;
    var indices := Indices(PlacedCalls(steps));
    SortedKeysAscend(indices);
    forall x: nat | x in indices
      ensures x in SortedKeys(indices)
    {
      SortedKeysAreAll(indices, x);
    }
    forall x: nat | x in SortedKeys(indices)
      ensures PositionOf(steps, x) < |SortedKeys(indices)|
    {
      IndexOfIsFirst(SortedKeys(indices), x);
    }
  }

  /** Every argument event names a wire index that has a call. */
  lemma {:induction false} EventsNameCalls(steps: seq<Step>)
    ensures forall event :: event in EventsOf(steps) && event.ToolArgs? ==> event.index in Indices(PlacedCalls(steps))
  {
    if steps != [] {
      hide DeltaEvents, Indices, PlaceAll;
      var before, last := steps[..|steps| - 1], steps[|steps| - 1];
      EventsNameCalls(before);
      assert CallsIn(before) + [] == CallsIn(before);
      if last.DeltaSeen? {
        DeltaEventsName(CallsIn(before), last.choice.delta);
        IndicesGrow(CallsIn(before), last.choice.delta.toolCalls);
      }
    }
  }

  lemma {:induction false} IndicesGrow(calls: seq<DeltaToolCall>, more: seq<DeltaToolCall>)
    ensures Indices(PlaceAll(calls)) <= Indices(PlaceAll(calls + more))
  {
    if more == [] {
      assert calls + more == calls;
    } else {
      var earlier, last := more[..|more| - 1], more[|more| - 1];
      IndicesGrow(calls, earlier);
      assert calls + more == (calls + earlier) + [last];
      PlaceAllSnoc(calls + earlier, last);
      hide Place;
    }
  }

  lemma DeltaEventsName(before: seq<DeltaToolCall>, d: Delta)
    ensures forall event :: event in DeltaEvents(before, d) && event.ToolArgs? ==>
              event.index in Indices(PlaceAll(before + d.toolCalls))
  {
    DetailEventsAreTexts(d.reasoningDetails);
    CallsEventsName(before, d.toolCalls);
  }

  lemma {:induction false} DetailEventsAreTexts(details: seq<Option<string>>)
    ensures forall event :: event in DetailEvents(details) ==> !event.ToolArgs?
  {
    if details != [] {
      DetailEventsAreTexts(details[..|details| - 1]);
    }
  }

  lemma {:induction false} CallsEventsName(before: seq<DeltaToolCall>, calls: seq<DeltaToolCall>)
    ensures forall event :: event in CallsEvents(before, calls) && event.ToolArgs? ==>
              event.index in Indices(PlaceAll(before + calls))
  {
    if calls != [] {
      var earlier, last := calls[..|calls| - 1], calls[|calls| - 1];
      CallsEventsName(before, earlier);
      assert before + calls == (before + earlier) + [last];
      PlaceAllSnoc(before + earlier, last);
      PlacedSnoc(PlaceAll(before + earlier), Placed(Place(PlaceAll(before + earlier), last), last), 0);
      hide Place, Indices, PlaceAll, IdOf, NameOf;
    }
  }

  /**
   Every argument event names a call of the reply by its wire index. That index is the call's
   position in the reply exactly when every smaller index has a call.
   */
  lemma EventsPointAtCallsWhenDense(steps: seq<Step>, event: LlmEvent)
    requires event in EventsOf(steps) && event.ToolArgs?
    ensures var placed, position := PlacedCalls(steps), PositionOf(steps, event.index);
            && position < |BodyCalls(placed)| && BodyCalls(placed)[position] == BodyCall(placed, event.index)
            && (position == event.index <==> forall y: nat :: y < event.index ==> y in Indices(placed))
  {
    hide Indices, PlacedCalls, BodyCall;
    EventsNameCalls(steps);
    RepliesListEveryIndex(steps);
    AscendingPositions(SortedKeys(Indices(PlacedCalls(steps))), PositionOf(steps, event.index));
  }

  lemma RepliesHoldTheCalls(steps: seq<Step>)
    ensures AnswerOf(steps).Ok? ==> AnswerOf(steps).value.toolCalls == RequestedCalls(BodyCalls(PlacedCalls(steps)))
  {
    hide BodyCalls, PlacedCalls, RequestedCalls;
  }

  /** A stream whose only call has wire index 1: its event says 1, and the reply has that call first. */
  lemma LoneCallAtOne()
    ensures var x := DeltaToolCall(Some(1), Some("a"), Some(ToolFunction(Some("f"), None)));
            var steps := [CallDelta(x), DoneSeen];
            && EventsOf(steps) == [ToolArgs(1, Some("a"), Some("f"), "")]
            && AnswerOf(steps).Ok? && AnswerOf(steps).value.toolCalls == [RequestedToolCall("a", "f", "{}")]
  {
    var x := DeltaToolCall(Some(1), Some("a"), Some(ToolFunction(Some("f"), None)));
    LoneCallEvents(x);
    LoneCallReply(x);
  }

  lemma LoneCallEvents(x: DeltaToolCall)
    requires x.index == Some(1) && NonEmpty(x.id).Some? && CallName(x).Some?
    ensures EventsOf([CallDelta(x), DoneSeen]) == [ToolArgs(1, x.id, CallName(x), CallArguments(x))]
  {
    hide CallEvents, CallsEvents, DetailEvents, EventsOf, DeltaEvents;
    var choice := CallDelta(x).choice;
    assert [CallDelta(x)] + [DoneSeen] == [CallDelta(x), DoneSeen] && [] + [CallDelta(x)] == [CallDelta(x)];
    MarkGrows([CallDelta(x)], DoneSeen);
    EventsSnoc([], choice);
    LoneDeltaEvents(x);
    NothingHeld();
    NothingSaid();
  }

  lemma NothingSaid()
    ensures EventsOf([]) == []
  {
  }

  lemma LoneDeltaEvents(x: DeltaToolCall)
    requires x.index == Some(1) && NonEmpty(x.id).Some? && CallName(x).Some?
    ensures DeltaEvents([], CallDelta(x).choice.delta) == [ToolArgs(1, x.id, CallName(x), CallArguments(x))]
  {
    hide CallEvents, CallsEvents, CallName, CallArguments;
    LoneCallEvent(x);
    OneCallsEvents(x);
    var d := CallDelta(x).choice.delta;
    assert ScalarEvents(d) == [] && DetailEvents([]) == [];
  }

  lemma LoneCallEvent(x: DeltaToolCall)
    requires x.index == Some(1) && NonEmpty(x.id).Some? && CallName(x).Some?
    ensures CallEvents([], x) == [ToolArgs(1, x.id, CallName(x), CallArguments(x))]
  {
    hide CallName, CallArguments;
    PlacedSnoc([], Placed(1, x), 1);
  }

  lemma OneCallsEvents(x: DeltaToolCall)
    ensures CallsEvents([], [x]) == CallEvents([], x)
  {
    hide CallEvents;
    assert [x][..0] == [] && [] + [x][..0] == [] && PlaceAll([]) == [];
    assert CallsEvents([], [x]) == CallsEvents([], []) + CallEvents([], x);
  }

  lemma LoneCallReply(x: DeltaToolCall)
    requires x.index == Some(1)
    ensures var steps := [CallDelta(x), DoneSeen];
            && AnswerOf(steps).Ok?
            && AnswerOf(steps).value.toolCalls
               == [RequestedCall(ToolCall(
                    NonEmpty(x.id), Some(ToolFunction(CallName(x), SomeText(CallArguments(x))))))]
  {
    var steps := [CallDelta(x), DoneSeen];
    LoneCallHeld(x);
    LoneCallBody(Placed(1, x));
    LoneCallAnswers(x);
    PlacedAre(steps);
    hide *;
    RepliesHoldTheCalls(steps);
    OneRequested(BodyCalls([Placed(1, x)])[0]);
  }

  lemma OneRequested(call: ToolCall)
    ensures RequestedCalls([call]) == [RequestedCall(call)]
  {
  }

  lemma LoneCallHeld(x: DeltaToolCall)
    requires x.index == Some(1)
    ensures PlaceAll(CallsIn([CallDelta(x), DoneSeen])) == [Placed(1, x)]
    ensures HeldAfter([CallDelta(x), DoneSeen]) == HeldAfter([]).(sawChoice := true, done := true)
  {
    var choice := CallDelta(x).choice;
    CallDeltaIs(x);
    hide *;
    assert [CallDelta(x)] + [DoneSeen] == [CallDelta(x), DoneSeen] && [] + [CallDelta(x)] == [CallDelta(x)];
    MarkGrows([CallDelta(x)], DoneSeen);
    DeltaGrows([], choice);
    NothingHeld();
    LonePlace(x);
  }

  lemma CallDeltaIs(x: DeltaToolCall)
    ensures var choice, d := CallDelta(x).choice, CallDelta(x).choice.delta;
            && CallDelta(x) == DeltaSeen(choice) && NonEmpty(choice.finishReason) == None && d.toolCalls == [x]
            && OrEmpty(d.content) == OrEmpty(d.refusal) == OrEmpty(d.reasoningContent) == OrEmpty(d.reasoning) == ""
            && GlueDetails(d.reasoningDetails) == ""
  {
  }

  lemma LonePlace(x: DeltaToolCall)
    requires x.index == Some(1)
    ensures PlaceAll([] + [x]) == [Placed(1, x)]
  {
    PlaceAllSnoc([], x);
    assert PlaceAll([]) == [] && [] + [Placed(1, x)] == [Placed(1, x)];
  }

  lemma LoneCallAnswers(x: DeltaToolCall)
    requires x.index == Some(1)
    ensures AnswerOf([CallDelta(x), DoneSeen]).Ok?
  {
    LoneCallHeld(x);
    hide Glue, FinishReason, LastUsage, SawChoice, BodyCalls, PlacedCalls, ThinkingOf,
      RequestedCalls, CallDelta, UsageOf;
    NothingHeld();
  }

  lemma LoneCallBody(p: Placed)
    ensures BodyCalls([p])
         == [ToolCall(NonEmpty(p.call.id), Some(ToolFunction(CallName(p.call), SomeText(CallArguments(p.call)))))]
  {
    assert [] + [p] == [p];
    PlacedSnoc([], p, p.index);
    var keys := SortedKeys({p.index});
    assert {p.index} - {p.index} == {} && keys == [p.index] + SortedKeys({});
    assert Indices([p]) == {p.index} && keys == [p.index];
    assert "" + CallArguments(p.call) == CallArguments(p.call);
    assert BodyCalls([p]) == [BodyCall([p], p.index)];
  }

  lemma {:induction false} AscendingPositions(keys: seq<nat>, k: nat)
    requires Ascending(keys) && k < |keys|
    ensures k <= keys[k]
    ensures k == keys[k] <==> forall y: nat :: y < keys[k] ==> y in keys
  {
    if k > 0 {
      AscendingPositions(keys, k - 1);
      assert keys[k - 1] < keys[k];
    }
    if k < keys[k] && (k == 0 || keys[k - 1] == k - 1) {
      assert k !in keys;
    }
  }
}
