/**
 The per-run memory behind the `fetch` tool (the fetch arm of `execute` and
 `deliver_part` of `src/research/agent_loop/registry.rs`).

 A run is the list of fetch calls made in it, each with what the network would
 answer were it asked. `StepsOf` says what every call of a run comes to; the
 registry does exactly that, and the rest of the module is about whole runs.
 */
module FetchMemory {
  import opened Prelude
  import opened Pages

  type PartNumber = n: nat | 1 <= n <= U32_MAX witness 1

  datatype Page = Page(sourceUrl: string, markdown: string)

  datatype Request = Request(url: string, part: Option<PartNumber>)

  /** What a fetch of the URL would bring; `CutOff` when the call's timeout comes first. */
  datatype Download = Arrived(page: Page) | NotFetched(reason: string) | CutOff

  datatype Call = Call(request: Request, download: Download)

  datatype Outcome =
    | Delivered(page: Page, span: Span, part: PartNumber, parts: nat, firstDelivery: bool)
    | AlreadyFetched(firstUrl: string, parts: nat)
    | PastEnd(part: PartNumber, parts: nat)
    | Failed(reason: string)
    | TimedOut

  /** The normalised identity of a URL, how characters become bytes, and the size of a part: fixed for a run. */
  datatype Setup = Setup(dedupKey: string -> string, encode: Encoding, partChars: nat)

  /** One call of a run: whether the network was asked, which stored page served it, and the outcome. */
  datatype Step = Step(request: Request, asked: bool, page: Option<Page>, outcome: Outcome)

  // ----- What a call comes to -----

  function RequestedKey(setup: Setup, step: Step): string {
    setup.dedupKey(step.request.url)
  }

  function FinalKey(setup: Setup, page: Page): string {
    setup.dedupKey(page.sourceUrl)
  }

  /** The pages kept so far, under the requested and the final key. */
  function Known(setup: Setup, steps: seq<Step>): map<string, Page> {
    if steps == [] then map[]
    else
      var earlier, step := Known(setup, steps[..|steps| - 1]), steps[|steps| - 1];
      if step.page.None? then earlier
      else earlier[FinalKey(setup, step.page.value) := step.page.value][RequestedKey(setup, step) := step.page.value]
  }

  /** The final keys of the pages some part of which was delivered. */
  function Shown(setup: Setup, steps: seq<Step>): set<string> {
    if steps == [] then {}
    else
      var step := steps[|steps| - 1];
      Shown(setup, steps[..|steps| - 1]) + ShownBy(setup, step.outcome)
  }

  function ShownBy(setup: Setup, outcome: Outcome): set<string> {
    if outcome.Delivered? then {FinalKey(setup, outcome.page)} else {}
  }

  /** The page kept for an arrived one: the page already under its final key, if any. */
  function Kept(setup: Setup, known: map<string, Page>, arrived: Page): Page {
    if FinalKey(setup, arrived) in known then known[FinalKey(setup, arrived)] else arrived
  }

  /** The page that answers a call, if any: a known one, or the downloaded one unless its final URL is known. */
  function Source(setup: Setup, known: map<string, Page>, call: Call): Option<Page> {
    var key := setup.dedupKey(call.request.url);
    if key in known then Some(known[key])
    else if call.download.Arrived? then Some(Kept(setup, known, call.download.page))
    else None
  }

  function SpansOf(setup: Setup, page: Page): seq<Span> {
    Spans(setup.encode, Parts(page.markdown, Max(setup.partChars, 1)), 0)
  }

  function PartCount(setup: Setup, page: Page): nat {
    Min(|SpansOf(setup, page)|, U32_MAX)
  }

  /** `deliver_part`. */
  function Delivery(setup: Setup, page: Page, part: PartNumber, shown: bool): Outcome {
    if part > PartCount(setup, page) then PastEnd(part, PartCount(setup, page))
    else Delivered(page, SpansOf(setup, page)[part - 1], part, PartCount(setup, page), !shown)
  }

  function PartAsked(request: Request): PartNumber {
    if request.part.Some? then request.part.value else 1
  }

  /** A known page is only pointed at when no part is asked for and the model has seen some part of it. */
  function FromKnown(setup: Setup, request: Request, page: Page, shown: set<string>): Outcome {
    if request.part.None? && FinalKey(setup, page) in shown then
      AlreadyFetched(page.sourceUrl, PartCount(setup, page))
    else Delivery(setup, page, PartAsked(request), FinalKey(setup, page) in shown)
  }

  function StepOf(setup: Setup, steps: seq<Step>, call: Call): Step {
    var known := Known(setup, steps);
    var asked := setup.dedupKey(call.request.url) !in known;
    var page := Source(setup, known, call);
    var outcome :=
      match page
      case None => if call.download.NotFetched? then Failed(call.download.reason) else TimedOut
      case Some(page) =>
        if asked then Delivery(setup, page, PartAsked(call.request), FinalKey(setup, page) in Shown(setup, steps))
        else FromKnown(setup, call.request, page, Shown(setup, steps));
    Step(call.request, asked, page, outcome)
  }

  lemma StepCases(setup: Setup, steps: seq<Step>, call: Call)
    ensures
      var known, shown, key := Known(setup, steps), Shown(setup, steps), setup.dedupKey(call.request.url);
      var step := StepOf(setup, steps, call);
      && step.request == call.request
      && (key in known ==>
            step == Step(call.request, false, Some(known[key]), FromKnown(setup, call.request, known[key], shown)))
      && (key !in known && call.download.Arrived? ==>
            var page := Kept(setup, known, call.download.page);
            step == Step(call.request, true, Some(page),
              Delivery(setup, page, PartAsked(call.request), FinalKey(setup, page) in shown)))
      && (key !in known && !call.download.Arrived? ==>
            step == Step(call.request, true, None,
              if call.download.NotFetched? then Failed(call.download.reason) else TimedOut))
  {
  }

  /** A whole run. */
  function StepsOf(setup: Setup, calls: seq<Call>): (steps: seq<Step>)
    ensures |steps| == |calls|
  {
    if calls == [] then []
    else
      var earlier := StepsOf(setup, calls[..|calls| - 1]);
      earlier + [StepOf(setup, earlier, calls[|calls| - 1])]
  }

  lemma StepsSnoc(setup: Setup, calls: seq<Call>, call: Call)
    ensures StepsOf(setup, calls + [call]) == StepsOf(setup, calls) + [StepOf(setup, StepsOf(setup, calls), call)]
  {
    assert (calls + [call])[..|calls|] == calls;
  }

  lemma KnownSnoc(setup: Setup, steps: seq<Step>, step: Step)
    ensures Known(setup, steps + [step])
         == if step.page.None? then Known(setup, steps)
            else Known(setup, steps)[FinalKey(setup, step.page.value) := step.page.value]
                                    [RequestedKey(setup, step) := step.page.value]
    ensures Shown(setup, steps + [step]) == Shown(setup, steps) + ShownBy(setup, step.outcome)
  {
    assert (steps + [step])[..|steps|] == steps;
  }

  // ----- The registry -----

  class StoredPage {
    const page: Page
    var delivered: bool

    constructor (page: Page)
      ensures this.page == page && !delivered
    {
      this.page, delivered := page, false;
    }

    /** Sets the flag and says whether it was set before. */
    method Swap() returns (before: bool)
      modifies this
      ensures before == old(delivered) && delivered
    {
      before, delivered := delivered, true;
    }
  }

  class ToolRegistry {
    const setup: Setup
    var fetched: map<string, StoredPage>
    ghost var calls: seq<Call>

    ghost function Steps(): seq<Step>
      reads this
    {
      StepsOf(setup, calls)
    }

    /** The map holds the known pages, one object per final key, and each flag tells whether its page was shown. */
    ghost predicate Holds(known: map<string, Page>, shown: set<string>)
      reads this`fetched, fetched.Values
    {
      && fetched.Keys == known.Keys
      && shown <= known.Keys
      && (forall key :: key in fetched ==> fetched[key].page == known[key])
      && (forall key :: key in fetched ==>
            var final := FinalKey(setup, known[key]);
            final in fetched && fetched[final] == fetched[key])
      && (forall key :: key in fetched ==> (fetched[key].delivered <==> FinalKey(setup, known[key]) in shown))
    }

    ghost predicate Valid()
      reads this, fetched.Values
    {
      Holds(Known(setup, Steps()), Shown(setup, Steps()))
    }

    constructor (setup: Setup)
      ensures Valid() && calls == [] && this.setup == setup
    {
      this.setup, fetched, calls := setup, map[], [];
    }

    /** An arrived page is stored under its final key; a page already there stays. */
    method Adopt(page: Page, ghost known: map<string, Page>, ghost shown: set<string>) returns (stored: StoredPage)
      requires Holds(known, shown)
      modifies this`fetched
      ensures && stored.page == Kept(setup, known, page)
              && FinalKey(setup, stored.page) in fetched && fetched[FinalKey(setup, stored.page)] == stored
              && fetched.Keys == old(fetched.Keys) + {FinalKey(setup, stored.page)}
              && Holds(known[FinalKey(setup, stored.page) := stored.page], shown)
      ensures forall other :: other in old(fetched) ==> other in fetched && fetched[other] == old(fetched)[other]
      ensures fresh(fetched.Values - old(fetched.Values))
    {
      var final := setup.dedupKey(page.sourceUrl);
      if final in fetched {
        stored := fetched[final];
        assert known[FinalKey(setup, stored.page) := stored.page] == known;
      } else {
        stored := new StoredPage(page);
        fetched := fetched[final := stored];
      }
    }

    /** The same object answers under the requested key too. */
    method Alias(stored: StoredPage, key: string, ghost known: map<string, Page>, ghost shown: set<string>)
      requires Holds(known, shown)
      requires FinalKey(setup, stored.page) in fetched && fetched[FinalKey(setup, stored.page)] == stored
      requires key in fetched ==> fetched[key] == stored
      modifies this`fetched
      ensures fetched == old(fetched)[key := stored] && fetched.Values <= old(fetched.Values)
      ensures Holds(known[key := stored.page], shown)
    {
      ghost var was := fetched;
      fetched := fetched[key := stored];
      forall value | value in fetched.Values
        ensures value in was.Values
      {
        assert value == stored || exists other :: other in was && was[other] == value;
        assert was[FinalKey(setup, stored.page)] == stored;
      }
    }

    /** Sets a stored page's flag and says whether it was set. */
    method Mark(stored: StoredPage, ghost known: map<string, Page>, ghost shown: set<string>) returns (before: bool)
      requires Holds(known, shown) && stored in fetched.Values
      modifies stored
      ensures before <==> FinalKey(setup, stored.page) in shown
      ensures Holds(known, shown + {FinalKey(setup, stored.page)})
    {
      before := stored.Swap();
    }

    method Deliver(stored: StoredPage, part: PartNumber, ghost known: map<string, Page>, ghost shown: set<string>)
      returns (outcome: Outcome)
      requires Holds(known, shown) && stored in fetched.Values
      modifies stored
      ensures outcome == Delivery(setup, stored.page, part, FinalKey(setup, stored.page) in shown)
      ensures Holds(known, shown + ShownBy(setup, outcome))
    {
      assert shown + {} == shown;
      hide Holds, Spans, Parts, Bytes, FinalKey;
      var spans := PartSpans(setup.encode, stored.page.markdown, setup.partChars);
      var parts := Min(|spans|, U32_MAX);
      if part > parts {
        return PastEnd(part, parts);
      }
      var before := Mark(stored, known, shown);
      outcome := Delivered(stored.page, spans[part - 1], part, parts, !before);
    }

    lemma KnownAgain(known: map<string, Page>, shown: set<string>, key: string)
      requires Holds(known, shown) && key in known
      ensures known[FinalKey(setup, known[key]) := known[key]][key := known[key]] == known
    {
    }

    method FromMemory(request: Request, ghost known: map<string, Page>, ghost shown: set<string>)
      returns (outcome: Outcome)
      requires Holds(known, shown) && setup.dedupKey(request.url) in fetched
      modifies fetched.Values
      ensures outcome == FromKnown(setup, request, known[setup.dedupKey(request.url)], shown)
      ensures Holds(known, shown + ShownBy(setup, outcome))
    {
      var stored := fetched[setup.dedupKey(request.url)];
      hide Spans, Parts;
      if request.part.None? && stored.delivered {
        var spans := PartSpans(setup.encode, stored.page.markdown, setup.partChars);
        outcome := AlreadyFetched(stored.page.sourceUrl, Min(|spans|, U32_MAX));
        assert shown + {} == shown;
      } else {
        outcome := Deliver(stored, PartAsked(request), known, shown);
      }
    }

    method FromNetwork(request: Request, page: Page, ghost known: map<string, Page>, ghost shown: set<string>)
      returns (outcome: Outcome)
      requires Holds(known, shown) && setup.dedupKey(request.url) !in fetched
      modifies this`fetched, fetched.Values
      ensures var kept := Kept(setup, known, page);
              && outcome == Delivery(setup, kept, PartAsked(request), FinalKey(setup, kept) in shown)
              && Holds(known[FinalKey(setup, kept) := kept][setup.dedupKey(request.url) := kept],
                   shown + ShownBy(setup, outcome))
      ensures forall key :: key in old(fetched) ==> key in fetched && fetched[key] == old(fetched)[key]
      ensures fresh(fetched.Values - old(fetched.Values))
    {
      hide *;
      var key := setup.dedupKey(request.url);
      var stored := Adopt(page, known, shown);
      ghost var adopted := known[FinalKey(setup, stored.page) := stored.page];
      assert stored in fetched.Values;
      Alias(stored, key, adopted, shown);
      assert fetched[key] == stored;
      outcome := Deliver(stored, PartAsked(request), adopted[key := stored.page], shown);
    }

    method Serve(call: Call, ghost steps: seq<Step>, ghost known: map<string, Page>, ghost shown: set<string>)
      returns (outcome: Outcome, asked: bool)
      requires Holds(known, shown) && known == Known(setup, steps) && shown == Shown(setup, steps)
      modifies this`fetched, fetched.Values
      ensures var step := StepOf(setup, steps, call);
              && outcome == step.outcome && asked == step.asked
              && Holds(Known(setup, steps + [step]), Shown(setup, steps + [step]))
      ensures forall key :: key in old(fetched) ==> key in fetched && fetched[key] == old(fetched)[key]
      ensures fresh(fetched.Values - old(fetched.Values))
    {
      assert fetched.Keys == known.Keys;
      hide *;
      ghost var step := StepOf(setup, steps, call);
      KnownSnoc(setup, steps, step);
      StepCases(setup, steps, call);
      var key := setup.dedupKey(call.request.url);
      asked := key !in fetched;
      if !asked {
        KnownAgain(known, shown, key);
        outcome := FromMemory(call.request, known, shown);
      } else {
        match call.download {
          case Arrived(page) =>
            outcome := FromNetwork(call.request, page, known, shown);
          case NotFetched(reason) =>
            outcome := Failed(reason);
            ShownUnchanged(setup, outcome, shown);
          case CutOff =>
            outcome := TimedOut;
            ShownUnchanged(setup, outcome, shown);
        }
      }
    }

    /** One `fetch` call. Entries of the map never change, whatever the call. */
    method Fetch(call: Call) returns (outcome: Outcome, asked: bool)
      requires Valid()
      modifies this, fetched.Values
      ensures Valid() && calls == old(calls) + [call]
      ensures Steps() == old(Steps()) + [StepOf(setup, old(Steps()), call)]
      ensures outcome == StepOf(setup, old(Steps()), call).outcome && asked == StepOf(setup, old(Steps()), call).asked
      ensures forall key :: key in old(fetched) ==> key in fetched && fetched[key] == old(fetched)[key]
      ensures fresh(fetched.Values - old(fetched.Values))
    {
      hide Holds, StepOf, Known, Shown, StepsOf;
      ghost var steps := Steps();
      StepsSnoc(setup, calls, call);
      outcome, asked := Serve(call, steps, Known(setup, steps), Shown(setup, steps));
      calls := calls + [call];
    }
  }

  lemma ShownUnchanged(setup: Setup, outcome: Outcome, shown: set<string>)
    requires !outcome.Delivered?
    ensures shown + ShownBy(setup, outcome) == shown
  {
  }

  // ----- Whole runs -----

  lemma {:induction false} StepAt(setup: Setup, calls: seq<Call>, i: nat)
    requires i < |calls|
    ensures StepsOf(setup, calls)[..i] == StepsOf(setup, calls[..i])
    ensures StepsOf(setup, calls)[i] == StepOf(setup, StepsOf(setup, calls[..i]), calls[i])
  {
    hide StepOf;
    var n := |calls| - 1;
    if i < n {
      StepAt(setup, calls[..n], i);
      assert calls[..n][..i] == calls[..i];
    }
  }

  /** Every known page is known under its final key. */
  ghost predicate Closed(setup: Setup, known: map<string, Page>) {
    forall key :: key in known ==>
      FinalKey(setup, known[key]) in known && known[FinalKey(setup, known[key])] == known[key]
  }

  /** A call adds keys and changes none. */
  lemma StepKeepsKnown(setup: Setup, steps: seq<Step>, call: Call)
    requires Closed(setup, Known(setup, steps))
    ensures var grown := Known(setup, steps + [StepOf(setup, steps, call)]);
            Closed(setup, grown) && forall key :: key in Known(setup, steps) ==>
                key in grown && grown[key] == Known(setup, steps)[key]
  {
    KnownSnoc(setup, steps, StepOf(setup, steps, call));
    StepCases(setup, steps, call);
    hide Known, StepOf, FromKnown, Delivery;
  }

  lemma NothingKnown(setup: Setup)
    ensures Known(setup, StepsOf(setup, [])) == map[] && Closed(setup, map[])
  {
  }

  /** An entry made by one call is there unchanged after any later one. */
  lemma {:induction false} EntriesNeverChange(setup: Setup, calls: seq<Call>, i: nat)
    requires i <= |calls|
    ensures Closed(setup, Known(setup, StepsOf(setup, calls)))
    ensures var before, after := Known(setup, StepsOf(setup, calls[..i])), Known(setup, StepsOf(setup, calls));
            forall key :: key in before ==> key in after && after[key] == before[key]
    decreases |calls|
  {
    hide *;
    assert i == |calls| ==> calls[..i] == calls;
    if calls == [] {
      NothingKnown(setup);
    } else {
      var n := |calls| - 1;
      var earlier := calls[..n];
      EntriesNeverChange(setup, earlier, if i < |calls| then i else n);
      assert calls == earlier + [calls[n]] && (i < |calls| ==> earlier[..i] == calls[..i]);
      StepsSnoc(setup, earlier, calls[n]);
      StepKeepsKnown(setup, StepsOf(setup, earlier), calls[n]);
    }
  }

  /** After a call served from a page, both its keys lead to that page for the rest of the run. */
  lemma PageIsKept(setup: Setup, calls: seq<Call>, i: nat, j: nat)
    requires i < j <= |calls| && StepsOf(setup, calls)[i].page.Some?
    ensures var step, known := StepsOf(setup, calls)[i], Known(setup, StepsOf(setup, calls[..j]));
            && FinalKey(setup, step.page.value) in known && known[FinalKey(setup, step.page.value)] == step.page.value
            && RequestedKey(setup, step) in known && known[RequestedKey(setup, step)] == step.page.value
  {
    hide Known, StepsOf, StepOf, Closed, FinalKey;
    var steps := StepsOf(setup, calls[..i]);
    StepAt(setup, calls, i);
    assert calls[..i + 1] == calls[..i] + [calls[i]];
    StepsSnoc(setup, calls[..i], calls[i]);
    KnownSnoc(setup, steps, StepOf(setup, steps, calls[i]));
    assert calls[..j][..i + 1] == calls[..i + 1];
    EntriesNeverChange(setup, calls[..j], i + 1);
  }

  /** A URL whose page is known, as requested or as the final URL, never reaches the network again. */
  lemma KnownKeysAreNotAsked(setup: Setup, calls: seq<Call>, i: nat, j: nat)
    requires i < j < |calls| && StepsOf(setup, calls)[i].page.Some?
    requires var first, again := StepsOf(setup, calls)[i], StepsOf(setup, calls)[j];
             RequestedKey(setup, again) == RequestedKey(setup, first)
             || RequestedKey(setup, again) == FinalKey(setup, first.page.value)
    ensures !StepsOf(setup, calls)[j].asked && StepsOf(setup, calls)[j].page == StepsOf(setup, calls)[i].page
  {
    PageIsKept(setup, calls, i, j);
    StepAt(setup, calls, j);
    StepCases(setup, StepsOf(setup, calls[..j]), calls[j]);
    hide Known, StepsOf, StepOf;
  }

  /** What a delivery holds: the asked part of the page that served the call. */
  lemma DeliveryIsThePart(setup: Setup, calls: seq<Call>, i: nat)
    requires i < |calls| && StepsOf(setup, calls)[i].outcome.Delivered?
    ensures var step := StepsOf(setup, calls)[i];
            var page, part := step.outcome.page, step.outcome.part;
            && step.page == Some(page) && part == PartAsked(step.request)
            && step.outcome.parts == PartCount(setup, page) && part <= PartCount(setup, page)
            && step.outcome.span == SpansOf(setup, page)[part - 1]
  {
    hide Known, Shown, StepsOf, StepOf, SpansOf, PartCount, Delivery;
    var steps := StepsOf(setup, calls[..i]);
    StepAt(setup, calls, i);
    StepCases(setup, steps, calls[i]);
    var step := StepOf(setup, steps, calls[i]);
    if step.page.Some? {
      var page := step.page.value;
      DeliveryTells(setup, page, PartAsked(step.request), FinalKey(setup, page) in Shown(setup, steps));
    }
  }

  lemma DeliveryTells(setup: Setup, page: Page, part: PartNumber, shown: bool)
    ensures var outcome := Delivery(setup, page, part, shown);
            || (outcome == PastEnd(part, PartCount(setup, page)) && part > PartCount(setup, page))
            || (part <= PartCount(setup, page)
                && outcome
                   == Delivered(page, SpansOf(setup, page)[part - 1], part, PartCount(setup, page), !shown))
  {
    hide SpansOf;
  }

  /** Whatever URL led to a page, the same part of it is the same slice of the same text. */
  lemma {:induction false} AliasesShareParts(setup: Setup, calls: seq<Call>, i: nat, j: nat)
    requires i < j < |calls|
    requires StepsOf(setup, calls)[i].outcome.Delivered? && StepsOf(setup, calls)[j].outcome.Delivered?
    requires var first, again := StepsOf(setup, calls)[i].outcome, StepsOf(setup, calls)[j].outcome;
             FinalKey(setup, first.page) == FinalKey(setup, again.page)
    ensures var first, again := StepsOf(setup, calls)[i].outcome, StepsOf(setup, calls)[j].outcome;
            && first.page == again.page && first.parts == again.parts
            && (first.part == again.part ==> first.span == again.span)
  {
    DeliveryIsThePart(setup, calls, i);
    DeliveryIsThePart(setup, calls, j);
    PageIsKept(setup, calls, i, j + 1);
    PageIsKept(setup, calls, j, j + 1);
    hide Known, StepsOf, SpansOf, PartCount;
  }

  lemma {:induction false} ShownAreDelivered(setup: Setup, steps: seq<Step>, key: string)
    ensures key in Shown(setup, steps) <==>
            exists i :: 0 <= i < |steps| && steps[i].outcome.Delivered? && FinalKey(setup, steps[i].outcome.page) == key
  {
    if steps != [] {
      var n := |steps| - 1;
      ShownAreDelivered(setup, steps[..n], key);
      assert forall i :: 0 <= i < n ==> steps[..n][i] == steps[i];
    }
  }

  /** `first_delivery` is true on exactly the first delivery of a page; asking past its end does not use it up. */
  lemma {:induction false} FirstDeliveryIsTheFirst(setup: Setup, calls: seq<Call>, j: nat)
    requires j < |calls| && StepsOf(setup, calls)[j].outcome.Delivered?
    ensures var steps := StepsOf(setup, calls);
            steps[j].outcome.firstDelivery <==>
              forall i :: 0 <= i < j && steps[i].outcome.Delivered? ==>
                FinalKey(setup, steps[i].outcome.page) != FinalKey(setup, steps[j].outcome.page)
  {
    var steps := StepsOf(setup, calls);
    StepAt(setup, calls, j);
    var earlier := steps[..j];
    StepCases(setup, earlier, calls[j]);
    ShownAreDelivered(setup, earlier, FinalKey(setup, steps[j].outcome.page));
    hide Known, Shown, StepsOf, StepOf, SpansOf, PartCount;
    assert forall i :: 0 <= i < j ==> earlier[i] == steps[i];
  }

  /** Whether some call went to the network and was answered from the page. */
  predicate Fetched(steps: seq<Step>, page: Page) {
    exists i :: 0 <= i < |steps| && steps[i].asked && steps[i].page == Some(page)
  }

  lemma FetchedSnoc(steps: seq<Step>, step: Step, page: Page)
    requires Fetched(steps, page) || (step.asked && step.page == Some(page))
    ensures Fetched(steps + [step], page)
  {
    var grown := steps + [step];
    if Fetched(steps, page) {
      var i :| 0 <= i < |steps| && steps[i].asked && steps[i].page == Some(page);
      assert grown[i] == steps[i];
    } else {
      assert grown[|steps|] == step;
    }
  }

  /** Every known page was fetched by some call. */
  lemma {:induction false} KnownWasFetched(setup: Setup, calls: seq<Call>, key: string)
    requires key in Known(setup, StepsOf(setup, calls))
    ensures Fetched(StepsOf(setup, calls), Known(setup, StepsOf(setup, calls))[key])
  {
    if calls != [] {
      var n := |calls| - 1;
      var earlier := StepsOf(setup, calls[..n]);
      var known, step := Known(setup, earlier), StepOf(setup, earlier, calls[n]);
      assert calls == calls[..n] + [calls[n]];
      StepsSnoc(setup, calls[..n], calls[n]);
      KnownSnoc(setup, earlier, step);
      StepCases(setup, earlier, calls[n]);
      hide Known, StepsOf, StepOf, Fetched, FromKnown, Delivery;
      var page := Known(setup, earlier + [step])[key];
      if key in known && known[key] == page {
        KnownWasFetched(setup, calls[..n], key);
      } else if !step.asked {
        KnownWasFetched(setup, calls[..n], RequestedKey(setup, step));
      }
      FetchedSnoc(earlier, step, page);
    }
  }

  lemma FetchedIsKept(setup: Setup, calls: seq<Call>, j: nat, page: Page)
    requires j <= |calls| && Fetched(StepsOf(setup, calls)[..j], page)
    ensures FinalKey(setup, page) in Known(setup, StepsOf(setup, calls[..j]))
  {
    var i :| 0 <= i < j && StepsOf(setup, calls)[..j][i].page == Some(page);
    PageIsKept(setup, calls, i, j);
    hide Known, StepsOf;
  }

  /**
   The page a call delivers was fetched by an earlier call exactly when it was known under its
   final URL before; else this call fetched it. So a first delivery of a page that an earlier
   call fetched is one of a page that was known and of which no part had been delivered.
   */
  lemma FirstOfEarlierFetch(setup: Setup, calls: seq<Call>, j: nat)
    requires j < |calls| && StepsOf(setup, calls)[j].outcome.Delivered?
    ensures var steps := StepsOf(setup, calls);
            var page := steps[j].outcome.page;
            var guard := FinalKey(setup, page) in Known(setup, steps[..j]);
            && (Fetched(steps[..j], page) <==> guard)
            && (!guard ==> steps[j].asked && calls[j].download == Arrived(page))
            && (steps[j].outcome.firstDelivery && Fetched(steps[..j], page) <==>
                  guard && forall i :: 0 <= i < j && steps[i].outcome.Delivered? ==>
                    FinalKey(setup, steps[i].outcome.page) != FinalKey(setup, page))
  {
    FirstDeliveryIsTheFirst(setup, calls, j);
    StepAt(setup, calls, j);
    var steps, page := StepsOf(setup, calls), StepsOf(setup, calls)[j].outcome.page;
    assert steps[..j] == StepsOf(setup, calls[..j]);
    ServedPage(setup, calls[..j], calls[j]);
    if Fetched(steps[..j], page) {
      FetchedIsKept(setup, calls, j, page);
    }
    hide Known, Shown, StepsOf, StepOf, Fetched, FinalKey;
  }

  /** The page that serves a delivery: a known one, and then fetched before, or the one that just arrived. */
  lemma ServedPage(setup: Setup, calls: seq<Call>, call: Call)
    requires StepOf(setup, StepsOf(setup, calls), call).outcome.Delivered?
    ensures var step := StepOf(setup, StepsOf(setup, calls), call);
            || Fetched(StepsOf(setup, calls), step.outcome.page)
            || (step.asked && call.download == Arrived(step.outcome.page)
                && FinalKey(setup, step.outcome.page) !in Known(setup, StepsOf(setup, calls)))
  {
    var steps := StepsOf(setup, calls);
    var step := StepOf(setup, steps, call);
    StepCases(setup, steps, call);
    if !step.asked {
      KnownWasFetched(setup, calls, RequestedKey(setup, step));
    } else if FinalKey(setup, call.download.page) in Known(setup, steps) {
      KnownWasFetched(setup, calls, FinalKey(setup, call.download.page));
    }
    hide Known, Shown, StepsOf, StepOf, SpansOf, PartCount;
  }

  /**
   A first delivery comes from memory exactly when the URL was known before the call and no part of the page had
   been delivered, so a first delivery is not always the call that fetched the page.
   */
  lemma FirstFromMemory(setup: Setup, calls: seq<Call>, j: nat)
    requires j < |calls| && StepsOf(setup, calls)[j].outcome.Delivered?
    ensures var steps := StepsOf(setup, calls);
            steps[j].outcome.firstDelivery && !steps[j].asked <==>
              && RequestedKey(setup, steps[j]) in Known(setup, steps[..j])
              && forall i :: 0 <= i < j && steps[i].outcome.Delivered? ==>
                   FinalKey(setup, steps[i].outcome.page) != FinalKey(setup, steps[j].outcome.page)
  {
    FirstDeliveryIsTheFirst(setup, calls, j);
    StepAt(setup, calls, j);
    StepCases(setup, StepsOf(setup, calls[..j]), calls[j]);
    hide Known, Shown, StepsOf, StepOf, Delivery, FromKnown, FinalKey;
  }

  /** The first call of a run fetches an empty page and asks for part two: nothing is delivered, the page is kept. */
  lemma PastEndStep(setup: Setup, url: string, last: string)
    ensures var call, page := Call(Request(url, Some(2)), Arrived(Page(last, ""))), Page(last, "");
            var step := Step(call.request, true, Some(page), PastEnd(2, 1));
            && StepsOf(setup, [call]) == [step]
            && Known(setup, [step]) == map[][FinalKey(setup, page) := page][setup.dedupKey(url) := page]
            && Shown(setup, [step]) == {}
  {
    var page := Page(last, "");
    var call := Call(Request(url, Some(2)), Arrived(page));
    EmptyPage(setup, page, false);
    hide SpansOf, PartCount, Delivery;
    assert StepsOf(setup, []) == [] && Known(setup, []) == map[] && Shown(setup, []) == {};
    assert [] + [call] == [call] && [] + [StepOf(setup, [], call)] == [StepOf(setup, [], call)];
    StepsSnoc(setup, [], call);
    StepCases(setup, [], call);
    KnownSnoc(setup, [], StepOf(setup, [], call));
    hide StepsOf, StepOf, Known, Shown;
  }

  /** An empty page has one part. */
  lemma EmptyPage(setup: Setup, page: Page, shown: bool)
    requires page.markdown == ""
    ensures Delivery(setup, page, 2, shown) == PastEnd(2, 1)
    ensures var first := Delivery(setup, page, 1, shown);
            first.Delivered? && first.page == page && (first.firstDelivery <==> !shown)
  {
    assert |SpansOf(setup, page)| == 1;
    hide SpansOf;
  }

  /**
   The input that shows it: the first call fetches a one-part page but asks for part two, the second asks for no
   part and is given part one from memory.
   */
  lemma PastEndThenMemory(setup: Setup, url: string)
    ensures var calls := [Call(Request(url, Some(2)), Arrived(Page(url, ""))), Call(Request(url, None), CutOff)];
            var steps := StepsOf(setup, calls);
            && steps[0].asked && steps[0].outcome == PastEnd(2, 1)
            && !steps[1].asked && steps[1].outcome.Delivered? && steps[1].outcome.firstDelivery
  {
    hide StepsOf, StepOf, Known, Shown, Delivery, FromKnown;
    var first, second := Call(Request(url, Some(2)), Arrived(Page(url, ""))), Call(Request(url, None), CutOff);
    PastEndStep(setup, url, url);
    assert [first] + [second] == [first, second];
    StepsSnoc(setup, [first], second);
    StepCases(setup, StepsOf(setup, [first]), second);
    NotShownYet(setup, second.request, Page(url, ""));
  }

  lemma NotShownYet(setup: Setup, request: Request, page: Page)
    requires request.part.None? && page.markdown == ""
    ensures FromKnown(setup, request, page, {}) == Delivery(setup, page, 1, false)
    ensures Delivery(setup, page, PartAsked(request), FinalKey(setup, page) in {}) == Delivery(setup, page, 1, false)
    ensures Delivery(setup, page, 1, false).Delivered? && Delivery(setup, page, 1, false).page == page
    ensures Delivery(setup, page, 1, false).firstDelivery
  {
    EmptyPage(setup, page, false);
    hide Delivery;
  }

  /**
   An input where the network is asked: the first call fetches a one-part page but asks for part
   two, the second asks for an unknown URL that arrives at the same final URL with other text,
   and is given part one of the first call's page.
   */
  lemma AliasThenFirst(setup: Setup, url: string, alias: string, last: string, text: string)
    requires setup.dedupKey(alias) !in {setup.dedupKey(url), setup.dedupKey(last)}
    ensures var calls := [
              Call(Request(url, Some(2)), Arrived(Page(last, ""))),
              Call(Request(alias, None), Arrived(Page(last, text)))];
            var steps := StepsOf(setup, calls);
            && steps[0].asked && steps[0].page == Some(Page(last, "")) && steps[0].outcome == PastEnd(2, 1)
            && RequestedKey(setup, steps[1]) !in Known(setup, steps[..1]) && steps[1].asked
            && steps[1].outcome.Delivered? && steps[1].outcome.firstDelivery
            && steps[1].outcome.page == Page(last, "")
  {
    hide StepsOf, StepOf, Known, Shown, Delivery, FromKnown, PartAsked;
    var page := Page(last, "");
    var first := Call(Request(url, Some(2)), Arrived(page));
    var second := Call(Request(alias, None), Arrived(Page(last, text)));
    PastEndStep(setup, url, last);
    var before := StepsOf(setup, [first]);
    assert [first] + [second] == [first, second];
    StepsSnoc(setup, [first], second);
    assert StepsOf(setup, [first, second])[..1] == before;
    StepCases(setup, before, second);
    assert Kept(setup, Known(setup, before), Page(last, text)) == page;
    NotShownYet(setup, second.request, page);
  }

  /** Some part of a page with this final key was delivered by the first `j` calls. */
  predicate ShownBefore(setup: Setup, steps: seq<Step>, j: nat, key: string)
    requires j <= |steps|
  {
    exists i :: 0 <= i < j && steps[i].outcome.Delivered? && FinalKey(setup, steps[i].outcome.page) == key
  }

  /**
   What every call of every run comes to. The network is asked exactly for an unknown URL. A
   call is pointed back to a page exactly when its URL was known, it names no part and some part
   of the page was delivered before. Any other call with a page is given the part it asks for,
   or the first, when the page has it, and else the number of parts; one without a page fails as
   its download did.
   */
  lemma EveryCallTells(setup: Setup, calls: seq<Call>, j: nat)
    requires j < |calls|
    ensures var steps := StepsOf(setup, calls);
            var step, key, known := steps[j], RequestedKey(setup, steps[j]), Known(setup, steps[..j]);
            && step.request == calls[j].request && (step.asked <==> key !in known)
            && (key in known ==> step.page == Some(known[key]))
            && (key !in known && calls[j].download.Arrived? ==>
                  var arrived := calls[j].download.page;
                  var final := FinalKey(setup, arrived);
                  step.page == Some(if final in known then known[final] else arrived))
            && (step.page.None? <==> key !in known && !calls[j].download.Arrived?)
            && (step.page.None? ==>
                  match calls[j].download
                  case NotFetched(reason) => step.outcome == Failed(reason)
                  case _ => step.outcome == TimedOut)
            && (step.page.Some? ==>
                  var page, part := step.page.value, PartAsked(step.request);
                  var pointed :=
                    key in known && step.request.part.None? && ShownBefore(setup, steps, j, FinalKey(setup, page));
                  && (step.outcome.AlreadyFetched? <==> pointed)
                  && (pointed ==> step.outcome == AlreadyFetched(page.sourceUrl, PartCount(setup, page)))
                  && (!pointed ==>
                        && (step.outcome.Delivered? <==> part <= PartCount(setup, page))
                        && (step.outcome.Delivered? ==> step.outcome.page == page && step.outcome.part == part)
                        && (!step.outcome.Delivered? ==> step.outcome == PastEnd(part, PartCount(setup, page)))))
  {
    hide Known, Shown, StepsOf, StepOf, SpansOf, PartCount, Delivery;
    var steps := StepsOf(setup, calls);
    var earlier := StepsOf(setup, calls[..j]);
    StepAt(setup, calls, j);
    StepCases(setup, earlier, calls[j]);
    if steps[j].page.Some? {
      var page := steps[j].page.value;
      ShownAreDelivered(setup, earlier, FinalKey(setup, page));
      assert forall i :: 0 <= i < j ==> earlier[i] == steps[i];
      DeliveryTells(setup, page, PartAsked(steps[j].request), FinalKey(setup, page) in Shown(setup, earlier));
    }
  }

  /** Parts are counted, and a delivered span covers the bytes of its part, for parts of the size of the run. */
  lemma {:induction false} DeliveredPartTells(setup: Setup, calls: seq<Call>, i: nat)
    requires i < |calls| && StepsOf(setup, calls)[i].outcome.Delivered?
    ensures var outcome, size := StepsOf(setup, calls)[i].outcome, if setup.partChars == 0 then 1 else setup.partChars;
            var parts := Parts(outcome.page.markdown, size);
            var bytes := Bytes(setup.encode, outcome.page.markdown);
            && outcome.parts == Min(|parts|, U32_MAX) && outcome.part <= |parts|
            && outcome.span.start <= outcome.span.end <= |bytes|
            && bytes[outcome.span.start..outcome.span.end] == Bytes(setup.encode, parts[outcome.part - 1])
  {
    DeliveryIsThePart(setup, calls, i);
    var outcome := StepsOf(setup, calls)[i].outcome;
    hide StepsOf, Parts, Spans, Bytes;
    PartSpansTile(setup.encode, outcome.page.markdown, Max(setup.partChars, 1), outcome.part - 1);
  }

  /** Without a part the first is asked for. */
  lemma FirstPartByDefault(request: Request)
    ensures request.part.None? ==> PartAsked(request) == 1
    ensures request.part.Some? ==> PartAsked(request) == request.part.value
  {
  }

  /** The model is only pointed back to a page some part of which it was given. */
  lemma PointersFollowDeliveries(setup: Setup, calls: seq<Call>, j: nat)
    requires j < |calls| && StepsOf(setup, calls)[j].outcome.AlreadyFetched?
    ensures exists i :: 0 <= i < j && StepsOf(setup, calls)[i].outcome.Delivered?
              && StepsOf(setup, calls)[j].page == Some(StepsOf(setup, calls)[i].outcome.page)
  {
    var steps := StepsOf(setup, calls);
    StepAt(setup, calls, j);
    var earlier := steps[..j];
    StepCases(setup, earlier, calls[j]);
    var page := steps[j].page.value;
    ShownAreDelivered(setup, earlier, FinalKey(setup, page));
    var i :| 0 <= i < j && earlier[i].outcome.Delivered? &&
             FinalKey(setup, earlier[i].outcome.page) == FinalKey(setup, page);
    DeliveryIsThePart(setup, calls, i);
    PageIsKept(setup, calls, i, j + 1);
    PageIsKept(setup, calls, j, j + 1);
    hide Known, Shown, StepsOf, StepOf, SpansOf, PartCount;
  }

  /** The pages the run's evidence carries: those of its first deliveries, in order. */
  function EvidencePages(steps: seq<Step>): seq<Page> {
    if steps == [] then []
    else
      var outcome := steps[|steps| - 1].outcome;
      EvidencePages(steps[..|steps| - 1])
      + if outcome.Delivered? && outcome.firstDelivery then [outcome.page] else []
  }

  predicate DistinctKeys(setup: Setup, pages: seq<Page>) {
    forall i, j :: 0 <= i < j < |pages| ==> FinalKey(setup, pages[i]) != FinalKey(setup, pages[j])
  }

  function KeysOf(setup: Setup, pages: seq<Page>): set<string> {
    set page | page in pages :: FinalKey(setup, page)
  }

  lemma FreshMeansUnshown(setup: Setup, steps: seq<Step>, call: Call)
    ensures var outcome := StepOf(setup, steps, call).outcome;
            outcome.Delivered? ==> (outcome.firstDelivery <==> FinalKey(setup, outcome.page) !in Shown(setup, steps))
  {
    StepCases(setup, steps, call);
    hide StepOf, Known, Shown, SpansOf, PartCount;
  }

  lemma EvidenceSnoc(steps: seq<Step>, step: Step)
    ensures EvidencePages(steps + [step])
         == EvidencePages(steps)
            + if step.outcome.Delivered? && step.outcome.firstDelivery then [step.outcome.page] else []
  {
    assert (steps + [step])[..|steps|] == steps;
  }

  /** The evidence carries each delivered page, and each once. */
  lemma {:induction false} EvidenceHoldsEachPageOnce(setup: Setup, calls: seq<Call>)
    ensures DistinctKeys(setup, EvidencePages(StepsOf(setup, calls)))
    ensures KeysOf(setup, EvidencePages(StepsOf(setup, calls))) == Shown(setup, StepsOf(setup, calls))
  {
    if calls != [] {
      hide Known, Shown, StepsOf, StepOf, DistinctKeys, KeysOf, EvidencePages, FinalKey, ShownBy;
      var n := |calls| - 1;
      EvidenceHoldsEachPageOnce(setup, calls[..n]);
      var earlier := StepsOf(setup, calls[..n]);
      var step := StepOf(setup, earlier, calls[n]);
      assert calls == calls[..n] + [calls[n]];
      StepsSnoc(setup, calls[..n], calls[n]);
      KnownSnoc(setup, earlier, step);
      FreshMeansUnshown(setup, earlier, calls[n]);
      EvidenceSnoc(earlier, step);
      EvidenceStep(setup, EvidencePages(earlier), Shown(setup, earlier), step.outcome);
    }
  }

  lemma EvidenceStep(setup: Setup, pages: seq<Page>, shown: set<string>, outcome: Outcome)
    requires DistinctKeys(setup, pages) && KeysOf(setup, pages) == shown
    requires outcome.Delivered? ==> (outcome.firstDelivery <==> FinalKey(setup, outcome.page) !in shown)
    ensures var grown := pages + if outcome.Delivered? && outcome.firstDelivery then [outcome.page] else [];
            DistinctKeys(setup, grown) && KeysOf(setup, grown) == shown + ShownBy(setup, outcome)
  {
    if outcome.Delivered? && outcome.firstDelivery {
      var grown := pages + [outcome.page];
      assert forall page :: page in grown <==> page in pages || page == outcome.page;
      forall i | 0 <= i < |pages|
        ensures FinalKey(setup, grown[i]) != FinalKey(setup, outcome.page)
      {
        assert pages[i] in pages;
        assert FinalKey(setup, pages[i]) in KeysOf(setup, pages);
      }
      assert outcome.page in grown;
    } else {
      assert pages + [] == pages;
    }
  }
}
