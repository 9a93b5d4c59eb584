/**
 The fetched pages a run's report carries: the agent loop of `Runner` joined to the memory of
 `FetchMemory` by `execute` (`src/research/agent_loop/registry.rs`), whose fetches are those of
 all turns in the order they were dispatched.
 */
module RunEvidence {
  import opened Prelude
  import opened Reply
  import opened Dispatch
  import opened Runner
  import FetchMemory

  /** One part of a page handed to the model; `first` when it is the page's first. */
  datatype Delivery = Delivery(page: FetchMemory.Page, first: bool)

  // ----- What the loop hands over -----

  /** The part that call `i` of a turn delivers, if it runs and is a fetch that delivers one. */
  function DeliveryBy(tools: Tools, execute: nat -> Executed, i: nat, call: RequestedToolCall): seq<Delivery> {
    if i >= Cap(tools) || call.name !in tools.allowed then []
    else
      match execute(i)
      case Finished(Fetch(page, first)) => [Delivery(page, first)]
      case _ => []
  }

  function DeliveriesIn(tools: Tools, execute: nat -> Executed, calls: seq<RequestedToolCall>, n: nat): seq<Delivery>
    requires n <= |calls|
  {
    if n == 0 then []
    else DeliveriesIn(tools, execute, calls, n - 1) + DeliveryBy(tools, execute, n - 1, calls[n - 1])
  }

  /** The deliveries of the turns of a log, in call order across turns. */
  function DeliveriesBy<S>(setup: Setup<S>, world: nat -> TurnWorld, log: seq<Row>): seq<Delivery> {
    if log == [] then []
    else
      var t := |log|;
      DeliveriesBy(setup, world, log[..t - 1])
      + if log[t - 1].dispatched == 0 then []
        else DeliveriesIn(setup.tools, world(t).execute, CallsAt(world, t), |CallsAt(world, t)|)
  }

  /** The whole pages among some evidence. */
  function PagesIn(evidence: seq<ToolEvidence>): seq<FetchMemory.Page> {
    if evidence == [] then []
    else
      var last := evidence[|evidence| - 1];
      PagesIn(evidence[..|evidence| - 1]) + Listed(last.page)
  }

  function Firsts(deliveries: seq<Delivery>): seq<FetchMemory.Page> {
    if deliveries == [] then []
    else
      var last := deliveries[|deliveries| - 1];
      Firsts(deliveries[..|deliveries| - 1]) + if last.first then [last.page] else []
  }

  lemma {:induction false} PagesAppend(a: seq<ToolEvidence>, b: seq<ToolEvidence>)
    ensures PagesIn(a + b) == PagesIn(a) + PagesIn(b)
  {
    if b == [] {
      assert a + b == a && PagesIn(a) + [] == PagesIn(a);
    } else {
      var n, last := |b| - 1, b[|b| - 1];
      PagesAppend(a, b[..n]);
      assert (a + b)[..|a + b| - 1] == a + b[..n];
      ConcatAssociates(PagesIn(a), PagesIn(b[..n]), Listed(last.page));
    }
  }

  lemma {:induction false} FirstsAppend(a: seq<Delivery>, b: seq<Delivery>)
    ensures Firsts(a + b) == Firsts(a) + Firsts(b)
  {
    if b == [] {
      assert a + b == a && Firsts(a) + [] == Firsts(a);
    } else {
      var n, last := |b| - 1, b[|b| - 1];
      FirstsAppend(a, b[..n]);
      assert (a + b)[..|a + b| - 1] == a + b[..n];
      ConcatAssociates(Firsts(a), Firsts(b[..n]), if last.first then [last.page] else []);
    }
  }

  /** One call's evidence carries a page exactly when the call made a first delivery. */
  lemma EffectPages(tools: Tools, turn: nat, execute: nat -> Executed, i: nat, call: RequestedToolCall)
    ensures PagesIn(Listed(EffectOf(tools, turn, execute, i, call).evidence))
         == Firsts(DeliveryBy(tools, execute, i, call))
  {
    hide CapEvidence, Decimal;
    var evidence, deliveries := EffectOf(tools, turn, execute, i, call).evidence, DeliveryBy(tools, execute, i, call);
    if evidence.Some? {
      assert PagesIn([evidence.value]) == PagesIn([]) + Listed(evidence.value.page) by {
        assert [evidence.value][..0] == [];
      }
    }
    if deliveries != [] {
      assert deliveries[..0] == [];
    }
  }

  /** The pages in a turn's evidence are those its calls delivered for the first time. */
  lemma {:induction false} TurnPages(
    tools: Tools, turn: nat, execute: nat -> Executed, calls: seq<RequestedToolCall>, n: nat)
    requires n <= |calls|
    ensures PagesIn(OutcomeOf(tools, turn, execute, calls, n).evidence)
         == Firsts(DeliveriesIn(tools, execute, calls, n))
  {
    hide *;
    if n == 0 {
      OutcomeStart(tools, turn, execute, calls);
      NothingDelivered(tools, execute, calls);
    } else {
      var earlier, call := OutcomeOf(tools, turn, execute, calls, n - 1), calls[n - 1];
      var effect := EffectOf(tools, turn, execute, n - 1, call);
      var before, added := DeliveriesIn(tools, execute, calls, n - 1), DeliveryBy(tools, execute, n - 1, call);
      TurnPages(tools, turn, execute, calls, n - 1);
      OutcomeStep(tools, turn, execute, calls, n);
      DeliveriesStep(tools, execute, calls, n);
      EvidenceExtends(earlier, call.id, effect);
      EffectPages(tools, turn, execute, n - 1, call);
      PagesAppend(earlier.evidence, Listed(effect.evidence));
      FirstsAppend(before, added);
    }
  }

  lemma NothingDelivered(tools: Tools, execute: nat -> Executed, calls: seq<RequestedToolCall>)
    ensures DeliveriesIn(tools, execute, calls, 0) == [] && PagesIn([]) == [] && Firsts([]) == []
  {
  }

  lemma {:induction false} DeliveriesStep(
    tools: Tools, execute: nat -> Executed, calls: seq<RequestedToolCall>, n: nat)
    requires 0 < n <= |calls|
    ensures DeliveriesIn(tools, execute, calls, n)
         == DeliveriesIn(tools, execute, calls, n - 1) + DeliveryBy(tools, execute, n - 1, calls[n - 1])
  {
    hide DeliveryBy;
  }

  lemma EvidenceExtends(outcome: TurnOutcome, id: string, effect: Effect)
    ensures Extended(outcome, id, effect).evidence == outcome.evidence + Listed(effect.evidence)
  {
  }

  /** The pages in a run's evidence are those its fetches delivered for the first time, in order. */
  lemma {:induction false} RunPages<S>(setup: Setup<S>, world: nat -> TurnWorld, log: seq<Row>)
    ensures PagesIn(GleanedBy(setup, world, log).evidence) == Firsts(DeliveriesBy(setup, world, log))
  {
    if log != [] {
      hide OutcomeOf, PagesIn, Firsts, DeliveriesIn, CallsAt;
      var t := |log|;
      var earlier := log[..t - 1];
      RunPages(setup, world, earlier);
      if log[t - 1].dispatched == 0 {
        assert DeliveriesBy(setup, world, earlier) + [] == DeliveriesBy(setup, world, earlier);
      } else {
        TurnPages(setup.tools, t, world(t).execute, CallsAt(world, t), |CallsAt(world, t)|);
        PagesAppend(GleanedBy(setup, world, earlier).evidence, OutcomeAt(setup, world, t).evidence);
        FirstsAppend(DeliveriesBy(setup, world, earlier),
          DeliveriesIn(setup.tools, world(t).execute, CallsAt(world, t), |CallsAt(world, t)|));
      }
    }
  }

  // ----- What the memory hands over -----

  /** The deliveries among the fetches of a run, as the memory makes them. */
  function DeliveriesOf(steps: seq<FetchMemory.Step>): seq<Delivery> {
    if steps == [] then []
    else
      var outcome := steps[|steps| - 1].outcome;
      DeliveriesOf(steps[..|steps| - 1])
      + if outcome.Delivered? then [Delivery(outcome.page, outcome.firstDelivery)] else []
  }

  lemma {:induction false} StepPages(steps: seq<FetchMemory.Step>)
    ensures Firsts(DeliveriesOf(steps)) == FetchMemory.EvidencePages(steps)
  {
    if steps != [] {
      var earlier, outcome := steps[..|steps| - 1], steps[|steps| - 1].outcome;
      StepPages(earlier);
      if outcome.Delivered? {
        var delivery := Delivery(outcome.page, outcome.firstDelivery);
        FirstsAppend(DeliveriesOf(earlier), [delivery]);
        assert [delivery][..0] == [];
      } else {
        assert DeliveriesOf(earlier) + [] == DeliveriesOf(earlier);
      }
    }
  }

  lemma {:induction false} EvidenceIsDelivered(steps: seq<FetchMemory.Step>, page: FetchMemory.Page)
    requires page in FetchMemory.EvidencePages(steps)
    ensures exists i :: 0 <= i < |steps| && steps[i].outcome.Delivered? && steps[i].outcome.page == page
  {
    var n := |steps| - 1;
    var outcome := steps[n].outcome;
    if !(outcome.Delivered? && outcome.page == page) {
      EvidenceIsDelivered(steps[..n], page);
      var i :| 0 <= i < n && steps[..n][i].outcome.Delivered? && steps[..n][i].outcome.page == page;
      assert steps[i] == steps[..n][i];
    }
  }

  /** Every page of which a part was delivered is in the evidence itself, not just its key. */
  lemma DeliveredIsEvidence(memory: FetchMemory.Setup, calls: seq<FetchMemory.Call>, i: nat)
    requires i < |calls| && FetchMemory.StepsOf(memory, calls)[i].outcome.Delivered?
    ensures FetchMemory.StepsOf(memory, calls)[i].outcome.page
         in FetchMemory.EvidencePages(FetchMemory.StepsOf(memory, calls))
  {
    hide *;
    var steps := FetchMemory.StepsOf(memory, calls);
    var pages, page := FetchMemory.EvidencePages(steps), steps[i].outcome.page;
    FetchMemory.EvidenceHoldsEachPageOnce(memory, calls);
    FetchMemory.ShownAreDelivered(memory, steps, FetchMemory.FinalKey(memory, page));
    KeyOfSome(memory, pages, FetchMemory.FinalKey(memory, page));
    var kept :| kept in pages && FetchMemory.FinalKey(memory, kept) == FetchMemory.FinalKey(memory, page);
    EvidenceIsDelivered(steps, kept);
    var j :| 0 <= j < |steps| && steps[j].outcome.Delivered? && steps[j].outcome.page == kept;
    if i < j {
      FetchMemory.AliasesShareParts(memory, calls, i, j);
    } else if j < i {
      FetchMemory.AliasesShareParts(memory, calls, j, i);
    }
  }

  lemma KeyOfSome(memory: FetchMemory.Setup, pages: seq<FetchMemory.Page>, key: string)
    requires key in FetchMemory.KeysOf(memory, pages)
    ensures exists page :: page in pages && FetchMemory.FinalKey(memory, page) == key
  {
    hide FetchMemory.FinalKey;
  }

  // ----- The report -----

  /**
   When the fetches of a run are served by the memory, the report of a run that ends with an
   answer carries every page of which some part was delivered, in whatever turn and under
   whatever URL, whole and exactly once, and no other page.
   */
  lemma ReportHoldsEachPageOnce<S>(
    setup: Setup<S>, world: nat -> TurnWorld, log: seq<Row>,
    memory: FetchMemory.Setup, calls: seq<FetchMemory.Call>)
    requires log != [] && EndOf(setup, world, log).Ok?
    requires DeliveriesBy(setup, world, log) == DeliveriesOf(FetchMemory.StepsOf(memory, calls))
    ensures var steps := FetchMemory.StepsOf(memory, calls);
            var pages := PagesIn(EndOf(setup, world, log).value.evidence);
            && FetchMemory.DistinctKeys(memory, pages)
            && forall page :: page in pages <==>
                 exists i :: 0 <= i < |steps| && steps[i].outcome.Delivered? && steps[i].outcome.page == page
  {
    var steps := FetchMemory.StepsOf(memory, calls);
    var pages := PagesIn(EndOf(setup, world, log).value.evidence);
    assert pages == FetchMemory.EvidencePages(steps) by {
      ReportEvidence(setup, world, log);
      RunPages(setup, world, log);
      StepPages(steps);
      hide *;
    }
    FetchMemory.EvidenceHoldsEachPageOnce(memory, calls);
    hide *;
    forall page
      ensures page in pages <==>
        exists i :: 0 <= i < |steps| && steps[i].outcome.Delivered? && steps[i].outcome.page == page
    {
      if page in pages {
        EvidenceIsDelivered(steps, page);
      }
      if i :| 0 <= i < |steps| && steps[i].outcome.Delivered? && steps[i].outcome.page == page {
        DeliveredIsEvidence(memory, calls, i);
      }
    }
  }

  /** A run that ends with an answer reports what all its turns gleaned. */
  lemma ReportEvidence<S>(setup: Setup<S>, world: nat -> TurnWorld, log: seq<Row>)
    requires log != [] && EndOf(setup, world, log).Ok?
    ensures EndOf(setup, world, log).value.evidence == GleanedBy(setup, world, log).evidence
  {
    hide OutcomeAt;
  }
  // ----- The registry behind the loop -----

  const FETCH := "fetch"

  /** What a call of another tool, or one whose arguments do not parse, comes to: never a page. */
  type Pageless = executed: Executed | !(executed.Finished? && executed.result.Fetch?) witness TimedOut(false)

  /**
   The tools of a run: the arguments of a fetch as a request, if they are one, what the network
   would bring to call `i` of turn `t`, the reason and kind of a failed fetch, whether a call's
   time was cut short by the run's end, and what every other call comes to.
   */
  datatype Registry = Registry(
    memory: FetchMemory.Setup,
    request: string -> Option<FetchMemory.Request>,
    network: (nat, nat) -> FetchMemory.Download,
    failure: FetchMemory.Outcome -> (string, FailureKind),
    near: (nat, nat) -> bool,
    other: (nat, nat, RequestedToolCall) -> Pageless)

  /** Call `i` of turn `t` as a call of the memory, if it runs and is a fetch. */
  function FetchBy(tools: Tools, registry: Registry, t: nat, i: nat, call: RequestedToolCall): seq<FetchMemory.Call> {
    if i >= Cap(tools) || call.name !in tools.allowed || call.name != FETCH then []
    else
      match registry.request(call.arguments)
      case None => []
      case Some(request) => [FetchMemory.Call(request, registry.network(t, i))]
  }

  function FetchesIn(
    tools: Tools, registry: Registry, t: nat, calls: seq<RequestedToolCall>, n: nat): seq<FetchMemory.Call>
    requires n <= |calls|
  {
    if n == 0 then []
    else FetchesIn(tools, registry, t, calls, n - 1) + FetchBy(tools, registry, t, n - 1, calls[n - 1])
  }

  /** The fetches of the turns of a log, in call order across turns. */
  function FetchesOf<S>(setup: Setup<S>, registry: Registry, world: nat -> TurnWorld, log: seq<Row>)
    : seq<FetchMemory.Call>
  {
    if log == [] then []
    else
      var t := |log|;
      FetchesOf(setup, registry, world, log[..t - 1])
      + if log[t - 1].dispatched == 0 then []
        else FetchesIn(setup.tools, registry, t, CallsAt(world, t), |CallsAt(world, t)|)
  }

  /** What the loop is told of a fetch. */
  function Told(registry: Registry, t: nat, i: nat, outcome: FetchMemory.Outcome): Executed {
    match outcome
    case Delivered(page, _, _, _, first) => Finished(Fetch(page, first))
    case AlreadyFetched(_, _) => Finished(ToolResult.AlreadyFetched)
    case TimedOut => Executed.TimedOut(registry.near(t, i))
    case PastEnd(_, _) =>
      var (reason, _) := registry.failure(outcome);
      Finished(ToolResult.Failed(reason, DispatchFailure))
    case Failed(_) =>
      var (reason, kind) := registry.failure(outcome);
      Finished(ToolResult.Failed(reason, kind))
  }

  /** `execute`: what call `i` of turn `t` comes to after the fetches `before` it. */
  function ExecutedBy(
    registry: Registry, before: seq<FetchMemory.Call>, t: nat, i: nat, call: RequestedToolCall): Executed
  {
    if call.name != FETCH || registry.request(call.arguments).None? then registry.other(t, i, call)
    else
      var fetch := FetchMemory.Call(registry.request(call.arguments).value, registry.network(t, i));
      Told(registry, t, i,
        FetchMemory.StepOf(registry.memory, FetchMemory.StepsOf(registry.memory, before), fetch).outcome)
  }

  /** The calls of one turn that run are executed by the registry, one after another. */
  ghost predicate TurnServed(
    tools: Tools, registry: Registry, before: seq<FetchMemory.Call>, t: nat, execute: nat -> Executed,
    calls: seq<RequestedToolCall>)
  {
    forall i :: 0 <= i < |calls| && i < Cap(tools) && calls[i].name in tools.allowed ==>
      execute(i) == ExecutedBy(registry, before + FetchesIn(tools, registry, t, calls, i), t, i, calls[i])
  }

  /** One registry serves all turns of a log. */
  ghost predicate ServedBy<S>(setup: Setup<S>, registry: Registry, world: nat -> TurnWorld, log: seq<Row>) {
    log == [] ||
    (var t, earlier := |log|, log[..|log| - 1];
     && ServedBy(setup, registry, world, earlier)
     && (log[t - 1].dispatched > 0 ==>
           TurnServed(setup.tools, registry, FetchesOf(setup, registry, world, earlier), t, world(t).execute,
             CallsAt(world, t))))
  }

  lemma DeliveriesSnoc(memory: FetchMemory.Setup, before: seq<FetchMemory.Call>, fetch: FetchMemory.Call)
    ensures var outcome := FetchMemory.StepOf(memory, FetchMemory.StepsOf(memory, before), fetch).outcome;
            DeliveriesOf(FetchMemory.StepsOf(memory, before + [fetch]))
            == DeliveriesOf(FetchMemory.StepsOf(memory, before))
               + if outcome.Delivered? then [Delivery(outcome.page, outcome.firstDelivery)] else []
  {
    FetchMemory.StepsSnoc(memory, before, fetch);
    var steps := FetchMemory.StepsOf(memory, before);
    var step := FetchMemory.StepOf(memory, steps, fetch);
    assert (steps + [step])[..|steps|] == steps;
    hide FetchMemory.StepsOf, FetchMemory.StepOf;
  }

  /** What the loop sees one call deliver is what the memory delivers to it. */
  lemma CallServed(
    tools: Tools, registry: Registry, before: seq<FetchMemory.Call>, t: nat, execute: nat -> Executed, i: nat,
    call: RequestedToolCall)
    requires i < Cap(tools) && call.name in tools.allowed ==> execute(i) == ExecutedBy(registry, before, t, i, call)
    ensures var fetches := before + FetchBy(tools, registry, t, i, call);
            DeliveriesOf(FetchMemory.StepsOf(registry.memory, fetches))
            == DeliveriesOf(FetchMemory.StepsOf(registry.memory, before)) + DeliveryBy(tools, execute, i, call)
  {
    hide FetchMemory.StepsOf, FetchMemory.StepOf, DeliveriesOf;
    if FetchBy(tools, registry, t, i, call) != [] {
      DeliveriesSnoc(registry.memory, before, FetchBy(tools, registry, t, i, call)[0]);
    } else {
      assert before + [] == before;
      assert DeliveryBy(tools, execute, i, call) == [];
    }
  }

  lemma {:induction false} TurnDeliveries(
    tools: Tools, registry: Registry, before: seq<FetchMemory.Call>, t: nat, execute: nat -> Executed,
    calls: seq<RequestedToolCall>, n: nat)
    requires n <= |calls| && TurnServed(tools, registry, before, t, execute, calls)
    ensures DeliveriesOf(FetchMemory.StepsOf(registry.memory, before + FetchesIn(tools, registry, t, calls, n)))
         == DeliveriesOf(FetchMemory.StepsOf(registry.memory, before)) + DeliveriesIn(tools, execute, calls, n)
  {
    hide FetchMemory.StepsOf, DeliveriesOf, ExecutedBy, FetchBy, DeliveryBy, DeliveriesIn, FetchesIn;
    if n == 0 {
      NothingDelivered(tools, execute, calls);
      NothingFetched(tools, registry, t, calls);
      assert before + [] == before;
    } else {
      var earlier, call := FetchesIn(tools, registry, t, calls, n - 1), calls[n - 1];
      TurnDeliveries(tools, registry, before, t, execute, calls, n - 1);
      CallServed(tools, registry, before + earlier, t, execute, n - 1, call);
      hide *;
      FetchesStep(tools, registry, t, calls, n);
      DeliveriesStep(tools, execute, calls, n);
      ConcatAssociates(before, earlier, FetchBy(tools, registry, t, n - 1, call));
      ConcatAssociates(DeliveriesOf(FetchMemory.StepsOf(registry.memory, before)),
        DeliveriesIn(tools, execute, calls, n - 1), DeliveryBy(tools, execute, n - 1, call));
    }
  }

  lemma NothingFetched(tools: Tools, registry: Registry, t: nat, calls: seq<RequestedToolCall>)
    ensures FetchesIn(tools, registry, t, calls, 0) == []
  {
  }

  lemma {:induction false} FetchesStep(
    tools: Tools, registry: Registry, t: nat, calls: seq<RequestedToolCall>, n: nat)
    requires 0 < n <= |calls|
    ensures FetchesIn(tools, registry, t, calls, n)
         == FetchesIn(tools, registry, t, calls, n - 1) + FetchBy(tools, registry, t, n - 1, calls[n - 1])
  {
    hide FetchBy;
  }

  /** With one registry behind all turns, the loop's deliveries are the memory's. */
  lemma {:induction false} RunDeliveries<S>(
    setup: Setup<S>, registry: Registry, world: nat -> TurnWorld, log: seq<Row>)
    requires ServedBy(setup, registry, world, log)
    ensures DeliveriesBy(setup, world, log)
         == DeliveriesOf(FetchMemory.StepsOf(registry.memory, FetchesOf(setup, registry, world, log)))
  {
    if log == [] {
      assert FetchMemory.StepsOf(registry.memory, []) == [];
    } else {
      hide FetchMemory.StepsOf, DeliveriesOf, DeliveriesIn, FetchesIn, CallsAt, TurnServed;
      var t := |log|;
      var earlier := log[..t - 1];
      var before := FetchesOf(setup, registry, world, earlier);
      RunDeliveries(setup, registry, world, earlier);
      if log[t - 1].dispatched == 0 {
        assert before + [] == before;
        assert DeliveriesBy(setup, world, earlier) + [] == DeliveriesBy(setup, world, earlier);
      } else {
        TurnDeliveries(setup.tools, registry, before, t, world(t).execute, CallsAt(world, t), |CallsAt(world, t)|);
      }
    }
  }

  /** So the report of such a run carries exactly the pages of which some part was delivered, each once. */
  lemma RegistryRunsReportEachPageOnce<S>(
    setup: Setup<S>, registry: Registry, world: nat -> TurnWorld, log: seq<Row>)
    requires log != [] && EndOf(setup, world, log).Ok? && ServedBy(setup, registry, world, log)
    ensures var steps := FetchMemory.StepsOf(registry.memory, FetchesOf(setup, registry, world, log));
            var pages := PagesIn(EndOf(setup, world, log).value.evidence);
            && FetchMemory.DistinctKeys(registry.memory, pages)
            && forall page :: page in pages <==>
                 exists i :: 0 <= i < |steps| && steps[i].outcome.Delivered? && steps[i].outcome.page == page
  {
    hide *;
    RunDeliveries(setup, registry, world, log);
    ReportHoldsEachPageOnce(setup, world, log, registry.memory, FetchesOf(setup, registry, world, log));
  }
}
