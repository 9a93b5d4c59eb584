/**
 What one turn of dispatch leaves, call by call (`src/research/agent_loop/dispatch.rs`): what the
 model is told, what is kept as evidence, and which calls count as failed and why.
 */
module CallLaws {
  import opened Prelude
  import opened Reply
  import opened Transcript
  import opened Dispatch

  /** The cap never shuts out a turn's first call. */
  predicate WithinCap(tools: Tools, i: nat) {
    i < tools.perTurn || i == 0
  }

  /** Whether call `i` of a turn runs at all: it is within the cap and its tool is allowed. */
  predicate Runs(tools: Tools, i: nat, call: RequestedToolCall) {
    WithinCap(tools, i) && call.name in tools.allowed
  }

  /** A text as the model sees it: whole when it fits, else its start and how much was cut. */
  predicate ShownWithin(shown: string, text: string, maxChars: nat) {
    && (|text| <= maxChars ==> shown == text)
    && (|text| > maxChars ==>
          text[..maxChars] <= shown
          && shown[maxChars..] == "\n[truncated " + Decimal(|text| - maxChars) + " chars]")
  }

  function NotRun(cap: nat): string {
    "not executed: per-turn tool-call cap (" + Decimal(cap) + ") reached"
  }

  lemma {:induction false} CappedIsShown(text: string, maxChars: nat)
    ensures ShownWithin(CapEvidence(text, maxChars), text, maxChars)
  {
    hide Decimal;
    if |text| > maxChars {
      var note := "\n[truncated " + Decimal(|text| - maxChars) + " chars]";
      assert (text[..maxChars] + note)[..maxChars] == text[..maxChars];
      assert (text[..maxChars] + note)[maxChars..] == note;
    }
  }

  /**
   What the model is told of each call: a fetched part whole, any other result, a timeout and a
   refusal within the size of a part, and of a call over the cap that it did not run.
   */
  lemma {:induction false} ContentTells(
    tools: Tools, turn: nat, execute: nat -> Executed, i: nat, call: RequestedToolCall)
    ensures var content := EffectOf(tools, turn, execute, i, call).content;
            && (!WithinCap(tools, i) ==>
                  ShownWithin(content, NotRun(Max(tools.perTurn, 1)), tools.partChars))
            && (WithinCap(tools, i) && call.name !in tools.allowed ==>
                  ShownWithin(content, "FAILED: " + tools.unknown(call.name), tools.partChars))
            && (Runs(tools, i, call) ==>
                  match execute(i)
                  case TimedOut(near) =>
                    ShownWithin(content, tools.render(call.name, Failed(tools.timeout(near), ExecutionFailure)),
                      tools.partChars)
                  case Finished(result) =>
                    if result.Fetch? then content == tools.render(call.name, result)
                    else ShownWithin(content, tools.render(call.name, result), tools.partChars))
  {
    hide CapEvidence, ShownWithin, Decimal;
    if !WithinCap(tools, i) {
      CappedIsShown(NotRun(Max(tools.perTurn, 1)), tools.partChars);
    } else if call.name !in tools.allowed {
      CappedIsShown("FAILED: " + tools.unknown(call.name), tools.partChars);
    } else {
      match execute(i) {
        case TimedOut(near) =>
          CappedIsShown(tools.render(call.name, Failed(tools.timeout(near), ExecutionFailure)), tools.partChars);
        case Finished(result) =>
          CappedIsShown(tools.render(call.name, result), tools.partChars);
      }
    }
  }

  /**
   What is kept of each call: one piece of evidence for every call that ran, with what the model
   was told; the URL of a fetch, and its page on the first delivery.
   */
  lemma {:induction false} EvidenceTells(
    tools: Tools, turn: nat, execute: nat -> Executed, i: nat, call: RequestedToolCall)
    ensures var effect := EffectOf(tools, turn, execute, i, call);
            && (effect.evidence.Some? <==> Runs(tools, i, call))
            && (Runs(tools, i, call) ==>
                  var kept := effect.evidence.value;
                  && kept.turn == turn && kept.id == call.id && kept.tool == call.name && kept.excerpt == effect.content
                  && (kept.url.Some? <==> execute(i).Finished? && execute(i).result.Fetch?)
                  && (kept.url.Some? ==> kept.url.value == execute(i).result.page.sourceUrl)
                  && (kept.page.Some? <==> kept.url.Some? && execute(i).result.firstDelivery)
                  && (kept.page.Some? ==> kept.page.value == execute(i).result.page))
  {
    hide CapEvidence, Decimal;
  }

  /** Why a call within the cap fails: its tool is unknown, its time was over, or its result says so. */
  lemma {:induction false} FailureTells(
    tools: Tools, turn: nat, execute: nat -> Executed, i: nat, call: RequestedToolCall)
    ensures var effect := EffectOf(tools, turn, execute, i, call);
            && (effect.failure.Some? ==> effect.failure.value.id == call.id && effect.failure.value.tool == call.name)
            && (!WithinCap(tools, i) ==> effect.failure.None?)
            && (WithinCap(tools, i) && call.name !in tools.allowed ==>
                  effect.failure.Some? && effect.failure.value.kind == DispatchFailure
                  && effect.failure.value.reason == effect.reason == tools.unknown(call.name))
            && (Runs(tools, i, call) ==>
                  match execute(i)
                  case TimedOut(near) =>
                    effect.failure.Some? && effect.failure.value.kind == ExecutionFailure
                    && effect.failure.value.reason == effect.reason == tools.timeout(near)
                  case Finished(Failed(reason, kind)) =>
                    effect.failure.Some? && effect.failure.value.kind == kind
                    && effect.failure.value.reason == effect.reason == reason
                  case Finished(SearchBlocked(detail)) =>
                    effect.failure.Some? && effect.failure.value.kind == ExecutionFailure
                    && effect.reason == tools.render(call.name, SearchBlocked(detail))
                  case Finished(_) => effect.failure.None?)
  {
    hide CapEvidence, Decimal;
  }

  /** The hits a call that ran found, if it was a search that came back. */
  function HitsFound(tools: Tools, execute: nat -> Executed, i: nat, call: RequestedToolCall): Option<nat> {
    if Runs(tools, i, call) && execute(i).Finished? && execute(i).result.Search? then Some(execute(i).result.hits)
    else None
  }

  function BlockMet(tools: Tools, execute: nat -> Executed, i: nat, call: RequestedToolCall): Option<string> {
    if Runs(tools, i, call) && execute(i).Finished? && execute(i).result.SearchBlocked? then
      Some(execute(i).result.detail)
    else None
  }

  lemma {:induction false} SearchTells(
    tools: Tools, turn: nat, execute: nat -> Executed, i: nat, call: RequestedToolCall)
    ensures var effect := EffectOf(tools, turn, execute, i, call);
            && effect.searches == (if HitsFound(tools, execute, i, call).Some? then 1 else 0)
            && (effect.hits <==>
                  HitsFound(tools, execute, i, call).Some? && HitsFound(tools, execute, i, call).value > 0)
            && effect.blocked == BlockMet(tools, execute, i, call)
  {
    hide CapEvidence, Decimal;
  }

  // ----- A whole turn -----

  /** The searches of a turn that came back, with or without hits. */
  function SearchesBack(tools: Tools, execute: nat -> Executed, calls: seq<RequestedToolCall>, n: nat): set<nat>
    requires n <= |calls|
  {
    set i: nat | i < n && HitsFound(tools, execute, i, calls[i]).Some?
  }

  lemma {:induction false} SearchesStep(tools: Tools, execute: nat -> Executed, calls: seq<RequestedToolCall>, n: nat)
    requires 0 < n <= |calls|
    ensures SearchesBack(tools, execute, calls, n)
         == SearchesBack(tools, execute, calls, n - 1)
            + if HitsFound(tools, execute, n - 1, calls[n - 1]).Some? then {n - 1} else {}
    ensures n - 1 !in SearchesBack(tools, execute, calls, n - 1)
  {
    hide HitsFound;
  }

  /**
   A turn's lists hold, in call order, what its calls leave: one result each under its id, the
   evidence of those that ran and the failures of those that failed.
   */
  lemma {:induction false} TurnHolds(
    tools: Tools, turn: nat, execute: nat -> Executed, calls: seq<RequestedToolCall>, n: nat)
    requires n <= |calls|
    ensures var outcome := OutcomeOf(tools, turn, execute, calls, n);
            var effects := seq(n, i requires 0 <= i < n => EffectOf(tools, turn, execute, i, calls[i]));
            && |outcome.results| == n
            && (forall i :: 0 <= i < n ==> outcome.results[i] == ToolMessage(calls[i].id, effects[i].content))
            && outcome.evidence == Flatten(seq(n, i requires 0 <= i < n => Listed(effects[i].evidence)))
            && outcome.failures == Flatten(seq(n, i requires 0 <= i < n => Listed(effects[i].failure)))
  {
    hide EffectOf, OutcomeOf, Flatten, Listed;
    var effects := seq(n, i requires 0 <= i < n => EffectOf(tools, turn, execute, i, calls[i]));
    var kept := seq(n, i requires 0 <= i < n => Listed(effects[i].evidence));
    var failed := seq(n, i requires 0 <= i < n => Listed(effects[i].failure));
    NothingBack(tools, execute, calls);
    if n == 0 {
      OutcomeStart(tools, turn, execute, calls);
      assert kept == [] && failed == [];
    } else {
      TurnHolds(tools, turn, execute, calls, n - 1);
      OutcomeStep(tools, turn, execute, calls, n);
      var last := EffectOf(tools, turn, execute, n - 1, calls[n - 1]);
      var earlier := seq(n - 1, i requires 0 <= i < n - 1 => EffectOf(tools, turn, execute, i, calls[i]));
      assert effects == earlier + [last];
      var keptBefore := seq(n - 1, i requires 0 <= i < n - 1 => Listed(earlier[i].evidence));
      var failedBefore := seq(n - 1, i requires 0 <= i < n - 1 => Listed(earlier[i].failure));
      assert kept == keptBefore + [Listed(last.evidence)] && failed == failedBefore + [Listed(last.failure)];
      FlattenSnoc(keptBefore, Listed(last.evidence));
      FlattenSnoc(failedBefore, Listed(last.failure));
    }
  }

  /** The searches counted are those that came back, and there were hits when one of them had some. */
  lemma {:induction false} SearchesTell(
    tools: Tools, turn: nat, execute: nat -> Executed, calls: seq<RequestedToolCall>, n: nat)
    requires n <= |calls|
    ensures var outcome := OutcomeOf(tools, turn, execute, calls, n);
            && outcome.successfulSearches == |SearchesBack(tools, execute, calls, n)|
            && (outcome.hadSearchHits <==>
                  exists i :: 0 <= i < n && HitsFound(tools, execute, i, calls[i]).Some?
                    && HitsFound(tools, execute, i, calls[i]).value > 0)
  {
    hide EffectOf, OutcomeOf, HitsFound, SearchesBack;
    if n == 0 {
      OutcomeStart(tools, turn, execute, calls);
      NothingBack(tools, execute, calls);
    } else {
      SearchesTell(tools, turn, execute, calls, n - 1);
      OutcomeStep(tools, turn, execute, calls, n);
      SearchTells(tools, turn, execute, n - 1, calls[n - 1]);
      SearchesStep(tools, execute, calls, n);
    }
  }

  lemma {:induction false} NothingBack(tools: Tools, execute: nat -> Executed, calls: seq<RequestedToolCall>)
    ensures SearchesBack(tools, execute, calls, 0) == {}
    ensures Flatten<ToolEvidence>([]) == [] && Flatten<CallFailure>([]) == []
  {
  }

  /** The reason a turn gives for its failure and the block it met are those of the last call that has one. */
  lemma {:induction false} LastReasonStands(
    tools: Tools, turn: nat, execute: nat -> Executed, calls: seq<RequestedToolCall>, n: nat, k: nat)
    requires k < n <= |calls|
    ensures var outcome := OutcomeOf(tools, turn, execute, calls, n);
            var effect := EffectOf(tools, turn, execute, k, calls[k]);
            && (effect.failure.Some? && (forall i :: k < i < n ==> !Fails(tools, turn, execute, calls, i)) ==>
                  outcome.failure == Some(effect.failure.value.kind) && outcome.failureReason == effect.reason)
            && (BlockMet(tools, execute, k, calls[k]).Some?
                && (forall i :: k < i < n ==> BlockMet(tools, execute, i, calls[i]).None?) ==>
                  outcome.searchBlocked == BlockMet(tools, execute, k, calls[k]))
  {
    hide EffectOf, OutcomeOf, BlockMet;
    OutcomeStep(tools, turn, execute, calls, n);
    SearchTells(tools, turn, execute, n - 1, calls[n - 1]);
    if k < n - 1 {
      LastReasonStands(tools, turn, execute, calls, n - 1, k);
      assert Fails(tools, turn, execute, calls, n - 1)
        <==> EffectOf(tools, turn, execute, n - 1, calls[n - 1]).failure.Some?;
    }
  }

  lemma {:induction false} NoBlockMet(
    tools: Tools, turn: nat, execute: nat -> Executed, calls: seq<RequestedToolCall>, n: nat)
    requires n <= |calls| && forall i :: 0 <= i < n ==> BlockMet(tools, execute, i, calls[i]).None?
    ensures OutcomeOf(tools, turn, execute, calls, n).searchBlocked.None?
  {
    hide EffectOf, OutcomeOf, BlockMet;
    if n == 0 {
      OutcomeStart(tools, turn, execute, calls);
    } else {
      NoBlockMet(tools, turn, execute, calls, n - 1);
      OutcomeStep(tools, turn, execute, calls, n);
      SearchTells(tools, turn, execute, n - 1, calls[n - 1]);
    }
  }
}
