/**
 One turn of tool dispatch (`src/research/agent_loop/dispatch.rs`): every
 requested call is paired with one result, whatever became of it.
 */
module Dispatch {
  import opened Prelude
  import opened Reply
  import opened Transcript
  import opened MessagesRequest
  import FetchMemory

  datatype FailureKind = DispatchFailure | ExecutionFailure

  /** What a call came to, as far as the loop looks at it. */
  datatype ToolResult =
    | Search(hits: nat)
    | SearchNote
    | SearchBlocked(detail: string)
    | Fetch(page: FetchMemory.Page, firstDelivery: bool)
    | AlreadyFetched
    | Failed(reason: string, kind: FailureKind)
  {
    predicate IsSuccess() {
      !Failed? && !SearchBlocked?
    }

    function FirstDeliveryPage(): Option<FetchMemory.Page> {
      if Fetch? && firstDelivery then Some(page) else None
    }
  }

  /** A call that ran to its end, or was cut off; `near` when the run's own cutoff shortened its time. */
  datatype Executed = Finished(result: ToolResult) | TimedOut(near: bool)

  datatype ToolEvidence = ToolEvidence(
    turn: nat, id: string, tool: string, excerpt: string, url: Option<string>, page: Option<FetchMemory.Page>)

  datatype CallFailure = CallFailure(id: string, tool: string, kind: FailureKind, reason: string)

  datatype TurnOutcome = TurnOutcome(
    results: seq<ToolMessage>,
    evidence: seq<ToolEvidence>,
    hadSuccess: bool,
    failure: Option<FailureKind>,
    failureReason: string,
    searchBlocked: Option<string>,
    hadSearchHits: bool,
    successfulSearches: nat,
    failures: seq<CallFailure>)

  /** The fixed inputs of a run's dispatch; `render` is the text of a result and `timeout` that of a cut call. */
  datatype Tools = Tools(
    allowed: seq<string>, perTurn: nat, partChars: nat, render: (string, ToolResult) -> string, timeout: bool -> string,
    unknown: string -> string)

  // ----- Ids -----

  function SynthesizedId(turn: nat, index: nat): string {
    "call_" + Decimal(turn) + "_" + Decimal(index + 1)
  }

  /** Every call with the id it will go by; `from` calls of the turn came before. */
  function Resolved(turn: nat, calls: seq<RequestedToolCall>, from: nat): (resolved: seq<RequestedToolCall>)
    ensures |resolved| == |calls|
  {
    if calls == [] then []
    else
      var call := calls[0];
      [if call.id == "" then call.(id := SynthesizedId(turn, from)) else call] + Resolved(turn, calls[1..], from + 1)
  }

  /** No resolved id is empty, names and arguments stay, and resolving again changes nothing. */
  lemma {:induction false} ResolvingIsIdempotent(turn: nat, calls: seq<RequestedToolCall>, from: nat, again: nat)
    ensures var resolved := Resolved(turn, calls, from);
            && Resolved(again, resolved, from) == resolved
            && forall i :: 0 <= i < |calls| ==>
                 && resolved[i].id != ""
                 && (calls[i].id != "" ==> resolved[i] == calls[i])
                 && resolved[i].name == calls[i].name && resolved[i].arguments == calls[i].arguments
  {
    if calls != [] {
      ResolvingIsIdempotent(turn, calls[1..], from + 1, again);
      var resolved := Resolved(turn, calls, from);
      assert resolved[1..] == Resolved(turn, calls[1..], from + 1);
      assert forall i :: 0 < i < |calls| ==> calls[i] == calls[1..][i - 1] && resolved[i] == resolved[1..][i - 1];
    }
  }

  /** A call keeps the id it came with; one without is named after its turn and its place in it. */
  lemma {:induction false} ResolvedAt(turn: nat, calls: seq<RequestedToolCall>, from: nat, i: nat)
    requires i < |calls|
    ensures Resolved(turn, calls, from)[i]
         == if calls[i].id == "" then calls[i].(id := SynthesizedId(turn, from + i)) else calls[i]
  {
    hide SynthesizedId;
    if i > 0 {
      ResolvedAt(turn, calls[1..], from + 1, i - 1);
      assert Resolved(turn, calls, from)[1..] == Resolved(turn, calls[1..], from + 1);
    }
  }

  lemma {:induction false} CutAtMark(a: string, b: string, c: string, d: string, mark: char)
    requires mark !in a && mark !in c && a + [mark] + b == c + [mark] + d
    ensures a == c && b == d
  {
    var x, y := a + [mark] + b, c + [mark] + d;
    assert x[|a|] == mark && y[|c|] == mark;
    assert forall k :: 0 <= k < |c| ==> y[k] == c[k];
    assert forall k :: 0 <= k < |a| ==> x[k] == a[k];
    assert |a| == |c|;
    assert a == x[..|a|] && c == y[..|c|];
    assert b == x[|a| + 1..] && d == y[|c| + 1..];
  }

  /** No two calls of a run are given the same name. */
  lemma {:induction false} SynthesizedIdsDiffer(turn: nat, index: nat, otherTurn: nat, otherIndex: nat)
    ensures SynthesizedId(turn, index) == SynthesizedId(otherTurn, otherIndex) ==>
              turn == otherTurn && index == otherIndex
    ensures SynthesizedId(turn, index)[..5] == "call_"
  {
    var a, b := SynthesizedId(turn, index), SynthesizedId(otherTurn, otherIndex);
    DecimalIsDigits(turn);
    DecimalIsDigits(otherTurn);
    hide Decimal;
    assert a[5..] == Decimal(turn) + ['_'] + Decimal(index + 1);
    assert b[5..] == Decimal(otherTurn) + ['_'] + Decimal(otherIndex + 1);
    if a == b {
      CutAtMark(Decimal(turn), Decimal(index + 1), Decimal(otherTurn), Decimal(otherIndex + 1), '_');
      DecimalIsInjective(turn, otherTurn);
      DecimalIsInjective(index + 1, otherIndex + 1);
    }
  }

  // ----- One call -----

  function CapEvidence(text: string, maxChars: nat): string {
    if |text| <= maxChars then text
    else text[..maxChars] + "\n[truncated " + Decimal(|text| - maxChars) + " chars]"
  }

  /** What one call adds to the turn. */
  datatype Effect = Effect(
    content: string,
    evidence: Option<ToolEvidence>,
    success: bool,
    failure: Option<CallFailure>,
    reason: string,
    blocked: Option<string>,
    hits: bool,
    searches: nat)

  function Dropped(tools: Tools, content: string): Effect {
    Effect(CapEvidence(content, tools.partChars), None, false, None, "", None, false, 0)
  }

  function Refused(tools: Tools, call: RequestedToolCall): Effect {
    var reason := tools.unknown(call.name);
    Dropped(tools, "FAILED: " + reason)
      .(failure := Some(CallFailure(call.id, call.name, DispatchFailure, reason)), reason := reason)
  }

  function CutOff(tools: Tools, turn: nat, call: RequestedToolCall, near: bool): Effect {
    var reason := tools.timeout(near);
    var content := CapEvidence(tools.render(call.name, Failed(reason, ExecutionFailure)), tools.partChars);
    Effect(content, Some(ToolEvidence(turn, call.id, call.name, content, None, None)), false,
      Some(CallFailure(call.id, call.name, ExecutionFailure, reason)), reason, None, false, 0)
  }

  function Ran(tools: Tools, turn: nat, call: RequestedToolCall, result: ToolResult): Effect {
    var rendered := tools.render(call.name, result);
    var content := if result.Fetch? then rendered else CapEvidence(rendered, tools.partChars);
    var evidence := ToolEvidence(turn, call.id, call.name, content,
                      if result.Fetch? then Some(result.page.sourceUrl) else None, result.FirstDeliveryPage());
    if result.IsSuccess() then
      Effect(content, Some(evidence), true, None, "", None, result.Search? && result.hits > 0,
        if result.Search? then 1 else 0)
    else
      var kind := if result.Failed? then result.kind else ExecutionFailure;
      var told := if result.Failed? then result.reason else "search blocked: " + result.detail;
      Effect(content, Some(evidence), false, Some(CallFailure(call.id, call.name, kind, told)),
        if result.Failed? then result.reason else rendered,
        if result.SearchBlocked? then Some(result.detail) else None, false, 0)
  }

  /** How many calls of a turn may run: at least one. */
  function Cap(tools: Tools): nat {
    Max(tools.perTurn, 1)
  }

  /** `execute(i)` is what becomes of call `i` when it runs. */
  function EffectOf(tools: Tools, turn: nat, execute: nat -> Executed, i: nat, call: RequestedToolCall): Effect {
    if i >= Cap(tools) then
      Dropped(tools, "not executed: per-turn tool-call cap (" + Decimal(Cap(tools)) + ") reached")
    else if call.name !in tools.allowed then Refused(tools, call)
    else
      match execute(i)
      case TimedOut(near) => CutOff(tools, turn, call, near)
      case Finished(result) => Ran(tools, turn, call, result)
  }

  /** The outcome of the first `n` calls. */
  function OutcomeOf(
    tools: Tools, turn: nat, execute: nat -> Executed, calls: seq<RequestedToolCall>, n: nat): TurnOutcome
    requires n <= |calls|
  {
    if n == 0 then TurnOutcome([], [], false, None, "", None, false, 0, [])
    else
      Extended(OutcomeOf(tools, turn, execute, calls, n - 1), calls[n - 1].id,
        EffectOf(tools, turn, execute, n - 1, calls[n - 1]))
  }

  function Extended(outcome: TurnOutcome, id: string, effect: Effect): TurnOutcome {
    TurnOutcome(
      outcome.results + [ToolMessage(id, effect.content)],
      outcome.evidence + Listed(effect.evidence),
      outcome.hadSuccess || effect.success,
      if effect.failure.Some? then Some(effect.failure.value.kind) else outcome.failure,
      if effect.failure.Some? then effect.reason else outcome.failureReason,
      if effect.blocked.Some? then effect.blocked else outcome.searchBlocked,
      outcome.hadSearchHits || effect.hits,
      outcome.successfulSearches + effect.searches,
      outcome.failures + Listed(effect.failure))
  }

  function Listed<T>(item: Option<T>): seq<T> {
    if item.Some? then [item.value] else []
  }

  // ----- The loop -----

  method ResolveCallIds(turn: nat, calls: seq<RequestedToolCall>) returns (resolved: seq<RequestedToolCall>)
    ensures resolved == Resolved(turn, calls, 0)
  {
    resolved := [];
    assert calls[0..] == calls;
    for i := 0 to |calls|
      invariant resolved + Resolved(turn, calls[i..], i) == Resolved(turn, calls, 0)
    {
      var call := calls[i];
      assert calls[i..][1..] == calls[i + 1..];
      var one := if call.id == "" then call.(id := SynthesizedId(turn, i)) else call;
      ConcatAssociates(resolved, [one], Resolved(turn, calls[i + 1..], i + 1));
      resolved := resolved + [one];
    }
  }

  /** One iteration: the branches of the loop, each on the turn's accumulated lists and flags. */
  method DispatchCall(
    tools: Tools, turn: nat, execute: nat -> Executed, before: TurnOutcome, index: nat, call: RequestedToolCall)
    returns (outcome: TurnOutcome)
    ensures outcome == Extended(before, call.id, EffectOf(tools, turn, execute, index, call))
  {
    hide CapEvidence, Decimal;
    var results, evidence, failures := before.results, before.evidence, before.failures;
    var hadSuccess, hadSearchHits, searches := before.hadSuccess, before.hadSearchHits, before.successfulSearches;
    var failure, failureReason, searchBlocked := before.failure, before.failureReason, before.searchBlocked;
    var cap := if tools.perTurn < 1 then 1 else tools.perTurn;
    if index >= cap {
      var note := "not executed: per-turn tool-call cap (" + Decimal(cap) + ") reached";
      results := results + [ToolMessage(call.id, CapEvidence(note, tools.partChars))];
    } else if call.name !in tools.allowed {
      var reason := tools.unknown(call.name);
      results := results + [ToolMessage(call.id, CapEvidence("FAILED: " + reason, tools.partChars))];
      failures := failures + [CallFailure(call.id, call.name, DispatchFailure, reason)];
      failure, failureReason := Some(DispatchFailure), reason;
    } else {
      match execute(index) {
        case TimedOut(near) =>
          var reason := tools.timeout(near);
          var content := CapEvidence(tools.render(call.name, Failed(reason, ExecutionFailure)), tools.partChars);
          results := results + [ToolMessage(call.id, content)];
          evidence := evidence + [ToolEvidence(turn, call.id, call.name, content, None, None)];
          failures := failures + [CallFailure(call.id, call.name, ExecutionFailure, reason)];
          failure, failureReason := Some(ExecutionFailure), reason;
        case Finished(result) =>
          var rendered := tools.render(call.name, result);
          var excerpt := if result.Fetch? then rendered else CapEvidence(rendered, tools.partChars);
          results := results + [ToolMessage(call.id, excerpt)];
          if result.Search? && result.hits > 0 {
            hadSearchHits := true;
          }
          if result.SearchBlocked? {
            searchBlocked := Some(result.detail);
          }
          if result.IsSuccess() {
            hadSuccess := true;
            if result.Search? {
              searches := searches + 1;
            }
            var url := if result.Fetch? then Some(result.page.sourceUrl) else None;
            evidence := evidence
              + [ToolEvidence(turn, call.id, call.name, excerpt, url, result.FirstDeliveryPage())];
          } else {
            var kind := if result.Failed? then result.kind else ExecutionFailure;
            var reason := if result.Failed? then result.reason else rendered;
            var told := if result.Failed? then result.reason else "search blocked: " + result.detail;
            evidence := evidence + [ToolEvidence(turn, call.id, call.name, excerpt, None, None)];
            failures := failures + [CallFailure(call.id, call.name, kind, told)];
            failure, failureReason := Some(kind), reason;
          }
      }
    }
    outcome := TurnOutcome(results, evidence, hadSuccess, failure, failureReason, searchBlocked, hadSearchHits,
      searches, failures);
  }

  method DispatchTurn(tools: Tools, turn: nat, execute: nat -> Executed, calls: seq<RequestedToolCall>)
    returns (resolved: seq<RequestedToolCall>, outcome: TurnOutcome)
    ensures resolved == Resolved(turn, calls, 0)
    ensures outcome == OutcomeOf(tools, turn, execute, resolved, |resolved|)
  {
    hide EffectOf, Extended, Resolved;
    resolved := ResolveCallIds(turn, calls);
    outcome := TurnOutcome([], [], false, None, "", None, false, 0, []);
    for i := 0 to |resolved|
      invariant outcome == OutcomeOf(tools, turn, execute, resolved, i)
    {
      outcome := DispatchCall(tools, turn, execute, outcome, i, resolved[i]);
    }
  }

  // ----- What a turn's outcome is -----

  lemma {:induction false} ResultIdsAppend(a: seq<ToolMessage>, b: seq<ToolMessage>)
    ensures ResultIds(a + b) == ResultIds(a) + ResultIds(b)
  {
    if a == [] {
      assert a + b == b;
    } else {
      assert (a + b)[1..] == a[1..] + b;
      ResultIdsAppend(a[1..], b);
    }
  }

  /** One result per call, under the call's id, in call order, whether it ran, failed or was left out. */
  lemma {:induction false} OneResultPerCall(
    tools: Tools, turn: nat, execute: nat -> Executed, calls: seq<RequestedToolCall>, n: nat)
    requires n <= |calls|
    ensures var results := OutcomeOf(tools, turn, execute, calls, n).results;
            ResultIds(results) == IdsOf(calls[..n]) && |results| == n
  {
    hide EffectOf, OutcomeOf, ResultIds, IdsOf;
    if n == 0 {
      OutcomeStart(tools, turn, execute, calls);
      assert calls[..0] == [];
      NoIds();
    } else {
      OutcomeStep(tools, turn, execute, calls, n);
      var call := calls[n - 1];
      var earlier := OutcomeOf(tools, turn, execute, calls, n - 1).results;
      var message := ToolMessage(call.id, EffectOf(tools, turn, execute, n - 1, call).content);
      OneResultPerCall(tools, turn, execute, calls, n - 1);
      assert calls[..n] == calls[..n - 1] + [call];
      ResultIdsAppend(earlier, [message]);
      IdsAppend(calls[..n - 1], [call]);
      OneId(message, call);
    }
  }

  lemma NoIds()
    ensures ResultIds([]) == [] && IdsOf([]) == []
  {
  }

  lemma {:induction false} OneId(message: ToolMessage, call: RequestedToolCall)
    ensures ResultIds([message]) == [message.id] && IdsOf([call]) == [call.id]
  {
    NoIds();
    assert [message][1..] == [] && [call][1..] == [];
  }

  /** A call within the cap either succeeds or fails; one over it does neither and leaves no evidence. */
  lemma EachCallIsJudged(tools: Tools, turn: nat, execute: nat -> Executed, i: nat, call: RequestedToolCall)
    ensures var effect := EffectOf(tools, turn, execute, i, call);
            && (i < Cap(tools) ==> (effect.success <==> effect.failure.None?))
            && (i >= Cap(tools) ==> !effect.success && effect.failure.None? && effect.evidence.None?)
            && (effect.searches > 0 ==> effect.success) && effect.searches <= 1
            && (effect.blocked.Some? ==> effect.failure.Some?)
            && (effect.evidence.Some? && effect.evidence.value.page.Some? ==> effect.success)
  {
    hide CapEvidence, Decimal;
  }

  lemma OutcomeStep(tools: Tools, turn: nat, execute: nat -> Executed, calls: seq<RequestedToolCall>, n: nat)
    requires 0 < n <= |calls|
    ensures OutcomeOf(tools, turn, execute, calls, n)
         == Extended(OutcomeOf(tools, turn, execute, calls, n - 1), calls[n - 1].id,
              EffectOf(tools, turn, execute, n - 1, calls[n - 1]))
  {
  }

  lemma OutcomeStart(tools: Tools, turn: nat, execute: nat -> Executed, calls: seq<RequestedToolCall>)
    ensures OutcomeOf(tools, turn, execute, calls, 0) == TurnOutcome([], [], false, None, "", None, false, 0, [])
  {
  }

  /** Whether call `i` succeeds, fails. */
  predicate Succeeds(tools: Tools, turn: nat, execute: nat -> Executed, calls: seq<RequestedToolCall>, i: nat)
    requires i < |calls|
  {
    EffectOf(tools, turn, execute, i, calls[i]).success
  }

  predicate Fails(tools: Tools, turn: nat, execute: nat -> Executed, calls: seq<RequestedToolCall>, i: nat)
    requires i < |calls|
  {
    EffectOf(tools, turn, execute, i, calls[i]).failure.Some?
  }

  lemma FlagsStep(tools: Tools, turn: nat, execute: nat -> Executed, calls: seq<RequestedToolCall>, n: nat)
    requires 0 < n <= |calls|
    ensures var before, after := OutcomeOf(tools, turn, execute, calls, n - 1),
                              OutcomeOf(tools, turn, execute, calls, n);
            && (after.hadSuccess <==> before.hadSuccess || Succeeds(tools, turn, execute, calls, n - 1))
            && (!Fails(tools, turn, execute, calls, n - 1) ==>
                  after.failures == before.failures && after.failure == before.failure)
            && (Fails(tools, turn, execute, calls, n - 1) ==>
                  after.failures != [] && after.failure == Some(after.failures[|after.failures| - 1].kind))
  {
    OutcomeStep(tools, turn, execute, calls, n);
    hide EffectOf, OutcomeOf;
  }

  /** A turn succeeded when some call did. */
  lemma {:induction false} SuccessIsSomeCalls(
    tools: Tools, turn: nat, execute: nat -> Executed, calls: seq<RequestedToolCall>, n: nat)
    requires n <= |calls|
    ensures OutcomeOf(tools, turn, execute, calls, n).hadSuccess
       <==> exists i :: 0 <= i < n && Succeeds(tools, turn, execute, calls, i)
  {
    hide *;
    OutcomeStart(tools, turn, execute, calls);
    if n > 0 {
      FlagsStep(tools, turn, execute, calls, n);
      SuccessIsSomeCalls(tools, turn, execute, calls, n - 1);
    }
  }

  /** A turn failed when some call did, and the last failure names its kind. */
  lemma {:induction false} LastFailureWins(
    tools: Tools, turn: nat, execute: nat -> Executed, calls: seq<RequestedToolCall>, n: nat)
    requires n <= |calls|
    ensures var outcome := OutcomeOf(tools, turn, execute, calls, n);
            && (outcome.failures == [] <==> forall i :: 0 <= i < n ==> !Fails(tools, turn, execute, calls, i))
            && outcome.failure
               == if outcome.failures == [] then None else Some(outcome.failures[|outcome.failures| - 1].kind)
  {
    hide *;
    OutcomeStart(tools, turn, execute, calls);
    if n > 0 {
      FlagsStep(tools, turn, execute, calls, n);
      LastFailureWins(tools, turn, execute, calls, n - 1);
    }
  }

  /** No more calls leave evidence than may run, and every search counted is among them. */
  lemma {:induction false} CapHolds(
    tools: Tools, turn: nat, execute: nat -> Executed, calls: seq<RequestedToolCall>, n: nat)
    requires n <= |calls|
    ensures var outcome := OutcomeOf(tools, turn, execute, calls, n);
            && outcome.successfulSearches <= |outcome.evidence| <= Min(n, Cap(tools))
            && (outcome.successfulSearches > 0 ==> outcome.hadSuccess)
  {
    hide EffectOf, OutcomeOf, Cap;
    if n == 0 {
      OutcomeStart(tools, turn, execute, calls);
    } else {
      OutcomeStep(tools, turn, execute, calls, n);
      CapHolds(tools, turn, execute, calls, n - 1);
      EachCallIsJudged(tools, turn, execute, n - 1, calls[n - 1]);
      SearchesLeaveEvidence(tools, turn, execute, n - 1, calls[n - 1]);
    }
  }

  lemma SearchesLeaveEvidence(tools: Tools, turn: nat, execute: nat -> Executed, i: nat, call: RequestedToolCall)
    ensures var effect := EffectOf(tools, turn, execute, i, call);
            effect.searches > 0 ==> effect.evidence.Some?
  {
    hide CapEvidence, Decimal;
  }
}
