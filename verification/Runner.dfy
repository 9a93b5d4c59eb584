/**
 The agent loop (`src/research/agent_loop/runner.rs`) as a method over what the
 world does in each turn. The log holds one row per gateway call, and `LogOk`
 is what every run keeps, row by row.
 */
module Runner {
  import opened Prelude
  import opened Json
  import opened Reply
  import opened Budget
  import opened Transcript
  import opened MessagesRequest
  import opened Dispatch

  datatype LoopError =
    | NoStart(reason: string)
    | Gateway(error: GatewayError)
    | InvalidToolCall(reason: string)
    | ToolFailed(reason: string)
    | BudgetExhausted(turns: nat)
    | DeadlineExceeded(turns: nat)

  datatype RunReport<S> = RunReport(
    synthesis: S,
    turnsUsed: nat,
    turnBudget: nat,
    failuresUsed: nat,
    evidence: seq<ToolEvidence>,
    searchBlocked: Option<string>,
    hadSearchHits: bool)

  /** Turn `t`: the clock at its top, at its start, after a failed call and for the note; the reply; the tools. */
  datatype TurnWorld = TurnWorld(
    top: nat, start: nat, failed: nat, left: nat,
    reply: Result<LlmReply, GatewayError>,
    execute: nat -> Executed)

  /** The run's texts: the repair nudge and the note for a number of turns left. */
  datatype Texts = Texts(nudge: nat -> string, note: nat -> string)

  /** `replayChars` sizes replayed blocks; `conclude` reads a final answer against the evidence, if it is one. */
  datatype Setup<!S> = Setup(
    goal: string, frame: Frame, budget: LoopBudget, tools: Tools, texts: Texts,
    replayChars: seq<Value> -> nat, conclude: (string, seq<ToolEvidence>) -> Option<S>)

  datatype FinalReason = ByBudget | ByDeadline

  /** One gateway call: what was sent and, once the turn is over, how it counted. */
  datatype Row = Row(
    turn: nat,
    turnBudget: nat,
    finalReason: Option<FinalReason>,
    history: seq<HistoryEntry>,
    sent: seq<ChatMessage>,
    dispatched: nat,
    searches: nat,
    success: bool,
    failed: bool,
    consecutive: nat,
    failuresUsed: nat)

  const KNOWN_TOOLS := ["search", "fetch"]

  /** How every repair message starts. */
  const REPAIR_OPENING := "Your last reply"
  const REPAIR_REASON := " had no tool call and no answer text."

  // ----- What every run keeps -----

  function Searches(log: seq<Row>): nat {
    if log == [] then 0 else Searches(log[..|log| - 1]) + log[|log| - 1].searches
  }

  function Consecutive(log: seq<Row>): nat {
    if log == [] then 0 else log[|log| - 1].consecutive
  }

  function FailuresUsed(log: seq<Row>): nat {
    if log == [] then 0 else log[|log| - 1].failuresUsed
  }

  /** A stored turn as the loop stores it: its results answer its calls, and a repair opens in one fixed way. */
  predicate Stored(entry: HistoryEntry) {
    && Answers(entry)
    && (entry.TextTurn? ==> REPAIR_OPENING <= entry.observation)
  }

  predicate AllStored(history: seq<HistoryEntry>) {
    forall i :: 0 <= i < |history| ==> Stored(history[i])
  }

  /**
   The request of a row, given the rows before it: the turn is within the budget of the searches so far, and the
   messages carry a history one stored turn longer than the last request's.
   */
  predicate Requested(
    frame: Frame, budget: LoopBudget, earlier: seq<Row>, turn: nat, turnBudget: nat, finalReason: Option<FinalReason>,
    history: seq<HistoryEntry>, sent: seq<ChatMessage>)
  {
    && turn == |earlier| + 1 <= turnBudget == BudgetFor(budget, Searches(earlier))
    && (turn == turnBudget <==> finalReason == Some(ByBudget))
    && |history| == |earlier| && AllStored(history)
    && (earlier != [] ==> history[..|earlier| - 1] == earlier[|earlier| - 1].history)
    && sent == Assembled(frame, history)
  }

  /**
   How a row counts: on a final turn no tool runs, a success resets the repair counter, a failure turn without one
   raises it, and every failure turn is counted.
   */
  predicate Counted(earlier: seq<Row>, row: Row) {
    && (row.finalReason.Some? ==> row.dispatched == 0)
    && (row.dispatched == 0 ==> row.searches == 0 && !row.success)
    && (row.searches > 0 ==> row.success)
    && row.consecutive
       == (if row.success then 0 else if row.failed then Consecutive(earlier) + 1 else Consecutive(earlier))
    && row.failuresUsed == FailuresUsed(earlier) + (if row.failed then 1 else 0)
  }

  predicate RowOk(frame: Frame, budget: LoopBudget, earlier: seq<Row>, row: Row) {
    && Requested(frame, budget, earlier, row.turn, row.turnBudget, row.finalReason, row.history, row.sent)
    && Counted(earlier, row)
  }

  /** The run may go on after these rows. */
  predicate MayGoOn(budget: LoopBudget, log: seq<Row>) {
    log != [] ==>
      var last := log[|log| - 1];
      last.finalReason.None? && (last.success || last.failed) && last.consecutive <= budget.maxRepairs as int
  }

  predicate LogOk(frame: Frame, budget: LoopBudget, log: seq<Row>) {
    log == [] ||
    (var earlier := log[..|log| - 1];
     LogOk(frame, budget, earlier) && MayGoOn(budget, earlier) && RowOk(frame, budget, earlier, log[|log| - 1]))
  }

  lemma LogSnoc(frame: Frame, budget: LoopBudget, log: seq<Row>, row: Row)
    requires LogOk(frame, budget, log) && MayGoOn(budget, log) && RowOk(frame, budget, log, row)
    ensures LogOk(frame, budget, log + [row])
    ensures Searches(log + [row]) == Searches(log) + row.searches
    ensures Consecutive(log + [row]) == row.consecutive && FailuresUsed(log + [row]) == row.failuresUsed
  {
    assert (log + [row])[..|log|] == log;
  }

  /** What a run may start with. */
  predicate Startable<S>(setup: Setup<S>) {
    && !IsBlank(setup.goal)
    && (forall i :: 0 <= i < |setup.tools.allowed| ==> setup.tools.allowed[i] in KNOWN_TOOLS)
    && 1 <= setup.budget.maxTurns <= setup.budget.maxTurnsCap
    && setup.budget.maxContextChars >= 1
  }

  /** How a run's end agrees with its log. */
  predicate EndsRight<S>(
    budget: LoopBudget, world: nat -> TurnWorld, log: seq<Row>, result: Result<RunReport<S>, LoopError>)
  {
    match result
    case Ok(report) =>
      log != [] &&
      var last := log[|log| - 1];
      && report.turnsUsed == |log| && report.turnBudget == last.turnBudget
      && report.failuresUsed == last.failuresUsed && !last.success && !last.failed
    case Err(BudgetExhausted(turns)) =>
      log != [] && turns == |log| == log[|log| - 1].turnBudget == BudgetFor(budget, Searches(log))
    case Err(DeadlineExceeded(turns)) => turns == |log| && budget.deadline.Some?
    case Err(Gateway(error)) => log != [] && world(|log|).reply == Err(error)
    case Err(NoStart(_)) => log == [] || (|log| == 1 && world(1).reply == Err(MissingApiKey))
    case Err(_) =>
      log != [] && log[|log| - 1].failed && log[|log| - 1].consecutive == budget.maxRepairs as int + 1
  }

  // ----- The loop -----

  function Annotated(results: seq<ToolMessage>, note: string): seq<ToolMessage> {
    if results == [] then results
    else
      var n := |results| - 1;
      results[..n] + [results[n].(content := results[n].content + note)]
  }

  /** The turns-left note rides on the newest result; ids stay. */
  method Annotate(results: seq<ToolMessage>, note: string) returns (annotated: seq<ToolMessage>)
    ensures ResultIds(annotated) == ResultIds(results)
    ensures annotated == Annotated(results, note)
  {
    annotated := results;
    if results != [] {
      var n := |results| - 1;
      var last := results[n].(content := results[n].content + note);
      annotated := results[..n] + [last];
      assert results == results[..n] + [results[n]];
      ResultIdsAppend(results[..n], [last]);
      ResultIdsAppend(results[..n], [results[n]]);
    }
  }

  /** Turns left after `turn`, as the model is told. */
  function TurnsLeft(budget: LoopBudget, now: nat, turnBudget: nat, turn: nat): nat {
    if InFinalReserve(budget, now) then 1 else Max(turnBudget - turn, 0)
  }

  method PreFlight<S>(setup: Setup<S>) returns (error: Option<LoopError>)
    ensures error.None? <==> Startable(setup)
    ensures error.Some? ==> error.value.NoStart?
  {
    if IsBlank(setup.goal) {
      return Some(NoStart("research goal is empty"));
    }
    for i := 0 to |setup.tools.allowed|
      invariant forall j :: 0 <= j < i ==> setup.tools.allowed[j] in KNOWN_TOOLS
    {
      if setup.tools.allowed[i] !in KNOWN_TOOLS {
        return Some(NoStart("unknown tool: " + setup.tools.allowed[i]));
      }
    }
    if setup.budget.maxTurns < 1 {
      return Some(NoStart("max_turns must be >= 1"));
    }
    if setup.budget.maxTurnsCap < setup.budget.maxTurns {
      return Some(NoStart("max_turns_cap must be >= max_turns"));
    }
    if setup.budget.maxContextChars < 1 {
      return Some(NoStart("max_context_chars must be >= 1"));
    }
    error := None;
  }

  /** A turn with a call has a success or a failure. */
  lemma SomeCallIsJudged(tools: Tools, turn: nat, execute: nat -> Executed, calls: seq<RequestedToolCall>)
    requires calls != []
    ensures var outcome := OutcomeOf(tools, turn, execute, calls, |calls|);
            && (outcome.failure.Some? || outcome.hadSuccess)
            && (outcome.successfulSearches > 0 ==> outcome.hadSuccess)
  {
    SuccessIsSomeCalls(tools, turn, execute, calls, |calls|);
    LastFailureWins(tools, turn, execute, calls, |calls|);
    CapHolds(tools, turn, execute, calls, |calls|);
    EachCallIsJudged(tools, turn, execute, 0, calls[0]);
    hide OutcomeOf, EffectOf;
    assert Succeeds(tools, turn, execute, calls, 0) || Fails(tools, turn, execute, calls, 0);
  }

  /** The error of a run whose gateway call failed. */
  function CallFailed(budget: LoopBudget, turn: nat, now: TurnWorld): LoopError
    requires now.reply.Err?
  {
    if now.reply.error == MissingApiKey && turn == 1 then NoStart("GATEWAY_API_KEY is not set")
    else if now.reply.error == Timeout && DeadlinePassed(budget, now.failed) then DeadlineExceeded(turn)
    else Gateway(now.reply.error)
  }

  // ----- What a run does, exactly -----

  /** The calls of a turn's reply, ids resolved. */
  function CallsAt(world: nat -> TurnWorld, t: nat): seq<RequestedToolCall> {
    if world(t).reply.Ok? then Resolved(t, world(t).reply.value.toolCalls, 0) else []
  }

  function OutcomeAt<S>(setup: Setup<S>, world: nat -> TurnWorld, t: nat): TurnOutcome {
    OutcomeOf(setup.tools, t, world(t).execute, CallsAt(world, t), |CallsAt(world, t)|)
  }

  /** What the turns with tools brought in. */
  datatype Gleaned = Gleaned(evidence: seq<ToolEvidence>, searchBlocked: Option<string>, hadSearchHits: bool)

  function GleanedBy<S>(setup: Setup<S>, world: nat -> TurnWorld, log: seq<Row>): Gleaned {
    if log == [] then Gleaned([], None, false)
    else
      var earlier := GleanedBy(setup, world, log[..|log| - 1]);
      if log[|log| - 1].dispatched == 0 then earlier
      else
        var outcome := OutcomeAt(setup, world, |log|);
        Gleaned(
          earlier.evidence + outcome.evidence,
          if outcome.searchBlocked.Some? then outcome.searchBlocked else earlier.searchBlocked,
          earlier.hadSearchHits || outcome.hadSearchHits)
  }

  /** The stored form of the last turn of the log: its calls with their results, or its text with a repair. */
  function EntryAfter<S>(setup: Setup<S>, world: nat -> TurnWorld, log: seq<Row>): HistoryEntry
    requires log != [] && world(|log|).reply.Ok?
  {
    var row, now, reply := log[|log| - 1], world(|log|), world(|log|).reply.value;
    if row.dispatched == 0 then
      var left := TurnsLeft(setup.budget, now.left, row.turnBudget, |log|);
      TextTurn(reply.output, REPAIR_OPENING + (REPAIR_REASON + setup.texts.nudge(left)))
    else
      var left := TurnsLeft(setup.budget, now.left, BudgetFor(setup.budget, Searches(log)), |log|);
      ToolTurn(reply.output, CallsAt(world, |log|),
        Annotated(OutcomeAt(setup, world, |log|).results, setup.texts.note(left)),
        ReplayBlocks(reply.replay, setup.replayChars(reply.replay)))
  }

  function HistoryAfter<S>(setup: Setup<S>, world: nat -> TurnWorld, log: seq<Row>): seq<HistoryEntry> {
    if log == [] || world(|log|).reply.Err? then []
    else log[|log| - 1].history + [EntryAfter(setup, world, log)]
  }

  /** The row of the next turn as its request goes out. */
  function SentRow<S>(setup: Setup<S>, world: nat -> TurnWorld, log: seq<Row>): Row {
    var turn, turnBudget := |log| + 1, BudgetFor(setup.budget, Searches(log));
    var history := HistoryAfter(setup, world, log);
    var finalReason :=
      if turn >= turnBudget then Some(ByBudget)
      else if InFinalReserve(setup.budget, world(turn).start) then Some(ByDeadline)
      else None;
    Row(turn, turnBudget, finalReason, history, Assembled(setup.frame, history), 0, 0, false, false,
      Consecutive(log), FailuresUsed(log))
  }

  /** The answer a reply gives: only one without tool calls can. */
  function AnswerAt<S>(setup: Setup<S>, world: nat -> TurnWorld, log: seq<Row>, reply: LlmReply): Option<S> {
    if reply.toolCalls == [] then setup.conclude(reply.output, GleanedBy(setup, world, log).evidence) else None
  }

  predicate Dispatches(sent: Row, reply: LlmReply) {
    reply.toolCalls != [] && sent.finalReason.None?
  }

  function Repaired(sent: Row): Row {
    sent.(failed := true, consecutive := sent.consecutive + 1, failuresUsed := sent.failuresUsed + 1)
  }

  function Used(sent: Row, dispatched: nat, outcome: TurnOutcome): Row {
    var failed := outcome.failure.Some?;
    sent.(dispatched := dispatched, searches := outcome.successfulSearches,
      success := outcome.hadSuccess, failed := failed,
      consecutive :=
        if outcome.hadSuccess then 0 else if failed then sent.consecutive + 1 else sent.consecutive,
      failuresUsed := sent.failuresUsed + if failed then 1 else 0)
  }

  /** The row of the next turn once it is over. */
  function NextRow<S>(setup: Setup<S>, world: nat -> TurnWorld, log: seq<Row>): Row {
    var sent, t := SentRow(setup, world, log), |log| + 1;
    match world(t).reply
    case Err(_) => sent
    case Ok(reply) =>
      if Dispatches(sent, reply) then Used(sent, |reply.toolCalls|, OutcomeAt(setup, world, t))
      else if AnswerAt(setup, world, log, reply).Some? then sent
      else Repaired(sent)
  }

  /** A log is the turns of the run and nothing else. */
  ghost predicate Follows<S>(setup: Setup<S>, world: nat -> TurnWorld, log: seq<Row>) {
    log == [] ||
    (Follows(setup, world, log[..|log| - 1]) && log[|log| - 1] == NextRow(setup, world, log[..|log| - 1]))
  }

  /** How a run ends with the last turn of its log. */
  function EndOf<S>(setup: Setup<S>, world: nat -> TurnWorld, log: seq<Row>): Result<RunReport<S>, LoopError>
    requires log != []
  {
    var earlier, row, t := log[..|log| - 1], log[|log| - 1], |log|;
    match world(t).reply
    case Err(_) => Err(CallFailed(setup.budget, t, world(t)))
    case Ok(reply) =>
      if row.dispatched > 0 then
        var outcome := OutcomeAt(setup, world, t);
        Err(if outcome.failure == Some(DispatchFailure) then InvalidToolCall(outcome.failureReason)
            else ToolFailed(outcome.failureReason))
      else
        match AnswerAt(setup, world, earlier, reply)
        case Some(synthesis) =>
          var gleaned := GleanedBy(setup, world, earlier);
          Ok(RunReport(synthesis, t, row.turnBudget, row.failuresUsed, gleaned.evidence, gleaned.searchBlocked,
               gleaned.hadSearchHits))
        case None =>
          Err(if row.consecutive > setup.budget.maxRepairs as int then InvalidToolCall("empty answer")
              else if InFinalReserve(setup.budget, world(t).start) then DeadlineExceeded(t)
              else BudgetExhausted(t))
  }

  /** One tool turn: the entry to store, the outcome and the searches so far. */
  method ToolTurnOf<S>(setup: Setup<S>, turn: u32, world: nat -> TurnWorld, reply: LlmReply, searches: u32)
    returns (entry: HistoryEntry, outcome: TurnOutcome, total: u32)
    requires world(turn as nat).reply == Ok(reply) && reply.toolCalls != []
    ensures Stored(entry) && outcome == OutcomeAt(setup, world, turn as nat)
    ensures total == SaturatingAdd(searches, Min(outcome.successfulSearches, U32_MAX) as u32)
    ensures var left := TurnsLeft(
              setup.budget, world(turn as nat).left, TurnBudget(setup.budget, total) as nat, turn as nat);
            entry == ToolTurn(reply.output, CallsAt(world, turn as nat),
                       Annotated(outcome.results, setup.texts.note(left)),
                       ReplayBlocks(reply.replay, setup.replayChars(reply.replay)))
    ensures outcome.successfulSearches > 0 ==> outcome.hadSuccess
    ensures outcome.failure.Some? || outcome.hadSuccess
  {
    hide OutcomeOf, Resolved, InFinalReserve, TurnBudget, Annotated;
    var now := world(turn as nat);
    ghost var execute := now.execute;
    var calls := ResolveCallIds(turn as nat, reply.toolCalls);
    ResolvingIsIdempotent(turn as nat, reply.toolCalls, 0, turn as nat);
    calls, outcome := DispatchTurn(setup.tools, turn as nat, now.execute, calls);
    SomeCallIsJudged(setup.tools, turn as nat, execute, calls);
    OneResultPerCall(setup.tools, turn as nat, execute, calls, |calls|);
    assert calls[..|calls|] == calls;
    total := SaturatingAdd(searches, Min(outcome.successfulSearches, U32_MAX) as u32);
    var left := TurnsLeft(setup.budget, now.left, TurnBudget(setup.budget, total) as nat, turn as nat);
    var results := Annotate(outcome.results, setup.texts.note(left));
    entry := ToolTurn(reply.output, calls, results, ReplayBlocks(reply.replay, setup.replayChars(reply.replay)));
  }

  /** What the loop carries from turn to turn. */
  datatype State = State(
    history: seq<HistoryEntry>,
    evidence: seq<ToolEvidence>,
    consecutive: u32,
    failuresUsed: u32,
    searches: u32,
    turn: u32,
    searchBlocked: Option<string>,
    hadSearchHits: bool)

  /** Between turns the counters tell the log, the repairs are within their limit and a turn is left. */
  predicate Agrees(frame: Frame, budget: LoopBudget, log: seq<Row>, state: State) {
    && LogOk(frame, budget, log) && MayGoOn(budget, log)
    && |log| == |state.history| == state.turn as int && AllStored(state.history)
    && (log != [] ==> state.history[..|log| - 1] == log[|log| - 1].history)
    && state.consecutive as int == Consecutive(log) && state.failuresUsed as int == FailuresUsed(log)
    && state.consecutive <= state.failuresUsed <= state.turn
    && state.searches as int == Min(Searches(log), U32_MAX)
    && state.turn as int < BudgetFor(budget, Searches(log)) <= budget.maxTurnsCap as int
  }

  /** The rest of the state is what the log says happened. */
  ghost predicate Tracks<S>(setup: Setup<S>, world: nat -> TurnWorld, log: seq<Row>, state: State) {
    && Follows(setup, world, log)
    && state.history == HistoryAfter(setup, world, log)
    && Gleaned(state.evidence, state.searchBlocked, state.hadSearchHits) == GleanedBy(setup, world, log)
  }

  lemma FollowsSnoc<S>(setup: Setup<S>, world: nat -> TurnWorld, log: seq<Row>)
    requires Follows(setup, world, log)
    ensures Follows(setup, world, log + [NextRow(setup, world, log)])
  {
    assert (log + [NextRow(setup, world, log)])[..|log|] == log;
    hide NextRow;
  }

  lemma GleanedSnoc<S>(setup: Setup<S>, world: nat -> TurnWorld, log: seq<Row>, row: Row)
    ensures var earlier, outcome := GleanedBy(setup, world, log), OutcomeAt(setup, world, |log| + 1);
            GleanedBy(setup, world, log + [row])
            == if row.dispatched == 0 then earlier
               else
                 Gleaned(earlier.evidence + outcome.evidence,
                   if outcome.searchBlocked.Some? then outcome.searchBlocked else earlier.searchBlocked,
                   earlier.hadSearchHits || outcome.hadSearchHits)
  {
    assert (log + [row])[..|log|] == log;
    hide OutcomeAt;
  }

  lemma HistorySnoc<S>(setup: Setup<S>, world: nat -> TurnWorld, log: seq<Row>)
    requires world(|log| + 1).reply.Ok?
    ensures var grown := log + [NextRow(setup, world, log)];
            HistoryAfter(setup, world, grown) == HistoryAfter(setup, world, log) + [EntryAfter(setup, world, grown)]
  {
    NextCarriesHistory(setup, world, log);
    hide NextRow, EntryAfter;
    var grown := log + [NextRow(setup, world, log)];
    assert grown[|log|] == NextRow(setup, world, log);
  }

  lemma NextCarriesHistory<S>(setup: Setup<S>, world: nat -> TurnWorld, log: seq<Row>)
    ensures NextRow(setup, world, log).history == HistoryAfter(setup, world, log)
  {
    hide HistoryAfter, OutcomeAt, AnswerAt, Assembled, BudgetFor, Searches;
  }

  /** What a turn with tools leaves in the state besides counters. */
  predicate Gains(state: State, next: State, dispatched: nat, outcome: TurnOutcome) {
    && (dispatched == 0 ==>
          next.evidence == state.evidence && next.searchBlocked == state.searchBlocked
          && next.hadSearchHits == state.hadSearchHits)
    && (dispatched > 0 ==>
          && next.evidence == state.evidence + outcome.evidence
          && next.searchBlocked == (if outcome.searchBlocked.Some? then outcome.searchBlocked else state.searchBlocked)
          && next.hadSearchHits == (state.hadSearchHits || outcome.hadSearchHits))
  }

  /** After a turn the run goes on from, the state still is what the log says. */
  lemma TracksAfter<S>(setup: Setup<S>, world: nat -> TurnWorld, log: seq<Row>, state: State, next: State)
    requires Tracks(setup, world, log, state) && world(|log| + 1).reply.Ok?
    requires next.history == state.history + [EntryAfter(setup, world, log + [NextRow(setup, world, log)])]
    requires Gains(state, next, NextRow(setup, world, log).dispatched, OutcomeAt(setup, world, |log| + 1))
    ensures Tracks(setup, world, log + [NextRow(setup, world, log)], next)
  {
    hide NextRow, OutcomeAt, EntryAfter, Follows, HistoryAfter, GleanedBy;
    FollowsSnoc(setup, world, log);
    GleanedSnoc(setup, world, log, NextRow(setup, world, log));
    HistorySnoc(setup, world, log);
  }

  lemma CountersAreSmall(frame: Frame, budget: LoopBudget, log: seq<Row>, state: State)
    requires Agrees(frame, budget, log, state)
    ensures MayGoOn(budget, log) && LogOk(frame, budget, log)
    ensures |log| == state.turn as int < budget.maxTurnsCap as int
    ensures state.consecutive <= budget.maxRepairs && state.consecutive <= state.failuresUsed <= state.turn
    ensures state.consecutive as int == Consecutive(log) && state.failuresUsed as int == FailuresUsed(log)
    ensures state.searches as int == Min(Searches(log), U32_MAX)
  {
  }

  /** The two ends a failed last row can have besides the budget's and the deadline's. */
  lemma RepairsSpent<S>(budget: LoopBudget, world: nat -> TurnWorld, log: seq<Row>, row: Row, reason: string)
    requires row.failed && row.consecutive == budget.maxRepairs as int + 1
    ensures EndsRight<S>(budget, world, log + [row], Err(InvalidToolCall(reason)))
    ensures EndsRight<S>(budget, world, log + [row], Err(ToolFailed(reason)))
  {
  }

  /** A row after which the run goes on leaves the counters in agreement. */
  lemma AgreesAfter(
    frame: Frame, budget: LoopBudget, log: seq<Row>, state: State, row: Row, entry: HistoryEntry, next: State)
    requires Agrees(frame, budget, log, state) && RowOk(frame, budget, log, row) && row.history == state.history
    requires row.finalReason.None? && (row.success || row.failed) && row.consecutive <= budget.maxRepairs as int
    requires Stored(entry) && budget.maxTurns <= budget.maxTurnsCap
    requires next.history == state.history + [entry] && next.turn as int == row.turn
    requires next.consecutive as int == row.consecutive && next.failuresUsed as int == row.failuresUsed
    requires next.searches as int == Min(Min(Searches(log), U32_MAX) + row.searches, U32_MAX)
    ensures Agrees(frame, budget, log + [row], next)
  {
    hide LogOk, Searches, Consecutive, FailuresUsed, BudgetFor, Stored, Assembled, RowOk, AllStored;
    LogSnoc(frame, budget, log, row);
    BudgetsGrow(budget, Searches(log), Searches(log + [row]));
    RowLeavesRoom(frame, budget, log, row);
    StoredSnoc(state.history, entry);
    var grown := log + [row];
    assert grown[|grown| - 1] == row && next.history[..|grown| - 1] == state.history;
  }

  lemma StoredSnoc(history: seq<HistoryEntry>, entry: HistoryEntry)
    requires AllStored(history) && Stored(entry)
    ensures AllStored(history + [entry])
  {
    hide Stored;
    var grown := history + [entry];
    assert forall i :: 0 <= i < |grown| ==> grown[i] == if i < |history| then history[i] else entry;
  }

  lemma RowLeavesRoom(frame: Frame, budget: LoopBudget, log: seq<Row>, row: Row)
    requires RowOk(frame, budget, log, row) && row.finalReason.None?
    ensures row.turn == |log| + 1 < BudgetFor(budget, Searches(log))
    ensures Consecutive(log) <= FailuresUsed(log) <= |log| && (row.success || row.failed) ==>
              row.consecutive <= row.failuresUsed <= |log| + 1
  {
    hide Searches, Consecutive, FailuresUsed, BudgetFor, AllStored, Assembled;
  }

  /** The request of the next turn, before anything of it counts. */
  method Send<S>(setup: Setup<S>, world: nat -> TurnWorld, state: State, ghost log: seq<Row>)
    returns (row: Row, turnBudget: u32, deadlineFinal: bool)
    requires Agrees(setup.frame, setup.budget, log, state) && Tracks(setup, world, log, state)
    ensures row == SentRow(setup, world, log)
    ensures RowOk(setup.frame, setup.budget, log, row) && row.history == state.history
    ensures row.turn == state.turn as int + 1 <= row.turnBudget == turnBudget as int <= setup.budget.maxTurnsCap as int
    ensures row.dispatched == 0 && !row.success && !row.failed && row.searches == 0
    ensures row.consecutive == state.consecutive as int && row.failuresUsed == state.failuresUsed as int
    ensures row.finalReason.Some? <==> row.turn == row.turnBudget || deadlineFinal
    ensures deadlineFinal == InFinalReserve(setup.budget, world(row.turn).start)
    ensures deadlineFinal ==> setup.budget.deadline.Some?
  {
    hide LogOk, Searches, Consecutive, FailuresUsed, BudgetFor, AllStored, TurnBudget, HistoryAfter, GleanedBy, Follows;
    SaturationNeverShows(setup.budget, Searches(log));
    turnBudget := TurnBudget(setup.budget, state.searches);
    var turn := state.turn + 1;
    deadlineFinal := InFinalReserve(setup.budget, world(turn as nat).start);
    var finalReason :=
      if turn >= turnBudget then Some(ByBudget) else if deadlineFinal then Some(ByDeadline) else None;
    var messages, dropped := Assemble(setup.frame, state.history);
    row := Row(turn as nat, turnBudget as nat, finalReason, state.history, messages, 0, 0, false, false,
             state.consecutive as nat, state.failuresUsed as nat);
  }

  /** The sent row, once its turn failed without a tool running. */
  lemma FailedRow(frame: Frame, budget: LoopBudget, log: seq<Row>, sent: Row)
    requires RowOk(frame, budget, log, sent) && sent.dispatched == 0 && !sent.success && !sent.failed
             && sent.searches == 0
    ensures var row := Repaired(sent);
            && RowOk(frame, budget, log, row) && row.failed && row.searches == 0 && row.dispatched == 0
            && row.history == sent.history && row.turn == sent.turn && row.turnBudget == sent.turnBudget
            && row.finalReason == sent.finalReason
            && row.consecutive == sent.consecutive + 1 && row.failuresUsed == sent.failuresUsed + 1
  {
    hide Requested;
  }

  /** The sent row, once its tools ran. */
  lemma UsedRow(
    frame: Frame, budget: LoopBudget, log: seq<Row>, sent: Row, dispatched: nat, searches: nat,
    success: bool, failed: bool)
    requires RowOk(frame, budget, log, sent) && sent.finalReason.None? && dispatched > 0
    requires searches > 0 ==> success
    ensures RowOk(frame, budget, log,
              sent.(dispatched := dispatched, searches := searches, success := success, failed := failed,
                    consecutive := if success then 0 else if failed then Consecutive(log) + 1 else Consecutive(log),
                    failuresUsed := FailuresUsed(log) + if failed then 1 else 0))
  {
    hide Requested, Consecutive, FailuresUsed;
  }

  lemma BudgetReached(frame: Frame, budget: LoopBudget, log: seq<Row>, sent: Row)
    requires RowOk(frame, budget, log, sent) && sent.turn == sent.turnBudget
    ensures |log| + 1 == sent.turnBudget == BudgetFor(budget, Searches(log))
  {
    hide BudgetFor, Searches, Assembled, AllStored;
  }

  lemma AnswerEndsIt<S>(
    budget: LoopBudget, world: nat -> TurnWorld, log: seq<Row>, sent: Row, report: RunReport<S>)
    requires !sent.success && !sent.failed && report.turnsUsed == |log| + 1
    requires report.turnBudget == sent.turnBudget && report.failuresUsed == sent.failuresUsed
    ensures EndsRight(budget, world, log + [sent], Ok(report))
  {
  }

  lemma NoAnswer<S>(
    frame: Frame, budget: LoopBudget, world: nat -> TurnWorld, log: seq<Row>, sent: Row, row: Row, deadlineFinal: bool)
    requires RowOk(frame, budget, log, sent) && row.turnBudget == sent.turnBudget && row.searches == 0
    requires sent.turn == sent.turnBudget || deadlineFinal
    requires deadlineFinal ==> budget.deadline.Some?
    ensures EndsRight<S>(budget, world, log + [row],
              Err(if deadlineFinal then DeadlineExceeded(|log| + 1) else BudgetExhausted(|log| + 1)))
  {
    if !deadlineFinal {
      BudgetReached(frame, budget, log, sent);
      assert (log + [row])[..|log|] == log && Searches(log + [row]) == Searches(log);
    }
    hide RowOk, BudgetFor, Searches;
  }

  lemma RepairIsStored(output: string, nudge: string)
    ensures Stored(TextTurn(output, REPAIR_OPENING + nudge))
  {
  }

  lemma SearchesFit(log: seq<Row>)
    ensures Min(Min(Searches(log), U32_MAX) + 0, U32_MAX) == Min(Searches(log), U32_MAX)
  {
    hide Searches;
  }

  lemma TotalFits(log: seq<Row>, searches: u32, more: nat)
    requires searches as int == Min(Searches(log), U32_MAX)
    ensures SaturatingAdd(searches, Min(more, U32_MAX) as u32) as int
         == Min(Min(Searches(log), U32_MAX) + more, U32_MAX)
  {
    hide Searches;
  }

  // ----- Each way a turn can go -----

  lemma WhenFailed<S>(setup: Setup<S>, world: nat -> TurnWorld, log: seq<Row>)
    requires world(|log| + 1).reply.Err?
    ensures NextRow(setup, world, log) == SentRow(setup, world, log)
    ensures EndOf(setup, world, log + [SentRow(setup, world, log)])
         == Err(CallFailed(setup.budget, |log| + 1, world(|log| + 1)))
  {
    hide SentRow, CallFailed;
  }

  lemma WhenAnswered<S>(setup: Setup<S>, world: nat -> TurnWorld, log: seq<Row>, reply: LlmReply)
    requires world(|log| + 1).reply == Ok(reply) && !Dispatches(SentRow(setup, world, log), reply)
    requires AnswerAt(setup, world, log, reply).Some?
    ensures var sent, gleaned := SentRow(setup, world, log), GleanedBy(setup, world, log);
            && NextRow(setup, world, log) == sent
            && EndOf(setup, world, log + [sent])
               == Ok(RunReport(AnswerAt(setup, world, log, reply).value, |log| + 1, sent.turnBudget, sent.failuresUsed,
                     gleaned.evidence, gleaned.searchBlocked, gleaned.hadSearchHits))
  {
    var grown := log + [SentRow(setup, world, log)];
    assert grown[..|grown| - 1] == log;
    hide GleanedBy, HistoryAfter, Assembled, AnswerAt, BudgetFor, Searches;
  }

  lemma RepairedNext<S>(setup: Setup<S>, world: nat -> TurnWorld, log: seq<Row>, reply: LlmReply)
    requires world(|log| + 1).reply == Ok(reply) && !Dispatches(SentRow(setup, world, log), reply)
    requires AnswerAt(setup, world, log, reply).None?
    ensures NextRow(setup, world, log) == Repaired(SentRow(setup, world, log))
  {
    hide SentRow, AnswerAt;
  }

  lemma WhenRepaired<S>(setup: Setup<S>, world: nat -> TurnWorld, log: seq<Row>, reply: LlmReply)
    requires world(|log| + 1).reply == Ok(reply) && !Dispatches(SentRow(setup, world, log), reply)
    requires AnswerAt(setup, world, log, reply).None?
    ensures var row, t := Repaired(SentRow(setup, world, log)), |log| + 1;
            && NextRow(setup, world, log) == row && row.dispatched == 0
            && EndOf(setup, world, log + [row])
               == Err(if row.consecutive > setup.budget.maxRepairs as int then InvalidToolCall("empty answer")
                      else if InFinalReserve(setup.budget, world(t).start) then DeadlineExceeded(t)
                      else BudgetExhausted(t))
            && EntryAfter(setup, world, log + [row])
               == (var left := TurnsLeft(setup.budget, world(t).left, row.turnBudget, t);
                   TextTurn(reply.output, REPAIR_OPENING + (REPAIR_REASON + setup.texts.nudge(left))))
  {
    var grown := log + [Repaired(SentRow(setup, world, log))];
    assert grown[..|grown| - 1] == log;
    hide GleanedBy, HistoryAfter, Assembled, AnswerAt, BudgetFor, Searches, InFinalReserve;
  }

  lemma WhenUsed<S>(setup: Setup<S>, world: nat -> TurnWorld, log: seq<Row>, reply: LlmReply)
    requires world(|log| + 1).reply == Ok(reply) && Dispatches(SentRow(setup, world, log), reply)
    ensures var row := Used(SentRow(setup, world, log), |reply.toolCalls|, OutcomeAt(setup, world, |log| + 1));
            NextRow(setup, world, log) == row && row.dispatched > 0
  {
    hide SentRow, OutcomeAt;
  }

  lemma UsedEnd<S>(setup: Setup<S>, world: nat -> TurnWorld, log: seq<Row>, reply: LlmReply, row: Row)
    requires world(|log| + 1).reply == Ok(reply) && row.dispatched > 0
    ensures var outcome := OutcomeAt(setup, world, |log| + 1);
            EndOf(setup, world, log + [row])
            == Err(if outcome.failure == Some(DispatchFailure) then InvalidToolCall(outcome.failureReason)
                   else ToolFailed(outcome.failureReason))
  {
    hide OutcomeAt;
  }

  lemma UsedEntry<S>(setup: Setup<S>, world: nat -> TurnWorld, log: seq<Row>, reply: LlmReply, row: Row)
    requires world(|log| + 1).reply == Ok(reply) && row.dispatched > 0
    ensures var outcome, t := OutcomeAt(setup, world, |log| + 1), |log| + 1;
            EntryAfter(setup, world, log + [row])
            == (var left := TurnsLeft(setup.budget, world(t).left, BudgetFor(setup.budget, Searches(log + [row])), t);
                ToolTurn(reply.output, CallsAt(world, t), Annotated(outcome.results, setup.texts.note(left)),
                  ReplayBlocks(reply.replay, setup.replayChars(reply.replay))))
  {
    hide OutcomeAt, CallsAt, BudgetFor, Searches, TurnsLeft, Annotated;
  }

  /** The loop's end, once a turn is over. */
  ghost predicate Ends<S>(
    setup: Setup<S>, world: nat -> TurnWorld, log: seq<Row>,
    result: Option<Result<RunReport<S>, LoopError>>, next: State)
  {
    && LogOk(setup.frame, setup.budget, log) && Follows(setup, world, log) && log != []
    && (result.Some? ==>
          EndsRight(setup.budget, world, log, result.value) && result.value == EndOf(setup, world, log))
    && (result.None? ==> Agrees(setup.frame, setup.budget, log, next) && Tracks(setup, world, log, next))
  }

  /** The run goes on after a repair: its text is stored and the counters taken over. */
  method GoOn<S>(
    setup: Setup<S>, world: nat -> TurnWorld, state: State, ghost log: seq<Row>,
    row: Row, output: string, nudge: string)
    returns (next: State)
    requires Agrees(setup.frame, setup.budget, log, state) && setup.budget.maxTurns <= setup.budget.maxTurnsCap
    requires Tracks(setup, world, log, state) && row == NextRow(setup, world, log) && world(|log| + 1).reply.Ok?
    requires RowOk(setup.frame, setup.budget, log, row) && row.history == state.history
    requires row.finalReason.None? && row.failed && row.consecutive <= setup.budget.maxRepairs as int
    requires row.dispatched == 0 && row.searches == 0 && row.turn == state.turn as int + 1 <= 0xFFFF_FFFF
    requires row.consecutive == state.consecutive as int + 1
             && row.failuresUsed == state.failuresUsed as int + 1 <= 0xFFFF_FFFF
    requires EntryAfter(setup, world, log + [row]) == TextTurn(output, REPAIR_OPENING + nudge)
    ensures Agrees(setup.frame, setup.budget, log + [row], next) && Tracks(setup, world, log + [row], next)
  {
    hide *;
    CountersAreSmall(setup.frame, setup.budget, log, state);
    var entry := TextTurn(output, REPAIR_OPENING + nudge);
    RepairIsStored(output, nudge);
    next := state.(history := state.history + [entry], consecutive := state.consecutive + 1,
                   failuresUsed := state.failuresUsed + 1, turn := state.turn + 1);
    SearchesFit(log);
    AgreesAfter(setup.frame, setup.budget, log, state, row, entry, next);
    NothingGained(state, next, OutcomeAt(setup, world, |log| + 1));
    TracksAfter(setup, world, log, state, next);
  }

  lemma NothingGained(state: State, next: State, outcome: TurnOutcome)
    requires next.evidence == state.evidence && next.searchBlocked == state.searchBlocked
    requires next.hadSearchHits == state.hadSearchHits
    ensures Gains(state, next, 0, outcome)
  {
  }

  lemma AllGained(state: State, next: State, dispatched: nat, outcome: TurnOutcome)
    requires dispatched > 0 && next.evidence == state.evidence + outcome.evidence
    requires next.searchBlocked == (if outcome.searchBlocked.Some? then outcome.searchBlocked else state.searchBlocked)
    requires next.hadSearchHits == (state.hadSearchHits || outcome.hadSearchHits)
    ensures Gains(state, next, dispatched, outcome)
  {
  }

  /** The end of a run that got no answer. */
  method Unanswered<S>(
    setup: Setup<S>, world: nat -> TurnWorld, ghost log: seq<Row>, sent: Row, row: Row, deadlineFinal: bool,
    ghost reply: LlmReply)
    returns (error: LoopError)
    requires RowOk(setup.frame, setup.budget, log, sent) && sent == SentRow(setup, world, log) && sent.turn == |log| + 1
    requires world(|log| + 1).reply == Ok(reply) && !Dispatches(sent, reply)
    requires AnswerAt(setup, world, log, reply).None? && row == Repaired(sent)
    requires row.turnBudget == sent.turnBudget && row.searches == 0 && row.failed
    requires row.consecutive <= setup.budget.maxRepairs as int + 1
    requires row.consecutive <= setup.budget.maxRepairs as int ==> sent.turn == sent.turnBudget || deadlineFinal
    requires deadlineFinal == InFinalReserve(setup.budget, world(|log| + 1).start)
    requires deadlineFinal ==> setup.budget.deadline.Some?
    ensures EndsRight<S>(setup.budget, world, log + [row], Err(error))
    ensures EndOf(setup, world, log + [row]) == Err(error)
  {
    hide *;
    WhenRepaired(setup, world, log, reply);
    if row.consecutive > setup.budget.maxRepairs as int {
      RepairsSpent<S>(setup.budget, world, log, row, "empty answer");
      error := InvalidToolCall("empty answer");
    } else {
      NoAnswer<S>(setup.frame, setup.budget, world, log, sent, row, deadlineFinal);
      error := if deadlineFinal then DeadlineExceeded(sent.turn) else BudgetExhausted(sent.turn);
    }
  }

  /** No answer: a repair turn, or the end of the run. */
  method Repair<S>(
    setup: Setup<S>, world: nat -> TurnWorld, state: State, log: seq<Row>, sent: Row, turnBudget: u32,
    deadlineFinal: bool, reply: LlmReply)
    returns (result: Option<Result<RunReport<S>, LoopError>>, next: State, grown: seq<Row>)
    requires Agrees(setup.frame, setup.budget, log, state) && setup.budget.maxTurns <= setup.budget.maxTurnsCap
    requires Tracks(setup, world, log, state) && sent == SentRow(setup, world, log)
    requires world(sent.turn).reply == Ok(reply) && !Dispatches(sent, reply)
    requires AnswerAt(setup, world, log, reply).None?
    requires RowOk(setup.frame, setup.budget, log, sent) && sent.history == state.history
    requires sent.turn == state.turn as int + 1 <= sent.turnBudget == turnBudget as int
    requires sent.dispatched == 0 && !sent.success && !sent.failed && sent.searches == 0
    requires sent.consecutive == state.consecutive as int && sent.failuresUsed == state.failuresUsed as int
    requires sent.finalReason.Some? <==> sent.turn == sent.turnBudget || deadlineFinal
    requires deadlineFinal == InFinalReserve(setup.budget, world(sent.turn).start)
    requires deadlineFinal ==> setup.budget.deadline.Some?
    ensures |grown| == |log| + 1 && Ends(setup, world, grown, result, next)
  {
    hide *;
    CountersAreSmall(setup.frame, setup.budget, log, state);
    TracksFollows(setup, world, log, state);
    RepairedNext(setup, world, log, reply);
    FailedRow(setup.frame, setup.budget, log, sent);
    var turn, row := state.turn as nat + 1, Repaired(sent);
    LogSnoc(setup.frame, setup.budget, log, row);
    FollowsSnoc(setup, world, log);
    grown, next := log + [row], state;
    if row.consecutive > setup.budget.maxRepairs as int || row.finalReason.Some? {
      var error := Unanswered(setup, world, log, sent, row, deadlineFinal, reply);
      result := Some(Err(error));
    } else {
      var left := TurnsLeft(setup.budget, world(turn).left, turnBudget as nat, turn);
      result := None;
      WhenRepaired(setup, world, log, reply);
      next := GoOn(setup, world, state, log, row, reply.output, REPAIR_REASON + setup.texts.nudge(left));
    }
    EndsIs(setup, world, grown, result, next);
  }

  /** A reply without tool calls, or any reply of a final turn: the answer, a repair, or the end. */
  method Conclude<S>(
    setup: Setup<S>, world: nat -> TurnWorld, state: State, log: seq<Row>, sent: Row, turnBudget: u32,
    deadlineFinal: bool, reply: LlmReply)
    returns (result: Option<Result<RunReport<S>, LoopError>>, next: State, grown: seq<Row>)
    requires Agrees(setup.frame, setup.budget, log, state) && setup.budget.maxTurns <= setup.budget.maxTurnsCap
    requires Tracks(setup, world, log, state) && sent == SentRow(setup, world, log)
    requires world(sent.turn).reply == Ok(reply) && !Dispatches(sent, reply)
    requires RowOk(setup.frame, setup.budget, log, sent) && sent.history == state.history
    requires sent.turn == state.turn as int + 1 <= sent.turnBudget == turnBudget as int
    requires sent.dispatched == 0 && !sent.success && !sent.failed && sent.searches == 0
    requires sent.consecutive == state.consecutive as int && sent.failuresUsed == state.failuresUsed as int
    requires sent.finalReason.Some? <==> sent.turn == sent.turnBudget || deadlineFinal
    requires deadlineFinal == InFinalReserve(setup.budget, world(sent.turn).start)
    requires deadlineFinal ==> setup.budget.deadline.Some?
    ensures |grown| == |log| + 1 && Ends(setup, world, grown, result, next)
  {
    hide *;
    CountersAreSmall(setup.frame, setup.budget, log, state);
    TracksFollows(setup, world, log, state);
    AnswerIs(setup, world, log, reply);
    var answer := if reply.toolCalls == [] then setup.conclude(reply.output, state.evidence) else None;
    if answer.Some? {
      WhenAnswered(setup, world, log, reply);
      LogSnoc(setup.frame, setup.budget, log, sent);
      FollowsSnoc(setup, world, log);
      grown, next := log + [sent], state;
      var report := RunReport(answer.value, state.turn as nat + 1, turnBudget as nat, state.failuresUsed as nat,
                      state.evidence, state.searchBlocked, state.hadSearchHits);
      AnswerEndsIt(setup.budget, world, log, sent, report);
      result := Some(Ok(report));
      EndsIs(setup, world, grown, result, next);
    } else {
      result, next, grown := Repair(setup, world, state, log, sent, turnBudget, deadlineFinal, reply);
    }
  }

  lemma TracksFollows<S>(setup: Setup<S>, world: nat -> TurnWorld, log: seq<Row>, state: State)
    requires Tracks(setup, world, log, state)
    ensures Follows(setup, world, log) && state.history == HistoryAfter(setup, world, log)
    ensures Gleaned(state.evidence, state.searchBlocked, state.hadSearchHits) == GleanedBy(setup, world, log)
  {
  }

  lemma AnswerIs<S>(setup: Setup<S>, world: nat -> TurnWorld, log: seq<Row>, reply: LlmReply)
    ensures AnswerAt(setup, world, log, reply)
         == if reply.toolCalls == [] then setup.conclude(reply.output, GleanedBy(setup, world, log).evidence) else None
  {
  }

  lemma EndsIs<S>(
    setup: Setup<S>, world: nat -> TurnWorld, log: seq<Row>,
    result: Option<Result<RunReport<S>, LoopError>>, next: State)
    requires LogOk(setup.frame, setup.budget, log) && Follows(setup, world, log) && log != []
    requires result.Some? ==>
               EndsRight(setup.budget, world, log, result.value) && result.value == EndOf(setup, world, log)
    requires result.None? ==> Agrees(setup.frame, setup.budget, log, next) && Tracks(setup, world, log, next)
    ensures Ends(setup, world, log, result, next)
  {
  }

  /** A turn with tool calls that is not final. */
  method UseTools<S>(setup: Setup<S>, world: nat -> TurnWorld, state: State, log: seq<Row>, sent: Row, reply: LlmReply)
    returns (result: Option<Result<RunReport<S>, LoopError>>, next: State, grown: seq<Row>)
    requires Agrees(setup.frame, setup.budget, log, state) && setup.budget.maxTurns <= setup.budget.maxTurnsCap
    requires Tracks(setup, world, log, state) && sent == SentRow(setup, world, log)
    requires world(sent.turn).reply == Ok(reply) && Dispatches(sent, reply)
    requires RowOk(setup.frame, setup.budget, log, sent) && sent.history == state.history
    requires sent.turn == state.turn as int + 1 <= setup.budget.maxTurnsCap as int
    requires sent.consecutive == state.consecutive as int && sent.failuresUsed == state.failuresUsed as int
    ensures |grown| == |log| + 1 && Ends(setup, world, grown, result, next)
  {
    hide *;
    CountersAreSmall(setup.frame, setup.budget, log, state);
    TracksFollows(setup, world, log, state);
    WhenUsed(setup, world, log, reply);
    DispatchesIs(sent, reply);
    var turn := state.turn + 1;
    var entry, outcome, total := ToolTurnOf(setup, turn, world, reply, state.searches);
    UsedIs(sent, |reply.toolCalls|, outcome);
    UsedEnd(setup, world, log, reply, NextRow(setup, world, log));
    UsedEntry(setup, world, log, reply, NextRow(setup, world, log));
    var consecutive, failuresUsed := state.consecutive, state.failuresUsed;
    if outcome.hadSuccess {
      consecutive := 0;
    }
    if outcome.failure.Some? {
      if !outcome.hadSuccess {
        consecutive := consecutive + 1;
      }
      failuresUsed := failuresUsed + 1;
    }
    var row := sent.(dispatched := |reply.toolCalls|, searches := outcome.successfulSearches,
                     success := outcome.hadSuccess, failed := outcome.failure.Some?,
                     consecutive := consecutive as nat, failuresUsed := failuresUsed as nat);
    UsedRow(setup.frame, setup.budget, log, sent, |reply.toolCalls|, outcome.successfulSearches, outcome.hadSuccess,
      outcome.failure.Some?);
    LogSnoc(setup.frame, setup.budget, log, row);
    FollowsSnoc(setup, world, log);
    grown := log + [row];
    next := State(state.history + [entry], state.evidence + outcome.evidence, consecutive, failuresUsed, total, turn,
              if outcome.searchBlocked.Some? then outcome.searchBlocked else state.searchBlocked,
              state.hadSearchHits || outcome.hadSearchHits);
    result := None;
    if outcome.failure.Some? && consecutive > setup.budget.maxRepairs {
      RepairsSpent<S>(setup.budget, world, log, row, outcome.failureReason);
      result := Some(Err(
        if outcome.failure == Some(DispatchFailure) then InvalidToolCall(outcome.failureReason)
        else ToolFailed(outcome.failureReason)));
    } else {
      TotalFits(log, state.searches, outcome.successfulSearches);
      SearchesSaturate(log, grown, state.searches, outcome.successfulSearches, total);
      SaturationNeverShows(setup.budget, Searches(grown));
      AgreesAfter(setup.frame, setup.budget, log, state, row, entry, next);
      AllGained(state, next, row.dispatched, outcome);
      TracksAfter(setup, world, log, state, next);
    }
    EndsIs(setup, world, grown, result, next);
  }

  lemma DispatchesIs(sent: Row, reply: LlmReply)
    ensures Dispatches(sent, reply) <==> reply.toolCalls != [] && sent.finalReason.None?
  {
  }

  lemma UsedIs(sent: Row, dispatched: nat, outcome: TurnOutcome)
    ensures var failed := outcome.failure.Some?;
            Used(sent, dispatched, outcome)
            == sent.(dispatched := dispatched, searches := outcome.successfulSearches, success := outcome.hadSuccess,
                     failed := failed,
                     consecutive :=
                       if outcome.hadSuccess then 0 else if failed then sent.consecutive + 1 else sent.consecutive,
                     failuresUsed := sent.failuresUsed + if failed then 1 else 0)
  {
  }

  lemma SearchesSaturate(log: seq<Row>, grown: seq<Row>, searches: u32, more: nat, total: u32)
    requires total as int == Min(Min(Searches(log), U32_MAX) + more, U32_MAX) && Searches(grown) == Searches(log) + more
    ensures total as int == Min(Searches(grown), U32_MAX)
  {
    hide Searches;
  }

  /** A failed gateway call ends the run; its request is in the log. */
  method GiveUp<S>(setup: Setup<S>, world: nat -> TurnWorld, state: State, log: seq<Row>, sent: Row)
    returns (result: Result<RunReport<S>, LoopError>, grown: seq<Row>)
    requires Agrees(setup.frame, setup.budget, log, state) && Tracks(setup, world, log, state)
    requires world(sent.turn).reply.Err? && sent.turn == state.turn as int + 1
    requires RowOk(setup.frame, setup.budget, log, sent) && sent == SentRow(setup, world, log)
    ensures |grown| == |log| + 1 && Ends(setup, world, grown, Some(result), state)
  {
    hide *;
    CountersAreSmall(setup.frame, setup.budget, log, state);
    TracksFollows(setup, world, log, state);
    WhenFailed(setup, world, log);
    LogSnoc(setup.frame, setup.budget, log, sent);
    FollowsSnoc(setup, world, log);
    grown := log + [sent];
    result := Err(CallFailed(setup.budget, sent.turn, world(sent.turn)));
    FailureEnds<S>(setup.budget, world, log, sent);
    EndsIs(setup, world, grown, Some(result), state);
  }

  lemma FailureEnds<S>(budget: LoopBudget, world: nat -> TurnWorld, log: seq<Row>, sent: Row)
    requires world(|log| + 1).reply.Err?
    ensures EndsRight<S>(budget, world, log + [sent], Err(CallFailed(budget, |log| + 1, world(|log| + 1))))
  {
  }

  /**
   A whole run: the log is the turns of `Follows`, and the run ends with the last of them as `EndOf` says, or, when
   the deadline has passed before a further turn, right there.
   */
  method RunLoop<S>(setup: Setup<S>, world: nat -> TurnWorld)
    returns (result: Result<RunReport<S>, LoopError>, log: seq<Row>)
    ensures LogOk(setup.frame, setup.budget, log) && |log| <= setup.budget.maxTurnsCap as int
    ensures Follows(setup, world, log)
    ensures EndsRight(setup.budget, world, log, result)
    ensures !Startable(setup) ==> log == [] && result.Err? && result.error.NoStart?
    ensures Startable(setup) ==>
              || (log != [] && result == EndOf(setup, world, log))
              || (MayGoOn(setup.budget, log) && DeadlinePassed(setup.budget, world(|log| + 1).top)
                  && result == Err(DeadlineExceeded(|log|)))
  {
    log := [];
    var error := PreFlight(setup);
    if error.Some? {
      return Err(error.value), log;
    }
    var state := State([], [], 0, 0, 0, 0, None, false);
    BudgetsGrow(setup.budget, 0, 0);
    assert setup.budget.maxTurns <= setup.budget.maxTurnsCap;
    while true
      invariant Agrees(setup.frame, setup.budget, log, state) && Tracks(setup, world, log, state)
      decreases setup.budget.maxTurnsCap as int - state.turn as int
    {
      hide *;
      CountersAreSmall(setup.frame, setup.budget, log, state);
      TracksFollows(setup, world, log, state);
      if DeadlinePassed(setup.budget, world(state.turn as nat + 1).top) {
        OutOfTime<S>(setup.budget, world, log, world(state.turn as nat + 1).top);
        return Err(DeadlineExceeded(state.turn as nat)), log;
      }
      var sent, turnBudget, deadlineFinal := Send(setup, world, state, log);
      var over: Option<Result<RunReport<S>, LoopError>>;
      ghost var turn := state.turn;
      match world(state.turn as nat + 1).reply {
        case Err(_) =>
          var failed;
          failed, log := GiveUp(setup, world, state, log, sent);
          over := Some(failed);
        case Ok(reply) =>
          DispatchesIs(sent, reply);
          if reply.toolCalls == [] || sent.finalReason.Some? {
            over, state, log := Conclude(setup, world, state, log, sent, turnBudget, deadlineFinal, reply);
          } else {
            over, state, log := UseTools(setup, world, state, log, sent, reply);
          }
      }
      EndsMeans(setup, world, log, over, state);
      if over.Some? {
        return over.value, log;
      }
      CountersAreSmall(setup.frame, setup.budget, log, state);
    }
  }

  lemma EndsMeans<S>(
    setup: Setup<S>, world: nat -> TurnWorld, log: seq<Row>,
    result: Option<Result<RunReport<S>, LoopError>>, next: State)
    requires Ends(setup, world, log, result, next)
    ensures LogOk(setup.frame, setup.budget, log) && Follows(setup, world, log) && log != []
    ensures result.Some? ==>
              EndsRight(setup.budget, world, log, result.value) && result.value == EndOf(setup, world, log)
    ensures result.None? ==> Agrees(setup.frame, setup.budget, log, next) && Tracks(setup, world, log, next)
  {
  }

  lemma OutOfTime<S>(budget: LoopBudget, world: nat -> TurnWorld, log: seq<Row>, now: nat)
    requires DeadlinePassed(budget, now)
    ensures EndsRight<S>(budget, world, log, Err(DeadlineExceeded(|log|)))
  {
  }

  // ----- Whole runs -----

  /** Each row of a log is right for the rows before it, and the run could go on from there. */
  lemma {:induction false} RowsAreOk(frame: Frame, budget: LoopBudget, log: seq<Row>, i: nat)
    requires LogOk(frame, budget, log) && i < |log|
    ensures LogOk(frame, budget, log[..i]) && MayGoOn(budget, log[..i]) && RowOk(frame, budget, log[..i], log[i])
  {
    hide MayGoOn, RowOk;
    if i < |log| - 1 {
      RowsAreOk(frame, budget, log[..|log| - 1], i);
      assert log[..|log| - 1][..i] == log[..i];
    }
  }

  lemma {:induction false} SearchesGrow(log: seq<Row>, i: nat)
    requires i <= |log|
    ensures Searches(log[..i]) <= Searches(log)
    decreases |log|
  {
    if i == |log| {
      assert log[..i] == log;
    } else {
      SearchesGrow(log[..|log| - 1], i);
      assert log[..|log| - 1][..i] == log[..i];
    }
  }

  /** Turns count up within a budget that starts at the base, only grows, and never passes the cap. */
  lemma TurnsStayInBudget(frame: Frame, budget: LoopBudget, log: seq<Row>, i: nat, j: nat)
    requires LogOk(frame, budget, log) && i <= j < |log| && budget.maxTurns <= budget.maxTurnsCap
    ensures log[j].turn == j + 1 <= log[j].turnBudget
    ensures budget.maxTurns as int <= log[i].turnBudget <= log[j].turnBudget <= budget.maxTurnsCap as int
    ensures log[0].turnBudget == budget.maxTurns as int
  {
    hide LogOk, Searches, BudgetFor, MayGoOn, AllStored, Assembled;
    RowsAreOk(frame, budget, log, 0);
    RowsAreOk(frame, budget, log, i);
    RowsAreOk(frame, budget, log, j);
    SearchesGrow(log[..j], i);
    assert log[..j][..i] == log[..i] && log[..0] == [];
    NothingYet();
    BudgetsGrow(budget, Searches(log[..i]), Searches(log[..j]));
  }

  lemma NothingYet()
    ensures Searches([]) == 0 && Consecutive([]) == 0
  {
  }

  /** Between turns no turn was final, and the repair counter is within both its limit and the failures so far. */
  lemma BetweenTurns(frame: Frame, budget: LoopBudget, log: seq<Row>, i: nat)
    requires LogOk(frame, budget, log) && i < |log| - 1
    ensures log[i].finalReason.None? && log[i].turn < log[i].turnBudget
    ensures log[i].consecutive <= budget.maxRepairs as int
    ensures log[i].consecutive <= log[i].failuresUsed <= log[i].turn
  {
    RowsAreOk(frame, budget, log, i + 1);
    assert log[..i + 1][i] == log[i];
    RowsAreOk(frame, budget, log, i);
    CountersAreOrdered(frame, budget, log[..i + 1]);
    hide LogOk, Searches, BudgetFor, AllStored, Assembled, Counted;
  }

  lemma {:induction false} CountersAreOrdered(frame: Frame, budget: LoopBudget, log: seq<Row>)
    requires LogOk(frame, budget, log)
    ensures FailuresUsed(log) <= |log|
    ensures MayGoOn(budget, log) ==> Consecutive(log) <= FailuresUsed(log)
  {
    hide Requested;
    if log != [] {
      CountersAreOrdered(frame, budget, log[..|log| - 1]);
    }
  }

  lemma LastRowCounts(frame: Frame, budget: LoopBudget, log: seq<Row>)
    requires LogOk(frame, budget, log) && MayGoOn(budget, log) && log != []
    ensures var earlier, last := log[..|log| - 1], log[|log| - 1];
            && LogOk(frame, budget, earlier) && MayGoOn(budget, earlier) && (last.success || last.failed)
            && Consecutive(log) == if last.success then 0 else Consecutive(earlier) + 1
  {
    hide Requested;
  }

  /** The repair counter is the number of failed turns since the last success. */
  lemma {:induction false} RepairsCountFromLastSuccess(frame: Frame, budget: LoopBudget, log: seq<Row>, k: nat)
    requires LogOk(frame, budget, log) && MayGoOn(budget, log) && k < |log|
    ensures Consecutive(log) <= |log|
    ensures k >= |log| - Consecutive(log) ==> log[k].failed && !log[k].success
    ensures k == |log| - Consecutive(log) - 1 ==> log[k].success
    decreases |log|
  {
    hide *;
    var n := |log| - 1;
    LastRowCounts(frame, budget, log);
    NothingYet();
    var earlier := log[..n];
    if n == 0 {
      assert earlier == [];
    } else if k < n {
      assert earlier[k] == log[k];
      RepairsCountFromLastSuccess(frame, budget, earlier, k);
    } else {
      RepairsCountFromLastSuccess(frame, budget, earlier, 0);
    }
  }

  /** Every request extends the same history by one stored turn at a time. */
  lemma {:induction false} HistoriesGrow(frame: Frame, budget: LoopBudget, log: seq<Row>, i: nat, j: nat)
    requires LogOk(frame, budget, log) && i <= j < |log|
    ensures |log[i].history| == i && |log[j].history| == j && log[i].history == log[j].history[..i]
    ensures AllStored(log[j].history)
    decreases j - i
  {
    hide LogOk, Searches, BudgetFor, MayGoOn, AllStored, Assembled, Counted;
    RowsAreOk(frame, budget, log, i);
    RowsAreOk(frame, budget, log, j);
    if i < j {
      HistoriesGrow(frame, budget, log, i, j - 1);
      assert log[..j][j - 1] == log[j - 1];
      assert log[j].history[..j - 1][..i] == log[j].history[..i];
    } else {
      assert log[j].history[..i] == log[i].history;
    }
  }

  /** On the Anthropic wire every request of every run answers each of its `tool_use` messages at once. */
  lemma RequestsAreAnswered(parse: JsonParser, frame: Frame, budget: LoopBudget, log: seq<Row>, i: nat)
    requires LogOk(frame, budget, log) && i < |log|
    ensures Answered(WireOf(parse, log[i].sent))
  {
    RowsAreOk(frame, budget, log, i);
    var history := log[i].history;
    assert forall k :: 0 <= k < |history| ==> Stored(history[k]);
    hide LogOk, Searches, BudgetFor, MayGoOn, WireOf, Conversation, Transcript.Dropped, Answered, Answers;
    EveryToolUseIsAnswered(parse, frame, history, Transcript.Dropped(frame.Fixed(), history, frame.maxChars));
  }
}
