/**
 What a run does turn by turn and how it ends (`src/research/agent_loop/runner.rs`), told of the
 log by the replies, the tools and the clock: which turn is final and why, which turns run tools,
 what the next request remembers and which end is reported.
 */
module RunLaws {
  import opened Prelude
  import opened Reply
  import opened Budget
  import opened Transcript
  import opened MessagesRequest
  import opened Dispatch
  import opened Runner

  // ----- The start -----

  /** A run starts exactly with a goal, known tools, a turn to spend within the cap and a context to spend it in. */
  lemma {:induction false} StartTells<S>(setup: Setup<S>)
    ensures Startable(setup) <==>
              && (exists i :: 0 <= i < |setup.goal| && !IsWhitespace(setup.goal[i]))
              && (forall tool :: tool in setup.tools.allowed ==> tool == "search" || tool == "fetch")
              && 1 <= setup.budget.maxTurns <= setup.budget.maxTurnsCap && setup.budget.maxContextChars >= 1
  {
    assert forall tool :: tool in KNOWN_TOOLS <==> tool == "search" || tool == "fetch";
    if Startable(setup) {
      forall tool | tool in setup.tools.allowed
        ensures tool in KNOWN_TOOLS
      {
        var i :| 0 <= i < |setup.tools.allowed| && setup.tools.allowed[i] == tool;
      }
    }
    assert forall i :: 0 <= i < |setup.tools.allowed| ==> setup.tools.allowed[i] in setup.tools.allowed;
    hide IsWhitespace;
  }

  // ----- Each turn -----

  lemma {:induction false} FollowsSoFar<S>(setup: Setup<S>, world: nat -> TurnWorld, log: seq<Row>, k: nat)
    requires Follows(setup, world, log) && k < |log|
    ensures Follows(setup, world, log[..k]) && log[k] == NextRow(setup, world, log[..k])
    decreases |log|
  {
    hide NextRow;
    var n := |log| - 1;
    if k < n {
      FollowsSoFar(setup, world, log[..n], k);
      assert log[..n][..k] == log[..k] && log[..n][k] == log[k];
    }
  }

  /** A turn runs the tools it was asked for exactly when it is not the final one. */
  predicate RunsTools(reply: Result<LlmReply, GatewayError>, row: Row) {
    reply.Ok? && reply.value.toolCalls != [] && row.finalReason.None?
  }

  /** A reply that asks for no tools and reads as an answer. */
  predicate IsAnswer<S>(setup: Setup<S>, reply: Result<LlmReply, GatewayError>, evidence: seq<ToolEvidence>) {
    reply.Ok? && reply.value.toolCalls == [] && setup.conclude(reply.value.output, evidence).Some?
  }

  /** What is settled when a request goes out: the turn, its budget and whether and why it is the final one. */
  predicate Scheduled<S>(setup: Setup<S>, world: nat -> TurnWorld, earlier: seq<Row>, row: Row) {
    var t, turnBudget := |earlier| + 1, BudgetFor(setup.budget, Searches(earlier));
    && row.turn == t && row.turnBudget == turnBudget
    && (row.finalReason == Some(ByBudget) <==> t >= turnBudget)
    && (row.finalReason == Some(ByDeadline) <==> t < turnBudget && ReserveLeft(setup.budget, world(t).start))
  }

  lemma {:induction false} SentTells<S>(setup: Setup<S>, world: nat -> TurnWorld, log: seq<Row>)
    ensures var sent := SentRow(setup, world, log);
            Scheduled(setup, world, log, sent)
            && sent.dispatched == 0 && sent.searches == 0 && !sent.success && !sent.failed
  {
    ReserveMeans(setup.budget, world(|log| + 1).start);
    hide BudgetFor, Searches, InFinalReserve, ReserveLeft, HistoryAfter, Assembled;
  }

  lemma {:induction false} NextTells<S>(setup: Setup<S>, world: nat -> TurnWorld, log: seq<Row>)
    ensures var row, now, outcome := NextRow(setup, world, log), world(|log| + 1), OutcomeAt(setup, world, |log| + 1);
            && Scheduled(setup, world, log, row)
            && (row.dispatched > 0 <==> RunsTools(now.reply, row))
            && (RunsTools(now.reply, row) ==>
                  && row.dispatched == |now.reply.value.toolCalls| && row.searches == outcome.successfulSearches
                  && row.success == outcome.hadSuccess && row.failed == outcome.failure.Some?)
            && (!RunsTools(now.reply, row) ==>
                  && row.searches == 0 && !row.success
                  && (row.failed <==>
                        now.reply.Ok? && !IsAnswer(setup, now.reply, GleanedBy(setup, world, log).evidence)))
  {
    SentTells(setup, world, log);
    hide SentRow, OutcomeAt, GleanedBy, BudgetFor, Searches, ReserveLeft;
  }

  /**
   Every turn of every run: numbered from one, final by budget exactly when its number reaches
   the budget of the searches so far, else final by deadline exactly when less than the reserve
   is left at its start. Tools run exactly on a turn that is not final, and all that were asked
   for are dispatched. A turn without tools fails unless it gives the answer.
   */
  lemma {:induction false} TurnTells<S>(setup: Setup<S>, world: nat -> TurnWorld, log: seq<Row>, k: nat)
    requires Follows(setup, world, log) && k < |log|
    ensures var row, now, outcome := log[k], world(k + 1), OutcomeAt(setup, world, k + 1);
            && Scheduled(setup, world, log[..k], row)
            && (row.dispatched > 0 <==> RunsTools(now.reply, row))
            && (RunsTools(now.reply, row) ==>
                  && row.dispatched == |now.reply.value.toolCalls| && row.searches == outcome.successfulSearches
                  && row.success == outcome.hadSuccess && row.failed == outcome.failure.Some?)
            && (!RunsTools(now.reply, row) ==>
                  && row.searches == 0 && !row.success
                  && (row.failed <==>
                        now.reply.Ok? && !IsAnswer(setup, now.reply, GleanedBy(setup, world, log[..k]).evidence)))
  {
    FollowsSoFar(setup, world, log, k);
    hide *;
    NextTells(setup, world, log[..k]);
    assert |log[..k]| == k;
  }

  // ----- What is remembered -----

  /** Turns left as the model is told: one inside the reserve, else what the budget leaves. */
  predicate LeftTells(budget: LoopBudget, now: nat, turnBudget: nat, turn: nat, left: nat) {
    if ReserveLeft(budget, now) then left == 1
    else if turn <= turnBudget then turn + left == turnBudget
    else left == 0
  }

  lemma {:induction false} LeftMeans(budget: LoopBudget, now: nat, turnBudget: nat, turn: nat)
    ensures LeftTells(budget, now, turnBudget, turn, TurnsLeft(budget, now, turnBudget, turn))
  {
    ReserveMeans(budget, now);
    hide InFinalReserve, ReserveLeft;
  }

  /** A stored tool turn: the calls, each with its result, and the note on the last of them. */
  predicate ToolsStored(entry: HistoryEntry, reply: LlmReply, outcome: TurnOutcome, note: string, chars: nat) {
    && entry.ToolTurn? && entry.text == reply.output && entry.replay == ReplayBlocks(reply.replay, chars)
    && LastNoted(entry.results, outcome.results, note)
  }

  /**
   What the request after turn `k` remembers of it: a turn that ran tools as its calls and their
   results, with a note of the turns left, counting what its own searches earned; any other as
   the text that was said and a repair message that ends with the nudge.
   */
  lemma {:induction false} NextRequestTells<S>(setup: Setup<S>, world: nat -> TurnWorld, log: seq<Row>, k: nat)
    returns (left: nat)
    requires Follows(setup, world, log) && k + 1 < |log| && world(k + 1).reply.Ok?
    ensures |log[k + 1].history| == |log[k].history| + 1 && log[k].history <= log[k + 1].history
    ensures var entry, now, reply := log[k + 1].history[|log[k].history|], world(k + 1), world(k + 1).reply.value;
            && (RunsTools(now.reply, log[k]) ==>
                  && LeftTells(setup.budget, now.left, BudgetFor(setup.budget, Searches(log[..k + 1])), k + 1, left)
                  && ToolsStored(entry, reply, OutcomeAt(setup, world, k + 1), setup.texts.note(left),
                       setup.replayChars(reply.replay))
                  && entry.calls == CallsAt(world, k + 1))
            && (!RunsTools(now.reply, log[k]) ==>
                  && LeftTells(setup.budget, now.left, log[k].turnBudget, k + 1, left)
                  && entry.TextTurn? && entry.assistant == reply.output
                  && entry.observation == REPAIR_OPENING + (REPAIR_REASON + setup.texts.nudge(left)))
  {
    FollowsSoFar(setup, world, log, k + 1);
    NextCarriesHistory(setup, world, log[..k + 1]);
    TurnTells(setup, world, log, k);
    hide *;
    var now, earlier, history := world(k + 1), log[..k + 1], log[k].history;
    assert earlier[k] == log[k] && |earlier| == k + 1;
    HistoryIs(setup, world, earlier);
    var entry := EntryAfter(setup, world, earlier);
    assert log[k + 1].history == history + [entry];
    assert log[k + 1].history[|history|] == entry;
    if RunsTools(now.reply, log[k]) {
      var turnBudget := BudgetFor(setup.budget, Searches(earlier));
      left := TurnsLeft(setup.budget, now.left, turnBudget, k + 1);
      LeftMeans(setup.budget, now.left, turnBudget, k + 1);
      ToolEntryIs(setup, world, earlier, left);
    } else {
      left := TurnsLeft(setup.budget, now.left, log[k].turnBudget, k + 1);
      LeftMeans(setup.budget, now.left, log[k].turnBudget, k + 1);
      TextEntryIs(setup, world, earlier, left);
    }
  }

  lemma {:induction false} HistoryIs<S>(setup: Setup<S>, world: nat -> TurnWorld, log: seq<Row>)
    requires log != [] && world(|log|).reply.Ok?
    ensures HistoryAfter(setup, world, log) == log[|log| - 1].history + [EntryAfter(setup, world, log)]
  {
    hide EntryAfter;
  }

  /** The note is added to the last result and nowhere else. */
  predicate LastNoted(noted: seq<ToolMessage>, results: seq<ToolMessage>, note: string) {
    && |noted| == |results|
    && forall i :: 0 <= i < |noted| ==>
         && noted[i].id == results[i].id
         && noted[i].content == results[i].content + if i == |noted| - 1 then note else ""
  }

  lemma {:induction false} AnnotatedTells(results: seq<ToolMessage>, note: string)
    ensures LastNoted(Annotated(results, note), results, note)
  {
    var noted := Annotated(results, note);
    forall i | 0 <= i < |noted| - 1
      ensures noted[i].content == results[i].content + ""
    {
      assert noted[i] == results[i];
    }
  }

  lemma {:induction false} ToolEntryIs<S>(setup: Setup<S>, world: nat -> TurnWorld, log: seq<Row>, left: nat)
    requires log != [] && world(|log|).reply.Ok? && log[|log| - 1].dispatched > 0
    requires left
          == TurnsLeft(setup.budget, world(|log|).left, BudgetFor(setup.budget, Searches(log)), |log|)
    ensures var entry, reply := EntryAfter(setup, world, log), world(|log|).reply.value;
            && ToolsStored(entry, reply, OutcomeAt(setup, world, |log|), setup.texts.note(left),
                 setup.replayChars(reply.replay))
            && entry.calls == CallsAt(world, |log|)
  {
    hide OutcomeAt, CallsAt, TurnsLeft, BudgetFor, Searches, Annotated, LastNoted;
    AnnotatedTells(OutcomeAt(setup, world, |log|).results, setup.texts.note(left));
  }

  lemma {:induction false} TextEntryIs<S>(setup: Setup<S>, world: nat -> TurnWorld, log: seq<Row>, left: nat)
    requires log != [] && world(|log|).reply.Ok? && log[|log| - 1].dispatched == 0
    requires left == TurnsLeft(setup.budget, world(|log|).left, log[|log| - 1].turnBudget, |log|)
    ensures EntryAfter(setup, world, log)
         == TextTurn(world(|log|).reply.value.output, REPAIR_OPENING + (REPAIR_REASON + setup.texts.nudge(left)))
  {
    hide TurnsLeft;
  }

  // ----- What is gathered -----

  /** The evidence of turn `t`, which is the last of `log`: what its tools left, if it ran any. */
  function EvidenceOfTurn<S>(setup: Setup<S>, world: nat -> TurnWorld, row: Row, t: nat): seq<ToolEvidence> {
    if row.dispatched > 0 then OutcomeAt(setup, world, t).evidence else []
  }

  /** The evidence of a run is that of its turns in order; hits are remembered once any turn had some. */
  lemma {:induction false} GleanedTells<S>(setup: Setup<S>, world: nat -> TurnWorld, log: seq<Row>)
    ensures var gleaned := GleanedBy(setup, world, log);
            && gleaned.evidence
               == Flatten(seq(|log|, k requires 0 <= k < |log| => EvidenceOfTurn(setup, world, log[k], k + 1)))
            && (gleaned.hadSearchHits <==>
                  exists k :: 0 <= k < |log| && log[k].dispatched > 0 && OutcomeAt(setup, world, k + 1).hadSearchHits)
  {
    hide OutcomeAt, Flatten;
    var all := seq(|log|, k requires 0 <= k < |log| => EvidenceOfTurn(setup, world, log[k], k + 1));
    if log == [] {
      assert Flatten<ToolEvidence>([]) == [] by {
        NothingFlat();
      }
      assert all == [];
    } else {
      var n := |log| - 1;
      GleanedTells(setup, world, log[..n]);
      var earlier := seq(n, k requires 0 <= k < n => EvidenceOfTurn(setup, world, log[..n][k], k + 1));
      assert all == earlier + [EvidenceOfTurn(setup, world, log[n], n + 1)];
      FlattenSnoc(earlier, EvidenceOfTurn(setup, world, log[n], n + 1));
      assert Flatten(earlier) + [] == Flatten(earlier);
    }
  }

  lemma {:induction false} NothingFlat()
    ensures Flatten<ToolEvidence>([]) == []
  {
  }

  /** The search block remembered is the one of the last turn that met any. */
  lemma {:induction false} LastBlockIsKept<S>(setup: Setup<S>, world: nat -> TurnWorld, log: seq<Row>, k: nat)
    requires k < |log| && log[k].dispatched > 0 && OutcomeAt(setup, world, k + 1).searchBlocked.Some?
    requires forall i :: k < i < |log| && log[i].dispatched > 0 ==> OutcomeAt(setup, world, i + 1).searchBlocked.None?
    ensures GleanedBy(setup, world, log).searchBlocked == OutcomeAt(setup, world, k + 1).searchBlocked
    decreases |log|
  {
    hide OutcomeAt;
    var n := |log| - 1;
    if k < n {
      assert log[..n][k] == log[k] && forall i :: k < i < n ==> log[..n][i] == log[i];
      LastBlockIsKept(setup, world, log[..n], k);
    }
  }

  lemma {:induction false} NoBlockIsKept<S>(setup: Setup<S>, world: nat -> TurnWorld, log: seq<Row>)
    requires forall i :: 0 <= i < |log| && log[i].dispatched > 0 ==>
               OutcomeAt(setup, world, i + 1).searchBlocked.None?
    ensures GleanedBy(setup, world, log).searchBlocked.None?
  {
    hide OutcomeAt;
    if log != [] {
      assert forall i :: 0 <= i < |log| - 1 ==> log[..|log| - 1][i] == log[i];
      NoBlockIsKept(setup, world, log[..|log| - 1]);
    }
  }

  // ----- The end -----

  /** A call that failed because the run's time was over. */
  predicate RanOutOfTime(budget: LoopBudget, now: TurnWorld) {
    now.reply == Err(Timeout) && budget.deadline.Some? && now.failed >= budget.deadline.value
  }

  /**
   How a run that ends with its last turn ends. An answer is reported with all that was
   gathered; a failed call ends the run with the gateway's error, unless the key was missing
   from the start or the time was over; spent repairs end it with the kind and reason of the
   last failure; and a final turn without an answer names the deadline exactly when less than
   the reserve was left at its start.
   */
  lemma {:induction false} EndTells<S>(setup: Setup<S>, world: nat -> TurnWorld, log: seq<Row>)
    requires Follows(setup, world, log) && log != []
    ensures var t, row, now, end := |log|, log[|log| - 1], world(|log|), EndOf(setup, world, log);
            var gleaned := GleanedBy(setup, world, log[..t - 1]);
            var outcome := OutcomeAt(setup, world, t);
            && (end.Ok? <==> IsAnswer(setup, now.reply, gleaned.evidence))
            && (end.Ok? ==>
                  end.value == RunReport(
                    setup.conclude(now.reply.value.output, gleaned.evidence).value, t, row.turnBudget, row.failuresUsed,
                    gleaned.evidence, gleaned.searchBlocked, gleaned.hadSearchHits))
            && (now.reply.Err? ==>
                  && (end.error.NoStart? <==> t == 1 && now.reply.error == MissingApiKey)
                  && (end.error == DeadlineExceeded(t) <==> RanOutOfTime(setup.budget, now))
                  && (end.error == Gateway(now.reply.error) <==>
                        !end.error.NoStart? && !RanOutOfTime(setup.budget, now)))
            && (RunsTools(now.reply, row) ==>
                  end == Err(if outcome.failure == Some(DispatchFailure) then InvalidToolCall(outcome.failureReason)
                             else ToolFailed(outcome.failureReason)))
            && (now.reply.Ok? && !RunsTools(now.reply, row) && !end.Ok? ==>
                  var spent := row.consecutive > setup.budget.maxRepairs as int;
                  && (end == Err(InvalidToolCall("empty answer")) <==> spent)
                  && (end == Err(DeadlineExceeded(t)) <==> !spent && ReserveLeft(setup.budget, now.start))
                  && (end == Err(BudgetExhausted(t)) <==> !spent && !ReserveLeft(setup.budget, now.start)))
  {
    hide EndOf, Follows, OutcomeAt, GleanedBy, Scheduled, ReserveLeft, IsAnswer, RunsTools, RanOutOfTime;
    TurnTells(setup, world, log, |log| - 1);
    if world(|log|).reply.Err? {
      CallEndTells(setup, world, log);
      AnswersAreReplies(setup, world(|log|).reply, log[|log| - 1], GleanedBy(setup, world, log[..|log| - 1]).evidence);
    } else {
      ReplyEndTells(setup, world, log);
    }
  }

  lemma {:induction false} AnswersAreReplies<S>(
    setup: Setup<S>, reply: Result<LlmReply, GatewayError>, row: Row, evidence: seq<ToolEvidence>)
    requires reply.Err?
    ensures !IsAnswer(setup, reply, evidence) && !RunsTools(reply, row)
  {
  }

  lemma {:induction false} ReplyEndTells<S>(setup: Setup<S>, world: nat -> TurnWorld, log: seq<Row>)
    requires log != [] && world(|log|).reply.Ok?
    requires log[|log| - 1].dispatched > 0 <==> RunsTools(world(|log|).reply, log[|log| - 1])
    ensures var t, row, now, end := |log|, log[|log| - 1], world(|log|), EndOf(setup, world, log);
            var gleaned, outcome := GleanedBy(setup, world, log[..t - 1]), OutcomeAt(setup, world, t);
            && (end.Ok? <==> IsAnswer(setup, now.reply, gleaned.evidence))
            && (end.Ok? ==>
                  end.value == RunReport(
                    setup.conclude(now.reply.value.output, gleaned.evidence).value, t, row.turnBudget, row.failuresUsed,
                    gleaned.evidence, gleaned.searchBlocked, gleaned.hadSearchHits))
            && (RunsTools(now.reply, row) ==>
                  end == Err(if outcome.failure == Some(DispatchFailure) then InvalidToolCall(outcome.failureReason)
                             else ToolFailed(outcome.failureReason)))
            && (!RunsTools(now.reply, row) && !end.Ok? ==>
                  var spent := row.consecutive > setup.budget.maxRepairs as int;
                  && (end == Err(InvalidToolCall("empty answer")) <==> spent)
                  && (end == Err(DeadlineExceeded(t)) <==> !spent && ReserveLeft(setup.budget, now.start))
                  && (end == Err(BudgetExhausted(t)) <==> !spent && !ReserveLeft(setup.budget, now.start)))
  {
    ReserveMeans(setup.budget, world(|log|).start);
    hide OutcomeAt, GleanedBy, InFinalReserve, ReserveLeft;
  }

  lemma {:induction false} CallEndTells<S>(setup: Setup<S>, world: nat -> TurnWorld, log: seq<Row>)
    requires log != [] && world(|log|).reply.Err?
    ensures var t, now, end := |log|, world(|log|), EndOf(setup, world, log);
            && end.Err?
            && (end.error.NoStart? <==> t == 1 && now.reply.error == MissingApiKey)
            && (end.error == DeadlineExceeded(t) <==> RanOutOfTime(setup.budget, now))
            && (end.error == Gateway(now.reply.error) <==> !end.error.NoStart? && !RanOutOfTime(setup.budget, now))
  {
  }
}
