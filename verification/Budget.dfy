/** The limits of a run and their arithmetic (`src/research/agent_loop/types.rs`). */
module Budget {
  import opened Prelude

  newtype u32 = x: int | 0 <= x <= 0xFFFF_FFFF

  const CHARS_PER_TOKEN := 3
  const MAX_CONTEXT_CHARS_CEILING := 400_000
  const MAX_PART_CHARS := 24_000
  const PARTS_PER_CONTEXT := 8
  const MIN_CONTEXT_CHARS := 16_000
  const SEARCH_TURN_BONUS: u32 := 5

  datatype LoopBudget = LoopBudget(
    maxTurns: u32,
    maxTurnsCap: u32,
    maxRepairs: u32,
    maxPartChars: nat,
    maxContextChars: nat,
    maxToolsPerTurn: nat,
    deadline: Option<nat>,
    finalReserve: nat)

  const DEFAULT_BUDGET := LoopBudget(10, 25, 2, MAX_PART_CHARS, 24_000, 3, None, 60)

  // ----- Saturating arithmetic -----

  function SaturatingAdd(a: u32, b: u32): u32 {
    if a as int + b as int > U32_MAX then U32_MAX as u32 else a + b
  }

  function SaturatingSub(a: u32, b: u32): u32 {
    if a < b then 0 else a - b
  }

  function SaturatingMul(a: u32, b: u32): u32 {
    if a as int * b as int > U32_MAX then U32_MAX as u32 else a * b
  }

  /** The turn budget after `searches` successful searches, as the code computes it. */
  function TurnBudget(budget: LoopBudget, searches: u32): u32 {
    var bonus := SaturatingMul(SaturatingSub(searches, 1), SEARCH_TURN_BONUS);
    var grown := SaturatingAdd(budget.maxTurns, bonus);
    var ceiling := if budget.maxTurnsCap < budget.maxTurns then budget.maxTurns else budget.maxTurnsCap;
    if grown < ceiling then grown else ceiling
  }

  /** The same in unbounded arithmetic: five turns for each search after the first, up to the cap. */
  function BudgetFor(budget: LoopBudget, searches: nat): nat {
    Min(budget.maxTurns as int + 5 * Max(searches - 1, 0), Max(budget.maxTurnsCap as int, budget.maxTurns as int))
  }

  /** Neither the saturating count of searches nor the saturating budget ever shows. */
  lemma SaturationNeverShows(budget: LoopBudget, searches: nat)
    ensures TurnBudget(budget, Min(searches, U32_MAX) as u32) as int == BudgetFor(budget, searches)
  {
  }

  lemma BudgetsGrow(budget: LoopBudget, a: nat, b: nat)
    requires a <= b
    ensures budget.maxTurns as int <= BudgetFor(budget, a) <= BudgetFor(budget, b)
    ensures BudgetFor(budget, b) <= Max(budget.maxTurnsCap as int, budget.maxTurns as int)
    ensures BudgetFor(budget, 0) == BudgetFor(budget, 1) == budget.maxTurns as int
  {
  }

  /** The first search adds nothing, each later one five turns until the cap. */
  lemma EachSearchAddsFive(budget: LoopBudget, searches: nat)
    requires searches >= 1 && budget.maxTurns <= budget.maxTurnsCap
    ensures BudgetFor(budget, searches + 1) == Min(BudgetFor(budget, searches) + 5, budget.maxTurnsCap as int)
  {
  }

  // ----- A budget for a window -----

  function ForWindow(maxTurns: u32, windowTokens: u32, replyReserveTokens: u32): Result<LoopBudget, nat> {
    var usable := SaturatingSub(windowTokens, replyReserveTokens) as int;
    var maxContextChars := Min(usable * CHARS_PER_TOKEN, MAX_CONTEXT_CHARS_CEILING);
    if maxContextChars < MIN_CONTEXT_CHARS then Err(usable)
    else
      Ok(DEFAULT_BUDGET.(
        maxTurns := maxTurns,
        maxContextChars := maxContextChars,
        maxPartChars := Min(MAX_PART_CHARS, maxContextChars / PARTS_PER_CONTEXT)))
  }

  /**
   A budget exists exactly when 5334 tokens are left after the reply; then eight parts fit the context, a part
   is never tiny, and the context never outgrows the window.
   */
  lemma WindowsAreSized(maxTurns: u32, windowTokens: u32, replyReserveTokens: u32)
    ensures var sized := ForWindow(maxTurns, windowTokens, replyReserveTokens);
            && (sized.Ok? <==> windowTokens as int >= replyReserveTokens as int + 5334)
            && (sized.Ok? ==>
                  var budget := sized.value;
                  && 2_000 <= budget.maxPartChars <= 24_000
                  && 8 * budget.maxPartChars <= budget.maxContextChars
                  && 16_000 <= budget.maxContextChars <= 400_000
                  && budget.maxContextChars <= 3 * (windowTokens as int - replyReserveTokens as int))
  {
  }

  /** The budget of a window, field by field: three characters a token, and an eighth of them for a part. */
  lemma {:induction false} WindowTells(maxTurns: u32, windowTokens: u32, replyReserveTokens: u32)
    requires windowTokens >= replyReserveTokens
    ensures var sized := ForWindow(maxTurns, windowTokens, replyReserveTokens);
            var usable := windowTokens as int - replyReserveTokens as int;
            && (sized.Err? ==> sized.error == usable)
            && (sized.Ok? ==>
                  var budget := sized.value;
                  && budget.maxContextChars == Min(3 * usable, 400_000)
                  && budget.maxPartChars == Min(24_000, budget.maxContextChars / 8)
                  && budget.maxTurns == maxTurns && budget.maxTurnsCap == 25 && budget.maxRepairs == 2
                  && budget.maxToolsPerTurn == 3 && budget.deadline == None && budget.finalReserve == 60)
  {
  }

  // ----- Instants -----

  predicate DeadlinePassed(budget: LoopBudget, now: nat) {
    budget.deadline.Some? && now >= budget.deadline.value
  }

  /** The deadline minus the final reserve, or the deadline itself when no such instant exists. */
  function WorkCutoff(budget: LoopBudget): Option<nat> {
    match budget.deadline
    case None => None
    case Some(deadline) => Some(if budget.finalReserve <= deadline then deadline - budget.finalReserve else deadline)
  }

  predicate InFinalReserve(budget: LoopBudget, now: nat) {
    WorkCutoff(budget).Some? && now >= WorkCutoff(budget).value
  }

  /** Past the deadline is past the cutoff, so a run that can start a turn late starts its last one. */
  lemma CutoffComesFirst(budget: LoopBudget, now: nat)
    ensures DeadlinePassed(budget, now) ==> InFinalReserve(budget, now)
    ensures InFinalReserve(budget, now) ==> budget.deadline.Some? && now + budget.finalReserve >= budget.deadline.value
  {
  }

  /** Less than the reserve is left; a reserve that is longer than all time is none. */
  predicate ReserveLeft(budget: LoopBudget, now: nat) {
    budget.deadline.Some? &&
    (if budget.finalReserve <= budget.deadline.value then now + budget.finalReserve >= budget.deadline.value
     else now >= budget.deadline.value)
  }

  /** The final reserve is exactly the time from the reserve before the deadline on. */
  lemma ReserveMeans(budget: LoopBudget, now: nat)
    ensures InFinalReserve(budget, now) <==> ReserveLeft(budget, now)
  {
  }
}
