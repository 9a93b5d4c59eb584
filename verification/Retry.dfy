/**
 The retry loop of one gateway call (`chat_observed` of `src/llm/client.rs`).

 What the world does, the tries, the clock and the jitter, is a parameter, so
 every statement below holds of every run. Clock readings are in nanoseconds.
 */
module Retry {
  import opened Prelude
  import opened Json
  import opened Reply

  const NANOS_PER_MILLI := 1_000_000

  /** What a try streams: anything but the gateway's own retry event. */
  type Fragment = event: LlmEvent | !event.Retry? witness Text("")

  datatype Attempt = Attempt(fragments: seq<Fragment>, outcome: Result<LlmReply, GatewayError>)

  datatype Config = Config(hasKey: bool, maxAttempts: nat, requestTimeout: nat, deadline: Option<nat>)

  /**
   Attempts count from 1. `tries(k, limit)` is what attempt `k` does within
   `limit`; `before(k)` and `after(k)` are the clock when attempt `k` is about
   to start and when its backoff is decided; `random(k)` feeds its jitter.
   */
  datatype World = World(tries: (nat, nat) -> Attempt, before: nat -> nat, after: nat -> nat, random: nat -> nat)

  // ----- Time -----

  /** `time_left`: saturates at zero, absent without a deadline. */
  function TimeLeft(config: Config, now: nat): Option<nat> {
    match config.deadline
    case None => None
    case Some(deadline) => Some(if now < deadline then deadline - now else 0)
  }

  predicate OutOfTime(config: Config, now: nat) {
    TimeLeft(config, now) == Some(0)
  }

  /** How long a try that starts now may take. */
  function TryLimit(config: Config, now: nat): nat {
    match TimeLeft(config, now)
    case Some(left) => if left < config.requestTimeout then left else config.requestTimeout
    case None => config.requestTimeout
  }

  function PowerOfTwo(n: nat): nat {
    if n == 0 then 1 else 2 * PowerOfTwo(n - 1)
  }

  function BackoffCeilingMillis(attempt: nat): nat {
    1000 * PowerOfTwo(if attempt <= 1 then 0 else Min(attempt - 1, 3))
  }

  /** A `Retry-After` wins, at most a minute; otherwise any number of milliseconds up to the ceiling. */
  function BackoffMillis(attempt: nat, retryAfterSecs: Option<nat>, random: nat): nat {
    match retryAfterSecs
    case Some(secs) => 1000 * Min(secs, 60)
    case None => random % (BackoffCeilingMillis(attempt) + 1)
  }

  /** The ceiling doubles from one second and stays at eight. */
  lemma CeilingsAreOneTwoFourEight(attempt: nat)
    requires attempt >= 1
    ensures BackoffCeilingMillis(1) == 1000
    ensures BackoffCeilingMillis(attempt + 1) == Min(2 * BackoffCeilingMillis(attempt), 8000)
    ensures BackoffCeilingMillis(attempt) <= 8000
  {
    assert PowerOfTwo(1) == 2 && PowerOfTwo(2) == 4;
    assert PowerOfTwo(3) == 2 * PowerOfTwo(2);
    assert attempt == 1 || attempt == 2 || attempt == 3 || attempt >= 4;
  }

  // ----- One run, attempt by attempt -----

  function AttemptOf(config: Config, world: World, k: nat): Attempt {
    world.tries(k, TryLimit(config, world.before(k)))
  }

  function TimeoutsThrough(config: Config, world: World, k: nat): nat {
    if k == 0 then 0
    else TimeoutsThrough(config, world, k - 1) + if AttemptOf(config, world, k).outcome == Err(Timeout) then 1 else 0
  }

  function DelayMillis(config: Config, world: World, k: nat): nat
    requires AttemptOf(config, world, k).outcome.Err?
  {
    BackoffMillis(k, AttemptOf(config, world, k).outcome.error.RetryAfterSecs(), world.random(k))
  }

  /** Whether attempt `k` failed in a way that makes the gateway sleep and try again. */
  predicate GoesOn(config: Config, world: World, k: nat) {
    var outcome := AttemptOf(config, world, k).outcome;
    outcome.Err? && outcome.error.IsRetryable()
    && !(outcome.error == Timeout && TimeoutsThrough(config, world, k) > 1)
    && k < Max(1, config.maxAttempts)
    && (config.deadline.Some? ==>
          world.after(k) + DelayMillis(config, world, k) * NANOS_PER_MILLI < config.deadline.value)
  }

  /** The events of the first `n` attempts: each one's fragments, then its retry. */
  function EventsThrough(config: Config, world: World, n: nat): seq<LlmEvent> {
    if n == 0 then []
    else
      EventsThrough(config, world, n - 1) + AttemptOf(config, world, n).fragments
      + if GoesOn(config, world, n) then [LlmEvent.Retry(n, DelayMillis(config, world, n))] else []
  }

  /** The `n` attempts a run made: all but the last went on, and each started before the deadline. */
  ghost predicate Made(config: Config, world: World, n: nat) {
    && n <= Max(1, config.maxAttempts)
    && (forall k :: 1 <= k < n ==> GoesOn(config, world, k))
    && (forall k :: 1 <= k <= n ==> !OutOfTime(config, world.before(k)))
  }

  /** The branches of the loop, taken together, are `GoesOn`. */
  lemma BranchesAreGoesOn(config: Config, world: World, k: nat, timeouts: nat)
    requires AttemptOf(config, world, k).outcome.Err? && timeouts == TimeoutsThrough(config, world, k)
    ensures
      var error := AttemptOf(config, world, k).outcome.error;
      var left := TimeLeft(config, world.after(k));
      var stops := !error.IsRetryable() || (error == Timeout && timeouts > 1) || k >= Max(1, config.maxAttempts)
                   || (left.Some? && left.value <= DelayMillis(config, world, k) * NANOS_PER_MILLI);
      GoesOn(config, world, k) <==> !stops
  {
    hide BackoffMillis, TimeoutsThrough;
  }

  lemma NeverGoesOn(config: Config, world: World, k: nat)
    requires AttemptOf(config, world, k).outcome.Ok?
    ensures !GoesOn(config, world, k)
  {
  }

  lemma OneMoreMade(config: Config, world: World, n: nat)
    requires Made(config, world, n) && (n > 0 ==> GoesOn(config, world, n))
    requires n < Max(1, config.maxAttempts) && !OutOfTime(config, world.before(n + 1))
    ensures Made(config, world, n + 1)
  {
  }

  lemma TimeoutsStep(config: Config, world: World, k: nat)
    requires k > 0
    ensures TimeoutsThrough(config, world, k)
         == TimeoutsThrough(config, world, k - 1) + if AttemptOf(config, world, k).outcome == Err(Timeout) then 1 else 0
  {
  }

  lemma EventsStep(config: Config, world: World, n: nat)
    requires n > 0
    ensures EventsThrough(config, world, n)
         == EventsThrough(config, world, n - 1) + AttemptOf(config, world, n).fragments
            + if GoesOn(config, world, n) then [LlmEvent.Retry(n, DelayMillis(config, world, n))] else []
  {
  }

  method ChatObserved(config: Config, world: World)
    returns (reply: Result<LlmReply, GatewayError>, events: seq<LlmEvent>, tried: nat)
    ensures !config.hasKey ==> reply == Err(MissingApiKey) && events == [] && tried == 0
    ensures Made(config, world, tried)
    ensures events == EventsThrough(config, world, tried)
    ensures config.hasKey ==>
              if tried > 0 && !GoesOn(config, world, tried) then reply == AttemptOf(config, world, tried).outcome
              else OutOfTime(config, world.before(tried + 1)) && reply == Err(Timeout)
  {
    assert EventsThrough(config, world, 0) == [];
    assert TimeoutsThrough(config, world, 0) == 0 && Made(config, world, 0);
    hide BackoffMillis, OutOfTime, EventsThrough, TimeoutsThrough, GoesOn, Made, TimeLeft, TryLimit;
    events, tried := [], 0;
    if !config.hasKey {
      return Err(MissingApiKey), events, tried;
    }
    var attempts := if config.maxAttempts < 1 then 1 else config.maxAttempts;
    var timeouts := 0;
    var attempt := 1;
    while true
      invariant tried == attempt - 1 < attempts
      invariant Made(config, world, tried)
      invariant tried > 0 ==> GoesOn(config, world, tried)
      invariant timeouts == TimeoutsThrough(config, world, tried)
      invariant events == EventsThrough(config, world, tried)
      decreases attempts - attempt
    {
      if OutOfTime(config, world.before(attempt)) {
        return Err(Timeout), events, tried;
      }
      var made := world.tries(attempt, TryLimit(config, world.before(attempt)));
      events := events + made.fragments;
      OneMoreMade(config, world, tried);
      tried := attempt;
      TimeoutsStep(config, world, tried);
      EventsStep(config, world, tried);
      if made.outcome.Ok? {
        NeverGoesOn(config, world, tried);
        return made.outcome, events, tried;
      }
      var error := made.outcome.error;
      if error == Timeout {
        timeouts := timeouts + 1;
      }
      BranchesAreGoesOn(config, world, tried, timeouts);
      var timeoutSpent := error == Timeout && timeouts > 1;
      if !error.IsRetryable() || timeoutSpent || attempt >= attempts {
        return made.outcome, events, tried;
      }
      var delayMillis := BackoffMillis(attempt, error.RetryAfterSecs(), world.random(attempt));
      var left := TimeLeft(config, world.after(attempt));
      if left.Some? && left.value <= delayMillis * NANOS_PER_MILLI {
        return made.outcome, events, tried;
      }
      events := events + [LlmEvent.Retry(attempt, delayMillis)];
      attempt := attempt + 1;
    }
  }

  // ----- What every run keeps -----

  /** However the attempts end, at most two of them time out. */
  lemma {:induction false} AtMostTwoTimeouts(config: Config, world: World, n: nat)
    requires Made(config, world, n)
    ensures TimeoutsThrough(config, world, n) <= 2
    ensures n > 0 && GoesOn(config, world, n) ==> TimeoutsThrough(config, world, n) <= 1
  {
    hide OutOfTime;
    if n > 0 {
      AtMostTwoTimeouts(config, world, n - 1);
    }
  }

  /** Every sleep is at most a minute, eight seconds without a `Retry-After`, and is due to end before the deadline. */
  lemma SleepsEndInTime(config: Config, world: World, k: nat)
    requires k >= 1 && GoesOn(config, world, k)
    ensures DelayMillis(config, world, k) <= 60_000
    ensures AttemptOf(config, world, k).outcome.error.RetryAfterSecs() == None ==>
              DelayMillis(config, world, k) <= 8_000
    ensures config.deadline.Some? ==>
              world.after(k) + DelayMillis(config, world, k) * NANOS_PER_MILLI < config.deadline.value
  {
    CeilingsAreOneTwoFourEight(k);
    hide BackoffCeilingMillis;
  }

  /** No try that starts may run past the deadline, and each gets some time. */
  lemma TriesEndInTime(config: Config, world: World, n: nat, k: nat)
    requires Made(config, world, n) && 1 <= k <= n
    ensures TryLimit(config, world.before(k)) <= config.requestTimeout
    ensures config.requestTimeout > 0 ==> TryLimit(config, world.before(k)) > 0
    ensures config.deadline.Some? ==>
              world.before(k) + TryLimit(config, world.before(k)) <= config.deadline.value
  {
    assert !OutOfTime(config, world.before(k));
  }

  // ----- Retry numbers -----

  function Retries(events: seq<LlmEvent>): nat {
    if events == [] then 0
    else Retries(events[..|events| - 1]) + if events[|events| - 1].Retry? then 1 else 0
  }

  lemma {:induction false} RetriesSnoc(events: seq<LlmEvent>, event: LlmEvent)
    ensures Retries(events + [event]) == Retries(events) + if event.Retry? then 1 else 0
  {
    assert (events + [event])[..|events|] == events;
  }

  lemma {:induction false} FragmentsHoldNoRetry(events: seq<LlmEvent>, fragments: seq<Fragment>)
    ensures Retries(events + fragments) == Retries(events)
  {
    if fragments == [] {
      assert events + fragments == events;
    } else {
      var n := |fragments| - 1;
      FragmentsHoldNoRetry(events, fragments[..n]);
      RetriesSnoc(events + fragments[..n], fragments[n]);
      assert events + fragments == events + fragments[..n] + [fragments[n]];
    }
  }

  /** The events of one more attempt: its fragments, then a retry if the run goes on. */
  lemma {:induction false} EventsUnfold(config: Config, world: World, n: nat)
    requires n > 0
    ensures EventsThrough(config, world, 0) == [] && Retries([]) == 0
    ensures EventsThrough(config, world, n)
         == EventsThrough(config, world, n - 1) + AttemptOf(config, world, n).fragments
            + if GoesOn(config, world, n) then [LlmEvent.Retry(n, DelayMillis(config, world, n))] else []
  {
    hide GoesOn, AttemptOf, DelayMillis;
  }

  lemma GoingOnFailed(config: Config, world: World, n: nat)
    ensures GoesOn(config, world, n) ==> AttemptOf(config, world, n).outcome.Err?
  {
    hide AttemptOf, TimeoutsThrough;
  }

  /** After `n` attempts there is one retry for each that went on. */
  lemma {:induction false} RetriesCountAttempts(config: Config, world: World, n: nat)
    requires forall k :: 1 <= k < n ==> GoesOn(config, world, k)
    ensures n > 0 ==>
              Retries(EventsThrough(config, world, n)) == if GoesOn(config, world, n) then n else n - 1
  {
    hide *;
    if n == 0 {
      return;
    }
    EventsUnfold(config, world, n);
    GoingOnFailed(config, world, n);
    RetriesCountAttempts(config, world, n - 1);
    var earlier := EventsThrough(config, world, n - 1);
    var fragments: seq<Fragment> := AttemptOf(config, world, n).fragments;
    FragmentsHoldNoRetry(earlier, fragments);
    if GoesOn(config, world, n) {
      RetriesSnoc(earlier + fragments, LlmEvent.Retry(n, DelayMillis(config, world, n)));
    } else {
      assert earlier + fragments + [] == earlier + fragments;
    }
  }

  /** The attempt in flight when the first `i` events of a run are out: one more than the retries so far. */
  function GatewayAttempt(events: seq<LlmEvent>, i: nat): nat
    requires i <= |events|
  {
    1 + Retries(events[..i])
  }

  /** The k-th retry event of a run carries k. */
  lemma {:induction false} RetriesAreNumbered(config: Config, world: World, n: nat, i: nat)
    requires forall k :: 1 <= k < n ==> GoesOn(config, world, k)
    requires i < |EventsThrough(config, world, n)|
    ensures var events := EventsThrough(config, world, n);
            events[i].Retry? ==> events[i].attempt == GatewayAttempt(events, i)
  {
    hide EventsThrough, GoesOn, Retries, AttemptOf, DelayMillis;
    if n == 0 {
      EventsUnfold(config, world, 1);
    } else {
      EventsUnfold(config, world, n);
      GoingOnFailed(config, world, n);
      var events, earlier := EventsThrough(config, world, n), EventsThrough(config, world, n - 1);
      var fragments: seq<Fragment> := AttemptOf(config, world, n).fragments;
      if i < |earlier| {
        RetriesAreNumbered(config, world, n - 1, i);
        assert events[..i] == earlier[..i] && events[i] == earlier[i];
      } else if i < |earlier| + |fragments| {
        assert events[i] == fragments[i - |earlier|];
      } else {
        RetriesCountAttempts(config, world, n - 1);
        FragmentsHoldNoRetry(earlier, fragments);
        assert events[..i] == earlier + fragments;
      }
    }
  }

  lemma {:induction false} RetriesGrow(events: seq<LlmEvent>, i: nat)
    requires i <= |events|
    ensures Retries(events[..i]) <= Retries(events)
    decreases |events|
  {
    if i == |events| {
      assert events[..i] == events;
    } else {
      RetriesGrow(events[..|events| - 1], i);
      assert events[..|events| - 1][..i] == events[..i];
    }
  }

  /** The attempt in flight never passes the configured number, which is at least one. */
  lemma AttemptsAreFew(config: Config, world: World, n: nat, i: nat)
    requires Made(config, world, n) && i <= |EventsThrough(config, world, n)|
    ensures 1 <= GatewayAttempt(EventsThrough(config, world, n), i) <= Max(1, config.maxAttempts)
  {
    RetriesCountAttempts(config, world, n);
    RetriesGrow(EventsThrough(config, world, n), i);
    assert EventsThrough(config, world, 0) == [];
    hide EventsThrough, TimeoutsThrough, OutOfTime, DelayMillis;
  }

  lemma AttemptStep(events: seq<LlmEvent>, i: nat)
    requires i < |events|
    ensures GatewayAttempt(events, i + 1) == GatewayAttempt(events, i) + if events[i].Retry? then 1 else 0
  {
    assert events[..i + 1] == events[..i] + [events[i]];
    RetriesSnoc(events[..i], events[i]);
  }

  // ----- When a run goes on -----

  /** The errors another try may mend. */
  lemma {:induction false} RetryableTells(error: GatewayError)
    ensures error.IsRetryable() <==>
              || error.RateLimited? || error.Timeout? || error.Transport?
              || (error.Server? && error.status != 501 && error.status != 505)
              || (error.ErrorBody? && (IsMendable(error.error, "type") || IsMendable(error.error, "code")))
    ensures error.RetryAfterSecs().Some? <==>
              || (error.RateLimited? && error.retryAfterSecs.Some?)
              || (error.Server? && error.retryAfterSecs.Some?)
    ensures error.RetryAfterSecs().Some? ==> error.RetryAfterSecs() == error.retryAfterSecs
  {
  }

  /** An error object that names one of the kinds an overloaded gateway sends. */
  predicate IsMendable(error: Value, key: string) {
    && error.Object? && key in error.fields && error.fields[key].Str?
    && var kind := error.fields[key].text;
       || kind == "overloaded_error" || kind == "api_error" || kind == "rate_limit_error"
       || kind == "rate_limit_exceeded" || kind == "server_error"
  }

  /** A try may last as long as a request may and the run's time lasts, and no less. */
  lemma {:induction false} TryLimitIsGreatest(config: Config, now: nat, limit: nat)
    requires config.deadline.Some? ==> now <= config.deadline.value
    ensures limit <= TryLimit(config, now) <==>
              limit <= config.requestTimeout && (config.deadline.Some? ==> now + limit <= config.deadline.value)
  {
  }

  /** The gateway's own wait is kept up to a minute; without one any wait up to the ceiling may come. */
  lemma {:induction false} WaitsTell(attempt: nat, retryAfterSecs: Option<nat>, millis: nat)
    ensures retryAfterSecs.Some? ==>
              (forall random :: BackoffMillis(attempt, retryAfterSecs, random)
                                == if retryAfterSecs.value <= 60 then 1000 * retryAfterSecs.value else 60_000)
    ensures retryAfterSecs.None? ==>
              (millis <= BackoffCeilingMillis(attempt) <==>
                 exists random :: BackoffMillis(attempt, retryAfterSecs, random) == millis)
  {
    hide BackoffCeilingMillis;
    if retryAfterSecs.None? && millis <= BackoffCeilingMillis(attempt) {
      assert millis % (BackoffCeilingMillis(attempt) + 1) == millis;
      assert BackoffMillis(attempt, retryAfterSecs, millis) == millis;
    }
  }

  /** The tries among the first `k` that timed out. */
  function TimedOutTries(config: Config, world: World, k: nat): set<nat> {
    set i: nat | 1 <= i <= k && AttemptOf(config, world, i).outcome == Err(Timeout)
  }

  lemma {:induction false} TimeoutsAreCounted(config: Config, world: World, k: nat)
    ensures TimeoutsThrough(config, world, k) == |TimedOutTries(config, world, k)|
  {
    hide AttemptOf;
    if k == 0 {
      assert TimedOutTries(config, world, 0) == {};
    } else {
      TimeoutsAreCounted(config, world, k - 1);
      var last := if AttemptOf(config, world, k).outcome == Err(Timeout) then {k} else {};
      assert TimedOutTries(config, world, k) == TimedOutTries(config, world, k - 1) + last;
    }
  }

  /**
   When another try follows try `k`: exactly when its error can be mended, it is not the second
   timeout, tries are left, and the wait ends before the run does.
   */
  lemma {:induction false} GoingOnTells(config: Config, world: World, k: nat)
    requires k >= 1
    ensures var outcome := AttemptOf(config, world, k).outcome;
            GoesOn(config, world, k) <==>
              && outcome.Err? && outcome.error.IsRetryable()
              && (outcome.error.Timeout? ==> TimedOutTries(config, world, k) == {k})
              && (k == 1 ==> config.maxAttempts > 1) && (k > 1 ==> k < config.maxAttempts)
              && (config.deadline.Some? ==>
                    world.after(k) + 1_000_000 * DelayMillis(config, world, k) < config.deadline.value)
  {
    hide AttemptOf, TimeoutsThrough, DelayMillis;
    TimeoutsAreCounted(config, world, k);
    if AttemptOf(config, world, k).outcome == Err(Timeout) {
      assert k in TimedOutTries(config, world, k);
      OneAlone(TimedOutTries(config, world, k), k);
    }
    hide TimedOutTries;
  }

  lemma {:induction false} OneAlone(s: set<nat>, x: nat)
    requires x in s
    ensures |s| <= 1 <==> s == {x}
  {
    assert s == {x} + (s - {x});
    assert |s| == 1 + |s - {x}|;
    if |s| <= 1 {
      assert s - {x} == {};
    }
  }
}
