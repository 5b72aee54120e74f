/** Statuses, outcomes, the reference state machine and the retry decision
    (internal/notification). */
module Notification {
  import opened Wrappers

  // Nanoseconds, for instants and for durations.
  type Time = int
  type Duration = int

  datatype Status = Pending | Delivering | RetryWait | Delivered | Dead

  // `Succeeded` is the outcome the source spells "delivered".
  datatype Outcome = Succeeded | Retryable | Permanent

  datatype RetryPolicy = RetryPolicy(maxAttempts: int, lifetime: Duration, delays: seq<Duration>)

  // What the HTTP sender reports about one supplier call.
  datatype SendResult = SendResult(
    outcome: Outcome, httpStatus: int, errorCode: string, errorMessage: string, retryAfter: Option<Time>)

  // What a worker writes back about one attempt.
  datatype AttemptResult = AttemptResult(
    outcome: Outcome, httpStatus: int, errorCode: string, errorMessage: string,
    nextAttemptAt: Option<Time>, completedAt: Time)

  predicate Terminal(status: Status) {
    status == Delivered || status == Dead
  }

  function ClassifyResult(status: int, failed: bool): Outcome {
    if failed then Retryable
    else if 200 <= status < 300 then Succeeded
    else if status == 408 || status == 425 || status == 429 then Retryable
    else if 500 <= status <= 599 then Retryable
    else Permanent
  }

  predicate CanTransition(from: Status, to: Status) {
    match from
    case Pending => to == Delivering
    case Delivering => to == Delivered || to == RetryWait || to == Dead
    case RetryWait => to == Pending || to == Dead
    case Dead => to == Pending
    case Delivered => false
  }

  // A status change made by one commit is one edge of the state machine, or two when the
  // scheduler takes a task from `delivering` through `retry_wait` to `pending` at once.
  ghost predicate TransitionPath(from: Status, to: Status) {
    CanTransition(from, to) || exists via :: CanTransition(from, via) && CanTransition(via, to)
  }

  // The sender answers from the response status, or without a response (status 0) with a failure.
  predicate SenderMayReturn(result: SendResult) {
    if result.httpStatus == 0
    then result.outcome != Succeeded && result.retryAfter.None?
    else result.outcome == ClassifyResult(result.httpStatus, false)
  }

  function NextAttempt(
    policy: RetryPolicy, attempt: int, retryAfter: Option<Time>, now: Time, jitter: Option<Duration -> Duration>)
    : (next: Option<Time>)
  {
    if attempt >= policy.maxAttempts || attempt <= 0 || |policy.delays| == 0 then
      None
    else if retryAfter.Some? && retryAfter.value > now then
      if retryAfter.value - now > policy.lifetime then None else retryAfter
    else
      var index := if attempt - 1 >= |policy.delays| then |policy.delays| - 1 else attempt - 1;
      var delay := if jitter.Some? then jitter.value(policy.delays[index]) else policy.delays[index];
      if delay < 0 || delay > policy.lifetime then None else Some(now + delay)
  }

  // How `Handle` turns a sender's answer into the row update.
  function Decide(policy: RetryPolicy, attempt: int, result: SendResult, completedAt: Time,
                  jitter: Option<Duration -> Duration>): (r: AttemptResult)
  {
    var plain := AttemptResult(result.outcome, result.httpStatus, result.errorCode, result.errorMessage,
                               None, completedAt);
    if result.outcome == Retryable then
      var next := NextAttempt(policy, attempt, result.retryAfter, completedAt, jitter);
      if next.Some? then plain.(nextAttemptAt := next) else plain.(outcome := Permanent)
    else
      plain
  }
}
