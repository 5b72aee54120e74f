/** The two tables' rows and what each UPDATE does to one row (internal/store/postgres, migrations). */
module Rows {
  import opened Wrappers
  import opened Notification

  // `newID` draws sixteen random bytes and writes them as fixed-length hex, so identifiers
  // and tokens are modelled by the numbers they spell.
  type TaskId = nat
  type Token = nat

  // An outbox event's id is drawn, or it is the digest of "<task>:<generation>". The digest
  // is taken to be collision-free, hence a constructor of its own.
  datatype EventId = Drawn(id: nat) | Digest(task: TaskId, generation: nat)

  // The part of a task row that no statement updates.
  datatype Request = Request(
    caller: string, key: string, hash: string, destination: string, concurrencyLimit: int,
    policy: RetryPolicy, createdAt: Time)
  {
    predicate SameKey(other: Request) {
      caller == other.caller && key == other.key
    }

    function Deadline(): Time {
      createdAt + policy.lifetime
    }

    // The CHECK constraints of the task table on these columns.
    predicate Admissible() {
      1 <= policy.maxAttempts <= 32 && policy.lifetime > 0 && concurrencyLimit > 0
    }
  }

  // `None`, 0 and "" stand for NULL.
  datatype Task = Task(
    request: Request, status: Status, attempts: nat, generation: nat,
    nextAttemptAt: Option<Time>, leaseToken: Option<Token>, leaseUntil: Option<Time>,
    lastHttpStatus: int, lastErrorCode: string, lastErrorMessage: string,
    updatedAt: Time, deliveredAt: Option<Time>, deadAt: Option<Time>)

  datatype Event = Event(
    aggregate: TaskId, generation: nat, createdAt: Time, publishedAt: Option<Time>,
    claimToken: Option<Token>, claimUntil: Option<Time>, publishAttempts: nat)

  function NewTask(request: Request): Task {
    Task(request, Pending, 0, 0, None, None, None, 0, "", "", request.createdAt, None, None)
  }

  function NewEvent(aggregate: TaskId, generation: nat, at: Time): Event {
    Event(aggregate, generation, at, None, None, None, 0)
  }

  // ClaimDelivery: pending -> delivering.
  function ClaimRow(t: Task, token: Token, until: Time, at: Time): Task {
    t.(status := Delivering, leaseToken := Some(token), leaseUntil := Some(until),
       attempts := t.attempts + 1, updatedAt := at)
  }

  // ApplyDeliveryResult: the update behind the lease check.
  function ApplyRow(t: Task, r: AttemptResult): Task {
    var status := match r.outcome case Succeeded => Delivered case Retryable => RetryWait case Permanent => Dead;
    t.(status := status,
       nextAttemptAt := if r.outcome == Retryable then r.nextAttemptAt else None,
       leaseToken := None, leaseUntil := None,
       lastHttpStatus := r.httpStatus, lastErrorCode := r.errorCode, lastErrorMessage := r.errorMessage,
       updatedAt := r.completedAt,
       deliveredAt := if r.outcome == Succeeded then Some(r.completedAt) else None,
       deadAt := if r.outcome == Permanent then Some(r.completedAt) else None)
  }

  predicate Owns(t: Task, token: Token) {
    t.status == Delivering && t.leaseToken == Some(token)
  }

  // The scheduler's WHERE clause: comparisons with NULL are not true.
  predicate Due(t: Task, now: Time) {
    || (t.status == RetryWait && t.nextAttemptAt.Some? && t.nextAttemptAt.value <= now)
    || (t.status == Delivering && t.leaseUntil.Some? && t.leaseUntil.value < now)
  }

  predicate Exhausted(t: Task, now: Time) {
    t.attempts >= t.request.policy.maxAttempts || now >= t.request.Deadline()
  }

  function DeadRow(t: Task, now: Time): Task {
    t.(status := Dead, deadAt := Some(now), updatedAt := now,
       leaseToken := None, leaseUntil := None, nextAttemptAt := None)
  }

  function RescheduleRow(t: Task, now: Time): Task {
    t.(status := Pending, generation := t.generation + 1, updatedAt := now,
       nextAttemptAt := None, leaseToken := None, leaseUntil := None,
       lastErrorCode := if t.status == Delivering then "delivery_lease_expired" else "")
  }

  function ScheduleRow(t: Task, now: Time): Task {
    if Exhausted(t, now) then DeadRow(t, now) else RescheduleRow(t, now)
  }

  // ReplayDeadAtomic: dead -> pending.
  function ReplayRow(t: Task, now: Time): Task {
    t.(status := Pending, generation := t.generation + 1, nextAttemptAt := None,
       leaseToken := None, leaseUntil := None, deadAt := None, updatedAt := now)
  }

  predicate Claimable(e: Event, now: Time) {
    e.publishedAt.None? && (e.claimUntil.None? || e.claimUntil.value < now)
  }

  function ClaimEvent(e: Event, token: Token, until: Time): Event {
    e.(claimToken := Some(token), claimUntil := Some(until), publishAttempts := e.publishAttempts + 1)
  }

  predicate MarkMatches(e: Event, token: Token) {
    e.claimToken == Some(token) && e.publishedAt.None?
  }

  function MarkEvent(e: Event, at: Time): Event {
    e.(publishedAt := Some(at), claimToken := None, claimUntil := None)
  }
}
