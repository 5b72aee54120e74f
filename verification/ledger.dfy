/** A task's history, and the invariant that ties it to the task's row. The history is
    bookkeeping of the model: no step reads it. */
module Ledgers {
  import opened Wrappers
  import opened Notification
  import opened Rows

  datatype Ledger = Ledger(
    maxAttempts: int,            // the budget the task was created with
    granted: set<Token>,         // leases acquired by ClaimDelivery
    applied: set<Token>,         // leases ended by their own result
    recovered: set<Token>,       // leases ended by the scheduler
    sends: nat,                  // calls of Send
    sent: set<Token>,            // leases under which Send was called
    succeeded: set<Token>,       // leases whose Send got a 2xx response
    replays: nat,                // committed replays
    moves: nat,                  // committed status changes other than replays
    deliveredBy: Option<Token>)  // the lease whose result made the row `delivered`

  function NewLedger(request: Request): Ledger {
    Ledger(request.policy.maxAttempts, {}, {}, {}, 0, {}, {}, 0, 0, None)
  }

  // Every nullable column is set in exactly the status it belongs to.
  predicate Shaped(t: Task) {
    && (t.leaseToken.Some? <==> t.status == Delivering)
    && (t.leaseUntil.Some? <==> t.status == Delivering)
    && (t.nextAttemptAt.Some? <==> t.status == RetryWait)
    && (t.deliveredAt.Some? <==> t.status == Delivered)
    && (t.deadAt.Some? <==> t.status == Dead)
  }

  function OwnLease(t: Task): set<Token> {
    if t.leaseToken.Some? then {t.leaseToken.value} else {}
  }

  function Rank(status: Status): nat {
    match status
    case Delivering => 3
    case RetryWait => 2
    case Pending => 1
    case Delivered | Dead => 0
  }

  // What is left of the task's budget: drops on every status change that is not a replay.
  function Measure(t: Task, replays: nat): int {
    3 * (t.request.policy.maxAttempts + replays - t.attempts) + Rank(t.status)
  }

  // Holds of every task ever created, whether or not retention has deleted its row.
  ghost predicate LedgerOk(l: Ledger) {
    && 1 <= l.maxAttempts
    && l.sent <= l.granted
    && l.succeeded <= l.sent
    && l.sends == |l.sent|
    && |l.granted| <= l.maxAttempts + l.replays
    && l.moves <= 3 * l.maxAttempts + 1 + 4 * l.replays
  }

  ghost predicate Counted(t: Task, l: Ledger) {
    && t.attempts == t.generation + (if t.status == Pending then 0 else 1)
    && t.attempts == |l.granted|
    && t.attempts + (if t.status == Pending then 1 else 0) <= l.maxAttempts + l.replays
    && (t.status == RetryWait ==> t.attempts < l.maxAttempts)
  }

  // Every granted lease is still held, or was ended once: by its result or by the scheduler.
  ghost predicate Accounted(t: Task, l: Ledger) {
    && l.granted == l.applied + l.recovered + OwnLease(t)
    && l.applied !! l.recovered
    && OwnLease(t) !! (l.applied + l.recovered)
  }

  // Holds of every task in the table.
  ghost predicate TaskOk(t: Task, l: Ledger) {
    && LedgerOk(l)
    && Shaped(t)
    && t.request.Admissible()
    && l.maxAttempts == t.request.policy.maxAttempts
    && Counted(t, l)
    && Accounted(t, l)
    && l.moves + Measure(t, l.replays) <= 3 * l.maxAttempts + 1 + 4 * l.replays
    && (t.status == Delivered ==>
          l.deliveredBy.Some? && l.deliveredBy.value in l.applied && l.deliveredBy.value in l.succeeded
          && 200 <= t.lastHttpStatus < 300)
  }

  // The history after each row update.

  function Granted(l: Ledger, token: Token): Ledger {
    l.(granted := l.granted + {token}, moves := l.moves + 1)
  }

  function Applied(l: Ledger, token: Token, outcome: Outcome): Ledger {
    l.(applied := l.applied + {token}, moves := l.moves + 1,
       deliveredBy := if outcome == Succeeded then Some(token) else l.deliveredBy)
  }

  function Scheduled(l: Ledger, t: Task): Ledger {
    l.(recovered := l.recovered + OwnLease(t), moves := l.moves + 1)
  }

  function Replayed(l: Ledger): Ledger {
    l.(replays := l.replays + 1)
  }

  function Sent(l: Ledger, token: Token, result: SendResult): Ledger {
    l.(sends := l.sends + 1, sent := l.sent + {token},
       succeeded := if result.outcome == Succeeded then l.succeeded + {token} else l.succeeded)
  }

  lemma CreateKeeps(request: Request)
    requires request.Admissible()
    ensures TaskOk(NewTask(request), NewLedger(request))
  {}

  lemma ClaimKeeps(t: Task, l: Ledger, token: Token, until: Time, at: Time)
    requires TaskOk(t, l) && t.status == Pending && token !in l.granted
    ensures TaskOk(ClaimRow(t, token, until, at), Granted(l, token))
  {
    var row, after := ClaimRow(t, token, until, at), Granted(l, token);
    assert |after.granted| == |l.granted| + 1;
    assert OwnLease(row) == {token} && OwnLease(t) == {};
    assert Accounted(row, after) by {
      assert after.granted == l.applied + l.recovered + {token};
    }
    assert Measure(row, l.replays) + 1 == Measure(t, l.replays);
  }

  lemma ApplyKeeps(t: Task, l: Ledger, token: Token, r: AttemptResult)
    requires TaskOk(t, l) && Owns(t, token)
    requires r.outcome == Retryable ==> r.nextAttemptAt.Some? && t.attempts < l.maxAttempts
    requires r.outcome == Succeeded ==> token in l.succeeded && 200 <= r.httpStatus < 300
    ensures TaskOk(ApplyRow(t, r), Applied(l, token, r.outcome))
  {
    assert OwnLease(t) == {token};
  }

  lemma ScheduleKeeps(t: Task, l: Ledger, now: Time)
    requires TaskOk(t, l) && Due(t, now)
    ensures TaskOk(ScheduleRow(t, now), Scheduled(l, t))
  {
    var row, after := ScheduleRow(t, now), Scheduled(l, t);
    assert Accounted(row, after) by {
      assert OwnLease(row) == {};
      assert after.granted == after.applied + after.recovered;
    }
    assert Counted(row, after) && row.request == t.request;
    assert Measure(row, l.replays) + 1 <= Measure(t, l.replays);
  }

  lemma ReplayKeeps(t: Task, l: Ledger, now: Time)
    requires TaskOk(t, l) && t.status == Dead
    ensures TaskOk(ReplayRow(t, now), Replayed(l))
  {}

  lemma SendKeeps(l: Ledger, token: Token, result: SendResult)
    requires LedgerOk(l) && token in l.granted && token !in l.sent
    ensures LedgerOk(Sent(l, token, result))
  {
    assert |l.sent + {token}| == |l.sent| + 1;
  }

  lemma SendKeepsTask(t: Task, l: Ledger, token: Token, result: SendResult)
    requires TaskOk(t, l) && token in l.granted && token !in l.sent
    ensures TaskOk(t, Sent(l, token, result))
  {
    SendKeeps(l, token, result);
  }
}
