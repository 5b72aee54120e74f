/** A task under a lease: exactly when it can still be delivered without a replay. */
module Leased {
  import opened Wrappers
  import opened Notification
  import opened Rows
  import opened Tables
  import opened Ledgers
  import opened Protocol
  import opened Invariant
  import opened Safety
  import opened Origins
  import opened Progress
  import opened RetryArithmetic

  // What the lease's own session can still bring about: success, or a retry decided in time.
  ghost predicate SessionHopeful(progress: Protocol.Progress, row: Task, floor: Time) {
    match progress
    case Claimed(_) => true
    case Admitted(_) => true
    case Answer(_, result) =>
      || result.outcome == Succeeded
      || (result.outcome == Retryable
          && RetriesInTime(row.request.policy, row.attempts, result.retryAfter, floor, row.request.Deadline()))
    case _ => false
  }

  // The scheduler can recover the lease with budget and lifetime left.
  ghost predicate Recoverable(row: Task, floor: Time) {
    && row.attempts < row.request.policy.maxAttempts && row.leaseUntil.Some?
    && Max(row.leaseUntil.value + 1, floor) < row.request.Deadline()
  }

  ghost predicate Hopeful(workers: map<Token, Worker>, row: Task, id: TaskId, floor: Time) {
    || Recoverable(row, floor)
    || (row.leaseToken.Some? && var w := row.leaseToken.value;
        w in workers && workers[w].message.task == id && SessionHopeful(workers[w].progress, row, floor))
  }

  // ---------- hope is enough ----------

  lemma RetriedDelivers(s: State, w: Token, id: TaskId, floor: Time) returns (steps: seq<Step>, t: State)
    requires Inv(s) && id in s.db.tasks && Owns(s.db.tasks[id], w)
    requires w in s.workers && s.workers[w].message.task == id && s.workers[w].progress.Answer?
    requires var row, result := s.db.tasks[id], s.workers[w].progress.result;
      && result.outcome == Retryable
      && RetriesInTime(row.request.policy, row.attempts, result.retryAfter, floor, row.request.Deadline())
    ensures Delivery(s, steps, t, id, floor)
  {
    var row, result := s.db.tasks[id], s.workers[w].progress.result;
    SnapshotIsCurrent(s, w, id);
    var at := EarliestDecision(row.request.policy, row.attempts, result.retryAfter, floor, row.request.Deadline());
    var step, next := RetryDecided(s, w, id, at, 0.0);
    StepKeeps(s, step);
    var rest;
    rest, t := RescheduledDelivers(Do(s, step), id, next, at);
    Prepend(s, step, rest, t, id, floor);
    steps := [step] + rest;
  }

  // The session decides on a retry and writes it back.
  lemma RetryDecided(s: State, w: Token, id: TaskId, at: Time, draw: real) returns (step: Step, next: Time)
    requires Inv(s) && id in s.db.tasks && Owns(s.db.tasks[id], w) && IsDraw(draw)
    requires w in s.workers && s.workers[w].message.task == id && s.workers[w].progress.Answer?
    requires var row, result := s.db.tasks[id], s.workers[w].progress.result;
      && result.outcome == Retryable
      && RetriesBefore(row.request.policy, row.attempts, result.retryAfter, at, draw, row.request.Deadline())
    ensures Enabled(s, step) && StepDrawn(s, step) && Reading(step) == Some(at) && !step.Replay?
    ensures var row, tasks := s.db.tasks[id], Do(s, step).db.tasks;
      && id in tasks && Due(tasks[id], next) && !Exhausted(tasks[id], next)
      && next >= at
  {
    var row, result := s.db.tasks[id], s.workers[w].progress.result;
    var policy := row.request.policy;
    SnapshotIsCurrent(s, w, id);
    step := Apply(w, at, JitterValue(policy, row.attempts, draw), Answered);
    next := NextAttempt(policy, row.attempts, result.retryAfter, at, Jitter(draw)).value;
    JitterByValue(policy, row.attempts, result, at, draw);
    var r := Decision(s.workers[w], at, step.jittered);
    assert r.outcome == Retryable && r.nextAttemptAt == Some(next);
    AppliedRow(s, w, at, step.jittered, id);
  }

  lemma AppliedRow(s: State, w: Token, at: Time, jittered: Duration, id: TaskId)
    requires Inv(s) && id in s.db.tasks && Owns(s.db.tasks[id], w)
    requires w in s.workers && s.workers[w].message.task == id && s.workers[w].progress.Answer?
    ensures var tasks := DoApply(s, w, at, jittered, Answered).db.tasks;
      id in tasks && tasks[id] == ApplyRow(s.db.tasks[id], Decision(s.workers[w], at, jittered))
  {
    assert id in s.ledgers;
  }

  // What the lease's session was shown is what the row still says.
  lemma SnapshotIsCurrent(s: State, w: Token, id: TaskId)
    requires Inv(s) && id in s.db.tasks && Owns(s.db.tasks[id], w)
    requires w in s.workers && s.workers[w].message.task == id && s.workers[w].progress.Answer?
    ensures var row, t := s.db.tasks[id], s.workers[w].progress.snapshot;
      id in s.ledgers && t.attempts == row.attempts && t.request == row.request && row.request.policy.lifetime > 0
  {
    assert TaskOk(s.db.tasks[id], s.ledgers[id]);
    assert WorkerOk(w, s.workers[w].progress, Some(s.db.tasks[id]), s.ledgers[id],
                    s.born[s.workers[w].message.event].generation);
  }

  lemma SessionDelivers(s: State, w: Token, id: TaskId, floor: Time) returns (steps: seq<Step>, t: State)
    requires Inv(s) && id in s.db.tasks && Owns(s.db.tasks[id], w)
    requires w in s.workers && s.workers[w].message.task == id
    requires SessionHopeful(s.workers[w].progress, s.db.tasks[id], floor)
    ensures Delivery(s, steps, t, id, floor)
  {
    assert id in s.ledgers;
    match s.workers[w].progress
    case Claimed(snapshot) => steps, t := AdmittedDelivers(s, w, id, snapshot, floor);
    case Admitted(snapshot) => steps, t := SentDelivers(s, w, id, snapshot, floor);
    case Answer(snapshot, result) =>
      if result.outcome == Succeeded {
        steps, t := AppliedDelivers(s, w, id, snapshot, result, floor);
      } else {
        steps, t := RetriedDelivers(s, w, id, floor);
      }
  }

  lemma HopefulDelivers(s: State, id: TaskId, floor: Time) returns (steps: seq<Step>, t: State)
    requires Inv(s) && id in s.db.tasks && s.db.tasks[id].status == Delivering
    requires Hopeful(s.workers, s.db.tasks[id], id, floor)
    ensures Delivery(s, steps, t, id, floor)
  {
    ShapeOf(s, id);
    var row := s.db.tasks[id];
    if Recoverable(row, floor) {
      steps, t := RescheduledDelivers(s, id, Max(DueAt(row), floor), floor);
    } else {
      steps, t := SessionDelivers(s, row.leaseToken.value, id, floor);
    }
  }

  // ---------- and without hope there is no way ----------

  lemma HopeFades(progress: Protocol.Progress, row: Task, floor: Time, later: Time)
    requires floor <= later && SessionHopeful(progress, row, later)
    ensures SessionHopeful(progress, row, floor)
  {}

  lemma LeaseFacts(s: State, id: TaskId, w: Token)
    requires Inv(s) && id in s.db.tasks && Owns(s.db.tasks[id], w)
    ensures w in s.leases && s.db.tasks[id].leaseUntil.Some?
    ensures w in s.workers && s.workers[w].message.task == id ==> !s.workers[w].progress.Received?
  {
    var row := s.db.tasks[id];
    assert id in s.ledgers && TaskOk(row, s.ledgers[id]) && s.ledgers[id].granted <= s.leases;
    assert w in OwnLease(row) && w in s.ledgers[id].granted;
    if w in s.workers && s.workers[w].message.task == id {
      assert WorkerOk(w, s.workers[w].progress, Some(row), s.ledgers[id],
                      s.born[s.workers[w].message.event].generation);
    }
  }

  // A step gives no hope to a session that had none.
  lemma SessionStep(s: State, step: Step, w: Token, id: TaskId, row: Task, floor: Time)
    requires Enabled(s, step) && w in s.leases && floor <= ClockAfter(step, floor)
    requires w in s.workers && s.workers[w].message.task == id ==>
      !s.workers[w].progress.Received? && !SessionHopeful(s.workers[w].progress, row, floor)
    ensures var after := Do(s, step).workers;
      w in after && after[w].message.task == id ==> !SessionHopeful(after[w].progress, row, ClockAfter(step, floor))
  {
    if step.ScheduleDue? {
      ScheduleOnly(s, step.rows, step.now);
    }
    if w in s.workers && SessionHopeful(s.workers[w].progress, row, ClockAfter(step, floor)) {
      HopeFades(s.workers[w].progress, row, floor, ClockAfter(step, floor));
    }
  }

  // The lease is running and hopeless.
  ghost predicate Hopeless(s: State, id: TaskId, floor: Time) {
    id in s.db.tasks && s.db.tasks[id].status == Delivering && !Hopeful(s.workers, s.db.tasks[id], id, floor)
  }

  lemma OwnerOf(s: State, id: TaskId) returns (w: Token)
    requires Inv(s) && id in s.db.tasks && s.db.tasks[id].status == Delivering
    ensures Owns(s.db.tasks[id], w) && id in s.ledgers
  {
    ShapeOf(s, id);
    w := s.db.tasks[id].leaseToken.value;
  }

  // Its own result can only make things worse.
  lemma HopelessResult(s: State, w: Token, at: Time, jittered: Duration, fault: Fault, id: TaskId, floor: Time)
    requires Inv(s) && Hopeless(s, id, floor) && floor <= at && Owns(s.db.tasks[id], w)
    requires w in s.workers && s.workers[w].progress.Answer? && s.workers[w].message.task == id
    requires StepDrawn(s, Apply(w, at, jittered, fault))
    ensures Doomed(Some(ApplyRow(s.db.tasks[id], Decision(s.workers[w], at, jittered))), at)
  {
    var row, result := s.db.tasks[id], s.workers[w].progress.result;
    SnapshotIsCurrent(s, w, id);
    if result.outcome == Retryable {
      var draw :| IsDraw(draw) && jittered == JitterValue(row.request.policy, row.attempts, draw);
      LateRetryDooms(row, result, at, draw, floor);
    }
  }

  lemma LateRetryDooms(row: Task, result: SendResult, at: Time, draw: real, floor: Time)
    requires result.outcome == Retryable && IsDraw(draw) && floor <= at
    requires !RetriesInTime(row.request.policy, row.attempts, result.retryAfter, floor, row.request.Deadline())
    ensures var jitter := Some((d: Duration) => JitterValue(row.request.policy, row.attempts, draw));
      Doomed(Some(ApplyRow(row, Decide(row.request.policy, row.attempts, result, at, jitter))), at)
  {
    var policy, deadline := row.request.policy, row.request.Deadline();
    JitterByValue(policy, row.attempts, result, at, draw);
    if RetriesBefore(policy, row.attempts, result.retryAfter, at, draw, deadline) {
      LateDecision(policy, row.attempts, result.retryAfter, floor, at, draw, deadline);
    }
  }

  lemma LatePassDooms(row: Task, now: Time, floor: Time)
    requires row.leaseUntil.Some? && now > row.leaseUntil.value && floor <= now && !Recoverable(row, floor)
    ensures Doomed(Some(ScheduleRow(row, now)), now)
  {}

  lemma HopelessPass(s: State, step: Step, id: TaskId, floor: Time)
    requires Inv(s) && Enabled(s, step) && Hopeless(s, id, floor) && floor <= ClockAfter(step, floor)
    requires step.ScheduleDue? && id in step.rows && s.db.tasks[id].leaseUntil.Some?
    requires step.now > s.db.tasks[id].leaseUntil.value
    ensures Doomed(Row(Do(s, step).db.tasks, id), step.now)
  {
    LatePassDooms(s.db.tasks[id], step.now, floor);
    assert id in s.ledgers;
    ScheduleTurn(s, step.rows, step.now, id);
    assert Of(DoSchedule(s, step.rows, step.now), id).row == Some(ScheduleRow(s.db.tasks[id], step.now));
  }

  lemma HopelessStep(s: State, step: Step, id: TaskId, floor: Time)
    requires Inv(s) && Enabled(s, step) && StepDrawn(s, step) && Hopeless(s, id, floor)
    requires floor <= ClockAfter(step, floor)
    ensures Hopeless(Do(s, step), id, ClockAfter(step, floor))
         || Doomed(Row(Do(s, step).db.tasks, id), ClockAfter(step, floor))
  {
    var w := OwnerOf(s, id);
    LeaseFacts(s, id, w);
    LeaseUnderStep(s, step, id, w, s.db.tasks[id].leaseUntil.value);
    if Row(Do(s, step).db.tasks, id) == Row(s.db.tasks, id) {
      HopelessQuiet(s, step, id, w, floor);
    } else if step.Apply? {
      HopelessResult(s, step.worker, step.completedAt, step.jittered, step.fault, id, floor);
      ResultRow(s, step.worker, step.completedAt, step.jittered, step.fault, id);
    } else {
      HopelessPass(s, step, id, floor);
    }
  }

  lemma HopelessQuiet(s: State, step: Step, id: TaskId, w: Token, floor: Time)
    requires Inv(s) && Enabled(s, step) && Hopeless(s, id, floor) && floor <= ClockAfter(step, floor)
    requires Owns(s.db.tasks[id], w) && Row(Do(s, step).db.tasks, id) == Row(s.db.tasks, id)
    ensures Hopeless(Do(s, step), id, ClockAfter(step, floor))
  {
    LeaseFacts(s, id, w);
    SessionStep(s, step, w, id, s.db.tasks[id], floor);
    StillHopeless(Do(s, step).workers, s.db.tasks[id], id, w, floor, ClockAfter(step, floor));
  }

  lemma StillHopeless(workers: map<Token, Worker>, row: Task, id: TaskId, w: Token, floor: Time, later: Time)
    requires Owns(row, w) && floor <= later && !Recoverable(row, floor)
    requires w in workers && workers[w].message.task == id ==> !SessionHopeful(workers[w].progress, row, later)
    ensures !Hopeful(workers, row, id, later)
  {}

  lemma ResultRow(s: State, w: Token, at: Time, jittered: Duration, fault: Fault, id: TaskId)
    requires w in s.workers && s.workers[w].progress.Answer? && id in s.db.tasks
    requires Row(DoApply(s, w, at, jittered, fault).db.tasks, id) != Some(s.db.tasks[id])
    ensures Row(DoApply(s, w, at, jittered, fault).db.tasks, id) ==
      Some(ApplyRow(s.db.tasks[id], Decision(s.workers[w], at, jittered)))
  {}

  lemma {:induction false} HopelessStays(s: State, steps: seq<Step>, t: State, id: TaskId, floor: Time)
    requires Inv(s) && Realistic(s, steps, t, floor) && NoReplay(steps, id) && Hopeless(s, id, floor)
    ensures Hopeless(t, id, Latest(steps, floor)) || Doomed(Row(t.db.tasks, id), Latest(steps, floor))
    decreases |steps|
  {
    if steps == [] {
    } else {
      var mid, later := Do(s, steps[0]), ClockAfter(steps[0], floor);
      var w := OwnerOf(s, id);
      HopelessStep(s, steps[0], id, floor);
      StepKeeps(s, steps[0]);
      LedgersStay(s, steps[0], id);
      if Hopeless(mid, id, later) {
        HopelessStays(mid, steps[1..], t, id, later);
      } else {
        DoomStays(mid, steps[1..], t, id, later);
      }
    }
  }

  lemma LedgersStay(s: State, step: Step, id: TaskId)
    requires Inv(s) && Enabled(s, step) && id in s.ledgers
    ensures id in Do(s, step).ledgers
  {
    StepChanges(s, step, id);
  }

  // A task under a lease can be delivered without a replay, by clocks that have read `floor` and go
  // forward and a jitter that can be drawn, if and only if its session can still succeed or decide
  // a retry in time, or the scheduler can recover the lease with budget and lifetime left.
  lemma LeasedCanBeDelivered(s: State, id: TaskId, floor: Time)
    requires Reachable(s) && id in s.db.tasks && s.db.tasks[id].status == Delivering
    ensures (exists steps, t :: Delivery(s, steps, t, id, floor)) <==> Hopeful(s.workers, s.db.tasks[id], id, floor)
  {
    ReachableHolds(s);
    if Hopeful(s.workers, s.db.tasks[id], id, floor) {
      var steps, t := HopefulDelivers(s, id, floor);
    } else {
      forall steps, t | Delivery(s, steps, t, id, floor) ensures false {
        HopelessStays(s, steps, t, id, floor);
      }
    }
  }

  // Exactly when a task can still be delivered without a replay, whatever its status.
  lemma WhenDeliverable(s: State, id: TaskId, floor: Time)
    requires Reachable(s) && id in s.db.tasks
    ensures s.db.tasks[id].status == RetryWait ==> s.db.tasks[id].nextAttemptAt.Some?
    ensures (exists steps, t :: Delivery(s, steps, t, id, floor)) <==>
      var row := s.db.tasks[id];
      match row.status
      case Pending => true
      case Delivering => Hopeful(s.workers, row, id, floor)
      case RetryWait => Max(row.nextAttemptAt.value, floor) < row.request.Deadline()
      case Delivered => true
      case Dead => false
  {
    ReachableHolds(s);
    ShapeOf(s, id);
    match s.db.tasks[id].status
    case Pending =>
      var steps, t := PendingDelivers(s, id, floor);
    case Delivering => LeasedCanBeDelivered(s, id, floor);
    case RetryWait => WaitingCanBeDelivered(s, id, floor);
    case Delivered => assert Delivery(s, [], s, id, floor);
    case Dead =>
      forall steps, t | Delivery(s, steps, t, id, floor) ensures false {
        DoomStays(s, steps, t, id, floor);
      }
  }
}
